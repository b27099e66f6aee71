/**
 Weekly repartitioning of `rss_sources` and `rss_source_feeds`: the default partitions are buffered
 and cleared, missing weekly partitions are created in pairs, and the buffers are put back.
 A partitioned table is held the way the database holds it: one row set per partition.
 */
module Repartition {
  import opened Common
  import opened SourceIngest

  const DAY: int := 86_400_000_000
  const WEEK: int := 7 * DAY

  /** Monday 00:00 UTC of the week of `t`; the epoch was a Thursday. */
  function WeekStart(t: Instant): Instant {
    t - (t + 3 * DAY) % WEEK
  }

  predicate IsMonday(t: Instant) {
    (t + 3 * DAY) % WEEK == 0
  }

  /** Bounds of a weekly partition: lower inclusive, upper exclusive. */
  predicate Covers(week: Instant, t: Instant) {
    week <= t < week + WEEK
  }

  lemma WeekOfInstant(week: Instant, t: Instant)
    ensures IsMonday(WeekStart(t)) && Covers(WeekStart(t), t)
    ensures IsMonday(week) && Covers(week, t) ==> week == WeekStart(t)
  {
  }

  lemma MondaysDoNotOverlap(a: Instant, b: Instant)
    requires IsMonday(a) && IsMonday(b) && a < b + WEEK && b < a + WEEK
    ensures a == b
  {
  }

  /** A week runs from a Monday, such as 2026-01-05, to the next: 604,800 seconds from midnight UTC. */
  lemma WeekIsMondayToMonday(t: Instant)
    ensures var week := WeekStart(t);
            && week <= t < week + 604_800 * 1_000_000
            && (week - 1_767_571_200 * 1_000_000) % (604_800 * 1_000_000) == 0
    ensures IsMonday(t) <==> (t - 1_767_571_200 * 1_000_000) % (604_800 * 1_000_000) == 0
    ensures forall week :: Covers(week, t) <==> week <= t < week + 604_800 * 1_000_000
  {
  }

  /** A table partitioned by range: the weekly partitions by lower bound, and the default partition. */
  datatype Partitioned<T(==)> = Partitioned(weeks: map<Instant, set<T>>, rest: set<T>)

  function Weekly<T>(p: Partitioned<T>): set<T> {
    set w, r | w in p.weeks && r in p.weeks[w] :: r
  }

  function AllRows<T>(p: Partitioned<T>): set<T> {
    Weekly(p) + p.rest
  }

  /** Week-aligned ranges, every row inside its partition's range, the default only for uncovered rows. */
  ghost predicate ValidPartitions<T>(p: Partitioned<T>, at: T -> Instant) {
    && (forall w :: w in p.weeks ==> IsMonday(w))
    && (forall w, r :: w in p.weeks && r in p.weeks[w] ==> Covers(w, at(r)))
    && (forall w, r :: w in p.weeks && r in p.rest ==> !Covers(w, at(r)))
  }

  // --- The database's part ---

  datatype PartitionError = RangeOverlap | DefaultHoldsRows | DuplicateKey | MissingSource

  /** CREATE TABLE ... PARTITION OF ... FOR VALUES FROM (week) TO (week + 7 days). */
  function CreatePartition<T>(p: Partitioned<T>, at: T -> Instant, week: Instant): Result<Partitioned<T>, PartitionError> {
    if exists w :: w in p.weeks.Keys && w < week + WEEK && week < w + WEEK then Err(RangeOverlap)
    else if exists r :: r in p.rest && Covers(week, at(r)) then Err(DefaultHoldsRows)
    else Ok(p.(weeks := p.weeks[week := {}]))
  }

  /** Insert with tuple routing: each row goes to the partition whose range covers it. */
  function InsertRows<T>(p: Partitioned<T>, at: T -> Instant, rows: set<T>): Partitioned<T> {
    Partitioned(
      map w | w in p.weeks :: p.weeks[w] + (set r | r in rows && Covers(w, at(r))),
      p.rest + (set r | r in rows && forall w :: w in p.weeks.Keys ==> !Covers(w, at(r))))
  }

  function DropRows<T>(p: Partitioned<T>, rows: set<T>): Partitioned<T> {
    Partitioned(map w | w in p.weeks :: p.weeks[w] - rows, p.rest - rows)
  }

  // --- The two tables ---

  datatype Store = Store(sources: Partitioned<SourceRow>, links: Partitioned<SourceLink>)

  function SourceAt(r: SourceRow): Instant { r.publishedAt }
  function LinkAt(l: SourceLink): Instant { l.publishedAt }

  predicate RefersTo(l: SourceLink, r: SourceRow) {
    l.sourceId == r.id && l.publishedAt == r.publishedAt
  }

  ghost predicate Resolved(l: SourceLink, rows: set<SourceRow>) {
    exists r :: r in rows && RefersTo(l, r)
  }

  predicate SameKey(a: SourceRow, b: SourceRow) {
    a.publishedAt == b.publishedAt && (a.id == b.id || a.url == b.url)
  }

  ghost predicate ValidStore(s: Store) {
    && ValidPartitions(s.sources, SourceAt)
    && ValidPartitions(s.links, LinkAt)
    && (forall a, b :: a in AllRows(s.sources) && b in AllRows(s.sources) && SameKey(a, b) ==> a == b)
    && (forall l :: l in AllRows(s.links) ==> Resolved(l, AllRows(s.sources)))
  }

  /** Both tables have the same weekly ranges. */
  predicate Paired(s: Store) {
    s.sources.weeks.Keys == s.links.weeks.Keys
  }

  // --- The steps of one run ---

  /** Links that the cascade from the deleted default sources takes along. */
  function Orphans(links: Partitioned<SourceLink>, deleted: set<SourceRow>): set<SourceLink> {
    set l | l in AllRows(links) && exists r :: r in deleted && RefersTo(l, r)
  }

  /** DELETE on the link default, then on the source default with its cascade. */
  function ClearDefaults(s: Store): Store {
    var links := s.links.(rest := {});
    Store(s.sources.(rest := {}), DropRows(links, Orphans(links, s.sources.rest)))
  }

  /** Weeks of the sources later than the epoch, stored or buffered. */
  function WeeksNeeded(s: Store, buffer: set<SourceRow>): set<Instant> {
    set r | r in AllRows(s.sources) + buffer && r.publishedAt > EPOCH :: WeekStart(r.publishedAt)
  }

  ghost predicate Ascending(weeks: seq<Instant>) {
    forall i, j :: 0 <= i < j < |weeks| ==> weeks[i] < weeks[j]
  }

  ghost predicate Lists(weeks: seq<Instant>, needed: set<Instant>) {
    Ascending(weeks) && forall w :: w in weeks <==> w in needed
  }

  function CreateIfMissing<T>(p: Partitioned<T>, at: T -> Instant, week: Instant): Result<Partitioned<T>, PartitionError> {
    if week in p.weeks then Ok(p) else CreatePartition(p, at, week)
  }

  function CreatePair(s: Store, week: Instant): Result<Store, PartitionError> {
    match CreateIfMissing(s.sources, SourceAt, week)
    case Err(e) => Err(e)
    case Ok(sources) =>
      match CreateIfMissing(s.links, LinkAt, week)
      case Err(e) => Err(e)
      case Ok(links) => Ok(Store(sources, links))
  }

  function CreatePairs(s: Store, weeks: seq<Instant>): Result<Store, PartitionError> {
    if weeks == [] then Ok(s)
    else
      match CreatePairs(s, weeks[..|weeks| - 1])
      case Err(e) => Err(e)
      case Ok(mid) => CreatePair(mid, weeks[|weeks| - 1])
  }

  predicate KeyTaken(rows: set<SourceRow>, r: SourceRow) {
    exists q :: q in rows && q.id == r.id && q.publishedAt == r.publishedAt
  }

  predicate UrlTaken(rows: set<SourceRow>, r: SourceRow) {
    exists q :: q in rows && q.url == r.url && q.publishedAt == r.publishedAt
  }

  /** Buffered rows whose primary key no stored row has. */
  function Unstored(stored: set<SourceRow>, buffer: set<SourceRow>): set<SourceRow> {
    set r | r in buffer && !KeyTaken(stored, r)
  }

  /** The added rows share no key with a stored row or with each other. */
  predicate NoClash(stored: set<SourceRow>, added: set<SourceRow>) {
    forall r, q :: r in added && q in stored + added && q != r ==> !SameKey(q, r)
  }

  /** Rows whose primary key is taken are skipped; a taken (url, published_at) is an error. */
  function RestoreSources(s: Store, buffer: set<SourceRow>): Result<Store, PartitionError> {
    var stored := AllRows(s.sources);
    var added := Unstored(stored, buffer);
    if NoClash(stored, added) then Ok(s.(sources := InsertRows(s.sources, SourceAt, added))) else Err(DuplicateKey)
  }

  /** Links that are there are skipped; the others need their source. */
  function RestoreLinks(s: Store, buffer: set<SourceLink>): Result<Store, PartitionError> {
    var added := buffer - AllRows(s.links);
    if exists l :: l in added && forall r :: r in AllRows(s.sources) ==> !RefersTo(l, r) then Err(MissingSource)
    else Ok(s.(links := InsertRows(s.links, LinkAt, added)))
  }

  function Repartitioned(s: Store, weeks: seq<Instant>): Result<Store, PartitionError> {
    match CreatePairs(ClearDefaults(s), weeks)
    case Err(e) => Err(e)
    case Ok(s1) =>
      match RestoreSources(s1, s.sources.rest)
      case Err(e) => Err(e)
      case Ok(s2) => RestoreLinks(s2, s.links.rest)
  }

  ghost predicate IsNextId(rows: set<SourceRow>, next: nat) {
    if rows == {} then next == 1
    else (exists r :: r in rows && next == r.id + 1) && forall r :: r in rows ==> r.id < next
  }

  /** The primary key (id, published_at) identifies the row. */
  ghost predicate PrimaryKey(rows: set<SourceRow>) {
    forall a, b :: a in rows && b in rows && a.id == b.id && a.publishedAt == b.publishedAt ==> a == b
  }

  /** The next id is above every stored id and follows the largest one; an empty table starts at one. */
  lemma NextIdFollows(rows: set<SourceRow>, next: nat, r: SourceRow)
    requires IsNextId(rows, next)
    ensures r in rows ==> r.id < next && exists q :: q in rows && q.id == next - 1
    ensures rows == {} ==> next == 1
  {
  }

  // --- Rows and ranges under each step ---

  /** Rows inserted one after the other are routed like rows inserted together. */
  lemma InsertMore<T>(p: Partitioned<T>, at: T -> Instant, rows: set<T>, r: T)
    ensures InsertRows(InsertRows(p, at, rows), at, {r}) == InsertRows(p, at, rows + {r})
  {
    var mid := InsertRows(p, at, rows);
    assert mid.weeks.Keys == p.weeks.Keys;
    forall w | w in p.weeks ensures InsertRows(mid, at, {r}).weeks[w] == InsertRows(p, at, rows + {r}).weeks[w] {
      WeekInsertMore(p.weeks[w], at, rows, r, w);
    }
    assert InsertRows(mid, at, {r}).weeks == InsertRows(p, at, rows + {r}).weeks;
    assert InsertRows(mid, at, {r}).rest == InsertRows(p, at, rows + {r}).rest;
  }

  lemma WeekInsertMore<T>(stored: set<T>, at: T -> Instant, rows: set<T>, r: T, w: Instant)
    ensures stored + (set x | x in rows && Covers(w, at(x))) + (set x | x in {r} && Covers(w, at(x)))
         == stored + (set x | x in rows + {r} && Covers(w, at(x)))
  {
  }

  lemma InsertNone<T>(p: Partitioned<T>, at: T -> Instant)
    ensures InsertRows(p, at, {}) == p
  {
    var p' := InsertRows(p, at, {});
    forall w | w in p.weeks ensures p'.weeks[w] == p.weeks[w] {
    }
    assert p'.weeks == p.weeks && p'.rest == p.rest;
  }

  lemma InsertedRows<T>(p: Partitioned<T>, at: T -> Instant, rows: set<T>)
    ensures AllRows(InsertRows(p, at, rows)) == AllRows(p) + rows
  {
    var p' := InsertRows(p, at, rows);
    forall r | r in rows ensures r in AllRows(p') {
      if w :| w in p.weeks && Covers(w, at(r)) {
        assert r in p'.weeks[w];
      }
    }
    forall r | r in Weekly(p) ensures r in Weekly(p') {
      var w :| w in p.weeks && r in p.weeks[w];
      assert r in p'.weeks[w];
    }
  }

  lemma WeeksAfterInsert<T>(p: Partitioned<T>, at: T -> Instant, rows: set<T>)
    requires ValidPartitions(p, at)
    ensures ValidPartitions(InsertRows(p, at, rows), at)
    ensures InsertRows(p, at, rows).weeks.Keys == p.weeks.Keys
    ensures AllRows(InsertRows(p, at, rows)) == AllRows(p) + rows
  {
    var p' := InsertRows(p, at, rows);
    InsertedRows(p, at, rows);
    forall w, r | w in p'.weeks && r in p'.rest ensures !Covers(w, at(r)) {
      assert w in p.weeks;
    }
  }

  lemma RowsAfterDrop<T>(p: Partitioned<T>, at: T -> Instant, rows: set<T>)
    requires ValidPartitions(p, at)
    ensures ValidPartitions(DropRows(p, rows), at)
    ensures DropRows(p, rows).weeks.Keys == p.weeks.Keys
    ensures AllRows(DropRows(p, rows)) == AllRows(p) - rows
  {
    var p' := DropRows(p, rows);
    forall r | r in Weekly(p) - rows ensures r in Weekly(p') {
      var w :| w in p.weeks && r in p.weeks[w];
      assert r in p'.weeks[w];
    }
  }

  lemma CreateSucceeds<T>(p: Partitioned<T>, at: T -> Instant, week: Instant)
    requires ValidPartitions(p, at) && p.rest == {} && IsMonday(week)
    ensures CreateIfMissing(p, at, week).Ok?
    ensures var p' := CreateIfMissing(p, at, week).value;
            && ValidPartitions(p', at) && p'.rest == {}
            && p'.weeks.Keys == p.weeks.Keys + {week} && Weekly(p') == Weekly(p)
  {
    forall w | w in p.weeks && w < week + WEEK && week < w + WEEK ensures w == week {
      MondaysDoNotOverlap(w, week);
    }
    var p' := CreateIfMissing(p, at, week).value;
    forall r ensures r in Weekly(p') <==> r in Weekly(p) {
      if r in Weekly(p) {
        var w :| w in p.weeks && r in p.weeks[w];
        assert r in p'.weeks[w];
      }
    }
  }

  /**
   A partition for a week is created exactly if there is none and the default holds no row of that
   week; then every row is where it was, and every row is still in its range.
   */
  lemma CreateIsSafe<T>(p: Partitioned<T>, at: T -> Instant, week: Instant)
    requires ValidPartitions(p, at) && IsMonday(week)
    ensures CreatePartition(p, at, week).Ok?
       <==> week !in p.weeks && forall r :: r in p.rest ==> !(week <= at(r) < week + 604_800 * 1_000_000)
    ensures CreatePartition(p, at, week).Ok? ==>
              var p' := CreatePartition(p, at, week).value;
              && ValidPartitions(p', at) && p'.rest == p.rest && p'.weeks.Keys == p.weeks.Keys + {week}
              && p'.weeks[week] == {} && forall w :: w in p.weeks ==> p'.weeks[w] == p.weeks[w]
  {
    forall w | w in p.weeks && w < week + WEEK && week < w + WEEK ensures w == week {
      MondaysDoNotOverlap(w, week);
    }
    assert WEEK == 604_800 * 1_000_000;
    if week in p.weeks {
      assert week < week + WEEK;
    }
  }

  /** No creation in the loop can fail: ranges never overlap, and the defaults are empty. */
  lemma {:induction false} CreatePairsSucceeds(s: Store, weeks: seq<Instant>)
    requires ValidPartitions(s.sources, SourceAt) && s.sources.rest == {}
    requires ValidPartitions(s.links, LinkAt) && s.links.rest == {}
    requires forall w :: w in weeks ==> IsMonday(w)
    ensures CreatePairs(s, weeks).Ok?
    ensures var s' := CreatePairs(s, weeks).value;
            && ValidPartitions(s'.sources, SourceAt) && s'.sources.rest == {} && Weekly(s'.sources) == Weekly(s.sources)
            && ValidPartitions(s'.links, LinkAt) && s'.links.rest == {} && Weekly(s'.links) == Weekly(s.links)
            && s'.sources.weeks.Keys == s.sources.weeks.Keys + (set w | w in weeks)
            && s'.links.weeks.Keys == s.links.weeks.Keys + (set w | w in weeks)
  {
    if weeks != [] {
      var n := |weeks| - 1;
      CreatePairsSucceeds(s, weeks[..n]);
      var mid := CreatePairs(s, weeks[..n]).value;
      assert weeks[n] in weeks;
      CreateSucceeds(mid.sources, SourceAt, weeks[n]);
      CreateSucceeds(mid.links, LinkAt, weeks[n]);
      assert forall w :: w in weeks <==> w in weeks[..n] || w == weeks[n];
    }
  }

  // --- A whole run ---

  lemma ClearedStore(s: Store)
    requires ValidStore(s)
    ensures var c := ClearDefaults(s);
            && ValidPartitions(c.sources, SourceAt) && c.sources.rest == {}
            && AllRows(c.sources) == Weekly(s.sources) && c.sources.weeks.Keys == s.sources.weeks.Keys
            && ValidPartitions(c.links, LinkAt) && c.links.rest == {}
            && AllRows(c.links) == Weekly(s.links) - Lost(s) && c.links.weeks.Keys == s.links.weeks.Keys
  {
    var links := s.links.(rest := {});
    RowsAfterDrop(links, LinkAt, Orphans(links, s.sources.rest));
    assert Weekly(links) == Weekly(s.links);
    assert Weekly(s.sources.(rest := {})) == Weekly(s.sources);
    assert Orphans(links, s.sources.rest) == Lost(s);
  }

  /** Links in a weekly partition whose source sits in the default partition. */
  function Lost(s: Store): set<SourceLink> {
    set l | l in Weekly(s.links) && exists r :: r in s.sources.rest && RefersTo(l, r)
  }

  lemma RestoreSourcesSucceeds(s: Store, buffer: set<SourceRow>)
    requires ValidPartitions(s.sources, SourceAt) && AllRows(s.sources) !! buffer
    requires forall a, b :: a in AllRows(s.sources) + buffer && b in AllRows(s.sources) + buffer && SameKey(a, b) ==> a == b
    ensures RestoreSources(s, buffer) == Ok(s.(sources := InsertRows(s.sources, SourceAt, buffer)))
  {
    var stored := AllRows(s.sources);
    forall r | r in buffer ensures !KeyTaken(stored, r) {
      if q :| q in stored && q.id == r.id && q.publishedAt == r.publishedAt {
        assert SameKey(q, r);
      }
    }
    assert Unstored(stored, buffer) == buffer;
  }

  ghost predicate WeeklyDisjoint(s: Store) {
    Weekly(s.sources) !! s.sources.rest
  }

  lemma DefaultIsDisjoint(s: Store)
    requires ValidStore(s)
    ensures WeeklyDisjoint(s)
  {
    forall r | r in Weekly(s.sources) ensures r !in s.sources.rest {
      var w :| w in s.sources.weeks && r in s.sources.weeks[w];
    }
  }

  lemma NeededAreMondays(s: Store, buffer: set<SourceRow>)
    ensures forall w :: w in WeeksNeeded(s, buffer) ==> IsMonday(w)
  {
    forall w | w in WeeksNeeded(s, buffer) ensures IsMonday(w) {
      var r :| r in AllRows(s.sources) + buffer && r.publishedAt > EPOCH && w == WeekStart(r.publishedAt);
      WeekOfInstant(w, r.publishedAt);
    }
  }

  /**
   From every valid store the run succeeds.  It keeps every source, drops exactly the lost links,
   leaves valid partitions, and both tables gain exactly the missing weeks of the needed ones.
   */
  lemma RunOutcome(s: Store, weeks: seq<Instant>)
    requires ValidStore(s) && Lists(weeks, WeeksNeeded(ClearDefaults(s), s.sources.rest))
    ensures Repartitioned(s, weeks).Ok?
    ensures var s' := Repartitioned(s, weeks).value;
            && AllRows(s'.sources) == AllRows(s.sources)
            && AllRows(s'.links) == AllRows(s.links) - Lost(s)
            && s'.sources.weeks.Keys == s.sources.weeks.Keys + (set w | w in weeks)
            && s'.links.weeks.Keys == s.links.weeks.Keys + (set w | w in weeks)
            && ValidStore(s')
  {
    var c := ClearDefaults(s);
    ClearedStore(s);
    NeededAreMondays(c, s.sources.rest);
    CreatePairsSucceeds(c, weeks);
    var s1 := CreatePairs(c, weeks).value;
    DefaultIsDisjoint(s);
    assert AllRows(s1.sources) == Weekly(s.sources);
    assert AllRows(s1.sources) + s.sources.rest == AllRows(s.sources);
    RestoreSourcesSucceeds(s1, s.sources.rest);
    WeeksAfterInsert(s1.sources, SourceAt, s.sources.rest);
    var s2 := RestoreSources(s1, s.sources.rest).value;
    assert AllRows(s2.sources) == AllRows(s.sources);
    forall l | l in s.links.rest ensures Resolved(l, AllRows(s2.sources)) {
      assert l in AllRows(s.links);
    }
    WeeksAfterInsert(s2.links, LinkAt, s.links.rest - AllRows(s2.links));
    LostIsWeekly(s);
    LinksAddUp(s, AllRows(s2.links));
  }

  lemma LostIsWeekly(s: Store)
    requires ValidStore(s)
    ensures Lost(s) !! s.links.rest
  {
    forall l | l in Lost(s) ensures l !in s.links.rest {
      var w :| w in s.links.weeks && l in s.links.weeks[w];
    }
  }

  lemma LinksAddUp(s: Store, kept: set<SourceLink>)
    requires Lost(s) !! s.links.rest && kept == Weekly(s.links) - Lost(s)
    ensures kept + s.links.rest == AllRows(s.links) - Lost(s)
  {
  }

  /** After a run every link has its source, by id and date, and no two sources share an id or a URL at one date. */
  lemma KeysAfterRun(s: Store, weeks: seq<Instant>, l: SourceLink, a: SourceRow, b: SourceRow)
    requires ValidStore(s) && Lists(weeks, WeeksNeeded(ClearDefaults(s), s.sources.rest))
    ensures Repartitioned(s, weeks).Ok?
    ensures var s' := Repartitioned(s, weeks).value;
            && (l in AllRows(s'.links) ==>
                  exists r :: r in AllRows(s'.sources) && r.id == l.sourceId && r.publishedAt == l.publishedAt)
            && ((a in AllRows(s'.sources) && b in AllRows(s'.sources) && a.publishedAt == b.publishedAt
                 && (a.id == b.id || a.url == b.url)) ==> a == b)
  {
    RunOutcome(s, weeks);
    var s' := Repartitioned(s, weeks).value;
    if l in AllRows(s'.links) {
      assert Resolved(l, AllRows(s'.sources));
      var r :| r in AllRows(s'.sources) && RefersTo(l, r);
    }
    if a in AllRows(s'.sources) && b in AllRows(s'.sources) && a.publishedAt == b.publishedAt
       && (a.id == b.id || a.url == b.url) {
      assert SameKey(a, b);
    }
  }

  /** The source buffer's insert keeps both keys unique, keeps what is stored, and leaves no buffered key missing. */
  lemma RestoreKeepsKeys(s: Store, buffer: set<SourceRow>, a: SourceRow, b: SourceRow)
    requires RestoreSources(s, buffer).Ok?
    requires forall x, y :: (x in AllRows(s.sources) && y in AllRows(s.sources) && x.publishedAt == y.publishedAt
                             && (x.id == y.id || x.url == y.url)) ==> x == y
    ensures var rows := AllRows(RestoreSources(s, buffer).value.sources);
            && AllRows(s.sources) <= rows <= AllRows(s.sources) + buffer
            && (a in rows && b in rows && a.publishedAt == b.publishedAt && (a.id == b.id || a.url == b.url) ==> a == b)
            && (a in buffer ==> exists r :: r in rows && r.id == a.id && r.publishedAt == a.publishedAt)
  {
    var stored := AllRows(s.sources);
    var added := Unstored(stored, buffer);
    InsertedRows(s.sources, SourceAt, added);
    assert SameKey(a, b) == (a.publishedAt == b.publishedAt && (a.id == b.id || a.url == b.url));
    if a in buffer && a !in added {
      var q :| q in stored && q.id == a.id && q.publishedAt == a.publishedAt;
    }
  }

  // --- Conservation ---

  /** Links survive a run exactly when no link outside the default refers to a source inside the default. */
  lemma LinksAreKeptIff(s: Store, weeks: seq<Instant>)
    requires ValidStore(s) && Lists(weeks, WeeksNeeded(ClearDefaults(s), s.sources.rest))
    ensures Repartitioned(s, weeks).Ok?
    ensures AllRows(Repartitioned(s, weeks).value.links) == AllRows(s.links) <==>
            forall l, r :: l in Weekly(s.links) && r in s.sources.rest ==> !RefersTo(l, r)
  {
    RunOutcome(s, weeks);
    assert Lost(s) <= AllRows(s.links);
    if AllRows(s.links) - Lost(s) == AllRows(s.links) {
      assert Lost(s) == {};
      forall l, r | l in Weekly(s.links) && r in s.sources.rest ensures !RefersTo(l, r) {
        assert l !in Lost(s);
      }
    } else {
      var l :| l in Lost(s);
      var r :| r in s.sources.rest && RefersTo(l, r);
    }
  }

  lemma PairedLosesNothing(s: Store)
    requires ValidStore(s) && Paired(s)
    ensures Lost(s) == {}
  {
    forall l, r | l in Weekly(s.links) && r in s.sources.rest ensures !RefersTo(l, r) {
      var w :| w in s.links.weeks && l in s.links.weeks[w];
      assert Covers(w, LinkAt(l)) && !Covers(w, SourceAt(r));
    }
  }

  /** With paired ranges a run conserves both tables, keeps the ranges paired and the store valid. */
  lemma PairedRunConserves(s: Store, weeks: seq<Instant>)
    requires ValidStore(s) && Paired(s) && Lists(weeks, WeeksNeeded(ClearDefaults(s), s.sources.rest))
    ensures Repartitioned(s, weeks).Ok?
    ensures var s' := Repartitioned(s, weeks).value;
            && AllRows(s'.sources) == AllRows(s.sources)
            && AllRows(s'.links) == AllRows(s.links)
            && ValidStore(s') && Paired(s')
  {
    RunOutcome(s, weeks);
    PairedLosesNothing(s);
  }

  /** An unpaired store, and the link its run deletes. */
  lemma UnpairedRunLosesLink() returns (s: Store, link: SourceLink)
    ensures ValidStore(s) && !Paired(s) && link in AllRows(s.links)
    ensures forall weeks :: Lists(weeks, WeeksNeeded(ClearDefaults(s), s.sources.rest)) ==>
              Repartitioned(s, weeks).Ok? && link !in AllRows(Repartitioned(s, weeks).value.links)
  {
    var week := WeekStart(DAY);
    WeekOfInstant(week, DAY);
    var row := SourceRow(1, "t", "u", DAY, None, None, None);
    link := SourceLink(1, 7, DAY);
    s := Store(Partitioned(map[], {row}), Partitioned(map[week := {link}], {}));
    assert link in s.links.weeks[week] && link in Weekly(s.links);
    assert row in AllRows(s.sources) && RefersTo(link, row);
    forall l | l in AllRows(s.links) ensures Resolved(l, AllRows(s.sources)) {
      assert l == link;
    }
    forall weeks | Lists(weeks, WeeksNeeded(ClearDefaults(s), s.sources.rest))
      ensures Repartitioned(s, weeks).Ok? && link !in AllRows(Repartitioned(s, weeks).value.links)
    {
      RunOutcome(s, weeks);
      assert link in Lost(s);
    }
  }

  // --- Routing ---

  lemma PlaceOfRow<T>(p: Partitioned<T>, at: T -> Instant, r: T, week: Instant)
    requires ValidPartitions(p, at) && r in AllRows(p)
    ensures r in p.rest <==> WeekStart(at(r)) !in p.weeks
    ensures week in p.weeks && r in p.weeks[week] <==> week in p.weeks && week == WeekStart(at(r))
  {
    var own := WeekStart(at(r));
    WeekOfInstant(own, at(r));
    if r !in p.rest {
      var w :| w in p.weeks && r in p.weeks[w];
      WeekOfInstant(w, at(r));
    }
    WeekOfInstant(week, at(r));
  }

  lemma LateWeekIsListed(s: Store, weeks: seq<Instant>, r: SourceRow)
    requires ValidStore(s) && Lists(weeks, WeeksNeeded(ClearDefaults(s), s.sources.rest))
    requires r in AllRows(s.sources) && r.publishedAt > EPOCH
    ensures WeekStart(r.publishedAt) in weeks
  {
    ClearedStore(s);
    assert r in AllRows(ClearDefaults(s).sources) + s.sources.rest;
    assert WeekStart(r.publishedAt) in WeeksNeeded(ClearDefaults(s), s.sources.rest);
  }

  /** Afterwards a source later than the epoch lies in its own week's partition, and in no other. */
  lemma LateSourcesAreRouted(s: Store, weeks: seq<Instant>, r: SourceRow, week: Instant)
    requires ValidStore(s) && Lists(weeks, WeeksNeeded(ClearDefaults(s), s.sources.rest))
    requires r in AllRows(s.sources) && r.publishedAt > EPOCH
    ensures Repartitioned(s, weeks).Ok?
    ensures var sources := Repartitioned(s, weeks).value.sources;
            && r !in sources.rest
            && (week in sources.weeks && r in sources.weeks[week] <==> week == WeekStart(r.publishedAt))
  {
    RunOutcome(s, weeks);
    LateWeekIsListed(s, weeks, r);
    PlaceOfRow(Repartitioned(s, weeks).value.sources, SourceAt, r, week);
  }

  /** A link later than the epoch that was not lost lies in its own week's partition, and in no other. */
  lemma LateLinksAreRouted(s: Store, weeks: seq<Instant>, l: SourceLink, week: Instant)
    requires ValidStore(s) && Lists(weeks, WeeksNeeded(ClearDefaults(s), s.sources.rest))
    requires l in AllRows(s.links) - Lost(s) && l.publishedAt > EPOCH
    ensures Repartitioned(s, weeks).Ok?
    ensures var links := Repartitioned(s, weeks).value.links;
            && l !in links.rest
            && (week in links.weeks && l in links.weeks[week] <==> week == WeekStart(l.publishedAt))
  {
    RunOutcome(s, weeks);
    assert Resolved(l, AllRows(s.sources));
    var r :| r in AllRows(s.sources) && RefersTo(l, r);
    LateWeekIsListed(s, weeks, r);
    PlaceOfRow(Repartitioned(s, weeks).value.links, LinkAt, l, week);
  }

  /** What stays in the default is dated at the epoch or before, in a week without a partition. */
  lemma DefaultKeepsEpochRows(s: Store, weeks: seq<Instant>, r: SourceRow)
    requires ValidStore(s) && Lists(weeks, WeeksNeeded(ClearDefaults(s), s.sources.rest))
    ensures Repartitioned(s, weeks).Ok?
    ensures var sources := Repartitioned(s, weeks).value.sources;
            r in sources.rest <==>
            r in AllRows(s.sources) && r.publishedAt <= EPOCH && WeekStart(r.publishedAt) !in sources.weeks
  {
    RunOutcome(s, weeks);
    var sources := Repartitioned(s, weeks).value.sources;
    if r in AllRows(s.sources) {
      if r.publishedAt > EPOCH {
        LateWeekIsListed(s, weeks, r);
      }
      PlaceOfRow(sources, SourceAt, r, EPOCH);
    }
  }

  /** A store whose epoch row leaves the default, because another source is dated later in the epoch's week. */
  lemma EpochRowLeavesDefault() returns (s: Store, row: SourceRow)
    ensures ValidStore(s) && Paired(s) && row in s.sources.rest && row.publishedAt == EPOCH
    ensures forall weeks :: Lists(weeks, WeeksNeeded(ClearDefaults(s), s.sources.rest)) ==>
              Repartitioned(s, weeks).Ok? && row !in Repartitioned(s, weeks).value.sources.rest
  {
    row := SourceRow(1, "t", "u", EPOCH, None, None, None);
    var later := SourceRow(2, "t", "v", EPOCH + DAY, None, None, None);
    s := Store(Partitioned(map[], {row, later}), Partitioned(map[], {}));
    assert Weekly(s.sources) == {} && Weekly(s.links) == {};
    assert WeekStart(later.publishedAt) == WeekStart(EPOCH);
    forall weeks | Lists(weeks, WeeksNeeded(ClearDefaults(s), s.sources.rest))
      ensures Repartitioned(s, weeks).Ok? && row !in Repartitioned(s, weeks).value.sources.rest
    {
      RunOutcome(s, weeks);
      LateWeekIsListed(s, weeks, later);
      DefaultKeepsEpochRows(s, weeks, row);
    }
  }

  lemma NeededWeeks(s: Store)
    requires ValidStore(s)
    ensures WeeksNeeded(ClearDefaults(s), s.sources.rest)
         == set r | r in AllRows(s.sources) && r.publishedAt > EPOCH :: WeekStart(r.publishedAt)
  {
    ClearedStore(s);
    assert AllRows(ClearDefaults(s).sources) + s.sources.rest == AllRows(s.sources);
  }

  /** A second run lists the same weeks, finds them all in both tables and creates no partition. */
  lemma SecondRunCreatesNothing(s: Store, weeks: seq<Instant>, again: seq<Instant>)
    requires ValidStore(s) && Lists(weeks, WeeksNeeded(ClearDefaults(s), s.sources.rest))
    requires Repartitioned(s, weeks).Ok?
    requires var s' := Repartitioned(s, weeks).value; Lists(again, WeeksNeeded(ClearDefaults(s'), s'.sources.rest))
    ensures again == weeks
    ensures var s' := Repartitioned(s, weeks).value;
            && Repartitioned(s', again).Ok?
            && Repartitioned(s', again).value.sources.weeks.Keys == s'.sources.weeks.Keys
            && Repartitioned(s', again).value.links.weeks.Keys == s'.links.weeks.Keys
  {
    RunOutcome(s, weeks);
    var s' := Repartitioned(s, weeks).value;
    NeededWeeks(s);
    NeededWeeks(s');
    SameListing(weeks, again, WeeksNeeded(ClearDefaults(s), s.sources.rest));
    RunOutcome(s', again);
  }

  lemma Inhabited(s: set<Instant>)
    ensures s == {} || exists x :: x in s
  {
    if forall x :: x !in s {
      assert s == {};
    }
  }

  lemma EmptyListing(xs: seq<Instant>, needed: set<Instant>)
    requires Lists(xs, needed)
    ensures xs == [] <==> needed == {}
  {
    if xs != [] {
      assert xs[0] in xs;
    }
    Inhabited(needed);
    if needed != {} {
      var w: Instant :| w in needed;
      assert w in xs;
    }
  }

  lemma LastListed(xs: seq<Instant>, needed: set<Instant>)
    requires Lists(xs, needed) && xs != []
    ensures var last := xs[|xs| - 1];
            && last in needed && (forall w :: w in needed ==> w <= last)
            && Lists(xs[..|xs| - 1], needed - {last})
  {
    var n := |xs| - 1;
    assert xs[n] in xs;
    forall w ensures w in xs[..n] <==> w in needed - {xs[n]} {
      assert w in xs <==> w in xs[..n] || w == xs[n];
    }
  }

  lemma {:induction false} SameListing(xs: seq<Instant>, ys: seq<Instant>, needed: set<Instant>)
    requires Lists(xs, needed) && Lists(ys, needed)
    ensures xs == ys
  {
    EmptyListing(xs, needed);
    EmptyListing(ys, needed);
    if needed != {} {
      LastListed(xs, needed);
      LastListed(ys, needed);
      var n, m := |xs| - 1, |ys| - 1;
      SameListing(xs[..n], ys[..m], needed - {xs[n]});
      assert xs == xs[..n] + [xs[n]] && ys == ys[..m] + [ys[m]];
    }
  }

  // --- The run in place ---

  datatype Report = Report(
    sourceRows: nat,
    linkRows: nat,
    sourcePartitionsCreated: int,
    linkPartitionsCreated: int,
    weeksCovered: nat)

  ghost predicate RunMatches(before: Store, weeks: seq<Instant>, after: Store, nextId: nat,
                             outcome: Result<Report, PartitionError>)
  {
    match Repartitioned(before, weeks)
    case Err(e) => outcome == Err(e)
    case Ok(s) =>
      && after == s
      && IsNextId(AllRows(s.sources), nextId)
      && outcome == Ok(Report(|before.sources.rest|, |before.links.rest|,
                              SizeChange(before.sources, s.sources), SizeChange(before.links, s.links), |weeks|))
  }

  function SizeChange<T>(before: Partitioned<T>, after: Partitioned<T>): int {
    |after.weeks.Keys| - |before.weeks.Keys|
  }

  lemma RunIsComposed(before: Store, weeks: seq<Instant>, paired: Store, filled: Store, after: Store)
    requires CreatePairs(ClearDefaults(before), weeks) == Ok(paired)
    requires RestoreSources(paired, before.sources.rest) == Ok(filled)
    requires RestoreLinks(filled, before.links.rest) == Ok(after)
    ensures Repartitioned(before, weeks) == Ok(after)
    ensures SizeChange(before.sources, after.sources) == SizeChange(ClearDefaults(before).sources, paired.sources)
    ensures SizeChange(before.links, after.links) == SizeChange(ClearDefaults(before).links, paired.links)
  {
    ClearKeepsWeeks(before);
    RestoresKeepWeeks(paired, filled, after, before.sources.rest, before.links.rest);
  }

  lemma ClearKeepsWeeks(s: Store)
    ensures ClearDefaults(s).sources.weeks.Keys == s.sources.weeks.Keys
    ensures ClearDefaults(s).links.weeks.Keys == s.links.weeks.Keys
  {
  }

  lemma RestoresKeepWeeks(paired: Store, filled: Store, after: Store, sources: set<SourceRow>, links: set<SourceLink>)
    requires RestoreSources(paired, sources) == Ok(filled) && RestoreLinks(filled, links) == Ok(after)
    ensures after.sources.weeks.Keys == paired.sources.weeks.Keys
    ensures after.links.weeks.Keys == paired.links.weeks.Keys
  {
    assert filled.sources.weeks.Keys == paired.sources.weeks.Keys && filled.links == paired.links;
  }

  lemma RunFails(before: Store, weeks: seq<Instant>, paired: Store, filled: Store, after: Store, nextId: nat,
                 e: PartitionError)
    requires || CreatePairs(ClearDefaults(before), weeks) == Err(e)
             || (CreatePairs(ClearDefaults(before), weeks) == Ok(paired)
                 && (|| RestoreSources(paired, before.sources.rest) == Err(e)
                     || (RestoreSources(paired, before.sources.rest) == Ok(filled)
                         && RestoreLinks(filled, before.links.rest) == Err(e))))
    ensures RunMatches(before, weeks, after, nextId, Err(e))
  {
  }

  lemma {:induction false} CreateErrorIsFinal(s: Store, weeks: seq<Instant>, n: nat)
    requires n <= |weeks| && CreatePairs(s, weeks[..n]).Err?
    ensures CreatePairs(s, weeks) == CreatePairs(s, weeks[..n])
  {
    if n < |weeks| {
      assert weeks[..|weeks| - 1][..n] == weeks[..n];
      CreateErrorIsFinal(s, weeks[..|weeks| - 1], n);
    } else {
      assert weeks[..n] == weeks;
    }
  }

  lemma {:induction false} LeastExists(s: set<Instant>) returns (least: Instant)
    requires s != {}
    ensures least in s && forall w :: w in s ==> least <= w
  {
    Inhabited(s);
    var x: Instant :| x in s;
    least := x;
    if s != {x} {
      var m := LeastExists(s - {x});
      least := if x < m then x else m;
      assert forall w :: w in s ==> w == x || w in s - {x};
    }
  }

  // --- The inserts, row by row ---

  /** The table after one row, or nothing if its URL is taken. */
  function SourceInserted(p: Partitioned<SourceRow>, r: SourceRow): Option<Partitioned<SourceRow>> {
    if KeyTaken(AllRows(p), r) then Some(p)
    else if UrlTaken(AllRows(p), r) then None
    else Some(InsertRows(p, SourceAt, {r}))
  }

  function LinkInserted(s: Store, l: SourceLink): Option<Partitioned<SourceLink>> {
    if l in AllRows(s.links) then Some(s.links)
    else if forall r :: r in AllRows(s.sources) ==> !RefersTo(l, r) then None
    else Some(InsertRows(s.links, LinkAt, {l}))
  }

  ghost predicate SourcesSoFar(before: Store, buffer: set<SourceRow>, remaining: set<SourceRow>, now: Partitioned<SourceRow>) {
    var done := Unstored(AllRows(before.sources), buffer) - remaining;
    now == InsertRows(before.sources, SourceAt, done) && NoClash(AllRows(before.sources), done)
  }

  lemma SourcesStart(before: Store, buffer: set<SourceRow>)
    ensures SourcesSoFar(before, buffer, buffer, before.sources)
  {
    assert Unstored(AllRows(before.sources), buffer) - buffer == {};
    InsertNone(before.sources, SourceAt);
  }

  lemma SourcesNext(before: Store, buffer: set<SourceRow>, remaining: set<SourceRow>, now: Partitioned<SourceRow>, r: SourceRow)
    requires PrimaryKey(buffer) && remaining <= buffer && r in remaining && SourcesSoFar(before, buffer, remaining, now)
    ensures match SourceInserted(now, r)
            case Some(p) => SourcesSoFar(before, buffer, remaining - {r}, p)
            case None => RestoreSources(before, buffer) == Err(DuplicateKey)
  {
    var stored := AllRows(before.sources);
    var added := Unstored(stored, buffer);
    var done := added - remaining;
    InsertedRows(before.sources, SourceAt, done);
    InsertMore(before.sources, SourceAt, done, r);
    OneMoreSource(stored, buffer, done, r);
    assert added - (remaining - {r}) == if r in added then done + {r} else done;
    if r in added && !NoClash(stored, done + {r}) {
      Clashes(stored, done + {r}, added);
    }
  }

  lemma SourcesEnd(before: Store, buffer: set<SourceRow>, now: Partitioned<SourceRow>)
    requires SourcesSoFar(before, buffer, {}, now)
    ensures RestoreSources(before, buffer) == Ok(before.(sources := now))
  {
    assert Unstored(AllRows(before.sources), buffer) - {} == Unstored(AllRows(before.sources), buffer);
  }

  ghost predicate LinksSoFar(before: Store, buffer: set<SourceLink>, remaining: set<SourceLink>, now: Partitioned<SourceLink>) {
    var done := buffer - AllRows(before.links) - remaining;
    now == InsertRows(before.links, LinkAt, done) && forall l :: l in done ==> Resolved(l, AllRows(before.sources))
  }

  lemma LinksStart(before: Store, buffer: set<SourceLink>)
    ensures LinksSoFar(before, buffer, buffer, before.links)
  {
    assert buffer - AllRows(before.links) - buffer == {};
    InsertNone(before.links, LinkAt);
  }

  lemma LinksNext(before: Store, buffer: set<SourceLink>, remaining: set<SourceLink>, now: Partitioned<SourceLink>, l: SourceLink)
    requires remaining <= buffer && l in remaining && LinksSoFar(before, buffer, remaining, now)
    ensures match LinkInserted(before.(links := now), l)
            case Some(p) => LinksSoFar(before, buffer, remaining - {l}, p)
            case None => RestoreLinks(before, buffer) == Err(MissingSource)
  {
    var added := buffer - AllRows(before.links);
    var done := added - remaining;
    InsertedRows(before.links, LinkAt, done);
    InsertMore(before.links, LinkAt, done, l);
    assert added - (remaining - {l}) == if l in added then done + {l} else done;
  }

  lemma LinksEnd(before: Store, buffer: set<SourceLink>, now: Partitioned<SourceLink>)
    requires LinksSoFar(before, buffer, {}, now)
    ensures RestoreLinks(before, buffer) == Ok(before.(links := now))
  {
    var added := buffer - AllRows(before.links);
    assert added - {} == added;
    forall l | l in added ensures exists r :: r in AllRows(before.sources) && RefersTo(l, r) {
      assert Resolved(l, AllRows(before.sources));
    }
  }

  lemma OneMoreSource(stored: set<SourceRow>, buffer: set<SourceRow>, done: set<SourceRow>, r: SourceRow)
    requires PrimaryKey(buffer) && done <= Unstored(stored, buffer) && r in buffer && r !in done && NoClash(stored, done)
    ensures KeyTaken(stored + done, r) <==> r !in Unstored(stored, buffer)
    ensures r in Unstored(stored, buffer) ==> (UrlTaken(stored + done, r) <==> !NoClash(stored, done + {r}))
  {
    if r in Unstored(stored, buffer) && UrlTaken(stored + done, r) {
      var q :| q in stored + done && q.url == r.url && q.publishedAt == r.publishedAt;
      assert q != r && SameKey(q, r) && q in stored + (done + {r});
    }
  }

  /** A clash among some of the added rows is a clash among all of them. */
  lemma Clashes(stored: set<SourceRow>, some: set<SourceRow>, all: set<SourceRow>)
    requires some <= all && !NoClash(stored, some)
    ensures !NoClash(stored, all)
  {
    var r, q :| r in some && q in stored + some && q != r && SameKey(q, r);
    assert r in all && q in stored + all;
  }

  class SourcePartitions {
    var sources: Partitioned<SourceRow>
    var links: Partitioned<SourceLink>
    var nextId: nat
    var sourceBuffer: set<SourceRow>
    var linkBuffer: set<SourceLink>

    function State(): Store
      reads this
    {
      Store(sources, links)
    }

    method PrepareDefaultPartitionBuffers()
      modifies this`sourceBuffer, this`linkBuffer
      ensures sourceBuffer == sources.rest && linkBuffer == links.rest
    {
      sourceBuffer := sources.rest;
      linkBuffer := links.rest;
    }

    method ClearDefaultPartitions()
      modifies this`sources, this`links
      ensures State() == ClearDefaults(old(State()))
    {
      links := links.(rest := {});
      var deleted := sources.rest;
      sources := sources.(rest := {});
      links := DropRows(links, Orphans(links, deleted));
    }

    method ListWeekStarts() returns (weeks: seq<Instant>)
      ensures Lists(weeks, WeeksNeeded(State(), sourceBuffer))
    {
      weeks := [];
      var remaining := WeeksNeeded(State(), sourceBuffer);
      ghost var needed := remaining;
      while remaining != {}
        invariant remaining <= needed && Lists(weeks, needed - remaining)
        invariant forall v, w :: v in weeks && w in remaining ==> v < w
        decreases |remaining|
      {
        ghost var first := LeastExists(remaining);
        var least :| least in remaining && forall w :: w in remaining ==> least <= w;
        assert forall i :: 0 <= i < |weeks| ==> weeks[i] in weeks;
        weeks := weeks + [least];
        remaining := remaining - {least};
      }
    }

    method CreateWeeklyPartitionPair(week: Instant) returns (created: Result<(bool, bool), PartitionError>)
      modifies this`sources, this`links
      ensures match CreatePair(old(State()), week)
              case Ok(s) => State() == s && created == Ok((week !in old(sources).weeks, week !in old(links).weeks))
              case Err(e) => created == Err(e)
    {
      var sourceCreated := week !in sources.weeks;
      var outcome := CreateIfMissing(sources, SourceAt, week);
      if outcome.Err? {
        return Err(outcome.error);
      }
      sources := outcome.value;
      var linkCreated := week !in links.weeks;
      var linkOutcome := CreateIfMissing(links, LinkAt, week);
      if linkOutcome.Err? {
        return Err(linkOutcome.error);
      }
      links := linkOutcome.value;
      return Ok((sourceCreated, linkCreated));
    }

    /** One row of the insert: a taken primary key skips the row, a taken URL is an error. */
    method InsertSource(r: SourceRow) returns (ok: bool)
      modifies this`sources
      ensures match SourceInserted(old(sources), r)
              case Some(p) => ok && sources == p
              case None => !ok
    {
      var stored := AllRows(sources);
      if exists q :: q in stored && q.id == r.id && q.publishedAt == r.publishedAt {
        return true;
      }
      if exists q :: q in stored && q.url == r.url && q.publishedAt == r.publishedAt {
        return false;
      }
      sources := InsertRows(sources, SourceAt, {r});
      ok := true;
    }

    /** The statement takes the rows by ascending id; the loop shows that any order will do. */
    method RestoreSourcesFromBuffer() returns (outcome: Result<(), PartitionError>)
      requires PrimaryKey(sourceBuffer)
      modifies this`sources
      ensures match RestoreSources(old(State()), sourceBuffer)
              case Ok(s) => State() == s && outcome == Ok(())
              case Err(e) => outcome == Err(e)
    {
      ghost var before := State();
      var remaining := sourceBuffer;
      SourcesStart(before, sourceBuffer);
      while remaining != {}
        invariant remaining <= sourceBuffer && SourcesSoFar(before, sourceBuffer, remaining, sources)
        decreases |remaining|
      {
        var r :| r in remaining;
        SourcesNext(before, sourceBuffer, remaining, sources, r);
        var ok := InsertSource(r);
        if !ok {
          return Err(DuplicateKey);
        }
        remaining := remaining - {r};
      }
      SourcesEnd(before, sourceBuffer, sources);
      outcome := Ok(());
    }

    /** One link: skipped if it is there, an error without its source. */
    method InsertSourceFeed(l: SourceLink) returns (ok: bool)
      modifies this`links
      ensures match LinkInserted(old(State()), l)
              case Some(p) => ok && links == p
              case None => !ok
    {
      if l in AllRows(links) {
        return true;
      }
      if forall r :: r in AllRows(sources) ==> !RefersTo(l, r) {
        return false;
      }
      links := InsertRows(links, LinkAt, {l});
      ok := true;
    }

    method RestoreSourceFeedsFromBuffer() returns (outcome: Result<(), PartitionError>)
      modifies this`links
      ensures match RestoreLinks(old(State()), linkBuffer)
              case Ok(s) => State() == s && outcome == Ok(())
              case Err(e) => outcome == Err(e)
    {
      ghost var before := State();
      var remaining := linkBuffer;
      LinksStart(before, linkBuffer);
      while remaining != {}
        invariant remaining <= linkBuffer && LinksSoFar(before, linkBuffer, remaining, links)
        decreases |remaining|
      {
        var l :| l in remaining;
        LinksNext(before, linkBuffer, remaining, links, l);
        var ok := InsertSourceFeed(l);
        if !ok {
          return Err(MissingSource);
        }
        remaining := remaining - {l};
      }
      LinksEnd(before, linkBuffer, links);
      outcome := Ok(());
    }

    method SyncSourcesSequence()
      modifies this`nextId
      ensures IsNextId(AllRows(sources), nextId)
    {
      var remaining := AllRows(sources);
      nextId := 1;
      while remaining != {}
        invariant remaining <= AllRows(sources)
        invariant IsNextId(AllRows(sources) - remaining, nextId)
        decreases |remaining|
      {
        var r :| r in remaining;
        if remaining == AllRows(sources) || r.id >= nextId {
          nextId := r.id + 1;
        }
        remaining := remaining - {r};
      }
    }

    /** The creation loop with its two counters. */
    method CreateWeeklyPartitions(weeks: seq<Instant>) returns (created: Result<(int, int), PartitionError>)
      modifies this`sources, this`links
      ensures match CreatePairs(old(State()), weeks)
              case Err(e) => created == Err(e)
              case Ok(s) =>
                && State() == s
                && created == Ok((SizeChange(old(sources), s.sources), SizeChange(old(links), s.links)))
    {
      var sourceCreated, linkCreated := 0, 0;
      for i := 0 to |weeks|
        invariant CreatePairs(old(State()), weeks[..i]) == Ok(State())
        invariant sourceCreated == SizeChange(old(sources), sources) && linkCreated == SizeChange(old(links), links)
      {
        assert weeks[..i + 1][..i] == weeks[..i];
        var pair := CreateWeeklyPartitionPair(weeks[i]);
        if pair.Err? {
          CreateErrorIsFinal(old(State()), weeks, i + 1);
          return Err(pair.error);
        }
        sourceCreated := sourceCreated + if pair.value.0 then 1 else 0;
        linkCreated := linkCreated + if pair.value.1 then 1 else 0;
      }
      assert weeks[..|weeks|] == weeks;
      return Ok((sourceCreated, linkCreated));
    }

    /** One run, up to its commit.  An error leaves the tables to the caller's rollback. */
    method RepartitionDefaultSources() returns (outcome: Result<Report, PartitionError>, ghost weeks: seq<Instant>)
      requires PrimaryKey(sources.rest)
      modifies this
      ensures Lists(weeks, WeeksNeeded(ClearDefaults(old(State())), old(sources.rest)))
      ensures RunMatches(old(State()), weeks, State(), nextId, outcome)
    {
      ghost var before := State();
      PrepareDefaultPartitionBuffers();
      var sourceRows, linkRows := |sourceBuffer|, |linkBuffer|;
      ClearDefaultPartitions();
      var weekStarts := ListWeekStarts();
      weeks := weekStarts;
      var created := CreateWeeklyPartitions(weekStarts);
      ghost var paired := State();
      if created.Err? {
        RunFails(before, weeks, paired, paired, paired, nextId, created.error);
        return Err(created.error), weeks;
      }
      var restored := RestoreSourcesFromBuffer();
      ghost var filled := State();
      if restored.Err? {
        RunFails(before, weeks, paired, filled, filled, nextId, restored.error);
        return Err(restored.error), weeks;
      }
      restored := RestoreSourceFeedsFromBuffer();
      if restored.Err? {
        RunFails(before, weeks, paired, filled, State(), nextId, restored.error);
        return Err(restored.error), weeks;
      }
      RunIsComposed(before, weeks, paired, filled, State());
      SyncSourcesSequence();
      outcome := Ok(Report(sourceRows, linkRows, created.value.0, created.value.1, |weekStarts|));
    }
  }
}
