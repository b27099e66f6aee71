/**
 The article tables `rss_sources` and `rss_source_feeds` and the keyed upsert that the
 result consumer runs for every ingested feed.  Rows live in a sequence, so that the two
 unique constraints are invariants to prove and not a consequence of the representation.
 */
module SourceIngest {
  import opened Common

  type FeedId = nat

  /** Microseconds since the epoch, as the database stores them; a missing publication date is stored as the epoch. */
  type Instant = int
  const EPOCH: Instant := 0

  datatype SourceItem = SourceItem(
    title: string,
    url: string,
    summary: Option<string>,
    author: Option<string>,
    publishedAt: Option<Instant>,
    imageUrl: Option<string>)

  datatype SourceRow = SourceRow(
    id: nat,
    title: string,
    url: string,
    publishedAt: Instant,
    summary: Option<string>,
    author: Option<string>,
    imageUrl: Option<string>)

  datatype SourceLink = SourceLink(sourceId: nat, feedId: FeedId, publishedAt: Instant)

  /** `nextId` is the next value of `rss_sources_id_seq`. */
  datatype SourceTables = SourceTables(sources: seq<SourceRow>, links: set<SourceLink>, nextId: nat)

  function NormalizePublishedAt(publishedAt: Option<Instant>): Instant {
    if publishedAt.Some? then publishedAt.value else EPOCH
  }

  predicate Matches(row: SourceRow, item: SourceItem) {
    row.url == item.url && row.publishedAt == NormalizePublishedAt(item.publishedAt)
  }

  /** The row that the unique key (url, published_at) of `item` conflicts with. */
  function FindRow(rows: seq<SourceRow>, item: SourceItem): (found: Option<nat>)
    ensures found.Some? ==> found.value < |rows| && Matches(rows[found.value], item)
    ensures found.None? ==> forall i :: 0 <= i < |rows| ==> !Matches(rows[i], item)
  {
    if rows == [] then None
    else if Matches(rows[|rows| - 1], item) then Some(|rows| - 1)
    else FindRow(rows[..|rows| - 1], item)
  }

  function NewRow(id: nat, item: SourceItem): SourceRow {
    SourceRow(id, item.title, item.url, NormalizePublishedAt(item.publishedAt),
              item.summary, item.author, item.imageUrl)
  }

  function MergeRow(row: SourceRow, item: SourceItem): SourceRow {
    row.(title := item.title,
         summary := item.summary.Coalesce(row.summary),
         author := item.author.Coalesce(row.author),
         imageUrl := item.imageUrl.Coalesce(row.imageUrl))
  }

  /** One upsert with its link.  The sequence advances even when the insert turns into an update. */
  function UpsertSource(t: SourceTables, feedId: FeedId, item: SourceItem): SourceTables {
    match FindRow(t.sources, item)
    case None =>
      SourceTables(
        t.sources + [NewRow(t.nextId, item)],
        t.links + {SourceLink(t.nextId, feedId, NormalizePublishedAt(item.publishedAt))},
        t.nextId + 1)
    case Some(i) =>
      SourceTables(
        t.sources[i := MergeRow(t.sources[i], item)],
        t.links + {SourceLink(t.sources[i].id, feedId, t.sources[i].publishedAt)},
        t.nextId + 1)
  }

  function UpsertSources(t: SourceTables, feedId: FeedId, items: seq<SourceItem>): SourceTables {
    if items == [] then t
    else UpsertSource(UpsertSources(t, feedId, items[..|items| - 1]), feedId, items[|items| - 1])
  }

  // --- What every run keeps ---

  /** Both unique constraints, a sequence ahead of every id, and links that point to a source. */
  ghost predicate ValidSources(t: SourceTables) {
    && (forall i, j :: 0 <= i < j < |t.sources| ==>
          && (t.sources[i].url != t.sources[j].url || t.sources[i].publishedAt != t.sources[j].publishedAt)
          && t.sources[i].id != t.sources[j].id)
    && (forall i :: 0 <= i < |t.sources| ==> t.sources[i].id < t.nextId)
    && (forall l :: l in t.links ==> LinkResolves(t.sources, l))
  }

  ghost predicate LinkResolves(rows: seq<SourceRow>, l: SourceLink) {
    exists i :: 0 <= i < |rows| && rows[i].id == l.sourceId && rows[i].publishedAt == l.publishedAt
  }

  /** `b` still holds every row of `a` under its id and key, and no text that was set is gone. */
  ghost predicate Extends(a: SourceTables, b: SourceTables) {
    && |a.sources| <= |b.sources|
    && a.links <= b.links
    && forall i :: 0 <= i < |a.sources| ==> RowExtends(a.sources[i], b.sources[i])
  }

  ghost predicate RowExtends(a: SourceRow, b: SourceRow) {
    && a.id == b.id && a.url == b.url && a.publishedAt == b.publishedAt
    && (a.summary.Some? ==> b.summary.Some?)
    && (a.author.Some? ==> b.author.Some?)
    && (a.imageUrl.Some? ==> b.imageUrl.Some?)
  }

  /** The item's source is stored and linked to the feed. */
  ghost predicate Ingested(t: SourceTables, feedId: FeedId, item: SourceItem) {
    exists i :: 0 <= i < |t.sources| && IngestedAt(t, feedId, item, i)
  }

  ghost predicate IngestedAt(t: SourceTables, feedId: FeedId, item: SourceItem, i: nat)
    requires i < |t.sources|
  {
    Matches(t.sources[i], item) && SourceLink(t.sources[i].id, feedId, t.sources[i].publishedAt) in t.links
  }

  lemma ExtendsIsTransitive(a: SourceTables, b: SourceTables, c: SourceTables)
    requires Extends(a, b) && Extends(b, c)
    ensures Extends(a, c)
  {
    forall i | 0 <= i < |a.sources| ensures RowExtends(a.sources[i], c.sources[i]) {
      assert RowExtends(a.sources[i], b.sources[i]) && RowExtends(b.sources[i], c.sources[i]);
    }
  }

  lemma IngestedIsKept(a: SourceTables, b: SourceTables, feedId: FeedId, item: SourceItem)
    requires Extends(a, b) && Ingested(a, feedId, item)
    ensures Ingested(b, feedId, item)
  {
    var i :| 0 <= i < |a.sources| && IngestedAt(a, feedId, item, i);
    assert RowExtends(a.sources[i], b.sources[i]);
    assert IngestedAt(b, feedId, item, i);
  }

  lemma UpsertSourceKeepsKeys(t: SourceTables, feedId: FeedId, item: SourceItem)
    requires ValidSources(t)
    ensures ValidSources(UpsertSource(t, feedId, item))
    ensures Extends(t, UpsertSource(t, feedId, item))
    ensures Ingested(UpsertSource(t, feedId, item), feedId, item)
  {
    var t' := UpsertSource(t, feedId, item);
    var at := match FindRow(t.sources, item) case None => |t.sources| case Some(i) => i;
    assert IngestedAt(t', feedId, item, at);
    forall l | l in t'.links ensures LinkResolves(t'.sources, l) {
      if l in t.links {
        var k :| 0 <= k < |t.sources| && t.sources[k].id == l.sourceId && t.sources[k].publishedAt == l.publishedAt;
        assert t'.sources[k].id == l.sourceId;
      } else {
        assert t'.sources[at].id == l.sourceId;
      }
    }
  }

  /** Over a whole payload: the keys stay keys, links stay resolved, and texts never return to null. */
  lemma {:induction false} UpsertSourcesKeepsKeys(t: SourceTables, feedId: FeedId, items: seq<SourceItem>)
    requires ValidSources(t)
    ensures ValidSources(UpsertSources(t, feedId, items))
    ensures Extends(t, UpsertSources(t, feedId, items))
  {
    if items != [] {
      var n := |items| - 1;
      UpsertSourcesKeepsKeys(t, feedId, items[..n]);
      var mid := UpsertSources(t, feedId, items[..n]);
      UpsertSourceKeepsKeys(mid, feedId, items[n]);
      ExtendsIsTransitive(t, mid, UpsertSource(mid, feedId, items[n]));
    }
  }

  /** Every item of the payload ends stored under its key and linked to the feed. */
  lemma {:induction false} UpsertSourcesIngestsAll(t: SourceTables, feedId: FeedId, items: seq<SourceItem>, k: nat)
    requires ValidSources(t) && k < |items|
    ensures Ingested(UpsertSources(t, feedId, items), feedId, items[k])
  {
    var n := |items| - 1;
    UpsertSourcesKeepsKeys(t, feedId, items[..n]);
    IngestedSoFar(UpsertSources(t, feedId, items[..n]), feedId, items[n], items[k]);
    if k < n {
      UpsertSourcesIngestsAll(t, feedId, items[..n], k);
      assert items[..n][k] == items[k];
    }
  }

  lemma IngestedSoFar(mid: SourceTables, feedId: FeedId, item: SourceItem, earlier: SourceItem)
    requires ValidSources(mid)
    ensures Ingested(UpsertSource(mid, feedId, item), feedId, item)
    ensures Ingested(mid, feedId, earlier) ==> Ingested(UpsertSource(mid, feedId, item), feedId, earlier)
  {
    UpsertSourceKeepsKeys(mid, feedId, item);
    if Ingested(mid, feedId, earlier) {
      IngestedIsKept(mid, UpsertSource(mid, feedId, item), feedId, earlier);
    }
  }

  // --- Replaying a payload ---

  datatype TextField = Summary | Author | ImageUrl

  function TextOf(item: SourceItem, field: TextField): Option<string> {
    match field
    case Summary => item.summary
    case Author => item.author
    case ImageUrl => item.imageUrl
  }

  function LastTitle(items: seq<SourceItem>, row: SourceRow): string {
    if items == [] then row.title
    else if Matches(row, items[|items| - 1]) then items[|items| - 1].title
    else LastTitle(items[..|items| - 1], row)
  }

  function LastText(items: seq<SourceItem>, row: SourceRow, field: TextField, prior: Option<string>)
    : Option<string>
  {
    if items == [] then prior
    else if Matches(row, items[|items| - 1]) && TextOf(items[|items| - 1], field).Some?
      then TextOf(items[|items| - 1], field)
    else LastText(items[..|items| - 1], row, field, prior)
  }

  /** Closed form of a payload's effect on one stored row: the last title and the last non-null texts win. */
  function FoldRow(row: SourceRow, items: seq<SourceItem>): SourceRow {
    row.(title := LastTitle(items, row),
         summary := LastText(items, row, Summary, row.summary),
         author := LastText(items, row, Author, row.author),
         imageUrl := LastText(items, row, ImageUrl, row.imageUrl))
  }

  lemma LastTextOfNoMatch(items: seq<SourceItem>, row: SourceRow, field: TextField, prior: Option<string>)
    requires forall k :: 0 <= k < |items| ==> !Matches(row, items[k])
    ensures LastTitle(items, row) == row.title && LastText(items, row, field, prior) == prior
  {
    if items != [] {
      LastTextOfNoMatch(items[..|items| - 1], row, field, prior);
    }
  }

  lemma LastIgnoresTexts(items: seq<SourceItem>, a: SourceRow, b: SourceRow, field: TextField, prior: Option<string>)
    requires a.url == b.url && a.publishedAt == b.publishedAt
    ensures LastText(items, a, field, prior) == LastText(items, b, field, prior)
  {
  }

  lemma UpsertSourceMergesRow(t: SourceTables, feedId: FeedId, item: SourceItem, i: nat)
    requires ValidSources(t) && i < |t.sources|
    ensures i < |UpsertSource(t, feedId, item).sources|
    ensures UpsertSource(t, feedId, item).sources[i]
         == if Matches(t.sources[i], item) then MergeRow(t.sources[i], item) else t.sources[i]
  {
  }

  /** A row already stored before a payload ends as its closed form. */
  lemma {:induction false} StoredRowFolds(t: SourceTables, feedId: FeedId, items: seq<SourceItem>, i: nat)
    requires ValidSources(t) && i < |t.sources|
    ensures i < |UpsertSources(t, feedId, items).sources|
    ensures UpsertSources(t, feedId, items).sources[i] == FoldRow(t.sources[i], items)
  {
    if items != [] {
      var n := |items| - 1;
      StoredRowFolds(t, feedId, items[..n], i);
      UpsertSourcesKeepsKeys(t, feedId, items[..n]);
      UpsertSourceMergesRow(UpsertSources(t, feedId, items[..n]), feedId, items[n], i);
    }
  }

  lemma SettledRowStaysSettled(row: SourceRow, pre: seq<SourceItem>, item: SourceItem)
    requires FoldRow(row, pre) == row
    ensures var row' := if Matches(row, item) then MergeRow(row, item) else row;
            FoldRow(row', pre + [item]) == row'
  {
    var row' := if Matches(row, item) then MergeRow(row, item) else row;
    assert (pre + [item])[..|pre|] == pre;
    LastIgnoresTexts(pre, row, row', Summary, row.summary);
    LastIgnoresTexts(pre, row, row', Author, row.author);
    LastIgnoresTexts(pre, row, row', ImageUrl, row.imageUrl);
  }

  lemma NewRowIsSettled(row: SourceRow, pre: seq<SourceItem>, item: SourceItem)
    requires row == NewRow(row.id, item)
    requires forall k :: 0 <= k < |pre| ==> !Matches(row, pre[k])
    ensures FoldRow(row, pre + [item]) == row
  {
    assert (pre + [item])[..|pre|] == pre;
    LastTextOfNoMatch(pre, row, Summary, row.summary);
    LastTextOfNoMatch(pre, row, Author, row.author);
    LastTextOfNoMatch(pre, row, ImageUrl, row.imageUrl);
  }

  /** After a payload, applying its closed form once more changes no stored row. */
  lemma {:induction false} RowIsSettled(t: SourceTables, feedId: FeedId, items: seq<SourceItem>, i: nat)
    requires ValidSources(t) && i < |UpsertSources(t, feedId, items).sources|
    ensures FoldRow(UpsertSources(t, feedId, items).sources[i], items) == UpsertSources(t, feedId, items).sources[i]
  {
    if items != [] {
      var n := |items| - 1;
      var pre, item := items[..n], items[n];
      assert items == pre + [item];
      UpsertSourcesKeepsKeys(t, feedId, pre);
      var mid := UpsertSources(t, feedId, pre);
      if i < |mid.sources| {
        RowIsSettled(t, feedId, pre, i);
        StoredRowStaysSettled(mid, feedId, pre, item, i);
      } else {
        forall k | 0 <= k < n ensures Ingested(mid, feedId, pre[k]) {
          UpsertSourcesIngestsAll(t, feedId, pre, k);
        }
        AddedRowIsSettled(mid, feedId, pre, item);
      }
    }
  }

  lemma StoredRowStaysSettled(mid: SourceTables, feedId: FeedId, pre: seq<SourceItem>, item: SourceItem, i: nat)
    requires ValidSources(mid) && i < |mid.sources| && FoldRow(mid.sources[i], pre) == mid.sources[i]
    ensures i < |UpsertSource(mid, feedId, item).sources|
    ensures var row := UpsertSource(mid, feedId, item).sources[i]; FoldRow(row, pre + [item]) == row
  {
    UpsertSourceMergesRow(mid, feedId, item, i);
    SettledRowStaysSettled(mid.sources[i], pre, item);
  }

  /** A row the last item added is of no earlier item's key. */
  lemma AddedRowIsSettled(mid: SourceTables, feedId: FeedId, pre: seq<SourceItem>, item: SourceItem)
    requires |UpsertSource(mid, feedId, item).sources| > |mid.sources|
    requires forall k :: 0 <= k < |pre| ==> Ingested(mid, feedId, pre[k])
    ensures var row := UpsertSource(mid, feedId, item).sources[|mid.sources|];
            FoldRow(row, pre + [item]) == row
  {
    var row := UpsertSource(mid, feedId, item).sources[|mid.sources|];
    forall k | 0 <= k < |pre| ensures !Matches(row, pre[k]) {
      assert Ingested(mid, feedId, pre[k]);
      var j :| 0 <= j < |mid.sources| && IngestedAt(mid, feedId, pre[k], j);
    }
    NewRowIsSettled(row, pre, item);
  }

  lemma {:induction false} KnownItemsAddNothing(t: SourceTables, feedId: FeedId, items: seq<SourceItem>)
    requires ValidSources(t)
    requires forall x :: x in items ==> Ingested(t, feedId, x)
    ensures |UpsertSources(t, feedId, items).sources| == |t.sources|
    ensures UpsertSources(t, feedId, items).links == t.links
  {
    if items != [] {
      var n := |items| - 1;
      KnownItemsAddNothing(t, feedId, items[..n]);
      UpsertSourcesKeepsKeys(t, feedId, items[..n]);
      var mid := UpsertSources(t, feedId, items[..n]);
      IngestedIsKept(t, mid, feedId, items[n]);
      KnownItemAddsNothing(mid, feedId, items[n]);
    }
  }

  lemma KnownItemAddsNothing(t: SourceTables, feedId: FeedId, item: SourceItem)
    requires ValidSources(t) && Ingested(t, feedId, item)
    ensures |UpsertSource(t, feedId, item).sources| == |t.sources|
    ensures UpsertSource(t, feedId, item).links == t.links
  {
    var i :| 0 <= i < |t.sources| && IngestedAt(t, feedId, item, i);
  }

  /** Replaying a payload at once leaves both tables as they are; only the id sequence moves. */
  lemma ReplayChangesNothing(t: SourceTables, feedId: FeedId, items: seq<SourceItem>)
    requires ValidSources(t)
    ensures var once := UpsertSources(t, feedId, items);
            var twice := UpsertSources(once, feedId, items);
            twice.sources == once.sources && twice.links == once.links
  {
    var once := UpsertSources(t, feedId, items);
    UpsertSourcesKeepsKeys(t, feedId, items);
    forall x | x in items ensures Ingested(once, feedId, x) {
      var k :| 0 <= k < |items| && items[k] == x;
      UpsertSourcesIngestsAll(t, feedId, items, k);
    }
    KnownItemsAddNothing(once, feedId, items);
    forall i | 0 <= i < |once.sources|
      ensures UpsertSources(once, feedId, items).sources[i] == once.sources[i]
    {
      StoredRowFolds(once, feedId, items, i);
      RowIsSettled(t, feedId, items, i);
    }
  }

  // --- In the item's own terms ---

  /** The date an item is stored under: its own, or the first instant of 1970 without one. */
  predicate StoredUnder(row: SourceRow, item: SourceItem) {
    row.url == item.url && row.publishedAt == match item.publishedAt case Some(date) => date case None => 0
  }

  /** Every item of a payload ends stored and linked under its date. */
  lemma ItemIsStoredUnderItsDate(t: SourceTables, feedId: FeedId, items: seq<SourceItem>, k: nat) returns (i: nat)
    requires ValidSources(t) && k < |items|
    ensures var t' := UpsertSources(t, feedId, items);
            && i < |t'.sources| && StoredUnder(t'.sources[i], items[k])
            && SourceLink(t'.sources[i].id, feedId, t'.sources[i].publishedAt) in t'.links
  {
    var t' := UpsertSources(t, feedId, items);
    UpsertSourcesIngestsAll(t, feedId, items, k);
    i :| 0 <= i < |t'.sources| && IngestedAt(t', feedId, items[k], i);
  }

  /**
   One item: without a row for its URL and date it is added with all its texts, absent ones included;
   otherwise that row takes its title and its given texts, and no other row changes.
   */
  lemma UpsertInItemsTerms(t: SourceTables, feedId: FeedId, item: SourceItem, i: nat)
    requires ValidSources(t) && i < |UpsertSource(t, feedId, item).sources|
    ensures var row := UpsertSource(t, feedId, item).sources[i];
            if i >= |t.sources| then
              && i == |t.sources| && StoredUnder(row, item) && row.id == t.nextId && row.title == item.title
              && row.summary == item.summary && row.author == item.author && row.imageUrl == item.imageUrl
            else if StoredUnder(t.sources[i], item) then
              && StoredUnder(row, item) && row.id == t.sources[i].id && row.title == item.title
              && row.summary == (if item.summary.Some? then item.summary else t.sources[i].summary)
              && row.author == (if item.author.Some? then item.author else t.sources[i].author)
              && row.imageUrl == (if item.imageUrl.Some? then item.imageUrl else t.sources[i].imageUrl)
            else row == t.sources[i]
    ensures |UpsertSource(t, feedId, item).sources| > |t.sources|
       <==> forall j :: 0 <= j < |t.sources| ==> !StoredUnder(t.sources[j], item)
    ensures UpsertSource(t, feedId, item).nextId == t.nextId + 1
    ensures |UpsertSource(t, feedId, item).sources| <= |t.sources| + 1
  {
    if i < |t.sources| {
      UpsertSourceMergesRow(t, feedId, item, i);
    }
    match FindRow(t.sources, item)
    case Some(k) => assert StoredUnder(t.sources[k], item);
    case None => assert forall j :: 0 <= j < |t.sources| ==> !Matches(t.sources[j], item);
  }

  /** The only link added is the feed's, to a row of the item's URL and date. */
  lemma OneLinkIsAdded(t: SourceTables, feedId: FeedId, item: SourceItem, l: SourceLink) returns (i: nat)
    requires ValidSources(t) && l in UpsertSource(t, feedId, item).links && l !in t.links
    ensures l.feedId == feedId && i < |UpsertSource(t, feedId, item).sources|
    ensures var row := UpsertSource(t, feedId, item).sources[i];
            StoredUnder(row, item) && l.sourceId == row.id && l.publishedAt == row.publishedAt
  {
    i := match FindRow(t.sources, item) case None => |t.sources| case Some(k) => k;
  }
}
