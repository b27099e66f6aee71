/**
 Order in which a job's feeds are queued: companies take turns, and the mixed list is cut into
 batches.  The queue-based loops are proved equal to a closed form on positions of the input.
 */
module Scheduling {
  import opened Common
  import opened SourceIngest

  datatype Feed = Feed(feedId: FeedId, companyId: Option<int>)

  datatype CompanyKey = CompanyNumber(id: int) | SingleFeed(feedId: FeedId)

  function ResolveCompanyKey(feed: Feed): CompanyKey {
    if feed.companyId.Some? && feed.companyId.value > 0 then CompanyNumber(feed.companyId.value)
    else SingleFeed(feed.feedId)
  }

  predicate DistinctIds(feeds: seq<Feed>) {
    forall i, j :: 0 <= i < j < |feeds| ==> feeds[i].feedId != feeds[j].feedId
  }

  // --- Positions, ranks and the closed form ---

  /** Ascending positions of the feeds of one company. */
  function Turns(feeds: seq<Feed>, key: CompanyKey): (turns: seq<nat>)
    ensures forall r :: 0 <= r < |turns| ==> turns[r] < |feeds| && ResolveCompanyKey(feeds[turns[r]]) == key
  {
    if feeds == [] then []
    else
      var n := |feeds| - 1;
      Turns(feeds[..n], key) + if ResolveCompanyKey(feeds[n]) == key then [n] else []
  }

  /** How many earlier feeds share the company of the feed at `i`. */
  function Rank(feeds: seq<Feed>, i: nat): nat
    requires i < |feeds|
  {
    |Turns(feeds[..i], ResolveCompanyKey(feeds[i]))|
  }

  lemma {:induction false} TurnsAscend(feeds: seq<Feed>, key: CompanyKey, a: nat, b: nat)
    requires a < b < |Turns(feeds, key)|
    ensures Turns(feeds, key)[a] < Turns(feeds, key)[b]
  {
    var pre := Turns(feeds[..|feeds| - 1], key);
    if b < |pre| {
      TurnsAscend(feeds[..|feeds| - 1], key, a, b);
    } else {
      assert pre[a] < |feeds| - 1;
    }
  }

  lemma {:induction false} TurnsOfPrefix(feeds: seq<Feed>, key: CompanyKey, m: nat)
    requires m <= |feeds|
    ensures Turns(feeds[..m], key) <= Turns(feeds, key)
  {
    if m < |feeds| {
      var n := |feeds| - 1;
      assert feeds[..n][..m] == feeds[..m];
      TurnsOfPrefix(feeds[..n], key, m);
    } else {
      assert feeds[..m] == feeds;
    }
  }

  /** Ranks count the turns of a company: its turn `r` has rank `r`, and every feed is the turn of its rank. */
  lemma RankIsTurn(feeds: seq<Feed>, i: nat)
    requires i < |feeds|
    ensures var ts := Turns(feeds, ResolveCompanyKey(feeds[i]));
            Rank(feeds, i) < |ts| && ts[Rank(feeds, i)] == i
  {
    var key := ResolveCompanyKey(feeds[i]);
    assert feeds[..i + 1][..i] == feeds[..i];
    TurnsOfPrefix(feeds, key, i + 1);
    var pre := Turns(feeds[..i + 1], key);
    assert pre == Turns(feeds[..i], key) + [i];
    assert Turns(feeds, key)[|pre| - 1] == pre[|pre| - 1];
  }

  lemma TurnHasRank(feeds: seq<Feed>, key: CompanyKey, r: nat)
    requires r < |Turns(feeds, key)|
    ensures Rank(feeds, Turns(feeds, key)[r]) == r
  {
    var ts := Turns(feeds, key);
    RankIsTurn(feeds, ts[r]);
    var q := Rank(feeds, ts[r]);
    if q < r {
      TurnsAscend(feeds, key, q, r);
    } else if r < q {
      TurnsAscend(feeds, key, r, q);
    }
  }

  function FirstTurn(feeds: seq<Feed>, i: nat): nat
    requires i < |feeds|
  {
    RankIsTurn(feeds, i);
    Turns(feeds, ResolveCompanyKey(feeds[i]))[0]
  }

  /** Position `a` comes before `b`: lower rank first, then the company that appears first. */
  predicate Precedes(feeds: seq<Feed>, a: nat, b: nat)
    requires a < |feeds| && b < |feeds|
  {
    || Rank(feeds, a) < Rank(feeds, b)
    || (Rank(feeds, a) == Rank(feeds, b) && FirstTurn(feeds, a) < FirstTurn(feeds, b))
  }

  ghost predicate Positions(idx: seq<nat>, n: nat) {
    forall k :: 0 <= k < |idx| ==> idx[k] < n
  }

  ghost predicate Ordered(feeds: seq<Feed>, idx: seq<nat>) {
    && Positions(idx, |feeds|)
    && forall a, b :: 0 <= a < b < |idx| ==> Precedes(feeds, idx[a], idx[b])
  }

  /** The closed form: all positions, in the order of (rank within company, first appearance of company). */
  ghost predicate IsRoundRobin(feeds: seq<Feed>, idx: seq<nat>) {
    Ordered(feeds, idx) && forall i :: 0 <= i < |feeds| ==> i in idx
  }

  function Pick(feeds: seq<Feed>, idx: seq<nat>): seq<Feed>
    requires Positions(idx, |feeds|)
  {
    seq(|idx|, k requires 0 <= k < |idx| => feeds[idx[k]])
  }

  // --- Rounds as slots ---

  /** The feed that company number `company` contributes in round `round`. */
  datatype Slot = Slot(round: nat, company: nat)

  predicate SlotBefore(a: Slot, b: Slot) {
    a.round < b.round || (a.round == b.round && a.company < b.company)
  }

  /** The slots of round `r` for the first `c` companies. */
  function RoundPart(groups: seq<seq<nat>>, r: nat, c: nat): seq<Slot>
    requires c <= |groups|
  {
    if c == 0 then []
    else RoundPart(groups, r, c - 1) + if r < |groups[c - 1]| then [Slot(r, c - 1)] else []
  }

  function Rounds(groups: seq<seq<nat>>, r: nat): seq<Slot> {
    if r == 0 then [] else Rounds(groups, r - 1) + RoundPart(groups, r - 1, |groups|)
  }

  predicate ValidSlot(groups: seq<seq<nat>>, s: Slot) {
    s.company < |groups| && s.round < |groups[s.company]|
  }

  lemma {:induction false} RoundPartSlot(groups: seq<seq<nat>>, r: nat, c: nat, k: nat)
    requires c <= |groups| && k < |RoundPart(groups, r, c)|
    ensures var s := RoundPart(groups, r, c)[k]; ValidSlot(groups, s) && s.round == r && s.company < c
  {
    if k < |RoundPart(groups, r, c - 1)| {
      RoundPartSlot(groups, r, c - 1, k);
    }
  }

  lemma {:induction false} RoundPartAscends(groups: seq<seq<nat>>, r: nat, c: nat, a: nat, b: nat)
    requires c <= |groups| && a < b < |RoundPart(groups, r, c)|
    ensures SlotBefore(RoundPart(groups, r, c)[a], RoundPart(groups, r, c)[b])
  {
    if b < |RoundPart(groups, r, c - 1)| {
      RoundPartAscends(groups, r, c - 1, a, b);
    } else {
      RoundPartSlot(groups, r, c - 1, a);
    }
  }

  lemma {:induction false} RoundPartHas(groups: seq<seq<nat>>, s: Slot, c: nat)
    requires c <= |groups| && ValidSlot(groups, s) && s.company < c
    ensures s in RoundPart(groups, s.round, c)
  {
    if s.company < c - 1 {
      RoundPartHas(groups, s, c - 1);
    }
  }

  lemma {:induction false} EmptyPart(groups: seq<seq<nat>>, r: nat, c: nat)
    requires c <= |groups|
    ensures RoundPart(groups, r, c) == [] <==> forall p :: 0 <= p < c ==> |groups[p]| <= r
  {
    if c > 0 {
      EmptyPart(groups, r, c - 1);
    }
  }

  lemma {:induction false} RoundsSlot(groups: seq<seq<nat>>, r: nat, k: nat)
    requires k < |Rounds(groups, r)|
    ensures var s := Rounds(groups, r)[k]; ValidSlot(groups, s) && s.round < r
  {
    var pre := Rounds(groups, r - 1);
    if k < |pre| {
      RoundsSlot(groups, r - 1, k);
    } else {
      RoundPartSlot(groups, r - 1, |groups|, k - |pre|);
    }
  }

  lemma {:induction false} RoundsHas(groups: seq<seq<nat>>, s: Slot, r: nat)
    requires ValidSlot(groups, s) && s.round < r
    ensures s in Rounds(groups, r)
  {
    var pre, part := Rounds(groups, r - 1), RoundPart(groups, r - 1, |groups|);
    assert Rounds(groups, r) == pre + part;
    if s.round < r - 1 {
      RoundsHas(groups, s, r - 1);
    } else {
      RoundPartHas(groups, s, |groups|);
    }
  }

  lemma {:induction false} RoundsAscend(groups: seq<seq<nat>>, r: nat, a: nat, b: nat)
    requires a < b < |Rounds(groups, r)|
    ensures SlotBefore(Rounds(groups, r)[a], Rounds(groups, r)[b])
  {
    var pre := Rounds(groups, r - 1);
    if b < |pre| {
      RoundsAscend(groups, r - 1, a, b);
    } else {
      RoundPartSlot(groups, r - 1, |groups|, b - |pre|);
      if a < |pre| {
        RoundsSlot(groups, r - 1, a);
      } else {
        RoundPartAscends(groups, r - 1, |groups|, a - |pre|, b - |pre|);
      }
    }
  }

  /** Once a round takes nothing, later rounds take nothing either. */
  lemma {:induction false} QuietRound(groups: seq<seq<nat>>, r: nat, later: nat)
    requires r <= later && forall p :: 0 <= p < |groups| ==> |groups[p]| <= r
    ensures Rounds(groups, later) == Rounds(groups, r)
  {
    if r < later {
      QuietRound(groups, r, later - 1);
      var before, part := Rounds(groups, later - 1), RoundPart(groups, later - 1, |groups|);
      EmptyPart(groups, later - 1, |groups|);
      assert part == [];
      assert Rounds(groups, later) == before + part == before;
    }
  }

  // --- Companies ---

  /** Companies by first appearance. */
  function CompanyOrder(feeds: seq<Feed>): seq<CompanyKey> {
    if feeds == [] then []
    else
      var prior := CompanyOrder(feeds[..|feeds| - 1]);
      var key := ResolveCompanyKey(feeds[|feeds| - 1]);
      if key in prior then prior else prior + [key]
  }

  lemma {:induction false} CompanyOfFeed(feeds: seq<Feed>, i: nat) returns (p: nat)
    requires i < |feeds|
    ensures p < |CompanyOrder(feeds)| && CompanyOrder(feeds)[p] == ResolveCompanyKey(feeds[i])
  {
    var n := |feeds| - 1;
    if i < n {
      p := CompanyOfFeed(feeds[..n], i);
    } else {
      p :| 0 <= p < |CompanyOrder(feeds)| && CompanyOrder(feeds)[p] == ResolveCompanyKey(feeds[n]);
    }
  }

  lemma {:induction false} FeedOfCompany(feeds: seq<Feed>, key: CompanyKey) returns (i: nat)
    requires key in CompanyOrder(feeds)
    ensures i < |feeds| && ResolveCompanyKey(feeds[i]) == key
  {
    var n := |feeds| - 1;
    if key in CompanyOrder(feeds[..n]) {
      i := FeedOfCompany(feeds[..n], key);
    } else {
      i := n;
    }
  }

  lemma {:induction false} CompaniesAreDistinct(feeds: seq<Feed>, p: nat, q: nat)
    requires p < q < |CompanyOrder(feeds)|
    ensures CompanyOrder(feeds)[p] != CompanyOrder(feeds)[q]
  {
    if q < |CompanyOrder(feeds[..|feeds| - 1])| {
      CompaniesAreDistinct(feeds[..|feeds| - 1], p, q);
    }
  }

  lemma TurnsOfCompany(feeds: seq<Feed>, key: CompanyKey)
    ensures Turns(feeds, key) != [] <==> key in CompanyOrder(feeds)
  {
    if key in CompanyOrder(feeds) {
      var i := FeedOfCompany(feeds, key);
      RankIsTurn(feeds, i);
    }
    if Turns(feeds, key) != [] {
      var _ := CompanyOfFeed(feeds, Turns(feeds, key)[0]);
    }
  }

  lemma {:induction false} OrderFollowsFirstTurns(feeds: seq<Feed>, p: nat, q: nat)
    requires p < q < |CompanyOrder(feeds)|
    ensures Turns(feeds, CompanyOrder(feeds)[p]) != [] && Turns(feeds, CompanyOrder(feeds)[q]) != []
    ensures Turns(feeds, CompanyOrder(feeds)[p])[0] < Turns(feeds, CompanyOrder(feeds)[q])[0]
  {
    var n := |feeds| - 1;
    var prior, order := CompanyOrder(feeds[..n]), CompanyOrder(feeds);
    TurnsOfCompany(feeds, order[p]);
    TurnsOfCompany(feeds, order[q]);
    TurnsOfPrefix(feeds, order[p], n);
    TurnsOfCompany(feeds[..n], order[p]);
    if q < |prior| {
      OrderFollowsFirstTurns(feeds[..n], p, q);
      TurnsOfPrefix(feeds, order[q], n);
    } else {
      assert order[q] == ResolveCompanyKey(feeds[n]) && order[q] !in prior;
      TurnsOfCompany(feeds[..n], order[q]);
    }
  }

  /** The turns of every company, in company order. */
  function Groups(feeds: seq<Feed>): seq<seq<nat>> {
    seq(|CompanyOrder(feeds)|, p requires 0 <= p < |CompanyOrder(feeds)| => Turns(feeds, CompanyOrder(feeds)[p]))
  }

  ghost predicate GroupsFit(groups: seq<seq<nat>>, n: nat) {
    forall p, r :: 0 <= p < |groups| && 0 <= r < |groups[p]| ==> groups[p][r] < n
  }

  function SlotsTaken(groups: seq<seq<nat>>, r: nat, c: nat): (slots: seq<Slot>)
    requires c <= |groups|
    ensures forall k :: 0 <= k < |slots| ==> ValidSlot(groups, slots[k])
  {
    var pre, part := Rounds(groups, r), RoundPart(groups, r, c);
    assert forall k :: 0 <= k < |pre| ==> ValidSlot(groups, pre[k]) by {
      forall k | 0 <= k < |pre| ensures ValidSlot(groups, pre[k]) { RoundsSlot(groups, r, k); }
    }
    assert forall k :: 0 <= k < |part| ==> ValidSlot(groups, part[k]) by {
      forall k | 0 <= k < |part| ensures ValidSlot(groups, part[k]) { RoundPartSlot(groups, r, c, k); }
    }
    pre + part
  }

  /** Positions of the first `r` rounds and of the first `c` companies of round `r`. */
  function Taken(groups: seq<seq<nat>>, r: nat, c: nat): seq<nat>
    requires c <= |groups|
  {
    var slots := SlotsTaken(groups, r, c);
    seq(|slots|, k requires 0 <= k < |slots| => groups[slots[k].company][slots[k].round])
  }

  function RoundRobin(feeds: seq<Feed>): seq<nat> {
    Taken(Groups(feeds), |feeds|, 0)
  }

  lemma GroupsOfFeeds(feeds: seq<Feed>)
    ensures GroupsFit(Groups(feeds), |feeds|)
  {
    forall p, r | 0 <= p < |Groups(feeds)| && 0 <= r < |Groups(feeds)[p]| ensures Groups(feeds)[p][r] < |feeds| {
      assert Groups(feeds)[p] == Turns(feeds, CompanyOrder(feeds)[p]);
    }
  }

  /** Slots of lower order hold positions of lower order. */
  lemma SlotsFollowPrecedence(feeds: seq<Feed>, a: Slot, b: Slot)
    requires ValidSlot(Groups(feeds), a) && ValidSlot(Groups(feeds), b) && SlotBefore(a, b)
    ensures var i, j := Groups(feeds)[a.company][a.round], Groups(feeds)[b.company][b.round];
            i < |feeds| && j < |feeds| && Precedes(feeds, i, j)
  {
    var order := CompanyOrder(feeds);
    TurnHasRank(feeds, order[a.company], a.round);
    TurnHasRank(feeds, order[b.company], b.round);
    if a.round == b.round {
      OrderFollowsFirstTurns(feeds, a.company, b.company);
    }
  }

  lemma TakenIsOrdered(feeds: seq<Feed>, r: nat)
    ensures Ordered(feeds, Taken(Groups(feeds), r, 0))
  {
    var groups := Groups(feeds);
    var idx, slots := Taken(groups, r, 0), Rounds(groups, r);
    GroupsOfFeeds(feeds);
    assert SlotsTaken(groups, r, 0) == slots;
    forall k | 0 <= k < |idx| ensures idx[k] < |feeds| {
      RoundsSlot(groups, r, k);
    }
    forall a, b | 0 <= a < b < |idx| ensures Precedes(feeds, idx[a], idx[b]) {
      RoundsAscend(groups, r, a, b);
      RoundsSlot(groups, r, a);
      RoundsSlot(groups, r, b);
      SlotsFollowPrecedence(feeds, slots[a], slots[b]);
    }
  }

  lemma RoundRobinTakesAll(feeds: seq<Feed>, i: nat)
    requires i < |feeds|
    ensures i in RoundRobin(feeds)
  {
    var p := CompanyOfFeed(feeds, i);
    RankIsTurn(feeds, i);
    RankIsSmall(feeds[..i], ResolveCompanyKey(feeds[i]));
    var groups, s := Groups(feeds), Slot(Rank(feeds, i), p);
    RoundsHas(groups, s, |feeds|);
    var k :| 0 <= k < |Rounds(groups, |feeds|)| && Rounds(groups, |feeds|)[k] == s;
    assert RoundRobin(feeds)[k] == i;
  }

  lemma {:induction false} RankIsSmall(feeds: seq<Feed>, key: CompanyKey)
    ensures |Turns(feeds, key)| <= |feeds|
  {
    if feeds != [] {
      RankIsSmall(feeds[..|feeds| - 1], key);
    }
  }

  // --- Uniqueness of the closed form ---

  lemma {:induction false} OrderedPositionsFit(feeds: seq<Feed>, idx: seq<nat>, all: set<nat>)
    requires Ordered(feeds, idx)
    requires forall i :: i in idx ==> i in all
    ensures |idx| <= |all|
    ensures (forall i :: i in all ==> i in idx) ==> |idx| == |all|
  {
    if idx != [] {
      var last, pre := idx[|idx| - 1], idx[..|idx| - 1];
      forall a | 0 <= a < |pre| ensures pre[a] != last {
        assert Precedes(feeds, idx[a], idx[|idx| - 1]);
      }
      assert forall i :: i in idx <==> i in pre || i == last;
      OrderedPositionsFit(feeds, pre, all - {last});
    }
  }

  lemma LastIsLatest(feeds: seq<Feed>, idx: seq<nat>, x: nat)
    requires Ordered(feeds, idx) && x in idx && x != idx[|idx| - 1]
    ensures Precedes(feeds, x, idx[|idx| - 1])
  {
    var a :| 0 <= a < |idx| && idx[a] == x;
  }

  /** The order determines the positions: there is at most one round robin. */
  lemma {:induction false} OrderedPositionsAreUnique(feeds: seq<Feed>, xs: seq<nat>, ys: seq<nat>)
    requires Ordered(feeds, xs) && Ordered(feeds, ys) && |xs| == |ys|
    requires forall i :: i in xs <==> i in ys
    ensures xs == ys
  {
    if xs != [] {
      var x, y := xs[|xs| - 1], ys[|ys| - 1];
      assert x in xs && y in ys;
      if x != y {
        LastIsLatest(feeds, xs, y);
        LastIsLatest(feeds, ys, x);
        assert false;
      }
      var xs', ys' := xs[..|xs| - 1], ys[..|ys| - 1];
      forall i ensures i in xs' <==> i in ys' {
        WithoutLast(feeds, xs, i);
        WithoutLast(feeds, ys, i);
      }
      OrderedPositionsAreUnique(feeds, xs', ys');
    }
  }

  lemma WithoutLast(feeds: seq<Feed>, idx: seq<nat>, i: nat)
    requires Ordered(feeds, idx) && idx != []
    ensures i in idx[..|idx| - 1] <==> i in idx && i != idx[|idx| - 1]
  {
    if i in idx[..|idx| - 1] {
      var a :| 0 <= a < |idx| - 1 && idx[a] == i;
      assert Precedes(feeds, idx[a], idx[|idx| - 1]);
    }
  }

  /** The positions below `n`. */
  function Below(n: nat): (s: set<nat>)
    ensures |s| == n && forall i: nat :: i in s <==> i < n
  {
    if n == 0 then {} else Below(n - 1) + {n - 1}
  }

  lemma RoundRobinIsPermutation(feeds: seq<Feed>)
    ensures IsRoundRobin(feeds, RoundRobin(feeds)) && |RoundRobin(feeds)| == |feeds|
  {
    TakenIsOrdered(feeds, |feeds|);
    forall i | 0 <= i < |feeds| ensures i in RoundRobin(feeds) {
      RoundRobinTakesAll(feeds, i);
    }
    OrderedPositionsFit(feeds, RoundRobin(feeds), Below(|feeds|));
  }

  /** The rounds compute the closed form, and nothing else satisfies it. */
  lemma RoundRobinIsClosedForm(feeds: seq<Feed>, idx: seq<nat>)
    ensures IsRoundRobin(feeds, idx) <==> idx == RoundRobin(feeds)
  {
    RoundRobinIsPermutation(feeds);
    if IsRoundRobin(feeds, idx) {
      OrderedPositionsFit(feeds, idx, Below(|feeds|));
      OrderedPositionsAreUnique(feeds, idx, RoundRobin(feeds));
    }
  }

  /** The mixed list as a value. */
  function Mixed(feeds: seq<Feed>): seq<Feed> {
    RoundRobinIsPermutation(feeds);
    Pick(feeds, RoundRobin(feeds))
  }

  // --- The mixer ---

  /** What is left of the queue of company `p` once `c` companies had their turn in round `r`. */
  ghost function Left(groups: seq<seq<nat>>, p: nat, r: nat, c: nat): seq<nat>
    requires p < |groups|
  {
    var taken := if p < c then r + 1 else r;
    if taken <= |groups[p]| then groups[p][taken..] else []
  }

  ghost predicate QueueHolds(feeds: seq<Feed>, groups: seq<seq<nat>>, queue: seq<Feed>, p: nat, r: nat, c: nat)
    requires p < |groups|
  {
    Positions(Left(groups, p, r, c), |feeds|) && queue == Pick(feeds, Left(groups, p, r, c))
  }

  ghost predicate QueuesHold(feeds: seq<Feed>, groups: seq<seq<nat>>, order: seq<CompanyKey>,
                             queues: map<CompanyKey, seq<Feed>>, r: nat, c: nat)
  {
    && |order| == |groups|
    && (forall p, q :: 0 <= p < q < |order| ==> order[p] != order[q])
    && (forall p :: 0 <= p < |groups| ==> order[p] in queues && QueueHolds(feeds, groups, queues[order[p]], p, r, c))
  }

  lemma TakeTurn(feeds: seq<Feed>, groups: seq<seq<nat>>, order: seq<CompanyKey>, queues: map<CompanyKey, seq<Feed>>,
                 r: nat, c: nat)
    requires c < |groups| && QueuesHold(feeds, groups, order, queues, r, c) && GroupsFit(groups, |feeds|)
    ensures var queue := queues[order[c]];
            if r < |groups[c]|
            then queue != [] && queue[0] == feeds[groups[c][r]]
                 && QueuesHold(feeds, groups, order, queues[order[c] := queue[1..]], r, c + 1)
            else queue == [] && QueuesHold(feeds, groups, order, queues, r, c + 1)
  {
    var queue := queues[order[c]];
    assert QueueHolds(feeds, groups, queue, c, r, c);
    var queues' := if r < |groups[c]| then queues[order[c] := queue[1..]] else queues;
    var next := c + 1;
    forall p | 0 <= p < |groups| ensures QueueHolds(feeds, groups, queues'[order[p]], p, r, next) {
      assert QueueHolds(feeds, groups, queues[order[p]], p, r, c);
      if p == c && r < |groups[c]| {
        assert Left(groups, c, r, next) == Left(groups, c, r, c)[1..];
      } else {
        assert Left(groups, p, r, next) == Left(groups, p, r, c);
      }
    }
  }

  lemma NextRound(feeds: seq<Feed>, groups: seq<seq<nat>>, order: seq<CompanyKey>, queues: map<CompanyKey, seq<Feed>>,
                  r: nat)
    requires QueuesHold(feeds, groups, order, queues, r, |groups|)
    ensures QueuesHold(feeds, groups, order, queues, r + 1, 0)
  {
    var next := r + 1;
    forall p | 0 <= p < |groups| ensures QueueHolds(feeds, groups, queues[order[p]], p, next, 0) {
      assert QueueHolds(feeds, groups, queues[order[p]], p, r, |groups|);
      assert Left(groups, p, next, 0) == Left(groups, p, r, |groups|);
    }
  }

  lemma TakenNext(groups: seq<seq<nat>>, r: nat, c: nat)
    requires c < |groups|
    ensures Taken(groups, r, c + 1) == Taken(groups, r, c) + if r < |groups[c]| then [groups[c][r]] else []
  {
    assert SlotsTaken(groups, r, c + 1) == SlotsTaken(groups, r, c) + if r < |groups[c]| then [Slot(r, c)] else [];
  }

  lemma TakenWraps(groups: seq<seq<nat>>, r: nat)
    ensures Taken(groups, r, |groups|) == Taken(groups, r + 1, 0)
  {
    assert SlotsTaken(groups, r, |groups|) == SlotsTaken(groups, r + 1, 0);
  }

  lemma TakenFits(feeds: seq<Feed>, r: nat)
    ensures |Taken(Groups(feeds), r, 0)| <= |feeds|
  {
    TakenIsOrdered(feeds, r);
    OrderedPositionsFit(feeds, Taken(Groups(feeds), r, 0), Below(|feeds|));
  }

  /** A round without output ends the loop with everything taken. */
  lemma QuietRoundEnds(feeds: seq<Feed>, r: nat)
    requires Taken(Groups(feeds), r, |Groups(feeds)|) == Taken(Groups(feeds), r, 0)
    ensures Taken(Groups(feeds), r, 0) == RoundRobin(feeds)
  {
    var groups := Groups(feeds);
    assert |Taken(groups, r, |groups|)| == |Rounds(groups, r)| + |RoundPart(groups, r, |groups|)|;
    assert |Taken(groups, r, 0)| == |Rounds(groups, r)|;
    EmptyPart(groups, r, |groups|);
    if r <= |feeds| {
      QuietRound(groups, r, |feeds|);
    } else {
      forall p | 0 <= p < |groups| ensures |groups[p]| <= |feeds| {
        RankIsSmall(feeds, CompanyOrder(feeds)[p]);
      }
      QuietRound(groups, |feeds|, r);
    }
    assert SlotsTaken(groups, r, 0) == SlotsTaken(groups, |feeds|, 0);
  }

  lemma GroupNext(feeds: seq<Feed>, i: nat, key: CompanyKey)
    requires i < |feeds|
    ensures Pick(feeds[..i + 1], Turns(feeds[..i + 1], key))
         == Pick(feeds[..i], Turns(feeds[..i], key)) + if ResolveCompanyKey(feeds[i]) == key then [feeds[i]] else []
  {
    assert feeds[..i + 1][..i] == feeds[..i];
  }

  ghost predicate Grouped(feeds: seq<Feed>, queues: map<CompanyKey, seq<Feed>>) {
    forall k :: k in queues ==> queues[k] == Pick(feeds, Turns(feeds, k))
  }

  lemma GroupOne(feeds: seq<Feed>, i: nat, queues: map<CompanyKey, seq<Feed>>)
    requires i < |feeds| && Grouped(feeds[..i], queues)
    requires forall k :: k in queues <==> k in CompanyOrder(feeds[..i])
    ensures var key := ResolveCompanyKey(feeds[i]);
            var queue := if key in queues then queues[key] else [];
            Grouped(feeds[..i + 1], queues[key := queue + [feeds[i]]])
  {
    var key := ResolveCompanyKey(feeds[i]);
    TurnsOfCompany(feeds[..i], key);
    var queue := if key in queues then queues[key] else [];
    var queues' := queues[key := queue + [feeds[i]]];
    forall k | k in queues' ensures queues'[k] == Pick(feeds[..i + 1], Turns(feeds[..i + 1], k)) {
      GroupNext(feeds, i, k);
    }
  }

  method GroupByCompany(feeds: seq<Feed>) returns (queues: map<CompanyKey, seq<Feed>>, order: seq<CompanyKey>)
    ensures order == CompanyOrder(feeds)
    ensures QueuesHold(feeds, Groups(feeds), order, queues, 0, 0)
  {
    queues, order := map[], [];
    for i := 0 to |feeds|
      invariant order == CompanyOrder(feeds[..i])
      invariant forall k :: k in queues <==> k in order
      invariant Grouped(feeds[..i], queues)
    {
      assert feeds[..i + 1][..i] == feeds[..i];
      GroupOne(feeds, i, queues);
      var key := ResolveCompanyKey(feeds[i]);
      if key !in queues {
        order := order + [key];
        queues := queues[key := []];
      }
      queues := queues[key := queues[key] + [feeds[i]]];
    }
    assert feeds[..|feeds|] == feeds;
    GroupedQueuesHold(feeds, queues);
  }

  lemma GroupedQueuesHold(feeds: seq<Feed>, queues: map<CompanyKey, seq<Feed>>)
    requires Grouped(feeds, queues) && forall k :: k in queues <==> k in CompanyOrder(feeds)
    ensures QueuesHold(feeds, Groups(feeds), CompanyOrder(feeds), queues, 0, 0)
  {
    var order := CompanyOrder(feeds);
    forall p, q | 0 <= p < q < |order| ensures order[p] != order[q] {
      CompaniesAreDistinct(feeds, p, q);
    }
    forall p | 0 <= p < |order| ensures QueueHolds(feeds, Groups(feeds), queues[order[p]], p, 0, 0) {
      assert Left(Groups(feeds), p, 0, 0) == Turns(feeds, order[p]);
    }
  }

  lemma PickNext(feeds: seq<Feed>, idx: seq<nat>, i: nat)
    requires Positions(idx, |feeds|) && i < |feeds|
    ensures Positions(idx + [i], |feeds|) && Pick(feeds, idx + [i]) == Pick(feeds, idx) + [feeds[i]]
  {
  }

  /** One pass over the companies: each one with feeds left contributes its next feed. */
  method TakeRound(feeds: seq<Feed>, ghost groups: seq<seq<nat>>, ghost r: nat, order: seq<CompanyKey>,
                   queues: map<CompanyKey, seq<Feed>>, mixed: seq<Feed>)
    returns (queues': map<CompanyKey, seq<Feed>>, mixed': seq<Feed>, took: bool)
    requires GroupsFit(groups, |feeds|) && QueuesHold(feeds, groups, order, queues, r, 0)
    requires Positions(Taken(groups, r, 0), |feeds|) && mixed == Pick(feeds, Taken(groups, r, 0))
    ensures QueuesHold(feeds, groups, order, queues', r + 1, 0)
    ensures Positions(Taken(groups, r + 1, 0), |feeds|) && mixed' == Pick(feeds, Taken(groups, r + 1, 0))
    ensures if took then |mixed'| > |mixed| else Taken(groups, r, |groups|) == Taken(groups, r, 0)
  {
    queues', mixed', took := queues, mixed, false;
    ghost var idx := Taken(groups, r, 0);
    for c := 0 to |order|
      invariant QueuesHold(feeds, groups, order, queues', r, c)
      invariant idx == Taken(groups, r, c) && Positions(idx, |feeds|) && mixed' == Pick(feeds, idx)
      invariant if took then |mixed'| > |mixed| else idx == Taken(groups, r, 0)
    {
      TakeTurn(feeds, groups, order, queues', r, c);
      TakenNext(groups, r, c);
      var queue := queues'[order[c]];
      if queue != [] {
        PickNext(feeds, idx, groups[c][r]);
        mixed' := mixed' + [queue[0]];
        idx := idx + [groups[c][r]];
        queues' := queues'[order[c] := queue[1..]];
        took := true;
      }
    }
    NextRound(feeds, groups, order, queues', r);
    TakenWraps(groups, r);
  }

  method MixFeedsByCompany(feeds: seq<Feed>) returns (mixed: seq<Feed>)
    ensures mixed == Mixed(feeds)
  {
    if |feeds| <= 1 {
      RoundRobinIsPermutation(feeds);
      return feeds;
    }
    var queues, order := GroupByCompany(feeds);
    mixed := [];
    ghost var groups, r := Groups(feeds), 0;
    GroupsOfFeeds(feeds);
    var hasPending := true;
    while hasPending
      invariant QueuesHold(feeds, groups, order, queues, r, 0)
      invariant Positions(Taken(groups, r, 0), |feeds|) && mixed == Pick(feeds, Taken(groups, r, 0))
      invariant |mixed| <= |feeds|
      invariant !hasPending ==> mixed == Mixed(feeds)
      decreases |feeds| - |mixed|, hasPending
    {
      queues, mixed, hasPending := TakeRound(feeds, groups, r, order, queues, mixed);
      TakenFits(feeds, r + 1);
      if !hasPending {
        QuietRoundEnds(feeds, r);
        TakenWraps(groups, r);
      }
      r := r + 1;
    }
  }
}
