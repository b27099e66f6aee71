/** What the closed form of the mixer means for the companies: order, fairness and adjacency. */
module RoundRobinLaws {
  import opened Common
  import opened Scheduling

  /** The feeds of one company, in list order. */
  function FeedsOf(feeds: seq<Feed>, key: CompanyKey): seq<Feed> {
    Pick(feeds, Turns(feeds, key))
  }

  /** Where in the input the company's feeds of the mixed list come from. */
  ghost function Origins(feeds: seq<Feed>, key: CompanyKey): seq<nat> {
    RoundRobinIsPermutation(feeds);
    var ts := Turns(Mixed(feeds), key);
    seq(|ts|, k requires 0 <= k < |ts| => RoundRobin(feeds)[ts[k]])
  }

  lemma MixedAt(feeds: seq<Feed>, a: nat)
    requires a < |Mixed(feeds)|
    ensures |RoundRobin(feeds)| == |Mixed(feeds)| == |feeds|
    ensures RoundRobin(feeds)[a] < |feeds| && Mixed(feeds)[a] == feeds[RoundRobin(feeds)[a]]
  {
    RoundRobinIsPermutation(feeds);
  }

  lemma OriginsAreOrdered(feeds: seq<Feed>, key: CompanyKey)
    ensures Ordered(feeds, Origins(feeds, key))
  {
    RoundRobinIsPermutation(feeds);
    var ts, from := Turns(Mixed(feeds), key), Origins(feeds, key);
    forall a, b | 0 <= a < b < |from| ensures Precedes(feeds, from[a], from[b]) {
      TurnsAscend(Mixed(feeds), key, a, b);
    }
  }

  lemma TurnsAreOrdered(feeds: seq<Feed>, key: CompanyKey)
    ensures Ordered(feeds, Turns(feeds, key))
  {
    var ts := Turns(feeds, key);
    forall a, b | 0 <= a < b < |ts| ensures Precedes(feeds, ts[a], ts[b]) {
      TurnHasRank(feeds, key, a);
      TurnHasRank(feeds, key, b);
    }
  }

  lemma OriginIsTurn(feeds: seq<Feed>, key: CompanyKey, k: nat)
    requires k < |Origins(feeds, key)|
    ensures Origins(feeds, key)[k] in Turns(feeds, key)
  {
    RoundRobinIsPermutation(feeds);
    var a := Turns(Mixed(feeds), key)[k];
    MixedAt(feeds, a);
    RankIsTurn(feeds, RoundRobin(feeds)[a]);
  }

  lemma TurnIsOrigin(feeds: seq<Feed>, key: CompanyKey, k: nat)
    requires k < |Turns(feeds, key)|
    ensures Turns(feeds, key)[k] in Origins(feeds, key)
  {
    var i := Turns(feeds, key)[k];
    var a := MixedPosition(feeds, i);
    MixedAt(feeds, a);
    RankIsTurn(Mixed(feeds), a);
    assert Origins(feeds, key)[Rank(Mixed(feeds), a)] == i;
  }

  lemma SameElementsSameOrder(feeds: seq<Feed>, xs: seq<nat>, ys: seq<nat>)
    requires Ordered(feeds, xs) && Ordered(feeds, ys)
    requires (forall k :: 0 <= k < |xs| ==> xs[k] in ys) && (forall k :: 0 <= k < |ys| ==> ys[k] in xs)
    ensures xs == ys
  {
    var all := set i | i in ys;
    OrderedPositionsFit(feeds, xs, all);
    OrderedPositionsFit(feeds, ys, all);
    OrderedPositionsAreUnique(feeds, xs, ys);
  }

  /** The mixed list visits every company's feeds exactly in their input order. */
  lemma MixKeepsCompanyOrder(feeds: seq<Feed>, key: CompanyKey)
    ensures Origins(feeds, key) == Turns(feeds, key)
    ensures FeedsOf(Mixed(feeds), key) == FeedsOf(feeds, key)
  {
    OriginsAreOrdered(feeds, key);
    TurnsAreOrdered(feeds, key);
    forall k | 0 <= k < |Origins(feeds, key)| ensures Origins(feeds, key)[k] in Turns(feeds, key) {
      OriginIsTurn(feeds, key, k);
    }
    forall k | 0 <= k < |Turns(feeds, key)| ensures Turns(feeds, key)[k] in Origins(feeds, key) {
      TurnIsOrigin(feeds, key, k);
    }
    SameElementsSameOrder(feeds, Origins(feeds, key), Turns(feeds, key));
    OriginsHoldFeeds(feeds, key);
  }

  lemma OriginsHoldFeeds(feeds: seq<Feed>, key: CompanyKey)
    requires Origins(feeds, key) == Turns(feeds, key)
    ensures FeedsOf(Mixed(feeds), key) == FeedsOf(feeds, key)
  {
    RoundRobinIsPermutation(feeds);
  }

  /** A feed keeps its rank: the mixed list holds it after as many feeds of its company as the input did. */
  lemma MixKeepsRank(feeds: seq<Feed>, a: nat)
    requires a < |Mixed(feeds)|
    ensures |RoundRobin(feeds)| == |Mixed(feeds)| && RoundRobin(feeds)[a] < |feeds|
    ensures Rank(Mixed(feeds), a) == Rank(feeds, RoundRobin(feeds)[a])
  {
    MixedAt(feeds, a);
    var key := ResolveCompanyKey(Mixed(feeds)[a]);
    RankIsTurn(Mixed(feeds), a);
    MixKeepsCompanyOrder(feeds, key);
    assert Origins(feeds, key)[Rank(Mixed(feeds), a)] == RoundRobin(feeds)[a];
    TurnHasRank(feeds, key, Rank(Mixed(feeds), a));
  }

  /** Later feeds never have a lower rank. */
  lemma RanksRise(feeds: seq<Feed>, a: nat, b: nat)
    requires a < b < |Mixed(feeds)|
    ensures Rank(Mixed(feeds), a) <= Rank(Mixed(feeds), b)
  {
    RoundRobinIsPermutation(feeds);
    MixKeepsRank(feeds, a);
    MixKeepsRank(feeds, b);
    assert Precedes(feeds, RoundRobin(feeds)[a], RoundRobin(feeds)[b]);
  }

  lemma NextTurnIsLater(feeds: seq<Feed>, key: CompanyKey, m: nat)
    requires m <= |feeds| && |Turns(feeds[..m], key)| < |Turns(feeds, key)|
    ensures Turns(feeds, key)[|Turns(feeds[..m], key)|] >= m
  {
    var pre, ts := Turns(feeds[..m], key), Turns(feeds, key);
    TurnsOfPrefix(feeds, key, m);
    var p := ts[|pre|];
    if p < m {
      assert feeds[..m][p] == feeds[p];
      RankIsTurn(feeds[..m], p);
      TurnsAscend(feeds, key, Rank(feeds[..m], p), |pre|);
    }
  }

  lemma RisingRanksAreFair(feeds: seq<Feed>, m: nat, waiting: CompanyKey, other: CompanyKey)
    requires forall a, b :: 0 <= a < b < |feeds| ==> Rank(feeds, a) <= Rank(feeds, b)
    requires m <= |feeds| && |Turns(feeds[..m], waiting)| < |Turns(feeds, waiting)|
    ensures |Turns(feeds[..m], other)| <= |Turns(feeds[..m], waiting)| + 1
  {
    var served, ahead := |Turns(feeds[..m], waiting)|, |Turns(feeds[..m], other)|;
    if ahead > 0 {
      NextTurnIsLater(feeds, waiting, m);
      TurnHasRank(feeds, waiting, served);
      TurnsOfPrefix(feeds, other, m);
      TurnHasRank(feeds, other, ahead - 1);
    }
  }

  /** Fairness: in every prefix, a company with feeds left trails no other company by more than one. */
  lemma MixIsFair(feeds: seq<Feed>, m: nat, waiting: CompanyKey, other: CompanyKey)
    requires m <= |Mixed(feeds)|
    requires |Turns(Mixed(feeds)[..m], waiting)| < |Turns(Mixed(feeds), waiting)|
    ensures |Turns(Mixed(feeds)[..m], other)| <= |Turns(Mixed(feeds)[..m], waiting)| + 1
  {
    var mixed := Mixed(feeds);
    forall a, b | 0 <= a < b < |mixed| ensures Rank(mixed, a) <= Rank(mixed, b) {
      RanksRise(feeds, a, b);
    }
    RisingRanksAreFair(mixed, m, waiting, other);
  }

  lemma MixedPosition(feeds: seq<Feed>, i: nat) returns (a: nat)
    requires i < |feeds|
    ensures a < |Mixed(feeds)| && |RoundRobin(feeds)| == |Mixed(feeds)| && RoundRobin(feeds)[a] == i
  {
    RoundRobinIsPermutation(feeds);
    assert i in RoundRobin(feeds);
    a :| 0 <= a < |RoundRobin(feeds)| && RoundRobin(feeds)[a] == i;
  }

  lemma PositionsFollowPrecedence(feeds: seq<Feed>, a: nat, b: nat)
    requires a < |feeds| && b < |feeds|
    ensures |RoundRobin(feeds)| == |feeds| && RoundRobin(feeds)[a] < |feeds| && RoundRobin(feeds)[b] < |feeds|
    ensures a < b <==> Precedes(feeds, RoundRobin(feeds)[a], RoundRobin(feeds)[b])
  {
    RoundRobinIsPermutation(feeds);
    if b < a {
      assert Precedes(feeds, RoundRobin(feeds)[b], RoundRobin(feeds)[a]);
    }
  }

  /** The position in the mixed list of turn `r` of a company, with what orders it there. */
  lemma TurnPosition(feeds: seq<Feed>, key: CompanyKey, r: nat) returns (a: nat)
    requires r < |Turns(feeds, key)|
    ensures a < |feeds| && |RoundRobin(feeds)| == |feeds| && RoundRobin(feeds)[a] == Turns(feeds, key)[r]
    ensures Rank(feeds, Turns(feeds, key)[r]) == r
    ensures FirstTurn(feeds, Turns(feeds, key)[r]) == Turns(feeds, key)[0]
  {
    a := MixedPosition(feeds, Turns(feeds, key)[r]);
    MixedAt(feeds, a);
    TurnHasRank(feeds, key, r);
  }

  /** What fixes the place of the feed at `a`: its rank and its company's first turn. */
  lemma PlaceInMix(feeds: seq<Feed>, a: nat)
    requires a < |Mixed(feeds)|
    ensures |RoundRobin(feeds)| == |feeds| == |Mixed(feeds)| && RoundRobin(feeds)[a] < |feeds|
    ensures var key := ResolveCompanyKey(Mixed(feeds)[a]);
            && Rank(feeds, RoundRobin(feeds)[a]) == Rank(Mixed(feeds), a) < |Turns(feeds, key)|
            && FirstTurn(feeds, RoundRobin(feeds)[a]) == Turns(feeds, key)[0]
            && ResolveCompanyKey(feeds[Turns(feeds, key)[0]]) == key
  {
    MixedAt(feeds, a);
    MixKeepsRank(feeds, a);
    RankIsTurn(feeds, RoundRobin(feeds)[a]);
  }

  lemma NeighbourRanks(feeds: seq<Feed>, a: nat)
    requires a + 1 < |feeds| && ResolveCompanyKey(feeds[a]) == ResolveCompanyKey(feeds[a + 1])
    ensures Rank(feeds, a + 1) == Rank(feeds, a) + 1
  {
    assert feeds[..a + 1][..a] == feeds[..a];
  }

  lemma LowerRankHasTurn(feeds: seq<Feed>, key: CompanyKey, r: nat, a: nat, c: nat)
    requires a < |feeds| && c < |feeds| && r < |Turns(feeds, key)|
    requires |RoundRobin(feeds)| == |feeds| && RoundRobin(feeds)[a] < |feeds| && RoundRobin(feeds)[c] < |feeds|
    requires Rank(feeds, RoundRobin(feeds)[a]) == r && Rank(feeds, RoundRobin(feeds)[c]) == r + 1 && c == a + 1
    ensures Turns(feeds, key)[0] <= FirstTurn(feeds, RoundRobin(feeds)[a])
  {
    var low := TurnPosition(feeds, key, r);
    PositionsFollowPrecedence(feeds, a, low);
    PositionsFollowPrecedence(feeds, low, c);
  }

  lemma HigherRankHasTurn(feeds: seq<Feed>, key: CompanyKey, r: nat, a: nat, c: nat)
    requires a < |feeds| && c < |feeds| && r + 1 < |Turns(feeds, key)|
    requires |RoundRobin(feeds)| == |feeds| && RoundRobin(feeds)[a] < |feeds| && RoundRobin(feeds)[c] < |feeds|
    requires Rank(feeds, RoundRobin(feeds)[a]) == r && Rank(feeds, RoundRobin(feeds)[c]) == r + 1 && c == a + 1
    ensures FirstTurn(feeds, RoundRobin(feeds)[c]) <= Turns(feeds, key)[0]
  {
    var high := TurnPosition(feeds, key, r + 1);
    PositionsFollowPrecedence(feeds, a, high);
    PositionsFollowPrecedence(feeds, high, c);
  }

  /** A company with turns r and r + 1 has its first turn squeezed between equal bounds. */
  lemma SqueezedCompany(feeds: seq<Feed>, later: CompanyKey, r: nat, a: nat)
    requires a + 1 < |feeds| && r + 1 < |Turns(feeds, later)|
    requires |RoundRobin(feeds)| == |feeds| && RoundRobin(feeds)[a] < |feeds| && RoundRobin(feeds)[a + 1] < |feeds|
    requires Rank(feeds, RoundRobin(feeds)[a]) == r && Rank(feeds, RoundRobin(feeds)[a + 1]) == r + 1
    requires ResolveCompanyKey(feeds[RoundRobin(feeds)[a]]) == ResolveCompanyKey(feeds[RoundRobin(feeds)[a + 1]])
    ensures later == ResolveCompanyKey(feeds[RoundRobin(feeds)[a]])
  {
    LowerRankHasTurn(feeds, later, r, a, a + 1);
    HigherRankHasTurn(feeds, later, r, a, a + 1);
    SameFirstTurn(feeds, later, RoundRobin(feeds)[a]);
  }

  lemma SameFirstTurn(feeds: seq<Feed>, key: CompanyKey, i: nat)
    requires i < |feeds| && Turns(feeds, key) != [] && Turns(feeds, key)[0] == FirstTurn(feeds, i)
    ensures key == ResolveCompanyKey(feeds[i])
  {
    RankIsTurn(feeds, i);
  }

  /** Two neighbours share a company only when no other company has feeds left from there on. */
  lemma NeighboursShareOnlyAtTheEnd(feeds: seq<Feed>, a: nat, b: nat)
    requires a + 1 < b < |Mixed(feeds)|
    requires ResolveCompanyKey(Mixed(feeds)[a]) == ResolveCompanyKey(Mixed(feeds)[a + 1])
    ensures ResolveCompanyKey(Mixed(feeds)[b]) == ResolveCompanyKey(Mixed(feeds)[a])
  {
    PlaceInMix(feeds, a);
    PlaceInMix(feeds, a + 1);
    PlaceInMix(feeds, b);
    NeighbourRanks(Mixed(feeds), a);
    RanksRise(feeds, a + 1, b);
    var later, r := ResolveCompanyKey(Mixed(feeds)[b]), Rank(Mixed(feeds), a);
    SqueezedCompany(feeds, later, r, a);
  }

  // --- Batches ---

  /** The batches of one publish loop; a size below one acts like one. */
  function Batches<T>(items: seq<T>, size: int): seq<seq<T>> {
    var step := if size < 1 then 1 else size;
    if items == [] then []
    else if |items| <= step then [items]
    else [items[..step]] + Batches(items[step..], size)
  }

  /** What the publisher relies on: nothing lost, full batches but for the last, none empty. */
  ghost predicate IsSplit<T>(items: seq<T>, size: int, batches: seq<seq<T>>) {
    var step := if size < 1 then 1 else size;
    && Flatten(batches) == items
    && (forall k :: 0 <= k < |batches| - 1 ==> |batches[k]| == step)
    && (batches != [] ==> 0 < |batches[|batches| - 1]| <= step)
  }

  lemma {:induction false} BatchesSplit<T>(items: seq<T>, size: int)
    ensures IsSplit(items, size, Batches(items, size))
  {
    var step := if size < 1 then 1 else size;
    if |items| > step {
      BatchesSplit(items[step..], size);
      assert Batches(items, size)[1..] == Batches(items[step..], size);
      assert items == items[..step] + items[step..];
    } else if items != [] {
      assert Flatten([items]) == items + Flatten<T>([]);
    }
  }

  lemma {:induction false} SplitIsUnique<T>(items: seq<T>, size: int, batches: seq<seq<T>>)
    requires IsSplit(items, size, batches)
    ensures batches == Batches(items, size)
  {
    if |batches| == 1 {
      assert Flatten(batches) == batches[0] + Flatten(batches[1..]);
      assert batches[1..] == [];
      assert batches == [batches[0]] && batches[0] == items;
    } else if |batches| > 1 {
      var step := if size < 1 then 1 else size;
      var tail := batches[1..];
      NonEmptyTail(tail);
      assert items[..step] == batches[0] && items[step..] == Flatten(tail);
      SplitIsUnique(items[step..], size, tail);
      assert batches == [batches[0]] + tail;
    }
  }

  /** The batches are the one way to split the list as the publisher relies on. */
  lemma BatchesAreTheSplit<T>(items: seq<T>, size: int, batches: seq<seq<T>>)
    ensures IsSplit(items, size, batches) <==> batches == Batches(items, size)
  {
    BatchesSplit(items, size);
    if IsSplit(items, size, batches) {
      SplitIsUnique(items, size, batches);
    }
  }

  lemma NonEmptyTail<T>(batches: seq<seq<T>>)
    requires batches != [] && |batches[|batches| - 1]| > 0
    ensures |Flatten(batches)| > 0
  {
    var n := |batches| - 1;
    FlattenAppend(batches[..n], [batches[n]]);
    assert batches == batches[..n] + [batches[n]];
    assert Flatten([batches[n]]) == batches[n] + Flatten<T>([]);
  }

  method IterFeedBatches(feeds: seq<Feed>, batchSize: int) returns (batches: seq<seq<Feed>>)
    ensures batches == Batches(feeds, batchSize)
  {
    batches := [];
    var batch: seq<Feed> := [];
    for i := 0 to |feeds|
      invariant Flatten(batches) + batch == feeds[..i]
      invariant |batch| < (if batchSize < 1 then 1 else batchSize)
      invariant forall k :: 0 <= k < |batches| ==> |batches[k]| == if batchSize < 1 then 1 else batchSize
    {
      assert feeds[..i + 1] == feeds[..i] + [feeds[i]];
      batch := batch + [feeds[i]];
      if |batch| >= batchSize {
        FlattenAppend(batches, [batch]);
        assert Flatten([batch]) == batch + Flatten<Feed>([]);
        batches := batches + [batch];
        batch := [];
      }
    }
    assert feeds[..|feeds|] == feeds;
    if batch != [] {
      FlattenAppend(batches, [batch]);
      assert Flatten([batch]) == batch + Flatten<Feed>([]);
      batches := batches + [batch];
    }
    BatchesAreTheSplit(feeds, batchSize, batches);
  }
}
