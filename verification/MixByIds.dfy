/**
 The mixed list in terms of company and feed ids alone: which feeds take turns with each other, and
 how many earlier feeds of its company decide where a feed stands.
 */
module MixByIds {
  import opened Common
  import opened Scheduling
  import opened RoundRobinLaws

  predicate HasCompany(feed: Feed) {
    feed.companyId.Some? && feed.companyId.value > 0
  }

  /** The same positive company id; without one, a feed is of its own company. */
  predicate SameCompany(a: Feed, b: Feed) {
    if HasCompany(a) then b.companyId == a.companyId else !HasCompany(b) && a.feedId == b.feedId
  }

  /** Keys are equal exactly for feeds of the same company. */
  lemma KeysAreCompanies(a: Feed, b: Feed)
    ensures ResolveCompanyKey(a) == ResolveCompanyKey(b) <==> SameCompany(a, b)
  {
  }

  /** How many of the first `n` feeds are of the feed's company. */
  function SameAmong(feeds: seq<Feed>, n: nat, feed: Feed): nat
    requires n <= |feeds|
  {
    if n == 0 then 0 else SameAmong(feeds, n - 1, feed) + if SameCompany(feeds[n - 1], feed) then 1 else 0
  }

  /** Position `p` holds the first feed of the company of the feed at `i`. */
  ghost predicate IsFirst(feeds: seq<Feed>, p: nat, i: nat) {
    && p <= i < |feeds| && SameCompany(feeds[p], feeds[i])
    && forall k :: 0 <= k < p ==> !SameCompany(feeds[k], feeds[i])
  }

  lemma {:induction false} TurnsAreCounted(feeds: seq<Feed>, n: nat, feed: Feed)
    requires n <= |feeds|
    ensures |Turns(feeds[..n], ResolveCompanyKey(feed))| == SameAmong(feeds, n, feed)
  {
    if n > 0 {
      TurnsAreCounted(feeds, n - 1, feed);
      KeysAreCompanies(feeds[n - 1], feed);
      assert feeds[..n][..n - 1] == feeds[..n - 1];
    }
  }

  lemma FirstTurnIsFirst(feeds: seq<Feed>, i: nat)
    requires i < |feeds|
    ensures IsFirst(feeds, FirstTurn(feeds, i), i)
  {
    var ts := Turns(feeds, ResolveCompanyKey(feeds[i]));
    RankIsTurn(feeds, i);
    KeysAreCompanies(feeds[ts[0]], feeds[i]);
    if Rank(feeds, i) > 0 {
      TurnsAscend(feeds, ResolveCompanyKey(feeds[i]), 0, Rank(feeds, i));
    }
    forall k | 0 <= k < ts[0] ensures !SameCompany(feeds[k], feeds[i]) {
      EarlierIsOther(feeds, k, i);
    }
  }

  lemma EarlierIsOther(feeds: seq<Feed>, k: nat, i: nat)
    requires k < |feeds| && i < |feeds| && k < FirstTurn(feeds, i)
    ensures !SameCompany(feeds[k], feeds[i])
  {
    KeysAreCompanies(feeds[k], feeds[i]);
    if SameCompany(feeds[k], feeds[i]) {
      RankIsTurn(feeds, k);
      if Rank(feeds, k) > 0 {
        TurnsAscend(feeds, ResolveCompanyKey(feeds[i]), 0, Rank(feeds, k));
      }
    }
  }

  /**
   The mixed list holds the feed at `x` before the one at `y` only if fewer earlier feeds are of its
   company, or equally many and its company appears first.
   */
  lemma MixFollowsIds(feeds: seq<Feed>, a: nat, b: nat) returns (x: nat, y: nat, p: nat, q: nat)
    requires a < b < |Mixed(feeds)|
    ensures x < |feeds| && Mixed(feeds)[a] == feeds[x] && IsFirst(feeds, p, x)
    ensures y < |feeds| && Mixed(feeds)[b] == feeds[y] && IsFirst(feeds, q, y)
    ensures x != y
    ensures var m, n := SameAmong(feeds, x, feeds[x]), SameAmong(feeds, y, feeds[y]);
            m < n || (m == n && p < q)
  {
    RoundRobinIsPermutation(feeds);
    MixedAt(feeds, a);
    MixedAt(feeds, b);
    x, y := RoundRobin(feeds)[a], RoundRobin(feeds)[b];
    assert Precedes(feeds, x, y);
    p, q := FirstTurn(feeds, x), FirstTurn(feeds, y);
    FirstTurnIsFirst(feeds, x);
    FirstTurnIsFirst(feeds, y);
    TurnsAreCounted(feeds, x, feeds[x]);
    TurnsAreCounted(feeds, y, feeds[y]);
  }

  lemma MixedIdsAreDistinct(feeds: seq<Feed>)
    requires DistinctIds(feeds)
    ensures DistinctIds(Mixed(feeds))
  {
    forall a, b | 0 <= a < b < |Mixed(feeds)| ensures Mixed(feeds)[a].feedId != Mixed(feeds)[b].feedId {
      var x, y, _, _ := MixFollowsIds(feeds, a, b);
    }
  }

  lemma {:induction false} LoneAmongDistinct(feeds: seq<Feed>, n: nat, a: nat)
    requires DistinctIds(feeds) && n <= a < |feeds| && !HasCompany(feeds[a])
    ensures SameAmong(feeds, n, feeds[a]) == 0
  {
    if n > 0 {
      LoneAmongDistinct(feeds, n - 1, a);
    }
  }

  lemma {:induction false} EarlierCounts(feeds: seq<Feed>, n: nat, e: nat, feed: Feed)
    requires e < n <= |feeds| && SameCompany(feeds[e], feed)
    ensures SameAmong(feeds, n, feed) > 0
  {
    if e < n - 1 {
      EarlierCounts(feeds, n - 1, e, feed);
    }
  }

  /** A feed without a company comes before every feed that is not its company's first. */
  lemma LoneFeedsComeFirst(feeds: seq<Feed>, a: nat, e: nat, b: nat)
    requires DistinctIds(feeds) && a < |Mixed(feeds)| && e < b < |Mixed(feeds)|
    requires !HasCompany(Mixed(feeds)[a])
    requires HasCompany(Mixed(feeds)[b]) && Mixed(feeds)[e].companyId == Mixed(feeds)[b].companyId
    ensures a < b
  {
    MixedIdsAreDistinct(feeds);
    LoneRank(Mixed(feeds), a);
    LaterRank(Mixed(feeds), e, b);
    if b < a {
      RanksRise(feeds, b, a);
    }
  }

  lemma LoneRank(feeds: seq<Feed>, a: nat)
    requires DistinctIds(feeds) && a < |feeds| && !HasCompany(feeds[a])
    ensures Rank(feeds, a) == 0
  {
    LoneAmongDistinct(feeds, a, a);
    TurnsAreCounted(feeds, a, feeds[a]);
  }

  lemma LaterRank(feeds: seq<Feed>, e: nat, b: nat)
    requires e < b < |feeds| && HasCompany(feeds[b]) && feeds[e].companyId == feeds[b].companyId
    ensures Rank(feeds, b) > 0
  {
    EarlierCounts(feeds, b, e, feeds[b]);
    TurnsAreCounted(feeds, b, feeds[b]);
  }
}
