/**
 The image candidates in terms of the observations themselves: which URLs are listed, in which order,
 which sizes each of them gets, and which one is chosen.
 */
module ImageObservations {
  import opened Common
  import opened ImageChoice

  // --- What an observation says about a URL ---

  /** Piece `k` of the srcset is for the URL. */
  predicate PickOf(srcset: seq<Pick>, url: string, k: nat) {
    k < |srcset| && srcset[k].url == Some(url)
  }

  ghost predicate InSrcset(srcset: seq<Pick>, url: string) {
    exists k: nat :: PickOf(srcset, url, k)
  }

  /** The observation has the URL itself or in its srcset. */
  ghost predicate Observes(o: Observation, url: string) {
    o.url == Some(url) || InSrcset(o.srcset, url)
  }

  /**
   A positive width: the observation's own, one of the srcset's for the URL, or a width parameter of
   an observed URL.
   */
  ghost predicate GivesWidth(query: string -> seq<Param>, o: Observation, url: string, width: int) {
    && width > 0
    && (|| (o.url == Some(url) && o.width == Some(width))
        || (exists k: nat :: PickOf(o.srcset, url, k) && o.srcset[k].width == Some(width))
        || (Observes(o, url) && WidthParam(Some(width)) in query(url)))
  }

  /** A positive height: the observation's, which its srcset shares, or a height parameter of an observed URL. */
  ghost predicate GivesHeight(query: string -> seq<Param>, o: Observation, url: string, height: int) {
    && height > 0 && Observes(o, url)
    && (o.height == Some(height) || HeightParam(Some(height)) in query(url))
  }

  /** All URLs of an observation, its own first. */
  function UrlsIn(o: Observation): seq<string> {
    OptionalUrl(o.url) + PickUrls(o.srcset)
  }

  function OptionalUrl(url: Option<string>): seq<string> {
    if url.Some? then [url.value] else []
  }

  function PickUrls(srcset: seq<Pick>): seq<string> {
    if srcset == [] then [] else PickUrls(srcset[..|srcset| - 1]) + OptionalUrl(srcset[|srcset| - 1].url)
  }

  function AllUrls(observations: seq<Observation>): seq<string> {
    if observations == [] then []
    else AllUrls(observations[..|observations| - 1]) + UrlsIn(observations[|observations| - 1])
  }

  // --- From observations to sightings ---

  lemma {:induction false} QueryWidthIs(params: seq<Param>, d: Dimension)
    ensures d in QueryWidths(params) <==> WidthParam(d) in params
  {
    if params != [] {
      QueryWidthIs(params[..|params| - 1], d);
      assert params == params[..|params| - 1] + [params[|params| - 1]];
    }
  }

  lemma {:induction false} QueryHeightIs(params: seq<Param>, d: Dimension)
    ensures d in QueryHeights(params) <==> HeightParam(d) in params
  {
    if params != [] {
      QueryHeightIs(params[..|params| - 1], d);
      assert params == params[..|params| - 1] + [params[|params| - 1]];
    }
  }

  lemma {:induction false} WidthsConcat(xs: seq<Sighting>, ys: seq<Sighting>, url: string)
    ensures WidthsOf(xs + ys, url) == WidthsOf(xs, url) + WidthsOf(ys, url)
  {
    if ys == [] {
      assert xs + ys == xs;
    } else {
      var all, n := xs + ys, |ys| - 1;
      WidthsConcat(xs, ys[..n], url);
      assert all[..|all| - 1] == xs + ys[..n] && all[|all| - 1] == ys[n];
      var last := if ys[n].url == url then ys[n].widths else [];
      assert WidthsOf(all, url) == WidthsOf(xs + ys[..n], url) + last;
    }
  }

  lemma {:induction false} HeightsConcat(xs: seq<Sighting>, ys: seq<Sighting>, url: string)
    ensures HeightsOf(xs + ys, url) == HeightsOf(xs, url) + HeightsOf(ys, url)
  {
    if ys == [] {
      assert xs + ys == xs;
    } else {
      var all, n := xs + ys, |ys| - 1;
      HeightsConcat(xs, ys[..n], url);
      assert all[..|all| - 1] == xs + ys[..n] && all[|all| - 1] == ys[n];
      var last := if ys[n].url == url then ys[n].heights else [];
      assert HeightsOf(all, url) == HeightsOf(xs + ys[..n], url) + last;
    }
  }

  /** The sizes one URL with its size attributes contributes. */
  lemma SightSizes(query: string -> seq<Param>, seen: Option<string>, width: Dimension, height: Dimension, url: string, d: Dimension)
    ensures d in WidthsOf(Sight(query, seen, width, height), url)
       <==> seen == Some(url) && (d == width || WidthParam(d) in query(url))
    ensures d in HeightsOf(Sight(query, seen, width, height), url)
       <==> seen == Some(url) && (d == height || HeightParam(d) in query(url))
  {
    if seen.Some? {
      var s := Sight(query, seen, width, height)[0];
      assert Sight(query, seen, width, height) == [s] && [s][..0] == [];
      QueryWidthIs(query(seen.value), d);
      QueryHeightIs(query(seen.value), d);
    }
  }

  lemma {:induction false} PickWidths(query: string -> seq<Param>, srcset: seq<Pick>, height: Dimension, url: string, d: Dimension)
    ensures d in WidthsOf(SightPicks(query, srcset, height), url)
       <==> exists k: nat :: PickOf(srcset, url, k) && (d == srcset[k].width || WidthParam(d) in query(url))
  {
    if srcset != [] {
      var n := |srcset| - 1;
      var before, last := SightPicks(query, srcset[..n], height), Sight(query, srcset[n].url, srcset[n].width, height);
      PickWidths(query, srcset[..n], height, url, d);
      SightSizes(query, srcset[n].url, srcset[n].width, height, url, d);
      WidthsConcat(before, last, url);
      assert SightPicks(query, srcset, height) == before + last;
      assert forall k: nat :: PickOf(srcset, url, k) <==> PickOf(srcset[..n], url, k) || (k == n && srcset[n].url == Some(url));
    }
  }

  lemma InSrcsetLast(srcset: seq<Pick>, url: string)
    requires srcset != []
    ensures var n := |srcset| - 1; InSrcset(srcset, url) <==> InSrcset(srcset[..n], url) || srcset[n].url == Some(url)
  {
    var n := |srcset| - 1;
    if k: nat :| PickOf(srcset, url, k) {
      assert k < n ==> PickOf(srcset[..n], url, k);
    }
    if k: nat :| PickOf(srcset[..n], url, k) {
      assert PickOf(srcset, url, k);
    }
    assert srcset[n].url == Some(url) ==> PickOf(srcset, url, n);
  }

  lemma {:induction false} PickHeights(query: string -> seq<Param>, srcset: seq<Pick>, height: Dimension, url: string, d: Dimension)
    ensures d in HeightsOf(SightPicks(query, srcset, height), url)
       <==> InSrcset(srcset, url) && (d == height || HeightParam(d) in query(url))
  {
    if srcset != [] {
      var n := |srcset| - 1;
      var before, last := SightPicks(query, srcset[..n], height), Sight(query, srcset[n].url, srcset[n].width, height);
      PickHeights(query, srcset[..n], height, url, d);
      SightSizes(query, srcset[n].url, srcset[n].width, height, url, d);
      HeightsConcat(before, last, url);
      InSrcsetLast(srcset, url);
    }
  }

  lemma ObservationWidths(query: string -> seq<Param>, o: Observation, url: string, width: int)
    requires width > 0
    ensures Some(width) in WidthsOf(SightingsIn(query, o), url) <==> GivesWidth(query, o, url, width)
  {
    SightSizes(query, o.url, o.width, o.height, url, Some(width));
    PickWidths(query, o.srcset, o.height, url, Some(width));
    WidthsConcat(Sight(query, o.url, o.width, o.height), SightPicks(query, o.srcset, o.height), url);
  }

  lemma ObservationHeights(query: string -> seq<Param>, o: Observation, url: string, height: int)
    requires height > 0
    ensures Some(height) in HeightsOf(SightingsIn(query, o), url) <==> GivesHeight(query, o, url, height)
  {
    SightSizes(query, o.url, o.width, o.height, url, Some(height));
    PickHeights(query, o.srcset, o.height, url, Some(height));
    HeightsConcat(Sight(query, o.url, o.width, o.height), SightPicks(query, o.srcset, o.height), url);
  }

  ghost predicate AnyGivesWidth(query: string -> seq<Param>, os: seq<Observation>, url: string, width: int) {
    exists o :: o in os && GivesWidth(query, o, url, width)
  }

  lemma AnyWidthLast(query: string -> seq<Param>, os: seq<Observation>, url: string, width: int)
    requires os != []
    ensures var n := |os| - 1;
            AnyGivesWidth(query, os, url, width) <==> AnyGivesWidth(query, os[..n], url, width) || GivesWidth(query, os[n], url, width)
  {
    assert forall o :: o in os <==> o in os[..|os| - 1] || o == os[|os| - 1];
  }

  lemma {:induction false} AllWidths(query: string -> seq<Param>, os: seq<Observation>, url: string, width: int)
    requires width > 0
    ensures Some(width) in WidthsOf(Sightings(query, os), url) <==> AnyGivesWidth(query, os, url, width)
  {
    if os != [] {
      var n := |os| - 1;
      AllWidths(query, os[..n], url, width);
      ObservationWidths(query, os[n], url, width);
      WidthsConcat(Sightings(query, os[..n]), SightingsIn(query, os[n]), url);
      AnyWidthLast(query, os, url, width);
    }
  }

  ghost predicate AnyGivesHeight(query: string -> seq<Param>, os: seq<Observation>, url: string, height: int) {
    exists o :: o in os && GivesHeight(query, o, url, height)
  }

  lemma AnyHeightLast(query: string -> seq<Param>, os: seq<Observation>, url: string, height: int)
    requires os != []
    ensures var n := |os| - 1;
            AnyGivesHeight(query, os, url, height) <==> AnyGivesHeight(query, os[..n], url, height) || GivesHeight(query, os[n], url, height)
  {
    assert forall o :: o in os <==> o in os[..|os| - 1] || o == os[|os| - 1];
  }

  lemma {:induction false} AllHeights(query: string -> seq<Param>, os: seq<Observation>, url: string, height: int)
    requires height > 0
    ensures Some(height) in HeightsOf(Sightings(query, os), url) <==> AnyGivesHeight(query, os, url, height)
  {
    if os != [] {
      var n := |os| - 1;
      AllHeights(query, os[..n], url, height);
      ObservationHeights(query, os[n], url, height);
      HeightsConcat(Sightings(query, os[..n]), SightingsIn(query, os[n]), url);
      AnyHeightLast(query, os, url, height);
    }
  }

  // --- The sizes of the candidates ---

  lemma LargestOfThese(values: seq<Dimension>, v: int)
    ensures Largest(values).Some? ==> Largest(values).value > 0 && Largest(values) in values
    ensures v > 0 && Some(v) in values ==> Largest(values).Some? && v <= Largest(values).value
  {
    LargestIsMaximum(values, 0);
    if v > 0 && Some(v) in values {
      var k :| 0 <= k < |values| && values[k] == Some(v);
      LargestIsMaximum(values, k);
    }
  }

  /**
   A candidate's width is the largest width any observation gives its URL, and absent exactly if none
   gives one.
   */
  lemma CandidateWidth(query: string -> seq<Param>, os: seq<Observation>, j: nat, o: Observation, width: int)
    requires j < |Candidates(Sightings(query, os))|
    ensures var c := Candidates(Sightings(query, os))[j];
            && (o in os && GivesWidth(query, o, c.url, width) ==> c.width.Some? && width <= c.width.value)
            && (c.width.Some? ==> AnyGivesWidth(query, os, c.url, c.width.value))
  {
    var c := Candidates(Sightings(query, os))[j];
    LargestOfThese(WidthsOf(Sightings(query, os), c.url), width);
    if width > 0 {
      AllWidths(query, os, c.url, width);
    }
    if c.width.Some? {
      AllWidths(query, os, c.url, c.width.value);
    }
  }

  /** The same for its height. */
  lemma CandidateHeight(query: string -> seq<Param>, os: seq<Observation>, j: nat, o: Observation, height: int)
    requires j < |Candidates(Sightings(query, os))|
    ensures var c := Candidates(Sightings(query, os))[j];
            && (o in os && GivesHeight(query, o, c.url, height) ==> c.height.Some? && height <= c.height.value)
            && (c.height.Some? ==> AnyGivesHeight(query, os, c.url, c.height.value))
  {
    var c := Candidates(Sightings(query, os))[j];
    LargestOfThese(HeightsOf(Sightings(query, os), c.url), height);
    if height > 0 {
      AllHeights(query, os, c.url, height);
    }
    if c.height.Some? {
      AllHeights(query, os, c.url, c.height.value);
    }
  }

  // --- Which URLs are listed, and in which order ---

  function UrlsSighted(sightings: seq<Sighting>): seq<string> {
    seq(|sightings|, k requires 0 <= k < |sightings| => sightings[k].url)
  }

  lemma SightedConcat(xs: seq<Sighting>, ys: seq<Sighting>)
    ensures UrlsSighted(xs + ys) == UrlsSighted(xs) + UrlsSighted(ys)
  {
  }

  lemma {:induction false} PicksAreSighted(query: string -> seq<Param>, srcset: seq<Pick>, height: Dimension)
    ensures UrlsSighted(SightPicks(query, srcset, height)) == PickUrls(srcset)
  {
    if srcset != [] {
      var n := |srcset| - 1;
      PicksAreSighted(query, srcset[..n], height);
      SightedConcat(SightPicks(query, srcset[..n], height), Sight(query, srcset[n].url, srcset[n].width, height));
      assert UrlsSighted(Sight(query, srcset[n].url, srcset[n].width, height)) == OptionalUrl(srcset[n].url);
    }
  }

  lemma {:induction false} AllAreSighted(query: string -> seq<Param>, os: seq<Observation>)
    ensures UrlsSighted(Sightings(query, os)) == AllUrls(os)
  {
    if os != [] {
      var n := |os| - 1;
      AllAreSighted(query, os[..n]);
      PicksAreSighted(query, os[n].srcset, os[n].height);
      var o := os[n];
      SightedConcat(Sight(query, o.url, o.width, o.height), SightPicks(query, o.srcset, o.height));
      assert UrlsSighted(Sight(query, o.url, o.width, o.height)) == OptionalUrl(o.url);
      SightedConcat(Sightings(query, os[..n]), SightingsIn(query, o));
    }
  }

  /** `n` is where the URL is seen first. */
  ghost predicate SeenFirstAt(urls: seq<string>, n: nat, url: string) {
    n < |urls| && urls[n] == url && forall m :: 0 <= m < n ==> urls[m] != url
  }

  lemma {:induction false} SightedInOrder(sightings: seq<Sighting>, i: nat, j: nat) returns (m: nat, n: nat)
    requires i < j < |Urls(sightings)|
    ensures m < n && SeenFirstAt(UrlsSighted(sightings), m, Urls(sightings)[i])
    ensures SeenFirstAt(UrlsSighted(sightings), n, Urls(sightings)[j])
  {
    var last := |sightings| - 1;
    var before := Urls(sightings[..last]);
    assert forall k :: 0 <= k < last ==> UrlsSighted(sightings)[k] == UrlsSighted(sightings[..last])[k];
    if j < |before| {
      m, n := SightedInOrder(sightings[..last], i, j);
    } else {
      m := FirstSighting(sightings[..last], i);
      n := last;
      assert Urls(sightings)[j] == sightings[last].url && sightings[last].url !in before;
      forall k | 0 <= k < last ensures sightings[k].url != sightings[last].url {
        UrlsAreSighted(sightings[..last], sightings[k].url);
        assert sightings[..last][k].url == sightings[k].url;
      }
    }
  }

  lemma {:induction false} FirstSighting(sightings: seq<Sighting>, i: nat) returns (m: nat)
    requires i < |Urls(sightings)|
    ensures SeenFirstAt(UrlsSighted(sightings), m, Urls(sightings)[i])
  {
    var last := |sightings| - 1;
    assert forall k :: 0 <= k < last ==> UrlsSighted(sightings)[k] == UrlsSighted(sightings[..last])[k];
    if i < |Urls(sightings[..last])| {
      m := FirstSighting(sightings[..last], i);
    } else {
      m := last;
      forall k | 0 <= k < last ensures sightings[k].url != sightings[last].url {
        UrlsAreSighted(sightings[..last], sightings[k].url);
        assert sightings[..last][k].url == sightings[k].url;
      }
    }
  }

  /** The candidates are the observed URLs, once each, in the order in which they are first observed. */
  lemma CandidatesFollowObservations(query: string -> seq<Param>, os: seq<Observation>, i: nat, j: nat) returns (m: nat, n: nat)
    requires i < j < |Candidates(Sightings(query, os))|
    ensures m < n && SeenFirstAt(AllUrls(os), m, Candidates(Sightings(query, os))[i].url)
    ensures SeenFirstAt(AllUrls(os), n, Candidates(Sightings(query, os))[j].url)
  {
    AllAreSighted(query, os);
    m, n := SightedInOrder(Sightings(query, os), i, j);
  }

  /** A URL has a candidate exactly if it is observed. */
  lemma CandidateIffObserved(query: string -> seq<Param>, os: seq<Observation>, url: string)
    ensures (exists j :: 0 <= j < |Candidates(Sightings(query, os))| && Candidates(Sightings(query, os))[j].url == url)
       <==> url in AllUrls(os)
  {
    var sightings := Sightings(query, os);
    AllAreSighted(query, os);
    UrlsAreSighted(sightings, url);
    if url in AllUrls(os) {
      var k :| 0 <= k < |UrlsSighted(sightings)| && UrlsSighted(sightings)[k] == url;
      assert sightings[k].url == url;
      var j :| 0 <= j < |Urls(sightings)| && Urls(sightings)[j] == url;
      assert Candidates(sightings)[j].url == url;
    }
    if j :| 0 <= j < |Candidates(sightings)| && Candidates(sightings)[j].url == url {
      assert Urls(sightings)[j] == url;
      var k :| 0 <= k < |sightings| && sightings[k].url == url;
      assert UrlsSighted(sightings)[k] == url;
    }
  }

  // --- The choice ---

  function OrZero(d: Dimension): int {
    if d.Some? then d.value else 0
  }

  /** Candidate `j` has the largest width, among those the largest height, and among those comes first. */
  ghost predicate IsWidest(candidates: seq<Candidate>, j: nat) {
    && j < |candidates| && candidates[j].width.Some?
    && forall i :: 0 <= i < |candidates| && candidates[i].width.Some? ==>
         || candidates[i].width.value < candidates[j].width.value
         || (candidates[i].width.value == candidates[j].width.value
             && (|| OrZero(candidates[i].height) < OrZero(candidates[j].height)
                 || (OrZero(candidates[i].height) == OrZero(candidates[j].height) && j <= i)))
  }

  /** With any width known, the widest candidate is chosen, else the first one, and none of none. */
  lemma ChoiceIsWidest(candidates: seq<Candidate>, choice: Option<string>)
    requires IsChoice(candidates, choice)
    ensures choice.None? <==> candidates == []
    ensures candidates != [] && (forall i :: 0 <= i < |candidates| ==> candidates[i].width.None?) ==>
              choice == Some(candidates[0].url)
    ensures (exists i :: 0 <= i < |candidates| && candidates[i].width.Some?) ==>
              exists j: nat :: IsWidest(candidates, j) && choice == Some(candidates[j].url)
  {
    if exists i :: 0 <= i < |candidates| && candidates[i].width.Some? {
      var j: nat :| Leads(candidates, j) && choice == Some(candidates[j].url);
      assert IsWidest(candidates, j);
    }
  }
}
