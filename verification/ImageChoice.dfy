/**
 The feed parser's choice of an entry's image.  Every `img`-like node and every image tag in the
 entry's HTML text is an observation: a URL, a size, and a `srcset` of further URLs that share the
 height.  A list of candidates and an index into it merge observations of the same URL.
 */
module ImageChoice {
  import opened Common

  type Dimension = Option<int>

  /** A size parameter of a URL's query string. */
  datatype Param = WidthParam(value: Dimension) | HeightParam(value: Dimension) | OtherParam

  /** One piece of a `srcset`; its URL is absent when cleaning left nothing of it. */
  datatype Pick = Pick(url: Option<string>, width: Dimension)

  datatype Observation = Observation(url: Option<string>, width: Dimension, height: Dimension, srcset: seq<Pick>)

  datatype Candidate = Candidate(url: string, width: Dimension, height: Dimension)

  // --- The flat specification ---

  /** One URL seen once, with every width and every height this observation gives it. */
  datatype Sighting = Sighting(url: string, widths: seq<Dimension>, heights: seq<Dimension>)

  function QueryWidths(params: seq<Param>): seq<Dimension> {
    if params == [] then []
    else
      var n := |params| - 1;
      QueryWidths(params[..n]) + if params[n].WidthParam? then [params[n].value] else []
  }

  function QueryHeights(params: seq<Param>): seq<Dimension> {
    if params == [] then []
    else
      var n := |params| - 1;
      QueryHeights(params[..n]) + if params[n].HeightParam? then [params[n].value] else []
  }

  function Sight(query: string -> seq<Param>, url: Option<string>, width: Dimension, height: Dimension): seq<Sighting> {
    if url.None? then []
    else
      var params := query(url.value);
      [Sighting(url.value, [width] + QueryWidths(params), [height] + QueryHeights(params))]
  }

  function SightPicks(query: string -> seq<Param>, srcset: seq<Pick>, height: Dimension): seq<Sighting> {
    if srcset == [] then []
    else
      var n := |srcset| - 1;
      SightPicks(query, srcset[..n], height) + Sight(query, srcset[n].url, srcset[n].width, height)
  }

  function SightingsIn(query: string -> seq<Param>, o: Observation): seq<Sighting> {
    Sight(query, o.url, o.width, o.height) + SightPicks(query, o.srcset, o.height)
  }

  function Sightings(query: string -> seq<Param>, observations: seq<Observation>): seq<Sighting> {
    if observations == [] then []
    else
      var n := |observations| - 1;
      Sightings(query, observations[..n]) + SightingsIn(query, observations[n])
  }

  /** The URLs in order of first appearance. */
  function Urls(sightings: seq<Sighting>): seq<string> {
    if sightings == [] then []
    else
      var n := |sightings| - 1;
      var urls := Urls(sightings[..n]);
      if sightings[n].url in urls then urls else urls + [sightings[n].url]
  }

  function WidthsOf(sightings: seq<Sighting>, url: string): seq<Dimension> {
    if sightings == [] then []
    else
      var n := |sightings| - 1;
      WidthsOf(sightings[..n], url) + if sightings[n].url == url then sightings[n].widths else []
  }

  function HeightsOf(sightings: seq<Sighting>, url: string): seq<Dimension> {
    if sightings == [] then []
    else
      var n := |sightings| - 1;
      HeightsOf(sightings[..n], url) + if sightings[n].url == url then sightings[n].heights else []
  }

  /** The largest positive dimension, if there is one. */
  function Largest(values: seq<Dimension>): Dimension {
    if values == [] then None
    else
      var n := |values| - 1;
      Larger(Largest(values[..n]), values[n])
  }

  function Larger(resolved: Dimension, value: Dimension): Dimension {
    if value.None? || value.value <= 0 then resolved
    else if resolved.None? || value.value > resolved.value then value
    else resolved
  }

  function Merged(sightings: seq<Sighting>, url: string): Candidate {
    Candidate(url, Largest(WidthsOf(sightings, url)), Largest(HeightsOf(sightings, url)))
  }

  function Size(d: Dimension): int {
    if d.Some? then d.value else 0
  }

  /** Strictly smaller by width, then by height. */
  predicate Smaller(a: Candidate, b: Candidate) {
    Size(a.width) < Size(b.width) || (Size(a.width) == Size(b.width) && Size(a.height) < Size(b.height))
  }

  /** No candidate with a width is larger, and each earlier one is smaller. */
  ghost predicate Leads(candidates: seq<Candidate>, j: nat) {
    && j < |candidates| && candidates[j].width.Some?
    && forall i :: 0 <= i < |candidates| && candidates[i].width.Some? ==>
         !Smaller(candidates[j], candidates[i]) && (i < j ==> Smaller(candidates[i], candidates[j]))
  }

  ghost predicate IsChoice(candidates: seq<Candidate>, choice: Option<string>) {
    if candidates == [] then choice == None
    else if forall i :: 0 <= i < |candidates| ==> candidates[i].width.None? then choice == Some(candidates[0].url)
    else exists j: nat :: Leads(candidates, j) && choice == Some(candidates[j].url)
  }

  function CandidatesFor(sightings: seq<Sighting>, urls: seq<string>): seq<Candidate> {
    seq(|urls|, j requires 0 <= j < |urls| => Merged(sightings, urls[j]))
  }

  /** One candidate per URL, in order of first appearance, with the largest sizes seen. */
  function Candidates(sightings: seq<Sighting>): seq<Candidate> {
    CandidatesFor(sightings, Urls(sightings))
  }

  // --- Largest is a maximum ---

  predicate Positive(d: Dimension) {
    d.Some? && d.value > 0
  }

  /** Absent iff nothing positive was given; otherwise one of the given values and no smaller than any. */
  lemma {:induction false} LargestIsMaximum(values: seq<Dimension>, k: nat)
    ensures Largest(values).None? || (Positive(Largest(values)) && Largest(values) in values)
    ensures k < |values| && Positive(values[k]) ==> Largest(values).Some? && values[k].value <= Largest(values).value
  {
    if values != [] {
      LargestIsMaximum(values[..|values| - 1], k);
    }
  }

  /** Maxima of parts merge to the maximum of the whole. */
  lemma {:induction false} LargestOfParts(xs: seq<Dimension>, ys: seq<Dimension>)
    ensures Largest(xs + ys) == Larger(Largest(xs), Largest(ys))
  {
    if ys == [] {
      assert xs + ys == xs;
    } else {
      var n := |ys| - 1;
      LargestOfParts(xs, ys[..n]);
      LargestIsMaximum(xs, 0);
      LargestIsMaximum(ys[..n], 0);
      assert (xs + ys)[..|xs + ys| - 1] == xs + ys[..n];
    }
  }

  lemma LargestOfOne(d: Dimension)
    ensures Largest([d]) == ParseDimension(d)
  {
    assert [d][..0] == [];
  }

  lemma LargestOfTwo(a: Dimension, b: Dimension)
    ensures Largest([a, b]) == Larger(ParseDimension(a), b)
  {
    LargestOfOne(a);
    assert [a, b][..1] == [a];
  }

  // --- The code ---

  /** A dimension that is not positive counts as none. */
  function ParseDimension(value: Dimension): Dimension {
    if Positive(value) then value else None
  }

  method MaxDimension(values: seq<Dimension>) returns (resolved: Dimension)
    ensures resolved == Largest(values)
  {
    resolved := None;
    for k := 0 to |values|
      invariant resolved == Largest(values[..k])
    {
      assert values[..k + 1][..k] == values[..k];
      if values[k].Some? && values[k].value > 0 {
        if resolved.None? || values[k].value > resolved.value {
          resolved := values[k];
        }
      }
    }
    assert values[..|values|] == values;
  }

  method ExtractImageDimensionsFromQuery(params: seq<Param>) returns (width: Dimension, height: Dimension)
    ensures width == Largest(QueryWidths(params)) && height == Largest(QueryHeights(params))
  {
    width, height := None, None;
    for k := 0 to |params|
      invariant width == Largest(QueryWidths(params[..k])) && height == Largest(QueryHeights(params[..k]))
    {
      QueryStep(params, k);
      match params[k]
      case WidthParam(d) =>
        width := MaxDimension([width, ParseDimension(d)]);
      case HeightParam(d) =>
        height := MaxDimension([height, ParseDimension(d)]);
      case OtherParam =>
    }
    assert params[..|params|] == params;
  }

  lemma MergeOne(values: seq<Dimension>, d: Dimension)
    ensures Largest(values + [d]) == Largest([Largest(values), ParseDimension(d)])
  {
    assert (values + [d])[..|values|] == values;
    LargestIsMaximum(values, 0);
    LargestOfTwo(Largest(values), ParseDimension(d));
  }

  lemma QueryStep(params: seq<Param>, k: nat)
    requires k < |params|
    ensures Largest(QueryWidths(params[..k + 1]))
         == if params[k].WidthParam? then Largest([Largest(QueryWidths(params[..k])), ParseDimension(params[k].value)])
            else Largest(QueryWidths(params[..k]))
    ensures Largest(QueryHeights(params[..k + 1]))
         == if params[k].HeightParam? then Largest([Largest(QueryHeights(params[..k])), ParseDimension(params[k].value)])
            else Largest(QueryHeights(params[..k]))
  {
    assert params[..k + 1][..k] == params[..k];
    var w, h := QueryWidths(params[..k]), QueryHeights(params[..k]);
    assert w + [] == w && h + [] == h;
    if !params[k].OtherParam? {
      MergeOne(w, params[k].value);
      MergeOne(h, params[k].value);
    }
  }

  /** The first candidate with the largest key among those with a width, else the first candidate. */
  method ChooseBest(candidates: seq<Candidate>) returns (choice: Option<string>)
    ensures IsChoice(candidates, choice)
  {
    if |candidates| == 0 {
      return None;
    }
    var best: Option<nat> := None;
    for k := 0 to |candidates|
      invariant best.None? ==> forall i :: 0 <= i < k ==> candidates[i].width.None?
      invariant best.Some? ==> best.value < k && Leads(candidates[..k], best.value)
    {
      if candidates[k].width.Some? && (best.None? || Smaller(candidates[best.value], candidates[k])) {
        best := Some(k);
      }
    }
    assert candidates[..|candidates|] == candidates;
    choice := Some(if best.Some? then candidates[best.value].url else candidates[0].url);
  }

  // --- The candidate list and its index ---

  /** `seen` maps exactly the listed URLs to their positions. */
  ghost predicate Indexes(urls: seq<string>, seen: map<string, nat>) {
    && (forall url :: url in seen ==> seen[url] < |urls| && urls[seen[url]] == url)
    && (forall j :: 0 <= j < |urls| ==> urls[j] in seen && seen[urls[j]] == j)
  }

  lemma SightOne(before: seq<Sighting>, s: Sighting, url: string)
    ensures Largest(WidthsOf(before + [s], url))
         == if s.url == url then Larger(Largest(WidthsOf(before, url)), Largest(s.widths)) else Largest(WidthsOf(before, url))
    ensures Largest(HeightsOf(before + [s], url))
         == if s.url == url then Larger(Largest(HeightsOf(before, url)), Largest(s.heights)) else Largest(HeightsOf(before, url))
  {
    assert (before + [s])[..|before|] == before;
    LargestOfParts(WidthsOf(before, url), s.widths);
    LargestOfParts(HeightsOf(before, url), s.heights);
    assert WidthsOf(before, url) + [] == WidthsOf(before, url);
    assert HeightsOf(before, url) + [] == HeightsOf(before, url);
  }

  lemma UrlsOne(before: seq<Sighting>, s: Sighting)
    ensures Urls(before + [s]) == if s.url in Urls(before) then Urls(before) else Urls(before) + [s.url]
  {
    assert (before + [s])[..|before|] == before;
  }

  /** A URL not sighted yet has no sizes. */
  lemma {:induction false} UnseenHasNoSizes(sightings: seq<Sighting>, url: string)
    requires url !in Urls(sightings)
    ensures WidthsOf(sightings, url) == [] && HeightsOf(sightings, url) == []
  {
    if sightings != [] {
      UnseenHasNoSizes(sightings[..|sightings| - 1], url);
    }
  }

  class ImageCollector {
    const query: string -> seq<Param>
    var candidates: seq<Candidate>
    var seen: map<string, nat>
    ghost var sighted: seq<Sighting>

    ghost predicate Valid()
      reads this
    {
      && candidates == Candidates(sighted)
      && Indexes(Urls(sighted), seen)
    }

    constructor (query: string -> seq<Param>)
      ensures Valid() && sighted == [] && this.query == query
    {
      this.query := query;
      candidates, seen, sighted := [], map[], [];
    }

    /** One URL with its sizes: merged into its candidate, or listed as a new one. */
    method Note(url: string, width: Dimension, height: Dimension)
      requires Valid()
      modifies this
      ensures Valid() && sighted == old(sighted) + Sight(query, Some(url), width, height)
    {
      var params := query(url);
      ghost var s := Sighting(url, [width] + QueryWidths(params), [height] + QueryHeights(params));
      ghost var before := sighted;
      var queryWidth, queryHeight := ExtractImageDimensionsFromQuery(params);
      var candidateWidth := MaxDimension([ParseDimension(width), queryWidth]);
      var candidateHeight := MaxDimension([ParseDimension(height), queryHeight]);
      SizesOfSighting(width, params, height);
      if url in seen {
        var at := seen[url];
        var previous := candidates[at];
        var w := MaxDimension([previous.width, candidateWidth]);
        var h := MaxDimension([previous.height, candidateHeight]);
        Relisted(before, s, at);
        candidates := candidates[at := Candidate(previous.url, w, h)];
      } else {
        IndexNew(Urls(before), seen, url);
        Listed(before, s);
        UrlsOne(before, s);
        candidates := candidates + [Candidate(url, candidateWidth, candidateHeight)];
        seen := seen[url := |candidates| - 1];
      }
      sighted := sighted + [s];
    }

    method AppendImageCandidate(url: Option<string>, width: Dimension, height: Dimension, srcset: seq<Pick>)
      requires Valid()
      modifies this
      ensures Valid()
      ensures sighted == old(sighted) + SightingsIn(query, Observation(url, width, height, srcset))
      decreases |srcset|
    {
      if url.Some? {
        Note(url.value, width, height);
      }
      ghost var main := sighted;
      for k := 0 to |srcset|
        invariant Valid() && sighted == main + SightPicks(query, srcset[..k], height)
      {
        AppendImageCandidate(srcset[k].url, srcset[k].width, height, []);
        PicksStep(query, main, srcset, k, height);
      }
      PicksEnd(query, old(sighted), Observation(url, width, height, srcset));
    }
  }

  lemma PicksEnd(query: string -> seq<Param>, before: seq<Sighting>, o: Observation)
    ensures before + Sight(query, o.url, o.width, o.height) + SightPicks(query, o.srcset[..|o.srcset|], o.height)
         == before + SightingsIn(query, o)
    ensures o.url.None? ==> before + Sight(query, o.url, o.width, o.height) == before
  {
    assert o.srcset[..|o.srcset|] == o.srcset;
  }

  lemma PicksStep(query: string -> seq<Param>, main: seq<Sighting>, srcset: seq<Pick>, k: nat, height: Dimension)
    requires k < |srcset|
    ensures main + SightPicks(query, srcset[..k + 1], height)
         == main + SightPicks(query, srcset[..k], height)
            + SightingsIn(query, Observation(srcset[k].url, srcset[k].width, height, []))
  {
    assert srcset[..k + 1][..k] == srcset[..k];
    assert SightPicks(query, srcset[..k + 1], height)
        == SightPicks(query, srcset[..k], height) + SightingsIn(query, Observation(srcset[k].url, srcset[k].width, height, []));
  }

  lemma OtherStays(before: seq<Sighting>, s: Sighting, url: string)
    requires url != s.url
    ensures Merged(before + [s], url) == Merged(before, url)
  {
    SightOne(before, s, url);
  }

  lemma OthersStay(before: seq<Sighting>, s: Sighting, urls: seq<string>)
    requires s.url !in urls
    ensures CandidatesFor(before + [s], urls) == CandidatesFor(before, urls)
  {
    forall j | 0 <= j < |urls| ensures Merged(before + [s], urls[j]) == Merged(before, urls[j]) {
      OtherStays(before, s, urls[j]);
    }
  }

  lemma CandidatesConcat(sightings: seq<Sighting>, xs: seq<string>, url: string, ys: seq<string>)
    ensures CandidatesFor(sightings, xs + [url] + ys)
         == CandidatesFor(sightings, xs) + [Merged(sightings, url)] + CandidatesFor(sightings, ys)
  {
  }

  /** A URL seen again: its candidate takes the larger sizes, and nothing else moves. */
  lemma Relisted(before: seq<Sighting>, s: Sighting, at: nat)
    requires at < |Urls(before)| && Urls(before)[at] == s.url
    ensures Urls(before + [s]) == Urls(before)
    ensures var w := Largest([Merged(before, s.url).width, Largest(s.widths)]);
            var h := Largest([Merged(before, s.url).height, Largest(s.heights)]);
            Candidates(before + [s]) == Candidates(before)[at := Candidate(s.url, w, h)]
  {
    UrlsOne(before, s);
    MergeSizes(before, s);
    UrlsAreDistinct(before);
    OnlyOneMoves(before, s, Urls(before), at);
  }

  lemma OnlyOneMoves(before: seq<Sighting>, s: Sighting, urls: seq<string>, at: nat)
    requires at < |urls| && urls[at] == s.url && forall i, j :: 0 <= i < j < |urls| ==> urls[i] != urls[j]
    ensures CandidatesFor(before + [s], urls) == CandidatesFor(before, urls)[at := Merged(before + [s], s.url)]
  {
    var left, right := urls[..at], urls[at + 1..];
    assert urls == left + [s.url] + right;
    CandidatesConcat(before, left, s.url, right);
    CandidatesConcat(before + [s], left, s.url, right);
    OthersStay(before, s, left);
    OthersStay(before, s, right);
    ReplaceMiddle(CandidatesFor(before, left), Merged(before, s.url), CandidatesFor(before, right), Merged(before + [s], s.url));
  }

  lemma ReplaceMiddle<T>(left: seq<T>, x: T, right: seq<T>, y: T)
    ensures (left + [x] + right)[|left| := y] == left + [y] + right
  {
  }

  /** A new URL: listed last with its own sizes. */
  lemma Listed(before: seq<Sighting>, s: Sighting)
    requires s.url !in Urls(before)
    ensures Candidates(before + [s])
         == Candidates(before) + [Candidate(s.url, Largest(s.widths), Largest(s.heights))]
  {
    var urls := Urls(before);
    UrlsOne(before, s);
    NewSizes(before, s);
    assert urls + [s.url] == urls + [s.url] + [];
    CandidatesConcat(before + [s], urls, s.url, []);
    OthersStay(before, s, urls);
  }

  lemma NewSizes(before: seq<Sighting>, s: Sighting)
    requires s.url !in Urls(before)
    ensures Merged(before + [s], s.url) == Candidate(s.url, Largest(s.widths), Largest(s.heights))
  {
    UnseenHasNoSizes(before, s.url);
    SightOne(before, s, s.url);
    LargestIsMaximum(s.widths, 0);
    LargestIsMaximum(s.heights, 0);
  }

  lemma IndexNew(urls: seq<string>, seen: map<string, nat>, url: string)
    requires Indexes(urls, seen)
    ensures url !in seen ==> url !in urls
    ensures url !in seen ==> Indexes(urls + [url], seen[url := |urls|])
  {
  }

  lemma SizesOfSighting(width: Dimension, params: seq<Param>, height: Dimension)
    ensures Largest([ParseDimension(width), Largest(QueryWidths(params))]) == Largest([width] + QueryWidths(params))
    ensures Largest([ParseDimension(height), Largest(QueryHeights(params))]) == Largest([height] + QueryHeights(params))
  {
    LargestOfTwo(ParseDimension(width), Largest(QueryWidths(params)));
    LargestOfParts([width], QueryWidths(params));
    LargestOfOne(width);
    LargestOfTwo(ParseDimension(height), Largest(QueryHeights(params)));
    LargestOfParts([height], QueryHeights(params));
    LargestOfOne(height);
  }

  lemma MergeSizes(before: seq<Sighting>, s: Sighting)
    ensures Largest([Largest(WidthsOf(before, s.url)), Largest(s.widths)]) == Largest(WidthsOf(before + [s], s.url))
    ensures Largest([Largest(HeightsOf(before, s.url)), Largest(s.heights)]) == Largest(HeightsOf(before + [s], s.url))
  {
    SightOne(before, s, s.url);
    LargestIsMaximum(WidthsOf(before, s.url), 0);
    LargestIsMaximum(HeightsOf(before, s.url), 0);
    LargestOfTwo(Largest(WidthsOf(before, s.url)), Largest(s.widths));
    LargestOfTwo(Largest(HeightsOf(before, s.url)), Largest(s.heights));
  }

  lemma SightingsNext(query: string -> seq<Param>, observations: seq<Observation>, k: nat)
    requires k < |observations|
    ensures var o := observations[k];
            Sightings(query, observations[..k + 1])
              == Sightings(query, observations[..k]) + SightingsIn(query, Observation(o.url, o.width, o.height, o.srcset))
  {
    assert observations[..k + 1][..k] == observations[..k];
  }

  /** The node observations come first, then those found in the entry's HTML fields. */
  method ExtractEntryImageUrl(query: string -> seq<Param>, nodes: seq<Observation>, tags: seq<Observation>)
    returns (choice: Option<string>)
    ensures IsChoice(Candidates(Sightings(query, nodes + tags)), choice)
  {
    var collector := new ImageCollector(query);
    var observations := nodes + tags;
    for k := 0 to |observations|
      invariant fresh(collector) && collector.query == query
      invariant collector.Valid() && collector.sighted == Sightings(query, observations[..k])
    {
      var o := observations[k];
      SightingsNext(query, observations, k);
      collector.AppendImageCandidate(o.url, o.width, o.height, o.srcset);
    }
    assert observations[..|observations|] == observations;
    choice := ChooseBest(collector.candidates);
  }

  /** The specification admits one choice only. */
  lemma ChoiceIsUnique(candidates: seq<Candidate>, a: Option<string>, b: Option<string>)
    requires IsChoice(candidates, a) && IsChoice(candidates, b)
    ensures a == b
  {
    if exists i :: 0 <= i < |candidates| && candidates[i].width.Some? {
      var i: nat :| Leads(candidates, i) && a == Some(candidates[i].url);
      var j: nat :| Leads(candidates, j) && b == Some(candidates[j].url);
      assert i == j;
    }
  }

  // --- The listed URLs are exactly those sighted, once each ---

  lemma {:induction false} UrlsAreDistinct(sightings: seq<Sighting>)
    ensures forall i, j :: 0 <= i < j < |Urls(sightings)| ==> Urls(sightings)[i] != Urls(sightings)[j]
  {
    if sightings != [] {
      UrlsAreDistinct(sightings[..|sightings| - 1]);
    }
  }

  lemma {:induction false} UrlsAreSighted(sightings: seq<Sighting>, url: string)
    ensures url in Urls(sightings) <==> exists k :: 0 <= k < |sightings| && sightings[k].url == url
  {
    if sightings != [] {
      var n := |sightings| - 1;
      UrlsAreSighted(sightings[..n], url);
      assert forall k :: 0 <= k < n ==> sightings[..n][k] == sightings[k];
    }
  }

  /** Every sighting's every width bounds its candidate's width from below. */
  lemma {:induction false} WidthsAreCounted(sightings: seq<Sighting>, k: nat, i: nat)
    requires k < |sightings| && i < |sightings[k].widths| && Positive(sightings[k].widths[i])
    ensures sightings[k].url in Urls(sightings)
    ensures var width := Largest(WidthsOf(sightings, sightings[k].url));
            width.Some? && sightings[k].widths[i].value <= width.value
  {
    var n := |sightings| - 1;
    var url, s := sightings[k].url, sightings[n];
    assert sightings == sightings[..n] + [s];
    SightOne(sightings[..n], s, url);
    LargestIsMaximum(s.widths, if k == n then i else 0);
    LargestIsMaximum(WidthsOf(sightings[..n], url), 0);
    if k < n {
      WidthsAreCounted(sightings[..n], k, i);
    }
  }

  /** Every sighting's every height bounds its candidate's height from below. */
  lemma {:induction false} HeightsAreCounted(sightings: seq<Sighting>, k: nat, i: nat)
    requires k < |sightings| && i < |sightings[k].heights| && Positive(sightings[k].heights[i])
    ensures sightings[k].url in Urls(sightings)
    ensures var height := Largest(HeightsOf(sightings, sightings[k].url));
            height.Some? && sightings[k].heights[i].value <= height.value
  {
    var n := |sightings| - 1;
    var url, s := sightings[k].url, sightings[n];
    assert sightings == sightings[..n] + [s];
    SightOne(sightings[..n], s, url);
    LargestIsMaximum(s.heights, if k == n then i else 0);
    LargestIsMaximum(HeightsOf(sightings[..n], url), 0);
    if k < n {
      HeightsAreCounted(sightings[..n], k, i);
    }
  }
}
