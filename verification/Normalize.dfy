/**
 Normalisation of a parsed feed: entries without a title, a URL or a recent date are dropped, and
 of several entries with one URL the first that qualifies is kept.
 */
module Normalize {
  import opened Common

  /**
   A parsed entry with its texts already stripped; `published` is in microseconds since the epoch,
   after a time without a zone was read as UTC.  Each field is absent when the entry has no such value.
   */
  datatype Entry = Entry(title: Option<string>, url: Option<string>, published: Option<int>,
                         summary: Option<string>, author: Option<string>, image: Option<string>)

  datatype Article = Article(title: string, url: string, published: int,
                             summary: Option<string>, author: Option<string>, image: Option<string>)

  /** 2026-01-01T00:00:00Z. */
  const MIN_PUBLISHED: int := 1_767_225_600_000_000

  predicate Eligible(e: Entry) {
    e.title.Some? && e.url.Some? && e.published.Some? && e.published.value >= MIN_PUBLISHED
  }

  function ToArticle(e: Entry): Article
    requires Eligible(e)
  {
    Article(e.title.value, e.url.value, e.published.value, e.summary, e.author, e.image)
  }

  // --- The specification: which entries survive, as positions ---

  /** The first eligible entry of its URL. */
  ghost predicate Survives(entries: seq<Entry>, k: nat) {
    && k < |entries| && Eligible(entries[k])
    && forall j :: 0 <= j < k && Eligible(entries[j]) ==> entries[j].url != entries[k].url
  }

  ghost function Survivors(entries: seq<Entry>, n: nat): seq<nat>
    requires n <= |entries|
  {
    if n == 0 then []
    else Survivors(entries, n - 1) + if Survives(entries, n - 1) then [n - 1] else []
  }

  lemma {:induction false} SurvivorsAreAscending(entries: seq<Entry>, n: nat)
    requires n <= |entries|
    ensures forall i :: 0 <= i < |Survivors(entries, n)| ==>
              Survivors(entries, n)[i] < n && Survives(entries, Survivors(entries, n)[i])
    ensures forall i, j :: 0 <= i < j < |Survivors(entries, n)| ==> Survivors(entries, n)[i] < Survivors(entries, n)[j]
  {
    if n > 0 {
      SurvivorsAreAscending(entries, n - 1);
    }
  }

  lemma {:induction false} SurvivorsAreAll(entries: seq<Entry>, n: nat, k: nat)
    requires k < n <= |entries| && Survives(entries, k)
    ensures k in Survivors(entries, n)
  {
    if k < n - 1 {
      SurvivorsAreAll(entries, n - 1, k);
    }
  }

  ghost function Normalized(entries: seq<Entry>, n: nat): seq<Article>
    requires n <= |entries|
  {
    SurvivorsAreAscending(entries, n);
    seq(|Survivors(entries, n)|, i requires 0 <= i < |Survivors(entries, n)| => ToArticle(entries[Survivors(entries, n)[i]]))
  }

  /** A URL is taken once an eligible entry with it has passed. */
  ghost predicate Taken(entries: seq<Entry>, n: nat, url: string) {
    exists j :: 0 <= j < n && j < |entries| && Eligible(entries[j]) && entries[j].url.value == url
  }

  /** The article schema takes URLs up to this length. */
  const MAX_URL: nat := 1000

  datatype ValidationError = UrlTooLong

  /** Some eligible entry's URL does not fit the schema. */
  ghost predicate Refused(entries: seq<Entry>) {
    exists k :: 0 <= k < |entries| && Eligible(entries[k]) && |entries[k].url.value| > MAX_URL
  }

  /** One eligible entry with an overlong URL fails the whole list. */
  method NormalizeFeedSources(entries: seq<Entry>) returns (outcome: Result<seq<Article>, ValidationError>)
    ensures outcome.Err? <==> Refused(entries)
    ensures outcome.Ok? ==> outcome.value == Normalized(entries, |entries|)
  {
    var normalized: seq<Article> := [];
    var seenUrls: set<string> := {};
    for k := 0 to |entries|
      invariant normalized == Normalized(entries, k)
      invariant forall url :: url in seenUrls <==> Taken(entries, k, url)
      invariant forall url :: url in seenUrls ==> |url| <= MAX_URL
    {
      var e := entries[k];
      if e.title.Some? && e.url.Some? {
        if e.url.value !in seenUrls {
          if e.published.Some? && e.published.value >= MIN_PUBLISHED {
            seenUrls := seenUrls + {e.url.value};
            if |e.url.value| > MAX_URL {
              assert Eligible(entries[k]);
              return Err(UrlTooLong);
            }
            normalized := normalized + [Article(e.title.value, e.url.value, e.published.value, e.summary, e.author, e.image)];
          }
        }
      }
      EntryStep(entries, k);
      forall url ensures Taken(entries, k + 1, url) <==> Taken(entries, k, url) || (Eligible(e) && e.url.value == url) {
        TakenStep(entries, k, url);
      }
    }
    forall k | 0 <= k < |entries| && Eligible(entries[k]) ensures |entries[k].url.value| <= MAX_URL {
      assert Taken(entries, |entries|, entries[k].url.value);
    }
    outcome := Ok(normalized);
  }

  /** The list fails exactly if an article of the specified result has an overlong URL. */
  lemma RefusedIffSurvivorTooLong(entries: seq<Entry>)
    ensures Refused(entries) <==> exists i :: 0 <= i < |Normalized(entries, |entries|)|
                                              && |Normalized(entries, |entries|)[i].url| > MAX_URL
  {
    if k :| 0 <= k < |entries| && Eligible(entries[k]) && |entries[k].url.value| > MAX_URL {
      EligibleUrlIsKept(entries, k);
    }
    SurvivorsAreAscending(entries, |entries|);
    if i :| 0 <= i < |Normalized(entries, |entries|)| && |Normalized(entries, |entries|)[i].url| > MAX_URL {
      var k := Survivors(entries, |entries|)[i];
      assert Eligible(entries[k]) && |entries[k].url.value| > MAX_URL;
    }
  }

  /** A feed of one good article and one whose URL has 1001 characters yields no article at all. */
  lemma LongUrlFailsFeed() returns (entries: seq<Entry>)
    ensures |Normalized(entries, |entries|)| == 2 && |Normalized(entries, |entries|)[0].url| <= MAX_URL
    ensures Refused(entries)
  {
    var good := Entry(Some("t"), Some("u"), Some(MIN_PUBLISHED), None, None, None);
    var long := good.(url := Some(seq(MAX_URL + 1, _ => 'u')));
    entries := [good, long];
    assert long.url.value != good.url.value by { assert |long.url.value| != |good.url.value|; }
    EntryStep(entries, 0);
    EntryStep(entries, 1);
    assert Survives(entries, 0) && Survives(entries, 1);
    assert Normalized(entries, 0) == [];
    assert Eligible(entries[1]) && |entries[1].url.value| > MAX_URL;
  }

  lemma TakenStep(entries: seq<Entry>, k: nat, url: string)
    requires k < |entries|
    ensures Taken(entries, k + 1, url) <==> Taken(entries, k, url) || (Eligible(entries[k]) && entries[k].url.value == url)
  {
  }

  lemma EntryStep(entries: seq<Entry>, k: nat)
    requires k < |entries|
    ensures Normalized(entries, k + 1) == Normalized(entries, k) + if Survives(entries, k) then [ToArticle(entries[k])] else []
    ensures Survives(entries, k) <==> Eligible(entries[k]) && !Taken(entries, k, entries[k].url.value)
  {
  }

  /** Exactly the URLs of eligible entries come out, however many ineligible entries precede them. */
  lemma EligibleUrlIsKept(entries: seq<Entry>, k: nat)
    requires k < |entries| && Eligible(entries[k])
    ensures exists i :: 0 <= i < |Normalized(entries, |entries|)| && Normalized(entries, |entries|)[i].url == entries[k].url.value
  {
    var first := FirstOf(entries, k, entries[k].url.value);
    SurvivorsAreAll(entries, |entries|, first);
    var survivors := Survivors(entries, |entries|);
    var i :| 0 <= i < |survivors| && survivors[i] == first;
    assert Normalized(entries, |entries|)[i].url == entries[first].url.value;
  }

  lemma {:induction false} FirstOf(entries: seq<Entry>, k: nat, url: string) returns (first: nat)
    requires k < |entries| && Eligible(entries[k]) && entries[k].url.value == url
    ensures first <= k && Survives(entries, first) && entries[first].url.value == url
  {
    if j :| 0 <= j < k && Eligible(entries[j]) && entries[j].url.value == url {
      first := FirstOf(entries, j, url);
    } else {
      first := k;
    }
  }

  /** No URL comes out twice. */
  lemma UrlsAreUnique(entries: seq<Entry>, i: nat, j: nat)
    requires i < j < |Normalized(entries, |entries|)|
    ensures Normalized(entries, |entries|)[i].url != Normalized(entries, |entries|)[j].url
  {
    SurvivorsAreAscending(entries, |entries|);
  }

  /** 2026-01-01 is 20454 days after the epoch. */
  lemma FirstDayOf2026()
    ensures MIN_PUBLISHED == 20_454 * 24 * 60 * 60 * 1_000_000
  {
  }

  /**
   Each article carries its entry's fields, and that entry is dated 2026 or later and is the first with
   a title and such a date for its URL.
   */
  lemma ArticleCarriesEntry(entries: seq<Entry>, i: nat) returns (k: nat)
    requires i < |Normalized(entries, |entries|)|
    ensures k < |entries|
    ensures var a, e := Normalized(entries, |entries|)[i], entries[k];
            && e.title == Some(a.title) && e.url == Some(a.url) && e.published == Some(a.published)
            && a.summary == e.summary && a.author == e.author && a.image == e.image
            && a.published >= 1_767_225_600_000_000
    ensures forall j :: 0 <= j < k && entries[j].url == entries[k].url && entries[j].title.Some? && entries[j].published.Some? ==>
              entries[j].published.value < 1_767_225_600_000_000
  {
    SurvivorsAreAscending(entries, |entries|);
    k := Survivors(entries, |entries|)[i];
    assert Survives(entries, k);
  }
}
