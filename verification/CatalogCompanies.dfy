/**
 What a catalog file and a run of files do to the companies and, in the catalog's own terms, to the
 feeds it lists; and exactly which files fail.
 */
module CatalogCompanies {
  import opened Common
  import opened CatalogSync
  import opened CatalogLaws
  import opened CatalogRuns

  // --- Companies ---

  /** The row carries what the catalog says; a stored icon is kept as the text it is, or absent. */
  predicate Describes(row: Company, d: Details, known: bool) {
    && row.host == d.host && row.country == d.country && row.language == d.language
    && 0 <= row.protection <= 2
    && (0 <= d.protection <= 2 ==> row.protection == d.protection)
    && (d.protection < 0 ==> row.protection == 0) && (d.protection > 2 ==> row.protection == 2)
    && row.icon == (if known && d.icon == "" then None else Some(d.icon))
  }

  /** The company of a file gets the file's details and stays enabled or disabled; a new one is enabled. */
  lemma CompanyAfterFile(s: State, company: string, d: Details, ps: seq<Payload>)
    ensures var t := Applied(s, Reconcile(company, d, ps));
            && company in t.companies && Describes(t.companies[company], d, company in s.companies)
            && t.companies[company].enabled == (if company in s.companies then s.companies[company].enabled else true)
  {
    SyncedCompany(s, company, d, ps);
  }

  /** No file touches another company, and a removed file touches none. */
  lemma OtherCompanyAfterFile(s: State, plan: Plan, other: string)
    requires other != plan.company || plan.RemoveAll?
    ensures other in Applied(s, plan).companies <==> other in s.companies
    ensures other in s.companies ==> Applied(s, plan).companies[other] == s.companies[other]
  {
    if plan.Reconcile? {
      SyncedCompany(s, plan.company, plan.details, plan.payloads);
    }
  }

  lemma FileKeepsEnabled(s: State, plan: Plan, company: string)
    requires company in s.companies
    ensures var t := Applied(s, plan);
            company in t.companies && t.companies[company].enabled == s.companies[company].enabled
  {
    if plan.Reconcile? && plan.company == company {
      CompanyAfterFile(s, company, plan.details, plan.payloads);
    } else {
      OtherCompanyAfterFile(s, plan, company);
    }
  }

  /** No run enables or disables a company that existed. */
  lemma {:induction false} RunKeepsEnabled(s: State, plans: seq<Plan>, k: nat, company: string)
    requires k <= |plans| && company in s.companies
    ensures var t := PlansApplied(s, plans, k);
            company in t.companies && t.companies[company].enabled == s.companies[company].enabled
  {
    if k > 0 {
      RunKeepsEnabled(s, plans, k - 1, company);
      FileKeepsEnabled(PlansApplied(s, plans, k - 1), plans[k - 1], company);
    }
  }

  /** A company that a run creates is enabled. */
  lemma {:induction false} RunEnablesNew(s: State, plans: seq<Plan>, k: nat, company: string)
    requires k <= |plans| && company !in s.companies
    ensures var t := PlansApplied(s, plans, k); company in t.companies ==> t.companies[company].enabled
  {
    if k > 0 {
      var before, plan := PlansApplied(s, plans, k - 1), plans[k - 1];
      RunEnablesNew(s, plans, k - 1, company);
      if plan.Reconcile? && plan.company == company {
        CompanyAfterFile(before, company, plan.details, plan.payloads);
      } else {
        OtherCompanyAfterFile(before, plan, company);
      }
    }
  }

  /** After a run, a company is as the last file that reconciled it says. */
  lemma {:induction false} LastFileDescribes(s: State, plans: seq<Plan>, i: nat, k: nat)
    requires i < k <= |plans| && plans[i].Reconcile?
    requires forall j :: i < j < k ==> plans[j].company != plans[i].company || plans[j].RemoveAll?
    ensures var t, c := PlansApplied(s, plans, k), plans[i].company;
            c in t.companies && Describes(t.companies[c], plans[i].details, c in PlansApplied(s, plans, i).companies)
  {
    if k == i + 1 {
      CompanyAfterFile(PlansApplied(s, plans, i), plans[i].company, plans[i].details, plans[i].payloads);
    } else {
      LastFileDescribes(s, plans, i, k - 1);
      OtherCompanyAfterFile(PlansApplied(s, plans, k - 1), plans[k - 1], plans[i].company);
    }
  }

  /** A company no file reconciles is untouched by the run. */
  lemma {:induction false} RunLeavesCompany(s: State, plans: seq<Plan>, k: nat, company: string)
    requires k <= |plans|
    requires forall j :: 0 <= j < k ==> plans[j].company != company || plans[j].RemoveAll?
    ensures company in PlansApplied(s, plans, k).companies <==> company in s.companies
    ensures company in s.companies ==> PlansApplied(s, plans, k).companies[company] == s.companies[company]
  {
    if k > 0 {
      RunLeavesCompany(s, plans, k - 1, company);
      OtherCompanyAfterFile(PlansApplied(s, plans, k - 1), plans[k - 1], company);
    }
  }

  // --- A file in the catalog's terms ---

  /** The catalog's company, or the one named by the path. */
  function CompanyOf(file: File, catalog: Catalog): string
    requires file.fallback.Some?
  {
    if |catalog.company| > 0 then catalog.company else file.fallback.value
  }

  lemma {:induction false} PayloadIs(feeds: seq<SourceFeed>, protection: int, k: nat)
    requires k < |feeds| && 0 <= protection <= 2
    ensures var p, f := Payloads(feeds, protection)[k], feeds[k];
            && p.url == f.url && p.section == f.section && p.enabled == f.enabled && p.trust == f.trust && p.tags == f.tags
            && p.protection == (if f.protection.Some? && 0 <= f.protection.value <= 2 then f.protection.value else protection)
  {
    if k < |feeds| - 1 {
      PayloadIs(feeds[..|feeds| - 1], protection, k);
    }
  }

  /**
   A file fails exactly if its path names no company, it cannot be read, it has no image, its company's
   new name has more than 50 characters, an entry's URL is empty or longer than 500, or a tag that is
   not stored yet is longer than 50.
   */
  lemma FileFailsIff(s: State, file: File)
    ensures FileSynced(s, file).Err? <==>
            || file.fallback.None?
            || file.content.Unreadable?
            || (file.content.Readable?
                && var catalog := file.content.catalog; var company := CompanyOf(file, catalog);
                   || catalog.img.None?
                   || (company !in s.companies && |company| > 50)
                   || (exists k :: 0 <= k < |catalog.feeds| && BadUrl(catalog.feeds[k]))
                   || (exists k :: 0 <= k < |catalog.feeds| && LongTag(s.tags, catalog.feeds[k])))
  {
    if file.fallback.Some? && file.content.Readable? {
      var catalog := file.content.catalog;
      var ps := Payloads(catalog.feeds, Clamp(catalog.protection));
      forall k | 0 <= k < |catalog.feeds|
        ensures BadUrl(catalog.feeds[k]) == !Acceptable(ps[k])
        ensures LongTag(s.tags, catalog.feeds[k]) == TagsOverflow(s.tags, ps[k].tags)
      {
        PayloadIs(catalog.feeds, Clamp(catalog.protection), k);
        TagIsLong(s.tags, catalog.feeds[k]);
      }
      SameRefusals(s.tags, catalog.feeds, ps);
    }
  }

  predicate BadUrl(f: SourceFeed) {
    |f.url| == 0 || |f.url| > 500
  }

  predicate LongTag(tags: set<string>, f: SourceFeed) {
    exists tag :: tag in f.tags && tag !in tags && |tag| > 50
  }

  lemma TagIsLong(tags: set<string>, f: SourceFeed)
    ensures LongTag(tags, f) == TagsOverflow(tags, f.tags)
  {
    if tag :| tag in f.tags && tag !in tags && |tag| > 50 {
      var t :| 0 <= t < |f.tags| && f.tags[t] == tag;
    }
  }

  lemma SameRefusals(tags: set<string>, feeds: seq<SourceFeed>, ps: seq<Payload>)
    requires |ps| == |feeds|
    requires forall k :: 0 <= k < |feeds| ==> BadUrl(feeds[k]) == !Acceptable(ps[k])
    requires forall k :: 0 <= k < |feeds| ==> LongTag(tags, feeds[k]) == TagsOverflow(tags, ps[k].tags)
    ensures (exists k :: 0 <= k < |feeds| && BadUrl(feeds[k])) <==> (exists k :: 0 <= k < |ps| && !Acceptable(ps[k]))
    ensures (exists k :: 0 <= k < |feeds| && LongTag(tags, feeds[k])) <==> TagsRefused(tags, ps)
  {
  }

  /** A file that is gone, and whose company is known, asks for the company's feeds to go. */
  lemma MissingFileRemoves(s: State, file: File, url: string)
    requires OwnersExist(s) && Flushed(s) && file.fallback.Some? && file.content.Missing?
    ensures FileSynced(s, file).Ok?
    ensures var t := FileSynced(s, file).value;
            View(t, url) == if Owns(s, file.fallback.value, url) then None else View(s, url)
  {
    FlushedReconcileIsExact(s, RemoveAll(file.fallback.value), url);
  }

  /** A readable file's company gets what the catalog says. */
  lemma CatalogDescribesCompany(s: State, file: File)
    requires file.content.Readable? && FileSynced(s, file).Ok?
    ensures file.fallback.Some? && file.content.catalog.img.Some?
    ensures var catalog := file.content.catalog; var c := CompanyOf(file, catalog); var t := FileSynced(s, file).value;
            && c in t.companies
            && var row := t.companies[c];
            && row.host == catalog.host && row.country == catalog.country && row.language == catalog.language
            && (0 <= catalog.protection <= 2 ==> row.protection == catalog.protection)
            && row.icon == (if c in s.companies && catalog.img.value == "" then None else catalog.img)
            && row.enabled == (c !in s.companies || s.companies[c].enabled)
  {
    var catalog := file.content.catalog;
    var ps := Payloads(catalog.feeds, Clamp(catalog.protection));
    CompanyAfterFile(s, CompanyOf(file, catalog), DetailsOf(catalog), ps);
  }

  /** Entry `k` is the catalog's last one with its URL. */
  predicate LastEntry(feeds: seq<SourceFeed>, k: nat) {
    k < |feeds| && forall j :: k < j < |feeds| ==> feeds[j].url != feeds[k].url
  }

  lemma {:induction false} LastForIs(ps: seq<Payload>, k: nat)
    requires k < |ps| && forall j :: k < j < |ps| ==> ps[j].url != ps[k].url
    ensures LastFor(ps, ps[k].url) == Some(ps[k])
  {
    if k < |ps| - 1 {
      LastForIs(ps[..|ps| - 1], k);
    }
  }

  /** What an entry asks for: its own protection if that is in range, else the catalog's. */
  function EntryProtection(catalog: Catalog, f: SourceFeed): int {
    if f.protection.Some? && 0 <= f.protection.value <= 2 then f.protection.value else catalog.protection
  }

  /**
   A listed feed ends with its last entry's section, state, trust and tags, linked to the catalog's
   company, and keeps its id if it had one.
   */
  lemma ListedFeedFollowsCatalog(s: State, file: File, k: nat)
    requires file.content.Readable? && FileSynced(s, file).Ok? && LastEntry(file.content.catalog.feeds, k)
    ensures file.fallback.Some?
    ensures var catalog := file.content.catalog; var f := catalog.feeds[k]; var t := FileSynced(s, file).value;
            && f.url in t.rows
            && var row := t.rows[f.url].current;
            && row.section == f.section && row.enabled == f.enabled && row.trust == f.trust && row.tags == f.tags
            && row.company == Some(CompanyOf(file, catalog))
            && (if f.url in s.rows then row.id == s.rows[f.url].current.id else row.id >= s.nextId)
  {
    var catalog := file.content.catalog;
    var protection := Clamp(catalog.protection);
    var ps := Payloads(catalog.feeds, protection);
    forall j | 0 <= j < |ps| ensures ps[j].url == catalog.feeds[j].url {
      PayloadIs(catalog.feeds, protection, j);
    }
    PayloadIs(catalog.feeds, protection, k);
    LastForIs(ps, k);
    ListedRow(s, CompanyOf(file, catalog), DetailsOf(catalog), ps, catalog.feeds[k].url);
  }

  /** The protection a stored feed counts with; without a scraping row it is 1. */
  function StoredProtection(row: FeedRow): int {
    if row.protection.Some? then row.protection.value else 1
  }

  /**
   With protections in range, a listed feed's is at least its old one and every entry's, and is one of
   these.
   */
  lemma ListedFeedProtection(s: State, file: File, url: string, k: nat)
    requires file.content.Readable? && FileSynced(s, file).Ok? && 0 <= file.content.catalog.protection <= 2
    requires ProtectionsInRange(s) && k < |file.content.catalog.feeds| && file.content.catalog.feeds[k].url == url
    ensures var catalog := file.content.catalog; var t := FileSynced(s, file).value;
            && url in t.rows && t.rows[url].current.protection.Some?
            && var p := t.rows[url].current.protection.value;
            && (url in s.rows ==> StoredProtection(s.rows[url].current) <= p)
            && EntryProtection(catalog, catalog.feeds[k]) <= p
            && (|| (url in s.rows && p == StoredProtection(s.rows[url].current))
                || exists j :: 0 <= j < |catalog.feeds| && catalog.feeds[j].url == url
                               && p == EntryProtection(catalog, catalog.feeds[j]))
  {
    var catalog := file.content.catalog;
    var ps := Payloads(catalog.feeds, catalog.protection);
    var base := BaseProtection(s, url);
    forall j | 0 <= j < |ps|
      ensures ps[j].url == catalog.feeds[j].url
      ensures NormalizeFetchProtection(ps[j].protection) == EntryProtection(catalog, catalog.feeds[j])
    {
      PayloadIs(catalog.feeds, catalog.protection, j);
    }
    ListedRow(s, CompanyOf(file, catalog), DetailsOf(catalog), ps, url);
    MaxProtectionIsMaximum(ps, url, base, k);
    if url !in s.rows && MaxProtection(ps, url, base) == base {
      assert NormalizeFetchProtection(ps[k].protection) == 0;
    }
  }

  /** After a file, the stored tags are the old ones and those of its entries. */
  lemma {:induction false} TagsAfterEntries(s: State, company: string, ps: seq<Payload>, tag: string)
    ensures tag in EntriesSynced(s, company, ps).tags
       <==> tag in s.tags || exists k :: 0 <= k < |ps| && tag in ps[k].tags
  {
    if ps != [] {
      var n := |ps| - 1;
      TagsAfterEntries(s, company, ps[..n], tag);
      assert forall k :: 0 <= k < n ==> ps[..n][k] == ps[k];
    }
  }

  lemma TagsAfterFile(s: State, file: File, tag: string)
    requires file.content.Readable? && FileSynced(s, file).Ok?
    ensures tag in FileSynced(s, file).value.tags
       <==> tag in s.tags || exists k :: 0 <= k < |file.content.catalog.feeds| && tag in file.content.catalog.feeds[k].tags
  {
    var catalog := file.content.catalog;
    var c, protection := CompanyOf(file, catalog), Clamp(catalog.protection);
    var ps := Payloads(catalog.feeds, protection);
    forall k | 0 <= k < |ps| ensures ps[k].tags == catalog.feeds[k].tags {
      PayloadIs(catalog.feeds, protection, k);
    }
    TagsAfterEntries(WithCompany(s, c, DetailsOf(catalog)), c, ps, tag);
  }

  /** One entry flushes the other feeds' rows exactly if its URL or one of its tags is new. */
  lemma EntryFlushesOthers(s: State, company: string, p: Payload, other: string)
    requires other in s.rows && other != p.url
    ensures var t := EntrySynced(s, company, p);
            && other in t.rows && t.rows[other].current == s.rows[other].current
            && t.rows[other].flushed == (if p.url !in s.rows || exists tag :: tag in p.tags && tag !in s.tags
                                         then s.rows[other].current else s.rows[other].flushed)
  {
    if tag :| tag in p.tags && tag !in s.tags {
      assert tag in TagSet(p.tags);
    }
  }

  /** A new feed reaches the database without its company; a known one is as it was there, unless a new tag flushed it. */
  lemma EntryOwnRow(s: State, company: string, p: Payload)
    ensures var t := EntrySynced(s, company, p);
            && p.url in t.rows && t.rows[p.url].current.company == Some(company)
            && (p.url !in s.rows ==>
                  && t.rows[p.url].flushed == t.rows[p.url].current.(company := None)
                  && t.rows[p.url].current.id == s.nextId && t.nextId == s.nextId + 1)
            && (p.url in s.rows ==>
                  && t.nextId == s.nextId
                  && t.rows[p.url].flushed == (if exists tag :: tag in p.tags && tag !in s.tags
                                               then s.rows[p.url].current else s.rows[p.url].flushed))
  {
    if tag :| tag in p.tags && tag !in s.tags {
      assert tag in TagSet(p.tags);
    }
  }
}
