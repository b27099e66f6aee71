/**
 What the catalog synchronisation guarantees: when reconciling a company with its catalog is exact,
 what a claimed feed's row becomes, that a second pass changes nothing, and what a run of several
 files leaves behind.
 */
module CatalogLaws {
  import opened Common
  import opened CatalogSync

  // --- Exactness of one file ---

  /** The two sides disagree on whether the company owns a feed its catalog does not list. */
  ghost predicate Stale(s: State, plan: Plan, url: string) {
    url !in Expected(plan) && OwnsFlushed(s, plan.company, url) != Owns(s, plan.company, url)
  }

  /** Exactly the listed URLs are the company's, and nobody else's feed is touched unless listed. */
  ghost predicate ReconciledAt(s: State, t: State, plan: Plan, url: string) {
    && (Owns(t, plan.company, url) <==> url in Expected(plan))
    && (url !in Expected(plan) && !Owns(s, plan.company, url) ==> View(t, url) == View(s, url))
    && (url !in Expected(plan) && Owns(s, plan.company, url) ==> View(t, url) == None)
  }

  /** Companies that own feeds exist. */
  ghost predicate OwnersExist(s: State) {
    forall url :: url in s.rows ==> OwnerExists(s, s.rows[url].flushed) && OwnerExists(s, s.rows[url].current)
  }

  predicate OwnerExists(s: State, row: FeedRow) {
    row.company.Some? ==> row.company.value in s.companies
  }

  lemma UrlSetIsAmong(ps: seq<Payload>, url: string)
    ensures url in UrlSet(ps) <==> UrlAmong(ps, url)
  {
  }

  lemma {:induction false} EntriesClaim(s: State, company: string, ps: seq<Payload>, url: string)
    requires UrlAmong(ps, url)
    ensures Owns(EntriesSynced(s, company, ps), company, url)
  {
    var n := |ps| - 1;
    UrlAmongLast(ps, url);
    if ps[n].url != url {
      EntriesClaim(s, company, ps[..n], url);
    }
  }

  lemma CompanyStep(s: State, company: string, d: Details, url: string)
    requires url in s.rows
    ensures var t := WithCompany(s, company, d);
            && url in t.rows && t.rows[url].current == s.rows[url].current
            && t.rows[url].flushed == (if company in s.companies then s.rows[url].flushed else s.rows[url].current)
            && t.companies.Keys == s.companies.Keys + {company} && t.nextId == s.nextId
            && t.rows.Keys == s.rows.Keys && t.tags == s.tags
  {
  }

  lemma SameKeysFlushAlike(s: State, t: State, ps: seq<Payload>)
    requires s.rows.Keys == t.rows.Keys && s.tags == t.tags
    ensures EntriesFlush(s, ps) == EntriesFlush(t, ps)
  {
  }

  /** A URL the catalog does not list, before the deletion. */
  lemma UnlistedRow(s: State, company: string, d: Details, ps: seq<Payload>, url: string)
    requires !UrlAmong(ps, url)
    ensures var t := EntriesSynced(WithCompany(s, company, d), company, ps);
            && (url in t.rows <==> url in s.rows)
            && (url in s.rows ==>
                  t.rows[url] == Tracked(if PlanFlushes(s, Reconcile(company, d, ps)) then s.rows[url].current
                                         else s.rows[url].flushed, s.rows[url].current))
  {
    var w := WithCompany(s, company, d);
    EntriesKeys(w, company, ps, url);
    if url in s.rows {
      CompanyStep(s, company, d, url);
      SameKeysFlushAlike(s, w, ps);
      EntriesOther(w, company, ps, url);
    }
  }

  /** The side of a row that the file's deletion sees. */
  function SeenByDeletion(s: State, plan: Plan, url: string): FeedRow
    requires url in s.rows
  {
    if PlanFlushes(s, plan) then s.rows[url].current else s.rows[url].flushed
  }

  /** An unlisted feed is deleted exactly if that side is the company's, and keeps its object otherwise. */
  lemma UnlistedAfter(s: State, plan: Plan, url: string)
    requires OwnersExist(s) && url !in Expected(plan)
    ensures var t := Applied(s, plan);
            && (url in t.rows <==> url in s.rows && SeenByDeletion(s, plan, url).company != Some(plan.company))
            && (url in t.rows ==> t.rows[url] == Tracked(SeenByDeletion(s, plan, url), s.rows[url].current))
  {
    match plan
    case RemoveAll(company) =>
    case Reconcile(company, d, ps) =>
      UrlSetIsAmong(ps, url);
      UnlistedRow(s, company, d, ps, url);
  }

  /** Reconciling treats a URL right if and only if the session flushed on the way or the URL was not stale. */
  lemma ReconcileIsExactAt(s: State, plan: Plan, url: string)
    requires OwnersExist(s)
    ensures ReconciledAt(s, Applied(s, plan), plan, url) <==> PlanFlushes(s, plan) || !Stale(s, plan, url)
  {
    match plan
    case RemoveAll(company) =>
    case Reconcile(company, d, ps) =>
      UrlSetIsAmong(ps, url);
      if UrlAmong(ps, url) {
        EntriesClaim(WithCompany(s, company, d), company, ps, url);
      } else {
        UnlistedRow(s, company, d, ps, url);
      }
  }

  /** For all URLs at once: the condition is on the state and the file before the call. */
  lemma ReconcileIsExact(s: State, plan: Plan)
    requires OwnersExist(s)
    ensures (forall url :: ReconciledAt(s, Applied(s, plan), plan, url))
       <==> (PlanFlushes(s, plan) || forall url :: !Stale(s, plan, url))
  {
    forall url ensures ReconciledAt(s, Applied(s, plan), plan, url) <==> PlanFlushes(s, plan) || !Stale(s, plan, url) {
      ReconcileIsExactAt(s, plan, url);
    }
  }

  /** From a flushed session the company ends with exactly its catalog's URLs. */
  lemma FlushedReconcileIsExact(s: State, plan: Plan, url: string)
    requires OwnersExist(s) && Flushed(s)
    ensures ReconciledAt(s, Applied(s, plan), plan, url)
  {
    ReconcileIsExactAt(s, plan, url);
  }

  // --- The row of a listed URL ---

  function LastFor(ps: seq<Payload>, url: string): Option<Payload> {
    if ps == [] then None
    else if ps[|ps| - 1].url == url then Some(ps[|ps| - 1])
    else LastFor(ps[..|ps| - 1], url)
  }

  /** The largest of `base` and the protections of the URL's entries. */
  function MaxProtection(ps: seq<Payload>, url: string, base: int): int {
    if ps == [] then base
    else
      var n := |ps| - 1;
      var before := MaxProtection(ps[..n], url, base);
      if ps[n].url == url then Max(before, NormalizeFetchProtection(ps[n].protection)) else before
  }

  lemma {:induction false} MaxProtectionIsMaximum(ps: seq<Payload>, url: string, base: int, k: nat)
    requires 0 <= base <= 2
    ensures base <= MaxProtection(ps, url, base) <= 2
    ensures k < |ps| && ps[k].url == url ==> NormalizeFetchProtection(ps[k].protection) <= MaxProtection(ps, url, base)
    ensures MaxProtection(ps, url, base) == base
            || exists j :: 0 <= j < |ps| && ps[j].url == url
                           && NormalizeFetchProtection(ps[j].protection) == MaxProtection(ps, url, base)
  {
    if ps != [] {
      var n := |ps| - 1;
      MaxProtectionIsMaximum(ps[..n], url, base, k);
      assert forall j :: 0 <= j < n ==> ps[..n][j] == ps[j];
    }
  }

  /** The protection a feed starts from: its own, or nothing for a new feed. */
  function BaseProtection(s: State, url: string): int {
    if url in s.rows then OldProtection(s.rows[url].current) else 0
  }

  /** The last entry's fields, the company, the largest protection; a known feed keeps its id. */
  ghost predicate IsFinalRow(s: State, company: string, ps: seq<Payload>, url: string, row: FeedRow) {
    && LastFor(ps, url).Some?
    && var last := LastFor(ps, url).value;
    && row.section == last.section && row.enabled == last.enabled && row.trust == last.trust && row.tags == last.tags
    && row.company == Some(company)
    && row.protection == Some(MaxProtection(ps, url, BaseProtection(s, url)))
    && (if url in s.rows then row.id == s.rows[url].current.id else row.id >= s.nextId)
  }

  lemma EntryRow(s: State, company: string, p: Payload, url: string)
    ensures var t := EntrySynced(s, company, p);
            if p.url == url then
              url in t.rows && t.rows[url].current ==
                (if url in s.rows then UpdatedFeed(s.rows[url].current, p) else NewFeed(s.nextId, p)).(company := Some(company))
            else View(t, url) == View(s, url)
  {
  }

  lemma {:induction false} EntriesRow(s: State, company: string, ps: seq<Payload>, url: string)
    requires UrlAmong(ps, url)
    ensures var t := EntriesSynced(s, company, ps);
            url in t.rows && IsFinalRow(s, company, ps, url, t.rows[url].current)
  {
    var n := |ps| - 1;
    var t := EntriesSynced(s, company, ps[..n]);
    EntryRow(t, company, ps[n], url);
    UrlAmongLast(ps, url);
    if UrlAmong(ps[..n], url) {
      EntriesRow(s, company, ps[..n], url);
      MaxProtectionRange(s, ps[..n], url);
      RowStep(s, company, ps, url, t.rows[url].current, EntriesSynced(s, company, ps).rows[url].current);
    } else {
      NoneFor(ps[..n], url, BaseProtection(s, url));
      EntriesKeys(s, company, ps[..n], url);
      EntriesIds(s, company, ps[..n]);
      if url in s.rows {
        EntriesOther(s, company, ps[..n], url);
      }
    }
  }

  lemma RowStep(s: State, company: string, ps: seq<Payload>, url: string, before: FeedRow, after: FeedRow)
    requires ps != []
    requires var n := |ps| - 1;
             && IsFinalRow(s, company, ps[..n], url, before)
             && 0 <= MaxProtection(ps[..n], url, BaseProtection(s, url)) <= 2
             && after == if ps[n].url == url then UpdatedFeed(before, ps[n]).(company := Some(company)) else before
    ensures IsFinalRow(s, company, ps, url, after)
  {
  }

  lemma MaxProtectionRange(s: State, ps: seq<Payload>, url: string)
    ensures 0 <= MaxProtection(ps, url, BaseProtection(s, url)) <= 2
  {
    MaxProtectionIsMaximum(ps, url, BaseProtection(s, url), 0);
  }

  lemma {:induction false} NoneFor(ps: seq<Payload>, url: string, base: int)
    requires !UrlAmong(ps, url)
    ensures LastFor(ps, url) == None && MaxProtection(ps, url, base) == base
  {
    if ps != [] {
      UrlAmongLast(ps, url);
      NoneFor(ps[..|ps| - 1], url, base);
    }
  }

  lemma {:induction false} EntriesIds(s: State, company: string, ps: seq<Payload>)
    ensures EntriesSynced(s, company, ps).nextId >= s.nextId
  {
    if ps != [] {
      EntriesIds(s, company, ps[..|ps| - 1]);
    }
  }

  /** After the file, a listed URL's row is its last entry's with the largest protection. */
  lemma ListedRow(s: State, company: string, d: Details, ps: seq<Payload>, url: string)
    requires UrlAmong(ps, url)
    ensures var t := Applied(s, Reconcile(company, d, ps));
            url in t.rows && IsFinalRow(s, company, ps, url, t.rows[url].current)
  {
    var w := WithCompany(s, company, d);
    EntriesRow(w, company, ps, url);
    UrlSetIsAmong(ps, url);
    if url in s.rows {
      CompanyStep(s, company, d, url);
    }
  }

  /** The protection of a listed feed never drops and stays in range. */
  lemma ProtectionNeverDrops(s: State, company: string, d: Details, ps: seq<Payload>, url: string)
    requires UrlAmong(ps, url) && url in s.rows
    ensures var t := Applied(s, Reconcile(company, d, ps));
            && url in t.rows && t.rows[url].current.protection.Some?
            && OldProtection(s.rows[url].current) <= t.rows[url].current.protection.value <= 2
            && forall k :: 0 <= k < |ps| && ps[k].url == url ==>
                 NormalizeFetchProtection(ps[k].protection) <= t.rows[url].current.protection.value
  {
    ListedRow(s, company, d, ps, url);
    var base := BaseProtection(s, url);
    forall k | 0 <= k < |ps| && ps[k].url == url
      ensures NormalizeFetchProtection(ps[k].protection) <= MaxProtection(ps, url, base)
    {
      MaxProtectionIsMaximum(ps, url, base, k);
    }
    MaxProtectionIsMaximum(ps, url, base, 0);
  }

  // --- A second pass ---

  lemma {:induction false} MaxProtectionSettles(ps: seq<Payload>, url: string, base: int, settled: int)
    requires 0 <= base <= 2 && MaxProtection(ps, url, base) <= settled
    ensures MaxProtection(ps, url, settled) == settled
  {
    if ps != [] {
      MaxProtectionIsMaximum(ps[..|ps| - 1], url, base, 0);
      MaxProtectionSettles(ps[..|ps| - 1], url, base, settled);
    }
  }

  /** With every URL and tag known, the entries never flush and add neither. */
  lemma {:induction false} KnownEntriesAddNothing(s: State, company: string, ps: seq<Payload>)
    requires !EntriesFlush(s, ps)
    ensures var t := EntriesSynced(s, company, ps);
            t.rows.Keys == s.rows.Keys && t.tags == s.tags && t.companies == s.companies && t.nextId == s.nextId
  {
    if ps != [] {
      EntriesFlushLast(s, ps);
      KnownEntriesAddNothing(s, company, ps[..|ps| - 1]);
    }
  }

  /** After the entries, all their URLs and tags are known. */
  lemma {:induction false} EntriesBecomeKnown(s: State, company: string, ps: seq<Payload>, k: nat)
    requires k < |ps|
    ensures var t := EntriesSynced(s, company, ps); ps[k].url in t.rows && TagSet(ps[k].tags) <= t.tags
  {
    if k < |ps| - 1 {
      EntriesBecomeKnown(s, company, ps[..|ps| - 1], k);
    }
  }

  lemma SyncedIsKnown(s: State, company: string, d: Details, ps: seq<Payload>)
    ensures !EntriesFlush(WithCompany(Flush(Applied(s, Reconcile(company, d, ps))), company, d), ps)
  {
    var w := WithCompany(s, company, d);
    forall k | 0 <= k < |ps|
      ensures var t := Applied(s, Reconcile(company, d, ps)); ps[k].url in t.rows && TagSet(ps[k].tags) <= t.tags
    {
      EntriesBecomeKnown(w, company, ps, k);
      assert ps[k].url in UrlSet(ps);
    }
    assert company in EntriesSynced(w, company, ps).companies by { EntriesKeys(w, company, ps, ""); }
  }

  lemma SecondSyncKeepsRow(s: State, company: string, d: Details, ps: seq<Payload>, url: string)
    requires OwnersExist(s) && Flushed(s)
    ensures var once := Flush(Applied(s, Reconcile(company, d, ps)));
            View(Applied(once, Reconcile(company, d, ps)), url) == View(once, url)
  {
    var plan := Reconcile(company, d, ps);
    var first := Applied(s, plan);
    var once := Flush(first);
    UrlSetIsAmong(ps, url);
    FlushedReconcileIsExact(s, plan, url);
    if UrlAmong(ps, url) {
      ListedRow(s, company, d, ps, url);
      ListedRow(once, company, d, ps, url);
      MaxProtectionRange(s, ps, url);
      MaxProtectionSettles(ps, url, BaseProtection(s, url), MaxProtection(ps, url, BaseProtection(s, url)));
    } else {
      UnlistedRow(once, company, d, ps, url);
    }
  }

  lemma SyncedCompany(s: State, company: string, d: Details, ps: seq<Payload>)
    ensures Applied(s, Reconcile(company, d, ps)).companies == WithCompany(s, company, d).companies
  {
    EntriesKeys(WithCompany(s, company, d), company, ps, "");
  }

  /**
   Syncing the same file again, after the first sync was committed, changes no feed, link or
   protection, no tag and no id; and no company, unless the first sync created it with an empty icon.
   */
  lemma SecondSyncChangesNothing(s: State, company: string, d: Details, ps: seq<Payload>)
    requires OwnersExist(s) && Flushed(s)
    ensures var once := Flush(Applied(s, Reconcile(company, d, ps)));
            var twice := Applied(once, Reconcile(company, d, ps));
            && (forall url :: View(twice, url) == View(once, url))
            && twice.tags == once.tags && twice.nextId == once.nextId
            && (twice.companies == once.companies <==> company in s.companies || d.icon != "")
  {
    var once := Flush(Applied(s, Reconcile(company, d, ps)));
    var twice := Applied(once, Reconcile(company, d, ps));
    forall url ensures View(twice, url) == View(once, url) {
      SecondSyncKeepsRow(s, company, d, ps, url);
    }
    SyncedIsKnown(s, company, d, ps);
    SyncedCompany(s, company, d, ps);
    SyncedCompany(once, company, d, ps);
    KnownEntriesAddNothing(WithCompany(once, company, d), company, ps);
    SecondUpdate(s.companies, company, d);
  }

  lemma SecondUpdate(companies: map<string, Company>, company: string, d: Details)
    ensures var first := if company in companies then UpdatedCompany(companies[company], d) else NewCompany(d);
            var once := companies[company := first];
            once[company := UpdatedCompany(first, d)] == once <==> company in companies || d.icon != ""
  {
    var first := if company in companies then UpdatedCompany(companies[company], d) else NewCompany(d);
    var once := companies[company := first];
    assert once[company := UpdatedCompany(first, d)][company] == UpdatedCompany(first, d);
    if UpdatedCompany(first, d) == first {
      assert once[company := UpdatedCompany(first, d)] == once;
    }
  }

  /** An empty database and a catalog with an empty image and no feeds: the second sync changes the company. */
  lemma EmptyIconChangesCompany()
    ensures var s := State(map[], {}, map[], 1);
            var plan := Reconcile("a", Details(None, "", None, None, 1), []);
            var once := Flush(Applied(s, plan));
            OwnersExist(s) && Flushed(s) && Applied(once, plan).companies != once.companies
  {
    SecondSyncChangesNothing(State(map[], {}, map[], 1), "a", Details(None, "", None, None, 1), []);
  }
}
