/** Catalog runs over several files: what every file keeps, when a run is exact, and when it is not. */
module CatalogRuns {
  import opened Common
  import opened CatalogSync
  import opened CatalogLaws

  // --- What every file keeps ---

  /** Feed ids are below the sequence, agree on both sides, and identify their URL. */
  ghost predicate IdsIdentify(s: State) {
    && (forall url :: url in s.rows ==> s.rows[url].flushed.id == s.rows[url].current.id < s.nextId)
    && (forall u, v :: u in s.rows && v in s.rows && s.rows[u].current.id == s.rows[v].current.id ==> u == v)
  }

  predicate ProtectionInRange(row: FeedRow) {
    row.protection.Some? ==> 0 <= row.protection.value <= 2
  }

  ghost predicate ProtectionsInRange(s: State) {
    forall url :: url in s.rows ==> ProtectionInRange(s.rows[url].flushed) && ProtectionInRange(s.rows[url].current)
  }

  ghost predicate Sound(s: State) {
    OwnersExist(s) && IdsIdentify(s) && ProtectionsInRange(s)
  }

  lemma TagsKeepSound(s: State, tags: seq<string>)
    requires Sound(s)
    ensures Sound(WithTags(s, tags))
  {
  }

  lemma CompanyKeepsSound(s: State, company: string, d: Details)
    requires Sound(s)
    ensures Sound(WithCompany(s, company, d)) && company in WithCompany(s, company, d).companies
  {
  }

  lemma UpsertKeepsSound(s: State, p: Payload)
    requires Sound(s)
    ensures Sound(Upserted(s, p)) && Upserted(s, p).companies == s.companies
  {
  }

  lemma LinkKeepsSound(s: State, company: string, url: string)
    requires Sound(s) && company in s.companies
    ensures Sound(Linked(s, company, url))
  {
  }

  lemma {:induction false} EntriesKeepSound(s: State, company: string, ps: seq<Payload>)
    requires Sound(s) && company in s.companies
    ensures var t := EntriesSynced(s, company, ps); Sound(t) && t.companies == s.companies
  {
    if ps != [] {
      var n := |ps| - 1;
      var t := EntriesSynced(s, company, ps[..n]);
      EntriesKeepSound(s, company, ps[..n]);
      TagsKeepSound(t, ps[n].tags);
      UpsertKeepsSound(WithTags(t, ps[n].tags), ps[n]);
      LinkKeepsSound(Upserted(WithTags(t, ps[n].tags), ps[n]), company, ps[n].url);
    }
  }

  lemma DeletionKeepsSound(s: State, company: string, expected: set<string>)
    requires Sound(s)
    ensures Sound(RestDeleted(s, company, expected))
  {
  }

  lemma PlanKeepsSound(s: State, plan: Plan)
    requires Sound(s)
    ensures Sound(Applied(s, plan))
  {
    match plan
    case RemoveAll(company) =>
      DeletionKeepsSound(s, company, {});
    case Reconcile(company, d, ps) =>
      CompanyKeepsSound(s, company, d);
      EntriesKeepSound(WithCompany(s, company, d), company, ps);
      DeletionKeepsSound(EntriesSynced(WithCompany(s, company, d), company, ps), company, UrlSet(ps));
  }

  // --- A run as plans ---

  function PlansApplied(s: State, plans: seq<Plan>, k: nat): State
    requires k <= |plans|
  {
    if k == 0 then s else Applied(PlansApplied(s, plans, k - 1), plans[k - 1])
  }

  /** The plan of a file that raises no error. */
  function PlanFor(file: File): Plan {
    match file.content
    case Readable(catalog) =>
      Reconcile(if catalog.company == "" then file.fallback.Coalesce(Some("")).value else catalog.company,
                DetailsOf(catalog), Payloads(catalog.feeds, Clamp(catalog.protection)))
    case _ => RemoveAll(file.fallback.Coalesce(Some("")).value)
  }

  function PlansFor(files: seq<File>): (plans: seq<Plan>)
    ensures |plans| == |files|
  {
    if files == [] then []
    else
      var n := |files| - 1;
      PlansFor(files[..n]) + [PlanFor(files[n])]
  }

  lemma {:induction false} PrefixApplied(s: State, plans: seq<Plan>, plan: Plan, k: nat)
    requires k <= |plans|
    ensures PlansApplied(s, plans + [plan], k) == PlansApplied(s, plans, k)
  {
    if k > 0 {
      var longer := plans + [plan];
      PrefixApplied(s, plans, plan, k - 1);
      assert longer[k - 1] == plans[k - 1];
      var before := PlansApplied(s, plans, k - 1);
      assert PlansApplied(s, longer, k) == Applied(before, plans[k - 1]) == PlansApplied(s, plans, k);
    }
  }

  /** A run that raises nothing applies its files' plans one after the other. */
  lemma {:induction false} RunAppliesPlans(s: State, files: seq<File>)
    requires FilesSynced(s, files).Ok?
    ensures FilesSynced(s, files).value == PlansApplied(s, PlansFor(files), |files|)
  {
    if files != [] {
      var n := |files| - 1;
      RunAppliesPlans(s, files[..n]);
      PrefixApplied(s, PlansFor(files[..n]), PlanFor(files[n]), n);
      assert PlansFor(files)[n] == PlanFor(files[n]);
    }
  }

  // --- Exactness of a run ---

  /**
   Each company has one file, no URL is listed twice, and no file lists a feed that a later file's
   company owns when the run starts.
   */
  ghost predicate NoTakeover(s: State, plans: seq<Plan>) {
    forall i, j :: 0 <= i < j < |plans| ==> Independent(s, plans[i], plans[j])
  }

  ghost predicate Independent(s: State, earlier: Plan, later: Plan) {
    && earlier.company != later.company
    && Expected(earlier) !! Expected(later)
    && forall url :: url in Expected(earlier) ==> !Owns(s, later.company, url)
  }

  lemma {:induction false} PlansKeepSound(s: State, plans: seq<Plan>, k: nat)
    requires Sound(s) && k <= |plans|
    ensures Sound(PlansApplied(s, plans, k))
  {
    if k > 0 {
      PlansKeepSound(s, plans, k - 1);
      PlanKeepsSound(PlansApplied(s, plans, k - 1), plans[k - 1]);
    }
  }

  /** A company other than the file's gains no feed, on either side. */
  lemma {:induction false} EntriesGiveNothingElse(s: State, company: string, ps: seq<Payload>, other: string, url: string)
    requires other != company && !Owns(s, other, url) && !OwnsFlushed(s, other, url)
    ensures var t := EntriesSynced(s, company, ps); !Owns(t, other, url) && !OwnsFlushed(t, other, url)
  {
    if ps != [] {
      EntriesGiveNothingElse(s, company, ps[..|ps| - 1], other, url);
    }
  }

  lemma PlanGivesNothingElse(s: State, plan: Plan, other: string, url: string)
    requires other != plan.company && !Owns(s, other, url) && !OwnsFlushed(s, other, url)
    ensures !Owns(Applied(s, plan), other, url) && !OwnsFlushed(Applied(s, plan), other, url)
  {
    if plan.Reconcile? {
      EntriesGiveNothingElse(WithCompany(s, plan.company, plan.details), plan.company, plan.payloads, other, url);
    }
  }

  /** An unlisted URL that agreed on its sides still does. */
  lemma UnlistedStaysFresh(s: State, plan: Plan, other: string, url: string)
    requires url !in Expected(plan) && OwnsFlushed(s, other, url) == Owns(s, other, url)
    ensures OwnsFlushed(Applied(s, plan), other, url) == Owns(Applied(s, plan), other, url)
  {
    if plan.Reconcile? {
      UrlSetIsAmong(plan.payloads, url);
      UnlistedRow(s, plan.company, plan.details, plan.payloads, url);
    }
  }

  /** Until a company's file comes, its feeds look the same to queries and objects, and it gains none. */
  lemma {:induction false} LaterCompanyIsFresh(s: State, plans: seq<Plan>, k: nat, j: nat, url: string)
    requires Sound(s) && Flushed(s) && NoTakeover(s, plans) && k <= j < |plans|
    ensures var t := PlansApplied(s, plans, k); var c := plans[j].company;
            OwnsFlushed(t, c, url) == Owns(t, c, url) && (Owns(t, c, url) ==> Owns(s, c, url))
    decreases k, 0
  {
    if k > 0 {
      assert Independent(s, plans[k - 1], plans[j]);
      LaterCompanyIsFresh(s, plans, k - 1, j, url);
      FileIsExact(s, plans, k - 1, url);
      StaysFresh(s, PlansApplied(s, plans, k - 1), plans[k - 1], plans[j], url);
    }
  }

  lemma StaysFresh(s: State, before: State, plan: Plan, later: Plan, url: string)
    requires Independent(s, plan, later) && ReconciledAt(before, Applied(before, plan), plan, url)
    requires var c := later.company;
             OwnsFlushed(before, c, url) == Owns(before, c, url) && (Owns(before, c, url) ==> Owns(s, c, url))
    ensures var t := Applied(before, plan); var c := later.company;
            OwnsFlushed(t, c, url) == Owns(t, c, url) && (Owns(t, c, url) ==> Owns(s, c, url))
  {
    if url in Expected(plan) {
      PlanGivesNothingElse(before, plan, later.company, url);
    } else {
      UnlistedStaysFresh(before, plan, later.company, url);
    }
  }

  /** Each file of the run reconciles its company exactly. */
  lemma {:induction false} FileIsExact(s: State, plans: seq<Plan>, k: nat, url: string)
    requires Sound(s) && Flushed(s) && NoTakeover(s, plans) && k < |plans|
    ensures ReconciledAt(PlansApplied(s, plans, k), PlansApplied(s, plans, k + 1), plans[k], url)
    decreases k, 1
  {
    LaterCompanyIsFresh(s, plans, k, k, url);
    PlansKeepSound(s, plans, k);
    ReconcileIsExactAt(PlansApplied(s, plans, k), plans[k], url);
  }

  /** After the run, every synced company owns exactly its catalog's URLs. */
  lemma {:induction false} RunIsExact(s: State, plans: seq<Plan>, k: nat, i: nat, url: string)
    requires Sound(s) && Flushed(s) && NoTakeover(s, plans) && i < k <= |plans|
    ensures Owns(PlansApplied(s, plans, k), plans[i].company, url) <==> url in Expected(plans[i])
  {
    FileIsExact(s, plans, k - 1, url);
    if i < k - 1 {
      assert Independent(s, plans[i], plans[k - 1]);
      RunIsExact(s, plans, k - 1, i, url);
    }
  }

  /** A feed no file lists and no synced company owned is as it was. */
  lemma {:induction false} RunLeavesOthers(s: State, plans: seq<Plan>, k: nat, url: string)
    requires Sound(s) && Flushed(s) && k <= |plans|
    requires forall i :: 0 <= i < k ==> url !in Expected(plans[i]) && !Owns(s, plans[i].company, url)
    ensures View(PlansApplied(s, plans, k), url) == View(s, url)
    ensures var t := PlansApplied(s, plans, k); url in t.rows ==> t.rows[url].flushed == t.rows[url].current
  {
    if k > 0 {
      RunLeavesOthers(s, plans, k - 1, url);
      PlansKeepSound(s, plans, k - 1);
      UnlistedAfter(PlansApplied(s, plans, k - 1), plans[k - 1], url);
    }
  }

  // --- A takeover that loses a feed ---

  const DETAILS := Details(None, "", None, None, 1)
  const PLAIN := Company(None, None, None, None, 1, true)

  /** A one-entry catalog. */
  function OneFeed(company: string, url: string): Plan {
    Reconcile(company, DETAILS, [Payload(url, None, true, 0.5, 1, [])])
  }

  lemma OneEntry(s: State, plan: Plan)
    requires plan.Reconcile? && |plan.payloads| == 1 && plan.company in s.companies
    ensures Applied(s, plan)
         == RestDeleted(EntrySynced(WithCompany(s, plan.company, plan.details), plan.company, plan.payloads[0]),
                        plan.company, {plan.payloads[0].url})
  {
    var ps, w := plan.payloads, WithCompany(s, plan.company, plan.details);
    assert ps[..0] == [];
    assert EntriesSynced(w, plan.company, ps[..0]) == w;
    assert EntriesSynced(w, plan.company, ps) == EntrySynced(w, plan.company, ps[0]);
    assert UrlSet(ps) == {ps[0].url};
  }

  const OWNED := FeedRow(1, None, true, 0.5, Some("b"), Some(1), [])
  const OTHER := FeedRow(2, None, true, 0.5, Some("b"), Some(1), [])
  const CLAIMED := OWNED.(company := Some("a"))
  const TWO_FEEDS := State(map["u" := Tracked(OWNED, OWNED), "v" := Tracked(OTHER, OTHER)], {},
                           map["a" := PLAIN, "b" := PLAIN], 3)

  lemma ClaimIsPending()
    ensures Applied(TWO_FEEDS, OneFeed("a", "u"))
         == TWO_FEEDS.(rows := map["u" := Tracked(OWNED, CLAIMED), "v" := Tracked(OTHER, OTHER)])
  {
    var p := OneFeed("a", "u").payloads[0];
    OneEntry(TWO_FEEDS, OneFeed("a", "u"));
    assert TagSet([]) == {};
    assert UpdatedCompany(PLAIN, DETAILS) == PLAIN;
    assert WithCompany(TWO_FEEDS, "a", DETAILS).companies == TWO_FEEDS.companies;
    var t := EntrySynced(TWO_FEEDS, "a", p);
    assert t.rows == map["u" := Tracked(OWNED, CLAIMED), "v" := Tracked(OTHER, OTHER)];
    assert Surplus(t, "a", {"u"}) == {};
  }

  /**
   Company "a" claims "u" from "b"; the claim is not flushed when "b" is synced, so the deletion for
   "b" takes the feed away from "a".
   */
  lemma TakeoverLosesFeed()
    ensures Sound(TWO_FEEDS) && Flushed(TWO_FEEDS)
    ensures var once := Applied(TWO_FEEDS, OneFeed("a", "u"));
            Owns(once, "a", "u") && View(Applied(once, OneFeed("b", "v")), "u") == None
  {
    ClaimIsPending();
    PendingClaimIsDeleted(Applied(TWO_FEEDS, OneFeed("a", "u")));
    TwoFeedsAreSound();
  }

  lemma TwoFeedsAreSound()
    ensures Sound(TWO_FEEDS) && Flushed(TWO_FEEDS)
  {
  }

  lemma PendingClaimIsDeleted(s: State)
    requires "b" in s.companies && "v" in s.rows && "u" in s.rows && s.rows["u"] == Tracked(OWNED, CLAIMED)
    ensures View(Applied(s, OneFeed("b", "v")), "u") == None
  {
    var p := OneFeed("b", "v").payloads[0];
    OneEntry(s, OneFeed("b", "v"));
    assert TagSet([]) == {};
    assert EntrySynced(WithCompany(s, "b", DETAILS), "b", p).rows["u"] == Tracked(OWNED, CLAIMED);
  }
}
