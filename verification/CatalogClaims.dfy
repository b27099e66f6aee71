/**
 What becomes of a feed that one file of a run claims and a later file's company used to own: when
 exactly the claim is lost, when exactly a run is exact, and what survives every run.
 */
module CatalogClaims {
  import opened Common
  import opened CatalogSync
  import opened CatalogLaws
  import opened CatalogRuns

  // --- The fate of a claim ---

  /** Some file from number `i` up to, not including, number `j` makes the session flush. */
  predicate RunFlushes(s: State, plans: seq<Plan>, i: nat, j: nat)
    requires j <= |plans|
  {
    i < j && (PlanFlushes(PlansApplied(s, plans, j - 1), plans[j - 1]) || RunFlushes(s, plans, i, j - 1))
  }

  /**
   A later file, before number `j`, is of the company that still owned the feed in the database when
   file `i` was done, and nothing was flushed since then.
   */
  ghost predicate ClaimLost(s: State, plans: seq<Plan>, i: nat, j: nat, url: string)
    requires i < j <= |plans|
  {
    exists q :: i < q < j && LosesClaim(s, plans, i, q, url)
  }

  predicate LosesClaim(s: State, plans: seq<Plan>, i: nat, q: nat, url: string)
    requires i < q < |plans|
  {
    OwnsFlushed(PlansApplied(s, plans, i + 1), plans[q].company, url) && !RunFlushes(s, plans, i + 1, q + 1)
  }

  lemma ListedIsOwned(s: State, plan: Plan, url: string)
    requires url in Expected(plan)
    ensures Owns(Applied(s, plan), plan.company, url)
  {
    UrlSetIsAmong(plan.payloads, url);
    EntriesClaim(WithCompany(s, plan.company, plan.details), plan.company, plan.payloads, url);
  }

  lemma ClaimLostNext(s: State, plans: seq<Plan>, i: nat, j: nat, url: string)
    requires i + 1 < j <= |plans|
    ensures ClaimLost(s, plans, i, j, url) <==> ClaimLost(s, plans, i, j - 1, url) || LosesClaim(s, plans, i, j - 1, url)
  {
  }

  /**
   As long as no later file lists the feed again or is of the claiming company, the feed is deleted
   if and only if the claim is lost; otherwise it stays the claimer's.
   */
  lemma {:induction false} ClaimFate(s: State, plans: seq<Plan>, i: nat, j: nat, url: string)
    requires Sound(s) && i < j <= |plans| && url in Expected(plans[i])
    requires forall q :: i < q < j ==> url !in Expected(plans[q]) && plans[q].company != plans[i].company
    ensures var claimed, t := PlansApplied(s, plans, i + 1), PlansApplied(s, plans, j);
            && Owns(claimed, plans[i].company, url)
            && (url in t.rows <==> !ClaimLost(s, plans, i, j, url))
            && (url in t.rows ==>
                  t.rows[url] == Tracked(if RunFlushes(s, plans, i + 1, j) then claimed.rows[url].current
                                         else claimed.rows[url].flushed, claimed.rows[url].current))
  {
    ListedIsOwned(PlansApplied(s, plans, i), plans[i], url);
    if i + 1 < j {
      ClaimFate(s, plans, i, j - 1, url);
      PlansKeepSound(s, plans, j - 1);
      ClaimLostNext(s, plans, i, j, url);
      FateNext(PlansApplied(s, plans, j - 1), plans[j - 1], url, PlansApplied(s, plans, i + 1),
               RunFlushes(s, plans, i + 1, j - 1), plans[i].company);
    }
  }

  /** One later file: the claimed row, flushed or not, is deleted exactly if the company it shows is the file's. */
  lemma FateNext(before: State, plan: Plan, url: string, claimed: State, flushes: bool, claimer: string)
    requires OwnersExist(before) && url !in Expected(plan) && plan.company != claimer && Owns(claimed, claimer, url)
    requires url in before.rows ==>
               before.rows[url] == Tracked(if flushes then claimed.rows[url].current else claimed.rows[url].flushed,
                                           claimed.rows[url].current)
    ensures var t, flushes' := Applied(before, plan), flushes || PlanFlushes(before, plan);
            && (url in t.rows <==> url in before.rows && (flushes' || !OwnsFlushed(claimed, plan.company, url)))
            && (url in t.rows ==>
                  t.rows[url] == Tracked(if flushes' then claimed.rows[url].current else claimed.rows[url].flushed,
                                         claimed.rows[url].current))
  {
    UnlistedAfter(before, plan, url);
  }

  // --- When a run is exact ---

  /** Each company has one file, and no URL is listed by two files. */
  ghost predicate Separate(plans: seq<Plan>) {
    forall i, j :: 0 <= i < j < |plans| ==> Apart(plans[i], plans[j])
  }

  ghost predicate Apart(a: Plan, b: Plan) {
    a.company != b.company && Expected(a) !! Expected(b)
  }

  /** Until its file comes, a company's feeds are its own in the database too. */
  lemma {:induction false} OwnedIsFlushed(s: State, plans: seq<Plan>, k: nat, i: nat, url: string)
    requires Sound(s) && Flushed(s) && Separate(plans) && k <= i < |plans|
    ensures var t, c := PlansApplied(s, plans, k), plans[i].company;
            Owns(t, c, url) ==> OwnsFlushed(t, c, url)
  {
    if k > 0 {
      var before, plan := PlansApplied(s, plans, k - 1), plans[k - 1];
      assert Apart(plan, plans[i]);
      OwnedIsFlushed(s, plans, k - 1, i, url);
      if url in Expected(plan) {
        ListedIsOwned(before, plan, url);
      } else {
        PlansKeepSound(s, plans, k - 1);
        UnlistedAfter(before, plan, url);
      }
    }
  }

  /** From its file on, a company owns no feed that the file does not list. */
  lemma {:induction false} UnlistedIsNotOwned(s: State, plans: seq<Plan>, i: nat, k: nat, url: string)
    requires Sound(s) && Flushed(s) && Separate(plans) && i < k <= |plans| && url !in Expected(plans[i])
    ensures var t, c := PlansApplied(s, plans, k), plans[i].company;
            !Owns(t, c, url) && !OwnsFlushed(t, c, url)
  {
    if k == i + 1 {
      OwnedIsFlushed(s, plans, i, i, url);
      PlansKeepSound(s, plans, i);
      UnlistedAfter(PlansApplied(s, plans, i), plans[i], url);
    } else {
      assert Apart(plans[i], plans[k - 1]);
      UnlistedIsNotOwned(s, plans, i, k - 1, url);
      PlanGivesNothingElse(PlansApplied(s, plans, k - 1), plans[k - 1], plans[i].company, url);
    }
  }

  lemma OwnedAtEnd(s: State, plans: seq<Plan>, i: nat, url: string)
    requires Sound(s) && Flushed(s) && Separate(plans) && i < |plans|
    ensures Owns(PlansApplied(s, plans, |plans|), plans[i].company, url)
       <==> url in Expected(plans[i]) && !ClaimLost(s, plans, i, |plans|, url)
  {
    if url in Expected(plans[i]) {
      forall q | i < q < |plans| ensures url !in Expected(plans[q]) && plans[q].company != plans[i].company {
        assert Apart(plans[i], plans[q]);
      }
      ClaimFate(s, plans, i, |plans|, url);
    } else {
      UnlistedIsNotOwned(s, plans, i, |plans|, url);
    }
  }

  ghost predicate ExactFor(s: State, plans: seq<Plan>, i: nat)
    requires i < |plans|
  {
    forall url :: Owns(PlansApplied(s, plans, |plans|), plans[i].company, url) <==> url in Expected(plans[i])
  }

  ghost predicate KeepsClaims(s: State, plans: seq<Plan>, i: nat)
    requires i < |plans|
  {
    forall url :: url in Expected(plans[i]) ==> !ClaimLost(s, plans, i, |plans|, url)
  }

  /** A company ends a run with exactly its catalog's feeds if and only if none of its claims is lost. */
  lemma RunIsExactIff(s: State, plans: seq<Plan>, i: nat)
    requires Sound(s) && Flushed(s) && Separate(plans) && i < |plans|
    ensures ExactFor(s, plans, i) <==> KeepsClaims(s, plans, i)
  {
    forall url
      ensures Owns(PlansApplied(s, plans, |plans|), plans[i].company, url)
         <==> url in Expected(plans[i]) && !ClaimLost(s, plans, i, |plans|, url)
    {
      OwnedAtEnd(s, plans, i, url);
    }
  }

  /** No run is exact for two files that share a URL but not a company, or a company but not the URLs. */
  lemma ExactFilesAgree(s: State, plans: seq<Plan>, i: nat, j: nat)
    requires i < j < |plans| && ExactFor(s, plans, i) && ExactFor(s, plans, j)
    ensures if plans[i].company == plans[j].company then Expected(plans[i]) == Expected(plans[j])
            else Expected(plans[i]) !! Expected(plans[j])
  {
    var t := PlansApplied(s, plans, |plans|);
    forall url
      ensures (url in Expected(plans[i]) <==> Owns(t, plans[i].company, url))
              && (url in Expected(plans[j]) <==> Owns(t, plans[j].company, url))
    {
    }
  }

  lemma {:induction false} StillNotOwned(s: State, plans: seq<Plan>, k: nat, q: nat, url: string)
    requires Separate(plans) && k <= q < |plans|
    requires !Owns(s, plans[q].company, url) && !OwnsFlushed(s, plans[q].company, url)
    ensures var t, c := PlansApplied(s, plans, k), plans[q].company; !Owns(t, c, url) && !OwnsFlushed(t, c, url)
  {
    if k > 0 {
      assert Apart(plans[k - 1], plans[q]);
      StillNotOwned(s, plans, k - 1, q, url);
      PlanGivesNothingElse(PlansApplied(s, plans, k - 1), plans[k - 1], plans[q].company, url);
    }
  }

  /**
   What the database shows as a company's before its file is what it owned when the run started:
   claims are lost to old owners only.
   */
  lemma LostToOldOwner(s: State, plans: seq<Plan>, k: nat, q: nat, url: string)
    requires Flushed(s) && Separate(plans) && k <= q < |plans|
    requires OwnsFlushed(PlansApplied(s, plans, k), plans[q].company, url)
    ensures Owns(s, plans[q].company, url)
  {
    SidesAgree(s, plans[q].company, url);
    if !Owns(s, plans[q].company, url) {
      StillNotOwned(s, plans, k, q, url);
    }
  }

  lemma SidesAgree(s: State, company: string, url: string)
    requires Flushed(s)
    ensures OwnsFlushed(s, company, url) == Owns(s, company, url)
  {
  }

  // --- What survives every run ---

  lemma {:induction false} IdsGrow(s: State, plans: seq<Plan>, k: nat)
    requires k <= |plans|
    ensures PlansApplied(s, plans, k).nextId >= s.nextId
  {
    if k > 0 {
      var before, plan := PlansApplied(s, plans, k - 1), plans[k - 1];
      IdsGrow(s, plans, k - 1);
      if plan.Reconcile? {
        EntriesIds(WithCompany(before, plan.company, plan.details), plan.company, plan.payloads);
      }
    }
  }

  /** One file: a feed that stays keeps its id, and its protection does not drop; a new feed has a new id. */
  lemma PlanKeepsProtection(s: State, plan: Plan, url: string)
    requires OwnersExist(s) && url in Applied(s, plan).rows
    ensures var row := Applied(s, plan).rows[url].current;
            if url in s.rows
            then row.id == s.rows[url].current.id && OldProtection(s.rows[url].current) <= OldProtection(row)
            else row.id >= s.nextId
  {
    if url in Expected(plan) {
      UrlSetIsAmong(plan.payloads, url);
      ListedRow(s, plan.company, plan.details, plan.payloads, url);
      MaxProtectionIsMaximum(plan.payloads, url, BaseProtection(s, url), 0);
    } else {
      UnlistedAfter(s, plan, url);
    }
  }

  /** Over a whole run, the protection of a feed that survives under its id never drops and stays in range. */
  lemma {:induction false} RunKeepsProtection(s: State, plans: seq<Plan>, k: nat, url: string)
    requires Sound(s) && k <= |plans| && url in s.rows && url in PlansApplied(s, plans, k).rows
    requires PlansApplied(s, plans, k).rows[url].current.id == s.rows[url].current.id
    ensures OldProtection(s.rows[url].current) <= OldProtection(PlansApplied(s, plans, k).rows[url].current) <= 2
  {
    if k > 0 {
      var before := PlansApplied(s, plans, k - 1);
      PlansKeepSound(s, plans, k - 1);
      PlanKeepsProtection(before, plans[k - 1], url);
      IdsGrow(s, plans, k - 1);
      if url in before.rows {
        RunKeepsProtection(s, plans, k - 1, url);
      }
    }
  }
}
