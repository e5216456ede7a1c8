/** Approved locations over any run: an approval only ever moves to a younger generation. */
module Approvals {
  import opened ExportTypes
  import opened Lifecycle
  import opened Heads
  import opened Pipeline
  import opened PipelineFrames
  import opened PipelineInvariant
  import opened PipelinePromotion
  import opened PipelineFiles
  import opened PipelineSteps
  import opened HeadChain

  /** No approval is lost; one that changes goes to a generation created later. */
  ghost predicate ApprovalsAdvance(was: Db, now: Db) {
    forall k | k in was.inventory ::
      k in now.inventory
      && (now.inventory[k] == was.inventory[k]
          || (&& was.inventory[k] in was.generations && now.inventory[k] in now.generations
              && was.generations[was.inventory[k]].created < now.generations[now.inventory[k]].created))
  }

  lemma ApproveAdvances(was: Db, now: Db, d: Descriptor, gid: GenerationId, approved: set<Location>)
    requires InvInventory(was.inventory, was.generations)
    requires forall g | g in was.generations :: g in now.generations && now.generations[g] == was.generations[g]
    requires now.inventory == Approve(was.inventory, now.generations, d, gid, approved)
    ensures ApprovalsAdvance(was, now)
  {
  }

  /** A re-projected head approves a location exactly where nothing younger does. */
  lemma ReprojectedIsYoungest(w: World, ns: Namespace, approved: set<Location>, l: Location)
    requires Inv(w) && ns in w.db.heads && l in approved && l in ns.locations
    ensures var v := Next(w, Reproject(ns, approved));
            var k := InventoryKey(ns.provider, ns.dataset, l);
            var head := w.db.heads[ns].generation;
      && head in w.db.generations && k in v.db.inventory
      && (v.db.inventory[k] == head <==>
            k !in w.db.inventory || w.db.inventory[k] == head
            || (w.db.inventory[k] in w.db.generations
                && w.db.generations[w.db.inventory[k]].created < w.db.generations[head].created))
      && (v.db.inventory[k] == head || (k in w.db.inventory && v.db.inventory[k] == w.db.inventory[k]))
  {
    hide Inv, InvHeads, NextCollector, NextGc, NextReader;
    PartsOf(w);
    HeadGeneration(w.db.generations, w.db.heads, w.published, ns);
  }

  lemma CasApproves(w: World, p: Process, gid: GenerationId, stamp: Time, approved: set<Location>)
    requires InvInventory(w.db.inventory, w.db.generations)
    ensures ApprovalsAdvance(w.db, NextCas(w, p, gid, stamp, approved).db)
  {
    hide Wins, NewGeneration, NewHead, Approve, GuardFree;
    if p in w.promotions && GuardFree(w) && Wins(w, p, gid) && stamp > EPOCH {
      CasImplies(w, p, gid);
      WinnerIsNew(w, p, gid);
      var m := w.promotions[p];
      var v := NextCas(w, p, gid, stamp, approved);
      ApproveAdvances(w.db, v.db, NewGeneration(w.db, m, stamp).namespace, gid, approved);
    }
  }

  lemma WinnerIsNew(w: World, p: Process, gid: GenerationId)
    requires Wins(w, p, gid)
    ensures gid !in w.db.generations
  {
    hide CurrentOwner, Verified, NewRefs, AllPresent, Content, HasGeneration, DistinctDigests;
  }

  lemma ReprojectApproves(w: World, ns: Namespace, approved: set<Location>)
    requires Inv(w)
    ensures ApprovalsAdvance(w.db, BootstrapInventory(w.db, ns, approved))
  {
    hide Inv, Approve;
    PartsOf(w);
    if ns in w.db.heads {
      ApproveAdvances(w.db, BootstrapInventory(w.db, ns, approved), ns, w.db.heads[ns].generation, approved);
    }
  }

  lemma ReprojectCase(w: World, ns: Namespace, approved: set<Location>)
    ensures Next(w, Reproject(ns, approved)) == OnDb(w, BootstrapInventory(w.db, ns, approved))
  {
    hide NextCollector, NextGc, NextReader, BootstrapInventory;
  }

  /** Steps that neither promote nor re-project leave every approval alone. */
  lemma ApprovalsStay(w: World, a: Action)
    requires !a.PromoteCas? && !a.Reproject?
    ensures Next(w, a).db.inventory == w.db.inventory
  {
    hide Next, Without;
    if IsCollectorStep(a) {
      CollectorFrame(w, a);
    } else if IsPromotionStep(a) {
      PinOrReadFrame(w, a);
    } else if IsPublisherStep(a) {
      ReconcilerFrame(w, a);
    } else if IsGcStep(a) {
      GcFrame(w, a);
    } else {
      ReaderFrame(w, a);
    }
  }

  lemma StepApproves(w: World, a: Action)
    requires Inv(w)
    ensures ApprovalsAdvance(w.db, Next(w, a).db)
  {
    hide Inv, Next, NextCas, BootstrapInventory;
    PartsOf(w);
    if a.PromoteCas? {
      CasApproves(w, a.p, a.generation, a.stamp, a.approved);
      PromotionCase(w, a);
    } else if a.Reproject? {
      ReprojectApproves(w, a.ns, a.approved);
      ReprojectCase(w, a.ns, a.approved);
    } else {
      ApprovalsStay(w, a);
    }
  }

  lemma ApprovalsSame(a: Db)
    ensures ApprovalsAdvance(a, a)
  {
  }

  lemma ApprovalsTransitive(a: Db, b: Db, c: Db)
    requires ApprovalsAdvance(a, b) && ApprovalsAdvance(b, c)
    requires InvInventory(a.inventory, a.generations)
    requires KeepsRows(a.generations, b.generations) && KeepsRows(b.generations, c.generations)
    ensures ApprovalsAdvance(a, c)
  {
  }

  /** Over any run no approval is lost, and none goes back to an older generation. */
  lemma {:induction false} ApprovalsOnlyAdvance(w: World, actions: seq<Action>)
    requires Inv(w)
    ensures ApprovalsAdvance(w.db, Execute(w, actions).db)
  {
    hide Inv, Next, Later, ApprovalsAdvance, InvInventory, KeepsRows, AttemptsLater, OwnersLater, HeadsLater,
         RunsLater;
    if actions == [] {
      ApprovalsSame(w.db);
    } else {
      var front := actions[..|actions| - 1];
      ApprovalsOnlyAdvance(w, front);
      RunKeeps(w, front);
      var u := Execute(w, front);
      StepApproves(u, actions[|actions| - 1]);
      LaterParts(w, u);
      PartsOf(w);
      NextKeeps(u, actions[|actions| - 1]);
      LaterParts(u, Next(u, actions[|actions| - 1]));
      ApprovalsTransitive(w.db, u.db, Next(u, actions[|actions| - 1]).db);
    }
  }
}
