/** Losing a scope to a later claim is final: what SUPERSEDED retirement relies on. */
module Supersession {
  import opened ExportTypes
  import opened Lifecycle
  import opened Heads
  import opened Pipeline
  import opened PipelineInvariant
  import opened PipelineAttempts
  import opened PipelineSteps
  import opened HeadChain

  /** Some but not all claimed scopes were taken over. */
  ghost predicate PartlyTaken(db: Db, aid: AttemptId) {
    aid in db.attempts &&
    var a := db.attempts[aid];
    && a.epochs.Some?
    && (exists s | s in a.planned && s in a.epochs.value && s in db.owners ::
          db.owners[s] == Ownership(a.epochs.value[s], aid))
    && (exists s | s in a.planned && s in a.epochs.value && s in db.owners ::
          db.owners[s].epoch > a.epochs.value[s] && db.owners[s].active != aid)
  }

  lemma ClaimedTrichotomy(db: Db, aid: AttemptId)
    requires InvOwners(db.attempts, db.owners) && aid in db.attempts
    requires AttemptOk(db.attempts[aid]) && db.attempts[aid].epochs.Some?
    ensures CurrentOwner(db, aid) || SupersededOwner(db, aid) || PartlyTaken(db, aid)
    ensures !(CurrentOwner(db, aid) && SupersededOwner(db, aid))
    ensures !(CurrentOwner(db, aid) && PartlyTaken(db, aid))
    ensures !(SupersededOwner(db, aid) && PartlyTaken(db, aid))
  {
    hide Barrier, PlanSealable, ReceiptTrue;
    var a := db.attempts[aid];
    assert a.epochs.value.Keys == a.planned && a.planned != {};
    assert forall s | s in a.planned :: s in db.owners && ScopeClaim(aid, a.epochs.value[s], db.owners[s]);
    var one :| one in a.planned;
    assert one in a.epochs.value;
  }

  /** In every reachable state a claimed attempt is in exactly one of three cases: it owns all
      its scopes, it lost all of them, or it lost some; and only the attempt that lost all of
      them can be retired as SUPERSEDED. */
  lemma ClaimedCases(actions: seq<Action>, aid: AttemptId)
    requires aid in Execute(Initial, actions).db.attempts
    requires Execute(Initial, actions).db.attempts[aid].epochs.Some?
    ensures var db := Execute(Initial, actions).db;
      && (CurrentOwner(db, aid) || SupersededOwner(db, aid) || PartlyTaken(db, aid))
      && !(CurrentOwner(db, aid) && SupersededOwner(db, aid))
      && !(CurrentOwner(db, aid) && PartlyTaken(db, aid))
      && !(SupersededOwner(db, aid) && PartlyTaken(db, aid))
      && (RetireSuperseded(db, aid) != db ==> SupersededOwner(db, aid))
  {
    hide Inv, Next, AttemptOk, CurrentOwner, SupersededOwner, PartlyTaken, InvOwners, InvGenerations,
         InvOncePerAttempt, InvAttempts;
    Reachable(actions);
    LogOf(Execute(Initial, actions));
    OneAttempt(Execute(Initial, actions), aid);
    ClaimedTrichotomy(Execute(Initial, actions).db, aid);
  }

  /** Exactly when an attempt is retired as SUPERSEDED: it is neither failed nor published, has no
      generation, and every scope it planned, all of which it claimed, went to a larger epoch of
      another attempt.  It is then failed and unpinned, and nothing else changes. */
  lemma RetiredExactly(db: Db, aid: AttemptId)
    requires aid in db.attempts && AttemptOk(db.attempts[aid])
    ensures var a := db.attempts[aid];
      var lost := a.epochs.Some? && a.status != Failed && a.published.None?
        && (forall g | g in db.generations :: db.generations[g].attempt != aid)
        && forall s | s in a.planned ::
             s in a.epochs.value && s in db.owners
             && db.owners[s].epoch > a.epochs.value[s] && db.owners[s].active != aid;
      RetireSuperseded(db, aid)
        == if lost then db.(attempts := db.attempts[aid := a.(status := Failed, pins := map[])]) else db
  {
    hide Barrier, PlanSealable, ReceiptTrue;
    var a := db.attempts[aid];
    if a.epochs.Some? {
      var one :| one in a.planned;
      assert one in a.epochs.value;
    }
  }

  /** Exactly when it is given up because its run ended: the run was rejected or abandoned, or its
      orchestrator lost it; a run that was still going is closed with it. */
  lemma EndedExactly(db: Db, aid: AttemptId, lost: bool)
    requires aid in db.attempts && db.attempts[aid].run in db.runs
    ensures var a := db.attempts[aid];
      var run := db.runs[a.run];
      var ended := a.status != Failed && a.published.None?
        && (forall g | g in db.generations :: db.generations[g].attempt != aid)
        && (run.status == Rejected || run.status == Abandoned || (lost && a.dagster));
      RetireTerminal(db, aid, lost) ==
        if ended
        then db.(attempts := db.attempts[aid := a.(status := Failed, pins := map[])],
                 runs := if run.status == Running then db.runs[a.run := run.(status := Rejected)] else db.runs)
        else db
  {
  }

  /** Whoever lost a scope never owns it again. */
  lemma LostScopeStaysLost(w: World, v: World, aid: AttemptId, s: Scope)
    requires AttemptsLater(w.db.attempts, v.db.attempts) && OwnersLater(w.db, v.db)
    requires aid in w.db.attempts && w.db.attempts[aid].epochs.Some?
    requires s in w.db.attempts[aid].epochs.value && s in w.db.owners
    requires w.db.owners[s].epoch > w.db.attempts[aid].epochs.value[s] && w.db.owners[s].active != aid
    ensures aid in v.db.attempts && v.db.attempts[aid].epochs == w.db.attempts[aid].epochs
    ensures s in v.db.owners && v.db.owners[s].epoch > v.db.attempts[aid].epochs.value[s]
    ensures v.db.owners[s].active != aid
  {
    assert AttemptLater(w.db.attempts[aid], v.db.attempts[aid]);
  }

  lemma SupersededStays(w: World, v: World, aid: AttemptId)
    requires AttemptsLater(w.db.attempts, v.db.attempts) && OwnersLater(w.db, v.db)
    requires SupersededOwner(w.db, aid)
    ensures SupersededOwner(v.db, aid)
  {
    hide AttemptsLater, OwnersLater;
    var a := w.db.attempts[aid];
    var one :| one in a.planned;
    LostScopeStaysLost(w, v, aid, one);
    AttemptPlanned(w, v, aid);
    forall s | s in a.planned
      ensures s in v.db.owners && v.db.owners[s].epoch > a.epochs.value[s] && v.db.owners[s].active != aid
    {
      LostScopeStaysLost(w, v, aid, s);
    }
  }

  lemma AttemptPlanned(w: World, v: World, aid: AttemptId)
    requires AttemptsLater(w.db.attempts, v.db.attempts) && aid in w.db.attempts
    ensures aid in v.db.attempts && v.db.attempts[aid].planned == w.db.attempts[aid].planned
    ensures w.db.attempts[aid].epochs.Some? ==> v.db.attempts[aid].epochs == w.db.attempts[aid].epochs
  {
    assert AttemptLater(w.db.attempts[aid], v.db.attempts[aid]);
  }

  /** An attempt with a lost scope passes no owner check that names that scope: it cannot
      record a planned chunk for it, close it, be reconciled, or be published. */
  lemma LostScopeFailsEveryCheck(db: Db, aid: AttemptId, s: Scope)
    requires aid in db.attempts && db.attempts[aid].epochs.Some?
    requires s in db.attempts[aid].planned && s in db.attempts[aid].epochs.value && s in db.owners
    requires db.owners[s].epoch > db.attempts[aid].epochs.value[s]
    ensures !CurrentOwner(db, aid)
    ensures forall scopes: set<Scope> :: s in scopes ==> !CurrentOwnerOf(db, aid, scopes)
    ensures forall id: Identity, c: Lifecycle.Capture ::
              id.attempt == aid && s in c.covered ==> !CanRecord(db, id, c)
    ensures forall id: Identity, keys: set<ChunkKey> :: id.attempt == aid ==> !CanCloseSource(db, id, s, keys)
    ensures forall id: Identity :: id.attempt == aid ==> !CanClosePlan(db, id) && !CanTick(db, id) && !CanPin(db, id)
    ensures forall id: Identity, token: Option<Seal> :: id.attempt == aid ==> !CanCommitTick(db, id, token)
    ensures forall files: map<Digest, Time>, m: Promotion, g: GenerationId ::
              m.id.attempt == aid ==> CasOutcome(db, files, m, g) != Published
  {
    assert !CurrentOwner(db, aid);
    assert forall scopes: set<Scope> :: s in scopes ==> !CurrentOwnerOf(db, aid, scopes);
    hide CurrentOwner, CurrentOwnerOf, Barrier, AllPresent, DistinctDigests, NewRefs, Content, Receipts,
         HasGeneration, ReceiptBytes, Total;
  }

  ghost predicate LostScope(db: Db, aid: AttemptId, s: Scope) {
    && aid in db.attempts && db.attempts[aid].epochs.Some?
    && s in db.attempts[aid].planned && s in db.attempts[aid].epochs.value && s in db.owners
    && db.owners[s].epoch > db.attempts[aid].epochs.value[s] && db.owners[s].active != aid
  }

  /** From the moment one scope is lost, no later step publishes the attempt. */
  lemma {:induction false} LostNeverPublishes(w: World, aid: AttemptId, s: Scope, actions: seq<Action>)
    requires Inv(w) && LostScope(w.db, aid, s)
    ensures LostScope(Execute(w, actions).db, aid, s)
    ensures forall g | g in Execute(w, actions).db.generations
                       && Execute(w, actions).db.generations[g].attempt == aid :: g in w.db.generations
  {
    hide Inv, Next, Later, SamePublications;
    RunKeeps(w, actions);
    LaterParts(w, Execute(w, actions));
    LostScopeStaysLost(w, Execute(w, actions), aid, s);
    AttemptPlanned(w, Execute(w, actions), aid);
    if actions != [] {
      var front := actions[..|actions| - 1];
      var before := Execute(w, front);
      LostNeverPublishes(w, aid, s, front);
      StepPublishesAtMostOne(before, actions[|actions| - 1]);
      LostScopeFailsEveryCheck(before.db, aid, s);
      SameGenerations(before, Execute(w, actions));
    }
  }

  lemma SameGenerations(w: World, v: World)
    ensures SamePublications(w, v) ==> v.db.generations == w.db.generations
  {
  }

  /** Retiring a SUPERSEDED attempt never loses a publication: the condition is final, and no
      continuation of the run, with or without the retirement, publishes the attempt. */
  lemma SupersededIsFinal(before: seq<Action>, aid: AttemptId, after: seq<Action>)
    requires SupersededOwner(Execute(Initial, before).db, aid)
    ensures var u := Execute(Initial, before);
            var v := Execute(Initial, before + after);
      && SupersededOwner(v.db, aid) && !CurrentOwner(v.db, aid)
      && (forall g | g in v.db.generations && v.db.generations[g].attempt == aid :: g in u.db.generations)
  {
    hide Inv, Next, Later, SupersededOwner, CurrentOwner, InvOwners, InvAttempts, InvGenerations,
         InvOncePerAttempt;
    var u := Execute(Initial, before);
    Reachable(before);
    ExecuteSplit(Initial, before, after);
    RunKeeps(u, after);
    LaterParts(u, Execute(u, after));
    SupersededStays(u, Execute(u, after), aid);
    var s := SomeLost(u.db, aid);
    LostNeverPublishes(u, aid, s, after);
    SupersededNotCurrent(Execute(u, after).db, aid);
  }

  lemma SomeLost(db: Db, aid: AttemptId) returns (s: Scope)
    requires SupersededOwner(db, aid)
    ensures LostScope(db, aid, s)
  {
    var a := db.attempts[aid];
    s :| s in a.planned;
  }

  lemma SupersededNotCurrent(db: Db, aid: AttemptId)
    requires SupersededOwner(db, aid)
    ensures !CurrentOwner(db, aid)
  {
    var s := SomeLost(db, aid);
  }

  /** An attempt that lost only some scopes is not retired this way, and never publishes
      either, whoever releases the other scopes. */
  lemma PartlyTakenWaits(before: seq<Action>, aid: AttemptId, after: seq<Action>)
    requires PartlyTaken(Execute(Initial, before).db, aid)
    ensures var u := Execute(Initial, before);
            var v := Execute(Initial, before + after);
      && RetireSuperseded(u.db, aid) == u.db
      && !CurrentOwner(v.db, aid)
      && (forall g | g in v.db.generations && v.db.generations[g].attempt == aid :: g in u.db.generations)
  {
    hide Inv, Next, Later, CurrentOwner;
    var u := Execute(Initial, before);
    Reachable(before);
    ExecuteSplit(Initial, before, after);
    var a := u.db.attempts[aid];
    var s :| s in a.planned && s in a.epochs.value && s in u.db.owners
             && u.db.owners[s].epoch > a.epochs.value[s] && u.db.owners[s].active != aid;
    LostNeverPublishes(u, aid, s, after);
    LostScopeFailsEveryCheck(Execute(u, after).db, aid, s);
  }

  lemma FailedStays(w: World, v: World, aid: AttemptId)
    requires AttemptsLater(w.db.attempts, v.db.attempts)
    requires aid in w.db.attempts && w.db.attempts[aid].status == Failed
    ensures aid in v.db.attempts && v.db.attempts[aid].status == Failed
  {
    assert AttemptLater(w.db.attempts[aid], v.db.attempts[aid]);
  }

  lemma PublisherIsSealed(w: World, v: World, a: Action)
    requires PublishesOne(w, v, a)
    ensures v.db.generations.Keys == w.db.generations.Keys + {a.generation}
    ensures v.db.generations[a.generation].attempt in w.db.attempts
    ensures w.db.attempts[v.db.generations[a.generation].attempt].status == Sealed
    ensures forall g | g in w.db.generations :: v.db.generations[g] == w.db.generations[g]
  {
    hide CurrentOwner, HasGeneration;
    OwnerExists(w.db, w.promotions[a.p].id.attempt);
  }

  lemma OwnerExists(db: Db, aid: AttemptId)
    requires CurrentOwner(db, aid)
    ensures aid in db.attempts
  {
  }

  lemma {:induction false} FailedNeverPublishes(w: World, aid: AttemptId, actions: seq<Action>)
    requires Inv(w) && aid in w.db.attempts && w.db.attempts[aid].status == Failed
    ensures forall g | g in Execute(w, actions).db.generations
                       && Execute(w, actions).db.generations[g].attempt == aid :: g in w.db.generations
  {
    hide Inv, Next, Later, SamePublications, PublishesOne;
    if actions != [] {
      var front := actions[..|actions| - 1];
      var before := Execute(w, front);
      FailedNeverPublishes(w, aid, front);
      RunKeeps(w, front);
      LaterParts(w, before);
      FailedStays(w, before, aid);
      StepPublishesAtMostOne(before, actions[|actions| - 1]);
      SameGenerations(before, Execute(w, actions));
      if PublishesOne(before, Execute(w, actions), actions[|actions| - 1]) {
        PublisherIsSealed(before, Execute(w, actions), actions[|actions| - 1]);
      }
    }
  }

  /** However an attempt was given up (a failed capture, SUPERSEDED, or a source or orchestrator
      run that ended badly), no later step of any run publishes it. */
  lemma RetiredNeverPublishes(before: seq<Action>, aid: AttemptId, after: seq<Action>)
    requires var u := Execute(Initial, before);
             aid in u.db.attempts && u.db.attempts[aid].status == Failed
    ensures var u := Execute(Initial, before);
            var v := Execute(Initial, before + after);
      && aid in v.db.attempts && v.db.attempts[aid].status == Failed
      && forall g | g in v.db.generations && v.db.generations[g].attempt == aid :: g in u.db.generations
  {
    hide Inv, Next, Later;
    var u := Execute(Initial, before);
    Reachable(before);
    ExecuteSplit(Initial, before, after);
    RunKeeps(u, after);
    LaterParts(u, Execute(u, after));
    FailedStays(u, Execute(u, after), aid);
    FailedNeverPublishes(u, aid, after);
  }
}
