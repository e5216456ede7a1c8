/** Steps that change attempts, owners and runs keep the invariant. */
module PipelineAttempts {
  import opened ExportTypes
  import opened Lifecycle
  import opened Pipeline
  import opened PipelineInvariant

  lemma OneAttempt(w: World, aid: AttemptId)
    requires Inv(w) && aid in w.db.attempts
    ensures AttemptOk(w.db.attempts[aid])
  {
    hide AttemptOk;
  }

  lemma GenerationsKeep(generations: map<GenerationId, Generation>, was: map<AttemptId, Attempt>,
                        now: map<AttemptId, Attempt>)
    requires InvGenerations(generations, was) && InvAttempts(was)
    requires AttemptsLater(was, now)
    ensures InvGenerations(generations, now)
  {
    forall g | g in generations
      ensures GenerationOk(generations[g], now)
    {
      OneGenerationKeeps(generations[g], was, now);
    }
  }

  lemma OneGenerationKeeps(g: Generation, was: map<AttemptId, Attempt>, now: map<AttemptId, Attempt>)
    requires GenerationOk(g, was)
    requires AttemptOk(was[g.attempt])
    requires g.attempt in now && AttemptLater(was[g.attempt], now[g.attempt])
    ensures GenerationOk(g, now)
  {
    hide FilesHoldSource, Barrier, KeepsRows;
  }

  lemma WrittenKeeps(written: set<(AttemptId, ChunkKey)>, was: map<AttemptId, Attempt>,
                     now: map<AttemptId, Attempt>)
    requires InvWritten(written, was) && AttemptsLater(was, now)
    ensures InvWritten(written, now)
  {
    forall a, k | (a, k) in written ensures a in now && k in now[a].receipts {
      assert AttemptLater(was[a], now[a]);
    }
  }

  /** Only runs, attempts, owners and the publisher's own memory change. */
  ghost predicate AttemptsFrame(w: World, v: World) {
    v == w.(db := w.db.(runs := v.db.runs, attempts := v.db.attempts, owners := v.db.owners),
            ticks := v.ticks, promotions := v.promotions, witnessed := v.witnessed)
  }

  ghost predicate NoNewPublication(was: map<AttemptId, Attempt>, now: map<AttemptId, Attempt>) {
    forall a | a in now && now[a].published.Some? :: a in was && was[a].published.Some?
  }

  lemma PublishedKeeps(was: Db, now: Db)
    requires InvPublished(was) && NoNewPublication(was.attempts, now.attempts)
    requires was.generations == now.generations
    ensures InvPublished(now)
  {
    forall a | a in now.attempts && now.attempts[a].published.Some? ensures HasGeneration(now, a) {
      assert HasGeneration(was, a);
    }
  }

  lemma FrameKeeps(w: World, v: World)
    requires Inv(w) && AttemptsFrame(w, v)
    requires NoNewPublication(w.db.attempts, v.db.attempts)
    requires InvAttempts(v.db.attempts) && AttemptsLater(w.db.attempts, v.db.attempts)
    requires InvOwners(v.db.attempts, v.db.owners) && OwnersLater(w.db, v.db)
    requires RunsLater(w.db.runs, v.db.runs)
    requires InvTicks(v.ticks, v.witnessed) && InvWitnessed(v.db.attempts, v.witnessed)
    requires InvPromotions(v.promotions, v.db.generations)
    requires w.witnessed <= v.witnessed
    requires forall d: Digest :: Needed(v, d) ==> Needed(w, d)
    ensures Inv(v) && Later(w, v)
  {
    hide InvAttempts, InvOwners, InvGenerations, InvOncePerAttempt, InvLog, InvClock, InvHeads,
         InvInventory, InvSnapshots, InvPromotions, InvTicks, InvWitnessed, InvReducers, InvGcs,
         InvWritten, Needed, AttemptsLater, OwnersLater, RunsLater, CheckpointAt, InvPublished,
         NoNewPublication;
    PublishedKeeps(w.db, v.db);
    GenerationsKeep(w.db.generations, w.db.attempts, v.db.attempts);
    WrittenKeeps(w.written, w.db.attempts, v.db.attempts);
  }

  /** One attempt row changes, outside claim, tick, pin and publication. */
  ghost predicate AttemptStep(w: World, v: World, aid: AttemptId) {
    && aid in w.db.attempts && aid in v.db.attempts
    && v == w.(db := w.db.(runs := v.db.runs, attempts := w.db.attempts[aid := v.db.attempts[aid]]))
    && RunsLater(w.db.runs, v.db.runs)
    && RowStep(w.db.attempts[aid], v.db.attempts[aid])
  }

  ghost predicate RowStep(a: Attempt, b: Attempt) {
    && AttemptOk(b) && AttemptLater(a, b)
    && b.epochs == a.epochs && b.published == a.published && b.validated == a.validated
    && (forall i | ParentPin(i) in b.pins ::
          ParentPin(i) in a.pins && b.pins[ParentPin(i)] == a.pins[ParentPin(i)])
  }

  lemma AttemptLaterReflexive(a: Attempt)
    ensures AttemptLater(a, a)
  {
  }

  lemma AttemptStepTables(w: World, v: World, aid: AttemptId)
    requires InvAttempts(w.db.attempts) && InvOwners(w.db.attempts, w.db.owners)
    requires InvWitnessed(w.db.attempts, w.witnessed)
    requires AttemptStep(w, v, aid)
    ensures InvAttempts(v.db.attempts) && AttemptsLater(w.db.attempts, v.db.attempts)
    ensures NoNewPublication(w.db.attempts, v.db.attempts)
    ensures InvOwners(v.db.attempts, v.db.owners) && OwnersLater(w.db, v.db)
    ensures InvWitnessed(v.db.attempts, v.witnessed)
  {
    hide AttemptOk, AttemptLater, ScopeClaim;
    forall a | a in w.db.attempts
      ensures a in v.db.attempts && AttemptLater(w.db.attempts[a], v.db.attempts[a])
    {
      AttemptLaterReflexive(w.db.attempts[a]);
    }
  }

  lemma AttemptRoots(w: World, v: World, aid: AttemptId, d: Digest)
    requires InvWritten(w.written, w.db.attempts)
    requires AttemptStep(w, v, aid) && Needed(v, d)
    ensures Needed(w, d)
  {
    hide AttemptOk;
    var r: Root :| Needs(v, r, d);
    assert Needs(w, r, d);
  }

  lemma AttemptStepKeeps(w: World, v: World, aid: AttemptId)
    requires Inv(w) && AttemptStep(w, v, aid)
    ensures Inv(v) && Later(w, v)
  {
    hide InvAttempts, InvOwners, InvGenerations, InvOncePerAttempt, InvLog, InvClock, InvHeads,
         InvInventory, InvSnapshots, InvPromotions, InvTicks, InvWitnessed, InvDaily, InvReducers,
         InvGcs, InvWritten, InvFiles, InvHeld, Needed, AttemptsLater, OwnersLater, RunsLater,
         RowStep, Later;
    AttemptStepTables(w, v, aid);
    forall d: Digest | Needed(v, d) ensures Needed(w, d) { AttemptRoots(w, v, aid, d); }
    FrameKeeps(w, v);
  }

  // ---- what the single-row transactions do to their row ------------------------

  lemma ExpectRow(a: Attempt, key: ChunkKey, row: Expected)
    requires AttemptOk(a) && !a.closed && a.status == Preparing && key !in a.expected
    ensures RowStep(a, a.(expected := a.expected[key := row], references := a.references + |row.scopes|))
  {
    hide Barrier, PlanSealable, ReceiptTrue;
  }

  lemma RecordRow(a: Attempt, key: ChunkKey, r: Receipt)
    requires AttemptOk(a) && !a.closed && a.status == Preparing && key !in a.receipts && ReceiptTrue(r)
    ensures RowStep(a, a.(receipts := a.receipts[key := r]))
  {
    hide Barrier, PlanSealable, ReceiptTrue;
  }

  lemma CloseRow(a: Attempt)
    requires AttemptOk(a) && !a.closed && a.status == Preparing && a.epochs.Some?
    requires Barrier(a) && PlanSealable(a)
    ensures RowStep(a, a.(closed := true, seal := Some(SealOf(a))))
  {
    var b := a.(closed := true, seal := Some(SealOf(a)));
    assert Barrier(b) && PlanSealable(b);
    hide Barrier, PlanSealable, ReceiptTrue;
  }

  /** The barrier and the plan test do not look at status or pins. */
  lemma EndRow(a: Attempt, pins: map<PinKey, Digest>)
    requires AttemptOk(a) && a.published.None? && (pins == a.pins || pins == map[])
    ensures RowStep(a, a.(status := Failed, pins := pins))
  {
    var b := a.(status := Failed, pins := pins);
    assert (Barrier(a) <==> Barrier(b)) && (PlanSealable(a) <==> PlanSealable(b));
    hide Barrier, PlanSealable, ReceiptTrue;
  }

  // ---- the single-row transactions ------------------------------------------

  lemma DeclareKeeps(w: World, id: Identity, d: Descriptor, listed: bool)
    requires Inv(w)
    ensures Inv(OnDb(w, Declare(w.db, id, d, listed, w.time)))
    ensures Later(w, OnDb(w, Declare(w.db, id, d, listed, w.time)))
  {
    hide Inv, Later;
    if CanDeclare(w.db, id, d) && listed {
      OneAttempt(w, id.attempt);
      AttemptStepKeeps(w, OnDb(w, Declare(w.db, id, d, listed, w.time)), id.attempt);
    } else {
      LaterReflexive(w);
    }
  }

  lemma BindKeeps(w: World, id: Identity, r: Response)
    requires Inv(w)
    ensures Inv(OnDb(w, Bind(w.db, id, r, w.time)))
    ensures Later(w, OnDb(w, Bind(w.db, id, r, w.time)))
  {
    hide Inv, Later;
    if CanBind(w.db, id, r, w.time) {
      OneAttempt(w, id.attempt);
      AttemptStepKeeps(w, OnDb(w, Bind(w.db, id, r, w.time)), id.attempt);
    } else {
      LaterReflexive(w);
    }
  }

  lemma ExpectKeeps(w: World, id: Identity, key: ChunkKey, row: Expected)
    requires Inv(w)
    ensures Inv(OnDb(w, ExpectChunk(w.db, id, key, row)))
    ensures Later(w, OnDb(w, ExpectChunk(w.db, id, key, row)))
  {
    hide Inv, Later, AttemptOk, RowStep, RunsLater, CurrentOwnerOf;
    if CanExpect(w.db, id, key, row) {
      OneAttempt(w, id.attempt);
      ExpectRow(w.db.attempts[id.attempt], key, row);
      RunsLaterReflexive(w.db.runs);
      AttemptStepKeeps(w, OnDb(w, ExpectChunk(w.db, id, key, row)), id.attempt);
    } else {
      LaterReflexive(w);
    }
  }

  lemma RecordKeeps(w: World, id: Identity, c: Lifecycle.Capture)
    requires Inv(w)
    ensures Inv(OnDb(w, RecordChunk(w.db, id, c)))
    ensures Later(w, OnDb(w, RecordChunk(w.db, id, c)))
  {
    hide Inv, Later, AttemptOk, RowStep, RunsLater, PlannedCapture, HeadCapture, Total;
    if CanRecord(w.db, id, c) {
      OneAttempt(w, id.attempt);
      RecordRow(w.db.attempts[id.attempt], c.key, ReceiptOf(c));
      RunsLaterReflexive(w.db.runs);
      AttemptStepKeeps(w, OnDb(w, RecordChunk(w.db, id, c)), id.attempt);
    } else {
      LaterReflexive(w);
    }
  }

  lemma FailCaptureKeeps(w: World, id: Identity)
    requires Inv(w)
    ensures Inv(OnDb(w, FailCapture(w.db, id)))
    ensures Later(w, OnDb(w, FailCapture(w.db, id)))
  {
    hide Inv, Later, AttemptOk, RowStep, RunsLater;
    if id.attempt in w.db.attempts && OnDb(w, FailCapture(w.db, id)) != w {
      OneAttempt(w, id.attempt);
      PreparingUnpublished(w.db.attempts[id.attempt]);
      EndRow(w.db.attempts[id.attempt], w.db.attempts[id.attempt].pins);
      RunsLaterReflexive(w.db.runs);
      AttemptStepKeeps(w, OnDb(w, FailCapture(w.db, id)), id.attempt);
    } else {
      LaterReflexive(w);
    }
  }

  lemma PreparingUnpublished(a: Attempt)
    requires AttemptOk(a) && a.status == Preparing
    ensures a.published.None?
  {
    hide Barrier, PlanSealable, ReceiptTrue;
  }

  lemma CloseSourceKeeps(w: World, id: Identity, s: Scope, keys: set<ChunkKey>)
    requires Inv(w)
    ensures Inv(OnDb(w, CloseSource(w.db, id, s, keys)))
    ensures Later(w, OnDb(w, CloseSource(w.db, id, s, keys)))
  {
    hide Inv, Later;
    if CanCloseSource(w.db, id, s, keys) {
      OneAttempt(w, id.attempt);
      AttemptStepKeeps(w, OnDb(w, CloseSource(w.db, id, s, keys)), id.attempt);
    } else {
      LaterReflexive(w);
    }
  }

  lemma ClosePlanKeeps(w: World, id: Identity)
    requires Inv(w)
    ensures Inv(OnDb(w, ClosePlan(w.db, id)))
    ensures Later(w, OnDb(w, ClosePlan(w.db, id)))
  {
    hide Inv, Later, AttemptOk, RowStep, RunsLater, Barrier, PlanSealable, HoldsEpochs;
    if CanClosePlan(w.db, id) {
      OneAttempt(w, id.attempt);
      CloseRow(w.db.attempts[id.attempt]);
      RunsLaterReflexive(w.db.runs);
      AttemptStepKeeps(w, OnDb(w, ClosePlan(w.db, id)), id.attempt);
    } else {
      LaterReflexive(w);
    }
  }

  lemma RetireKeeps(w: World, aid: AttemptId)
    requires Inv(w)
    ensures Inv(OnDb(w, RetireSuperseded(w.db, aid)))
    ensures Later(w, OnDb(w, RetireSuperseded(w.db, aid)))
  {
    hide Inv, Later, AttemptOk, RowStep, RunsLater, HasGeneration;
    if aid in w.db.attempts && OnDb(w, RetireSuperseded(w.db, aid)) != w {
      OneAttempt(w, aid);
      EndRow(w.db.attempts[aid], map[]);
      RunsLaterReflexive(w.db.runs);
      AttemptStepKeeps(w, OnDb(w, RetireSuperseded(w.db, aid)), aid);
    } else {
      LaterReflexive(w);
    }
  }

  lemma RetireTerminalKeeps(w: World, aid: AttemptId, lost: bool)
    requires Inv(w)
    ensures Inv(OnDb(w, RetireTerminal(w.db, aid, lost)))
    ensures Later(w, OnDb(w, RetireTerminal(w.db, aid, lost)))
  {
    hide Inv, Later, AttemptOk, RowStep, HasGeneration;
    if aid in w.db.attempts && OnDb(w, RetireTerminal(w.db, aid, lost)) != w {
      OneAttempt(w, aid);
      EndRow(w.db.attempts[aid], map[]);
      AttemptStepKeeps(w, OnDb(w, RetireTerminal(w.db, aid, lost)), aid);
    } else {
      LaterReflexive(w);
    }
  }

  // ---- runs, new attempts, claims -------------------------------------------

  lemma RootsByFrame(w: World, v: World)
    requires InvWritten(w.written, w.db.attempts)
    requires v == w.(db := w.db.(runs := v.db.runs, attempts := v.db.attempts, owners := v.db.owners))
    requires forall a | a in v.db.attempts ::
      if a in w.db.attempts
      then && v.db.attempts[a].receipts == w.db.attempts[a].receipts
           && v.db.attempts[a].pins == w.db.attempts[a].pins
           && Pending(v.db.attempts[a]) == Pending(w.db.attempts[a])
      else v.db.attempts[a].receipts == map[] && v.db.attempts[a].pins == map[]
    ensures forall d: Digest :: Needed(v, d) ==> Needed(w, d)
  {
    forall d: Digest | Needed(v, d)
      ensures Needed(w, d)
    {
      var r: Root :| Needs(v, r, d);
      assert Needs(w, r, d);
    }
  }

  lemma RunsKeep(w: World, runs: map<RunId, Run>)
    requires Inv(w) && RunsLater(w.db.runs, runs)
    ensures Inv(OnDb(w, w.db.(runs := runs))) && Later(w, OnDb(w, w.db.(runs := runs)))
  {
    hide InvAttempts, InvOwners, InvGenerations, InvLog, InvClock, InvHeads, InvInventory,
         InvSnapshots, InvPromotions, InvTicks, InvWitnessed, InvDaily, InvReducers, InvGcs,
         InvWritten, InvFiles, InvHeld, Needed, RunsLater, Later, AttemptLater;
    var v := OnDb(w, w.db.(runs := runs));
    forall a | a in w.db.attempts
      ensures AttemptLater(w.db.attempts[a], v.db.attempts[a])
    {
      AttemptLaterReflexive(w.db.attempts[a]);
    }
    RootsByFrame(w, v);
    FrameKeeps(w, v);
  }

  lemma StartRunKeeps(w: World, run: RunId, o: Option<nat>)
    requires Inv(w)
    ensures Inv(OnDb(w, StartRun(w.db, run, o))) && Later(w, OnDb(w, StartRun(w.db, run, o)))
  {
    hide Inv, Later;
    RunsKeep(w, StartRun(w.db, run, o).runs);
  }

  lemma FinishRunKeeps(w: World, run: RunId, status: RunStatus)
    requires Inv(w)
    ensures Inv(OnDb(w, FinishRun(w.db, run, status))) && Later(w, OnDb(w, FinishRun(w.db, run, status)))
  {
    hide Inv, Later;
    RunsKeep(w, FinishRun(w.db, run, status).runs);
  }

  lemma CreateTables(w: World, v: World, aid: AttemptId)
    requires InvAttempts(w.db.attempts) && InvOwners(w.db.attempts, w.db.owners)
    requires InvWitnessed(w.db.attempts, w.witnessed)
    requires aid !in w.db.attempts && aid in v.db.attempts
    requires v == OnDb(w, w.db.(attempts := w.db.attempts[aid := v.db.attempts[aid]]))
    requires AttemptOk(v.db.attempts[aid]) && v.db.attempts[aid].epochs.None?
    requires v.db.attempts[aid].validated == map[]
    ensures InvAttempts(v.db.attempts) && AttemptsLater(w.db.attempts, v.db.attempts)
    ensures InvOwners(v.db.attempts, v.db.owners) && OwnersLater(w.db, v.db)
    ensures InvWitnessed(v.db.attempts, v.witnessed)
  {
    hide AttemptOk, AttemptLater, ScopeClaim;
    forall a | a in w.db.attempts
      ensures AttemptLater(w.db.attempts[a], v.db.attempts[a])
    {
      AttemptLaterReflexive(w.db.attempts[a]);
    }
  }

  lemma RunsLaterReflexive(runs: map<RunId, Run>)
    ensures RunsLater(runs, runs)
  {
  }

  lemma CreateKeeps(w: World, id: Identity, run: RunId, planned: set<Scope>, dagster: bool, o: Option<nat>)
    requires Inv(w)
    ensures Inv(OnDb(w, CreateAttempt(w.db, id, run, planned, dagster, o)))
    ensures Later(w, OnDb(w, CreateAttempt(w.db, id, run, planned, dagster, o)))
  {
    hide InvAttempts, InvOwners, InvGenerations, InvLog, InvClock, InvHeads, InvInventory,
         InvSnapshots, InvPromotions, InvTicks, InvWitnessed, InvDaily, InvReducers, InvGcs,
         InvWritten, InvFiles, InvHeld, Needed, RunsLater, Later, AttemptLater;
    var v := OnDb(w, CreateAttempt(w.db, id, run, planned, dagster, o));
    if v != w {
      CreateTables(w, v, id.attempt);
      RunsLaterReflexive(w.db.runs);
      RootsByFrame(w, v);
      FrameKeeps(w, v);
    } else {
      LaterReflexive(w);
    }
  }

  lemma ClaimOwners(db: Db, id: Identity)
    requires InvOwners(db.attempts, db.owners) && CanClaim(db, id)
    ensures InvOwners(Claim(db, id).attempts, Claim(db, id).owners) && OwnersLater(db, Claim(db, id))
  {
    var v := Claim(db, id);
    forall a, s | a in v.attempts && v.attempts[a].epochs.Some? && s in v.attempts[a].epochs.value
      ensures s in v.owners && ScopeClaim(a, v.attempts[a].epochs.value[s], v.owners[s])
    {
      if a != id.attempt {
        assert a in db.attempts && ScopeClaim(a, db.attempts[a].epochs.value[s], db.owners[s]);
      }
    }
  }

  lemma ClaimRow(a: Attempt, epochs: map<Scope, nat>)
    requires AttemptOk(a) && a.epochs.None? && epochs.Keys == a.planned
    ensures AttemptOk(a.(epochs := Some(epochs))) && AttemptLater(a, a.(epochs := Some(epochs)))
  {
    hide Barrier, PlanSealable, ReceiptTrue;
  }

  lemma ClaimTables(w: World, id: Identity)
    requires InvAttempts(w.db.attempts) && InvWitnessed(w.db.attempts, w.witnessed)
    requires CanClaim(w.db, id)
    ensures InvAttempts(Claim(w.db, id).attempts)
    ensures AttemptsLater(w.db.attempts, Claim(w.db, id).attempts)
    ensures InvWitnessed(Claim(w.db, id).attempts, w.witnessed)
  {
    hide AttemptOk, AttemptLater, ClaimedOwners, NextEpoch;
    var was := w.db.attempts[id.attempt];
    var epochs := map s | s in was.planned :: NextEpoch(w.db.owners, s);
    var now := Claim(w.db, id).attempts;
    ClaimRow(was, epochs);
    assert now == w.db.attempts[id.attempt := was.(epochs := Some(epochs))];
    forall a | a in w.db.attempts
      ensures AttemptLater(w.db.attempts[a], now[a])
    {
      AttemptLaterReflexive(w.db.attempts[a]);
    }
  }

  lemma ClaimKeeps(w: World, id: Identity)
    requires Inv(w)
    ensures Inv(OnDb(w, Claim(w.db, id))) && Later(w, OnDb(w, Claim(w.db, id)))
  {
    hide InvAttempts, InvOwners, InvGenerations, InvLog, InvClock, InvHeads, InvInventory,
         InvSnapshots, InvPromotions, InvTicks, InvWitnessed, InvDaily, InvReducers, InvGcs,
         InvWritten, InvFiles, InvHeld, Needed, RunsLater, Later, AttemptsLater, OwnersLater;
    if CanClaim(w.db, id) {
      var v := OnDb(w, Claim(w.db, id));
      ClaimTables(w, id);
      ClaimOwners(w.db, id);
      RunsLaterReflexive(w.db.runs);
      RootsByFrame(w, v);
      FrameKeeps(w, v);
    } else {
      LaterReflexive(w);
    }
  }

  lemma LaterReflexive(w: World)
    ensures Later(w, w)
  {
  }
}
