/** Reconcile ticks and the steps of a promotion keep the invariant. */
module PipelinePublisher {
  import opened ExportTypes
  import opened Lifecycle
  import opened Pipeline
  import opened PipelineInvariant
  import opened PipelineAttempts

  // ---- reconcile -----------------------------------------------------------

  /** A tick checks a prefix, in key order, of the receipts not validated yet. */
  lemma TickRowsUnvalidated(a: Attempt, limit: nat)
    ensures |TickRows(a, limit)| <= limit
    ensures forall k | k in TickRows(a, limit) :: k in a.receipts && k !in a.validated
    ensures TickRows(a, limit) <= SortedKeys(Unvalidated(a))
  {
    var all := SortedKeys(Unvalidated(a));
    SortedKeysSorts(Unvalidated(a));
    var rows := FirstRows(all, limit);
    assert forall k | k in rows :: k in all;
    var n := BoundedPrefixInRange(a.receipts, rows);
    assert TickRows(a, limit) == rows[..n] == all[..n];
    forall k | k in TickRows(a, limit) ensures k in a.receipts && k !in a.validated {
      assert k in all;
    }
  }

  lemma MemoryKeeps(w: World, v: World)
    requires Inv(w)
    requires v == w.(ticks := v.ticks, promotions := v.promotions, witnessed := v.witnessed)
    requires InvTicks(v.ticks, v.witnessed) && w.witnessed <= v.witnessed
    requires InvPromotions(v.promotions, v.db.generations)
    ensures Inv(v) && Later(w, v)
  {
    hide InvAttempts, InvOwners, InvGenerations, InvOncePerAttempt, InvPublished, InvLog, InvClock,
         InvHeads, InvInventory, InvSnapshots, InvPromotions, InvTicks, InvDaily, InvReducers,
         InvGcs, InvWritten, AttemptsLater, OwnersLater, RunsLater, InvConfirmed;
    assert Later(w, w) by { LaterReflexive(w); }
    forall d: Digest | Needed(v, d) ensures Needed(w, d) {
      var r: Root :| Needs(v, r, d);
      assert Needs(w, r, d);
    }
  }

  lemma TicksOf(w: World)
    requires Inv(w)
    ensures InvTicks(w.ticks, w.witnessed) && InvPromotions(w.promotions, w.db.generations)
    ensures InvHeads(w.db.generations, w.db.heads, w.published)
    ensures InvGenerations(w.db.generations, w.db.attempts)
    ensures InvWitnessed(w.db.attempts, w.witnessed)
  {
    hide InvAttempts, InvOwners, InvGenerations, InvOncePerAttempt, InvPublished, InvLog, InvClock,
         InvHeads, InvInventory, InvSnapshots, InvPromotions, InvTicks, InvDaily, InvReducers,
         InvGcs, InvWritten, InvConfirmed, InvFiles, InvHeld, InvWitnessed;
  }

  lemma TickBeginKeeps(w: World, p: Process, id: Identity, limit: nat)
    requires Inv(w)
    ensures Inv(NextTickBegin(w, p, id, limit)) && Later(w, NextTickBegin(w, p, id, limit))
  {
    hide Inv, Later, TickRows;
    var v := NextTickBegin(w, p, id, limit);
    if v != w {
      TicksOf(w);
      OneAttempt(w, id.attempt);
      TickRowsUnvalidated(w.db.attempts[id.attempt], limit);
      MemoryKeeps(w, v);
    } else {
      LaterReflexive(w);
    }
  }

  lemma TickVerifyKeeps(w: World, p: Process)
    requires Inv(w)
    ensures Inv(NextTickVerify(w, p)) && Later(w, NextTickVerify(w, p))
  {
    hide Inv, Later;
    TicksOf(w);
    MemoryKeeps(w, NextTickVerify(w, p));
  }

  /** The barrier speaks only of what the seal and the closures record. */
  lemma BarrierKeeps(a: Attempt, b: Attempt)
    requires SealOf(a) == SealOf(b) && a.closures == b.closures
    ensures Barrier(a) == Barrier(b) && PlanSealable(a) == PlanSealable(b)
  {
  }

  lemma ValidateRow(a: Attempt, t: Tick, witnessed: set<Digest>)
    requires AttemptOk(a) && TickOk(t, witnessed) && t.verified == |t.rows|
    requires a.status != Failed && a.seal == t.token
    requires forall k | k in a.validated :: a.validated[k] in witnessed
    ensures AttemptOk(Validate(a, TickDigests(t))) && AttemptLater(a, Validate(a, TickDigests(t)))
    ensures forall k | k in Validate(a, TickDigests(t)).validated ::
              Validate(a, TickDigests(t)).validated[k] in witnessed
  {
    hide Barrier, PlanSealable, ReceiptTrue;
    BarrierKeeps(a, Validate(a, TickDigests(t)));
  }

  lemma TickCommitTables(w: World, v: World, aid: AttemptId)
    requires InvAttempts(w.db.attempts) && InvOwners(w.db.attempts, w.db.owners)
    requires InvWitnessed(w.db.attempts, w.witnessed)
    requires aid in w.db.attempts && aid in v.db.attempts
    requires v.db == w.db.(attempts := w.db.attempts[aid := v.db.attempts[aid]])
    requires AttemptOk(v.db.attempts[aid]) && AttemptLater(w.db.attempts[aid], v.db.attempts[aid])
    requires v.db.attempts[aid].epochs == w.db.attempts[aid].epochs
    requires v.db.attempts[aid].published == w.db.attempts[aid].published
    requires forall k | k in v.db.attempts[aid].validated :: v.db.attempts[aid].validated[k] in w.witnessed
    ensures InvAttempts(v.db.attempts) && AttemptsLater(w.db.attempts, v.db.attempts)
    ensures NoNewPublication(w.db.attempts, v.db.attempts)
    ensures InvOwners(v.db.attempts, v.db.owners) && OwnersLater(w.db, v.db)
    ensures InvWitnessed(v.db.attempts, w.witnessed)
  {
    hide AttemptOk, AttemptLater, ScopeClaim;
    forall a | a in w.db.attempts
      ensures a in v.db.attempts && AttemptLater(w.db.attempts[a], v.db.attempts[a])
    {
      AttemptLaterReflexive(w.db.attempts[a]);
    }
  }

  lemma AttemptTablesOf(w: World)
    requires Inv(w)
    ensures InvAttempts(w.db.attempts) && InvOwners(w.db.attempts, w.db.owners)
    ensures InvWitnessed(w.db.attempts, w.witnessed) && InvWritten(w.written, w.db.attempts)
  {
    hide InvAttempts, InvOwners, InvGenerations, InvOncePerAttempt, InvPublished, InvLog, InvClock,
         InvHeads, InvInventory, InvSnapshots, InvPromotions, InvTicks, InvDaily, InvReducers,
         InvGcs, InvWritten, InvConfirmed, InvFiles, InvHeld, InvWitnessed;
  }

  lemma TickCommitRoots(w: World, v: World, aid: AttemptId)
    requires aid in w.db.attempts
    requires v == w.(db := w.db.(attempts := v.db.attempts), ticks := v.ticks)
    requires aid in v.db.attempts && v.db.attempts == w.db.attempts[aid := v.db.attempts[aid]]
    requires v.db.attempts[aid].receipts == w.db.attempts[aid].receipts
    requires v.db.attempts[aid].pins == w.db.attempts[aid].pins
    requires Pending(v.db.attempts[aid]) ==> Pending(w.db.attempts[aid])
    ensures forall d: Digest :: Needed(v, d) ==> Needed(w, d)
  {
    forall d: Digest | Needed(v, d) ensures Needed(w, d) {
      var r: Root :| Needs(v, r, d);
      assert Needs(w, r, d);
    }
  }

  lemma TickCommitKeeps(w: World, p: Process)
    requires Inv(w)
    ensures Inv(NextTickCommit(w, p)) && Later(w, NextTickCommit(w, p))
  {
    hide Inv, Later, InvAttempts, InvOwners, InvWitnessed, InvWritten, InvPromotions, InvHeads,
         InvGenerations, AttemptOk, AttemptLater, AttemptsLater, OwnersLater, NoNewPublication,
         TickOk, Needed, CurrentOwner, RunsLater, TickDigests;
    var v := NextTickCommit(w, p);
    if v == w {
      LaterReflexive(w);
    } else {
      TicksOf(w);
      AttemptTablesOf(w);
      RunsLaterReflexive(w.db.runs);
      var t := w.ticks[p];
      if CanCommitTick(w.db, t.id, t.token) {
        var a := w.db.attempts[t.id.attempt];
        OneAttempt(w, t.id.attempt);
        assert forall k | k in a.validated :: a.validated[k] in w.witnessed by {
          WitnessedRow(w.db.attempts, w.witnessed, t.id.attempt);
        }
        ValidateRow(a, t, w.witnessed);
        TickCommitTables(w, v, t.id.attempt);
        TickCommitRoots(w, v, t.id.attempt);
        FrameKeeps(w, v);
      } else {
        MemoryKeeps(w, v);
      }
    }
  }

  lemma WitnessedRow(attempts: map<AttemptId, Attempt>, witnessed: set<Digest>, aid: AttemptId)
    requires InvWitnessed(attempts, witnessed) && aid in attempts
    ensures forall k | k in attempts[aid].validated :: attempts[aid].validated[k] in witnessed
  {
  }
}
