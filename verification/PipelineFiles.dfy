/** File writes, garbage collection, readers and the daily reducer keep the invariant. */
module PipelineFiles {
  import opened ExportTypes
  import opened Lifecycle
  import opened Heads
  import opened Pipeline
  import opened PipelineInvariant
  import opened PipelineAttempts
  import opened PipelinePromotion

  // ---- a frame for steps that leave attempts and generations alone -----------

  ghost predicate FilesFrame(w: World, v: World) {
    v == w.(db := w.db.(inventory := v.db.inventory, progress := v.db.progress,
                        snapshots := v.db.snapshots, issued := v.db.issued),
            files := v.files, time := v.time, ticks := v.ticks, promotions := v.promotions,
            gcs := v.gcs, reducers := v.reducers, confirmed := v.confirmed, written := v.written,
            applied := v.applied)
  }

  lemma AttemptsLaterReflexive(attempts: map<AttemptId, Attempt>)
    ensures AttemptsLater(attempts, attempts)
  {
    hide AttemptLater;
    forall a | a in attempts ensures AttemptLater(attempts[a], attempts[a]) {
      AttemptLaterReflexive(attempts[a]);
    }
  }

  lemma FilesFrameTables(w: World, v: World)
    requires Inv(w) && FilesFrame(w, v)
    requires InvInventory(v.db.inventory, v.db.generations)
    requires InvSnapshots(v.db.snapshots, v.db.generations)
    ensures InvTables(v.db, v.published)
  {
    hide InvAttempts, InvOwners, InvGenerations, InvOncePerAttempt, InvLog, InvClock, InvHeads,
         InvInventory, InvSnapshots, InvProcesses, InvFiles, InvHeld, HasGeneration;
    assert InvPublished(v.db) by {
      forall a | a in v.db.attempts && v.db.attempts[a].published.Some? ensures HasGeneration(v.db, a) {
        assert HasGeneration(w.db, a);
        HasGenerationSame(w.db, v.db, a);
      }
    }
  }

  lemma HasGenerationSame(was: Db, now: Db, a: AttemptId)
    requires was.generations == now.generations && HasGeneration(was, a)
    ensures HasGeneration(now, a)
  {
  }

  lemma FilesFrameLater(w: World, v: World)
    requires FilesFrame(w, v) && w.time <= v.time && w.applied <= v.applied
    ensures Later(w, v)
  {
    hide AttemptsLater;
    AttemptsLaterReflexive(w.db.attempts);
  }

  lemma FilesKeep(w: World, v: World)
    requires Inv(w) && FilesFrame(w, v)
    requires InvInventory(v.db.inventory, v.db.generations)
    requires InvSnapshots(v.db.snapshots, v.db.generations)
    requires w.time <= v.time && w.applied <= v.applied
    requires forall q | q in v.ticks :: q in w.ticks && v.ticks[q] == w.ticks[q]
    requires forall q | q in v.promotions :: q in w.promotions && v.promotions[q] == w.promotions[q]
    requires InvDaily(v.db, v.published, v.applied)
    requires InvReducers(v.reducers, v.db.generations, v.published, v.applied)
    requires InvGcs(v.gcs, v.time)
    requires InvWritten(v.written, v.db.attempts)
    requires InvConfirmed(v.confirmed, v.db.snapshots)
    requires InvFiles(v) && InvHeld(v)
    ensures Inv(v) && Later(w, v)
  {
    hide InvTables, InvWitnessed, InvDaily, InvReducers, InvGcs, InvWritten, InvConfirmed, InvFiles,
         InvHeld, Later, TickOk, PromotionOk, InvInventory, InvSnapshots;
    FilesFrameTables(w, v);
    FilesFrameLater(w, v);
  }

  lemma PartsOf(w: World)
    requires Inv(w)
    ensures InvInventory(w.db.inventory, w.db.generations)
    ensures InvSnapshots(w.db.snapshots, w.db.generations)
    ensures InvHeads(w.db.generations, w.db.heads, w.published)
    ensures InvLog(w.db.generations, w.published) && InvClock(w.db.generations, w.db.clock)
    ensures InvDaily(w.db, w.published, w.applied)
    ensures InvReducers(w.reducers, w.db.generations, w.published, w.applied)
    ensures InvGcs(w.gcs, w.time) && InvWritten(w.written, w.db.attempts)
    ensures InvConfirmed(w.confirmed, w.db.snapshots)
    ensures InvFiles(w) && InvHeld(w)
  {
    hide InvAttempts, InvOwners, InvGenerations, InvOncePerAttempt, InvPublished, InvLog, InvClock,
         InvHeads, InvInventory, InvSnapshots, InvPromotions, InvTicks, InvDaily, InvReducers,
         InvGcs, InvWritten, InvConfirmed, InvFiles, InvHeld, InvWitnessed;
  }

  /** A step after which nothing more is needed keeps every needed file that it does not remove. */
  lemma NoNewNeeds(w: World, v: World)
    requires InvFiles(w) && InvHeld(w)
    requires forall d: Digest :: Needed(v, d) ==> Needed(w, d) && (d in w.files ==> d in v.files)
    requires forall p | p in v.gcs && v.gcs[p].held.Some? :: p in w.gcs && w.gcs[p].held == v.gcs[p].held
    ensures InvFiles(v) && InvHeld(v)
  {
    hide Needed;
  }

  // ---- writes and garbage collection ----------------------------------------

  lemma WriteFiles(w: World, aid: AttemptId, key: ChunkKey)
    requires InvFiles(w) && GuardFree(w)
    requires aid in w.db.attempts && key in w.db.attempts[aid].receipts
    ensures InvFiles(NextWrite(w, aid, key)) && InvHeld(NextWrite(w, aid, key))
  {
    var v := NextWrite(w, aid, key);
    forall d: Digest | Needed(v, d) ensures d in v.files {
      var r: Root :| Needs(v, r, d);
      if d !in v.files {
        assert Needs(w, r, d);
        assert Needed(w, d);
      }
    }
  }

  lemma WriteKeeps(w: World, aid: AttemptId, key: ChunkKey)
    requires Inv(w)
    ensures Inv(NextWrite(w, aid, key)) && Later(w, NextWrite(w, aid, key))
  {
    hide Inv, Later, InvInventory, InvSnapshots, InvHeads, InvLog, InvClock, InvDaily, InvReducers,
         InvGcs, InvConfirmed, InvFiles, InvHeld;
    PartsOf(w);
    if GuardFree(w) && aid in w.db.attempts && key in w.db.attempts[aid].receipts {
      WriteFiles(w, aid, key);
      FilesKeep(w, NextWrite(w, aid, key));
    } else {
      LaterReflexive(w);
    }
  }

  /** What is needed does not depend on who is collecting garbage. */
  lemma SameNeeds(w: World, v: World)
    requires v == w.(files := v.files, gcs := v.gcs, reducers := v.reducers, ticks := v.ticks,
                     promotions := v.promotions)
    ensures forall d: Digest :: Needed(v, d) ==> Needed(w, d)
  {
    forall d: Digest | Needed(v, d) ensures Needed(w, d) {
      var r: Root :| Needs(v, r, d);
      assert Needs(w, r, d);
    }
  }

  lemma GcScanKeeps(w: World, p: Process, retention: Time, grace: Time)
    requires Inv(w)
    ensures Inv(NextGcScan(w, p, retention, grace)) && Later(w, NextGcScan(w, p, retention, grace))
  {
    hide Inv, Later, InvInventory, InvSnapshots, InvHeads, InvLog, InvClock, InvDaily, InvReducers,
         InvWritten, InvConfirmed, InvFiles, InvHeld, Needed;
    PartsOf(w);
    SameNeeds(w, NextGcScan(w, p, retention, grace));
    NoNewNeeds(w, NextGcScan(w, p, retention, grace));
    FilesKeep(w, NextGcScan(w, p, retention, grace));
  }

  lemma GcVisitKeeps(w: World, p: Process, d: Digest)
    requires Inv(w)
    ensures Inv(NextGcVisit(w, p, d)) && Later(w, NextGcVisit(w, p, d))
  {
    hide Inv, Later, InvInventory, InvSnapshots, InvHeads, InvLog, InvClock, InvDaily, InvReducers,
         InvWritten, InvConfirmed, InvFiles, InvHeld, Needed, Live;
    PartsOf(w);
    SameNeeds(w, NextGcVisit(w, p, d));
    NoNewNeeds(w, NextGcVisit(w, p, d));
    FilesKeep(w, NextGcVisit(w, p, d));
  }

  lemma GcReleaseKeeps(w: World, p: Process)
    requires Inv(w)
    ensures Inv(NextGcRelease(w, p)) && Later(w, NextGcRelease(w, p))
  {
    hide Inv, Later, InvInventory, InvSnapshots, InvHeads, InvLog, InvClock, InvDaily, InvReducers,
         InvWritten, InvConfirmed, InvFiles, InvHeld, Needed;
    PartsOf(w);
    SameNeeds(w, NextGcRelease(w, p));
    NoNewNeeds(w, NextGcRelease(w, p));
    FilesKeep(w, NextGcRelease(w, p));
  }

  /** Every needed file is live for any collector: its reference query would find it. */
  lemma NeededIsLive(w: World, clock: Time, retention: Time, d: Digest)
    requires Needed(w, d) && clock <= w.time && retention >= MIN_RETENTION
    ensures Live(w.db, clock - retention, d)
  {
    hide HasRef, Pending;
    var r: Root :| Needs(w, r, d);
    var cutoff := clock - retention;
    match r
    case ByHead(ns) => assert LiveGeneration(w.db, w.db.heads[ns].generation, cutoff);
    case ByInventory(key) => assert LiveGeneration(w.db, w.db.inventory[key], cutoff);
    case ByUnread(g) => assert LiveGeneration(w.db, g, cutoff);
    case BySnapshot(s, g) => assert LiveGeneration(w.db, g, cutoff);
    case ByReceipt(a, k) => assert Received(w.db.attempts[a], d);
    case ByParentPin(a, i) => assert Pinned(w.db.attempts[a], d);
  }

  lemma RecheckCovers(w: World, p: Process, batch: set<Digest>)
    requires InvFiles(w) && InvGcs(w.gcs, w.time) && GuardFree(w)
    requires p in w.gcs && batch <= w.gcs[p].eligible
    ensures InvFiles(NextGcRecheck(w, p, batch)) && InvHeld(NextGcRecheck(w, p, batch))
  {
    hide Needed, Live;
    var v := NextGcRecheck(w, p, batch);
    SameNeeds(w, v);
    var g := w.gcs[p];
    forall d: Digest | Needed(v, d) && d in batch
      ensures d in v.gcs[p].held.value.live
    {
      NeededIsLive(w, g.clock, g.retention, d);
    }
  }

  lemma GcRecheckKeeps(w: World, p: Process, batch: set<Digest>)
    requires Inv(w)
    ensures Inv(NextGcRecheck(w, p, batch)) && Later(w, NextGcRecheck(w, p, batch))
  {
    hide Inv, Later, InvInventory, InvSnapshots, InvHeads, InvLog, InvClock, InvDaily, InvReducers,
         InvWritten, InvConfirmed, InvFiles, InvHeld, Live;
    PartsOf(w);
    if p in w.gcs && GuardFree(w) && batch <= w.gcs[p].eligible {
      RecheckCovers(w, p, batch);
      FilesKeep(w, NextGcRecheck(w, p, batch));
    } else {
      LaterReflexive(w);
    }
  }

  lemma GcUnlinkKeeps(w: World, p: Process, d: Digest)
    requires Inv(w)
    ensures Inv(NextGcUnlink(w, p, d)) && Later(w, NextGcUnlink(w, p, d))
  {
    hide Inv, Later, InvInventory, InvSnapshots, InvHeads, InvLog, InvClock, InvDaily, InvReducers,
         InvGcs, InvWritten, InvConfirmed, InvFiles, Needed;
    PartsOf(w);
    if MayUnlink(w, p, d) {
      SameNeeds(w, NextGcUnlink(w, p, d));
      assert !Needed(w, d);
      NoNewNeeds(w, NextGcUnlink(w, p, d));
      FilesKeep(w, NextGcUnlink(w, p, d));
    } else {
      LaterReflexive(w);
    }
  }

  // ---- readers --------------------------------------------------------------

  lemma ClockKeeps(w: World, now: Time)
    requires Inv(w) && w.time <= now
    ensures Inv(w.(time := now)) && Later(w, w.(time := now))
  {
    hide Inv, Later, InvInventory, InvSnapshots, InvHeads, InvLog, InvClock, InvDaily, InvReducers,
         InvWritten, InvConfirmed, InvFiles, InvHeld;
    PartsOf(w);
    var v := w.(time := now);
    forall d: Digest | Needed(v, d) ensures Needed(w, d) {
      var r: Root :| Needs(v, r, d);
      assert Needs(w, r, d);
    }
    NoNewNeeds(w, v);
    FilesKeep(w, v);
  }

  lemma SnapshotRoots(w: World, v: World)
    requires v == w.(db := w.db.(snapshots := v.db.snapshots, issued := v.db.issued),
                     confirmed := v.confirmed)
    requires forall s | s in v.confirmed && s in v.db.snapshots ::
      && s in w.confirmed && s in w.db.snapshots
      && v.db.snapshots[s].generations == w.db.snapshots[s].generations
      && (v.db.snapshots[s].expires == w.db.snapshots[s].expires || w.db.snapshots[s].expires > w.time)
    ensures forall d: Digest :: Needed(v, d) ==> Needed(w, d)
  {
    hide HasRef, Pending;
    forall d: Digest | Needed(v, d) ensures Needed(w, d) {
      var r: Root :| Needs(v, r, d);
      assert Needs(w, r, d);
    }
  }

  lemma FreezeKeeps(w: World, s: SnapshotId, generations: seq<GenerationId>)
    requires Inv(w)
    ensures Inv(NextFreeze(w, s, generations)) && Later(w, NextFreeze(w, s, generations))
  {
    hide Inv, Later, InvInventory, InvHeads, InvLog, InvClock, InvReducers, InvGcs, InvWritten,
         InvFiles, InvHeld, Needed, CheckpointAt;
    PartsOf(w);
    var v := NextFreeze(w, s, generations);
    SnapshotRoots(w, v);
    NoNewNeeds(w, v);
    FilesKeep(w, v);
  }

  lemma RenewKeeps(w: World, s: SnapshotId)
    requires Inv(w)
    ensures Inv(NextRenew(w, s)) && Later(w, NextRenew(w, s))
  {
    hide Inv, Later, InvInventory, InvHeads, InvLog, InvClock, InvReducers, InvGcs, InvWritten,
         InvFiles, InvHeld, Needed, CheckpointAt;
    PartsOf(w);
    var v := NextRenew(w, s);
    SnapshotRoots(w, v);
    NoNewNeeds(w, v);
    FilesKeep(w, v);
  }

  lemma PruneKeeps(w: World, victims: set<SnapshotId>)
    requires Inv(w)
    ensures Inv(NextPrune(w, victims)) && Later(w, NextPrune(w, victims))
  {
    hide Inv, Later, InvInventory, InvHeads, InvLog, InvClock, InvReducers, InvGcs, InvWritten,
         InvFiles, InvHeld, Needed, CheckpointAt;
    PartsOf(w);
    var v := NextPrune(w, victims);
    SnapshotRoots(w, v);
    NoNewNeeds(w, v);
    FilesKeep(w, v);
  }

  lemma ConfirmFiles(w: World, s: SnapshotId)
    requires InvFiles(w) && GuardFree(w) && SnapshotPresent(w, s)
    ensures InvFiles(NextConfirm(w, s)) && InvHeld(NextConfirm(w, s))
  {
    var v := NextConfirm(w, s);
    forall d: Digest | Needed(v, d) ensures d in v.files {
      var r: Root :| Needs(v, r, d);
      if r.BySnapshot? && r.snapshot == s {
        assert AllPresent(w.files, w.db.generations[r.member].refs);
      } else {
        assert Needs(w, r, d);
        assert Needed(w, d);
      }
    }
  }

  lemma ConfirmKeeps(w: World, s: SnapshotId)
    requires Inv(w)
    ensures Inv(NextConfirm(w, s)) && Later(w, NextConfirm(w, s))
  {
    hide Inv, Later, InvInventory, InvSnapshots, InvHeads, InvLog, InvClock, InvDaily, InvReducers,
         InvGcs, InvWritten, InvFiles, InvHeld;
    PartsOf(w);
    if GuardFree(w) && SnapshotPresent(w, s) {
      ConfirmFiles(w, s);
      FilesKeep(w, NextConfirm(w, s));
    } else {
      LaterReflexive(w);
    }
  }

  /** Re-projecting a head roots only files the head already roots. */
  lemma ReprojectRoots(w: World, ns: Namespace, approved: set<Location>)
    requires InvHeads(w.db.generations, w.db.heads, w.published) && ns in w.db.heads
    ensures var v := OnDb(w, BootstrapInventory(w.db, ns, approved));
            forall d: Digest :: Needed(v, d) ==> Needed(w, d)
  {
    hide InvHeads, HasRef, Pending, Replaces;
    var v := OnDb(w, BootstrapInventory(w.db, ns, approved));
    HeadGeneration(w.db.generations, w.db.heads, w.published, ns);
    forall d: Digest | Needed(v, d) ensures Needed(w, d) {
      var r: Root :| Needs(v, r, d);
      if r.ByInventory? && !(r.key in w.db.inventory && w.db.inventory[r.key] == v.db.inventory[r.key]) {
        assert v.db.inventory[r.key] == w.db.heads[ns].generation;
        assert Needs(w, ByHead(ns), d);
      } else {
        assert Needs(w, r, d);
      }
    }
  }

  lemma ReprojectKeeps(w: World, ns: Namespace, approved: set<Location>)
    requires Inv(w)
    ensures Inv(OnDb(w, BootstrapInventory(w.db, ns, approved)))
    ensures Later(w, OnDb(w, BootstrapInventory(w.db, ns, approved)))
  {
    hide Inv, Later, InvSnapshots, InvLog, InvClock, InvReducers, InvHeads,
         InvGcs, InvWritten, InvConfirmed, InvFiles, InvHeld, Needed, Replaces, CheckpointAt;
    PartsOf(w);
    if ns in w.db.heads {
      var v := OnDb(w, BootstrapInventory(w.db, ns, approved));
      HeadGeneration(w.db.generations, w.db.heads, w.published, ns);
      ReprojectRoots(w, ns, approved);
      NoNewNeeds(w, v);
      FilesKeep(w, v);
    } else {
      LaterReflexive(w);
    }
  }
}
