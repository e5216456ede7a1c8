/** What every running process keeps to: how old a file must be before a garbage collector may
    unlink it and what else that takes, and how much reconcilers and reducers take at once. */
module ProcessLimits {
  import opened ExportTypes
  import opened Lifecycle
  import opened Heads
  import opened Pipeline
  import opened PipelineFrames
  import opened PipelinePublisher
  import opened ArtifactCollection

  /** A collector keeps files younger than five minutes and retains for an hour at least; what it
      found eligible nothing referred to when it looked, and was old enough. */
  ghost predicate Careful(g: Gc, time: Time) {
    && g.clock <= time && g.cut + 300000000 <= g.clock && g.retention >= 3600000000
    && (forall d: Digest | d in g.eligible :: !Referenced(g.seen, g.clock - g.retention, d))
    && (g.held.Some? ==> g.held.value.batch <= g.eligible)
  }

  ghost predicate InvLimited(w: World) {
    && (forall p | p in w.gcs :: Careful(w.gcs[p], w.time))
    && (forall p | p in w.ticks :: |w.ticks[p].rows| <= 8)
    && (forall p | p in w.reducers :: 1 <= |w.reducers[p].rows| <= 8)
  }

  // ---- the steps --------------------------------------------------------------

  lemma ScanCareful(w: World, p: Process, retention: Time, grace: Time)
    requires InvLimited(w)
    ensures InvLimited(NextGcScan(w, p, retention, grace))
  {
    hide Referenced;
  }

  lemma VisitCareful(w: World, p: Process, d: Digest)
    requires InvLimited(w)
    ensures InvLimited(NextGcVisit(w, p, d))
  {
    hide Referenced, Live;
    if p in w.gcs {
      ReferencedIs(w.gcs[p].seen, w.gcs[p].clock - w.gcs[p].retention, d);
    }
  }

  lemma HoldCareful(w: World, p: Process, batch: set<Digest>)
    requires InvLimited(w)
    ensures InvLimited(NextGcRecheck(w, p, batch)) && InvLimited(NextGcRelease(w, p))
  {
    hide Referenced, Live, GuardFree;
  }

  lemma GcCareful(w: World, a: Action)
    requires InvLimited(w) && IsGcStep(a)
    ensures InvLimited(Next(w, a))
  {
    hide NextCollector, NextPublisher, NextReader, Careful, NextGcScan, NextGcVisit, NextGcRecheck, NextGcUnlink,
         NextGcRelease;
    match a
    case GcScan(p, retention, grace) => ScanCareful(w, p, retention, grace);
    case GcVisit(p, d) => VisitCareful(w, p, d);
    case GcRecheck(p, batch) => HoldCareful(w, p, batch);
    case GcUnlink(p, d) =>
    case GcRelease(p) => HoldCareful(w, p, {});
  }

  lemma TickCase(w: World, a: Action)
    requires a.TickBegin? || a.TickVerify? || a.TickCommit?
    ensures Next(w, a) ==
      if a.TickBegin? then NextTickBegin(w, a.p, a.id, a.limit)
      else if a.TickVerify? then NextTickVerify(w, a.p)
      else NextTickCommit(w, a.p)
  {
    hide NextCollector, NextGc, NextReader, NextTickBegin, NextTickVerify, NextTickCommit;
  }

  lemma RetireCase(w: World, a: Action)
    requires a.RetireMoved? || a.RetireEnded? || a.Reproject?
    ensures Next(w, a).ticks == w.ticks
  {
    hide NextCollector, NextGc, NextReader, RetireSuperseded, RetireTerminal, BootstrapInventory;
  }

  lemma ReconcilerLimited(w: World, a: Action)
    requires InvLimited(w) && IsPublisherStep(a) && !IsPromotionStep(a)
    ensures InvLimited(Next(w, a))
  {
    hide Next, InvLimited, NextTickBegin, NextTickVerify, NextTickCommit;
    if a.TickBegin? {
      TickCase(w, a);
      TickBeginLimited(w, a.p, a.id, a.limit);
    } else if a.TickVerify? || a.TickCommit? {
      TickCase(w, a);
      TickVerifyLimited(w, a.p);
    } else {
      RetireCase(w, a);
      ReconcilerFrame(w, a);
      LaterCareful(w, Next(w, a));
    }
  }

  lemma TickBeginLimited(w: World, p: Process, id: Identity, limit: nat)
    requires InvLimited(w)
    ensures InvLimited(NextTickBegin(w, p, id, limit))
  {
    hide Careful, TickRows, CurrentOwner;
    if CanTick(w.db, id) {
      TickRowsUnvalidated(w.db.attempts[id.attempt], limit);
    }
  }

  lemma TickVerifyLimited(w: World, p: Process)
    requires InvLimited(w)
    ensures InvLimited(NextTickVerify(w, p)) && InvLimited(NextTickCommit(w, p))
  {
    hide Careful, Readable, TickDigests, CommitTick;
  }

  lemma ReaderLimited(w: World, a: Action)
    requires InvLimited(w) && IsReaderStep(a)
    ensures InvLimited(Next(w, a))
  {
    hide Next, InvLimited;
    if a.Crash? {
      CrashCase(w, a.p);
      CrashLimited(w, a.p);
    } else if IsSnapshotStep(a) {
      SnapshotFrame(w, a);
      LaterCareful(w, Next(w, a));
    } else {
      DailyCase(w, a);
      DailyLimited(w, a);
    }
  }

  lemma CrashLimited(w: World, p: Process)
    requires InvLimited(w)
    ensures InvLimited(NextCrash(w, p))
  {
    hide Careful;
  }

  lemma DailyLimited(w: World, a: Action)
    requires InvLimited(w)
    ensures a.DailyRead? ==> InvLimited(NextDailyRead(w, a.p, a.limit, a.rows))
    ensures a.DailyCommit? ==> InvLimited(NextDailyCommit(w, a.p))
  {
    hide Careful;
  }

  lemma LaterCareful(w: World, v: World)
    requires InvLimited(w) && w.time <= v.time
    requires v.gcs == w.gcs && v.ticks == w.ticks && v.reducers == w.reducers
    ensures InvLimited(v)
  {
    hide Referenced;
  }

  lemma ClockRuns(w: World, a: Action)
    requires IsCollectorStep(a)
    ensures Next(w, a).time >= w.time
  {
    hide NextPublisher, NextGc, NextReader, StartRun, FinishRun, CreateAttempt, Claim, Declare, Bind, ExpectChunk,
         RecordChunk, FailCapture, CloseSource, ClosePlan, NextWrite;
  }

  lemma NextLimited(w: World, a: Action)
    requires InvLimited(w)
    ensures InvLimited(Next(w, a))
  {
    hide Next, InvLimited;
    if IsCollectorStep(a) {
      CollectorFrame(w, a);
      ClockRuns(w, a);
      LaterCareful(w, Next(w, a));
    } else if IsPromotionStep(a) {
      PromotionApart(w, a);
      LaterCareful(w, Next(w, a));
    } else if IsPublisherStep(a) {
      ReconcilerLimited(w, a);
    } else if IsGcStep(a) {
      GcCareful(w, a);
    } else {
      ReaderLimited(w, a);
    }
  }

  lemma PromotionApart(w: World, a: Action)
    requires IsPromotionStep(a)
    ensures var v := Next(w, a);
            v.time == w.time && v.gcs == w.gcs && v.ticks == w.ticks && v.reducers == w.reducers
  {
    hide Next, NextPin, NextPromoteRead;
    PromotionCase(w, a);
    if a.PromoteCas? {
      CasApart(w, a.p, a.generation, a.stamp, a.approved);
    }
    hide NextCas;
  }

  lemma CasApart(w: World, p: Process, gid: GenerationId, stamp: Time, approved: set<Location>)
    ensures var v := NextCas(w, p, gid, stamp, approved);
            v.time == w.time && v.gcs == w.gcs && v.ticks == w.ticks && v.reducers == w.reducers
  {
    hide Wins, Publish, GuardFree;
    if Wins(w, p, gid) {
      CasImplies(w, p, gid);
    }
  }

  lemma {:induction false} RunLimited(w: World, actions: seq<Action>)
    requires InvLimited(w)
    ensures InvLimited(Execute(w, actions))
  {
    hide Next, InvLimited;
    if actions != [] {
      RunLimited(w, actions[..|actions| - 1]);
      NextLimited(Execute(w, actions[..|actions| - 1]), actions[|actions| - 1]);
    }
  }

  /** In every reachable state, the only step that removes a file is an unlink of a garbage
      collector; the file was more than five minutes old when the collector started, nothing
      referred to it at its first look, and nothing does at its recheck inside the guard. */
  lemma OnlyOldFilesGo(actions: seq<Action>, a: Action, d: Digest)
    requires d in Execute(Initial, actions).files && d !in Next(Execute(Initial, actions), a).files
    ensures var w := Execute(Initial, actions);
      && a.GcUnlink? && a.digest == d && a.p in w.gcs
      && var g := w.gcs[a.p];
      && w.files[d] + 300000000 < g.clock <= w.time
      && g.retention >= 3600000000
      && !Referenced(g.seen, g.clock - g.retention, d)
      && g.held.Some? && d in g.held.value.batch && d !in g.held.value.live
  {
    hide Next, Referenced, InvLimited;
    var w := Execute(Initial, actions);
    InitialLimited();
    RunLimited(Initial, actions);
    if a.GcUnlink? {
      UnlinkCase(w, a.p, a.digest);
      CarefulOf(w, a.p);
    } else {
      FilesStay(w, a);
    }
  }

  lemma InitialLimited()
    ensures InvLimited(Initial)
  {
  }

  lemma CarefulOf(w: World, p: Process)
    requires InvLimited(w) && p in w.gcs
    ensures Careful(w.gcs[p], w.time)
  {
    hide Careful;
  }

  lemma UnlinkCase(w: World, p: Process, d: Digest)
    ensures Next(w, GcUnlink(p, d)) == NextGcUnlink(w, p, d)
    ensures forall e | e in w.files && e !in NextGcUnlink(w, p, d).files :: e == d && MayUnlink(w, p, d)
  {
    hide NextCollector, NextPublisher, NextReader;
  }

  lemma FilesStay(w: World, a: Action)
    requires !a.GcUnlink?
    ensures w.files.Keys <= Next(w, a).files.Keys
  {
    if IsCollectorStep(a) {
      WritesOnly(w, a);
    } else if IsPromotionStep(a) {
      PromotionFiles(w, a);
    } else if IsPublisherStep(a) {
      hide Next;
      ReconcilerFrame(w, a);
    } else if IsGcStep(a) {
      GcFiles(w, a);
    } else {
      hide Next;
      ReaderFrame(w, a);
    }
  }

  lemma WritesOnly(w: World, a: Action)
    requires IsCollectorStep(a)
    ensures w.files.Keys <= Next(w, a).files.Keys
  {
    hide NextPublisher, NextGc, NextReader, StartRun, FinishRun, CreateAttempt, Claim, Declare, Bind, ExpectChunk,
         RecordChunk, FailCapture, CloseSource, ClosePlan;
  }

  lemma PromotionFiles(w: World, a: Action)
    requires IsPromotionStep(a)
    ensures Next(w, a).files == w.files
  {
    hide Next, NextPin, NextPromoteRead, Publish, Wins, GuardFree;
    PromotionCase(w, a);
    if a.PromoteCas? && Wins(w, a.p, a.generation) {
      CasImplies(w, a.p, a.generation);
    }
  }

  lemma GcFiles(w: World, a: Action)
    requires IsGcStep(a) && !a.GcUnlink?
    ensures Next(w, a).files == w.files
  {
    hide NextCollector, NextPublisher, NextReader, NextGcScan, NextGcVisit, NextGcRecheck, NextGcUnlink, NextGcRelease;
  }

  /** A look at a file finds it eligible exactly if it was old and nothing referred to it when the
      collector started. */
  lemma VisitExactly(w: World, p: Process, d: Digest)
    requires p in w.gcs && w.gcs[p].held.None?
    ensures var v, g := Next(w, GcVisit(p, d)), w.gcs[p];
      && p in v.gcs
      && v.gcs[p] == g.(eligible := if && d in w.files && w.files[d] < g.cut
                                       && !Referenced(g.seen, g.clock - g.retention, d)
                                    then g.eligible + {d} else g.eligible)
  {
    hide NextCollector, NextPublisher, NextReader, Live, Referenced;
    ReferencedIs(w.gcs[p].seen, w.gcs[p].clock - w.gcs[p].retention, d);
  }

  /** Inside the guard a file of the batch goes exactly if it is still old and the recheck did not
      find it referred to. */
  lemma UnlinkExactly(w: World, p: Process, d: Digest)
    requires p in w.gcs && w.gcs[p].held.Some?
    ensures var v, held := Next(w, GcUnlink(p, d)), w.gcs[p].held.value;
      v.files == if d in held.batch && d !in held.live && d in w.files && w.files[d] < w.gcs[p].cut
                 then w.files - {d} else w.files
  {
    hide NextCollector, NextPublisher, NextReader;
  }

  /** What a recheck marks as live is exactly what something refers to then. */
  lemma RecheckExactly(w: World, p: Process, batch: set<Digest>)
    requires p in w.gcs && GuardFree(w) && batch <= w.gcs[p].eligible
    ensures var v := Next(w, GcRecheck(p, batch));
      && p in v.gcs && v.gcs[p].held.Some? && v.gcs[p].held.value.batch == batch
      && forall d :: d in v.gcs[p].held.value.live <==>
           d in batch && Referenced(w.db, w.gcs[p].clock - w.gcs[p].retention, d)
  {
    hide NextCollector, NextPublisher, NextReader, Live, Referenced;
    forall d | d in batch ensures Live(w.db, w.gcs[p].clock - w.gcs[p].retention, d)
                <==> Referenced(w.db, w.gcs[p].clock - w.gcs[p].retention, d) {
      ReferencedIs(w.db, w.gcs[p].clock - w.gcs[p].retention, d);
    }
  }

  /** A collector may retain for an hour and spare files for five minutes, and no less. */
  lemma ShortestCollection(w: World, p: Process, retention: Time, grace: Time)
    requires p !in w.gcs
    ensures p in Next(w, GcScan(p, retention, grace)).gcs <==> retention >= 3600000000 && grace >= 300000000
    ensures p in Next(w, GcScan(p, retention, grace)).gcs ==>
      Next(w, GcScan(p, retention, grace)).gcs[p] == Gc(w.time, retention, w.time - grace, w.db, {}, None)
  {
    hide NextCollector, NextPublisher, NextReader;
  }

  /** A handle lasts for a quarter of an hour, and for as long again from each reuse while it
      is unexpired; it can be pruned six hours after it expired. */
  lemma HandleTimes(w: World, s: SnapshotId, generations: seq<GenerationId>, victims: set<SnapshotId>)
    ensures s !in w.db.snapshots && (forall g | g in generations :: g in w.db.generations) ==>
      Next(w, Freeze(s, generations)).db.snapshots
      == w.db.snapshots[s := Snapshot(generations, w.time + 900000000, w.db.issued)]
    ensures s in w.db.snapshots ==>
      s in Next(w, Renew(s)).db.snapshots
      && Next(w, Renew(s)).db.snapshots[s].expires == RenewedUntil(w.db.snapshots[s].expires, w.time)
    ensures forall t :: t in Next(w, Prune(victims)).db.snapshots <==>
      t in w.db.snapshots && !(t in victims && w.db.snapshots[t].expires < w.time - 21600000000)
  {
    hide Next, NextFreeze, NextRenew, NextPrune, RenewedUntil;
    SnapshotCase(w, Freeze(s, generations));
    SnapshotCase(w, Renew(s));
    SnapshotCase(w, Prune(victims));
    if s !in w.db.snapshots && (forall g | g in generations :: g in w.db.generations) {
      FrozenRow(w, s, generations);
    }
    if s in w.db.snapshots {
      RenewedRow(w, s);
    }
    PrunedRows(w, victims);
  }

  /** What a reuse at `now` leaves of a handle's expiry. */
  function RenewedUntil(expires: Time, now: Time): Time {
    if now < expires < now + 900000000 then now + 900000000 else expires
  }

  lemma FrozenRow(w: World, s: SnapshotId, generations: seq<GenerationId>)
    requires s !in w.db.snapshots && forall g | g in generations :: g in w.db.generations
    ensures NextFreeze(w, s, generations).db.snapshots
      == w.db.snapshots[s := Snapshot(generations, w.time + 900000000, w.db.issued)]
  {
  }

  lemma RenewedRow(w: World, s: SnapshotId)
    requires s in w.db.snapshots
    ensures s in NextRenew(w, s).db.snapshots
    ensures NextRenew(w, s).db.snapshots[s].expires == RenewedUntil(w.db.snapshots[s].expires, w.time)
  {
  }

  lemma PrunedRows(w: World, victims: set<SnapshotId>)
    ensures forall t :: t in NextPrune(w, victims).db.snapshots <==>
      t in w.db.snapshots && !(t in victims && w.db.snapshots[t].expires < w.time - 21600000000)
  {
  }
}
