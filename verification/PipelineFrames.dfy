/** What each kind of step leaves alone. */
module PipelineFrames {
  import opened ExportTypes
  import opened Lifecycle
  import opened Heads
  import opened Pipeline

  predicate IsPromotionStep(a: Action) {
    a.PromotePin? || a.PromoteRead? || a.PromoteCas?
  }

  predicate IsSnapshotStep(a: Action) {
    a.Freeze? || a.Confirm? || a.Renew? || a.Prune?
  }

  /** Collectors only touch runs, attempts, owners and files. */
  lemma CollectorFrame(w: World, a: Action)
    requires IsCollectorStep(a)
    ensures var v := Next(w, a);
      v == w.(db := w.db.(runs := v.db.runs, attempts := v.db.attempts, owners := v.db.owners),
              time := v.time, files := v.files, written := v.written)
  {
    hide NextPublisher, NextGc, NextReader;
    hide StartRun, FinishRun, CreateAttempt, Claim, Declare, Bind, ExpectChunk, RecordChunk,
         FailCapture, CloseSource, ClosePlan, NextWrite;
  }

  /** Publishers that do not promote touch runs, attempts, approvals and reconcile ticks. */
  lemma ReconcilerFrame(w: World, a: Action)
    requires IsPublisherStep(a) && !IsPromotionStep(a)
    ensures var v := Next(w, a);
      && v == w.(db := w.db.(runs := v.db.runs, attempts := v.db.attempts, inventory := v.db.inventory),
                 ticks := v.ticks, witnessed := v.witnessed)
      && (!a.Reproject? ==> v.db.inventory == w.db.inventory)
  {
    hide NextCollector, NextGc, NextReader;
    hide NextTickBegin, NextTickVerify, NextTickCommit, NextPin, NextPromoteRead, NextCas,
         RetireSuperseded, RetireTerminal, BootstrapInventory;
  }

  lemma PromotionCase(w: World, a: Action)
    requires IsPromotionStep(a)
    ensures Next(w, a) ==
      if a.PromotePin? then NextPin(w, a.p, a.id)
      else if a.PromoteRead? then NextPromoteRead(w, a.p)
      else NextCas(w, a.p, a.generation, a.stamp, a.approved)
  {
    hide NextCollector, NextGc, NextReader, NextPin, NextPromoteRead, NextCas;
  }

  /** A pin writes one attempt's rows; a read only counts. */
  lemma PinOrReadFrame(w: World, a: Action)
    requires IsPromotionStep(a) && !a.PromoteCas?
    ensures var v := Next(w, a);
      v == w.(db := w.db.(attempts := v.db.attempts), promotions := v.promotions)
  {
    hide Next, NextPin, NextPromoteRead, NextCas;
    PromotionCase(w, a);
  }

  /** Garbage collectors touch files and their own memory. */
  lemma GcFrame(w: World, a: Action)
    requires IsGcStep(a)
    ensures var v := Next(w, a);
      v == w.(files := v.files, gcs := v.gcs)
  {
    hide NextCollector, NextPublisher, NextReader;
    hide NextGcScan, NextGcVisit, NextGcRecheck, NextGcUnlink, NextGcRelease;
  }

  lemma SnapshotCase(w: World, a: Action)
    requires IsSnapshotStep(a)
    ensures Next(w, a) ==
      if a.Freeze? then NextFreeze(w, a.snapshot, a.generations)
      else if a.Confirm? then NextConfirm(w, a.snapshot)
      else if a.Renew? then NextRenew(w, a.snapshot)
      else NextPrune(w, a.snapshots)
  {
    hide NextCollector, NextPublisher, NextGc;
    hide NextFreeze, NextConfirm, NextRenew, NextPrune, NextDailyRead, NextDailyCommit, NextCrash;
  }

  lemma SnapshotFrame(w: World, a: Action)
    requires IsSnapshotStep(a)
    ensures var v := Next(w, a);
      v == w.(db := w.db.(snapshots := v.db.snapshots, issued := v.db.issued), confirmed := v.confirmed)
  {
    hide Next, NextFreeze, NextConfirm, NextRenew, NextPrune;
    SnapshotCase(w, a);
  }

  lemma DailyCase(w: World, a: Action)
    requires a.DailyRead? || a.DailyCommit?
    ensures Next(w, a) ==
      if a.DailyRead? then NextDailyRead(w, a.p, a.limit, a.rows) else NextDailyCommit(w, a.p)
  {
    hide NextCollector, NextPublisher, NextGc, NextDailyRead, NextDailyCommit;
  }

  lemma DailyFrame(w: World, a: Action)
    requires a.DailyRead? || a.DailyCommit?
    ensures var v := Next(w, a);
      v == w.(db := w.db.(progress := v.db.progress), reducers := v.reducers, applied := v.applied)
  {
    hide NextCollector, NextPublisher, NextGc;
    hide NextFreeze, NextConfirm, NextRenew, NextPrune, NextDailyRead, NextDailyCommit, NextCrash;
  }

  lemma CrashCase(w: World, p: Process)
    ensures Next(w, Crash(p)) == NextCrash(w, p)
  {
    hide NextCollector, NextPublisher, NextGc, NextCrash;
  }

  /** Everything that readers, reducers and crashes leave alone. */
  lemma ReaderFrame(w: World, a: Action)
    requires IsReaderStep(a)
    ensures var v := Next(w, a);
      && v == w.(db := w.db.(snapshots := v.db.snapshots, issued := v.db.issued, progress := v.db.progress),
                 ticks := v.ticks, promotions := v.promotions, gcs := v.gcs, reducers := v.reducers,
                 confirmed := v.confirmed, applied := v.applied)
      && v.promotions == (if a.Crash? then Without(w.promotions, a.p) else w.promotions)
      && (!IsSnapshotStep(a) ==> v.db.snapshots == w.db.snapshots && v.confirmed == w.confirmed)
  {
    hide Next, Without;
    if a.Crash? {
      CrashCase(w, a.p);
    } else if IsSnapshotStep(a) {
      SnapshotFrame(w, a);
    } else {
      DailyFrame(w, a);
    }
  }

  /** Only the compare-and-swap publishes; every other step leaves generations, heads and the
      publication clock alone. */
  lemma PublishesNothing(w: World, a: Action)
    requires !a.PromoteCas?
    ensures var v := Next(w, a);
      && v.db.heads == w.db.heads && v.db.generations == w.db.generations
      && v.published == w.published && v.db.clock == w.db.clock
  {
    hide Next, Without;
    if IsCollectorStep(a) {
      CollectorFrame(w, a);
    } else if IsPromotionStep(a) {
      PinOrReadFrame(w, a);
    } else if IsPublisherStep(a) {
      ReconcilerFrame(w, a);
    } else if IsGcStep(a) {
      GcFrame(w, a);
    } else {
      ReaderFrame(w, a);
    }
  }
}
