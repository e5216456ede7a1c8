/** Every action of the pipeline keeps the invariant and undoes nothing; so does every run. */
module PipelineSteps {
  import opened ExportTypes
  import opened Lifecycle
  import opened Heads
  import opened Pipeline
  import opened PipelineInvariant
  import opened PipelineAttempts
  import opened PipelinePublisher
  import opened PipelinePromotion
  import opened PipelineCas
  import opened PipelineFiles
  import opened PipelineDaily

  lemma CollectorStepKeeps(w: World, a: Action)
    requires Inv(w) && IsCollectorStep(a)
    ensures Inv(Next(w, a)) && Later(w, Next(w, a))
  {
    hide NextPublisher, NextGc, NextReader;
    hide Inv, Later, StartRun, FinishRun, CreateAttempt, Claim, Declare, Bind, ExpectChunk, RecordChunk,
         FailCapture, CloseSource, ClosePlan, NextWrite;
    match a
    case AdvanceClock(now) =>
      if now < w.time { LaterReflexive(w); } else { ClockKeeps(w, now); }
    case BeginRun(run, o) => StartRunKeeps(w, run, o);
    case EndRun(run, status) => FinishRunKeeps(w, run, status);
    case BeginAttempt(id, run, planned, dagster, o) => CreateKeeps(w, id, run, planned, dagster, o);
    case ClaimScopes(id) => ClaimKeeps(w, id);
    case DeclarePolicy(id, d, listed) => DeclareKeeps(w, id, d, listed);
    case BindResponse(id, r) => BindKeeps(w, id, r);
    case PlanChunk(id, key, row) => ExpectKeeps(w, id, key, row);
    case Capture(id, c) => RecordKeeps(w, id, c);
    case WriteFile(aid, key) => WriteKeeps(w, aid, key);
    case AbandonCapture(id) => FailCaptureKeeps(w, id);
    case CloseOneSource(id, s, keys) => CloseSourceKeeps(w, id, s, keys);
    case CloseAll(id) => ClosePlanKeeps(w, id);
  }

  lemma PublisherStepKeeps(w: World, a: Action)
    requires Inv(w) && IsPublisherStep(a)
    ensures Inv(Next(w, a)) && Later(w, Next(w, a))
  {
    hide NextCollector, NextGc, NextReader;
    hide Inv, Later, NextTickBegin, NextTickVerify, NextTickCommit, NextPin, NextPromoteRead, NextCas,
         RetireSuperseded, RetireTerminal, BootstrapInventory;
    match a
    case TickBegin(p, id, limit) => TickBeginKeeps(w, p, id, limit);
    case TickVerify(p) => TickVerifyKeeps(w, p);
    case TickCommit(p) => TickCommitKeeps(w, p);
    case PromotePin(p, id) => PinKeeps(w, p, id);
    case PromoteRead(p) => PromoteReadKeeps(w, p);
    case PromoteCas(p, g, stamp, approved) => CasKeeps(w, p, g, stamp, approved);
    case RetireMoved(aid) => RetireKeeps(w, aid);
    case RetireEnded(aid, lost) => RetireTerminalKeeps(w, aid, lost);
    case Reproject(ns, approved) => ReprojectKeeps(w, ns, approved);
  }

  lemma GcStepKeeps(w: World, a: Action)
    requires Inv(w) && IsGcStep(a)
    ensures Inv(Next(w, a)) && Later(w, Next(w, a))
  {
    hide NextCollector, NextPublisher, NextReader;
    hide Inv, Later, NextGcScan, NextGcVisit, NextGcRecheck, NextGcUnlink, NextGcRelease;
    match a
    case GcScan(p, retention, grace) => GcScanKeeps(w, p, retention, grace);
    case GcVisit(p, d) => GcVisitKeeps(w, p, d);
    case GcRecheck(p, batch) => GcRecheckKeeps(w, p, batch);
    case GcUnlink(p, d) => GcUnlinkKeeps(w, p, d);
    case GcRelease(p) => GcReleaseKeeps(w, p);
  }

  lemma SnapshotStepKeeps(w: World, a: Action)
    requires Inv(w) && (a.Freeze? || a.Confirm? || a.Renew? || a.Prune?)
    ensures Inv(Next(w, a)) && Later(w, Next(w, a))
  {
    hide NextCollector, NextPublisher, NextGc;
    hide Inv, Later, NextFreeze, NextConfirm, NextRenew, NextPrune, NextDailyRead, NextDailyCommit, NextCrash;
    match a
    case Freeze(s, gs) => FreezeKeeps(w, s, gs);
    case Confirm(s) => ConfirmKeeps(w, s);
    case Renew(s) => RenewKeeps(w, s);
    case Prune(ss) => PruneKeeps(w, ss);
  }

  lemma DailyStepKeeps(w: World, a: Action)
    requires Inv(w) && (a.DailyRead? || a.DailyCommit? || a.Crash?)
    ensures Inv(Next(w, a)) && Later(w, Next(w, a))
  {
    hide NextCollector, NextPublisher, NextGc;
    hide Inv, Later, NextFreeze, NextConfirm, NextRenew, NextPrune, NextDailyRead, NextDailyCommit, NextCrash;
    match a
    case DailyRead(p, limit, rows) => DailyReadKeeps(w, p, limit, rows);
    case DailyCommit(p) => DailyCommitKeeps(w, p);
    case Crash(p) => CrashKeeps(w, p);
  }

  lemma ReaderStepKeeps(w: World, a: Action)
    requires Inv(w) && IsReaderStep(a)
    ensures Inv(Next(w, a)) && Later(w, Next(w, a))
  {
    hide Inv, Later, Next;
    if a.DailyRead? || a.DailyCommit? || a.Crash? {
      DailyStepKeeps(w, a);
    } else {
      SnapshotStepKeeps(w, a);
    }
  }

  /** Every action keeps the invariant and undoes nothing. */
  lemma NextKeeps(w: World, a: Action)
    requires Inv(w)
    ensures Inv(Next(w, a)) && Later(w, Next(w, a))
  {
    hide Inv, Later, Next;
    if IsCollectorStep(a) {
      CollectorStepKeeps(w, a);
    } else if IsPublisherStep(a) {
      PublisherStepKeeps(w, a);
    } else if IsGcStep(a) {
      GcStepKeeps(w, a);
    } else {
      ReaderStepKeeps(w, a);
    }
  }

  // ---- runs -----------------------------------------------------------------

  lemma InitialInv()
    ensures Inv(Initial)
  {
  }

  lemma AttemptLaterTransitive(a: Attempt, b: Attempt, c: Attempt)
    requires AttemptLater(a, b) && AttemptLater(b, c)
    ensures AttemptLater(a, c)
  {
  }

  lemma AttemptsLaterTransitive(a: map<AttemptId, Attempt>, b: map<AttemptId, Attempt>, c: map<AttemptId, Attempt>)
    requires AttemptsLater(a, b) && AttemptsLater(b, c)
    ensures AttemptsLater(a, c)
  {
    hide AttemptLater;
    forall k | k in a ensures k in c && AttemptLater(a[k], c[k]) {
      AttemptLaterTransitive(a[k], b[k], c[k]);
    }
  }

  lemma OwnersLaterTransitive(a: Db, b: Db, c: Db)
    requires OwnersLater(a, b) && OwnersLater(b, c) && AttemptsLater(a.attempts, b.attempts)
    ensures OwnersLater(a, c)
  {
    forall s | s in a.owners
      ensures s in c.owners && c.owners[s].epoch >= a.owners[s].epoch
      ensures c.owners[s] == a.owners[s]
              || (c.owners[s].epoch > a.owners[s].epoch
                  && (c.owners[s].active in a.attempts ==> a.attempts[c.owners[s].active].epochs.None?))
    {
      assert s in b.owners;
      if c.owners[s] != b.owners[s] && c.owners[s].active in a.attempts {
        assert AttemptLater(a.attempts[c.owners[s].active], b.attempts[c.owners[s].active]);
      }
    }
  }

  lemma HeadsLaterTransitive(a: map<Namespace, Head>, b: map<Namespace, Head>, c: map<Namespace, Head>)
    requires HeadsLater(a, b) && HeadsLater(b, c)
    ensures HeadsLater(a, c)
  {
    forall ns | ns in a ensures ns in c && HeadLater(a[ns], c[ns]) {
      assert HeadLater(a[ns], b[ns]) && HeadLater(b[ns], c[ns]);
    }
  }

  lemma LaterTransitive(u: World, v: World, w: World)
    requires Later(u, v) && Later(v, w)
    ensures Later(u, w)
  {
    hide AttemptsLater, OwnersLater, HeadLater;
    AttemptsLaterTransitive(u.db.attempts, v.db.attempts, w.db.attempts);
    OwnersLaterTransitive(u.db, v.db, w.db);
    HeadsLaterTransitive(u.db.heads, v.db.heads, w.db.heads);
  }

  /** Any run, from any state that satisfies the invariant, keeps it and undoes nothing. */
  lemma {:induction false} RunKeeps(w: World, actions: seq<Action>)
    requires Inv(w)
    ensures Inv(Execute(w, actions)) && Later(w, Execute(w, actions))
  {
    hide Inv, Later, Next;
    if actions == [] {
      LaterReflexive(w);
    } else {
      var before := Execute(w, actions[..|actions| - 1]);
      RunKeeps(w, actions[..|actions| - 1]);
      NextKeeps(before, actions[|actions| - 1]);
      LaterTransitive(w, before, Next(before, actions[|actions| - 1]));
    }
  }

  /** Every reachable state satisfies the invariant. */
  lemma Reachable(actions: seq<Action>)
    ensures Inv(Execute(Initial, actions))
  {
    hide Inv, Next;
    InitialInv();
    RunKeeps(Initial, actions);
  }

  /** A run splits at any point. */
  lemma {:induction false} ExecuteSplit(w: World, before: seq<Action>, after: seq<Action>)
    ensures Execute(w, before + after) == Execute(Execute(w, before), after)
  {
    hide Next;
    if after == [] {
      assert before + after == before;
    } else {
      var all := before + after;
      assert all[..|all| - 1] == before + after[..|after| - 1];
      ExecuteSplit(w, before, after[..|after| - 1]);
    }
  }
}
