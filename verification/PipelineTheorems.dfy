/** What the pipeline guarantees over every run: any number of competing processes, any
    interleaving of their steps, a crash after any of them. */
module PipelineTheorems {
  import opened ExportTypes
  import opened Lifecycle
  import opened Heads
  import opened Pipeline
  import opened PipelineFrames
  import opened PipelineInvariant
  import opened PipelinePromotion
  import opened PipelineFiles
  import opened PipelineSteps

  // ---- files ---------------------------------------------------------------

  ghost predicate FilesPresent(w: World, g: GenerationId) {
    g in w.db.generations && AllPresent(w.files, w.db.generations[g].refs)
  }

  lemma NeededFilesPresent(w: World, g: GenerationId)
    requires InvFiles(w) && InvGenerations(w.db.generations, w.db.attempts)
    requires g in w.db.generations
    requires forall d: Digest :: HasRef(w.db.generations[g], d) ==> Needed(w, d)
    ensures FilesPresent(w, g)
  {
    hide Needed;
    assert GenerationOk(w.db.generations[g], w.db.attempts);
    forall i | 0 <= i < |w.db.generations[g].refs|
      ensures w.db.generations[g].refs[i].digest in w.files
      ensures ByteCount(w.db.generations[g].refs[i].digest) == w.db.generations[g].refs[i].bytes
    {
      assert RefTrue(w.db.generations[g].refs[i]);
      assert HasRef(w.db.generations[g], w.db.generations[g].refs[i].digest);
    }
  }

  lemma HeadFiles(w: World, ns: Namespace)
    requires InvFiles(w) && InvGenerations(w.db.generations, w.db.attempts)
    requires InvHeads(w.db.generations, w.db.heads, w.published) && ns in w.db.heads
    ensures FilesPresent(w, w.db.heads[ns].generation)
  {
    hide InvFiles, InvGenerations, InvHeads, HasRef, FilesPresent;
    HeadGeneration(w.db.generations, w.db.heads, w.published, ns);
    forall d: Digest | HasRef(w.db.generations[w.db.heads[ns].generation], d) ensures Needed(w, d) {
      assert Needs(w, ByHead(ns), d);
    }
    NeededFilesPresent(w, w.db.heads[ns].generation);
  }

  lemma ApprovedFiles(w: World, k: InventoryKey)
    requires InvFiles(w) && InvGenerations(w.db.generations, w.db.attempts)
    requires InvInventory(w.db.inventory, w.db.generations) && k in w.db.inventory
    ensures FilesPresent(w, w.db.inventory[k])
  {
    hide InvFiles, InvGenerations, HasRef, FilesPresent;
    forall d: Digest | HasRef(w.db.generations[w.db.inventory[k]], d) ensures Needed(w, d) {
      assert Needs(w, ByInventory(k), d);
    }
    NeededFilesPresent(w, w.db.inventory[k]);
  }

  lemma UnreadFiles(w: World, g: GenerationId)
    requires InvFiles(w) && InvGenerations(w.db.generations, w.db.attempts) && Unread(w.db, g)
    ensures FilesPresent(w, g)
  {
    hide InvFiles, InvGenerations, HasRef, FilesPresent;
    forall d: Digest | HasRef(w.db.generations[g], d) ensures Needed(w, d) {
      assert Needs(w, ByUnread(g), d);
    }
    NeededFilesPresent(w, g);
  }

  lemma ReaderFiles(w: World, s: SnapshotId, g: GenerationId)
    requires InvFiles(w) && InvGenerations(w.db.generations, w.db.attempts)
    requires InvSnapshots(w.db.snapshots, w.db.generations)
    requires Readers(w, s) && g in w.db.snapshots[s].generations
    ensures FilesPresent(w, g)
  {
    hide InvFiles, InvGenerations, HasRef, FilesPresent;
    forall d: Digest | HasRef(w.db.generations[g], d) ensures Needed(w, d) {
      assert Needs(w, BySnapshot(s, g), d);
    }
    NeededFilesPresent(w, g);
  }

  lemma GenerationsOf(w: World)
    requires Inv(w)
    ensures InvGenerations(w.db.generations, w.db.attempts)
    ensures InvOncePerAttempt(w.db.generations) && InvAttempts(w.db.attempts)
    ensures InvOwners(w.db.attempts, w.db.owners)
  {
    hide InvAttempts, InvOwners, InvGenerations, InvOncePerAttempt, InvPublished, InvLog, InvClock,
         InvHeads, InvInventory, InvSnapshots, InvProcesses, InvFiles, InvHeld;
  }

  /** In every reachable state, whatever the interleaving of publishers, collectors,
      garbage collectors, readers and daily reducers, no file is missing (or of another
      size than its reference says) that is referenced by a current head, by an approved
      location, by a generation the daily checkpoint has not passed, or by a snapshot
      that was handed to a client and expired less than an hour ago. */
  lemma NoReferencedFileMissing(actions: seq<Action>)
    ensures var w := Execute(Initial, actions);
      && (forall ns | ns in w.db.heads :: FilesPresent(w, w.db.heads[ns].generation))
      && (forall k | k in w.db.inventory :: FilesPresent(w, w.db.inventory[k]))
      && (forall g | Unread(w.db, g) :: FilesPresent(w, g))
      && (forall s, g | Readers(w, s) && g in w.db.snapshots[s].generations :: FilesPresent(w, g))
  {
    hide Inv, InvFiles, InvGenerations, InvHeads, InvInventory, InvSnapshots, FilesPresent, Unread,
         Next, InvLog, InvClock, InvDaily, InvReducers, InvGcs, InvWritten, InvConfirmed, InvHeld,
         InvOncePerAttempt, InvAttempts, InvOwners;
    var w := Execute(Initial, actions);
    Reachable(actions);
    PartsOf(w);
    GenerationsOf(w);
    forall ns | ns in w.db.heads ensures FilesPresent(w, w.db.heads[ns].generation) { HeadFiles(w, ns); }
    forall k | k in w.db.inventory ensures FilesPresent(w, w.db.inventory[k]) { ApprovedFiles(w, k); }
    forall g | Unread(w.db, g) ensures FilesPresent(w, g) { UnreadFiles(w, g); }
    forall s, g | Readers(w, s) && g in w.db.snapshots[s].generations ensures FilesPresent(w, g) {
      ReaderFiles(w, s, g);
    }
  }

  /** A receipt's file, once written, stays until its attempt is published or fails; so does
      every file pinned for a promotion's parent. */
  lemma NoPendingFileMissing(actions: seq<Action>)
    ensures var w := Execute(Initial, actions);
      && (forall a, k | (a, k) in w.written && a in w.db.attempts && Pending(w.db.attempts[a])
                        && k in w.db.attempts[a].receipts ::
            w.db.attempts[a].receipts[k].digest in w.files)
      && (forall a, i | a in w.db.attempts && ParentPin(i) in w.db.attempts[a].pins ::
            w.db.attempts[a].pins[ParentPin(i)] in w.files)
  {
    hide Inv, InvHeads, InvInventory, InvSnapshots, Next, InvLog, InvClock, InvDaily, InvReducers,
         InvGcs, InvWritten, InvConfirmed, InvHeld, Pending;
    var w := Execute(Initial, actions);
    Reachable(actions);
    PartsOf(w);
    forall a, k | (a, k) in w.written && a in w.db.attempts && Pending(w.db.attempts[a])
                  && k in w.db.attempts[a].receipts
      ensures w.db.attempts[a].receipts[k].digest in w.files
    {
      assert Needs(w, ByReceipt(a, k), w.db.attempts[a].receipts[k].digest);
    }
    forall a, i | a in w.db.attempts && ParentPin(i) in w.db.attempts[a].pins
      ensures w.db.attempts[a].pins[ParentPin(i)] in w.files
    {
      assert Needs(w, ByParentPin(a, i), w.db.attempts[a].pins[ParentPin(i)]);
    }
  }

  // ---- snapshots -----------------------------------------------------------

  /** A handle a client holds keeps its members; it goes away only six hours after it expires. */
  ghost predicate SnapshotsKept(w: World, v: World) {
    forall s | s in w.confirmed && s in w.db.snapshots ::
      || w.db.snapshots[s].expires < v.time - 6 * 3600 * 1000000
      || (&& s in v.confirmed && s in v.db.snapshots
          && v.db.snapshots[s].generations == w.db.snapshots[s].generations
          && v.db.snapshots[s].expires >= w.db.snapshots[s].expires)
  }

  lemma CasKeepsSnapshots(w: World, p: Process, gid: GenerationId, stamp: Time, approved: set<Location>)
    ensures NextCas(w, p, gid, stamp, approved).db.snapshots == w.db.snapshots
    ensures NextCas(w, p, gid, stamp, approved).confirmed == w.confirmed
  {
    hide Wins, NewGeneration, NewHead, Approve;
    if Wins(w, p, gid) {
      CasImplies(w, p, gid);
    }
  }

  lemma SnapshotsUntouched(w: World, a: Action)
    requires !IsSnapshotStep(a)
    ensures Next(w, a).db.snapshots == w.db.snapshots && Next(w, a).confirmed == w.confirmed
  {
    hide Next;
    if IsCollectorStep(a) {
      CollectorFrame(w, a);
    } else if a.PromoteCas? {
      CasKeepsSnapshots(w, a.p, a.generation, a.stamp, a.approved);
      PromotionCase(w, a);
    } else if IsPromotionStep(a) {
      PinOrReadFrame(w, a);
    } else if IsPublisherStep(a) {
      ReconcilerFrame(w, a);
    } else if IsGcStep(a) {
      GcFrame(w, a);
    } else {
      ReaderFrame(w, a);
    }
  }

  /** A renewal replaces one row by one that expires no earlier. */
  lemma RenewShape(w: World, s: SnapshotId)
    ensures var v := NextRenew(w, s);
      && v.confirmed == w.confirmed
      && (v.db.snapshots == w.db.snapshots
          || (s in w.db.snapshots && exists row: Snapshot ::
                && v.db.snapshots == w.db.snapshots[s := row]
                && row.generations == w.db.snapshots[s].generations
                && row.expires >= w.db.snapshots[s].expires))
  {
    if s in w.db.snapshots && w.db.snapshots[s].expires > w.time {
      var was := w.db.snapshots[s];
      var row := was.(expires := Max(was.expires, w.time + SNAPSHOT_TTL));
      assert NextRenew(w, s).db.snapshots == w.db.snapshots[s := row];
    }
  }

  lemma RenewKept(w: World, s: SnapshotId)
    ensures SnapshotsKept(w, NextRenew(w, s))
  {
    RenewShape(w, s);
    hide NextRenew;
  }

  lemma PruneKept(w: World, victims: set<SnapshotId>)
    ensures SnapshotsKept(w, NextPrune(w, victims))
  {
  }

  lemma FreezeKept(w: World, s: SnapshotId, generations: seq<GenerationId>)
    ensures SnapshotsKept(w, NextFreeze(w, s, generations))
  {
  }

  lemma ConfirmKept(w: World, s: SnapshotId)
    ensures SnapshotsKept(w, NextConfirm(w, s))
  {
  }

  lemma SnapshotStep(w: World, a: Action)
    ensures SnapshotsKept(w, Next(w, a))
  {
    hide Next, SnapshotsKept, NextFreeze, NextConfirm, NextRenew, NextPrune;
    if IsSnapshotStep(a) {
      SnapshotCase(w, a);
      if a.Freeze? {
        FreezeKept(w, a.snapshot, a.generations);
      } else if a.Confirm? {
        ConfirmKept(w, a.snapshot);
      } else if a.Renew? {
        RenewKept(w, a.snapshot);
      } else {
        PruneKept(w, a.snapshots);
      }
    } else {
      SnapshotsUntouched(w, a);
      UntouchedKept(w, Next(w, a));
    }
  }

  lemma UntouchedKept(w: World, v: World)
    requires v.db.snapshots == w.db.snapshots && v.confirmed == w.confirmed
    ensures SnapshotsKept(w, v)
  {
  }

  lemma {:induction false} SnapshotRun(w: World, actions: seq<Action>)
    requires Inv(w)
    ensures SnapshotsKept(w, Execute(w, actions))
  {
    hide Inv, Next;
    if actions != [] {
      var front := actions[..|actions| - 1];
      SnapshotRun(w, front);
      RunKeeps(w, front);
      SnapshotStep(Execute(w, front), actions[|actions| - 1]);
      NextKeeps(Execute(w, front), actions[|actions| - 1]);
    }
  }

  /** A snapshot returned to a client stays readable until an hour after it expires,
      whatever everybody else does in the meantime. */
  lemma ReturnedSnapshotReadable(before: seq<Action>, s: SnapshotId, after: seq<Action>)
    requires GuardFree(Execute(Initial, before)) && SnapshotPresent(Execute(Initial, before), s)
    requires Execute(Initial, before).db.snapshots[s].expires + 3600 * 1000000
             > Execute(Initial, before + [Confirm(s)] + after).time
    ensures var u := Execute(Initial, before);
            var v := Execute(Initial, before + [Confirm(s)] + after);
            && s in v.db.snapshots && v.db.snapshots[s].generations == u.db.snapshots[s].generations
            && forall g | g in u.db.snapshots[s].generations :: FilesPresent(v, g)
  {
    hide Inv, FilesPresent, Later, SnapshotPresent, GuardFree;
    var u := Execute(Initial, before);
    assert (before + [Confirm(s)])[..|before|] == before;
    var c := Next(u, Confirm(s));
    assert Execute(Initial, before + [Confirm(s)]) == c by { hide Next; }
    ExecuteSplit(Initial, before + [Confirm(s)], after);
    Reachable(before + [Confirm(s)]);
    var v := Execute(c, after);
    SnapshotRun(c, after);
    ConfirmedShape(u, s);
    hide Next;
    NoReferencedFileMissing(before + [Confirm(s)] + after);
  }

  lemma ConfirmedShape(u: World, s: SnapshotId)
    requires GuardFree(u) && SnapshotPresent(u, s)
    ensures s in Next(u, Confirm(s)).confirmed && Next(u, Confirm(s)).db == u.db
    ensures s in u.db.snapshots
  {
    hide NextCollector, NextPublisher, NextGc;
  }
}
