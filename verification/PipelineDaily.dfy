/** The daily reducer applies the publication log in order: the keyset query after the
    checkpoint answers exactly the next published generations, and the checkpoint
    compare-and-swap admits one of several racing reducers. */
module PipelineDaily {
  import opened ExportTypes
  import opened Lifecycle
  import opened Pipeline
  import opened PipelineInvariant
  import opened PipelineAttempts
  import opened PipelineFiles

  /** A log in which later entries have later times. */
  ghost predicate Ordered(generations: map<GenerationId, Generation>, published: seq<GenerationId>) {
    && (forall g | g in published :: g in generations && generations[g].created > EPOCH)
    && (forall i, j | 0 <= i < j < |published| ::
          generations[published[i]].created < generations[published[j]].created)
  }

  lemma LogOrdered(generations: map<GenerationId, Generation>, clock: Option<Time>, published: seq<GenerationId>)
    requires InvLog(generations, published) && InvClock(generations, clock)
    ensures Ordered(generations, published)
  {
  }

  lemma AfterByPosition(generations: map<GenerationId, Generation>, published: seq<GenerationId>, n: nat, i: nat)
    requires Ordered(generations, published) && n <= |published| && i < |published|
    ensures After(generations[published[i]], published[i], CheckpointAt(generations, published, n)) <==> n <= i
  {
    if n > 0 {
      assert published[n - 1] in published && published[i] in published;
      assert i < n - 1 ==> generations[published[i]].created < generations[published[n - 1]].created;
      assert i > n - 1 ==> generations[published[i]].created > generations[published[n - 1]].created;
    } else {
      assert published[i] in published;
    }
  }

  lemma BeforeByPosition(generations: map<GenerationId, Generation>, published: seq<GenerationId>, i: nat, j: nat)
    requires Ordered(generations, published) && i < |published| && j < |published|
    ensures published[i] in generations && published[j] in generations
    ensures Before(generations, published[i], published[j]) <==> i < j
  {
    assert published[i] in published && published[j] in published;
    assert i < j ==> generations[published[i]].created < generations[published[j]].created;
    assert j < i ==> generations[published[j]].created < generations[published[i]].created;
  }

  /** The first `k` answers are the next `k` published generations. */
  lemma {:induction false} AnswersFollow(db: Db, published: seq<GenerationId>, n: nat, limit: nat,
                                         rows: seq<GenerationId>, k: nat)
    requires InvLog(db.generations, published) && Ordered(db.generations, published)
    requires n <= |published| && CheckpointOf(db) == CheckpointAt(db.generations, published, n)
    requires NextRows(db, limit, rows) && k <= |rows|
    ensures n + k <= |published| && rows[..k] == published[n..n + k]
  {
    hide InvLog, Ordered, NextRows, After, Before, CheckpointOf, CheckpointAt;
    if k > 0 {
      AnswersFollow(db, published, n, limit, rows, k - 1);
      var j := PositionOf(db, published, n, limit, rows, k - 1);
      if k > 1 {
        assert rows[k - 2] == rows[..k - 1][k - 2] == published[n + k - 2];
        RowsInBefore(db, limit, rows, k - 2, k - 1);
        BeforeByPosition(db.generations, published, n + k - 2, j);
      }
      NothingSkipped(db, published, n, limit, rows, k - 1);
      BeforeByPosition(db.generations, published, n + k - 1, j);
      assert rows[..k] == rows[..k - 1] + [rows[k - 1]];
    }
  }

  lemma PositionOf(db: Db, published: seq<GenerationId>, n: nat, limit: nat, rows: seq<GenerationId>, i: nat)
    returns (j: nat)
    requires InvLog(db.generations, published) && Ordered(db.generations, published)
    requires n <= |published| && CheckpointOf(db) == CheckpointAt(db.generations, published, n)
    requires NextRows(db, limit, rows) && i < |rows|
    ensures n <= j < |published| && published[j] == rows[i]
  {
    assert rows[i] in published;
    j :| 0 <= j < |published| && published[j] == rows[i];
    AfterByPosition(db.generations, published, n, j);
  }

  lemma RowsInBefore(db: Db, limit: nat, rows: seq<GenerationId>, i: nat, j: nat)
    requires NextRows(db, limit, rows) && i < j < |rows|
    ensures rows[i] in db.generations && rows[j] in db.generations
    ensures Before(db.generations, rows[i], rows[j])
  {
  }

  /** The next published generation is not skipped: the answer at its place is not later. */
  lemma NothingSkipped(db: Db, published: seq<GenerationId>, n: nat, limit: nat, rows: seq<GenerationId>, i: nat)
    requires InvLog(db.generations, published) && Ordered(db.generations, published)
    requires n <= |published| && CheckpointOf(db) == CheckpointAt(db.generations, published, n)
    requires NextRows(db, limit, rows) && i < |rows|
    requires n + i < |published| && rows[..i] == published[n..n + i]
    ensures rows[i] in db.generations && published[n + i] in db.generations
    ensures !Before(db.generations, published[n + i], rows[i])
  {
    hide InvLog, Ordered, NextRows, After, Before, CheckpointOf, CheckpointAt;
    var next := published[n + i];
    AfterByPosition(db.generations, published, n, n + i);
    BeforeByPosition(db.generations, published, n + i, n + i);
    if next !in rows {
      UnansweredIsLater(db, limit, rows, i, next);
    } else {
      var m :| 0 <= m < |rows| && rows[m] == next;
      if m < i {
        assert rows[..i][m] == published[n + m];
        BeforeByPosition(db.generations, published, n + m, n + i);
      } else if m > i {
        RowsInBefore(db, limit, rows, i, m);
        BeforeAsymmetric(db.generations, rows[i], next);
      }
      RowsIn(db, limit, rows, i);
    }
  }

  lemma RowsIn(db: Db, limit: nat, rows: seq<GenerationId>, i: nat)
    requires NextRows(db, limit, rows) && i < |rows|
    ensures rows[i] in db.generations
  {
  }

  lemma BeforeAsymmetric(generations: map<GenerationId, Generation>, g: GenerationId, h: GenerationId)
    requires g in generations && h in generations && Before(generations, g, h)
    ensures !Before(generations, h, g)
  {
  }

  lemma UnansweredIsLater(db: Db, limit: nat, rows: seq<GenerationId>, i: nat, g: GenerationId)
    requires NextRows(db, limit, rows) && i < |rows| && g !in rows
    requires g in db.generations && After(db.generations[g], g, CheckpointOf(db))
    ensures rows[i] in db.generations && !Before(db.generations, g, rows[i])
  {
    BeforeAsymmetric(db.generations, rows[i], g);
  }

  lemma CheckpointPosition(generations: map<GenerationId, Generation>, published: seq<GenerationId>, n: nat, m: nat)
    requires Ordered(generations, published) && n <= |published| && m <= |published|
    requires CheckpointAt(generations, published, n) == CheckpointAt(generations, published, m)
    ensures n == m
  {
    hide Ordered, CheckpointAt, After;
    if n < m {
      AfterByPosition(generations, published, n, m - 1);
      AfterByPosition(generations, published, m, m - 1);
    } else if m < n {
      AfterByPosition(generations, published, m, n - 1);
      AfterByPosition(generations, published, n, n - 1);
    }
  }

  lemma DailyReadBatch(w: World, limit: nat, rows: seq<GenerationId>)
    requires InvLog(w.db.generations, w.published) && InvClock(w.db.generations, w.db.clock)
    requires InvDaily(w.db, w.published, w.applied)
    requires NextRows(w.db, limit, rows) && rows != []
    ensures BatchOk(Batch(CheckpointOf(w.db), rows, |w.applied|), w.db.generations, w.published, w.applied)
  {
    LogOrdered(w.db.generations, w.db.clock, w.published);
    AnswersFollow(w.db, w.published, |w.applied|, limit, rows, |rows|);
    assert rows[..|rows|] == rows;
  }

  lemma DailyReadKeeps(w: World, p: Process, limit: nat, rows: seq<GenerationId>)
    requires Inv(w)
    ensures Inv(NextDailyRead(w, p, limit, rows)) && Later(w, NextDailyRead(w, p, limit, rows))
  {
    hide Inv, Later, InvInventory, InvSnapshots, InvHeads, InvLog, InvClock, InvDaily, BatchOk,
         InvGcs, InvWritten, InvConfirmed, InvFiles, InvHeld, Needed, NextRows;
    PartsOf(w);
    var v := NextDailyRead(w, p, limit, rows);
    if v != w {
      DailyReadBatch(w, limit, rows);
      SameNeeds(w, v);
      NoNewNeeds(w, v);
      FilesKeep(w, v);
    } else {
      LaterReflexive(w);
    }
  }

  // ---- commit ---------------------------------------------------------------

  ghost predicate Applies(w: World, p: Process) {
    p in w.reducers && CheckpointOf(w.db) == w.reducers[p].after
  }

  /** The batch that wins the checkpoint race starts where the applied log ends. */
  lemma WinnerPosition(w: World, p: Process)
    requires InvLog(w.db.generations, w.published) && InvClock(w.db.generations, w.db.clock)
    requires InvDaily(w.db, w.published, w.applied)
    requires InvReducers(w.reducers, w.db.generations, w.published, w.applied)
    requires Applies(w, p)
    ensures w.reducers[p].position == |w.applied|
    ensures w.applied + w.reducers[p].rows == w.published[..|w.applied| + |w.reducers[p].rows|]
    ensures w.reducers[p].rows != []
    ensures w.reducers[p].rows[|w.reducers[p].rows| - 1] in w.db.generations
  {
    hide CheckpointAt, InvClock, CheckpointOf;
    LogOrdered(w.db.generations, w.db.clock, w.published);
    var b := w.reducers[p];
    assert BatchOk(b, w.db.generations, w.published, w.applied);
    CheckpointPosition(w.db.generations, w.published, b.position, |w.applied|);
    assert b.rows[|b.rows| - 1] in w.published;
  }

  lemma DailyCommitTables(w: World, p: Process)
    requires InvLog(w.db.generations, w.published) && InvClock(w.db.generations, w.db.clock)
    requires InvDaily(w.db, w.published, w.applied)
    requires InvReducers(w.reducers, w.db.generations, w.published, w.applied)
    requires Applies(w, p)
    ensures var v := NextDailyCommit(w, p);
            && InvDaily(v.db, v.published, v.applied)
            && InvReducers(v.reducers, v.db.generations, v.published, v.applied)
            && v.applied == w.applied + w.reducers[p].rows
  {
    hide InvLog, InvClock;
    WinnerPosition(w, p);
    var v := NextDailyCommit(w, p);
    var rows := w.reducers[p].rows;
    assert v.published[|v.applied| - 1] == rows[|rows| - 1] by {
      assert v.applied == w.published[..|v.applied|];
      assert v.applied[|v.applied| - 1] == rows[|rows| - 1];
    }
    forall q | q in v.reducers ensures BatchOk(v.reducers[q], v.db.generations, v.published, v.applied) {
      assert BatchOk(w.reducers[q], w.db.generations, w.published, w.applied);
    }
  }

  /** Moving the checkpoint forward makes fewer generations unread. */
  lemma UnreadShrinks(was: Db, now: Db, published: seq<GenerationId>, n: nat, m: nat, g: GenerationId)
    requires InvLog(was.generations, published) && Ordered(was.generations, published)
    requires now.generations == was.generations && n <= m <= |published|
    requires CheckpointOf(was) == CheckpointAt(was.generations, published, n)
    requires CheckpointOf(now) == CheckpointAt(was.generations, published, m)
    requires now.progress.Some? && Unread(now, g)
    ensures Unread(was, g)
  {
    hide Ordered, After, CheckpointAt;
    var i :| 0 <= i < |published| && published[i] == g;
    AfterByPosition(was.generations, published, m, i);
    AfterByPosition(was.generations, published, n, i);
  }

  lemma ProgressRoots(w: World, v: World)
    requires v == w.(db := w.db.(progress := v.db.progress), reducers := v.reducers, applied := v.applied)
    requires forall g :: Unread(v.db, g) ==> Unread(w.db, g)
    ensures forall d: Digest :: Needed(v, d) ==> Needed(w, d)
  {
    hide HasRef, Pending, Unread;
    forall d: Digest | Needed(v, d) ensures Needed(w, d) {
      var r: Root :| Needs(v, r, d);
      assert r.ByUnread? ==> r.generation in w.db.generations by {
        if r.ByUnread? { UnreadExists(v.db, r.generation); }
      }
      assert Needs(w, r, d);
    }
  }

  lemma UnreadExists(db: Db, g: GenerationId)
    requires Unread(db, g)
    ensures g in db.generations
  {
  }

  lemma CommitRoots(w: World, p: Process)
    requires InvLog(w.db.generations, w.published) && InvClock(w.db.generations, w.db.clock)
    requires InvDaily(w.db, w.published, w.applied)
    requires InvReducers(w.reducers, w.db.generations, w.published, w.applied)
    requires Applies(w, p)
    ensures forall d: Digest :: Needed(NextDailyCommit(w, p), d) ==> Needed(w, d)
  {
    hide Unread, Needed, InvReducers, InvLog, InvClock, CheckpointAt, CheckpointOf, Ordered;
    var v := NextDailyCommit(w, p);
    WinnerPosition(w, p);
    DailyCommitTables(w, p);
    LogOrdered(w.db.generations, w.db.clock, w.published);
    forall g | Unread(v.db, g) ensures Unread(w.db, g) {
      UnreadShrinks(w.db, v.db, w.published, |w.applied|, |v.applied|, g);
    }
    ProgressRoots(w, v);
  }

  lemma DailyCommitKeeps(w: World, p: Process)
    requires Inv(w)
    ensures Inv(NextDailyCommit(w, p)) && Later(w, NextDailyCommit(w, p))
  {
    hide Inv, Later, InvInventory, InvSnapshots, InvHeads, InvLog, InvClock, InvDaily, BatchOk,
         InvGcs, InvWritten, InvConfirmed, InvFiles, InvHeld, Needed, CheckpointOf;
    PartsOf(w);
    var v := NextDailyCommit(w, p);
    if p !in w.reducers {
      LaterReflexive(w);
    } else if Applies(w, p) {
      WinnerPosition(w, p);
      DailyCommitTables(w, p);
      CommitRoots(w, p);
      NoNewNeeds(w, v);
      FilesKeep(w, v);
    } else {
      SameNeeds(w, v);
      NoNewNeeds(w, v);
      FilesKeep(w, v);
    }
  }

  lemma CrashKeeps(w: World, p: Process)
    requires Inv(w)
    ensures Inv(NextCrash(w, p)) && Later(w, NextCrash(w, p))
  {
    hide Inv, Later, InvInventory, InvSnapshots, InvHeads, InvLog, InvClock, InvDaily, BatchOk,
         InvWritten, InvConfirmed, InvFiles, InvHeld, Needed;
    PartsOf(w);
    SameNeeds(w, NextCrash(w, p));
    NoNewNeeds(w, NextCrash(w, p));
    FilesKeep(w, NextCrash(w, p));
  }
}
