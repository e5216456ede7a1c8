/** The daily reducer catches up: its query always has one answer, the next published
    generations, and reading and committing undisturbed applies them. */
module DailyProgress {
  import opened ExportTypes
  import opened Pipeline
  import opened PipelineFrames
  import opened PipelineInvariant
  import opened PipelineFiles
  import opened PipelineDaily
  import opened PipelineSteps

  /** Where a batch of `limit` rows from position `n` of a log of `size` ends. */
  function BatchEnd(n: nat, limit: nat, size: nat): nat {
    if size <= n + limit then size else n + limit
  }

  /** The query has exactly one answer: the next `limit` generations of the log, or all that are left. */
  lemma AnswerExactly(db: Db, published: seq<GenerationId>, n: nat, limit: nat, rows: seq<GenerationId>)
    requires InvLog(db.generations, published) && Ordered(db.generations, published)
    requires n <= |published| && CheckpointOf(db) == CheckpointAt(db.generations, published, n)
    ensures NextRows(db, limit, rows) <==> rows == published[n..BatchEnd(n, limit, |published|)]
  {
    hide InvLog, Ordered, NextRows, After, Before, CheckpointOf, CheckpointAt;
    var end := BatchEnd(n, limit, |published|);
    if NextRows(db, limit, rows) {
      AnswersFollow(db, published, n, limit, rows, |rows|);
      assert rows[..|rows|] == rows;
      if |rows| < limit {
        NoneLeftOut(db, published, n, limit, rows);
      }
      AtMostLimit(db, limit, rows);
    }
    if rows == published[n..end] {
      IsAnswer(db, published, n, limit, rows);
    }
  }

  lemma AtMostLimit(db: Db, limit: nat, rows: seq<GenerationId>)
    requires NextRows(db, limit, rows)
    ensures |rows| <= limit
  {
  }

  /** An answer of fewer rows than the limit leaves nothing of the log unread. */
  lemma NoneLeftOut(db: Db, published: seq<GenerationId>, n: nat, limit: nat, rows: seq<GenerationId>)
    requires InvLog(db.generations, published) && Ordered(db.generations, published)
    requires n + |rows| <= |published| && CheckpointOf(db) == CheckpointAt(db.generations, published, n)
    requires NextRows(db, limit, rows) && rows == published[n..n + |rows|] && |rows| < limit
    ensures n + |rows| == |published|
  {
    hide After, Before, CheckpointOf, CheckpointAt;
    if n + |rows| < |published| {
      var g := published[n + |rows|];
      assert g in published;
      AfterByPosition(db.generations, published, n, n + |rows|);
    }
  }

  lemma IsAnswer(db: Db, published: seq<GenerationId>, n: nat, limit: nat, rows: seq<GenerationId>)
    requires InvLog(db.generations, published) && Ordered(db.generations, published)
    requires n <= |published| && CheckpointOf(db) == CheckpointAt(db.generations, published, n)
    requires rows == published[n..BatchEnd(n, limit, |published|)]
    ensures NextRows(db, limit, rows)
  {
    hide After, Before, CheckpointOf, CheckpointAt;
    forall i | 0 <= i < |rows|
      ensures rows[i] in db.generations && After(db.generations[rows[i]], rows[i], CheckpointOf(db))
    {
      assert rows[i] == published[n + i] && published[n + i] in published;
      AfterByPosition(db.generations, published, n, n + i);
    }
    forall i, j | 0 <= i < j < |rows| ensures Before(db.generations, rows[i], rows[j]) {
      BeforeByPosition(db.generations, published, n + i, n + j);
    }
    forall g | g in db.generations && After(db.generations[g], g, CheckpointOf(db)) && g !in rows
      ensures |rows| == limit && forall i | 0 <= i < |rows| :: Before(db.generations, rows[i], g)
    {
      BeyondAnswer(db, published, n, limit, rows, g);
    }
  }

  lemma BeyondAnswer(db: Db, published: seq<GenerationId>, n: nat, limit: nat, rows: seq<GenerationId>,
                     g: GenerationId)
    requires InvLog(db.generations, published) && Ordered(db.generations, published)
    requires n <= |published| && CheckpointOf(db) == CheckpointAt(db.generations, published, n)
    requires rows == published[n..BatchEnd(n, limit, |published|)]
    requires g in db.generations && After(db.generations[g], g, CheckpointOf(db)) && g !in rows
    ensures |rows| == limit
    ensures forall i | 0 <= i < |rows| :: rows[i] in db.generations && Before(db.generations, rows[i], g)
  {
    hide After, Before, CheckpointOf, CheckpointAt;
    assert g in published;
    var j :| 0 <= j < |published| && published[j] == g;
    AfterByPosition(db.generations, published, n, j);
    forall i | 0 <= i < |rows| ensures rows[i] in db.generations && Before(db.generations, rows[i], g) {
      BeforeByPosition(db.generations, published, n + i, j);
    }
  }

  /** One undisturbed read and commit of an idle reducer applies the next published generations,
      as many as it asked for or all that are left, and leaves it idle. */
  lemma UndisturbedBatch(w: World, p: Process, limit: nat)
    requires Inv(w) && 1 <= limit <= 8 && p !in w.reducers
    ensures |w.applied| <= |w.published|
    ensures var v := Batched(w, p, limit);
      && Inv(v) && p !in v.reducers && v.published == w.published
      && v.applied == w.published[..BatchEnd(|w.applied|, limit, |w.published|)]
  {
    hide Inv, Next, InvHeads, InvInventory, InvSnapshots, InvReducers, InvGcs, InvWritten,
         InvConfirmed, InvFiles, InvHeld, NextRows, Ordered, CheckpointOf, CheckpointAt;
    PartsOf(w);
    LogOrdered(w.db.generations, w.db.clock, w.published);
    var end := BatchEnd(|w.applied|, limit, |w.published|);
    var rows := w.published[|w.applied|..end];
    AnswerExactly(w.db, w.published, |w.applied|, limit, rows);
    var read := DailyRead(p, limit, rows);
    DailyCase(w, read);
    DailyCase(Next(w, read), DailyCommit(p));
    NextKeeps(w, read);
    NextKeeps(Next(w, read), DailyCommit(p));
    assert rows != [] ==> rows[|rows| - 1] in w.published;
    CommitsRead(w, p, limit, rows);
    assert w.applied == w.published[..|w.applied|];
  }

  lemma CommitsRead(w: World, p: Process, limit: nat, rows: seq<GenerationId>)
    requires 1 <= limit <= 8 && p !in w.reducers && NextRows(w.db, limit, rows)
    requires rows != [] ==> rows[|rows| - 1] in w.db.generations
    ensures var v := NextDailyCommit(NextDailyRead(w, p, limit, rows), p);
      v.applied == w.applied + rows && p !in v.reducers && v.published == w.published
  {
    hide NextRows, CheckpointOf;
  }

  /** A read of the next `limit` generations and its commit. */
  ghost function Batched(w: World, p: Process, limit: nat): World {
    if |w.published| < |w.applied| then w
    else
      var rows := w.published[|w.applied|..BatchEnd(|w.applied|, limit, |w.published|)];
      Next(Next(w, DailyRead(p, limit, rows)), DailyCommit(p))
  }

  ghost function Rounds(w: World, p: Process, limit: nat, n: nat): World {
    if n == 0 then w else Batched(Rounds(w, p, limit, n - 1), p, limit)
  }

  /** `v` is `w` after its reducer took the next `taken` generations, or all that were left. */
  ghost predicate Took(w: World, v: World, p: Process, taken: nat) {
    && Inv(v) && p !in v.reducers && v.published == w.published && |w.applied| <= |w.published|
    && v.applied == w.published[..BatchEnd(|w.applied|, taken, |w.published|)]
  }

  lemma TookOneMore(w: World, v: World, p: Process, taken: nat, limit: nat)
    requires Took(w, v, p, taken) && 1 <= limit <= 8
    ensures Took(w, Batched(v, p, limit), p, taken + limit)
  {
    hide Inv, Batched, BatchEnd;
    NextEnd(|w.applied|, taken, limit, |w.published|);
    UndisturbedBatch(v, p, limit);
  }

  lemma {:induction false} RoundsApply(w: World, p: Process, limit: nat, n: nat, taken: nat)
    requires Inv(w) && 1 <= limit <= 8 && p !in w.reducers && taken == n * limit
    ensures Took(w, Rounds(w, p, limit, n), p, taken)
  {
    hide Inv, Batched;
    if n == 0 {
      AppliedIsPrefix(w);
    } else {
      hide Took;
      EarlierRounds(n, limit);
      RoundsApply(w, p, limit, n - 1, taken - limit);
      TookOneMore(w, Rounds(w, p, limit, n - 1), p, taken - limit, limit);
    }
  }

  lemma EarlierRounds(n: nat, limit: nat)
    requires n > 0
    ensures n * limit - limit == (n - 1) * limit >= 0
  {
  }

  lemma NextEnd(n: nat, taken: nat, limit: nat, size: nat)
    requires n <= size
    ensures n <= BatchEnd(n, taken, size) <= size && BatchEnd(n, 0, size) == n
    ensures BatchEnd(BatchEnd(n, taken, size), limit, size) == BatchEnd(n, taken + limit, size)
  {
  }

  /** From any reachable state, `n` undisturbed rounds of an idle reducer apply the next `n * limit`
      published generations, or all of them. */
  lemma CatchesUp(actions: seq<Action>, p: Process, limit: nat, n: nat, taken: nat)
    requires 1 <= limit <= 8 && p !in Execute(Initial, actions).reducers && taken == n * limit
    ensures var w, v := Execute(Initial, actions), Rounds(Execute(Initial, actions), p, limit, n);
      && v.published == w.published
      && v.applied == if |w.published| <= |w.applied| + taken then w.published
                      else w.published[..|w.applied| + taken]
  {
    hide Inv, Next, Rounds;
    Reachable(actions);
    RoundsApply(Execute(Initial, actions), p, limit, n, taken);
  }

  lemma AppliedIsPrefix(w: World)
    requires Inv(w)
    ensures |w.applied| <= |w.published| && w.applied == w.published[..|w.applied|]
  {
    hide Inv, InvHeads, InvInventory, InvSnapshots, InvReducers, InvGcs, InvWritten, InvConfirmed, InvFiles, InvHeld;
    PartsOf(w);
  }
}
