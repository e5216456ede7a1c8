/** Reconcile ticks reach the sealed state: each tick stays within its byte bound, checks at
    least one more receipt, and an attempt is sealed only when every receipt was verified. */
module Reconcile {
  import opened ExportTypes
  import opened SetSize
  import opened Lifecycle
  import opened Heads
  import opened Pipeline
  import opened PipelineInvariant
  import opened PipelineAttempts
  import opened PipelinePublisher
  import opened PipelineSteps

  // ---- the tick bound -------------------------------------------------------

  /** The prefix stays within the bound and stops only at the end or at a row that would
      cross it. */
  lemma {:induction false} BoundedPrefixFits(receipts: map<ChunkKey, Receipt>, keys: seq<ChunkKey>, n: nat)
    requires n <= |keys| && forall k | k in keys :: k in receipts
    requires BytesOf(receipts, keys[..n]) <= TICK_BYTES
    ensures n <= BoundedPrefix(receipts, keys, n) <= |keys|
    ensures BytesOf(receipts, keys[..BoundedPrefix(receipts, keys, n)]) <= TICK_BYTES
    ensures var m := BoundedPrefix(receipts, keys, n);
            m < |keys| ==> BytesOf(receipts, keys[..m]) + receipts[keys[m]].bytes > TICK_BYTES
    decreases |keys| - n
  {
    if n < |keys| && BytesOf(receipts, keys[..n]) + receipts[keys[n]].bytes <= TICK_BYTES {
      assert keys[..n + 1][..n] == keys[..n];
      BoundedPrefixFits(receipts, keys, n + 1);
    }
  }

  /** A tick reads at most sixteen mebibytes, and at least one receipt while any is left. */
  lemma TickRowsBound(a: Attempt, limit: nat)
    requires limit >= 1 && forall k | k in a.receipts :: ReceiptTrue(a.receipts[k])
    ensures forall k | k in TickRows(a, limit) :: k in a.receipts
    ensures BytesOf(a.receipts, TickRows(a, limit)) <= 16 * 1024 * 1024
    ensures Unvalidated(a) != {} ==> TickRows(a, limit) != []
  {
    var all := SortedKeys(Unvalidated(a));
    SortedKeysSorts(Unvalidated(a));
    var rows := FirstRows(all, limit);
    assert forall k | k in rows :: k in all;
    assert rows[..0] == [];
    BoundedPrefixFits(a.receipts, rows, 0);
    TickRowsUnvalidated(a, limit);
    var m := BoundedPrefix(a.receipts, rows, 0);
    assert TickRows(a, limit) == rows[..m];
    if Unvalidated(a) != {} {
      assert |all| > 0;
      assert rows[0] in rows;
      assert ReceiptTrue(a.receipts[rows[0]]);
      assert BytesOf(a.receipts, rows[..0]) == 0;
    }
  }

  /** A tick takes the unvalidated receipts in key order, and stops short of its limit only at the
      last one or at one that would not fit. */
  lemma TickRowsMaximal(a: Attempt, limit: nat)
    ensures var all := SortedKeys(a.receipts.Keys - a.validated.Keys);
            var n := |TickRows(a, limit)|;
      && n <= limit && n <= |all| && TickRows(a, limit) == all[..n]
      && (forall k | k in all :: k in a.receipts)
      && (n < limit && n < |all| ==>
            BytesOf(a.receipts, all[..n]) + a.receipts[all[n]].bytes > 16 * 1024 * 1024)
  {
    var all := SortedKeys(Unvalidated(a));
    SortedKeysSorts(Unvalidated(a));
    hide SortedKeys, TickRows, FirstRows, BytesOf, BoundedPrefix, BoundedPrefixInRange;
    FirstRowsMaximal(a.receipts, all, limit);
    BytesOfRows(a, limit, FirstRows(all, limit));
  }

  lemma FirstRowsMaximal(receipts: map<ChunkKey, Receipt>, all: seq<ChunkKey>, limit: nat)
    requires forall k | k in all :: k in receipts
    ensures forall k | k in FirstRows(all, limit) :: k in receipts
    ensures var rows := FirstRows(all, limit);
      var n := BoundedPrefix(receipts, rows, 0);
      && n <= limit && n <= |rows| <= |all| && rows[..n] == all[..n]
      && (n < limit && n < |all| ==> BytesOf(receipts, all[..n]) + receipts[all[n]].bytes > 16 * 1024 * 1024)
  {
    var rows := FirstRows(all, limit);
    assert rows[..0] == [];
    BoundedPrefixFits(receipts, rows, 0);
    hide BoundedPrefix;
    assert rows[..BoundedPrefix(receipts, rows, 0)] == all[..BoundedPrefix(receipts, rows, 0)];
  }

  lemma BytesOfRows(a: Attempt, limit: nat, rows: seq<ChunkKey>)
    requires rows == FirstRows(SortedKeys(Unvalidated(a)), limit)
    requires forall k | k in rows :: k in a.receipts
    ensures TickRows(a, limit) == rows[..BoundedPrefixInRange(a.receipts, rows)]
    ensures BoundedPrefixInRange(a.receipts, rows) == BoundedPrefix(a.receipts, rows, 0)
  {
    hide SortedKeys, Unvalidated;
  }

  // ---- one whole tick -------------------------------------------------------

  /** The steps of one undisturbed tick over `rows` receipts. */
  function TickRun(p: Process, id: Identity, limit: nat, rows: nat): seq<Action> {
    [TickBegin(p, id, limit)] + seq(rows, _ => TickVerify(p)) + [TickCommit(p)]
  }

  ghost predicate AllReadable(w: World, aid: AttemptId) {
    aid in w.db.attempts && forall k | k in w.db.attempts[aid].receipts ::
      Readable(w.files, ReceiptRef(w.db.attempts[aid].receipts[k]))
  }

  /** `n` verifications in a row only move the tick's counter. */
  lemma {:induction false} VerifyRun(w: World, p: Process, n: nat)
    requires p in w.ticks && w.ticks[p].verified == 0 && n <= |w.ticks[p].rows|
    requires forall k | k in w.ticks[p].rows ::
               k in w.ticks[p].receipts && Readable(w.files, ReceiptRef(w.ticks[p].receipts[k]))
    ensures var v := Execute(w, seq(n, _ => TickVerify(p)));
            v == w.(ticks := w.ticks[p := w.ticks[p].(verified := n)], witnessed := v.witnessed)
  {
    hide Next, Readable;
    var steps := seq(n, _ => TickVerify(p));
    if n == 0 {
      assert w.ticks[p := w.ticks[p].(verified := 0)] == w.ticks;
    } else {
      VerifyRun(w, p, n - 1);
      var front := steps[..n - 1];
      assert front == seq(n - 1, _ => TickVerify(p));
      var u := Execute(w, front);
      VerifyStep(u, p);
      assert steps[n - 1] == TickVerify(p);
      assert Execute(w, steps) == Next(u, TickVerify(p));
      assert w.ticks[p := w.ticks[p].(verified := n - 1)][p := w.ticks[p].(verified := n)]
          == w.ticks[p := w.ticks[p].(verified := n)];
    }
  }

  lemma VerifyStep(u: World, p: Process)
    requires p in u.ticks && u.ticks[p].verified < |u.ticks[p].rows|
    requires forall k | k in u.ticks[p].rows ::
               k in u.ticks[p].receipts && Readable(u.files, ReceiptRef(u.ticks[p].receipts[k]))
    ensures Next(u, TickVerify(p))
         == u.(ticks := u.ticks[p := u.ticks[p].(verified := u.ticks[p].verified + 1)],
               witnessed := Next(u, TickVerify(p)).witnessed)
  {
    hide NextCollector, NextGc, NextReader;
    hide Readable;
    assert u.ticks[p].rows[u.ticks[p].verified] in u.ticks[p].rows;
  }

  lemma BeginStep(w: World, p: Process, id: Identity, limit: nat)
    requires CanTick(w.db, id) && 1 <= limit <= 8 && p !in w.ticks
    ensures var a := w.db.attempts[id.attempt];
            var begun := Tick(id, a.seal, TickRows(a, limit), a.receipts, 0);
            Next(w, TickBegin(p, id, limit)) == w.(ticks := w.ticks[p := begun])
  {
    hide NextCollector, NextGc, NextReader;
    hide TickRows, CurrentOwner;
  }

  lemma CommitStep(u: World, p: Process)
    requires p in u.ticks && u.ticks[p].verified == |u.ticks[p].rows|
    requires CanCommitTick(u.db, u.ticks[p].id, u.ticks[p].token)
    ensures var aid := u.ticks[p].id.attempt;
            var v := Next(u, TickCommit(p));
            v == u.(db := u.db.(attempts :=
                      u.db.attempts[aid := Validate(u.db.attempts[aid], TickDigests(u.ticks[p]))]),
                    ticks := Without(u.ticks, p))
  {
    hide NextCollector, NextGc, NextReader;
    hide Validate, TickDigests, CurrentOwner;
  }

  ghost predicate Reconciled(a: Attempt, b: Attempt, rows: seq<ChunkKey>) {
    && b == a.(validated := b.validated, status := b.status)
    && b.validated.Keys == a.validated.Keys + (set k | k in rows)
    && b.status == (if a.receipts.Keys <= b.validated.Keys then Sealed else Preparing)
  }

  /** Nothing but one attempt's validation and the reconciler's own memory changed. */
  ghost predicate OnlyReconciled(w: World, v: World, aid: AttemptId) {
    && aid in w.db.attempts && aid in v.db.attempts
    && var a, b := w.db.attempts[aid], v.db.attempts[aid];
    && v == w.(db := w.db.(attempts := w.db.attempts[aid := b]), ticks := v.ticks, witnessed := v.witnessed)
    && b == a.(validated := b.validated, status := b.status)
  }

  /** An undisturbed tick validates its rows, and seals the attempt exactly when they were
      the last ones; otherwise the next tick can start. */
  lemma TickProgress(w: World, p: Process, id: Identity, limit: nat)
    requires Inv(w) && CanTick(w.db, id) && 1 <= limit <= 8 && p !in w.ticks
    requires AllReadable(w, id.attempt)
    ensures var a := w.db.attempts[id.attempt];
            var rows := TickRows(a, limit);
            var v := Execute(w, TickRun(p, id, limit, |rows|));
      && id.attempt in v.db.attempts && Reconciled(a, v.db.attempts[id.attempt], rows)
      && OnlyReconciled(w, v, id.attempt) && p !in v.ticks && Inv(v)
  {
    hide Inv, Later, CanTick, TickRows, Readable, AttemptOk;
    CanTickAttempt(w.db, id);
    var a := w.db.attempts[id.attempt];
    var rows := TickRows(a, limit);
    OneAttempt(w, id.attempt);
    TickRowsUnvalidated(a, limit);
    var begin := [TickBegin(p, id, limit)];
    var verify := seq(|rows|, _ => TickVerify(p));
    var commit := [TickCommit(p)];
    BeginStep(w, p, id, limit);
    var b := Next(w, TickBegin(p, id, limit));
    Single(w, TickBegin(p, id, limit));
    VerifyRun(b, p, |rows|);
    var u := Execute(b, verify);
    ExecuteSplit(w, begin, verify);
    ExecuteSplit(w, begin + verify, commit);
    Single(u, TickCommit(p));
    CommitAllowed(w.db, id);
    CommitStep(u, p);
    ValidateRows(a, u.ticks[p]);
    RunKeeps(w, TickRun(p, id, limit, |rows|));
    hide Next;
    assert Execute(w, TickRun(p, id, limit, |rows|)) == Next(u, TickCommit(p));
  }

  lemma Single(w: World, a: Action)
    ensures Execute(w, [a]) == Next(w, a)
  {
    hide Next;
    assert [a][..0] == [];
  }

  lemma CanTickAttempt(db: Db, id: Identity)
    requires CanTick(db, id)
    ensures id.attempt in db.attempts && db.attempts[id.attempt].status == Preparing
    ensures db.attempts[id.attempt].closed
  {
  }

  lemma CommitAllowed(db: Db, id: Identity)
    requires CanTick(db, id)
    ensures id.attempt in db.attempts && CanCommitTick(db, id, db.attempts[id.attempt].seal)
  {
    hide CurrentOwner;
  }

  lemma ValidateRows(a: Attempt, t: Tick)
    requires a.status == Preparing && t.receipts == a.receipts && forall k | k in t.rows :: k in a.receipts
    ensures Reconciled(a, Validate(a, TickDigests(t)), t.rows)
  {
  }

  /** Undisturbed ticks seal a closed attempt whose files can all be read, after at most as
      many ticks as it has unvalidated receipts (and one tick when it has none). */
  lemma {:induction false} DrainSeals(w: World, p: Process, id: Identity, limit: nat)
    returns (actions: seq<Action>, ticks: nat)
    requires Inv(w) && CanTick(w.db, id) && 1 <= limit <= 8 && p !in w.ticks
    requires AllReadable(w, id.attempt)
    ensures var v := Execute(w, actions);
            OnlyReconciled(w, v, id.attempt) && v.db.attempts[id.attempt].status == Sealed
    ensures ticks <= if |Unvalidated(w.db.attempts[id.attempt])| == 0 then 1
                     else |Unvalidated(w.db.attempts[id.attempt])|
    decreases |Unvalidated(w.db.attempts[id.attempt])|
  {
    hide Inv, Later, CanTick, TickRows, AllReadable, AttemptOk, Next, OnlyReconciled, Reconciled, Unvalidated;
    CanTickAttempt(w.db, id);
    var a := w.db.attempts[id.attempt];
    var rows := TickRows(a, limit);
    TickProgress(w, p, id, limit);
    actions := TickRun(p, id, limit, |rows|);
    ticks := 1;
    var v := Execute(w, actions);
    var b := v.db.attempts[id.attempt];
    if b.status != Sealed {
      OneAttempt(w, id.attempt);
      ReceiptsTrue(a);
      TickRowsBound(a, limit);
      TickRowsUnvalidated(a, limit);
      UnvalidatedShrinks(a, b, rows);
      TickAgain(w, v, id, rows);
      var rest, more := DrainSeals(v, p, id, limit);
      ExecuteSplit(w, actions, rest);
      OnlyReconciledTwice(w, v, Execute(v, rest), id.attempt);
      actions := actions + rest;
      ticks := 1 + more;
    }
  }

  lemma OnlyReconciledTwice(u: World, v: World, w: World, aid: AttemptId)
    requires OnlyReconciled(u, v, aid) && OnlyReconciled(v, w, aid)
    ensures OnlyReconciled(u, w, aid)
  {
  }

  lemma ReceiptsTrue(a: Attempt)
    requires AttemptOk(a)
    ensures forall k | k in a.receipts :: ReceiptTrue(a.receipts[k])
  {
    hide ReceiptTrue, Barrier, PlanSealable;
  }

  lemma UnvalidatedShrinks(a: Attempt, b: Attempt, rows: seq<ChunkKey>)
    requires Reconciled(a, b, rows) && b.status != Sealed
    requires Unvalidated(a) != {} ==> rows != []
    requires forall k | k in rows :: k in a.receipts && k !in a.validated
    ensures 0 < |Unvalidated(b)| < |Unvalidated(a)|
  {
    var k :| k in a.receipts && k !in b.validated;
    assert k in Unvalidated(b) && k in Unvalidated(a);
    var done := rows[0];
    assert done in rows;
    assert done in Unvalidated(a);
    var left, was := Unvalidated(b), Unvalidated(a);
    forall x | x in left ensures x in was && x != done {
    }
    hide Unvalidated;
    SubsetSize(left, was - {done});
  }

  lemma TickAgain(w: World, v: World, id: Identity, rows: seq<ChunkKey>)
    requires CanTick(w.db, id) && AllReadable(w, id.attempt)
    requires OnlyReconciled(w, v, id.attempt)
    requires Reconciled(w.db.attempts[id.attempt], v.db.attempts[id.attempt], rows)
    requires v.db.attempts[id.attempt].status != Sealed
    ensures CanTick(v.db, id) && AllReadable(v, id.attempt)
  {
    hide Readable;
  }

  // ---- sealed means verified ------------------------------------------------

  /** In every reachable state, a sealed attempt was closed, and each of its receipts names a
      file that some verification read and found intact. */
  lemma SealedMeansVerified(actions: seq<Action>, aid: AttemptId)
    requires var w := Execute(Initial, actions);
             aid in w.db.attempts && w.db.attempts[aid].status == Sealed
    ensures var w := Execute(Initial, actions);
            var a := w.db.attempts[aid];
      && a.closed && Barrier(a)
      && forall k | k in a.receipts :: a.receipts[k].digest in w.witnessed
  {
    hide Inv, Next, Barrier, PlanSealable;
    var w := Execute(Initial, actions);
    Reachable(actions);
    OneAttempt(w, aid);
    TicksOf(w);
    WitnessedRow(w.db.attempts, w.witnessed, aid);
  }

  /** A digest counts as witnessed only from a step that read its file at its recorded size. */
  lemma WitnessedIsRead(w: World, p: Process, d: Digest)
    requires d in NextTickVerify(w, p).witnessed && d !in w.witnessed
    ensures d in w.files
    ensures p in w.ticks && w.ticks[p].verified < |w.ticks[p].rows|
    ensures var k := w.ticks[p].rows[w.ticks[p].verified];
            k in w.ticks[p].receipts && w.ticks[p].receipts[k].digest == d
            && w.ticks[p].receipts[k].bytes == ByteCount(d)
            && w.ticks[p].receipts[k].points == |d.lines|
  {
  }
}
