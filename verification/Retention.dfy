/** The resumable clean-up of expired short forecasts: batches in index order after a key, and a
    position that the next run takes up. */
module Retention {
  import opened ExportTypes

  const SECOND: int := 1000000
  const HEAD_SWEEP_INTERVAL: int := 24 * 3600 * SECOND
  const LAG_ALERT: int := 24 * 3600 * SECOND
  const MAX_BATCHES: nat := 100
  const MAX_BATCH_SIZE: nat := 1000

  /** The index order. */
  datatype Key = Key(validAt: Time, knownAt: Time, valueId: nat)

  predicate Lower(a: Key, b: Key) {
    || a.validAt < b.validAt
    || (a.validAt == b.validAt && (a.knownAt < b.knownAt || (a.knownAt == b.knownAt && a.valueId < b.valueId)))
  }

  predicate After(k: Key, position: Option<Key>) {
    position.None? || Lower(position.value, k)
  }

  /** Rows a batch may choose: expired and after the position. */
  predicate Candidate(k: Key, cutoff: Time, position: Option<Key>) {
    k.validAt < cutoff && After(k, position)
  }

  function Candidates(keys: set<Key>, cutoff: Time, position: Option<Key>): set<Key> {
    set k | k in keys && Candidate(k, cutoff, position)
  }

  predicate IsLeastKey(m: Key, keys: set<Key>) {
    m in keys && forall k | k in keys && k != m :: Lower(m, k)
  }

  lemma LeastKeyExists(keys: set<Key>)
    requires keys != {}
    ensures exists m :: IsLeastKey(m, keys)
  {
    var k :| k in keys;
    assert forall x | x in keys :: x == k || x in keys - {k};
    if keys - {k} == {} {
      assert IsLeastKey(k, keys);
    } else {
      LeastKeyExists(keys - {k});
      var m :| IsLeastKey(m, keys - {k});
      assert IsLeastKey(m, keys) || IsLeastKey(k, keys);
    }
  }

  function LeastKey(keys: set<Key>): (m: Key)
    requires keys != {}
    ensures IsLeastKey(m, keys)
  {
    LeastKeyExists(keys);
    var m :| IsLeastKey(m, keys);
    m
  }

  /** `ORDER BY valid_at, known_at, value_id LIMIT n`. */
  function FirstKeys(keys: set<Key>, n: nat): seq<Key> {
    if n == 0 || keys == {} then []
    else [LeastKey(keys)] + FirstKeys(keys - {LeastKey(keys)}, n - 1)
  }

  ghost predicate Ascending(keys: seq<Key>) {
    forall i, j | 0 <= i < j < |keys| :: Lower(keys[i], keys[j])
  }

  function Min(a: nat, b: nat): nat {
    if a < b then a else b
  }

  lemma {:induction false} FirstKeysCount(keys: set<Key>, n: nat)
    ensures |FirstKeys(keys, n)| == Min(n, |keys|)
  {
    if n > 0 && keys != {} {
      FirstKeysCount(keys - {LeastKey(keys)}, n - 1);
    }
  }

  lemma {:induction false} FirstKeysAre(keys: set<Key>, n: nat)
    ensures Ascending(FirstKeys(keys, n)) && |FirstKeys(keys, n)| <= n
    ensures forall i, j | 0 <= i < j < |FirstKeys(keys, n)| ::
      var a, b := FirstKeys(keys, n)[i], FirstKeys(keys, n)[j];
      || a.validAt < b.validAt
      || (a.validAt == b.validAt && a.knownAt < b.knownAt)
      || (a.validAt == b.validAt && a.knownAt == b.knownAt && a.valueId < b.valueId)
    ensures forall k | k in FirstKeys(keys, n) :: k in keys
    ensures forall k, t | k in keys && k !in FirstKeys(keys, n) && t in FirstKeys(keys, n) :: Lower(t, k)
    ensures |FirstKeys(keys, n)| < n ==> forall k | k in keys :: k in FirstKeys(keys, n)
  {
    if n > 0 && keys != {} {
      var m := LeastKey(keys);
      var rest := FirstKeys(keys - {m}, n - 1);
      FirstKeysAre(keys - {m}, n - 1);
      assert FirstKeys(keys, n) == [m] + rest;
      assert forall i | 0 <= i < |rest| :: rest[i] in rest;
    }
  }

  // ---- one batch ---------------------------------------------------------------

  /** What befalls a batch: it commits, or it is rolled back by a lock or by a statement timeout. */
  datatype Fate = Commits | LockBusy | TimesOut

  datatype Report = Report(matched: nat, deleted: nat, remaining: Option<bool>, deferred: bool,
                           lastKey: Option<Key>, timedOut: bool)

  class Store {
    var keys: set<Key>

    constructor (keys: set<Key>)
      ensures this.keys == keys
    {
      this.keys := keys;
    }

    /** `purge_expired_short_forecast`. */
    method Purge(cutoff: Time, batchSize: nat, dryRun: bool, position: Option<Key>, fate: Fate)
      returns (report: Report)
      requires 1 <= batchSize <= MAX_BATCH_SIZE
      modifies this
      ensures fate != Commits ==>
        keys == old(keys) && report == Report(0, 0, None, true, None, fate == TimesOut)
      ensures fate == Commits ==>
        BatchDone(old(keys), keys, cutoff, position, batchSize, dryRun, report)
    {
      if fate != Commits {
        return Report(0, 0, None, true, None, fate == TimesOut);
      }
      hide BatchDone;
      var rows := FirstKeys(Candidates(keys, cutoff, position), batchSize);
      BatchIsDone(keys, cutoff, position, batchSize, dryRun);
      if rows == [] {
        return Report(0, 0, Some(false), false, None, false);
      }
      var last := rows[|rows| - 1];
      var more := |rows| == batchSize && Candidates(keys, cutoff, Some(last)) != {};
      if !dryRun {
        keys := keys - set k | k in rows;
      }
      report := Report(|rows|, if dryRun then 0 else |rows|, Some(more), false, Some(last), false);
    }
  }

  /** A committed batch takes the first candidates in index order, as many as fit; they are the
      contiguous block up to its last key, and it tells whether anything is left behind them. */
  ghost predicate BatchDone(was: set<Key>, now: set<Key>, cutoff: Time, position: Option<Key>, batchSize: nat,
                            dryRun: bool, r: Report)
  {
    var open := Candidates(was, cutoff, position);
    && !r.deferred && !r.timedOut
    && r.matched == Min(batchSize, |open|) && r.remaining == Some(|open| > batchSize)
    && (r.lastKey.None? <==> open == {})
    && (r.lastKey.Some? ==>
          && r.lastKey.value in open
          && |set k | k in open && !Lower(r.lastKey.value, k)| == r.matched
          && |Candidates(was, cutoff, r.lastKey)| == |open| - r.matched
          && (r.remaining == Some(false) ==> Candidates(was, cutoff, r.lastKey) == {}))
    && now == (if dryRun || r.lastKey.None? then was
               else was - set k | k in open && !Lower(r.lastKey.value, k))
    && r.deleted == (if dryRun then 0 else r.matched) == |was - now|
  }

  lemma BatchIsDone(keys: set<Key>, cutoff: Time, position: Option<Key>, batchSize: nat, dryRun: bool)
    requires batchSize >= 1
    ensures var rows := FirstKeys(Candidates(keys, cutoff, position), batchSize);
      if rows == [] then
        BatchDone(keys, keys, cutoff, position, batchSize, dryRun, Report(0, 0, Some(false), false, None, false))
      else
        var last := rows[|rows| - 1];
        var more := |rows| == batchSize && Candidates(keys, cutoff, Some(last)) != {};
        BatchDone(keys, if dryRun then keys else keys - (set k | k in rows), cutoff, position, batchSize, dryRun,
                  Report(|rows|, if dryRun then 0 else |rows|, Some(more), false, Some(last), false))
  {
    var open := Candidates(keys, cutoff, position);
    var rows := FirstKeys(open, batchSize);
    FirstKeysAre(open, batchSize);
    FirstKeysCount(open, batchSize);
    hide FirstKeys, Candidates;
    assert keys - keys == {};
    if rows == [] {
      assert |open| == 0;
    } else {
      RowsTaken(keys, cutoff, position, batchSize);
      var last := rows[|rows| - 1];
      var left := Candidates(keys, cutoff, Some(last));
      assert |left| == 0 <==> left == {};
    }
  }

  lemma RowsTaken(keys: set<Key>, cutoff: Time, position: Option<Key>, batchSize: nat)
    requires FirstKeys(Candidates(keys, cutoff, position), batchSize) != []
    ensures var open := Candidates(keys, cutoff, position);
      var rows := FirstKeys(open, batchSize);
      var last, taken := rows[|rows| - 1], set k | k in rows;
      && last in open && taken == (set k | k in open && !Lower(last, k)) && |taken| == |rows|
      && |Candidates(keys, cutoff, Some(last))| == |open| - |rows|
      && keys - (keys - taken) == taken
  {
    var open := Candidates(keys, cutoff, position);
    var rows := FirstKeys(open, batchSize);
    FirstKeysAre(open, batchSize);
    BatchBlock(keys, cutoff, position, rows);
    DistinctRows(rows);
    var last, taken := rows[|rows| - 1], set k | k in rows;
    assert last in rows;
    assert Candidates(keys, cutoff, Some(last)) == open - taken;
    assert taken <= open;
  }

  lemma BatchBlock(keys: set<Key>, cutoff: Time, position: Option<Key>, rows: seq<Key>)
    requires rows != [] && Ascending(rows)
    requires forall k | k in rows :: k in Candidates(keys, cutoff, position)
    requires forall k, t | k in Candidates(keys, cutoff, position) && k !in rows && t in rows :: Lower(t, k)
    ensures var last := rows[|rows| - 1];
      && last in keys && Candidate(last, cutoff, position)
      && (forall k | k in keys :: k in rows <==> Candidate(k, cutoff, position) && !Lower(last, k))
      && Candidates(keys, cutoff, Some(last)) == Candidates(keys, cutoff, position) - set k | k in rows
  {
    var last := rows[|rows| - 1];
    assert last in rows;
    forall k | k in keys
      ensures k in rows <==> Candidate(k, cutoff, position) && !Lower(last, k)
    {
      if k in rows {
        assert k in Candidates(keys, cutoff, position);
        var i :| 0 <= i < |rows| && rows[i] == k;
      } else if Candidate(k, cutoff, position) {
        assert k in Candidates(keys, cutoff, position);
      }
    }
  }

  lemma {:induction false} DistinctRows(rows: seq<Key>)
    requires Ascending(rows)
    ensures |set k | k in rows| == |rows|
  {
    if rows != [] {
      var front, last := rows[..|rows| - 1], rows[|rows| - 1];
      DistinctRows(front);
      assert (set k | k in rows) == (set k | k in front) + {last};
      assert forall i | 0 <= i < |front| :: Lower(front[i], last);
    }
  }

  // ---- one run -------------------------------------------------------------------

  datatype Status = BudgetExhausted | Deferred | DryRun | CompleteSnapshot

  datatype Result = Result(position: Option<Key>, matched: nat, deleted: nat, remaining: Option<bool>, status: Status,
                           lag: Option<int>, headTimedOut: bool)

  /** Where a run starts: a position ahead of the cutoff is discarded. */
  function Start(after: Option<Key>, cutoff: Time): Option<Key> {
    if after.Some? && after.value.validAt >= cutoff then None else after
  }

  function Fallback(after: Option<Key>, fallback: Option<Key>, cutoff: Time): Option<Key> {
    if fallback.Some? && (Start(after, cutoff).Some? || fallback.value.validAt >= cutoff) then None else fallback
  }

  /** Everything deleted since `from` is the block of expired keys from there to `position`, and
      `position` is the greatest of them. */
  ghost predicate Block(was: set<Key>, now: set<Key>, cutoff: Time, from: Option<Key>, position: Option<Key>) {
    && now <= was
    && (now == was ==> position == from)
    && (now != was ==>
          && position.Some? && position.value in was - now
          && forall k :: k in was - now <==> k in was && Candidate(k, cutoff, from) && !Lower(position.value, k))
  }

  /** How many batches in a row commit. */
  function Leading(fates: seq<Fate>): nat {
    if fates == [] || fates[0] != Commits then 0 else 1 + Leading(fates[1..])
  }

  /** How many batches a run commits: at most `most`, until one is rolled back; a run from the head
      that times out on its first batch and has somewhere to go on starts over there. */
  function Batches(fates: seq<Fate>, most: nat, timedOut: bool): nat {
    var tried := if |fates| < most then fates else fates[..most];
    Leading(if timedOut && tried != [] then tried[1..] else tried)
  }

  lemma {:induction false} LeadingMore(fates: seq<Fate>, n: nat)
    requires n <= |fates| && forall i | 0 <= i < n :: fates[i] == Commits
    ensures Leading(fates) == n + Leading(fates[n..])
  {
    if n > 0 {
      LeadingMore(fates[1..], n - 1);
      assert fates[1..][n - 1..] == fates[n..];
    } else {
      assert fates[0..] == fates;
    }
  }

  /** The first batch of a run commits. */
  predicate Commences(fates: seq<Fate>) {
    fates != [] && fates[0] == Commits
  }

  /** `backlog_lag_seconds`. */
  function ReportedLag(r: Result, cutoff: Time): Option<int> {
    if r.remaining == Some(false) then Some(0)
    else if r.remaining == Some(true) && r.position.Some? then
      Some(if cutoff - r.position.value.validAt > 0 then cutoff - r.position.value.validAt else 0)
    else None
  }

  /** The reported lag bounds the age of every expired row that is still there after the position. */
  ghost predicate LagBounds(keys: set<Key>, cutoff: Time, r: Result)
    requires r.lag.Some?
  {
    forall k | k in keys && Candidate(k, cutoff, r.position) :: cutoff - k.validAt <= r.lag.value
  }

  /** A committed batch extends the block, and its count adds up. */
  lemma BlockGrows(was: set<Key>, before: set<Key>, now: set<Key>, cutoff: Time, from: Option<Key>,
                   position: Option<Key>, batchSize: nat, r: Report)
    requires Block(was, before, cutoff, from, position)
    requires BatchDone(before, now, cutoff, position, batchSize, false, r)
    ensures Block(was, now, cutoff, from, if r.lastKey.Some? then r.lastKey else position)
    ensures |was - now| == |was - before| + r.deleted
  {
    CountsAdd(was, before, now);
    if r.lastKey.Some? {
      var last := r.lastKey.value;
      LastTaken(before, now, cutoff, position, batchSize, r);
      hide BatchDone;
      forall k
        ensures k in was - now <==> k in was && Candidate(k, cutoff, from) && !Lower(last, k)
      {
        BatchTakes(was, before, now, cutoff, from, position, batchSize, r, k);
      }
    }
  }

  lemma CountsAdd(was: set<Key>, before: set<Key>, now: set<Key>)
    requires now <= before <= was
    ensures |was - now| == |was - before| + |before - now|
  {
    assert was - now == (was - before) + (before - now);
  }

  lemma LastTaken(before: set<Key>, now: set<Key>, cutoff: Time, position: Option<Key>, batchSize: nat, r: Report)
    requires BatchDone(before, now, cutoff, position, batchSize, false, r) && r.lastKey.Some?
    ensures r.lastKey.value in before && r.lastKey.value !in now
  {
  }

  lemma BatchTakes(was: set<Key>, before: set<Key>, now: set<Key>, cutoff: Time, from: Option<Key>,
                   position: Option<Key>, batchSize: nat, r: Report, k: Key)
    requires Block(was, before, cutoff, from, position)
    requires BatchDone(before, now, cutoff, position, batchSize, false, r) && r.lastKey.Some?
    ensures k in was - now <==> k in was && Candidate(k, cutoff, from) && !Lower(r.lastKey.value, k)
  {
    if before != was {
      var p := position.value;
      assert k in was - before <==> k in was && Candidate(k, cutoff, from) && !Lower(p, k);
    }
  }

  /** What the run reads off a committed batch. */
  lemma Committed(was: set<Key>, now: set<Key>, cutoff: Time, position: Option<Key>, batchSize: nat, dryRun: bool,
                  r: Report)
    requires BatchDone(was, now, cutoff, position, batchSize, dryRun, r) && batchSize >= 1
    ensures !r.deferred && r.remaining == Some(|Candidates(was, cutoff, position)| > batchSize)
    ensures now <= was && (dryRun ==> now == was && r.deleted == 0)
    ensures r.matched > 0 <==> |Candidates(was, cutoff, position)| > 0
    ensures r.lastKey.Some? <==> r.matched > 0
    ensures r.lastKey.Some? ==> r.lastKey.value in was && Candidate(r.lastKey.value, cutoff, position)
    ensures !dryRun && r.remaining == Some(false) ==>
      forall k | k in now :: !Candidate(k, cutoff, if r.lastKey.Some? then r.lastKey else position)
  {
    var open := Candidates(was, cutoff, position);
    assert |open| == 0 ==> open == {};
    if r.lastKey.Some? && !dryRun && r.remaining == Some(false) {
      forall k | k in now ensures !Candidate(k, cutoff, r.lastKey) {
        assert k !in Candidates(was, cutoff, r.lastKey);
      }
    }
    if r.lastKey.None? {
      forall k | k in now ensures !Candidate(k, cutoff, position) {
        assert k !in open;
      }
    }
  }

  /** Nothing has been removed yet. */
  lemma NothingYet(keys: set<Key>, cutoff: Time, from: Option<Key>)
    ensures Block(keys, keys, cutoff, from, from) && |keys - keys| == 0
  {
    assert keys - keys == {};
  }

  /** `run_short_forecast_retention`; `fates` says what happens to each batch, and the run's budget
      ends with them. */
  method RunRetention(store: Store, cutoff: Time, dryRun: bool, batchSize: nat, maxBatches: nat,
                      after: Option<Key>, fallback: Option<Key>, fates: seq<Fate>)
    returns (result: Result, ghost from: Option<Key>)
    requires 1 <= batchSize <= MAX_BATCH_SIZE && 1 <= maxBatches <= MAX_BATCHES
    modifies store
    ensures Resumed(after, fallback, cutoff, fates, result.headTimedOut, from)
    ensures !dryRun ==>
      result.deleted == Min(|Candidates(old(store.keys), cutoff, from)|,
                            batchSize * Batches(fates, maxBatches, result.headTimedOut))
    ensures dryRun ==> store.keys == old(store.keys) && result.deleted == 0 && result.position == from
    ensures Block(old(store.keys), store.keys, cutoff, from, result.position)
    ensures result.deleted == |old(store.keys) - store.keys|
    ensures result.lag == ReportedLag(result, cutoff)
    ensures dryRun && Commences(fates) ==>
      from == Start(after, cutoff)
      && result.remaining == Some(|Candidates(old(store.keys), cutoff, from)| > batchSize)
    ensures result.lag.Some? ==>
      (LagBounds(store.keys, cutoff, result) <==>
         !(dryRun && Commences(fates)
           && 0 < |Candidates(old(store.keys), cutoff, Start(after, cutoff))| <= batchSize))
    ensures !dryRun && result.status == CompleteSnapshot ==>
      forall k | k in store.keys :: !Candidate(k, cutoff, result.position)
  {
    hide Block, BatchDone, Candidates, Full, Batches, LagBounds, Whence, Resumed, Leading, Start, Fallback;
    var position := Start(after, cutoff);
    var reserve := Fallback(after, fallback, cutoff);
    from := position;
    var matched: nat, deleted: nat := 0, 0;
    var remaining: Option<bool>, timedOut := None, false;
    var status := BudgetExhausted;
    ghost var was := store.keys;
    NothingYet(was, cutoff, from);
    NextFull(batchSize, 0);
    WhenceStarts(after, fallback, cutoff, fates);
    ReserveAtHead(after, fallback, cutoff);
    var batches := if dryRun then 1 else maxBatches;
    var i := 0;
    ghost var done: nat := 0;
    while i < batches && i < |fates|
      invariant 0 <= i <= batches
      invariant Whence(after, fallback, cutoff, fates, i, timedOut, from, reserve)
      invariant reserve.Some? ==> !timedOut && from.None?
      invariant i > 0 ==> Resumed(after, fallback, cutoff, fates, timedOut, from)
      invariant store.keys <= was && (i == 0 ==> position == from && !timedOut)
      invariant done == i - (if timedOut then 1 else 0)
      invariant !dryRun ==> deleted == Full(batchSize, done)
      invariant !dryRun ==> |Candidates(store.keys, cutoff, position)| + deleted == |Candidates(was, cutoff, from)|
      invariant Block(was, store.keys, cutoff, from, position) && deleted == |was - store.keys|
      invariant dryRun ==> store.keys == was && deleted == 0 && remaining.None? && position == from
      invariant dryRun && Commences(fates) ==> i == 0 && !timedOut
      invariant remaining != Some(false) && status == BudgetExhausted
    {
      ghost var before := store.keys;
      ghost var at := position;
      ghost var fate := fates[i];
      var report := store.Purge(cutoff, batchSize, dryRun, position, fates[i]);
      i := i + 1;
      matched, deleted := matched + report.matched, deleted + report.deleted;
      if report.remaining.Some? || remaining.None? {
        remaining := report.remaining;
      }
      if !dryRun && report.lastKey.Some? {
        position := report.lastKey;
      }
      if fate == Commits {
        Committed(before, store.keys, cutoff, at, batchSize, dryRun, report);
      }
      if report.deferred && reserve.Some? && position.None? && deleted == 0 && report.timedOut {
        SomeFull(batchSize, done);
        WhenceTimesOut(after, fallback, cutoff, fates, from, reserve);
        position, reserve := reserve, None;
        from := position;
        timedOut := true;
        NothingMoved(was, store.keys);
        NothingYet(was, cutoff, from);
        continue;
      }
      if report.deferred {
        WhenceStops(after, fallback, cutoff, fates, i - 1, timedOut, from, reserve);
        status := Deferred;
        break;
      }
      WhenceCommits(after, fallback, cutoff, fates, i - 1, timedOut, from, reserve);
      WhenceEnds(after, fallback, cutoff, fates, i, timedOut, from, reserve);
      if dryRun {
        status := DryRun;
        break;
      }
      NextFull(batchSize, done);
      done := done + 1;
      LeftBehind(before, store.keys, cutoff, at, batchSize, report);
      BlockGrows(was, before, store.keys, cutoff, from, at, batchSize, report);
      if remaining == Some(false) {
        status := CompleteSnapshot;
        break;
      }
      if report.matched == 0 {
        status := Deferred;
        break;
      }
    }
    var lag: Option<int> := None;
    if remaining == Some(false) {
      lag := Some(0);
    } else if remaining == Some(true) && position.Some? {
      lag := Some(if cutoff - position.value.validAt > 0 then cutoff - position.value.validAt else 0);
    }
    result := Result(position, matched, deleted, remaining, status, lag, timedOut);
    if i == 0 {
      WhenceEnds(after, fallback, cutoff, fates, 0, timedOut, from, reserve);
    }
    if !dryRun {
      WhenceDone(after, fallback, cutoff, fates, done + (if timedOut then 1 else 0), timedOut, from, reserve);
      BatchesAre(fates, maxBatches, timedOut, done);
      Scaled(batchSize, done, Batches(fates, maxBatches, timedOut));
    }
    LagIsBound(was, store.keys, cutoff, from, dryRun, batchSize, fates, after, result);
  }

  /** Where a run starts: behind the recorded position if that lies behind the cutoff, otherwise at
      the head; and, when the head could not be read at the first try, at the reserve position. */
  ghost predicate Resumed(after: Option<Key>, fallback: Option<Key>, cutoff: Time, fates: seq<Fate>, timedOut: bool,
                          from: Option<Key>)
  {
    var resumes := after.Some? && after.value.validAt < cutoff;
    && (timedOut <==>
          !resumes && fallback.Some? && fallback.value.validAt < cutoff && fates != [] && fates[0] == TimesOut)
    && from == (if timedOut then fallback else if resumes then after else None)
  }

  /** The same while the run goes on, after `i` batches that committed. */
  ghost predicate Whence(after: Option<Key>, fallback: Option<Key>, cutoff: Time, fates: seq<Fate>, i: nat,
                         timedOut: bool, from: Option<Key>, reserve: Option<Key>)
  {
    var resumes := after.Some? && after.value.validAt < cutoff;
    var usable := !resumes && fallback.Some? && fallback.value.validAt < cutoff;
    && i <= |fates|
    && from == (if timedOut then fallback else if resumes then after else None)
    && (timedOut ==> usable && i >= 1 && fates[0] == TimesOut && reserve.None?)
    && (!timedOut ==> reserve == if usable then fallback else None)
    && (forall j | (if timedOut then 1 else 0) <= j < i :: fates[j] == Commits)
  }

  lemma WhenceStarts(after: Option<Key>, fallback: Option<Key>, cutoff: Time, fates: seq<Fate>)
    ensures Whence(after, fallback, cutoff, fates, 0, false, Start(after, cutoff), Fallback(after, fallback, cutoff))
  {
  }

  lemma ReserveAtHead(after: Option<Key>, fallback: Option<Key>, cutoff: Time)
    ensures Fallback(after, fallback, cutoff).Some? ==> Start(after, cutoff).None?
  {
  }

  lemma WhenceCommits(after: Option<Key>, fallback: Option<Key>, cutoff: Time, fates: seq<Fate>, i: nat,
                      timedOut: bool, from: Option<Key>, reserve: Option<Key>)
    requires Whence(after, fallback, cutoff, fates, i, timedOut, from, reserve) && i < |fates|
    requires fates[i] == Commits
    ensures Whence(after, fallback, cutoff, fates, i + 1, timedOut, from, reserve)
  {
  }

  lemma WhenceTimesOut(after: Option<Key>, fallback: Option<Key>, cutoff: Time, fates: seq<Fate>, from: Option<Key>,
                       reserve: Option<Key>)
    requires Whence(after, fallback, cutoff, fates, 0, false, from, reserve) && reserve.Some?
    requires fates != [] && fates[0] == TimesOut
    ensures Whence(after, fallback, cutoff, fates, 1, true, reserve, None)
    ensures Resumed(after, fallback, cutoff, fates, true, reserve) && reserve == fallback
  {
  }

  /** A batch that is rolled back ends the run, unless it is the head's first time-out. */
  lemma WhenceStops(after: Option<Key>, fallback: Option<Key>, cutoff: Time, fates: seq<Fate>, i: nat,
                    timedOut: bool, from: Option<Key>, reserve: Option<Key>)
    requires Whence(after, fallback, cutoff, fates, i, timedOut, from, reserve) && i < |fates|
    requires fates[i] != Commits && (i == 0 && reserve.Some? ==> fates[0] != TimesOut)
    ensures Resumed(after, fallback, cutoff, fates, timedOut, from)
  {
  }

  lemma WhenceDone(after: Option<Key>, fallback: Option<Key>, cutoff: Time, fates: seq<Fate>, i: nat,
                   timedOut: bool, from: Option<Key>, reserve: Option<Key>)
    requires Whence(after, fallback, cutoff, fates, i, timedOut, from, reserve)
    ensures i <= |fates| && forall j | (if timedOut then 1 else 0) <= j < i :: fates[j] == Commits
  {
  }

  lemma WhenceEnds(after: Option<Key>, fallback: Option<Key>, cutoff: Time, fates: seq<Fate>, i: nat,
                   timedOut: bool, from: Option<Key>, reserve: Option<Key>)
    requires Whence(after, fallback, cutoff, fates, i, timedOut, from, reserve) && (i > 0 || fates == [])
    ensures Resumed(after, fallback, cutoff, fates, timedOut, from)
  {
  }

  /** What that many full batches take. */
  function Full(size: nat, n: nat): nat {
    size * n
  }

  lemma NextFull(size: nat, n: nat)
    ensures Full(size, n + 1) == Full(size, n) + size && Full(size, 0) == 0
  {
  }

  lemma SomeFull(size: nat, n: nat)
    ensures size > 0 && n > 0 ==> Full(size, n) > 0
  {
    if n > 0 {
      assert size * n == size * (n - 1) + size;
    }
  }

  lemma Scaled(size: nat, m: nat, n: nat)
    ensures Full(size, m) == size * m && (m <= n ==> size * m <= size * n)
  {
  }

  /** Where a run reports a lag, and whether it is a bound. */
  lemma LagIsBound(was: set<Key>, now: set<Key>, cutoff: Time, from: Option<Key>, dryRun: bool, batchSize: nat,
                   fates: seq<Fate>, after: Option<Key>, r: Result)
    requires batchSize >= 1 && r.lag == ReportedLag(r, cutoff)
    requires dryRun ==> now == was && r.position == from
    requires dryRun && !Commences(fates) ==> r.remaining.None?
    requires dryRun && Commences(fates) ==>
      from == Start(after, cutoff) && r.remaining == Some(|Candidates(was, cutoff, from)| > batchSize)
    requires !dryRun && r.remaining == Some(false) ==> forall k | k in now :: !Candidate(k, cutoff, r.position)
    ensures r.lag.Some? ==>
      (LagBounds(now, cutoff, r) <==>
         !(dryRun && Commences(fates) && 0 < |Candidates(was, cutoff, Start(after, cutoff))| <= batchSize))
  {
    CandidatesLeft(now, cutoff, r.position);
  }

  /** What is left behind a batch is what it did not take. */
  lemma LeftBehind(was: set<Key>, now: set<Key>, cutoff: Time, position: Option<Key>, batchSize: nat, r: Report)
    requires BatchDone(was, now, cutoff, position, batchSize, false, r)
    ensures r.lastKey.Some? ==>
              |Candidates(now, cutoff, r.lastKey)| == |Candidates(was, cutoff, position)| - r.matched
    ensures r.remaining == Some(true) ==> r.matched == batchSize && r.deleted == batchSize
    ensures r.remaining == Some(false) ==>
              r.matched == |Candidates(was, cutoff, position)| <= batchSize && r.deleted == r.matched
    ensures r.lastKey.None? ==> |Candidates(was, cutoff, position)| == 0
  {
    if r.lastKey.Some? {
      assert Candidates(now, cutoff, r.lastKey) == Candidates(was, cutoff, r.lastKey);
    }
  }

  lemma BatchesAre(fates: seq<Fate>, most: nat, timedOut: bool, done: nat)
    requires var skip := if timedOut then 1 else 0;
      && done + skip <= |fates| && done + skip <= most
      && forall j | skip <= j < done + skip :: fates[j] == Commits
    ensures var skip := if timedOut then 1 else 0;
      && Batches(fates, most, timedOut) >= done
      && (done + skip == |fates| || done + skip == most || fates[done + skip] != Commits ==>
            Batches(fates, most, timedOut) == done)
  {
    var tried := if |fates| < most then fates else fates[..most];
    var rest := if timedOut && tried != [] then tried[1..] else tried;
    LeadingMore(rest, done);
  }

  lemma NothingMoved(was: set<Key>, now: set<Key>)
    requires |was - now| == 0 && now <= was
    ensures now == was
  {
    assert was - now == {};
  }

  lemma CandidatesLeft(keys: set<Key>, cutoff: Time, from: Option<Key>)
    ensures |Candidates(keys, cutoff, from)| > 0 <==> exists k :: k in keys && Candidate(k, cutoff, from)
  {
    var open := Candidates(keys, cutoff, from);
    if |open| > 0 {
      var k :| k in open;
    }
    if k :| k in keys && Candidate(k, cutoff, from) {
      assert k in open;
    }
  }

  /** A dry run that finds all expired rows within one batch reports that there is no lag. */
  method DryRunUnderstates() returns (store: Store, result: Result)
    ensures LagBounds(store.keys, 1, result.(lag := Some(1))) && result.lag == Some(0)
    ensures !LagBounds(store.keys, 1, result)
  {
    var row := Key(0, 0, 0);
    store := new Store({row});
    ghost var from;
    assert Candidates({row}, 1, None) == {row};
    result, from := RunRetention(store, 1, true, 1000, 100, None, None, [Commits]);
  }

  // ---- chained runs ----------------------------------------------------------------

  /** What a run leaves for the next one. */
  datatype Metadata = Metadata(key: Option<Key>, policy: nat, database: Option<nat>, headScanAt: Option<Time>)

  datatype Discard = PolicyChanged | DatabaseChanged | AheadOfCutoff | PeriodicHeadSweep

  datatype Decision = Decision(after: Option<Key>, headScanAt: Option<Time>, discarded: Option<Discard>,
                               fallback: Option<Key>)

  /** `resume_position`. */
  function ResumePosition(previous: Metadata, policy: nat, cutoff: Time, database: Option<nat>, now: Time): Decision {
    if previous.key.None? then Decision(None, None, None, None)
    else if previous.policy != policy then Decision(None, None, Some(PolicyChanged), None)
    else if database.None? || previous.database != database then Decision(None, None, Some(DatabaseChanged), None)
    else if previous.key.value.validAt >= cutoff then Decision(None, None, Some(AheadOfCutoff), None)
    else if previous.headScanAt.None? || now - previous.headScanAt.value >= HEAD_SWEEP_INTERVAL
    then Decision(None, None, Some(PeriodicHeadSweep), previous.key)
    else Decision(previous.key, previous.headScanAt, None, None)
  }

  /** Exactly when a run takes up the recorded position: it was left under the same policy in the same
      database, it lies behind the cutoff, and the last head scan is less than a day old.  When
      only the head scan is due, the position stays in reserve. */
  lemma ResumesExactly(previous: Metadata, policy: nat, cutoff: Time, database: Option<nat>, now: Time)
    ensures var d := ResumePosition(previous, policy, cutoff, database, now);
      var usable := previous.key.Some? && previous.policy == policy && database.Some?
                    && previous.database == database && previous.key.value.validAt < cutoff;
      var recent := previous.headScanAt.Some? && now < previous.headScanAt.value + 24 * 3600 * 1000000;
      && d.after == (if usable && recent then previous.key else None)
      && d.fallback == (if usable && !recent then previous.key else None)
      && d.headScanAt == (if usable && recent then previous.headScanAt else None)
      && (d.discarded.None? <==> previous.key.None? || (usable && recent))
      && (d.discarded == Some(PeriodicHeadSweep) <==> usable && !recent)
  {
  }

  /** One run in a chain: when it ran, against what, and where it ended. */
  datatype Run = Run(now: Time, cutoff: Time, policy: nat, database: Option<nat>, position: Option<Key>)

  /** The head scan time a run records: the one it took over, or its own start. */
  function Recorded(d: Decision, cutoff: Time, now: Time): Option<Time> {
    if Start(d.after, cutoff).Some? then d.headScanAt else Some(now)
  }

  function MetadataAfter(first: Metadata, runs: seq<Run>): Metadata {
    if runs == [] then first
    else
      var r := runs[|runs| - 1];
      var d := ResumePosition(MetadataAfter(first, runs[..|runs| - 1]), r.policy, r.cutoff, r.database, r.now);
      Metadata(r.position, r.policy, r.database, Recorded(d, r.cutoff, r.now))
  }

  function DecisionOf(first: Metadata, runs: seq<Run>, i: nat): Decision
    requires i < |runs|
  {
    ResumePosition(MetadataAfter(first, runs[..i]), runs[i].policy, runs[i].cutoff, runs[i].database, runs[i].now)
  }

  /** The run set out from the head of the index. */
  ghost predicate FromHead(first: Metadata, runs: seq<Run>, i: nat)
    requires i < |runs|
  {
    Start(DecisionOf(first, runs, i).after, runs[i].cutoff).None?
  }

  /** `j` is the last run of the chain that set out from the head, and its time is recorded. */
  ghost predicate LastHeadRun(first: Metadata, runs: seq<Run>, j: nat) {
    && j < |runs| && FromHead(first, runs, j)
    && MetadataAfter(first, runs).headScanAt == Some(runs[j].now)
    && forall i | j < i < |runs| :: !FromHead(first, runs, i)
  }

  lemma PrefixRuns(first: Metadata, runs: seq<Run>, n: nat, i: nat)
    requires i < n <= |runs|
    ensures FromHead(first, runs[..n], i) <==> FromHead(first, runs, i)
  {
    assert runs[..n][..i] == runs[..i] && runs[..n][i] == runs[i];
  }

  /** The head scan time recorded after a chain is the time of its last run from the head. */
  lemma {:induction false} RecordedIsLastHeadRun(first: Metadata, runs: seq<Run>)
    requires first.key.None?
    ensures runs != [] ==> exists j: nat :: LastHeadRun(first, runs, j)
  {
    if runs != [] {
      var n := |runs| - 1;
      RecordedIsLastHeadRun(first, runs[..n]);
      LastRecorded(first, runs);
      if FromHead(first, runs, n) {
        assert LastHeadRun(first, runs, n);
      } else {
        hide FromHead, MetadataAfter;
        var j: nat :| LastHeadRun(first, runs[..n], j);
        forall i: nat | i < n ensures FromHead(first, runs[..n], i) <==> FromHead(first, runs, i) {
          PrefixRuns(first, runs, n, i);
        }
        assert LastHeadRun(first, runs, j);
      }
    }
  }

  /** A run from the head records its own time, another one what it took over; and a run without a
      position to take over starts from the head. */
  lemma LastRecorded(first: Metadata, runs: seq<Run>)
    requires runs != []
    ensures var n := |runs| - 1;
      && (FromHead(first, runs, n) ==> MetadataAfter(first, runs).headScanAt == Some(runs[n].now))
      && (!FromHead(first, runs, n) ==>
            MetadataAfter(first, runs).headScanAt == MetadataAfter(first, runs[..n]).headScanAt)
      && (!FromHead(first, runs, n) && first.key.None? ==> runs[..n] != [])
  {
    var n := |runs| - 1;
    var previous := MetadataAfter(first, runs[..n]);
    ResumesFrom(previous, runs[n].policy, runs[n].cutoff, runs[n].database, runs[n].now);
    assert MetadataAfter(first, []) == first;
    hide ResumePosition;
  }

  /** A position to resume from is the recorded one, with its head scan time. */
  lemma ResumesFrom(previous: Metadata, policy: nat, cutoff: Time, database: Option<nat>, now: Time)
    ensures var d := ResumePosition(previous, policy, cutoff, database, now);
            d.after.Some? ==> previous.key.Some? && d.headScanAt == previous.headScanAt
  {
  }

  /** Over runs chained through the recorded position, a run that resumes does so less than 24
      hours after an earlier run of the chain that set out from the head; so 24 hours after the
      last head scan the next run starts from the head. */
  lemma HeadScannedWithinADay(first: Metadata, runs: seq<Run>, i: nat)
    requires first.key.None? && i < |runs|
    ensures !FromHead(first, runs, i) ==>
      exists j :: 0 <= j < i && LastHeadRun(first, runs[..i], j)
                  && runs[i].now - runs[j].now < 24 * 3600 * 1000000
    ensures forall j | 0 <= j < i && LastHeadRun(first, runs[..i], j)
                       && runs[i].now - runs[j].now >= 24 * 3600 * 1000000 :: FromHead(first, runs, i)
  {
    if !FromHead(first, runs, i) {
      assert runs[..i + 1][..i] == runs[..i];
      RecordedIsLastHeadRun(first, runs[..i]);
      assert runs[..i] != [];
      var j: nat :| LastHeadRun(first, runs[..i], j);
      assert runs[..i][j] == runs[j];
    }
  }

  // ---- falling behind ---------------------------------------------------------------

  /** `lag_stall_runs`. */
  function LagStallRuns(before: Option<int>, prior: nat, remaining: Option<bool>, lag: Option<int>): nat {
    if remaining != Some(true) || lag.None? || lag.value <= LAG_ALERT then 0
    else if before.Some? && lag.value < before.value then 0
    else prior + 1
  }

  /** What a run reports of its backlog. */
  datatype Backlog = Backlog(remaining: Option<bool>, lag: Option<int>)

  function StallsAfter(runs: seq<Backlog>): nat {
    if runs == [] then 0
    else
      LagStallRuns(if |runs| > 1 then runs[|runs| - 2].lag else None, StallsAfter(runs[..|runs| - 1]),
                   runs[|runs| - 1].remaining, runs[|runs| - 1].lag)
  }

  /** Run `i` left rows behind, more than a day late, and not less late than the run before it. */
  predicate Stalled(runs: seq<Backlog>, i: nat)
    requires i < |runs|
  {
    && runs[i].remaining == Some(true) && runs[i].lag.Some? && runs[i].lag.value > 24 * 3600 * 1000000
    && (i > 0 && runs[i - 1].lag.Some? ==> runs[i].lag.value >= runs[i - 1].lag.value)
  }

  /** Over any chain of runs the count is the number of stalled runs at its end: the last `n` runs
      all stalled, and the one before them did not. */
  lemma {:induction false} StallMeansNoProgress(runs: seq<Backlog>)
    ensures var n := StallsAfter(runs);
      && n <= |runs|
      && (forall i | |runs| - n <= i < |runs| :: Stalled(runs, i))
      && (n < |runs| ==> !Stalled(runs, |runs| - n - 1))
  {
    if runs != [] {
      var front := runs[..|runs| - 1];
      StallMeansNoProgress(front);
      assert forall i | 0 <= i < |front| :: Stalled(front, i) <==> Stalled(runs, i);
    }
  }
}
