/** What the rows of every reachable attempt satisfy: the limits and agreements that the single
    transactions check before they write. */
module AttemptLimits {
  import opened ExportTypes
  import opened Lifecycle
  import opened Heads
  import opened Pipeline
  import opened PipelineFrames
  import opened PipelineInvariant
  import opened PipelineAttempts
  import opened PipelineSteps

  // ---- the rows of one attempt ------------------------------------------------

  /** How many references the plan rows make: one for each source of each chunk. */
  ghost function References(expected: map<ChunkKey, Expected>, keys: set<ChunkKey>): nat
    requires keys <= expected.Keys
  {
    if keys == {} then 0
    else var k := Least(keys); |expected[k].scopes| + References(expected, keys - {k})
  }

  ghost predicate PlanRow(r: Expected, planned: set<Scope>) {
    r.scopes != {} && r.scopes <= planned && |r.scopes| <= 256 && r.inputCount <= 5000
  }

  /** At most ten thousand planned chunks with fifty thousand references between them. */
  ghost predicate PlanLimits(a: Attempt) {
    && a.planned != {} && |a.planned| <= 10000
    && (a.dagster <==> a.orchestrator.Some?)
    && (forall k | k in a.expected :: PlanRow(a.expected[k], a.planned))
    && |a.expected| <= 10000
    && a.references == References(a.expected, a.expected.Keys) <= 50000
  }

  /** A receipt counts its points source by source, and repeats what was planned. */
  ghost predicate ReceiptRow(a: Attempt, k: ChunkKey)
    requires k in a.receipts
  {
    var r := a.receipts[k];
    && r.covered != {} && r.covered <= a.planned
    && r.points <= 5000 && r.bytes <= 8 * 1024 * 1024
    && (r.counts.Some? ==> r.counts.value.Keys == r.covered && Total(r.counts.value, r.covered) == r.points)
    && (a.epochs.Some? ==> r.counts.Some? && k in a.expected && a.expected[k].scopes == r.covered)
    && (a.plan.Some? ==> a.plan.value.binding.Some? && r.collected == a.plan.value.binding.value.collected)
  }

  ghost predicate ClosureRow(a: Attempt, s: Scope)
    requires s in a.closures
  {
    && s in a.planned && a.closures[s] != {}
    && forall k | k in a.closures[s] :: k in a.expected && s in a.expected[k].scopes
  }

  /** Plan rows, closures and a declared policy exist only after the claim; a policy is declared
      for one source, before any chunk is planned, and its response was fetched after that. */
  ghost predicate PolicyRow(a: Attempt) {
    && (a.epochs.None? ==> a.plan.None? && a.expected == map[] && a.closures == map[])
    && (a.plan.Some? ==>
          && a.planned == {a.plan.value.descriptor.scope} && a.plan.value.descriptor.locations != {}
          && (a.plan.value.binding.Some? ==> BoundRow(a.plan.value)))
  }

  ghost predicate BoundRow(p: Plan)
    requires p.binding.Some?
  {
    var b := p.binding.value;
    p.declaredAt <= b.collected && b.revision <= b.collected && 0 < b.count <= 100000 && |b.normalization| == b.count
  }

  ghost predicate WithinLimits(a: Attempt) {
    && PlanLimits(a) && PolicyRow(a)
    && (forall k | k in a.receipts :: ReceiptRow(a, k))
    && (forall s | s in a.closures :: ClosureRow(a, s))
  }

  ghost predicate InvLimits(w: World) {
    forall a | a in w.db.attempts :: WithinLimits(w.db.attempts[a])
  }

  // ---- the transactions -------------------------------------------------------

  lemma SameLimits(a: Attempt, b: Attempt)
    requires WithinLimits(a)
    requires (b.planned, b.dagster, b.orchestrator, b.epochs, b.references, b.plan, b.expected, b.receipts, b.closures)
          == (a.planned, a.dagster, a.orchestrator, a.epochs, a.references, a.plan, a.expected, a.receipts, a.closures)
    ensures WithinLimits(b)
  {
    hide PlanLimits, PolicyRow;
    assert PlanLimits(b) by { SamePlanLimits(a, b); }
    assert PolicyRow(b) by { SamePolicy(a, b); }
    forall k | k in b.receipts ensures ReceiptRow(b, k) { assert ReceiptRow(a, k); }
    forall s | s in b.closures ensures ClosureRow(b, s) { assert ClosureRow(a, s); }
  }

  lemma SamePlanLimits(a: Attempt, b: Attempt)
    requires PlanLimits(a)
    requires (b.planned, b.dagster, b.orchestrator, b.references, b.expected)
          == (a.planned, a.dagster, a.orchestrator, a.references, a.expected)
    ensures PlanLimits(b)
  {
  }

  lemma SamePolicy(a: Attempt, b: Attempt)
    requires PolicyRow(a)
    requires (b.planned, b.epochs, b.plan, b.expected, b.closures)
          == (a.planned, a.epochs, a.plan, a.expected, a.closures)
    ensures PolicyRow(b)
  {
  }

  lemma {:induction false} ReferencesApart(was: map<ChunkKey, Expected>, now: map<ChunkKey, Expected>,
                                           keys: set<ChunkKey>)
    requires keys <= was.Keys && keys <= now.Keys && forall k | k in keys :: was[k] == now[k]
    ensures References(was, keys) == References(now, keys)
  {
    if keys != {} {
      ReferencesApart(was, now, keys - {Least(keys)});
    }
  }

  lemma {:induction false} ReferencesSplit(expected: map<ChunkKey, Expected>, keys: set<ChunkKey>, k: ChunkKey)
    requires keys <= expected.Keys && k in keys
    ensures References(expected, keys) == |expected[k].scopes| + References(expected, keys - {k})
  {
    var m := Least(keys);
    if m != k {
      ReferencesSplit(expected, keys - {m}, k);
      ReferencesSplit(expected, keys - {k}, m);
      assert keys - {m} - {k} == keys - {k} - {m};
    }
  }

  lemma PlanOneMore(a: Attempt, key: ChunkKey, row: Expected)
    requires PlanLimits(a) && key !in a.expected && PlanRow(row, a.planned)
    requires |a.expected| < 10000 && a.references + |row.scopes| <= 50000
    ensures PlanLimits(a.(expected := a.expected[key := row], references := a.references + |row.scopes|))
  {
    var now := a.expected[key := row];
    ReferencesSplit(now, now.Keys, key);
    assert now.Keys - {key} == a.expected.Keys;
    ReferencesApart(a.expected, now, a.expected.Keys);
    assert |now| == |a.expected| + 1;
  }

  lemma ExpectLimits(db: Db, id: Identity, key: ChunkKey, row: Expected)
    requires CanExpect(db, id, key, row) && WithinLimits(db.attempts[id.attempt])
    ensures WithinLimits(ExpectChunk(db, id, key, row).attempts[id.attempt])
  {
    var a := db.attempts[id.attempt];
    var b := ExpectChunk(db, id, key, row).attempts[id.attempt];
    assert row.scopes != {} && a.epochs.Some?;
    hide PlanLimits, CurrentOwnerOf, ReceiptRow, ClosureRow;
    PlanOneMore(a, key, row);
    RowsOneMore(a, b, key, row);
  }

  lemma RowsOneMore(a: Attempt, b: Attempt, key: ChunkKey, row: Expected)
    requires b == a.(expected := b.expected, references := b.references)
    requires key !in a.expected && b.expected == a.expected[key := row]
    requires (forall k | k in a.receipts :: ReceiptRow(a, k)) && forall s | s in a.closures :: ClosureRow(a, s)
    ensures (forall k | k in b.receipts :: ReceiptRow(b, k)) && forall s | s in b.closures :: ClosureRow(b, s)
  {
    hide Total;
    forall k | k in b.receipts ensures ReceiptRow(b, k) { assert ReceiptRow(a, k); }
    forall s | s in b.closures ensures ClosureRow(b, s) { assert ClosureRow(a, s); }
  }

  lemma RecordLimits(db: Db, id: Identity, c: Lifecycle.Capture)
    requires CanRecord(db, id, c) && WithinLimits(db.attempts[id.attempt])
    ensures WithinLimits(RecordChunk(db, id, c).attempts[id.attempt])
  {
    var a := db.attempts[id.attempt];
    var b := RecordChunk(db, id, c).attempts[id.attempt];
    hide PlanLimits, Total, CurrentOwnerOf;
    SamePlanLimits(a, b);
    SamePolicy(a, b);
    forall k | k in b.receipts ensures ReceiptRow(b, k) {
      if k != c.key { assert ReceiptRow(a, k); }
    }
    forall s | s in b.closures ensures ClosureRow(b, s) { assert ClosureRow(a, s); }
  }

  lemma SourceLimits(db: Db, id: Identity, scope: Scope, keys: set<ChunkKey>)
    requires CanCloseSource(db, id, scope, keys) && WithinLimits(db.attempts[id.attempt])
    ensures WithinLimits(CloseSource(db, id, scope, keys).attempts[id.attempt])
  {
    var a := db.attempts[id.attempt];
    var b := CloseSource(db, id, scope, keys).attempts[id.attempt];
    assert a.epochs.Some?;
    hide PlanLimits, Total, CurrentOwnerOf;
    SamePlanLimits(a, b);
    forall k | k in b.receipts ensures ReceiptRow(b, k) { assert ReceiptRow(a, k); }
    forall s | s in b.closures ensures ClosureRow(b, s) {
      if s != scope { assert ClosureRow(a, s); }
    }
  }

  lemma CreateLimits(db: Db, id: Identity, run: RunId, planned: set<Scope>, dagster: bool, o: Option<nat>)
    requires CreateAttempt(db, id, run, planned, dagster, o) != db
    ensures id.attempt in CreateAttempt(db, id, run, planned, dagster, o).attempts
    ensures WithinLimits(CreateAttempt(db, id, run, planned, dagster, o).attempts[id.attempt])
  {
  }

  lemma ClaimLimits(db: Db, id: Identity)
    requires CanClaim(db, id) && WithinLimits(db.attempts[id.attempt])
    ensures WithinLimits(Claim(db, id).attempts[id.attempt])
  {
    var a := db.attempts[id.attempt];
    var b := Claim(db, id).attempts[id.attempt];
    hide PlanLimits;
    SamePlanLimits(a, b);
  }

  lemma DeclareLimits(db: Db, id: Identity, d: Descriptor, at: Time)
    requires CanDeclare(db, id, d) && WithinLimits(db.attempts[id.attempt])
    ensures WithinLimits(Declare(db, id, d, true, at).attempts[id.attempt])
  {
    var a := db.attempts[id.attempt];
    var b := Declare(db, id, d, true, at).attempts[id.attempt];
    hide PlanLimits, CurrentOwner;
    OwnerClaimed(db, id);
    SamePlanLimits(a, b);
    NoReceipts(a);
    forall s | s in b.closures ensures ClosureRow(b, s) { assert ClosureRow(a, s); }
  }

  /** Of a claimed attempt nothing is recorded that was not planned. */
  lemma NoReceipts(a: Attempt)
    requires WithinLimits(a) && a.epochs.Some? && a.expected == map[]
    ensures a.receipts == map[]
  {
    hide PlanLimits, PolicyRow, Total;
    forall k | k in a.receipts ensures k in a.expected { PlannedReceipt(a, k); }
    assert a.receipts.Keys <= a.expected.Keys;
  }

  lemma PlannedReceipt(a: Attempt, k: ChunkKey)
    requires WithinLimits(a) && a.epochs.Some? && k in a.receipts
    ensures k in a.expected
  {
    hide PlanLimits, PolicyRow, Total;
    assert ReceiptRow(a, k);
  }

  lemma OwnerClaimed(db: Db, id: Identity)
    ensures CurrentOwner(db, id.attempt) ==> id.attempt in db.attempts && db.attempts[id.attempt].epochs.Some?
  {
  }

  lemma {:induction false} BagCount(lines: seq<Point>)
    ensures |SemanticBag(lines)| == |lines|
  {
    if lines != [] { BagCount(lines[..|lines| - 1]); }
  }

  lemma BindLimits(db: Db, id: Identity, r: Response, at: Time)
    requires CanBind(db, id, r, at) && WithinLimits(db.attempts[id.attempt])
    ensures WithinLimits(Bind(db, id, r, at).attempts[id.attempt])
  {
    var a := db.attempts[id.attempt];
    var b := Bind(db, id, r, at).attempts[id.attempt];
    hide PlanLimits, CurrentOwner, SemanticBag;
    OwnerClaimed(db, id);
    BagCount(r.points);
    SamePlanLimits(a, b);
    NoReceipts(a);
    forall s | s in b.closures ensures ClosureRow(b, s) { assert ClosureRow(a, s); }
  }

  // ---- every step, every run ------------------------------------------------------

  /** At most one attempt's row changes, and only fields no limit looks at. */
  ghost predicate Untouched(was: map<AttemptId, Attempt>, now: map<AttemptId, Attempt>) {
    forall a | a in now :: a in was && SameRows(was[a], now[a])
  }

  ghost predicate SameRows(a: Attempt, b: Attempt) {
    (b.planned, b.dagster, b.orchestrator, b.epochs, b.references, b.plan, b.expected, b.receipts, b.closures)
    == (a.planned, a.dagster, a.orchestrator, a.epochs, a.references, a.plan, a.expected, a.receipts, a.closures)
  }

  lemma UntouchedKeeps(w: World, v: World)
    requires InvLimits(w) && Untouched(w.db.attempts, v.db.attempts)
    ensures InvLimits(v)
  {
    hide WithinLimits;
    forall a | a in v.db.attempts ensures WithinLimits(v.db.attempts[a]) {
      SameLimits(w.db.attempts[a], v.db.attempts[a]);
    }
  }

  lemma OneRow(w: World, v: World, aid: AttemptId)
    requires InvLimits(w) && aid in v.db.attempts && WithinLimits(v.db.attempts[aid])
    requires v.db.attempts == w.db.attempts[aid := v.db.attempts[aid]]
    ensures InvLimits(v)
  {
    hide WithinLimits;
  }

  lemma CreateKeeps(w: World, id: Identity, run: RunId, planned: set<Scope>, dagster: bool, o: Option<nat>)
    requires InvLimits(w)
    ensures InvLimits(OnDb(w, CreateAttempt(w.db, id, run, planned, dagster, o)))
  {
    hide WithinLimits;
    if CreateAttempt(w.db, id, run, planned, dagster, o) != w.db {
      CreateLimits(w.db, id, run, planned, dagster, o);
      OneRow(w, OnDb(w, CreateAttempt(w.db, id, run, planned, dagster, o)), id.attempt);
    }
  }

  lemma ClaimKeeps(w: World, id: Identity)
    requires InvLimits(w)
    ensures InvLimits(OnDb(w, Claim(w.db, id)))
  {
    hide WithinLimits, ClaimedOwners, NextEpoch;
    if CanClaim(w.db, id) {
      ClaimLimits(w.db, id);
      OneRow(w, OnDb(w, Claim(w.db, id)), id.attempt);
    }
  }

  lemma DeclareKeeps(w: World, id: Identity, d: Descriptor, listed: bool)
    requires InvLimits(w)
    ensures InvLimits(OnDb(w, Declare(w.db, id, d, listed, w.time)))
  {
    hide WithinLimits, CurrentOwner;
    if CanDeclare(w.db, id, d) && listed {
      DeclareLimits(w.db, id, d, w.time);
      OneRow(w, OnDb(w, Declare(w.db, id, d, listed, w.time)), id.attempt);
    }
  }

  lemma BindKeeps(w: World, id: Identity, r: Response)
    requires InvLimits(w)
    ensures InvLimits(OnDb(w, Bind(w.db, id, r, w.time)))
  {
    hide WithinLimits, CurrentOwner, BindingOf;
    if CanBind(w.db, id, r, w.time) {
      BindLimits(w.db, id, r, w.time);
      OneRow(w, OnDb(w, Bind(w.db, id, r, w.time)), id.attempt);
    }
  }

  lemma ExpectKeeps(w: World, id: Identity, key: ChunkKey, row: Expected)
    requires InvLimits(w)
    ensures InvLimits(OnDb(w, ExpectChunk(w.db, id, key, row)))
  {
    hide WithinLimits, CurrentOwnerOf;
    if CanExpect(w.db, id, key, row) {
      ExpectLimits(w.db, id, key, row);
      OneRow(w, OnDb(w, ExpectChunk(w.db, id, key, row)), id.attempt);
    }
  }

  lemma RecordKeeps(w: World, id: Identity, c: Lifecycle.Capture)
    requires InvLimits(w)
    ensures InvLimits(OnDb(w, RecordChunk(w.db, id, c)))
  {
    hide WithinLimits, PlannedCapture, HeadCapture, ReceiptOf;
    if CanRecord(w.db, id, c) {
      RecordLimits(w.db, id, c);
      OneRow(w, OnDb(w, RecordChunk(w.db, id, c)), id.attempt);
    }
  }

  lemma SourceKeeps(w: World, id: Identity, s: Scope, keys: set<ChunkKey>)
    requires InvLimits(w)
    ensures InvLimits(OnDb(w, CloseSource(w.db, id, s, keys)))
  {
    hide WithinLimits, CurrentOwnerOf;
    if CanCloseSource(w.db, id, s, keys) {
      SourceLimits(w.db, id, s, keys);
      OneRow(w, OnDb(w, CloseSource(w.db, id, s, keys)), id.attempt);
    }
  }

  predicate IsChunkStep(a: Action) {
    a.PlanChunk? || a.Capture? || a.AbandonCapture? || a.CloseOneSource? || a.CloseAll?
  }

  lemma ChunksKeep(w: World, a: Action)
    requires InvLimits(w) && IsChunkStep(a)
    ensures InvLimits(Next(w, a))
  {
    hide NextPublisher, NextGc, NextReader, InvLimits, Untouched, ExpectChunk, RecordChunk, FailCapture,
         CloseSource, ClosePlan;
    match a
    case PlanChunk(id, key, row) => ExpectKeeps(w, id, key, row);
    case Capture(id, c) => RecordKeeps(w, id, c);
    case CloseOneSource(id, s, keys) => SourceKeeps(w, id, s, keys);
    case AbandonCapture(id) =>
      FailRows(w.db, id);
      UntouchedKeeps(w, Next(w, a));
    case CloseAll(id) =>
      CloseRows(w.db, id);
      UntouchedKeeps(w, Next(w, a));
  }

  lemma OpeningKeeps(w: World, a: Action)
    requires InvLimits(w) && IsCollectorStep(a) && !IsChunkStep(a)
    ensures InvLimits(Next(w, a))
  {
    hide NextPublisher, NextGc, NextReader, InvLimits, Untouched, StartRun, FinishRun, CreateAttempt, Claim,
         Declare, Bind, NextWrite;
    SameTable(w.db.attempts);
    match a
    case BeginAttempt(id, run, planned, dagster, o) => CreateKeeps(w, id, run, planned, dagster, o);
    case ClaimScopes(id) => ClaimKeeps(w, id);
    case DeclarePolicy(id, d, listed) => DeclareKeeps(w, id, d, listed);
    case BindResponse(id, r) => BindKeeps(w, id, r);
    case AdvanceClock(now) => UntouchedKeeps(w, Next(w, a));
    case BeginRun(run, o) => UntouchedKeeps(w, Next(w, a));
    case EndRun(run, status) => UntouchedKeeps(w, Next(w, a));
    case WriteFile(aid, key) => UntouchedKeeps(w, Next(w, a));
  }

  lemma FailRows(db: Db, id: Identity)
    ensures Untouched(db.attempts, FailCapture(db, id).attempts)
  {
  }

  lemma CloseRows(db: Db, id: Identity)
    ensures Untouched(db.attempts, ClosePlan(db, id).attempts)
  {
    hide CanClosePlan, SealOf;
    if CanClosePlan(db, id) { ClosingIsThere(db, id); }
  }

  lemma ClosingIsThere(db: Db, id: Identity)
    ensures CanClosePlan(db, id) ==> id.attempt in db.attempts
  {
  }

  lemma CommitRows(db: Db, id: Identity, token: Option<Seal>, rows: map<ChunkKey, Digest>)
    ensures Untouched(db.attempts, CommitTick(db, id, token, rows).attempts)
  {
    hide CurrentOwner;
  }

  lemma RetireRows(db: Db, aid: AttemptId, lost: bool)
    ensures Untouched(db.attempts, RetireSuperseded(db, aid).attempts)
    ensures Untouched(db.attempts, RetireTerminal(db, aid, lost).attempts)
  {
    hide HasGeneration;
  }

  lemma PinRowsOnly(w: World, p: Process, id: Identity)
    ensures Untouched(w.db.attempts, NextPin(w, p, id).db.attempts)
  {
    hide Receipts, ReceiptBytes, PinRows, ParentRefs, StartPromotion, CurrentOwner;
  }

  lemma CasRowsOnly(w: World, p: Process, gid: GenerationId, stamp: Time, approved: set<Location>)
    ensures Untouched(w.db.attempts, NextCas(w, p, gid, stamp, approved).db.attempts)
  {
    hide Wins, NewGeneration, NewHead, Approve, GuardFree;
    if p in w.promotions && GuardFree(w) && Wins(w, p, gid) {
      CasImplies(w, p, gid);
    }
  }

  lemma PublisherKeeps(w: World, a: Action)
    requires IsPublisherStep(a)
    ensures Untouched(w.db.attempts, Next(w, a).db.attempts)
  {
    if IsPromotionStep(a) {
      hide Next, Untouched, NextPin, NextCas, ReadList, Readable;
      PromotionCase(w, a);
      if a.PromotePin? {
        PinRowsOnly(w, a.p, a.id);
      } else if a.PromoteRead? {
        SameTable(w.db.attempts);
      } else {
        CasRowsOnly(w, a.p, a.generation, a.stamp, a.approved);
      }
    } else {
      hide Next, Untouched;
      ReconcilerRows(w, a);
    }
  }

  lemma ReconcilerRows(w: World, a: Action)
    requires IsPublisherStep(a) && !IsPromotionStep(a)
    ensures Untouched(w.db.attempts, Next(w, a).db.attempts)
  {
    hide NextCollector, NextGc, NextReader, Untouched, NextTickBegin, NextTickVerify, NextTickCommit, NextPin,
         NextPromoteRead, NextCas, RetireSuperseded, RetireTerminal, BootstrapInventory;
    SameTable(w.db.attempts);
    match a
    case TickCommit(p) => TickRowsOnly(w, p);
    case RetireMoved(aid) => RetireRows(w.db, aid, false);
    case RetireEnded(aid, lost) => RetireRows(w.db, aid, lost);
    case _ =>
  }

  lemma TickRowsOnly(w: World, p: Process)
    ensures Untouched(w.db.attempts, NextTickCommit(w, p).db.attempts)
  {
    hide Untouched, CommitTick, TickDigests;
    SameTable(w.db.attempts);
    if p in w.ticks { CommitRows(w.db, w.ticks[p].id, w.ticks[p].token, TickDigests(w.ticks[p])); }
  }

  lemma SameTable(attempts: map<AttemptId, Attempt>)
    ensures Untouched(attempts, attempts)
  {
  }

  lemma NextKeepsLimits(w: World, a: Action)
    requires InvLimits(w)
    ensures InvLimits(Next(w, a))
  {
    hide Next, InvLimits, Without;
    if IsChunkStep(a) {
      ChunksKeep(w, a);
    } else if IsCollectorStep(a) {
      OpeningKeeps(w, a);
    } else if IsPublisherStep(a) {
      PublisherKeeps(w, a);
      UntouchedKeeps(w, Next(w, a));
    } else {
      if IsGcStep(a) { GcFrame(w, a); } else { ReaderFrame(w, a); }
      UntouchedKeeps(w, Next(w, a));
    }
  }

  lemma {:induction false} RunKeepsLimits(w: World, actions: seq<Action>)
    requires InvLimits(w)
    ensures InvLimits(Execute(w, actions))
  {
    hide Next, InvLimits;
    if actions != [] {
      RunKeepsLimits(w, actions[..|actions| - 1]);
      NextKeepsLimits(Execute(w, actions[..|actions| - 1]), actions[|actions| - 1]);
    }
  }

  /** A sealed attempt with a declared policy passes every check of the pin transaction except the
      ownership and the size of the promotion: at most 64 chunks of together 128 MiB. */
  lemma SealedPinsExactly(actions: seq<Action>, id: Identity)
    requires var db := Execute(Initial, actions).db;
      id.attempt in db.attempts && db.attempts[id.attempt].status == Sealed && db.attempts[id.attempt].plan.Some?
    ensures var db := Execute(Initial, actions).db;
      var a := db.attempts[id.attempt];
      CanPin(db, id) <==> Locked(db, id) && CurrentOwner(db, id.attempt) && |a.receipts| <= 64
                          && ReceiptBytes(Receipts(a.receipts)) <= 128 * 1024 * 1024
  {
    hide Next, Inv, WithinLimits, Receipts, ReceiptBytes, CurrentOwner, AttemptOk, Locked;
    var w := Execute(Initial, actions);
    ReachableLimits(actions, id.attempt);
    Reachable(actions);
    OneAttempt(w, id.attempt);
    SealedRows(w.db.attempts[id.attempt]);
  }

  lemma SealedRow(a: Attempt, k: ChunkKey)
    requires k in a.receipts && ReceiptRow(a, k) && a.plan.Some? && a.planned == {a.plan.value.descriptor.scope}
    ensures a.plan.value.binding.Some?
    ensures a.receipts[k].covered == {a.plan.value.descriptor.scope}
    ensures a.receipts[k].collected == a.plan.value.binding.value.collected
  {
    hide Total;
    var s :| s in a.receipts[k].covered;
  }

  lemma SealedRows(a: Attempt)
    requires WithinLimits(a) && AttemptOk(a) && a.status == Sealed && a.plan.Some?
    ensures a.plan.value.binding.Some? && a.receipts != map[]
    ensures forall k | k in a.receipts ::
              a.receipts[k].covered == {a.plan.value.descriptor.scope}
              && a.receipts[k].collected == a.plan.value.binding.value.collected
  {
    hide PlanLimits, Total, ReceiptTrue, ReceiptRow;
    forall k | k in a.receipts
      ensures a.receipts[k].covered == {a.plan.value.descriptor.scope}
      ensures a.receipts[k].collected == a.plan.value.binding.value.collected
    {
      SealedRow(a, k);
    }
  }

  /** Every attempt of every reachable state stays within its limits. */
  lemma ReachableLimits(actions: seq<Action>, aid: AttemptId)
    requires aid in Execute(Initial, actions).db.attempts
    ensures WithinLimits(Execute(Initial, actions).db.attempts[aid])
  {
    hide Next, WithinLimits;
    RunKeepsLimits(Initial, actions);
  }
}
