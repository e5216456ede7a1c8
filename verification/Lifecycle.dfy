/** The transactions of one export attempt before it is published: create, claim,
    declare, bind, plan chunks, record receipts, close, reconcile and retire.

    Each function is one committed transaction over the database; a refused request
    returns the database unchanged.  Row locks are the atomicity of the function. */
module Lifecycle {
  import opened ExportTypes

  // ---- ownership -----------------------------------------------------------

  predicate HoldsEpochs(owners: map<Scope, Ownership>, aid: AttemptId,
                        epochs: map<Scope, nat>, scopes: set<Scope>)
  {
    forall s | s in scopes ::
      s in epochs && s in owners && owners[s] == Ownership(epochs[s], aid)
  }

  /** `_current_owners` for the whole attempt. */
  predicate CurrentOwner(db: Db, aid: AttemptId) {
    aid in db.attempts &&
    var a := db.attempts[aid];
    && a.epochs.Some?
    && a.epochs.value != map[]
    && a.epochs.value.Keys == a.planned
    && HoldsEpochs(db.owners, aid, a.epochs.value, a.planned)
  }

  /** `_current_owners` with selected sources. */
  predicate CurrentOwnerOf(db: Db, aid: AttemptId, scopes: set<Scope>) {
    aid in db.attempts &&
    var a := db.attempts[aid];
    && a.epochs.Some?
    && a.epochs.value != map[]
    && scopes != {}
    && HoldsEpochs(db.owners, aid, a.epochs.value, scopes)
  }

  /** Every claimed scope has moved on to a larger epoch and another attempt. */
  predicate SupersededOwner(db: Db, aid: AttemptId) {
    aid in db.attempts &&
    var a := db.attempts[aid];
    && a.epochs.Some?
    && a.epochs.value != map[]
    && a.epochs.value.Keys == a.planned
    && forall s | s in a.planned ::
         s in db.owners && db.owners[s].epoch > a.epochs.value[s] && db.owners[s].active != aid
  }

  /** `_locked`: the run and the attempt exist and belong to the caller. */
  predicate Locked(db: Db, id: Identity) {
    && id.attempt in db.attempts
    && db.attempts[id.attempt].run in db.runs
    && db.attempts[id.attempt].owner == id.owner
    && db.attempts[id.attempt].orchestrator == db.runs[db.attempts[id.attempt].run].orchestrator
  }

  function RunOf(db: Db, aid: AttemptId): Run
    requires aid in db.attempts && db.attempts[aid].run in db.runs
  {
    db.runs[db.attempts[aid].run]
  }

  /** A run that is still collecting into an attempt that is still preparing. */
  predicate Collecting(db: Db, id: Identity) {
    && Locked(db, id)
    && RunOf(db, id.attempt).status == Running
    && db.attempts[id.attempt].status == Preparing
  }

  /** The receipts of a pending attempt are garbage-collection roots. */
  predicate Pending(a: Attempt) {
    a.status != Failed && a.published.None?
  }

  predicate HasGeneration(db: Db, aid: AttemptId) {
    exists g | g in db.generations :: db.generations[g].attempt == aid
  }

  // ---- runs and attempts ---------------------------------------------------

  function StartRun(db: Db, run: RunId, orchestrator: Option<nat>): (after: Db)
    ensures after == db.(runs := after.runs)
  {
    if run in db.runs then db
    else db.(runs := db.runs[run := Run(Running, orchestrator)])
  }

  /** `finish_sync_run`: a conditional update, so only a running run moves. */
  function FinishRun(db: Db, run: RunId, status: RunStatus): (after: Db)
    ensures after == db.(runs := after.runs)
  {
    if run !in db.runs || db.runs[run].status != Running then db
    else db.(runs := db.runs[run := db.runs[run].(status := status)])
  }

  function FreshAttempt(owner: OwnerToken, run: RunId, planned: set<Scope>, dagster: bool,
                        orchestrator: Option<nat>): Attempt
  {
    Attempt(run, owner, planned, dagster, orchestrator, None, 0, false, None, Preparing, None,
            None, map[], map[], map[], map[], map[])
  }

  /** `create_export_attempt`. */
  function CreateAttempt(db: Db, id: Identity, run: RunId, planned: set<Scope>, dagster: bool,
                         orchestrator: Option<nat>): (after: Db)
    ensures after == db.(attempts := after.attempts)
  {
    if || id.attempt in db.attempts
       || planned == {} || |planned| > MAX_PLANNED_SOURCES
       || run !in db.runs || db.runs[run].status != Running
       || (dagster && (orchestrator.None? || db.runs[run].orchestrator != orchestrator))
       || (!dagster && (orchestrator.Some? || db.runs[run].orchestrator.Some?))
    then db
    else
      db.(attempts := db.attempts[id.attempt :=
        FreshAttempt(id.owner, run, planned, dagster, db.runs[run].orchestrator)])
  }

  // ---- claim ---------------------------------------------------------------

  predicate CanClaim(db: Db, id: Identity) {
    && Collecting(db, id)
    && db.attempts[id.attempt].epochs.None?
    && db.attempts[id.attempt].receipts == map[]
  }

  function NextEpoch(owners: map<Scope, Ownership>, s: Scope): nat {
    if s in owners then owners[s].epoch + 1 else 1
  }

  /** `INSERT ... ON CONFLICT DO UPDATE SET owner_epoch = owner_epoch + 1`. */
  function ClaimedOwners(owners: map<Scope, Ownership>, scopes: set<Scope>, aid: AttemptId)
    : map<Scope, Ownership>
  {
    owners + map s | s in scopes :: Ownership(NextEpoch(owners, s), aid)
  }

  function Claim(db: Db, id: Identity): (after: Db)
    ensures after == db.(attempts := after.attempts, owners := after.owners)
  {
    if !CanClaim(db, id) then db
    else
      var a := db.attempts[id.attempt];
      db.(owners := ClaimedOwners(db.owners, a.planned, id.attempt),
          attempts := db.attempts[id.attempt :=
            a.(epochs := Some(map s | s in a.planned :: NextEpoch(db.owners, s)))])
  }

  // ---- declare and bind ----------------------------------------------------

  predicate CanDeclare(db: Db, id: Identity, descriptor: Descriptor) {
    && Collecting(db, id)
    && CurrentOwner(db, id.attempt)
    && db.attempts[id.attempt].planned == {descriptor.scope}
    && db.attempts[id.attempt].plan.None?
    && db.attempts[id.attempt].expected == map[]
    && descriptor.locations != {}
  }

  /** `declare`; `listed` says whether the catalog agrees with the selected locations. */
  function Declare(db: Db, id: Identity, descriptor: Descriptor, listed: bool, now: Time): (after: Db)
    ensures after == db.(attempts := after.attempts)
  {
    if !CanDeclare(db, id, descriptor) || !listed then db
    else
      var a := db.attempts[id.attempt];
      db.(attempts := db.attempts[id.attempt := a.(plan := Some(Plan(descriptor, now, None)))])
  }

  /** A source response replayed through the provider's normalizer. */
  datatype Response = Response(
    scope: Scope, input: nat, fetched: Time, revision: Time, points: seq<Point>)

  predicate CanBind(db: Db, id: Identity, response: Response, now: Time) {
    && Collecting(db, id)
    && CurrentOwner(db, id.attempt)
    && var a := db.attempts[id.attempt];
    && a.plan.Some?
    && a.plan.value.declaredAt <= response.fetched <= now
    && a.plan.value.descriptor.scope == response.scope
    && response.points != [] && |response.points| <= MAX_FORECAST_POINTS
    && response.revision <= response.fetched
    && !(a.plan.value.descriptor in db.heads
         && db.heads[a.plan.value.descriptor].generation in db.generations
         && |response.points| * 2
            < db.generations[db.heads[a.plan.value.descriptor].generation].count)
    && a.plan.value.binding.None?
    && a.expected == map[]
  }

  function BindingOf(response: Response): Binding {
    Binding(response.revision, response.input, response.fetched,
            |response.points|, SemanticBag(response.points))
  }

  /** `bind_kma_response`, `bind_external_response` and `bind_mid_response`. */
  function Bind(db: Db, id: Identity, response: Response, now: Time): (after: Db)
    ensures after == db.(attempts := after.attempts)
  {
    if !CanBind(db, id, response, now) then db
    else
      var a := db.attempts[id.attempt];
      db.(attempts := db.attempts[id.attempt :=
        a.(plan := Some(a.plan.value.(binding := Some(BindingOf(response)))))])
  }

  // ---- chunk plan and receipts ---------------------------------------------

  predicate CanExpect(db: Db, id: Identity, key: ChunkKey, row: Expected) {
    && Collecting(db, id)
    && CurrentOwnerOf(db, id.attempt, row.scopes)
    && var a := db.attempts[id.attempt];
    && !a.closed
    && row.scopes <= a.planned
    && |row.scopes| <= MAX_CHUNK_SOURCES
    && row.inputCount <= MAX_CHUNK_POINTS
    && key !in a.expected
    && |a.expected| < MAX_EXPECTED_CHUNKS
    && a.references + |row.scopes| <= MAX_PLAN_REFERENCES
    && a.closures.Keys !! row.scopes
  }

  function ExpectChunk(db: Db, id: Identity, key: ChunkKey, row: Expected): (after: Db)
    ensures after == db.(attempts := after.attempts)
  {
    if !CanExpect(db, id, key, row) then db
    else
      var a := db.attempts[id.attempt];
      db.(attempts := db.attempts[id.attempt :=
        a.(expected := a.expected[key := row], references := a.references + |row.scopes|)])
  }

  function Total(counts: map<Scope, nat>, scopes: set<Scope>): nat
    requires scopes <= counts.Keys
  {
    if scopes == {} then 0
    else var s := Least(scopes); counts[s] + Total(counts, scopes - {s})
  }

  /** What the collector hands to `record_export_chunk`: the canonical values of one source
      record (`source` is its input digest), and the file of those points that were stored.  A
      value that has already expired when it arrives is not stored, so the file may hold fewer. */
  datatype Capture = Capture(
    run: RunId, key: ChunkKey, covered: set<Scope>, source: nat, values: seq<SemanticPoint>,
    digest: Digest, counts: Option<map<Scope, nat>>, collected: Time, inputCount: nat, inputDigest: nat)

  const NOWCAST: nat := 0

  /** `validate_head_capture`, for an attempt with a declared policy: the values are those of the
      bound record, within the selection; a nowcast takes all of them at once, a forecast some of
      them, none twice. */
  predicate HeadCapture(plan: Plan, c: Capture) {
    var d := plan.descriptor;
    plan.binding.Some? && var b := plan.binding.value;
    && c.source == b.input && c.collected == b.collected
    && (forall v | v in c.values :: v.key.provider == d.provider && v.key.dataset == d.dataset
          && v.key.style == d.style && v.key.location in d.locations)
    && (if d.style == NOWCAST
        then && (forall v | v in c.values :: v.key.target == b.revision)
             && |c.values| == b.count && multiset(c.values) == b.normalization
        else && c.values != [] && (forall i, j | 0 <= i < j < |c.values| :: c.values[i] != c.values[j])
             && (forall v | v in c.values :: v in b.normalization))
  }

  function ReceiptOf(c: Capture): Receipt {
    Receipt(c.digest, ByteCount(c.digest), |c.digest.lines|, c.covered, c.counts, c.collected)
  }

  /** `validate_planned_capture`. */
  predicate PlannedCapture(db: Db, aid: AttemptId, c: Capture) {
    && CurrentOwnerOf(db, aid, c.covered)
    && c.key in db.attempts[aid].expected
    && db.attempts[aid].expected[c.key] == Expected(c.covered, c.inputCount, c.inputDigest)
    && c.counts.Some?
  }

  predicate CanRecord(db: Db, id: Identity, c: Capture) {
    && id.attempt in db.attempts
    && var a := db.attempts[id.attempt];
    && a.owner == id.owner && a.run == c.run
    && a.status == Preparing && !a.closed
    && (a.plan.Some? ==> HeadCapture(a.plan.value, c))
    && (a.epochs.Some? ==> PlannedCapture(db, id.attempt, c))
    && c.covered != {} && c.covered <= a.planned
    && (c.counts.Some? ==>
          c.counts.value.Keys == c.covered
          && Total(c.counts.value, c.covered) == |c.digest.lines|)
    && ByteCount(c.digest) <= MAX_CHUNK_BYTES
    && |c.digest.lines| <= MAX_CHUNK_POINTS
    && c.key !in a.receipts
  }

  /** `record_export_chunk`; the row commits before the file is written. */
  function RecordChunk(db: Db, id: Identity, c: Capture): (after: Db)
    ensures after == db.(attempts := after.attempts)
  {
    if !CanRecord(db, id, c) then db
    else
      var a := db.attempts[id.attempt];
      db.(attempts := db.attempts[id.attempt :=
        a.(receipts := a.receipts[c.key := ReceiptOf(c)])])
  }

  /** `_fail_export_capture`. */
  function FailCapture(db: Db, id: Identity): (after: Db)
    ensures after == db.(attempts := after.attempts)
  {
    if || id.attempt !in db.attempts || db.attempts[id.attempt].owner != id.owner
       || db.attempts[id.attempt].status != Preparing
    then db
    else
      db.(attempts := db.attempts[id.attempt := db.attempts[id.attempt].(status := Failed)])
  }

  // ---- closing -------------------------------------------------------------

  predicate CanCloseSource(db: Db, id: Identity, s: Scope, keys: set<ChunkKey>) {
    && keys != {} && |keys| <= MAX_EXPECTED_CHUNKS
    && Collecting(db, id)
    && CurrentOwnerOf(db, id.attempt, {s})
    && var a := db.attempts[id.attempt];
    && !a.closed && s in a.planned
    && (forall k | k in keys :: k in a.expected && s in a.expected[k].scopes)
    && s !in a.closures
  }

  function CloseSource(db: Db, id: Identity, s: Scope, keys: set<ChunkKey>): (after: Db)
    ensures after == db.(attempts := after.attempts)
  {
    if !CanCloseSource(db, id, s, keys) then db
    else
      var a := db.attempts[id.attempt];
      db.(attempts := db.attempts[id.attempt := a.(closures := a.closures[s := keys])])
  }

  /** The chunks whose plan names source `s`. */
  function ChunksCovering(expected: map<ChunkKey, Expected>, s: Scope): set<ChunkKey> {
    set k | k in expected && s in expected[k].scopes
  }

  /** Canonical points recorded for source `s` by the chunks in `keys`. */
  function Admitted(receipts: map<ChunkKey, Receipt>, keys: set<ChunkKey>, s: Scope): nat
    requires keys <= receipts.Keys
  {
    if keys == {} then 0
    else
      var k := Least(keys);
      var counts := receipts[k].counts;
      (if counts.Some? && s in counts.value then counts.value[s] else 0)
      + Admitted(receipts, keys - {k}, s)
  }

  /** The completeness barrier of `close_plan`: receipts match the planned chunks one to
      one, every planned source is closed with exactly the chunks covering it, no point
      belongs to an unplanned source, and every planned source has at least one point. */
  predicate Barrier(a: Attempt) {
    && a.expected != map[]
    && a.receipts.Keys == a.expected.Keys
    && a.closures.Keys == a.planned
    && (forall k | k in a.expected :: a.expected[k].scopes <= a.planned)
    && (forall s | s in a.planned :: a.closures[s] == ChunksCovering(a.expected, s))
    && (forall k | k in a.receipts ::
          a.receipts[k].counts.Some? ==> a.receipts[k].counts.value.Keys <= a.planned)
    && (forall s | s in a.planned :: Admitted(a.receipts, a.receipts.Keys, s) > 0)
  }

  function SealOf(a: Attempt): Seal {
    Seal(a.plan, a.planned, a.epochs, a.expected, a.receipts)
  }

  /** `seal_head_plan` refuses a declared plan that was never bound. */
  predicate PlanSealable(a: Attempt) {
    a.plan.Some? ==> a.plan.value.binding.Some?
  }

  predicate CanClosePlan(db: Db, id: Identity) {
    && Collecting(db, id)
    && CurrentOwner(db, id.attempt)
    && var a := db.attempts[id.attempt];
    && !a.closed && Barrier(a) && PlanSealable(a)
  }

  function ClosePlan(db: Db, id: Identity): (after: Db)
    ensures after == db.(attempts := after.attempts)
  {
    if !CanClosePlan(db, id) then db
    else
      var a := db.attempts[id.attempt];
      db.(attempts := db.attempts[id.attempt := a.(closed := true, seal := Some(SealOf(a)))])
  }

  // ---- reconcile -----------------------------------------------------------

  /** Receipts not yet validated. */
  function Unvalidated(a: Attempt): set<ChunkKey> {
    a.receipts.Keys - a.validated.Keys
  }

  function BytesOf(receipts: map<ChunkKey, Receipt>, keys: seq<ChunkKey>): nat
    requires forall k | k in keys :: k in receipts
  {
    if keys == [] then 0
    else BytesOf(receipts, keys[..|keys| - 1]) + receipts[keys[|keys| - 1]].bytes
  }

  const TICK_BYTES: nat := 2 * MAX_CHUNK_BYTES

  /** The longest prefix of `keys`, from `n` rows on, that stays within the tick bound. */
  function BoundedPrefix(receipts: map<ChunkKey, Receipt>, keys: seq<ChunkKey>, n: nat): nat
    requires n <= |keys|
    requires forall k | k in keys :: k in receipts
    decreases |keys| - n
  {
    if n == |keys| || BytesOf(receipts, keys[..n]) + receipts[keys[n]].bytes > TICK_BYTES then n
    else BoundedPrefix(receipts, keys, n + 1)
  }

  function FirstRows(keys: seq<ChunkKey>, limit: nat): seq<ChunkKey> {
    if |keys| <= limit then keys else keys[..limit]
  }

  /** The rows one reconcile tick checks: the first unvalidated receipts in key order,
      at most `limit` of them, cut at the tick's byte bound. */
  function TickRows(a: Attempt, limit: nat): seq<ChunkKey>
  {
    SortedKeysSorts(Unvalidated(a));
    var all := SortedKeys(Unvalidated(a));
    var rows := FirstRows(all, limit);
    assert forall k | k in rows :: k in all;
    rows[..BoundedPrefixInRange(a.receipts, rows)]
  }

  function BoundedPrefixInRange(receipts: map<ChunkKey, Receipt>, keys: seq<ChunkKey>): (n: nat)
    requires forall k | k in keys :: k in receipts
    ensures n <= |keys|
  {
    BoundedPrefixBound(receipts, keys, 0);
    BoundedPrefix(receipts, keys, 0)
  }

  lemma {:induction false} BoundedPrefixBound(receipts: map<ChunkKey, Receipt>,
                                              keys: seq<ChunkKey>, n: nat)
    requires n <= |keys|
    requires forall k | k in keys :: k in receipts
    ensures n <= BoundedPrefix(receipts, keys, n) <= |keys|
    decreases |keys| - n
  {
    if n < |keys| && BytesOf(receipts, keys[..n]) + receipts[keys[n]].bytes <= TICK_BYTES {
      BoundedPrefixBound(receipts, keys, n + 1);
    }
  }

  /** First transaction of `reconcile`: whether there are rows to check. */
  predicate CanTick(db: Db, id: Identity) {
    && Locked(db, id)
    && CurrentOwner(db, id.attempt)
    && RunOf(db, id.attempt).status == Success
    && db.attempts[id.attempt].closed
    && db.attempts[id.attempt].status == Preparing
  }

  /** Second transaction of `reconcile`, after every row of `rows` verified. */
  predicate CanCommitTick(db: Db, id: Identity, token: Option<Seal>) {
    && Locked(db, id)
    && CurrentOwner(db, id.attempt)
    && RunOf(db, id.attempt).status == Success
    && db.attempts[id.attempt].status != Failed
    && db.attempts[id.attempt].seal == token
  }

  function Validate(a: Attempt, rows: map<ChunkKey, Digest>): Attempt {
    var validated := rows + a.validated;
    a.(validated := validated,
       status := if a.status == Preparing && a.receipts.Keys <= validated.Keys then Sealed
                 else a.status)
  }

  function CommitTick(db: Db, id: Identity, token: Option<Seal>, rows: map<ChunkKey, Digest>): (after: Db)
    ensures after == db.(attempts := after.attempts)
  {
    if !CanCommitTick(db, id, token) then db
    else
      db.(attempts := db.attempts[id.attempt := Validate(db.attempts[id.attempt], rows)])
  }

  // ---- retirement ----------------------------------------------------------

  function Retired(a: Attempt): Attempt {
    a.(status := Failed, pins := map[])
  }

  /** SUPERSEDED: the shared predicate of the single and the bulk path. */
  function RetireSuperseded(db: Db, aid: AttemptId): (after: Db)
    ensures after == db.(attempts := after.attempts)
  {
    if !SupersededOwner(db, aid) || !Pending(db.attempts[aid]) || HasGeneration(db, aid) then db
    else db.(attempts := db.attempts[aid := Retired(db.attempts[aid])])
  }

  /** CONFIRMED_TERMINAL: the source run failed, or its orchestrator run did (`lost`). */
  function RetireTerminal(db: Db, aid: AttemptId, lost: bool): (after: Db)
    ensures after == db.(attempts := after.attempts, runs := after.runs)
  {
    if || aid !in db.attempts || db.attempts[aid].run !in db.runs
       || !Pending(db.attempts[aid]) || HasGeneration(db, aid)
       || !(RunOf(db, aid).status in {Rejected, Abandoned}
            || (lost && db.attempts[aid].dagster))
    then db
    else
      var ended := if RunOf(db, aid).status == Running then FinishRun(db, db.attempts[aid].run, Rejected)
                   else db;
      ended.(attempts := db.attempts[aid := Retired(db.attempts[aid])])
  }
}
