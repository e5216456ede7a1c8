/** The export pipeline as one state machine: any number of collectors, reconcilers,
    promoters, garbage collectors, readers and daily reducers, interleaved step by step.
    A step is one database transaction, one file operation, or one critical section of
    the artifact guard; a process can stop between any two of its steps. */
module Pipeline {
  import opened ExportTypes
  import opened Lifecycle
  import opened Heads

  type Process = nat

  /** The reader's shortest possible garbage-collection retention (one hour) and the
      shortest grace (five minutes), in microseconds. */
  const MIN_RETENTION: Time := 3600 * 1000000
  const MIN_GRACE: Time := 300 * 1000000
  const SNAPSHOT_TTL: Time := 15 * 60 * 1000000
  const PRUNE_RETAIN: Time := 6 * 3600 * 1000000
  const LATEST_SNAPSHOTS: nat := 64
  const DAILY_LIMIT: nat := 8
  const EPOCH: Time := 0

  /** One reconcile tick between its two transactions. */
  datatype Tick = Tick(id: Identity, token: Option<Seal>, rows: seq<ChunkKey>,
                       receipts: map<ChunkKey, Receipt>, verified: nat)

  /** One garbage collector.  `seen` is the database its first reference query read, `held`
      its recheck while it is inside the exclusive guard. */
  datatype Gc = Gc(clock: Time, retention: Time, cut: Time, seen: Db,
                   eligible: set<Digest>, held: Option<Recheck>)

  datatype Recheck = Recheck(batch: set<Digest>, live: set<Digest>)

  /** One daily reducer between reading its batch and committing it.  `position` is the
      number of generations applied when the batch was read. */
  datatype Batch = Batch(after: Checkpoint, rows: seq<GenerationId>, position: nat)

  /** `published` and `applied` record the order of publications and of daily
      applications; `confirmed` the snapshots handed to a client, `written` the receipts
      whose file was written, `witnessed` the digests some verification has read. */
  datatype World = World(
    db: Db, files: map<Digest, Time>, time: Time,
    ticks: map<Process, Tick>,
    promotions: map<Process, Promotion>,
    gcs: map<Process, Gc>,
    reducers: map<Process, Batch>,
    confirmed: set<SnapshotId>,
    written: set<(AttemptId, ChunkKey)>,
    witnessed: set<Digest>,
    published: seq<GenerationId>,
    applied: seq<GenerationId>)

  const EmptyDb := Db(map[], map[], map[], map[], map[], map[], None, None, map[], 0)

  const Initial := World(EmptyDb, map[], 1, map[], map[], map[], map[], {}, {}, {}, [], [])

  /** No garbage collector is inside the exclusive guard. */
  predicate GuardFree(w: World) {
    forall q | q in w.gcs :: w.gcs[q].held.None?
  }

  // ---- garbage-collection roots --------------------------------------------

  predicate HasRef(g: Generation, d: Digest) {
    exists i | 0 <= i < |g.refs| :: g.refs[i].digest == d
  }

  predicate After(g: Generation, gid: GenerationId, c: Checkpoint) {
    c.at < g.created || (c.at == g.created && c.generation < gid)
  }

  /** A generation the daily reducer has not passed. */
  predicate Unread(db: Db, gid: GenerationId) {
    gid in db.generations
    && (db.progress.Some? ==> After(db.generations[gid], gid, db.progress.value))
  }

  predicate IsHead(db: Db, gid: GenerationId) {
    exists ns | ns in db.heads :: db.heads[ns].generation == gid
  }

  predicate IsApproved(db: Db, gid: GenerationId) {
    exists k | k in db.inventory :: db.inventory[k] == gid
  }

  function Newer(db: Db, s: SnapshotId): set<SnapshotId>
    requires s in db.snapshots
  {
    set t | t in db.snapshots && db.snapshots[t].order > db.snapshots[s].order
  }

  predicate InSnapshot(db: Db, gid: GenerationId, cutoff: Time) {
    exists s | s in db.snapshots ::
      gid in db.snapshots[s].generations
      && (db.snapshots[s].expires > cutoff || |Newer(db, s)| < LATEST_SNAPSHOTS)
  }

  predicate LiveGeneration(db: Db, gid: GenerationId, cutoff: Time) {
    gid in db.generations
    && (|| IsHead(db, gid)
        || IsApproved(db, gid)
        || db.generations[gid].created > cutoff
        || InSnapshot(db, gid, cutoff)
        || Unread(db, gid))
  }

  predicate Received(a: Attempt, d: Digest) {
    exists k | k in a.receipts :: a.receipts[k].digest == d
  }

  predicate Pinned(a: Attempt, d: Digest) {
    exists k | k in a.pins :: a.pins[k] == d
  }

  /** `live_artifact_digests` at one transaction: must not be deleted. */
  predicate Live(db: Db, cutoff: Time, d: Digest) {
    || (exists g | g in db.generations :: LiveGeneration(db, g, cutoff) && HasRef(db.generations[g], d))
    || (exists a | a in db.attempts :: Pending(db.attempts[a]) && Received(db.attempts[a], d))
    || (exists a | a in db.attempts :: Pinned(db.attempts[a], d))
  }

  // ---- the daily reducer's query -------------------------------------------

  function CheckpointOf(db: Db): Checkpoint {
    if db.progress.Some? then db.progress.value else Checkpoint(EPOCH, 0)
  }

  predicate Before(generations: map<GenerationId, Generation>, g: GenerationId, h: GenerationId)
    requires g in generations && h in generations
  {
    generations[g].created < generations[h].created
    || (generations[g].created == generations[h].created && g < h)
  }

  /** The answer of the keyset query: the next `limit` generations after the checkpoint in
      (created, id) order. */
  predicate NextRows(db: Db, limit: nat, rows: seq<GenerationId>) {
    && |rows| <= limit
    && (forall i | 0 <= i < |rows| ::
          rows[i] in db.generations && After(db.generations[rows[i]], rows[i], CheckpointOf(db)))
    && (forall i, j | 0 <= i < j < |rows| :: Before(db.generations, rows[i], rows[j]))
    && (forall g | g in db.generations && After(db.generations[g], g, CheckpointOf(db)) && g !in rows ::
          |rows| == limit && forall i | 0 <= i < |rows| :: Before(db.generations, rows[i], g))
  }

  // ---- actions -------------------------------------------------------------

  datatype Action =
    | AdvanceClock(now: Time)
    // collector
    | BeginRun(run: RunId, orchestrator: Option<nat>)
    | EndRun(run: RunId, status: RunStatus)
    | BeginAttempt(id: Identity, run: RunId, planned: set<Scope>, dagster: bool,
                   orchestrator: Option<nat>)
    | ClaimScopes(id: Identity)
    | DeclarePolicy(id: Identity, descriptor: Descriptor, listed: bool)
    | BindResponse(id: Identity, response: Response)
    | PlanChunk(id: Identity, key: ChunkKey, row: Expected)
    | Capture(id: Identity, capture: Lifecycle.Capture)
    | WriteFile(attempt: AttemptId, key: ChunkKey)
    | AbandonCapture(id: Identity)
    | CloseOneSource(id: Identity, scope: Scope, keys: set<ChunkKey>)
    | CloseAll(id: Identity)
    // publisher
    | TickBegin(p: Process, id: Identity, limit: nat)
    | TickVerify(p: Process)
    | TickCommit(p: Process)
    | PromotePin(p: Process, id: Identity)
    | PromoteRead(p: Process)
    | PromoteCas(p: Process, generation: GenerationId, stamp: Time, approved: set<Location>)
    | RetireMoved(attempt: AttemptId)
    | RetireEnded(attempt: AttemptId, lost: bool)
    | Reproject(ns: Namespace, approved: set<Location>)
    // garbage collector
    | GcScan(p: Process, retention: Time, grace: Time)
    | GcVisit(p: Process, digest: Digest)
    | GcRecheck(p: Process, batch: set<Digest>)
    | GcUnlink(p: Process, digest: Digest)
    | GcRelease(p: Process)
    // readers
    | Freeze(snapshot: SnapshotId, generations: seq<GenerationId>)
    | Confirm(snapshot: SnapshotId)
    | Renew(snapshot: SnapshotId)
    | Prune(snapshots: set<SnapshotId>)
    // daily reducer
    | DailyRead(p: Process, limit: nat, rows: seq<GenerationId>)
    | DailyCommit(p: Process)
    // a process stops; the operating system frees its locks
    | Crash(p: Process)

  function Without<T>(m: map<Process, T>, p: Process): map<Process, T> {
    map q | q in m && q != p :: m[q]
  }

  function OnDb(w: World, db: Db): World {
    w.(db := db)
  }

  /** The collector's file write, after its receipt committed: under the exclusive guard. */
  function NextWrite(w: World, aid: AttemptId, key: ChunkKey): (v: World)
    ensures v == w.(files := v.files, written := v.written)
  {
    if !GuardFree(w) || aid !in w.db.attempts || key !in w.db.attempts[aid].receipts then w
    else
      w.(files := w.files[w.db.attempts[aid].receipts[key].digest := w.time],
         written := w.written + {(aid, key)})
  }

  function NextTickBegin(w: World, p: Process, id: Identity, limit: nat): (v: World)
    ensures v == w.(ticks := v.ticks)
  {
    if !CanTick(w.db, id) || !(1 <= limit <= 8) || p in w.ticks then w
    else
      var a := w.db.attempts[id.attempt];
      w.(ticks := w.ticks[p := Tick(id, a.seal, TickRows(a, limit), a.receipts, 0)])
  }

  /** One `verify` call; an unreadable file ends the tick. */
  function NextTickVerify(w: World, p: Process): (v: World)
    ensures v == w.(ticks := v.ticks, witnessed := v.witnessed)
  {
    if p !in w.ticks || w.ticks[p].verified >= |w.ticks[p].rows| then w
    else
      var t := w.ticks[p];
      var k := t.rows[t.verified];
      if k in t.receipts && Readable(w.files, ReceiptRef(t.receipts[k]))
      then w.(ticks := w.ticks[p := t.(verified := t.verified + 1)],
              witnessed := w.witnessed + {t.receipts[k].digest})
      else w.(ticks := Without(w.ticks, p))
  }

  function TickDigests(t: Tick): map<ChunkKey, Digest> {
    map k | k in t.rows && k in t.receipts :: t.receipts[k].digest
  }

  function NextTickCommit(w: World, p: Process): (v: World)
    ensures v == w.(db := w.db.(attempts := v.db.attempts), ticks := v.ticks)
  {
    if p !in w.ticks || w.ticks[p].verified != |w.ticks[p].rows| then w
    else
      var t := w.ticks[p];
      w.(db := CommitTick(w.db, t.id, t.token, TickDigests(t)), ticks := Without(w.ticks, p))
  }

  function NextPin(w: World, p: Process, id: Identity): (v: World)
    ensures v == w.(db := w.db.(attempts := v.db.attempts), promotions := v.promotions)
  {
    if !CanPin(w.db, id) || p in w.promotions then w
    else w.(db := Pin(w.db, id), promotions := w.promotions[p := StartPromotion(w.db, id)])
  }

  function NextPromoteRead(w: World, p: Process): (v: World)
    ensures v == w.(promotions := v.promotions)
  {
    if p !in w.promotions || w.promotions[p].read >= |ReadList(w.promotions[p])| then w
    else
      var m := w.promotions[p];
      if Readable(w.files, ReadList(m)[m.read])
      then w.(promotions := w.promotions[p := m.(read := m.read + 1)])
      else w.(promotions := Without(w.promotions, p))
  }

  predicate Wins(w: World, p: Process, gid: GenerationId) {
    && p in w.promotions
    && GuardFree(w)
    && Verified(w.promotions[p])
    && CasOutcome(w.db, w.files, w.promotions[p], gid) == Published
  }

  function NextCas(w: World, p: Process, gid: GenerationId, stamp: Time, approved: set<Location>): World {
    if p !in w.promotions || !GuardFree(w) then w
    else if !Wins(w, p, gid) || stamp <= EPOCH then w.(promotions := Without(w.promotions, p))
    else
      var m := w.promotions[p];
      CasImplies(w, p, gid);
      w.(db := Publish(w.db, m, gid, stamp, approved),
         published := w.published + [gid],
         promotions := Without(w.promotions, p))
  }

  lemma CasImplies(w: World, p: Process, gid: GenerationId)
    requires Wins(w, p, gid)
    ensures w.promotions[p].plan.binding.Some? && w.promotions[p].token.Some?
    ensures w.promotions[p].id.attempt in w.db.attempts
  {
  }

  function NextGcScan(w: World, p: Process, retention: Time, grace: Time): (v: World)
    ensures v == w.(gcs := v.gcs)
  {
    if p in w.gcs || retention < MIN_RETENTION || grace < MIN_GRACE then w
    else w.(gcs := w.gcs[p := Gc(w.time, retention, w.time - grace, w.db, {}, None)])
  }

  /** One directory entry: an old file that the first query did not reference. */
  function NextGcVisit(w: World, p: Process, d: Digest): (v: World)
    ensures v == w.(gcs := v.gcs)
  {
    if || p !in w.gcs || w.gcs[p].held.Some?
       || d !in w.files || w.files[d] >= w.gcs[p].cut
       || Live(w.gcs[p].seen, w.gcs[p].clock - w.gcs[p].retention, d) then w
    else w.(gcs := w.gcs[p := w.gcs[p].(eligible := w.gcs[p].eligible + {d})])
  }

  function NextGcRecheck(w: World, p: Process, batch: set<Digest>): (v: World)
    ensures v == w.(gcs := v.gcs)
  {
    if p !in w.gcs || !GuardFree(w) || !(batch <= w.gcs[p].eligible) then w
    else
      var g := w.gcs[p];
      var live := set d | d in batch && Live(w.db, g.clock - g.retention, d);
      w.(gcs := w.gcs[p := g.(held := Some(Recheck(batch, live)))])
  }

  predicate MayUnlink(w: World, p: Process, d: Digest) {
    && p in w.gcs && w.gcs[p].held.Some?
    && d in w.gcs[p].held.value.batch && d !in w.gcs[p].held.value.live
    && d in w.files && w.files[d] < w.gcs[p].cut
  }

  function NextGcUnlink(w: World, p: Process, d: Digest): (v: World)
    ensures v == w.(files := v.files)
  {
    if !MayUnlink(w, p, d) then w else w.(files := w.files - {d})
  }

  function NextGcRelease(w: World, p: Process): (v: World)
    ensures v == w.(gcs := v.gcs)
  {
    if p !in w.gcs then w else w.(gcs := w.gcs[p := w.gcs[p].(held := None)])
  }

  /** `_freeze`, `_previous_success`, `_capacity_fallback` and their forecast and daily
      forms: a new handle over generations that exist. */
  function NextFreeze(w: World, s: SnapshotId, generations: seq<GenerationId>): (v: World)
    ensures v == w.(db := w.db.(snapshots := v.db.snapshots, issued := v.db.issued), confirmed := v.confirmed)
  {
    if s in w.db.snapshots || !(forall g | g in generations :: g in w.db.generations) then w
    else
      w.(db := w.db.(snapshots := w.db.snapshots[s :=
                       Snapshot(generations, w.time + SNAPSHOT_TTL, w.db.issued)],
                     issued := w.db.issued + 1))
  }

  predicate SnapshotPresent(w: World, s: SnapshotId) {
    && s in w.db.snapshots
    && forall g | g in w.db.snapshots[s].generations ::
         g in w.db.generations && AllPresent(w.files, w.db.generations[g].refs)
  }

  /** `ensure_snapshot_files` returns the handle: all files present, under the shared guard. */
  function NextConfirm(w: World, s: SnapshotId): (v: World)
    ensures v == w.(db := w.db.(snapshots := v.db.snapshots, issued := v.db.issued), confirmed := v.confirmed)
  {
    if !GuardFree(w) || !SnapshotPresent(w, s) then w
    else w.(confirmed := w.confirmed + {s})
  }

  function NextRenew(w: World, s: SnapshotId): (v: World)
    ensures v == w.(db := w.db.(snapshots := v.db.snapshots, issued := v.db.issued), confirmed := v.confirmed)
  {
    if s !in w.db.snapshots || w.db.snapshots[s].expires <= w.time then w
    else
      var row := w.db.snapshots[s];
      w.(db := w.db.(snapshots := w.db.snapshots[s :=
           row.(expires := Max(row.expires, w.time + SNAPSHOT_TTL))]))
  }

  function NextPrune(w: World, victims: set<SnapshotId>): (v: World)
    ensures v == w.(db := w.db.(snapshots := v.db.snapshots, issued := v.db.issued), confirmed := v.confirmed)
  {
    var gone := set s | s in victims && s in w.db.snapshots
                        && w.db.snapshots[s].expires < w.time - PRUNE_RETAIN;
    w.(db := w.db.(snapshots := w.db.snapshots - gone), confirmed := w.confirmed - gone)
  }

  function NextDailyRead(w: World, p: Process, limit: nat, rows: seq<GenerationId>): (v: World)
    ensures v == w.(reducers := v.reducers)
  {
    if p in w.reducers || !(1 <= limit <= DAILY_LIMIT) || rows == [] || !NextRows(w.db, limit, rows) then w
    else w.(reducers := w.reducers[p := Batch(CheckpointOf(w.db), rows, |w.applied|)])
  }

  /** The checkpoint compare-and-swap; a lost race changes nothing. */
  function NextDailyCommit(w: World, p: Process): (v: World)
    ensures v == w.(db := w.db.(progress := v.db.progress), reducers := v.reducers, applied := v.applied)
  {
    if p !in w.reducers then w
    else
      var b := w.reducers[p];
      var rest := w.(reducers := Without(w.reducers, p));
      if CheckpointOf(w.db) != b.after || b.rows == [] || b.rows[|b.rows| - 1] !in w.db.generations then rest
      else
        var last := b.rows[|b.rows| - 1];
        rest.(db := w.db.(progress := Some(Checkpoint(w.db.generations[last].created, last))),
              applied := w.applied + b.rows)
  }

  function NextCrash(w: World, p: Process): (v: World)
    ensures v == w.(ticks := v.ticks, promotions := v.promotions, gcs := v.gcs, reducers := v.reducers)
  {
    w.(ticks := Without(w.ticks, p), promotions := Without(w.promotions, p),
       gcs := Without(w.gcs, p), reducers := Without(w.reducers, p))
  }

  predicate IsCollectorStep(a: Action) {
       a.AdvanceClock? || a.BeginRun? || a.EndRun? || a.BeginAttempt? || a.ClaimScopes?
    || a.DeclarePolicy? || a.BindResponse? || a.PlanChunk? || a.Capture? || a.WriteFile?
    || a.AbandonCapture? || a.CloseOneSource? || a.CloseAll?
  }

  function NextCollector(w: World, a: Action): World {
    match a
    case AdvanceClock(now) => if now < w.time then w else w.(time := now)
    case BeginRun(run, o) => OnDb(w, StartRun(w.db, run, o))
    case EndRun(run, status) => OnDb(w, FinishRun(w.db, run, status))
    case BeginAttempt(id, run, planned, dagster, o) =>
      OnDb(w, CreateAttempt(w.db, id, run, planned, dagster, o))
    case ClaimScopes(id) => OnDb(w, Claim(w.db, id))
    case DeclarePolicy(id, d, listed) => OnDb(w, Declare(w.db, id, d, listed, w.time))
    case BindResponse(id, r) => OnDb(w, Bind(w.db, id, r, w.time))
    case PlanChunk(id, key, row) => OnDb(w, ExpectChunk(w.db, id, key, row))
    case Capture(id, c) => OnDb(w, RecordChunk(w.db, id, c))
    case WriteFile(aid, key) => NextWrite(w, aid, key)
    case AbandonCapture(id) => OnDb(w, FailCapture(w.db, id))
    case CloseOneSource(id, s, keys) => OnDb(w, CloseSource(w.db, id, s, keys))
    case CloseAll(id) => OnDb(w, ClosePlan(w.db, id))
    case _ => w
  }

  predicate IsPublisherStep(a: Action) {
       a.TickBegin? || a.TickVerify? || a.TickCommit? || a.PromotePin? || a.PromoteRead?
    || a.PromoteCas? || a.RetireMoved? || a.RetireEnded? || a.Reproject?
  }

  function NextPublisher(w: World, a: Action): World {
    match a
    case TickBegin(p, id, limit) => NextTickBegin(w, p, id, limit)
    case TickVerify(p) => NextTickVerify(w, p)
    case TickCommit(p) => NextTickCommit(w, p)
    case PromotePin(p, id) => NextPin(w, p, id)
    case PromoteRead(p) => NextPromoteRead(w, p)
    case PromoteCas(p, g, stamp, approved) => NextCas(w, p, g, stamp, approved)
    case RetireMoved(aid) => OnDb(w, RetireSuperseded(w.db, aid))
    case RetireEnded(aid, lost) => OnDb(w, RetireTerminal(w.db, aid, lost))
    case Reproject(ns, approved) => OnDb(w, BootstrapInventory(w.db, ns, approved))
    case _ => w
  }

  predicate IsGcStep(a: Action) {
    a.GcScan? || a.GcVisit? || a.GcRecheck? || a.GcUnlink? || a.GcRelease?
  }

  function NextGc(w: World, a: Action): World {
    match a
    case GcScan(p, retention, grace) => NextGcScan(w, p, retention, grace)
    case GcVisit(p, d) => NextGcVisit(w, p, d)
    case GcRecheck(p, batch) => NextGcRecheck(w, p, batch)
    case GcUnlink(p, d) => NextGcUnlink(w, p, d)
    case GcRelease(p) => NextGcRelease(w, p)
    case _ => w
  }

  predicate IsReaderStep(a: Action) {
    a.Freeze? || a.Confirm? || a.Renew? || a.Prune? || a.DailyRead? || a.DailyCommit? || a.Crash?
  }

  function NextReader(w: World, a: Action): World {
    match a
    case Freeze(s, gs) => NextFreeze(w, s, gs)
    case Confirm(s) => NextConfirm(w, s)
    case Renew(s) => NextRenew(w, s)
    case Prune(ss) => NextPrune(w, ss)
    case DailyRead(p, limit, rows) => NextDailyRead(w, p, limit, rows)
    case DailyCommit(p) => NextDailyCommit(w, p)
    case Crash(p) => NextCrash(w, p)
    case _ => w
  }

  function Next(w: World, a: Action): World {
    if IsCollectorStep(a) then NextCollector(w, a)
    else if IsPublisherStep(a) then NextPublisher(w, a)
    else if IsGcStep(a) then NextGc(w, a)
    else NextReader(w, a)
  }

  /** A run of the whole system: any actions, in any order. */
  function Execute(w: World, actions: seq<Action>): World {
    if actions == [] then w
    else Next(Execute(w, actions[..|actions| - 1]), actions[|actions| - 1])
  }
}
