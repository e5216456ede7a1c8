/** What every reachable state of the pipeline satisfies, and what no step ever undoes.
    Each predicate takes only the tables it speaks about, so a step that leaves those
    tables alone keeps it without further proof. */
module PipelineInvariant {
  import opened ExportTypes
  import opened Lifecycle
  import opened Heads
  import opened Pipeline

  // ---- one attempt ---------------------------------------------------------

  ghost predicate ReceiptTrue(r: Receipt) {
    && r.bytes == ByteCount(r.digest) <= MAX_CHUNK_BYTES
    && r.points == |r.digest.lines| <= MAX_CHUNK_POINTS
  }

  ghost predicate AttemptOk(a: Attempt) {
    && a.planned != {}
    && (a.epochs.Some? ==> a.epochs.value.Keys == a.planned)
    && (a.closed <==> a.seal.Some?)
    && (a.closed ==> a.epochs.Some? && a.seal == Some(SealOf(a)) && Barrier(a) && PlanSealable(a))
    && (a.status == Sealed ==> a.closed && a.receipts.Keys <= a.validated.Keys)
    && (a.published.Some? ==> a.status == Sealed)
    && (forall k | k in a.receipts :: ReceiptTrue(a.receipts[k]))
    && (forall k | k in a.validated :: k in a.receipts && a.validated[k] == a.receipts[k].digest)
  }

  ghost predicate KeepsRows<K, V>(was: map<K, V>, now: map<K, V>) {
    forall k | k in was :: k in now && now[k] == was[k]
  }

  /** Nothing covered by the seal changes once the plan is closed; claimed epochs and a
      bound plan never change; rows are only added; a terminal status is final. */
  ghost predicate AttemptLater(a: Attempt, b: Attempt) {
    && (b.run, b.owner, b.planned, b.dagster, b.orchestrator)
       == (a.run, a.owner, a.planned, a.dagster, a.orchestrator)
    && (a.epochs.Some? ==> b.epochs == a.epochs)
    && (a.plan.Some? ==> b.plan.Some? && b.plan.value.descriptor == a.plan.value.descriptor)
    && (a.plan.Some? && a.plan.value.binding.Some? ==> b.plan == a.plan)
    && (a.closed ==> b.closed && b.seal == a.seal && SealOf(b) == SealOf(a) && b.closures == a.closures)
    && KeepsRows(a.expected, b.expected)
    && KeepsRows(a.receipts, b.receipts)
    && KeepsRows(a.validated, b.validated)
    && (a.status == Failed ==> b.status == Failed)
    && (a.status == Sealed ==> b.status != Preparing)
    && (a.published.Some? ==> b.published == a.published)
    && (!Pending(a) ==> !Pending(b))
  }

  ghost predicate InvAttempts(attempts: map<AttemptId, Attempt>) {
    forall a | a in attempts :: AttemptOk(attempts[a])
  }

  ghost predicate ScopeClaim(aid: AttemptId, epoch: nat, o: Ownership) {
    o.epoch >= epoch && (o.epoch == epoch <==> o.active == aid)
  }

  /** A claimed scope is still owned at the claimed epoch, or has moved on for good. */
  ghost predicate InvOwners(attempts: map<AttemptId, Attempt>, owners: map<Scope, Ownership>) {
    forall a, s | a in attempts && attempts[a].epochs.Some? && s in attempts[a].epochs.value ::
      s in owners && ScopeClaim(a, attempts[a].epochs.value[s], owners[s])
  }

  // ---- generations and heads -----------------------------------------------

  /** The files of a generation hold exactly the bound points, each once, and cover
      exactly the declared locations. */
  ghost predicate FilesHoldSource(g: Generation, plan: Plan) {
    && plan.binding.Some?
    && SemanticBag(RefLines(g.refs)) == plan.binding.value.normalization
    && DistinctKeys(RefLines(g.refs))
    && LocationsOf(RefLines(g.refs)) == plan.descriptor.locations
    && |RefLines(g.refs)| == plan.binding.value.count
  }

  ghost predicate RefTrue(r: Ref) {
    r.bytes == ByteCount(r.digest) && r.points == |r.digest.lines|
  }

  ghost predicate GenerationOk(g: Generation, attempts: map<AttemptId, Attempt>) {
    && g.attempt in attempts
    && var a := attempts[g.attempt];
    && a.published == Some(g.created)
    && a.owner == g.owner
    && a.seal == Some(g.seal)
    && a.plan.Some? && a.plan.value.binding.Some?
    && g.namespace == a.plan.value.descriptor
    && g.revision == a.plan.value.binding.value.revision
    && g.collected == a.plan.value.binding.value.collected
    && g.count == a.plan.value.binding.value.count
    && g.content == a.plan.value.binding.value.normalization
    && FilesHoldSource(g, a.plan.value)
    && (forall i | 0 <= i < |g.refs| :: RefTrue(g.refs[i]))
  }

  ghost predicate InvGenerations(generations: map<GenerationId, Generation>, attempts: map<AttemptId, Attempt>) {
    forall g | g in generations :: GenerationOk(generations[g], attempts)
  }

  ghost predicate InvOncePerAttempt(generations: map<GenerationId, Generation>) {
    forall g, h | g in generations && h in generations && generations[g].attempt == generations[h].attempt ::
      g == h
  }

  /** An attempt marked as published has a generation. */
  ghost predicate InvPublished(db: Db) {
    forall a | a in db.attempts && db.attempts[a].published.Some? :: HasGeneration(db, a)
  }

  /** Publication order: every generation once, with strictly increasing times. */
  ghost predicate InvLog(generations: map<GenerationId, Generation>, published: seq<GenerationId>) {
    && (forall g :: g in published <==> g in generations)
    && (forall i, j | 0 <= i < j < |published| ::
          generations[published[i]].created < generations[published[j]].created)
  }

  ghost predicate InvClock(generations: map<GenerationId, Generation>, clock: Option<Time>) {
    forall g | g in generations ::
      clock.Some? && EPOCH < generations[g].created <= clock.value
  }

  /** The generations of one namespace in publication order. */
  ghost function Lineage(generations: map<GenerationId, Generation>, published: seq<GenerationId>,
                   ns: Namespace): seq<GenerationId>
  {
    if published == [] then []
    else
      var g := published[|published| - 1];
      var rest := Lineage(generations, published[..|published| - 1], ns);
      if g in generations && generations[g].namespace == ns then rest + [g] else rest
  }

  ghost predicate Linked(generations: map<GenerationId, Generation>, line: seq<GenerationId>) {
    && (forall i | 0 <= i < |line| :: line[i] in generations)
    && (line != [] ==> generations[line[0]].parent == None)
    && (forall i | 0 < i < |line| ::
          && generations[line[i]].parent == Some(line[i - 1])
          && generations[line[i - 1]].revision <= generations[line[i]].revision
          && (generations[line[i - 1]].revision == generations[line[i]].revision ==>
                generations[line[i - 1]].content == generations[line[i]].content))
  }

  ghost predicate HeadOk(generations: map<GenerationId, Generation>, line: seq<GenerationId>, h: Head) {
    && line != []
    && h.generation == line[|line| - 1]
    && h.version == |line|
    && h.generation in generations
    && h.revision == generations[h.generation].revision
    && h.content == generations[h.generation].content
    && h.collected >= generations[h.generation].collected
  }

  ghost predicate InvHeads(generations: map<GenerationId, Generation>, heads: map<Namespace, Head>,
                     published: seq<GenerationId>)
  {
    forall ns: Namespace ::
      var line := Lineage(generations, published, ns);
      && Linked(generations, line)
      && (ns in heads ==> HeadOk(generations, line, heads[ns]))
      && (ns !in heads ==> line == [])
  }

  // ---- processes between transactions ---------------------------------------

  ghost predicate PromotionOk(m: Promotion, generations: map<GenerationId, Generation>) {
    && m.plan.binding.Some?
    && (m.token.Some? ==> m.token.value.plan == Some(m.plan) && m.token.value.receipts == m.rows)
    && (m.parent.Some? ==>
          && m.parent.value.generation in generations
          && generations[m.parent.value.generation].refs == m.parentRefs
          && generations[m.parent.value.generation].content == m.parent.value.content
          && generations[m.parent.value.generation].namespace == m.plan.descriptor)
  }

  ghost predicate InvPromotions(promotions: map<Process, Promotion>, generations: map<GenerationId, Generation>) {
    forall p | p in promotions :: PromotionOk(promotions[p], generations)
  }

  ghost predicate TickOk(t: Tick, witnessed: set<Digest>) {
    && t.token.Some? && t.token.value.receipts == t.receipts
    && (forall k | k in t.rows :: k in t.receipts)
    && t.verified <= |t.rows|
    && (forall i | 0 <= i < t.verified :: t.receipts[t.rows[i]].digest in witnessed)
  }

  ghost predicate InvTicks(ticks: map<Process, Tick>, witnessed: set<Digest>) {
    forall p | p in ticks :: TickOk(ticks[p], witnessed)
  }

  /** A validated receipt was read from disk by some verification. */
  ghost predicate InvWitnessed(attempts: map<AttemptId, Attempt>, witnessed: set<Digest>) {
    forall a, k | a in attempts && k in attempts[a].validated :: attempts[a].validated[k] in witnessed
  }

  // ---- the daily reducer ---------------------------------------------------

  ghost function CheckpointAt(generations: map<GenerationId, Generation>, published: seq<GenerationId>,
                        n: nat): Checkpoint
    requires n <= |published|
    requires forall g | g in published :: g in generations
  {
    if n == 0 then Checkpoint(EPOCH, 0)
    else Checkpoint(generations[published[n - 1]].created, published[n - 1])
  }

  /** What has been applied is a prefix of what has been published, ending at the checkpoint. */
  ghost predicate InvDaily(db: Db, published: seq<GenerationId>, applied: seq<GenerationId>) {
    && applied <= published
    && (forall g | g in published :: g in db.generations)
    && (db.progress.None? <==> applied == [])
    && CheckpointOf(db) == CheckpointAt(db.generations, published, |applied|)
  }

  ghost predicate BatchOk(b: Batch, generations: map<GenerationId, Generation>, published: seq<GenerationId>,
                    applied: seq<GenerationId>)
  {
    && b.rows != []
    && b.position <= |applied|
    && b.position + |b.rows| <= |published|
    && b.rows == published[b.position..b.position + |b.rows|]
    && (forall g | g in published :: g in generations)
    && b.after == CheckpointAt(generations, published, b.position)
  }

  ghost predicate InvReducers(reducers: map<Process, Batch>, generations: map<GenerationId, Generation>,
                        published: seq<GenerationId>, applied: seq<GenerationId>)
  {
    forall p | p in reducers :: BatchOk(reducers[p], generations, published, applied)
  }

  // ---- files ---------------------------------------------------------------

  /** Why a file must be on disk. */
  datatype Root =
    | ByHead(ns: Namespace)
    | ByInventory(key: InventoryKey)
    | ByUnread(generation: GenerationId)
    | BySnapshot(snapshot: SnapshotId, member: GenerationId)
    | ByReceipt(attempt: AttemptId, chunk: ChunkKey)
    | ByParentPin(attempt: AttemptId, index: nat)

  /** A snapshot counts until one hour after it expires. */
  ghost predicate Readers(w: World, s: SnapshotId) {
    s in w.confirmed && s in w.db.snapshots && w.db.snapshots[s].expires + MIN_RETENTION > w.time
  }

  ghost predicate Needs(w: World, r: Root, d: Digest) {
    match r
    case ByHead(ns) =>
      ns in w.db.heads && w.db.heads[ns].generation in w.db.generations
      && HasRef(w.db.generations[w.db.heads[ns].generation], d)
    case ByInventory(key) =>
      key in w.db.inventory && w.db.inventory[key] in w.db.generations
      && HasRef(w.db.generations[w.db.inventory[key]], d)
    case ByUnread(g) =>
      Unread(w.db, g) && HasRef(w.db.generations[g], d)
    case BySnapshot(s, g) =>
      Readers(w, s) && g in w.db.snapshots[s].generations && g in w.db.generations
      && HasRef(w.db.generations[g], d)
    case ByReceipt(a, k) =>
      (a, k) in w.written && a in w.db.attempts && Pending(w.db.attempts[a])
      && k in w.db.attempts[a].receipts && w.db.attempts[a].receipts[k].digest == d
    case ByParentPin(a, i) =>
      a in w.db.attempts && ParentPin(i) in w.db.attempts[a].pins
      && w.db.attempts[a].pins[ParentPin(i)] == d
  }

  ghost predicate Needed(w: World, d: Digest) {
    exists r: Root :: Needs(w, r, d)
  }

  /** No needed file is missing. */
  ghost predicate InvFiles(w: World) {
    forall d: Digest :: Needed(w, d) ==> d in w.files
  }

  /** Inside the exclusive guard, the recheck covers every needed file of the batch. */
  ghost predicate InvHeld(w: World) {
    forall p, d: Digest | p in w.gcs && w.gcs[p].held.Some? && Needed(w, d) ::
      d in w.gcs[p].held.value.batch ==> d in w.gcs[p].held.value.live
  }

  ghost predicate InvGcs(gcs: map<Process, Gc>, time: Time) {
    && (forall p | p in gcs :: gcs[p].clock <= time && gcs[p].retention >= MIN_RETENTION)
    && (forall p, q | p in gcs && q in gcs && gcs[p].held.Some? && gcs[q].held.Some? :: p == q)
  }

  ghost predicate InvInventory(inventory: map<InventoryKey, GenerationId>, generations: map<GenerationId, Generation>) {
    forall k | k in inventory :: inventory[k] in generations
  }

  ghost predicate InvSnapshots(snapshots: map<SnapshotId, Snapshot>, generations: map<GenerationId, Generation>) {
    forall s, g | s in snapshots && g in snapshots[s].generations :: g in generations
  }

  ghost predicate InvConfirmed(confirmed: set<SnapshotId>, snapshots: map<SnapshotId, Snapshot>) {
    confirmed <= snapshots.Keys
  }

  ghost predicate InvWritten(written: set<(AttemptId, ChunkKey)>, attempts: map<AttemptId, Attempt>) {
    forall a, k | (a, k) in written :: a in attempts && k in attempts[a].receipts
  }

  // ---- all of it -----------------------------------------------------------

  ghost predicate InvTables(db: Db, published: seq<GenerationId>) {
    && InvAttempts(db.attempts)
    && InvOwners(db.attempts, db.owners)
    && InvGenerations(db.generations, db.attempts)
    && InvOncePerAttempt(db.generations)
    && InvPublished(db)
    && InvLog(db.generations, published)
    && InvClock(db.generations, db.clock)
    && InvHeads(db.generations, db.heads, published)
    && InvInventory(db.inventory, db.generations)
    && InvSnapshots(db.snapshots, db.generations)
  }

  ghost predicate InvProcesses(w: World) {
    && InvPromotions(w.promotions, w.db.generations)
    && InvTicks(w.ticks, w.witnessed)
    && InvWitnessed(w.db.attempts, w.witnessed)
    && InvDaily(w.db, w.published, w.applied)
    && InvReducers(w.reducers, w.db.generations, w.published, w.applied)
    && InvGcs(w.gcs, w.time)
    && InvWritten(w.written, w.db.attempts)
    && InvConfirmed(w.confirmed, w.db.snapshots)
  }

  ghost predicate Inv(w: World) {
    InvTables(w.db, w.published) && InvProcesses(w) && InvFiles(w) && InvHeld(w)
  }

  // ---- what no step undoes -------------------------------------------------

  ghost predicate RunsLater(was: map<RunId, Run>, now: map<RunId, Run>) {
    forall r | r in was ::
      r in now && now[r].orchestrator == was[r].orchestrator
      && (was[r].status != Running ==> now[r] == was[r])
  }

  ghost predicate AttemptsLater(was: map<AttemptId, Attempt>, now: map<AttemptId, Attempt>) {
    forall a | a in was :: a in now && AttemptLater(was[a], now[a])
  }

  /** Epochs only rise, and an owner that lost a scope never gets it back. */
  ghost predicate OwnersLater(was: Db, now: Db) {
    forall s | s in was.owners ::
      && s in now.owners
      && now.owners[s].epoch >= was.owners[s].epoch
      && (now.owners[s] == was.owners[s]
          || (now.owners[s].epoch > was.owners[s].epoch
              && (now.owners[s].active in was.attempts ==>
                    was.attempts[now.owners[s].active].epochs.None?)))
  }

  ghost predicate HeadLater(a: Head, b: Head) {
    && a.version <= b.version
    && a.revision <= b.revision
    && a.collected <= b.collected
    && (a.version == b.version ==> a == b)
    && (a.revision == b.revision ==> a.content == b.content)
  }

  ghost predicate HeadsLater(was: map<Namespace, Head>, now: map<Namespace, Head>) {
    forall ns | ns in was :: ns in now && HeadLater(was[ns], now[ns])
  }

  ghost predicate ClockLater(was: Option<Time>, now: Option<Time>) {
    was.Some? ==> now.Some? && was.value <= now.value
  }

  /** Generations published since `was` are later than every time `was` had seen. */
  ghost predicate NewerThanClock(was: Db, now: Db) {
    forall g | g in now.generations && g !in was.generations ::
      was.clock.Some? ==> now.generations[g].created > was.clock.value
  }

  ghost predicate Later(w: World, v: World) {
    && w.time <= v.time
    && RunsLater(w.db.runs, v.db.runs)
    && AttemptsLater(w.db.attempts, v.db.attempts)
    && OwnersLater(w.db, v.db)
    && KeepsRows(w.db.generations, v.db.generations)
    && HeadsLater(w.db.heads, v.db.heads)
    && ClockLater(w.db.clock, v.db.clock)
    && NewerThanClock(w.db, v.db)
    && w.published <= v.published
    && w.applied <= v.applied
    && w.witnessed <= v.witnessed
  }
}
