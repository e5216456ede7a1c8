/** Promotion of a sealed attempt to the head of its namespace: pin, verify the files
    outside the guard, then one compare-and-swap transaction under the exclusive guard. */
module Heads {
  import opened ExportTypes
  import opened Lifecycle

  /** What a promoter remembers between its pin transaction and its final transaction.
      `read` counts the files it has read so far. */
  datatype Promotion = Promotion(
    id: Identity, plan: Plan, token: Option<Seal>, rows: map<ChunkKey, Receipt>,
    parent: Option<Head>, parentRefs: seq<Ref>, read: nat)

  datatype Outcome = Published | AlreadyCommitted | Conflict | Superseded | Refused

  // ---- pinning -------------------------------------------------------------

  function RowsInOrder(rows: map<ChunkKey, Receipt>, keys: seq<ChunkKey>): seq<Receipt>
    requires forall k | k in keys :: k in rows
  {
    if keys == [] then [] else RowsInOrder(rows, keys[..|keys| - 1]) + [rows[keys[|keys| - 1]]]
  }

  function Receipts(rows: map<ChunkKey, Receipt>): seq<Receipt> {
    SortedKeysSorts(rows.Keys);
    RowsInOrder(rows, SortedKeys(rows.Keys))
  }

  function ReceiptBytes(receipts: seq<Receipt>): nat {
    if receipts == [] then 0
    else ReceiptBytes(receipts[..|receipts| - 1]) + receipts[|receipts| - 1].bytes
  }

  function RefBytes(refs: seq<Ref>): nat {
    if refs == [] then 0 else RefBytes(refs[..|refs| - 1]) + refs[|refs| - 1].bytes
  }

  predicate CanPin(db: Db, id: Identity) {
    && Locked(db, id)
    && CurrentOwner(db, id.attempt)
    && var a := db.attempts[id.attempt];
    && a.plan.Some? && a.plan.value.binding.Some?
    && a.receipts != map[]
    && |a.receipts| <= MAX_PROMOTION_CHUNKS
    && ReceiptBytes(Receipts(a.receipts)) <= MAX_PROMOTION_BYTES
    && forall k | k in a.receipts ::
         && a.receipts[k].covered == {a.plan.value.descriptor.scope}
         && a.receipts[k].collected == a.plan.value.binding.value.collected
  }

  function ParentHead(db: Db, ns: Namespace): Option<Head> {
    if ns in db.heads then Some(db.heads[ns]) else None
  }

  function ParentRefs(db: Db, ns: Namespace): seq<Ref> {
    if ns in db.heads && db.heads[ns].generation in db.generations
    then db.generations[db.heads[ns].generation].refs else []
  }

  function PinRows(candidates: seq<Receipt>, parents: seq<Ref>): map<PinKey, Digest> {
    (map i | 0 <= i < |candidates| :: CandidatePin(i) := candidates[i].digest)
    + (map i | 0 <= i < |parents| :: ParentPin(i) := parents[i].digest)
  }

  /** `INSERT ... ON CONFLICT DO NOTHING`: a row that is already there wins. */
  function Pin(db: Db, id: Identity): (after: Db)
    ensures after == db.(attempts := after.attempts)
  {
    if !CanPin(db, id) then db
    else
      var a := db.attempts[id.attempt];
      var rows := PinRows(Receipts(a.receipts), ParentRefs(db, a.plan.value.descriptor));
      db.(attempts := db.attempts[id.attempt := a.(pins := rows + a.pins)])
  }

  function StartPromotion(db: Db, id: Identity): Promotion
    requires CanPin(db, id)
  {
    var a := db.attempts[id.attempt];
    Promotion(id, a.plan.value, a.seal, a.receipts,
              ParentHead(db, a.plan.value.descriptor), ParentRefs(db, a.plan.value.descriptor), 0)
  }

  // ---- verification outside the guard --------------------------------------

  function LinesOf(receipts: seq<Receipt>): seq<Point> {
    if receipts == [] then []
    else LinesOf(receipts[..|receipts| - 1]) + receipts[|receipts| - 1].digest.lines
  }

  function RefLines(refs: seq<Ref>): seq<Point> {
    if refs == [] then [] else RefLines(refs[..|refs| - 1]) + refs[|refs| - 1].digest.lines
  }

  predicate DistinctKeys(lines: seq<Point>) {
    forall i, j | 0 <= i < j < |lines| :: lines[i].key != lines[j].key
  }

  predicate FollowsPolicy(lines: seq<Point>, d: Descriptor) {
    forall i | 0 <= i < |lines| ::
      && lines[i].key.provider == d.provider
      && lines[i].key.dataset == d.dataset
      && lines[i].key.style == d.style
  }

  predicate WithinSelection(lines: seq<Point>, d: Descriptor) {
    forall i | 0 <= i < |lines| ::
      && lines[i].key.location in d.locations
      && lines[i].key.provider == d.provider
      && lines[i].key.style == d.style
  }

  function Content(p: Promotion): multiset<SemanticPoint> {
    SemanticBag(LinesOf(Receipts(p.rows)))
  }

  /** The union of the chunks is the source that was bound: right policy, no duplicate
      logical point, all declared locations, and the bound multiset of semantic points. */
  predicate CandidateAccepted(p: Promotion) {
    var lines := LinesOf(Receipts(p.rows));
    && p.plan.binding.Some?
    && FollowsPolicy(lines, p.plan.descriptor)
    && DistinctKeys(lines)
    && lines != []
    && |lines| == p.plan.binding.value.count
    && LocationsOf(lines) == p.plan.descriptor.locations
    && SemanticBag(lines) == p.plan.binding.value.normalization
  }

  /** Equal content is published as the parent's own files. */
  predicate Reuse(p: Promotion) {
    p.parent.Some? && p.parent.value.content == Content(p)
  }

  predicate ParentAccepted(p: Promotion) {
    && |p.parentRefs| <= MAX_PROMOTION_CHUNKS
    && RefBytes(p.parentRefs) <= MAX_PROMOTION_BYTES
    && WithinSelection(RefLines(p.parentRefs), p.plan.descriptor)
  }

  function ReceiptRef(r: Receipt): Ref {
    Ref(r.digest, r.bytes, r.points, LocationsOf(r.digest.lines))
  }

  function ReceiptRefs(receipts: seq<Receipt>): seq<Ref> {
    if receipts == [] then []
    else ReceiptRefs(receipts[..|receipts| - 1]) + [ReceiptRef(receipts[|receipts| - 1])]
  }

  /** The location index of a reused file is rebuilt from its bytes. */
  function Reindexed(refs: seq<Ref>): seq<Ref> {
    if refs == [] then []
    else
      var r := refs[|refs| - 1];
      Reindexed(refs[..|refs| - 1]) + [r.(locations := LocationsOf(r.digest.lines))]
  }

  function NewRefs(p: Promotion): seq<Ref> {
    if Reuse(p) then Reindexed(p.parentRefs) else ReceiptRefs(Receipts(p.rows))
  }

  /** The files a promoter reads: its own chunks, then the parent's when it reuses them. */
  function ReadList(p: Promotion): seq<Ref> {
    ReceiptRefs(Receipts(p.rows)) + (if Reuse(p) then p.parentRefs else [])
  }

  /** A readable file: present, right size, right number of lines (`_lines`). */
  predicate Readable(files: map<Digest, Time>, r: Ref) {
    r.digest in files && ByteCount(r.digest) == r.bytes && |r.digest.lines| == r.points
  }

  predicate Verified(p: Promotion) {
    && p.read == |ReadList(p)|
    && CandidateAccepted(p)
    && (Reuse(p) ==> ParentAccepted(p))
  }

  // ---- the final transaction -----------------------------------------------

  function LatestCreated(generations: map<GenerationId, Generation>, keys: set<GenerationId>): Time
    requires keys <= generations.Keys && keys != {}
  {
    var k := Least(keys);
    if keys == {k} then generations[k].created
    else Max(generations[k].created, LatestCreated(generations, keys - {k}))
  }

  function Max(a: Time, b: Time): Time {
    if a < b then b else a
  }

  /** The publication clock: `stamp` is the server's clock, whatever it says. */
  function PublicationTime(db: Db, stamp: Time): Time {
    var offered := if db.generations == map[] then stamp
                   else Max(stamp, LatestCreated(db.generations, db.generations.Keys) + 1);
    if db.clock.None? then offered else Max(db.clock.value + 1, offered)
  }

  predicate DistinctDigests(refs: seq<Ref>) {
    forall i, j | 0 <= i < j < |refs| :: refs[i].digest != refs[j].digest
  }

  predicate AllPresent(files: map<Digest, Time>, refs: seq<Ref>) {
    forall i | 0 <= i < |refs| :: refs[i].digest in files && ByteCount(refs[i].digest) == refs[i].bytes
  }

  function CasOutcome(db: Db, files: map<Digest, Time>, p: Promotion, gid: GenerationId): Outcome {
    var ns := p.plan.descriptor;
    if HasGeneration(db, p.id.attempt) then AlreadyCommitted
    else if !Locked(db, p.id) || !CurrentOwner(db, p.id.attempt) then Refused
    else if || RunOf(db, p.id.attempt).status != Success
            || db.attempts[p.id.attempt].status != Sealed
            || db.attempts[p.id.attempt].seal != p.token then Conflict
    else if (ns in db.heads) != p.parent.Some?
            || (ns in db.heads && db.heads[ns].generation != p.parent.value.generation) then Conflict
    else if p.plan.binding.None? then Refused
    else if ns in db.heads && p.plan.binding.value.revision < db.heads[ns].revision then Superseded
    else if ns in db.heads && p.plan.binding.value.revision == db.heads[ns].revision
            && db.heads[ns].content != Content(p) then Conflict
    else if !AllPresent(files, NewRefs(p)) then Refused
    else if gid in db.generations || !DistinctDigests(NewRefs(p)) || p.token.None? then Refused
    else Published
  }

  function NewGeneration(db: Db, p: Promotion, stamp: Time): Generation
    requires p.plan.binding.Some? && p.token.Some?
  {
    var ns := p.plan.descriptor;
    Generation(p.id.attempt, p.id.owner, p.token.value, ns,
               if ns in db.heads then Some(db.heads[ns].generation) else None,
               p.plan.binding.value.revision, p.plan.binding.value.collected,
               Content(p), p.plan.binding.value.count, PublicationTime(db, stamp), NewRefs(p))
  }

  function NewHead(db: Db, p: Promotion, gid: GenerationId): Head
    requires p.plan.binding.Some?
  {
    var ns := p.plan.descriptor;
    var b := p.plan.binding.value;
    if ns in db.heads
    then Head(gid, db.heads[ns].version + 1, b.revision, Content(p),
              Max(b.collected, db.heads[ns].collected))
    else Head(gid, 1, b.revision, Content(p), b.collected)
  }

  /** `record_approved_locations`: an older approval of the same location is replaced. */
  function Approve(inventory: map<InventoryKey, GenerationId>,
                   generations: map<GenerationId, Generation>,
                   d: Descriptor, gid: GenerationId, approved: set<Location>)
    : map<InventoryKey, GenerationId>
  {
    inventory + map l | l in approved && l in d.locations && Replaces(inventory, generations, d, gid, l)
                  :: InventoryKey(d.provider, d.dataset, l) := gid
  }

  predicate Replaces(inventory: map<InventoryKey, GenerationId>,
                     generations: map<GenerationId, Generation>,
                     d: Descriptor, gid: GenerationId, l: Location)
  {
    var key := InventoryKey(d.provider, d.dataset, l);
    key !in inventory
    || (inventory[key] in generations && gid in generations
        && generations[inventory[key]].created < generations[gid].created)
  }

  /** The committed effect of a winning promotion. */
  function Publish(db: Db, p: Promotion, gid: GenerationId, stamp: Time, approved: set<Location>): Db
    requires p.plan.binding.Some? && p.token.Some? && p.id.attempt in db.attempts
  {
    var g := NewGeneration(db, p, stamp);
    var generations := db.generations[gid := g];
    var a := db.attempts[p.id.attempt];
    db.(generations := generations,
        heads := db.heads[g.namespace := NewHead(db, p, gid)],
        clock := Some(g.created),
        inventory := Approve(db.inventory, generations, g.namespace, gid, approved),
        attempts := db.attempts[p.id.attempt := a.(published := Some(g.created), pins := map[])])
  }

  /** `bootstrap_approved_locations` re-projects a current head, without the guard. */
  function BootstrapInventory(db: Db, ns: Namespace, approved: set<Location>): (after: Db)
    ensures after == db.(inventory := after.inventory)
  {
    if ns !in db.heads then db
    else db.(inventory := Approve(db.inventory, db.generations, ns, db.heads[ns].generation, approved))
  }
}
