/** The rows, files and identifiers that the export pipeline exchanges.

    Every table of the pipeline is keyed first by attempt or by generation, so the rows
    of one attempt (plan, expected chunks, receipts, closures, validated chunks, pins)
    are kept together in one `Attempt` record, and the chunk references of a generation
    in its `Generation` record.

    SHA-256 over canonical JSON is modelled by free constructors: equal digests mean
    equal contents.  Instants are integers (microseconds), strings are numbers. */
module ExportTypes {

  type Time = int
  type RunId = nat
  type AttemptId = nat
  type OwnerToken = nat
  type Scope = nat
  type ChunkKey = nat
  type GenerationId = nat
  type SnapshotId = nat
  type Location = nat

  datatype Option<+T> = None | Some(value: T)

  const MAX_CHUNK_POINTS: nat := 5000
  const MAX_CHUNK_BYTES: nat := 8 * 1024 * 1024
  const MAX_EXPECTED_CHUNKS: nat := 10000
  const MAX_PLAN_REFERENCES: nat := 50000
  const MAX_CHUNK_SOURCES: nat := 256
  const MAX_PLANNED_SOURCES: nat := 10000
  const MAX_FORECAST_POINTS: nat := 100000
  const MAX_PROMOTION_CHUNKS: nat := 64
  const MAX_PROMOTION_BYTES: nat := 128 * 1024 * 1024

  // ---- points and artifacts ------------------------------------------------

  /** What identifies a point inside one success snapshot. */
  datatype LogicalKey = LogicalKey(
    location: Location, provider: nat, dataset: nat, domain: nat, style: nat,
    metric: nat, target: Time)

  /** One line of an artifact.  `provenance` stands for the fields the semantic digest
      ignores (value id, source record, known and collected times, payload, evidence);
      `width` is the length in bytes of the encoded line. */
  datatype Point = Point(key: LogicalKey, value: int, provenance: int, width: nat)

  /** The part of a point covered by `semantic_point_digest`. */
  datatype SemanticPoint = SemanticPoint(key: LogicalKey, value: int)

  function Semantic(p: Point): SemanticPoint {
    SemanticPoint(p.key, p.value)
  }

  /** An artifact's name is the hash of its content. */
  datatype Digest = Sha256(lines: seq<Point>)

  function Width(lines: seq<Point>): nat {
    if lines == [] then 0 else Width(lines[..|lines| - 1]) + lines[|lines| - 1].width
  }

  function ByteCount(d: Digest): nat {
    Width(d.lines)
  }

  /** The semantic points of a file, with multiplicity. */
  function SemanticBag(lines: seq<Point>): multiset<SemanticPoint> {
    if lines == [] then multiset{}
    else SemanticBag(lines[..|lines| - 1]) + multiset{Semantic(lines[|lines| - 1])}
  }

  function LocationsOf(lines: seq<Point>): set<Location> {
    set i | 0 <= i < |lines| :: lines[i].key.location
  }

  // ---- runs and attempts ---------------------------------------------------

  /** `Rejected` gathers failed, partial, partial_success, canceled, cancelled and skipped. */
  datatype RunStatus = Running | Success | Rejected | Abandoned

  datatype Run = Run(status: RunStatus, orchestrator: Option<nat>)

  datatype Status = Preparing | Sealed | Failed

  /** A frozen interpretation policy.  Its hash is the head namespace, so the
      descriptor itself serves as the namespace. */
  datatype Descriptor = Descriptor(
    provider: nat, dataset: nat, style: nat, scope: Scope,
    locations: set<Location>, policy: nat)

  type Namespace = Descriptor

  /** What `bind_*` fixes about the source response. */
  datatype Binding = Binding(
    revision: Time, input: nat, collected: Time,
    count: nat, normalization: multiset<SemanticPoint>)

  datatype Plan = Plan(descriptor: Descriptor, declaredAt: Time, binding: Option<Binding>)

  datatype Expected = Expected(scopes: set<Scope>, inputCount: nat, inputDigest: nat)

  datatype Receipt = Receipt(
    digest: Digest, bytes: nat, points: nat,
    covered: set<Scope>, counts: Option<map<Scope, nat>>, collected: Time)

  datatype PinKey = CandidatePin(index: nat) | ParentPin(index: nat)

  /** The seal digest, as the values it covers. */
  datatype Seal = Seal(
    plan: Option<Plan>, planned: set<Scope>, epochs: Option<map<Scope, nat>>,
    expected: map<ChunkKey, Expected>, receipts: map<ChunkKey, Receipt>)

  datatype Attempt = Attempt(
    run: RunId, owner: OwnerToken, planned: set<Scope>,
    dagster: bool, orchestrator: Option<nat>,
    epochs: Option<map<Scope, nat>>, references: nat,
    closed: bool, seal: Option<Seal>, status: Status, published: Option<Time>,
    plan: Option<Plan>,
    expected: map<ChunkKey, Expected>,
    receipts: map<ChunkKey, Receipt>,
    closures: map<Scope, set<ChunkKey>>,
    validated: map<ChunkKey, Digest>,
    pins: map<PinKey, Digest>)

  datatype Identity = Identity(attempt: AttemptId, owner: OwnerToken)

  datatype Ownership = Ownership(epoch: nat, active: AttemptId)

  // ---- generations, heads, readers -----------------------------------------

  datatype Ref = Ref(digest: Digest, bytes: nat, points: nat, locations: set<Location>)

  datatype Generation = Generation(
    attempt: AttemptId, owner: OwnerToken, seal: Seal, namespace: Namespace,
    parent: Option<GenerationId>, revision: Time, collected: Time,
    content: multiset<SemanticPoint>, count: nat, created: Time, refs: seq<Ref>)

  datatype Head = Head(
    generation: GenerationId, version: nat, revision: Time,
    content: multiset<SemanticPoint>, collected: Time)

  /** A frozen reader handle: the generations its manifest points at. */
  datatype Snapshot = Snapshot(generations: seq<GenerationId>, expires: Time, order: nat)

  datatype Checkpoint = Checkpoint(at: Time, generation: GenerationId)

  datatype InventoryKey = InventoryKey(provider: nat, dataset: nat, location: Location)

  datatype Db = Db(
    runs: map<RunId, Run>,
    attempts: map<AttemptId, Attempt>,
    owners: map<Scope, Ownership>,
    generations: map<GenerationId, Generation>,
    heads: map<Namespace, Head>,
    inventory: map<InventoryKey, GenerationId>,
    clock: Option<Time>,
    progress: Option<Checkpoint>,
    snapshots: map<SnapshotId, Snapshot>,
    issued: nat)

  // ---- ordered row sets ----------------------------------------------------

  predicate Increasing(keys: seq<nat>) {
    forall i, j | 0 <= i < j < |keys| :: keys[i] < keys[j]
  }

  predicate IsLeast(m: nat, keys: set<nat>) {
    m in keys && forall x | x in keys :: m <= x
  }

  lemma LeastExists(keys: set<nat>)
    requires keys != {}
    ensures exists m :: IsLeast(m, keys)
  {
    var k :| k in keys;
    var rest := keys - {k};
    if rest == {} {
      assert keys == {k};
      assert IsLeast(k, keys);
    } else {
      LeastExists(rest);
      var m :| IsLeast(m, rest);
      assert forall x | x in keys :: x == k || x in rest;
      assert IsLeast(if k < m then k else m, keys);
    }
  }

  function Least(keys: set<nat>): (m: nat)
    requires keys != {}
    ensures IsLeast(m, keys)
  {
    LeastExists(keys);
    var m :| IsLeast(m, keys);
    m
  }

  /** `ORDER BY key`: the row keys of one attempt in key order. */
  function SortedKeys(keys: set<nat>): seq<nat> {
    if keys == {} then [] else [Least(keys)] + SortedKeys(keys - {Least(keys)})
  }

  lemma {:induction false} SortedKeysSorts(keys: set<nat>)
    ensures Increasing(SortedKeys(keys))
    ensures |SortedKeys(keys)| == |keys|
    ensures forall k :: k in SortedKeys(keys) <==> k in keys
  {
    if keys != {} {
      var m := Least(keys);
      var rest := SortedKeys(keys - {m});
      SortedKeysSorts(keys - {m});
      assert SortedKeys(keys) == [m] + rest;
      assert forall i | 0 <= i < |rest| :: rest[i] in rest;
    }
  }
}
