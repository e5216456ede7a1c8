/** The transactions as the source performs them: an object whose tables are updated row by
    row.  Each method is proved against the transaction function of `Lifecycle` or `Heads`
    that the state machine of `Pipeline` is built from. */
module ExportDatabase {
  import opened ExportTypes
  import opened Lifecycle
  import opened Heads
  import opened Pipeline

  // ---- points admitted per source ------------------------------------------

  function CountOf(r: Receipt, s: Scope): nat {
    if r.counts.Some? && s in r.counts.value then r.counts.value[s] else 0
  }

  /** The sum over a set of receipts does not depend on which one is taken first. */
  lemma {:induction false} AdmittedWithout(receipts: map<ChunkKey, Receipt>, keys: set<ChunkKey>,
                                           k: ChunkKey, s: Scope)
    requires keys <= receipts.Keys && k in keys
    ensures Admitted(receipts, keys, s) == CountOf(receipts[k], s) + Admitted(receipts, keys - {k}, s)
    decreases |keys|
  {
    var least := Least(keys);
    if least != k {
      AdmittedWithout(receipts, keys - {least}, k, s);
      AdmittedWithout(receipts, keys - {k}, least, s);
      assert keys - {least} - {k} == keys - {k} - {least};
    }
  }

  // Rows are visited in key order: each round takes the least key that is left.

  /** The row comparison of `_current_owners`. */
  method OwnersMatch(owners: map<Scope, Ownership>, aid: AttemptId, epochs: map<Scope, nat>,
                     scopes: set<Scope>) returns (matching: bool)
    requires scopes <= epochs.Keys
    ensures matching == HoldsEpochs(owners, aid, epochs, scopes)
  {
    var rest := scopes;
    while rest != {}
      invariant rest <= scopes
      invariant HoldsEpochs(owners, aid, epochs, scopes - rest)
      decreases rest
    {
      var s := Least(rest);
      if s !in owners || owners[s].active != aid || owners[s].epoch != epochs[s] {
        return false;
      }
      rest := rest - {s};
    }
    return true;
  }

  /** The loop that fills `by_source`; a plan row that names an unplanned source fails. */
  method ChunksBySource(planned: set<Scope>, expected: map<ChunkKey, Expected>)
    returns (known: bool, bySource: map<Scope, set<ChunkKey>>)
    ensures known == forall k | k in expected :: expected[k].scopes <= planned
    ensures known ==> bySource.Keys == planned
    ensures known ==> forall s | s in planned :: bySource[s] == ChunksCovering(expected, s)
  {
    bySource := map s | s in planned :: {};
    var rest := expected.Keys;
    while rest != {}
      invariant rest <= expected.Keys
      invariant forall k | k in expected && k !in rest :: expected[k].scopes <= planned
      invariant bySource.Keys == planned
      invariant forall s | s in planned :: bySource[s] == ChunksCovering(expected, s) - rest
      decreases rest
    {
      var k := Least(rest);
      var added: bool;
      added, bySource := Append(bySource, expected[k].scopes, k);
      if !added {
        return false, bySource;
      }
      rest := rest - {k};
    }
    known := true;
  }

  /** One row of the plan is appended to the list of each of its sources. */
  method Append(bySource: map<Scope, set<ChunkKey>>, scopes: set<Scope>, key: ChunkKey)
    returns (added: bool, grown: map<Scope, set<ChunkKey>>)
    ensures added == (scopes <= bySource.Keys)
    ensures added ==> grown.Keys == bySource.Keys
    ensures added ==> forall s | s in bySource ::
              grown[s] == if s in scopes then bySource[s] + {key} else bySource[s]
  {
    grown := bySource;
    var rest := scopes;
    while rest != {}
      invariant rest <= scopes
      invariant scopes - rest <= bySource.Keys
      invariant grown.Keys == bySource.Keys
      invariant forall s | s in bySource ::
                  grown[s] == if s in scopes - rest then bySource[s] + {key} else bySource[s]
      decreases rest
    {
      var s := Least(rest);
      if s !in grown {
        return false, grown;
      }
      grown := grown[s := grown[s] + {key}];
      rest := rest - {s};
    }
    added := true;
  }

  predicate CountsWithin(r: Receipt, planned: set<Scope>) {
    r.counts.Some? ==> r.counts.value.Keys <= planned
  }

  /** The loop that fills `admitted`; a count for an unplanned source fails. */
  method AdmittedBySource(planned: set<Scope>, receipts: map<ChunkKey, Receipt>)
    returns (known: bool, admitted: map<Scope, nat>)
    ensures known == forall k | k in receipts :: CountsWithin(receipts[k], planned)
    ensures known ==> admitted.Keys == planned
    ensures known ==> forall s | s in planned :: admitted[s] == Admitted(receipts, receipts.Keys, s)
  {
    admitted := map s | s in planned :: 0;
    var rest := receipts.Keys;
    while rest != {}
      invariant rest <= receipts.Keys
      invariant forall k | k in receipts && k !in rest :: CountsWithin(receipts[k], planned)
      invariant admitted.Keys == planned
      invariant forall s | s in planned :: admitted[s] == Admitted(receipts, receipts.Keys - rest, s)
      decreases rest
    {
      var k := Least(rest);
      if !CountsWithin(receipts[k], planned) {
        return false, admitted;
      }
      AdmittedNext(receipts, rest, k);
      admitted := map s | s in admitted :: admitted[s] + CountOf(receipts[k], s);
      rest := rest - {k};
    }
    assert receipts.Keys - {} == receipts.Keys;
    known := true;
  }

  lemma AdmittedNext(receipts: map<ChunkKey, Receipt>, rest: set<ChunkKey>, k: ChunkKey)
    requires rest <= receipts.Keys && k in rest
    ensures forall s :: Admitted(receipts, receipts.Keys - (rest - {k}), s)
                     == CountOf(receipts[k], s) + Admitted(receipts, receipts.Keys - rest, s)
  {
    var grown := receipts.Keys - (rest - {k});
    assert grown - {k} == receipts.Keys - rest;
    forall s
      ensures Admitted(receipts, grown, s)
           == CountOf(receipts[k], s) + Admitted(receipts, receipts.Keys - rest, s)
    {
      AdmittedWithout(receipts, grown, k, s);
    }
  }

  /** The comparison at the end of `close_plan` decides the barrier. */
  lemma BarrierDecided(a: Attempt, bySource: map<Scope, set<ChunkKey>>, admitted: map<Scope, nat>)
    requires forall k | k in a.expected :: a.expected[k].scopes <= a.planned
    requires forall k | k in a.receipts :: CountsWithin(a.receipts[k], a.planned)
    requires bySource.Keys == a.planned
    requires forall s | s in a.planned :: bySource[s] == ChunksCovering(a.expected, s)
    requires admitted.Keys == a.planned
    requires forall s | s in a.planned :: admitted[s] == Admitted(a.receipts, a.receipts.Keys, s)
    ensures Barrier(a) <==>
            && a.expected != map[] && a.closures == bySource && a.expected.Keys == a.receipts.Keys
            && !(exists s | s in admitted :: admitted[s] == 0)
  {
    if Barrier(a) {
      assert a.closures == bySource;
    }
  }

  function EpochsOf(owners: map<Scope, Ownership>, scopes: set<Scope>): map<Scope, nat> {
    map s | s in scopes :: NextEpoch(owners, s)
  }

  lemma OneMoreClaimed(owners: map<Scope, Ownership>, done: set<Scope>, s: Scope, aid: AttemptId)
    requires s !in done
    ensures ClaimedOwners(owners, done + {s}, aid)
         == ClaimedOwners(owners, done, aid)[s := Ownership(NextEpoch(owners, s), aid)]
    ensures EpochsOf(owners, done + {s}) == EpochsOf(owners, done)[s := NextEpoch(owners, s)]
    ensures NextEpoch(ClaimedOwners(owners, done, aid), s) == NextEpoch(owners, s)
  {
  }

  lemma NothingClaimed(owners: map<Scope, Ownership>, aid: AttemptId)
    ensures ClaimedOwners(owners, {}, aid) == owners && EpochsOf(owners, {}) == map[]
  {
  }

  /** `validate_head_capture`: every value against the policy, then all of them against what was
      bound. */
  method ValidateHeadCapture(plan: Plan, c: Lifecycle.Capture) returns (valid: bool)
    ensures valid <==> HeadCapture(plan, c)
  {
    if plan.binding.None? || c.source != plan.binding.value.input || c.collected != plan.binding.value.collected {
      return false;
    }
    var d, b := plan.descriptor, plan.binding.value;
    var selected := ValuesSelected(c.values, d, b.revision);
    if !selected {
      return false;
    }
    if d.style == NOWCAST {
      return |c.values| == b.count && multiset(c.values) == b.normalization;
    }
    var wanted := Wanted(c.values);
    valid := wanted != {} && |wanted| == |c.values| && forall v | v in wanted :: v in b.normalization;
    assert wanted == {} <==> c.values == [] by {
      if c.values != [] { assert c.values[0] in wanted; }
    }
  }

  method ValuesSelected(values: seq<SemanticPoint>, d: Descriptor, revision: Time) returns (selected: bool)
    ensures selected <==> forall v | v in values ::
      && v.key.provider == d.provider && v.key.dataset == d.dataset
      && v.key.style == d.style && v.key.location in d.locations
      && (d.style == NOWCAST ==> v.key.target == revision)
  {
    var i := 0;
    while i < |values|
      invariant 0 <= i <= |values|
      invariant forall j | 0 <= j < i :: var v := values[j];
        && v.key.provider == d.provider && v.key.dataset == d.dataset
        && v.key.style == d.style && v.key.location in d.locations
        && (d.style == NOWCAST ==> v.key.target == revision)
    {
      var v := values[i];
      if v.key.provider != d.provider || v.key.dataset != d.dataset || v.key.style != d.style
         || v.key.location !in d.locations || (d.style == NOWCAST && v.key.target != revision) {
        assert v in values;
        return false;
      }
      i := i + 1;
    }
    selected := true;
  }

  /** The distinct values; as many as the values exactly when none occurs twice. */
  method Wanted(values: seq<SemanticPoint>) returns (wanted: set<SemanticPoint>)
    ensures forall v :: v in wanted <==> v in values
    ensures |wanted| == |values| <==> forall i, j | 0 <= i < j < |values| :: values[i] != values[j]
  {
    wanted := {};
    var i := 0;
    while i < |values|
      invariant 0 <= i <= |values| && |wanted| <= i
      invariant forall v :: v in wanted <==> v in values[..i]
      invariant |wanted| == i <==> forall j, k | 0 <= j < k < i :: values[j] != values[k]
    {
      assert values[..i + 1] == values[..i] + [values[i]];
      MoreWanted(values, i, wanted);
      wanted := wanted + {values[i]};
      i := i + 1;
    }
    assert values[..|values|] == values;
  }

  lemma MoreWanted(values: seq<SemanticPoint>, i: nat, wanted: set<SemanticPoint>)
    requires i < |values| && |wanted| <= i && forall v :: v in wanted <==> v in values[..i]
    requires |wanted| == i <==> forall j, k | 0 <= j < k < i :: values[j] != values[k]
    ensures |wanted + {values[i]}| <= i + 1
    ensures |wanted + {values[i]}| == i + 1 <==> forall j, k | 0 <= j < k < i + 1 :: values[j] != values[k]
  {
    if values[i] in wanted {
      assert wanted + {values[i]} == wanted;
      var j :| 0 <= j < i && values[..i][j] == values[i];
      assert values[j] == values[i];
    } else {
      assert forall j | 0 <= j < i :: values[..i][j] in wanted;
    }
  }

  class Database {
    var runs: map<RunId, Run>
    var attempts: map<AttemptId, Attempt>
    var owners: map<Scope, Ownership>
    var generations: map<GenerationId, Generation>
    var heads: map<Namespace, Head>
    var inventory: map<InventoryKey, GenerationId>
    var clock: Option<Time>
    var progress: Option<Checkpoint>
    var snapshots: map<SnapshotId, Snapshot>
    var issued: nat

    function Contents(): Db
      reads this
    {
      Db(runs, attempts, owners, generations, heads, inventory, clock, progress, snapshots, issued)
    }

    constructor ()
      ensures Contents() == Db(map[], map[], map[], map[], map[], map[], None, None, map[], 0)
    {
      runs, attempts, owners, generations := map[], map[], map[], map[];
      heads, inventory, clock, progress := map[], map[], None, None;
      snapshots, issued := map[], 0;
    }

    // ---- claim ---------------------------------------------------------------

    /** `_current_owners`: every selected scope's row is still at the claimed epoch. */
    method CurrentOwners(aid: AttemptId, selected: Option<set<Scope>>) returns (current: bool)
      requires aid in attempts
      ensures selected.None? ==> current == CurrentOwner(Contents(), aid)
      ensures selected.Some? ==> current == CurrentOwnerOf(Contents(), aid, selected.value)
    {
      var a := attempts[aid];
      if a.epochs.None? || a.epochs.value == map[]
         || (selected.None? && a.epochs.value.Keys != a.planned) {
        return false;
      }
      var scopes := if selected.None? then a.epochs.value.Keys else selected.value;
      if scopes == {} || !(scopes <= a.epochs.value.Keys) {
        return false;
      }
      current := OwnersMatch(owners, aid, a.epochs.value, scopes);
    }

    /** One owner row per scope is inserted at epoch 1 or moved to its next epoch. */
    method TakeScopes(aid: AttemptId, scopes: set<Scope>) returns (epochs: map<Scope, nat>)
      modifies `owners
      ensures owners == ClaimedOwners(old(owners), scopes, aid)
      ensures epochs == EpochsOf(old(owners), scopes)
    {
      hide ClaimedOwners, EpochsOf;
      epochs := map[];
      assert epochs == EpochsOf(owners, {}) && owners == ClaimedOwners(owners, {}, aid) by {
        NothingClaimed(owners, aid);
      }
      var rest := scopes;
      assert scopes - rest == {};
      while rest != {}
        invariant rest <= scopes
        invariant owners == ClaimedOwners(old(owners), scopes - rest, aid)
        invariant epochs == EpochsOf(old(owners), scopes - rest)
        decreases rest
      {
        var s := Least(rest);
        OneMoreClaimed(old(owners), scopes - rest, s, aid);
        assert scopes - (rest - {s}) == scopes - rest + {s};
        var epoch := if s in owners then owners[s].epoch + 1 else 1;
        owners := owners[s := Ownership(epoch, aid)];
        epochs := epochs[s := epoch];
        rest := rest - {s};
      }
      assert scopes - {} == scopes;
    }

    /** `claim`: the epochs taken are kept with the attempt; a repeated claim only checks them. */
    method Claim(id: Identity) returns (claimed: bool)
      modifies `owners, `attempts
      ensures Contents() == Lifecycle.Claim(old(Contents()), id)
      ensures claimed == (CanClaim(old(Contents()), id)
                          || (Locked(old(Contents()), id) && old(attempts)[id.attempt].epochs.Some?
                              && CurrentOwner(old(Contents()), id.attempt)))
    {
      hide CurrentOwner, ClaimedOwners, NextEpoch;
      if !Locked(Contents(), id) {
        return false;
      }
      var a := attempts[id.attempt];
      if a.epochs.Some? {
        claimed := CurrentOwners(id.attempt, None);
        return;
      }
      if runs[a.run].status != Running || a.status != Preparing || a.receipts != map[] {
        return false;
      }
      var epochs := TakeScopes(id.attempt, a.planned);
      attempts := attempts[id.attempt := a.(epochs := Some(epochs))];
      return true;
    }

    // ---- opening an attempt ------------------------------------------------------

    /** `create_export_attempt`: a new attempt of a running run; a native one has no orchestrator, a
        dagster one has the run's. */
    method CreateAttempt(id: Identity, run: RunId, planned: set<Scope>, dagster: bool, orchestrator: Option<nat>)
      returns (created: bool)
      modifies `attempts
      ensures Contents() == Lifecycle.CreateAttempt(old(Contents()), id, run, planned, dagster, orchestrator)
      ensures created <==> id.attempt in attempts && id.attempt !in old(attempts)
    {
      if planned == {} || |planned| > 10000 || id.attempt in attempts {
        return false;
      }
      if run !in runs || runs[run].status != Running {
        return false;
      }
      var recorded := runs[run].orchestrator;
      if dagster {
        if orchestrator.None? || recorded != orchestrator {
          return false;
        }
      } else if recorded.Some? || orchestrator.Some? {
        return false;
      }
      attempts := attempts[id.attempt :=
        Attempt(run, id.owner, planned, dagster, recorded, None, 0, false, None, Preparing, None, None,
                map[], map[], map[], map[], map[])];
      created := true;
    }

    /** `declare`: before anything is planned or fetched; a repeated declaration must be the same. */
    method Declare(id: Identity, d: Descriptor, targets: set<Location>, now: Time) returns (declared: bool)
      modifies `attempts
      ensures d.locations != {} ==>
        Contents() == Lifecycle.Declare(old(Contents()), id, d, targets == d.locations, now)
      ensures declared ==> id.attempt in attempts && attempts[id.attempt].plan.Some?
                           && attempts[id.attempt].plan.value.descriptor == d
    {
      hide CurrentOwner;
      if !Locked(Contents(), id) {
        return false;
      }
      var a := attempts[id.attempt];
      var current := CurrentOwners(id.attempt, None);
      if !current || runs[a.run].status != Running || a.status != Preparing || a.planned != {d.scope} {
        return false;
      }
      if a.plan.Some? {
        return a.plan.value.descriptor == d;
      }
      if a.expected != map[] || targets != d.locations {
        return false;
      }
      attempts := attempts[id.attempt := a.(plan := Some(Plan(d, now, None)))];
      declared := true;
    }

    /** The loop over the replayed values, with its limit. */
    method Replay(points: seq<Point>) returns (normalization: Option<multiset<SemanticPoint>>)
      ensures normalization == if points == [] || |points| > 100000 then None else Some(SemanticBag(points))
    {
      var bag: multiset<SemanticPoint> := multiset{};
      var i := 0;
      while i < |points|
        invariant 0 <= i <= |points| && i <= 100000 && bag == SemanticBag(points[..i])
      {
        assert points[..i + 1][..i] == points[..i];
        bag := bag + multiset{Semantic(points[i])};
        i := i + 1;
        if i > 100000 {
          return None;
        }
      }
      assert points[..|points|] == points;
      if points == [] {
        return None;
      }
      normalization := Some(bag);
    }

    /** `bind_*`: fixes what the source answered, after the declaration and before any chunk is
        planned; a response with less than half of the head's points is refused. */
    method Bind(id: Identity, r: Response, now: Time) returns (bound: bool)
      modifies `attempts
      ensures Contents() == Lifecycle.Bind(old(Contents()), id, r, now)
      ensures bound ==> id.attempt in attempts && attempts[id.attempt].plan.Some?
                        && attempts[id.attempt].plan.value.binding.Some?
                        && attempts[id.attempt].plan.value.binding.value.input == r.input
    {
      hide CurrentOwner, SemanticBag;
      var normalization := Replay(r.points);
      if normalization.None? || r.revision > r.fetched || !Locked(Contents(), id) {
        return false;
      }
      var a := attempts[id.attempt];
      var current := CurrentOwners(id.attempt, None);
      if !current || a.plan.None? || runs[a.run].status != Running || a.status != Preparing {
        return false;
      }
      var plan := a.plan.value;
      if r.fetched < plan.declaredAt || r.fetched > now || plan.descriptor.scope != r.scope {
        return false;
      }
      if plan.descriptor in heads && heads[plan.descriptor].generation in generations
         && |r.points| * 2 < generations[heads[plan.descriptor].generation].count {
        return false;
      }
      if plan.binding.Some? {
        var b := plan.binding.value;
        return b.input == r.input && b.collected == r.fetched && b.revision == r.revision;
      }
      if a.expected != map[] {
        return false;
      }
      attempts := attempts[id.attempt := a.(plan := Some(plan.(binding :=
        Some(Binding(r.revision, r.input, r.fetched, |r.points|, normalization.value)))))];
      bound := true;
    }

    /** `record_export_chunk` with the two checks before it: the row commits before the file is
        written; a repeated capture must be the same. */
    method RecordChunk(id: Identity, c: Lifecycle.Capture) returns (recorded: bool)
      modifies `attempts
      ensures Contents() == Lifecycle.RecordChunk(old(Contents()), id, c)
      ensures recorded ==> id.attempt in attempts && c.key in attempts[id.attempt].receipts
                           && attempts[id.attempt].receipts[c.key] == ReceiptOf(c)
    {
      hide CurrentOwner, CurrentOwnerOf, Total, HeadCapture, Width;
      if id.attempt !in attempts {
        return false;
      }
      var a := attempts[id.attempt];
      if a.owner != id.owner || a.run != c.run || a.status == Failed {
        return false;
      }
      if a.plan.Some? {
        var valid := ValidateHeadCapture(a.plan.value, c);
        if !valid {
          return false;
        }
      }
      if a.epochs.Some? {
        var current := CurrentOwners(id.attempt, Some(c.covered));
        if !current || c.key !in a.expected {
          return false;
        }
        var row := a.expected[c.key];
        if row.scopes != c.covered || row.inputCount != c.inputCount || row.inputDigest != c.inputDigest {
          return false;
        }
      }
      if c.covered == {} || !(c.covered <= a.planned) {
        return false;
      }
      if c.counts.Some?
         && (c.counts.value.Keys != c.covered || Total(c.counts.value, c.covered) != |c.digest.lines|) {
        return false;
      }
      if a.epochs.Some? && c.counts.None? {
        return false;
      }
      if Width(c.digest.lines) > 8 * 1024 * 1024 || |c.digest.lines| > 5000 {
        return false;
      }
      if c.key in a.receipts {
        return a.receipts[c.key] == ReceiptOf(c);
      }
      if a.status != Preparing || a.closed {
        return false;
      }
      attempts := attempts[id.attempt := a.(receipts := a.receipts[c.key :=
        Receipt(c.digest, Width(c.digest.lines), |c.digest.lines|, c.covered, c.counts, c.collected)])];
      recorded := true;
    }

    /** `_fail_export_capture` and `finish_sync_run`: conditional updates. */
    method FailCapture(id: Identity)
      modifies `attempts
      ensures Contents() == Lifecycle.FailCapture(old(Contents()), id)
    {
      if id.attempt in attempts && attempts[id.attempt].owner == id.owner
         && attempts[id.attempt].status == Preparing {
        attempts := attempts[id.attempt := attempts[id.attempt].(status := Failed)];
      }
    }

    method FinishRun(run: RunId, status: RunStatus)
      modifies `runs
      ensures Contents() == Lifecycle.FinishRun(old(Contents()), run, status)
      ensures forall r | r in old(runs) && old(runs)[r].status != Running :: r in runs && runs[r] == old(runs)[r]
      ensures forall r | r in old(runs) && r != run :: r in runs && runs[r] == old(runs)[r]
      ensures run in old(runs) && old(runs)[run].status == Running ==>
        run in runs && runs[run] == Run(status, old(runs)[run].orchestrator)
    {
      if run in runs && runs[run].status == Running {
        runs := runs[run := Run(status, runs[run].orchestrator)];
      }
    }

    // ---- closing the plan ------------------------------------------------------

    /** `close_plan`: builds what each source's chunks should be and what each source was
        admitted, and seals the attempt when all of it agrees. */
    method ClosePlan(id: Identity) returns (seal: Option<Seal>)
      modifies `attempts
      ensures Contents() == Lifecycle.ClosePlan(old(Contents()), id)
      ensures CanClosePlan(old(Contents()), id) ==> seal == Some(SealOf(old(attempts)[id.attempt]))
    {
      hide CurrentOwner, Barrier, SealOf, ChunksCovering, CountsWithin;
      if !Locked(Contents(), id) {
        return None;
      }
      var a := attempts[id.attempt];
      var current := CurrentOwners(id.attempt, None);
      if !current {
        return None;
      }
      if a.closed {
        return a.seal;
      }
      if runs[a.run].status != Running || a.status != Preparing {
        return None;
      }
      var complete := Complete(a);
      if !complete || (a.plan.Some? && a.plan.value.binding.None?) {
        return None;
      }
      seal := Some(SealOf(a));
      attempts := attempts[id.attempt := a.(closed := true, seal := seal)];
    }

    // ---- chunk plan and receipts -----------------------------------------------

    /** `expect_chunk`: a repeated plan row must be the same; a new one is inserted while the
        plan is open and its sources are not closed. */
    method ExpectChunk(id: Identity, key: ChunkKey, row: Expected) returns (planned: bool)
      modifies `attempts
      ensures Contents() == Lifecycle.ExpectChunk(old(Contents()), id, key, row)
      ensures CanExpect(old(Contents()), id, key, row) ==> planned
      ensures planned ==> id.attempt in attempts && key in attempts[id.attempt].expected
                          && attempts[id.attempt].expected[key] == row
    {
      hide CurrentOwnerOf;
      if row.inputCount > MAX_CHUNK_POINTS || |row.scopes| > MAX_CHUNK_SOURCES || !Locked(Contents(), id) {
        return false;
      }
      var a := attempts[id.attempt];
      var current := CurrentOwners(id.attempt, Some(row.scopes));
      if !current || runs[a.run].status != Running || a.status != Preparing || a.closed
         || !(row.scopes <= a.planned) {
        return false;
      }
      if key in a.expected {
        return a.expected[key] == row;
      }
      if || |a.expected| >= MAX_EXPECTED_CHUNKS
         || a.references + |row.scopes| > MAX_PLAN_REFERENCES
         || !(a.closures.Keys !! row.scopes) {
        return false;
      }
      attempts := attempts[id.attempt :=
        a.(expected := a.expected[key := row], references := a.references + |row.scopes|)];
      return true;
    }

    /** `close_source`: fixes the complete list of chunks of one source. */
    method CloseSource(id: Identity, source: Scope, keys: set<ChunkKey>) returns (closed: bool)
      modifies `attempts
      ensures Contents() == Lifecycle.CloseSource(old(Contents()), id, source, keys)
      ensures CanCloseSource(old(Contents()), id, source, keys) ==> closed
      ensures closed ==> id.attempt in attempts && source in attempts[id.attempt].closures
                         && attempts[id.attempt].closures[source] == keys
    {
      hide CurrentOwnerOf;
      if keys == {} || |keys| > MAX_EXPECTED_CHUNKS || !Locked(Contents(), id) {
        return false;
      }
      var a := attempts[id.attempt];
      var current := CurrentOwners(id.attempt, Some({source}));
      if !current || runs[a.run].status != Running || a.status != Preparing || a.closed
         || source !in a.planned || !(keys <= a.expected.Keys)
         || (exists k | k in keys :: source !in a.expected[k].scopes) {
        return false;
      }
      if source in a.closures {
        return a.closures[source] == keys;
      }
      attempts := attempts[id.attempt := a.(closures := a.closures[source := keys])];
      return true;
    }

    // ---- reconcile ---------------------------------------------------------------

    /** What the second transaction of `reconcile` checks again. */
    method StillValid(id: Identity, token: Option<Seal>) returns (valid: bool)
      ensures valid == CanCommitTick(Contents(), id, token)
    {
      hide CurrentOwner;
      if !Locked(Contents(), id) {
        return false;
      }
      var a := attempts[id.attempt];
      var current := CurrentOwners(id.attempt, None);
      valid := current && runs[a.run].status == Success && a.status != Failed && a.seal == token;
    }

    /** The second transaction of `reconcile`: one row per verified receipt, rows that are
        already there are left alone; the attempt is sealed when none is missing. */
    method CommitTick(id: Identity, token: Option<Seal>, rows: map<ChunkKey, Digest>) returns (eligible: bool)
      modifies `attempts
      ensures Contents() == Lifecycle.CommitTick(old(Contents()), id, token, rows)
      ensures eligible == (CanCommitTick(old(Contents()), id, token)
                           && attempts[id.attempt].receipts.Keys <= attempts[id.attempt].validated.Keys)
    {
      hide CanCommitTick, Validate;
      var valid := StillValid(id, token);
      if !valid {
        return false;
      }
      CommitAttempt(Contents(), id, token);
      var a := attempts[id.attempt];
      var validated := InsertRows(a.validated, rows);
      eligible := a.receipts.Keys <= validated.Keys;
      var status := if a.status == Preparing && eligible then Sealed else a.status;
      ValidatedRow(a, rows, validated, status);
      attempts := attempts[id.attempt := a.(validated := validated, status := status)];
    }

    // ---- promotion -----------------------------------------------------------------

    /** The transaction of `promote` that commits the pins. */
    method Pin(id: Identity) returns (pinned: bool)
      modifies `attempts
      ensures Contents() == Heads.Pin(old(Contents()), id)
      ensures pinned == CanPin(old(Contents()), id)
    {
      hide CanPin, Receipts, ParentRefs, PinRows, PinsInserted;
      if !CanPin(Contents(), id) {
        return false;
      }
      CanPinAttempt(Contents(), id);
      var a := attempts[id.attempt];
      var candidates := Receipts(a.receipts);
      var parents := ParentRefs(Contents(), a.plan.value.descriptor);
      var own := seq(|candidates|, i requires 0 <= i < |candidates| => candidates[i].digest);
      var theirs := seq(|parents|, i requires 0 <= i < |parents| => parents[i].digest);
      var mid := InsertPins(a.pins, false, own);
      var pins := InsertPins(mid, true, theirs);
      PinsByKind(candidates, parents, a.pins, own, theirs, mid, pins);
      attempts := attempts[id.attempt := a.(pins := pins)];
      return true;
    }

    /** How the final transaction of `promote` decides the race. */
    method Decide(files: map<Digest, Time>, p: Promotion, gid: GenerationId) returns (outcome: Outcome)
      ensures outcome == CasOutcome(Contents(), files, p, gid)
    {
      hide HasGeneration, AllPresent, NewRefs, DistinctDigests, Content, CurrentOwner;
      var ns := p.plan.descriptor;
      if HasGeneration(Contents(), p.id.attempt) {
        return AlreadyCommitted;
      }
      if !Locked(Contents(), p.id) {
        return Refused;
      }
      var a := attempts[p.id.attempt];
      var current := CurrentOwners(p.id.attempt, None);
      if !current {
        return Refused;
      }
      if runs[a.run].status != Success || a.status != Sealed || a.seal != p.token {
        return Conflict;
      }
      var headGeneration := if ns in heads then Some(heads[ns].generation) else None;
      var parent := if p.parent.Some? then Some(p.parent.value.generation) else None;
      if headGeneration != parent {
        return Conflict;
      }
      if p.plan.binding.None? {
        return Refused;
      }
      var revision := p.plan.binding.value.revision;
      if ns in heads && revision < heads[ns].revision {
        return Superseded;
      }
      if ns in heads && revision == heads[ns].revision && heads[ns].content != Content(p) {
        return Conflict;
      }
      if !AllPresent(files, NewRefs(p)) || gid in generations || !DistinctDigests(NewRefs(p)) || p.token.None? {
        return Refused;
      }
      return Published;
    }

    /** The final transaction of `promote`: the new generation, the head, the publication time and the
        approvals are written and its pins deleted; a loser writes nothing. */
    method Swap(files: map<Digest, Time>, p: Promotion, gid: GenerationId, stamp: Time,
                approved: set<Location>) returns (outcome: Outcome)
      modifies `attempts, `generations, `heads, `clock, `inventory
      ensures outcome == CasOutcome(old(Contents()), files, p, gid)
      ensures outcome == Published ==> p.plan.binding.Some? && p.token.Some? && p.id.attempt in old(attempts)
      ensures outcome != Published ==> Contents() == old(Contents())
      ensures outcome == Published ==> Contents() == Publish(old(Contents()), p, gid, stamp, approved)
    {
      hide CasOutcome, NewRefs, Content, PublicationTime, Approve;
      outcome := Decide(files, p, gid);
      if outcome != Published {
        return;
      }
      PublishedIsPossible(Contents(), files, p, gid);
      var ns := p.plan.descriptor;
      var binding := p.plan.binding.value;
      var published := PublicationTime(Contents(), stamp);
      var content := Content(p);
      var parent := if ns in heads then Some(heads[ns].generation) else None;
      var head := if ns in heads
                  then Head(gid, heads[ns].version + 1, binding.revision, content,
                            Max(binding.collected, heads[ns].collected))
                  else Head(gid, 1, binding.revision, content, binding.collected);
      var row := Generation(p.id.attempt, p.id.owner, p.token.value, ns, parent, binding.revision,
                            binding.collected, content, binding.count, published, NewRefs(p));
      clock := Some(published);
      generations := generations[gid := row];
      heads := heads[ns := head];
      inventory := Approve(inventory, generations, ns, gid, approved);
      attempts := attempts[p.id.attempt :=
        attempts[p.id.attempt].(published := Some(published), pins := map[])];
    }

    // ---- the daily checkpoint -------------------------------------------------------

    /** The last transaction of the daily reducer: the checkpoint is moved only if it is still the
        one the batch was read after. */
    method ApplyBatch(after: Checkpoint, rows: seq<GenerationId>) returns (applied: bool)
      requires rows != [] && rows[|rows| - 1] in generations
      modifies `progress
      ensures applied == (CheckpointOf(old(Contents())) == after)
      ensures applied ==> progress == Some(Checkpoint(generations[rows[|rows| - 1]].created, rows[|rows| - 1]))
      ensures !applied ==> CheckpointOf(Contents()) == CheckpointOf(old(Contents()))
    {
      if progress.None? && after == Checkpoint(EPOCH, 0) {
        progress := Some(after);
      }
      var locked := if progress.Some? then progress.value else Checkpoint(EPOCH, 0);
      if locked != after {
        return false;
      }
      var last := rows[|rows| - 1];
      progress := Some(Checkpoint(generations[last].created, last));
      return true;
    }
  }

  lemma PublishedIsPossible(db: Db, files: map<Digest, Time>, p: Promotion, gid: GenerationId)
    requires CasOutcome(db, files, p, gid) == Published
    ensures p.plan.binding.Some? && p.token.Some? && p.id.attempt in db.attempts
  {
    hide HasGeneration, AllPresent, NewRefs, DistinctDigests, Content, CurrentOwner;
  }

  lemma CommitAttempt(db: Db, id: Identity, token: Option<Seal>)
    requires CanCommitTick(db, id, token)
    ensures id.attempt in db.attempts
  {
    hide CurrentOwner;
  }

  lemma ValidatedRow(a: Attempt, rows: map<ChunkKey, Digest>, validated: map<ChunkKey, Digest>, status: Status)
    requires validated == rows + a.validated
    requires status == if a.status == Preparing && a.receipts.Keys <= validated.Keys then Sealed else a.status
    ensures a.(validated := validated, status := status) == Validate(a, rows)
  {
  }

  lemma CanPinAttempt(db: Db, id: Identity)
    requires CanPin(db, id)
    ensures id.attempt in db.attempts && db.attempts[id.attempt].plan.Some?
  {
    hide Receipts, ReceiptBytes, CurrentOwner;
  }

  /** `INSERT ... ON CONFLICT DO NOTHING`, one row after the other. */
  method InsertRows(table: map<ChunkKey, Digest>, rows: map<ChunkKey, Digest>) returns (now: map<ChunkKey, Digest>)
    ensures now == rows + table
  {
    now := table;
    var rest := rows.Keys;
    while rest != {}
      invariant rest <= rows.Keys
      invariant now.Keys == table.Keys + (rows.Keys - rest)
      invariant forall k | k in now :: now[k] == if k in table then table[k] else rows[k]
      decreases rest
    {
      var k := Least(rest);
      if k !in now {
        now := now[k := rows[k]];
      }
      rest := rest - {k};
    }
  }

  /** The rows of one kind that are there after inserting `files` into `table`. */
  ghost predicate PinsInserted(table: map<PinKey, Digest>, parent: bool, files: seq<Digest>, now: map<PinKey, Digest>) {
    && (forall k :: k in now <==> k in table || (k.ParentPin? == parent && k.index < |files|))
    && (forall k | k in now :: now[k] == if k in table then table[k] else files[k.index])
  }

  function PinKeyOf(parent: bool, index: nat): PinKey {
    if parent then ParentPin(index) else CandidatePin(index)
  }

  /** The inner loop over the files of one kind: the row of a position is inserted unless a row
      with its key is already there. */
  method InsertPins(table: map<PinKey, Digest>, parent: bool, files: seq<Digest>)
    returns (now: map<PinKey, Digest>)
    ensures PinsInserted(table, parent, files, now)
  {
    now := table;
    var i := 0;
    while i < |files|
      invariant 0 <= i <= |files|
      invariant PinsInserted(table, parent, files[..i], now)
    {
      var key := PinKeyOf(parent, i);
      ghost var before := now;
      if key !in now {
        now := now[key := files[i]];
      }
      OneMorePin(table, parent, files, i, before, now);
      i := i + 1;
    }
    assert files[..|files|] == files;
  }

  lemma OneMorePin(table: map<PinKey, Digest>, parent: bool, files: seq<Digest>, i: nat,
                   before: map<PinKey, Digest>, now: map<PinKey, Digest>)
    requires i < |files| && PinsInserted(table, parent, files[..i], before)
    requires now == if PinKeyOf(parent, i) in before then before else before[PinKeyOf(parent, i) := files[i]]
    ensures PinsInserted(table, parent, files[..i + 1], now)
  {
  }

  lemma PinsByKind(candidates: seq<Receipt>, parents: seq<Ref>, table: map<PinKey, Digest>,
                   own: seq<Digest>, theirs: seq<Digest>, mid: map<PinKey, Digest>, now: map<PinKey, Digest>)
    requires |own| == |candidates| && forall i | 0 <= i < |own| :: own[i] == candidates[i].digest
    requires |theirs| == |parents| && forall i | 0 <= i < |theirs| :: theirs[i] == parents[i].digest
    requires PinsInserted(table, false, own, mid) && PinsInserted(mid, true, theirs, now)
    ensures now == PinRows(candidates, parents) + table
  {
    var all := PinRows(candidates, parents);
    forall k
      ensures k in now <==> k in all || k in table
      ensures k in now ==> now[k] == if k in table then table[k] else all[k]
    {
      PinRowsAt(candidates, parents, k);
    }
  }

  lemma PinRowsAt(candidates: seq<Receipt>, parents: seq<Ref>, k: PinKey)
    ensures k in PinRows(candidates, parents) <==>
              if k.ParentPin? then k.index < |parents| else k.index < |candidates|
    ensures k in PinRows(candidates, parents) ==>
              PinRows(candidates, parents)[k]
              == if k.ParentPin? then parents[k.index].digest else candidates[k.index].digest
  {
  }

  /** The part of `close_plan` that compares plans, receipts and closures. */
  method Complete(a: Attempt) returns (complete: bool)
    ensures complete == Barrier(a)
  {
    var known, bySource := ChunksBySource(a.planned, a.expected);
    if !known {
      return false;
    }
    var counted, admitted := AdmittedBySource(a.planned, a.receipts);
    if !counted {
      assert !(forall k | k in a.receipts :: CountsWithin(a.receipts[k], a.planned));
      return false;
    }
    BarrierDecided(a, bySource, admitted);
    complete := && a.expected != map[] && a.closures == bySource
                && a.expected.Keys == a.receipts.Keys
                && !(exists s | s in admitted :: admitted[s] == 0);
  }
}
