/** No reachable state is stuck: from any of them a new attempt can take over a scope and
    publish any complete response that is not behind the head, in whatever chunks it is
    captured.  The one exception, several chunks without a point, is shown by a run. */
module FreshPublication {
  import opened ExportTypes
  import opened Lifecycle
  import opened Heads
  import opened Pipeline
  import opened PipelineInvariant
  import opened PipelinePromotion
  import opened PipelineSteps
  import opened PipelineReferences
  import opened PipelineTheorems
  import opened PromotionOutcome
  import opened Reconcile

  // ---- a response and its chunks ----------------------------------------------

  /** One capture: the values it was taken from and the points that were stored. */
  datatype Chunk = Chunk(values: seq<SemanticPoint>, lines: seq<Point>)

  /** A response that a collector can bind for policy `d`. */
  predicate WellFormed(d: Descriptor, r: Response) {
    && d.locations != {} && r.scope == d.scope && r.points != [] && |r.points| <= 100000 && r.revision <= r.fetched
  }

  function Joined(chunks: seq<Chunk>): seq<Point> {
    if chunks == [] then [] else Joined(chunks[..|chunks| - 1]) + chunks[|chunks| - 1].lines
  }

  function TotalWidth(chunks: seq<Chunk>): nat {
    if chunks == [] then 0 else TotalWidth(chunks[..|chunks| - 1]) + Width(chunks[|chunks| - 1].lines)
  }

  function PlanFor(d: Descriptor, r: Response): Plan {
    Plan(d, r.fetched, Some(BindingOf(r)))
  }

  /** Chunks that can be captured one by one and together hold the response. */
  predicate Divides(d: Descriptor, r: Response, run: RunId, chunks: seq<Chunk>) {
    && 0 < |chunks| <= MAX_PROMOTION_CHUNKS && TotalWidth(chunks) <= MAX_PROMOTION_BYTES
    && (forall i | 0 <= i < |chunks| :: Fits(chunks[i]) && HeadCapture(PlanFor(d, r), CaptureFor(run, r, chunks[i], i)))
    && FollowsPolicy(Joined(chunks), d) && DistinctKeys(Joined(chunks))
    && LocationsOf(Joined(chunks)) == d.locations
    && SemanticBag(Joined(chunks)) == SemanticBag(r.points)
  }

  predicate Fits(c: Chunk) {
    |c.values| <= MAX_CHUNK_POINTS && |c.lines| <= MAX_CHUNK_POINTS && Width(c.lines) <= MAX_CHUNK_BYTES
  }

  predicate OneEmptyChunk(chunks: seq<Chunk>) {
    forall i, j | 0 <= i < j < |chunks| :: chunks[i].lines != [] || chunks[j].lines != []
  }

  /** The head of the policy's namespace neither is ahead of the response nor has more than
      twice its points. */
  predicate HeadAdmits(db: Db, d: Descriptor, r: Response) {
    d in db.heads ==>
      && (|| r.revision > db.heads[d].revision
          || (r.revision == db.heads[d].revision && db.heads[d].content == SemanticBag(r.points)))
      && (db.heads[d].generation in db.generations ==>
            |r.points| * 2 >= db.generations[db.heads[d].generation].count)
  }

  // ---- the collector's rows, one after the other ------------------------------

  function Claimed(owner: OwnerToken, run: RunId, s: Scope, epoch: nat): Attempt {
    FreshAttempt(owner, run, {s}, false, None).(epochs := Some(map[s := epoch]))
  }

  function RowFor(r: Response, c: Chunk): Expected {
    Expected({r.scope}, |c.values|, 0)
  }

  function CaptureFor(run: RunId, r: Response, c: Chunk, key: ChunkKey): Lifecycle.Capture {
    Lifecycle.Capture(run, key, {r.scope}, r.input, c.values, Sha256(c.lines),
                      Some(map[r.scope := |c.lines|]), r.fetched, |c.values|, 0)
  }

  function ReceiptFor(r: Response, c: Chunk): Receipt {
    Receipt(Sha256(c.lines), Width(c.lines), |c.lines|, {r.scope}, Some(map[r.scope := |c.lines|]), r.fetched)
  }

  /** The plan rows and the receipts of the first `n` chunks. */
  function Plans(r: Response, chunks: seq<Chunk>, n: nat): map<ChunkKey, Expected>
    requires n <= |chunks|
  {
    map i: ChunkKey | i < n :: RowFor(r, chunks[i])
  }

  function Rows(r: Response, chunks: seq<Chunk>, n: nat): map<ChunkKey, Receipt>
    requires n <= |chunks|
  {
    map i: ChunkKey | i < n :: ReceiptFor(r, chunks[i])
  }

  function Keys(n: nat): set<ChunkKey> {
    if n == 0 then {} else Keys(n - 1) + {n - 1}
  }

  lemma {:induction false} KeysAre(n: nat)
    ensures forall k: ChunkKey :: k in Keys(n) <==> k < n
    ensures |Keys(n)| == n
  {
    if n > 0 {
      KeysAre(n - 1);
      assert n - 1 !in Keys(n - 1);
    }
  }

  lemma RowKeys(r: Response, chunks: seq<Chunk>, n: nat)
    requires n <= |chunks|
    ensures Plans(r, chunks, n).Keys == Keys(n) && Rows(r, chunks, n).Keys == Keys(n)
    ensures |Plans(r, chunks, n)| == n
  {
    KeysAre(n);
    assert |Plans(r, chunks, n).Keys| == |Plans(r, chunks, n)|;
  }

  /** One more row. */
  lemma NextRow(r: Response, chunks: seq<Chunk>, n: nat)
    requires n < |chunks|
    ensures n !in Plans(r, chunks, n) && n !in Rows(r, chunks, n)
    ensures Plans(r, chunks, n)[n := RowFor(r, chunks[n])] == Plans(r, chunks, n + 1)
    ensures Rows(r, chunks, n)[n := ReceiptFor(r, chunks[n])] == Rows(r, chunks, n + 1)
    ensures n in Plans(r, chunks, |chunks|) && Plans(r, chunks, |chunks|)[n] == RowFor(r, chunks[n])
  {
  }

  function Shut(a: Attempt): Attempt {
    a.(closed := true, seal := Some(SealOf(a)))
  }

  /** The row when its plan is closed. */
  function Final(owner: OwnerToken, run: RunId, epoch: nat, d: Descriptor, r: Response, chunks: seq<Chunk>): Attempt {
    Shut(Claimed(owner, run, d.scope, epoch).(plan := Some(PlanFor(d, r)),
      expected := Plans(r, chunks, |chunks|), references := |chunks|,
      receipts := Rows(r, chunks, |chunks|), closures := map[r.scope := Keys(|chunks|)]))
  }

  /** The database while run `run` collects into attempt `id`, given the one it began in. */
  function Collected(db: Db, run: RunId, status: RunStatus, id: Identity, s: Scope, a: Attempt): Db {
    db.(runs := db.runs[run := Run(status, None)], attempts := db.attempts[id.attempt := a],
        owners := db.owners[s := Ownership(NextEpoch(db.owners, s), id.attempt)])
  }

  /** An open attempt that owns its only scope. */
  ghost predicate Owning(db: Db, run: RunId, id: Identity, s: Scope, a: Attempt) {
    && a.run == run && a.owner == id.owner && a.orchestrator == None && a.planned == {s}
    && a.epochs == Some(map[s := NextEpoch(db.owners, s)])
  }

  lemma OwnsScope(db: Db, run: RunId, status: RunStatus, id: Identity, s: Scope, a: Attempt)
    requires Owning(db, run, id, s, a)
    ensures var now := Collected(db, run, status, id, s, a);
      && id.attempt in now.attempts && now.attempts[id.attempt] == a
      && Locked(now, id) && CurrentOwner(now, id.attempt) && CurrentOwnerOf(now, id.attempt, {s})
      && RunOf(now, id.attempt).status == status
  {
    var epochs := map[s := NextEpoch(db.owners, s)];
    assert epochs.Keys == {s};
    assert s in epochs;
    assert epochs != map[];
  }

  /** The database with the new run and its attempt, before any scope is claimed. */
  function Begun(db: Db, id: Identity, run: RunId, s: Scope): Db {
    db.(runs := db.runs[run := Run(Running, None)],
        attempts := db.attempts[id.attempt := FreshAttempt(id.owner, run, {s}, false, None)])
  }

  lemma Opened(db: Db, id: Identity, run: RunId, s: Scope)
    requires run !in db.runs && id.attempt !in db.attempts
    ensures CreateAttempt(StartRun(db, run, None), id, run, {s}, false, None) == Begun(db, id, run, s)
  {
  }

  lemma ClaimedNow(db: Db, id: Identity, run: RunId, s: Scope)
    ensures Claim(Begun(db, id, run, s), id)
         == Collected(db, run, Running, id, s, Claimed(id.owner, run, s, NextEpoch(db.owners, s)))
  {
    var open := Begun(db, id, run, s);
    var a := open.attempts[id.attempt];
    assert CanClaim(open, id);
    var epochs := map x | x in a.planned :: NextEpoch(open.owners, x);
    assert epochs == map[s := NextEpoch(db.owners, s)];
    assert ClaimedOwners(open.owners, a.planned, id.attempt)
        == db.owners[s := Ownership(NextEpoch(db.owners, s), id.attempt)];
    var now := a.(epochs := Some(epochs));
    assert now == Claimed(id.owner, run, s, NextEpoch(db.owners, s));
    assert open.attempts[id.attempt := now] == db.attempts[id.attempt := now];
  }

  /** A transaction that only replaces the attempt's row. */
  lemma Replaced(db: Db, run: RunId, status: RunStatus, id: Identity, s: Scope, a: Attempt, b: Attempt)
    ensures var now := Collected(db, run, status, id, s, a);
            now.(attempts := now.attempts[id.attempt := b]) == Collected(db, run, status, id, s, b)
  {
    assert db.attempts[id.attempt := a][id.attempt := b] == db.attempts[id.attempt := b];
  }

  lemma Declared(db: Db, run: RunId, id: Identity, a: Attempt, d: Descriptor, at: Time)
    requires Owning(db, run, id, d.scope, a) && a.status == Preparing
    requires a.plan.None? && a.expected == map[] && d.locations != {}
    ensures Declare(Collected(db, run, Running, id, d.scope, a), id, d, true, at)
         == Collected(db, run, Running, id, d.scope, a.(plan := Some(Plan(d, at, None))))
  {
    OwnsScope(db, run, Running, id, d.scope, a);
    Replaced(db, run, Running, id, d.scope, a, a.(plan := Some(Plan(d, at, None))));
    hide Collected, Owning, Locked, CurrentOwner, RunOf;
  }

  lemma BoundNow(db: Db, run: RunId, id: Identity, a: Attempt, d: Descriptor, r: Response)
    requires Owning(db, run, id, d.scope, a) && a.status == Preparing
    requires a.plan == Some(Plan(d, r.fetched, None)) && a.expected == map[]
    requires WellFormed(d, r) && HeadAdmits(db, d, r)
    ensures Bind(Collected(db, run, Running, id, d.scope, a), id, r, r.fetched)
         == Collected(db, run, Running, id, d.scope, a.(plan := Some(PlanFor(d, r))))
  {
    OwnsScope(db, run, Running, id, d.scope, a);
    Replaced(db, run, Running, id, d.scope, a, a.(plan := Some(PlanFor(d, r))));
    var now := Collected(db, run, Running, id, d.scope, a);
    assert now.heads == db.heads && now.generations == db.generations;
    hide Collected, Owning, Locked, CurrentOwner, RunOf, SemanticBag;
  }

  lemma ExpectAllowed(now: Db, id: Identity, a: Attempt, r: Response, c: Chunk, n: nat)
    requires id.attempt in now.attempts && now.attempts[id.attempt] == a && Locked(now, id)
    requires CurrentOwnerOf(now, id.attempt, {r.scope}) && RunOf(now, id.attempt).status == Running
    requires a.planned == {r.scope} && a.status == Preparing && !a.closed && a.closures == map[]
    requires n !in a.expected && |a.expected| == a.references == n < MAX_PROMOTION_CHUNKS
    requires |c.values| <= MAX_CHUNK_POINTS
    ensures CanExpect(now, id, n, RowFor(r, c))
  {
    hide CurrentOwnerOf, Locked, RunOf;
  }

  lemma Expecting(db: Db, run: RunId, id: Identity, a: Attempt, r: Response, chunks: seq<Chunk>, n: nat)
    requires n < |chunks| <= MAX_PROMOTION_CHUNKS && |chunks[n].values| <= MAX_CHUNK_POINTS
    requires Owning(db, run, id, r.scope, a) && a.status == Preparing && !a.closed
    requires a.expected == Plans(r, chunks, n) && a.references == n && a.closures == map[]
    ensures ExpectChunk(Collected(db, run, Running, id, r.scope, a), id, n, RowFor(r, chunks[n]))
         == Collected(db, run, Running, id, r.scope, a.(expected := Plans(r, chunks, n + 1), references := n + 1))
  {
    hide Collected, CanExpect, Plans, Rows, CurrentOwner, CurrentOwnerOf, Locked, RunOf, Keys;
    OwnsScope(db, run, Running, id, r.scope, a);
    Replaced(db, run, Running, id, r.scope, a, a.(expected := Plans(r, chunks, n + 1), references := n + 1));
    NextRow(r, chunks, n);
    RowKeys(r, chunks, n);
    ExpectAllowed(Collected(db, run, Running, id, r.scope, a), id, a, r, chunks[n], n);
  }

  lemma OneTotal(s: Scope, n: nat)
    ensures Total(map[s := n], {s}) == n
  {
    var none: set<Scope> := {};
    assert Least({s}) == s;
    assert {s} - {s} == none;
    assert Total(map[s := n], none) == 0;
  }

  lemma OneOf(d: Descriptor, r: Response, run: RunId, chunks: seq<Chunk>, n: nat)
    requires Divides(d, r, run, chunks) && n < |chunks|
    ensures Fits(chunks[n]) && HeadCapture(PlanFor(d, r), CaptureFor(run, r, chunks[n], n))
  {
    hide Fits, HeadCapture, Joined, CaptureFor, PlanFor;
  }

  lemma RecordAllowed(now: Db, id: Identity, a: Attempt, d: Descriptor, r: Response, run: RunId, c: Chunk, n: nat)
    requires id.attempt in now.attempts && now.attempts[id.attempt] == a && CurrentOwnerOf(now, id.attempt, {r.scope})
    requires a.run == run && a.owner == id.owner && a.planned == {r.scope}
    requires a.status == Preparing && !a.closed && a.plan == Some(PlanFor(d, r))
    requires n in a.expected && a.expected[n] == RowFor(r, c) && n !in a.receipts
    requires Fits(c) && HeadCapture(PlanFor(d, r), CaptureFor(run, r, c, n))
    ensures CanRecord(now, id, CaptureFor(run, r, c, n))
  {
    hide CurrentOwnerOf, HeadCapture, PlanFor, Width;
    OneTotal(r.scope, |c.lines|);
    hide Total;
  }

  lemma Recorded(db: Db, run: RunId, id: Identity, a: Attempt, d: Descriptor, r: Response, chunks: seq<Chunk>, n: nat)
    requires Owning(db, run, id, r.scope, a) && a.status == Preparing && !a.closed
    requires Divides(d, r, run, chunks) && n < |chunks|
    requires a.plan == Some(PlanFor(d, r)) && a.expected == Plans(r, chunks, |chunks|)
    requires a.receipts == Rows(r, chunks, n)
    ensures RecordChunk(Collected(db, run, Running, id, r.scope, a), id, CaptureFor(run, r, chunks[n], n))
         == Collected(db, run, Running, id, r.scope, a.(receipts := Rows(r, chunks, n + 1)))
  {
    hide Collected, CanRecord, Divides, Plans, Rows, PlanFor, Width, HeadCapture, CurrentOwner, CurrentOwnerOf,
         Locked, Fits;
    OwnsScope(db, run, Running, id, r.scope, a);
    Replaced(db, run, Running, id, r.scope, a, a.(receipts := Rows(r, chunks, n + 1)));
    NextRow(r, chunks, n);
    OneOf(d, r, run, chunks, n);
    RecordAllowed(Collected(db, run, Running, id, r.scope, a), id, a, d, r, run, chunks[n], n);
  }

  lemma SourceClosed(db: Db, run: RunId, id: Identity, a: Attempt, r: Response, chunks: seq<Chunk>)
    requires 0 < |chunks| <= MAX_PROMOTION_CHUNKS
    requires Owning(db, run, id, r.scope, a) && a.status == Preparing && !a.closed
    requires a.expected == Plans(r, chunks, |chunks|) && a.closures == map[]
    ensures CloseSource(Collected(db, run, Running, id, r.scope, a), id, r.scope, Keys(|chunks|))
         == Collected(db, run, Running, id, r.scope, a.(closures := map[r.scope := Keys(|chunks|)]))
  {
    OwnsScope(db, run, Running, id, r.scope, a);
    Replaced(db, run, Running, id, r.scope, a, a.(closures := map[r.scope := Keys(|chunks|)]));
    KeysAre(|chunks|);
    assert 0 in Keys(|chunks|);
    hide Collected, Owning, Locked, CurrentOwnerOf, RunOf, Keys;
  }

  lemma {:induction false} AdmittedSome(rows: map<ChunkKey, Receipt>, keys: set<ChunkKey>, s: Scope, k: ChunkKey)
    requires keys <= rows.Keys && k in keys
    requires rows[k].counts.Some? && s in rows[k].counts.value && rows[k].counts.value[s] > 0
    ensures Admitted(rows, keys, s) > 0
  {
    if k != Least(keys) {
      AdmittedSome(rows, keys - {Least(keys)}, s, k);
    }
  }

  lemma {:induction false} SomeChunk(chunks: seq<Chunk>) returns (k: nat)
    requires Joined(chunks) != []
    ensures k < |chunks| && chunks[k].lines != []
  {
    if chunks[|chunks| - 1].lines != [] {
      k := |chunks| - 1;
    } else {
      k := SomeChunk(chunks[..|chunks| - 1]);
    }
  }

  lemma OneScopeBarrier(a: Attempt, s: Scope, keys: set<ChunkKey>)
    requires a.planned == {s} && keys != {}
    requires a.expected.Keys == keys && a.receipts.Keys == keys && a.closures == map[s := keys]
    requires ChunksCovering(a.expected, s) == keys
    requires forall k | k in a.expected :: a.expected[k].scopes == {s}
    requires forall k | k in a.receipts :: a.receipts[k].counts.Some? ==> a.receipts[k].counts.value.Keys == {s}
    requires Admitted(a.receipts, keys, s) > 0
    ensures Barrier(a)
  {
    hide Admitted, ChunksCovering;
    var k :| k in keys;
    assert k in a.expected;
  }

  lemma BarrierMet(a: Attempt, r: Response, chunks: seq<Chunk>)
    requires a.planned == {r.scope} && Joined(chunks) != []
    requires a.expected == Plans(r, chunks, |chunks|) && a.receipts == Rows(r, chunks, |chunks|)
    requires a.closures == map[r.scope := Keys(|chunks|)]
    ensures Barrier(a)
  {
    SomeAdmitted(r, chunks);
    RowKeys(r, chunks, |chunks|);
    RowsCover(r, chunks);
    hide *;
    OneScopeBarrier(a, r.scope, Keys(|chunks|));
  }

  lemma SomeAdmitted(r: Response, chunks: seq<Chunk>)
    requires Joined(chunks) != []
    ensures Rows(r, chunks, |chunks|).Keys != {}
    ensures Admitted(Rows(r, chunks, |chunks|), Rows(r, chunks, |chunks|).Keys, r.scope) > 0
  {
    var k := SomeChunk(chunks);
    hide Joined, Admitted;
    var rows := Rows(r, chunks, |chunks|);
    assert k in rows && rows[k].counts.value[r.scope] == |chunks[k].lines|;
    AdmittedSome(rows, rows.Keys, r.scope, k);
  }

  lemma RowsCover(r: Response, chunks: seq<Chunk>)
    ensures forall k | k in Plans(r, chunks, |chunks|) :: Plans(r, chunks, |chunks|)[k].scopes == {r.scope}
    ensures forall k | k in Rows(r, chunks, |chunks|) ::
              Rows(r, chunks, |chunks|)[k].counts.Some? && Rows(r, chunks, |chunks|)[k].counts.value.Keys == {r.scope}
    ensures ChunksCovering(Plans(r, chunks, |chunks|), r.scope) == Plans(r, chunks, |chunks|).Keys
  {
  }

  lemma AllClosed(db: Db, run: RunId, id: Identity, a: Attempt, r: Response)
    requires Owning(db, run, id, r.scope, a) && a.status == Preparing && !a.closed
    requires Barrier(a) && PlanSealable(a)
    ensures ClosePlan(Collected(db, run, Running, id, r.scope, a), id)
         == Collected(db, run, Running, id, r.scope, a.(closed := true, seal := Some(SealOf(a))))
  {
    OwnsScope(db, run, Running, id, r.scope, a);
    Replaced(db, run, Running, id, r.scope, a, a.(closed := true, seal := Some(SealOf(a))));
    hide Collected, Owning, Locked, CurrentOwner, RunOf, Barrier, PlanSealable, SealOf;
  }

  lemma Finished(db: Db, run: RunId, id: Identity, s: Scope, a: Attempt)
    ensures FinishRun(Collected(db, run, Running, id, s, a), run, Success)
         == Collected(db, run, Success, id, s, a)
  {
    assert db.runs[run := Run(Running, None)][run := Run(Success, None)] == db.runs[run := Run(Success, None)];
  }

  // ---- the collector's run ----------------------------------------------------

  lemma CollectorCase(w: World, a: Action)
    requires IsCollectorStep(a)
    ensures Next(w, a) == NextCollector(w, a)
  {
    hide NextCollector;
  }

  lemma Three(w: World, a: Action, b: Action, c: Action)
    ensures Execute(w, [a, b, c]) == Next(Next(Next(w, a), b), c)
  {
    hide Next;
    assert [a, b, c] == [a, b] + [c] && [a, b] == [a] + [b];
    ExecuteSplit(w, [a, b], [c]);
    ExecuteSplit(w, [a], [b]);
    Single(w, a);
    Single(Next(w, a), b);
    Single(Next(Next(w, a), b), c);
  }

  /** Claim, as the first owner or by taking the scope over. */
  function OpenRun(id: Identity, run: RunId, s: Scope): seq<Action> {
    [BeginRun(run, None), BeginAttempt(id, run, {s}, false, None), ClaimScopes(id)]
  }

  lemma OpenRunEnds(w: World, id: Identity, run: RunId, s: Scope)
    requires run !in w.db.runs && id.attempt !in w.db.attempts
    ensures Execute(w, OpenRun(id, run, s))
         == OnDb(w, Collected(w.db, run, Running, id, s, Claimed(id.owner, run, s, NextEpoch(w.db.owners, s))))
  {
    hide Next, StartRun, CreateAttempt, Claim, Collected, Claimed, Begun;
    var a, b, c := BeginRun(run, None), BeginAttempt(id, run, {s}, false, None), ClaimScopes(id);
    Three(w, a, b, c);
    CollectorCase(w, a);
    CollectorCase(Next(w, a), b);
    CollectorCase(Next(Next(w, a), b), c);
    Opened(w.db, id, run, s);
    ClaimedNow(w.db, id, run, s);
  }

  function ExpectRun(id: Identity, r: Response, chunks: seq<Chunk>, n: nat): seq<Action>
    requires n <= |chunks|
  {
    if n == 0 then [] else ExpectRun(id, r, chunks, n - 1) + [PlanChunk(id, n - 1, RowFor(r, chunks[n - 1]))]
  }

  lemma More(w: World, actions: seq<Action>, a: Action)
    ensures Execute(w, actions + [a]) == Next(Execute(w, actions), a)
  {
    hide Next;
    ExecuteSplit(w, actions, [a]);
    Single(Execute(w, actions), a);
  }

  function WithPlans(a: Attempt, r: Response, chunks: seq<Chunk>, n: nat): Attempt
    requires n <= |chunks|
  {
    a.(expected := Plans(r, chunks, n), references := n)
  }

  lemma ExpectOne(u: World, db: Db, run: RunId, id: Identity, a: Attempt, r: Response, chunks: seq<Chunk>, n: nat)
    requires n < |chunks| <= MAX_PROMOTION_CHUNKS && |chunks[n].values| <= MAX_CHUNK_POINTS
    requires Owning(db, run, id, r.scope, a) && a.status == Preparing && !a.closed && a.closures == map[]
    requires u.db == Collected(db, run, Running, id, r.scope, WithPlans(a, r, chunks, n))
    ensures Next(u, PlanChunk(id, n, RowFor(r, chunks[n])))
         == OnDb(u, Collected(db, run, Running, id, r.scope, WithPlans(a, r, chunks, n + 1)))
  {
    hide Next, ExpectChunk, Collected, Plans;
    CollectorCase(u, PlanChunk(id, n, RowFor(r, chunks[n])));
    Expecting(db, run, id, WithPlans(a, r, chunks, n), r, chunks, n);
  }

  lemma NothingPlanned(a: Attempt, r: Response, chunks: seq<Chunk>)
    requires a.expected == map[] && a.references == 0
    ensures WithPlans(a, r, chunks, 0) == a
  {
    assert Plans(r, chunks, 0) == map[];
  }

  lemma {:induction false} ExpectRunEnds(w: World, db: Db, run: RunId, id: Identity, a: Attempt, r: Response,
                                         chunks: seq<Chunk>, n: nat)
    requires n <= |chunks| <= MAX_PROMOTION_CHUNKS
    requires forall i | 0 <= i < |chunks| :: |chunks[i].values| <= MAX_CHUNK_POINTS
    requires Owning(db, run, id, r.scope, a) && a.status == Preparing && !a.closed && a.closures == map[]
    requires a.expected == map[] && a.references == 0
    requires w.db == Collected(db, run, Running, id, r.scope, a)
    ensures Execute(w, ExpectRun(id, r, chunks, n))
         == OnDb(w, Collected(db, run, Running, id, r.scope, WithPlans(a, r, chunks, n)))
  {
    hide Next, Collected, WithPlans, RowFor, Execute, Owning;
    if n == 0 {
      NothingPlanned(a, r, chunks);
      Nothing(w);
    } else {
      ExpectRunEnds(w, db, run, id, a, r, chunks, n - 1);
      var action := PlanChunk(id, n - 1, RowFor(r, chunks[n - 1]));
      More(w, ExpectRun(id, r, chunks, n - 1), action);
      ExpectOne(OnDb(w, Collected(db, run, Running, id, r.scope, WithPlans(a, r, chunks, n - 1))),
                db, run, id, a, r, chunks, n - 1);
    }
  }

  function BindRun(id: Identity, d: Descriptor, r: Response): seq<Action> {
    [DeclarePolicy(id, d, true), BindResponse(id, r)]
  }

  lemma BindRunEnds(w: World, db: Db, run: RunId, id: Identity, a: Attempt, d: Descriptor, r: Response)
    requires Owning(db, run, id, d.scope, a) && a.status == Preparing && a.plan.None? && a.expected == map[]
    requires WellFormed(d, r) && HeadAdmits(db, d, r) && w.time == r.fetched
    requires w.db == Collected(db, run, Running, id, d.scope, a)
    ensures Execute(w, BindRun(id, d, r))
         == OnDb(w, Collected(db, run, Running, id, d.scope, a.(plan := Some(PlanFor(d, r)))))
  {
    hide Next, Declare, Bind, Collected;
    var x, y := DeclarePolicy(id, d, true), BindResponse(id, r);
    More(w, [x], y);
    Single(w, x);
    CollectorCase(w, x);
    CollectorCase(Next(w, x), y);
    Declared(db, run, id, a, d, r.fetched);
    var declared := a.(plan := Some(Plan(d, r.fetched, None)));
    BoundNow(db, run, id, declared, d, r);
  }

  /** Each chunk is recorded, then its file is written. */
  function CaptureRun(id: Identity, run: RunId, r: Response, chunks: seq<Chunk>, n: nat): seq<Action>
    requires n <= |chunks|
  {
    if n == 0 then []
    else CaptureRun(id, run, r, chunks, n - 1)
         + [Action.Capture(id, CaptureFor(run, r, chunks[n - 1], n - 1))] + [WriteFile(id.attempt, n - 1)]
  }

  /** The files of the first `n` chunks are on disk. */
  function Stored(w: World, aid: AttemptId, chunks: seq<Chunk>, n: nat): World
    requires n <= |chunks|
  {
    if n == 0 then w
    else
      var u := Stored(w, aid, chunks, n - 1);
      u.(files := u.files[Sha256(chunks[n - 1].lines) := w.time], written := u.written + {(aid, n - 1)})
  }

  lemma {:induction false} StoredFiles(w: World, aid: AttemptId, chunks: seq<Chunk>, n: nat)
    requires n <= |chunks|
    ensures forall i | 0 <= i < n :: Sha256(chunks[i].lines) in Stored(w, aid, chunks, n).files
    ensures var u := Stored(w, aid, chunks, n); u == w.(files := u.files, written := u.written)
  {
    if n > 0 {
      StoredFiles(w, aid, chunks, n - 1);
    }
  }

  lemma WriteStep(u: World, db: Db, run: RunId, id: Identity, b: Attempt, s: Scope, key: ChunkKey, lines: seq<Point>)
    requires GuardFree(u) && u.db == Collected(db, run, Running, id, s, b)
    requires key in b.receipts && b.receipts[key].digest == Sha256(lines)
    ensures Next(u, WriteFile(id.attempt, key))
         == u.(files := u.files[Sha256(lines) := u.time], written := u.written + {(id.attempt, key)})
  {
    hide Next, GuardFree;
    CollectorCase(u, WriteFile(id.attempt, key));
  }

  lemma RecordStep(w: World, id: Identity, c: Lifecycle.Capture)
    ensures Next(w, Action.Capture(id, c)) == OnDb(w, RecordChunk(w.db, id, c))
  {
    hide Next, RecordChunk;
    CollectorCase(w, Action.Capture(id, c));
  }

  lemma SourceStep(w: World, id: Identity, s: Scope, keys: set<ChunkKey>)
    ensures Next(w, CloseOneSource(id, s, keys)) == OnDb(w, CloseSource(w.db, id, s, keys))
  {
    hide Next, CloseSource;
    CollectorCase(w, CloseOneSource(id, s, keys));
  }

  function WithRows(a: Attempt, r: Response, chunks: seq<Chunk>, n: nat): Attempt
    requires n <= |chunks|
  {
    a.(receipts := Rows(r, chunks, n))
  }

  /** An owning attempt whose chunks are all planned. */
  ghost predicate Capturing(db: Db, run: RunId, id: Identity, a: Attempt, d: Descriptor, r: Response,
                            chunks: seq<Chunk>)
  {
    && Owning(db, run, id, r.scope, a) && a.status == Preparing && !a.closed
    && Divides(d, r, run, chunks)
    && a.plan == Some(PlanFor(d, r)) && a.expected == Plans(r, chunks, |chunks|)
  }

  lemma CaptureOne(u: World, db: Db, run: RunId, id: Identity, a: Attempt, d: Descriptor, r: Response,
                   chunks: seq<Chunk>, n: nat)
    requires Capturing(db, run, id, a, d, r, chunks) && n < |chunks| && GuardFree(u)
    requires u.db == Collected(db, run, Running, id, r.scope, WithRows(a, r, chunks, n))
    ensures Next(Next(u, Action.Capture(id, CaptureFor(run, r, chunks[n], n))), WriteFile(id.attempt, n))
         == OnDb(u, Collected(db, run, Running, id, r.scope, WithRows(a, r, chunks, n + 1)))
            .(files := u.files[Sha256(chunks[n].lines) := u.time], written := u.written + {(id.attempt, n)})
  {
    hide Next, RecordChunk, Collected, Divides, GuardFree, Plans, Rows, PlanFor;
    RecordStep(u, id, CaptureFor(run, r, chunks[n], n));
    Recorded(db, run, id, WithRows(a, r, chunks, n), d, r, chunks, n);
    var b := WithRows(a, r, chunks, n + 1);
    var v := OnDb(u, Collected(db, run, Running, id, r.scope, b));
    GuardSame(u, v);
    NextRow(r, chunks, n);
    WriteStep(v, db, run, id, b, r.scope, n, chunks[n].lines);
  }

  lemma NothingRecorded(a: Attempt, r: Response, chunks: seq<Chunk>)
    requires a.receipts == map[]
    ensures WithRows(a, r, chunks, 0) == a
  {
    assert Rows(r, chunks, 0) == map[];
  }

  lemma {:induction false} CaptureRunEnds(w: World, db: Db, run: RunId, id: Identity, a: Attempt, d: Descriptor,
                                          r: Response, chunks: seq<Chunk>, n: nat)
    requires Capturing(db, run, id, a, d, r, chunks) && n <= |chunks| && GuardFree(w) && a.receipts == map[]
    requires w.db == Collected(db, run, Running, id, r.scope, a)
    ensures Execute(w, CaptureRun(id, run, r, chunks, n))
         == OnDb(Stored(w, id.attempt, chunks, n),
                 Collected(db, run, Running, id, r.scope, WithRows(a, r, chunks, n)))
  {
    hide Next, Collected, GuardFree, CaptureFor, WithRows, Execute, Capturing;
    if n == 0 {
      NothingRecorded(a, r, chunks);
      Nothing(w);
    } else {
      CaptureRunEnds(w, db, run, id, a, d, r, chunks, n - 1);
      var front := CaptureRun(id, run, r, chunks, n - 1);
      var x, y := Action.Capture(id, CaptureFor(run, r, chunks[n - 1], n - 1)), WriteFile(id.attempt, n - 1);
      More(w, front, x);
      More(w, front + [x], y);
      StoredFiles(w, id.attempt, chunks, n - 1);
      var was := Stored(w, id.attempt, chunks, n - 1);
      var u := OnDb(was, Collected(db, run, Running, id, r.scope, WithRows(a, r, chunks, n - 1)));
      GuardSame(w, u);
      CaptureOne(u, db, run, id, a, d, r, chunks, n - 1);
    }
  }

  lemma Nothing(w: World)
    ensures Execute(w, []) == w
  {
  }

  function CloseRun(id: Identity, run: RunId, s: Scope, keys: set<ChunkKey>): seq<Action> {
    [CloseOneSource(id, s, keys), CloseAll(id), EndRun(run, Success)]
  }

  lemma CloseRunEnds(w: World, db: Db, run: RunId, id: Identity, a: Attempt, r: Response, chunks: seq<Chunk>)
    requires 0 < |chunks| <= MAX_PROMOTION_CHUNKS && Joined(chunks) != []
    requires Owning(db, run, id, r.scope, a) && a.status == Preparing && !a.closed && PlanSealable(a)
    requires a.expected == Plans(r, chunks, |chunks|) && a.receipts == Rows(r, chunks, |chunks|)
    requires a.closures == map[] && w.db == Collected(db, run, Running, id, r.scope, a)
    ensures Execute(w, CloseRun(id, run, r.scope, Keys(|chunks|)))
         == OnDb(w, Collected(db, run, Success, id, r.scope, Shut(a.(closures := map[r.scope := Keys(|chunks|)]))))
  {
    hide Next, CloseSource, ClosePlan, FinishRun, Collected, Barrier, SealOf, Plans, Rows, Keys, Joined;
    var x, y, z := CloseOneSource(id, r.scope, Keys(|chunks|)), CloseAll(id), EndRun(run, Success);
    Three(w, x, y, z);
    SourceStep(w, id, r.scope, Keys(|chunks|));
    SourceClosed(db, run, id, a, r, chunks);
    var b := a.(closures := map[r.scope := Keys(|chunks|)]);
    BarrierMet(b, r, chunks);
    var u := Next(w, x);
    CollectorCase(u, y);
    AllClosed(db, run, id, b, r);
    CollectorCase(Next(u, y), z);
    Finished(db, run, id, r.scope, b.(closed := true, seal := Some(SealOf(b))));
  }

  function CollectRun(id: Identity, run: RunId, d: Descriptor, r: Response, chunks: seq<Chunk>): seq<Action> {
    [AdvanceClock(r.fetched)] + OpenRun(id, run, d.scope) + BindRun(id, d, r)
      + ExpectRun(id, r, chunks, |chunks|) + CaptureRun(id, run, r, chunks, |chunks|)
      + CloseRun(id, run, r.scope, Keys(|chunks|))
  }

  /** The state a collector leaves to the publisher. */
  function Handed(w: World, id: Identity, run: RunId, d: Descriptor, r: Response, chunks: seq<Chunk>): World {
    OnDb(Stored(w.(time := r.fetched), id.attempt, chunks, |chunks|),
         Collected(w.db, run, Success, id, d.scope,
                   Final(id.owner, run, NextEpoch(w.db.owners, d.scope), d, r, chunks)))
  }

  lemma Six(w: World, a: seq<Action>, b: seq<Action>, c: seq<Action>, d: seq<Action>, e: seq<Action>, f: seq<Action>)
    ensures Execute(w, a + b + c + d + e + f)
         == Execute(Execute(Execute(Execute(Execute(Execute(w, a), b), c), d), e), f)
  {
    hide Execute;
    ExecuteSplit(w, a + b + c + d + e, f);
    ExecuteSplit(w, a + b + c + d, e);
    ExecuteSplit(w, a + b + c, d);
    ExecuteSplit(w, a + b, c);
    ExecuteSplit(w, a, b);
  }

  lemma ClockStep(w: World, now: Time)
    requires w.time <= now
    ensures Execute(w, [AdvanceClock(now)]) == w.(time := now)
  {
    hide Next;
    Single(w, AdvanceClock(now));
    CollectorCase(w, AdvanceClock(now));
  }

  lemma DividesIs(d: Descriptor, r: Response, run: RunId, chunks: seq<Chunk>)
    requires Divides(d, r, run, chunks) && r.points != []
    ensures 0 < |chunks| <= MAX_PROMOTION_CHUNKS && Joined(chunks) != []
    ensures forall i | 0 <= i < |chunks| :: |chunks[i].values| <= MAX_CHUNK_POINTS
  {
    hide HeadCapture, Joined, FollowsPolicy, DistinctKeys, LocationsOf, CaptureFor, TotalWidth, Width;
    BagSize(Joined(chunks));
    BagSize(r.points);
  }

  lemma CollectRunEnds(w: World, id: Identity, run: RunId, d: Descriptor, r: Response, chunks: seq<Chunk>)
    requires run !in w.db.runs && id.attempt !in w.db.attempts && GuardFree(w)
    requires WellFormed(d, r) && Divides(d, r, run, chunks) && HeadAdmits(w.db, d, r) && w.time <= r.fetched
    ensures Execute(w, CollectRun(id, run, d, r, chunks)) == Handed(w, id, run, d, r, chunks)
  {
    hide Execute, Next, Collected, GuardFree, HeadAdmits, OpenRun, BindRun, ExpectRun, CaptureRun, CloseRun, Stored,
         Divides, Plans, Rows, Keys, PlanFor, SealOf, Joined;
    DividesIs(d, r, run, chunks);
    var s, e, n := d.scope, NextEpoch(w.db.owners, d.scope), |chunks|;
    Six(w, [AdvanceClock(r.fetched)], OpenRun(id, run, s), BindRun(id, d, r), ExpectRun(id, r, chunks, n),
        CaptureRun(id, run, r, chunks, n), CloseRun(id, run, r.scope, Keys(n)));
    var u := w.(time := r.fetched);
    ClockStep(w, r.fetched);
    OpenRunEnds(u, id, run, s);
    var a := Claimed(id.owner, run, s, e);
    BindRunEnds(OnDb(u, Collected(w.db, run, Running, id, s, a)), w.db, run, id, a, d, r);
    var b := a.(plan := Some(PlanFor(d, r)));
    ExpectRunEnds(OnDb(u, Collected(w.db, run, Running, id, s, b)), w.db, run, id, b, r, chunks, n);
    var c := WithPlans(b, r, chunks, n);
    var v := OnDb(u, Collected(w.db, run, Running, id, s, c));
    GuardSame(w, v);
    CaptureRunEnds(v, w.db, run, id, c, d, r, chunks, n);
    FinishCollecting(u, w.db, id, run, c, d, r, chunks);
    assert Shut(WithRows(c, r, chunks, n).(closures := map[r.scope := Keys(n)]))
        == Final(id.owner, run, e, d, r, chunks);
  }

  lemma FinishCollecting(u: World, db: Db, id: Identity, run: RunId, c: Attempt, d: Descriptor, r: Response,
                         chunks: seq<Chunk>)
    requires Capturing(db, run, id, c, d, r, chunks) && r.points != [] && c.closures == map[]
    ensures var v := OnDb(u, Collected(db, run, Running, id, r.scope, c));
      Execute(OnDb(Stored(v, id.attempt, chunks, |chunks|),
                   Collected(db, run, Running, id, r.scope, WithRows(c, r, chunks, |chunks|))),
              CloseRun(id, run, r.scope, Keys(|chunks|)))
      == OnDb(Stored(u, id.attempt, chunks, |chunks|), Collected(db, run, Success, id, r.scope,
              Shut(WithRows(c, r, chunks, |chunks|).(closures := map[r.scope := Keys(|chunks|)]))))
  {
    hide Execute, Next, Collected, CloseRun, Stored, Divides, Plans, Rows, Keys, SealOf, Joined;
    DividesIs(d, r, run, chunks);
    var v := OnDb(u, Collected(db, run, Running, id, r.scope, c));
    StoredApart(u, v, id.attempt, chunks, |chunks|);
    var x := OnDb(Stored(v, id.attempt, chunks, |chunks|),
                  Collected(db, run, Running, id, r.scope, WithRows(c, r, chunks, |chunks|)));
    CloseRunEnds(x, db, run, id, WithRows(c, r, chunks, |chunks|), r, chunks);
  }

  /** Writing files does not look at the database. */
  lemma {:induction false} StoredApart(u: World, v: World, aid: AttemptId, chunks: seq<Chunk>, n: nat)
    requires n <= |chunks| && v == u.(db := v.db)
    ensures Stored(v, aid, chunks, n) == Stored(u, aid, chunks, n).(db := v.db)
  {
    if n > 0 {
      StoredApart(u, v, aid, chunks, n - 1);
    }
  }

  // ---- what the publisher finds -------------------------------------------------

  lemma {:induction false} RangeSorted(keys: seq<nat>, n: nat)
    requires Increasing(keys) && |keys| == n && forall k | k in keys :: k < n
    ensures forall i | 0 <= i < n :: keys[i] == i
  {
    if n > 0 {
      var front := keys[..n - 1];
      assert keys[n - 1] in keys;
      forall k | k in front ensures k < n - 1 {
        var i :| 0 <= i < n - 1 && front[i] == k;
        assert keys[i] < keys[n - 1];
      }
      RangeSorted(front, n - 1);
      assert forall i | 0 <= i < n - 1 :: keys[i] == front[i];
      assert n > 1 ==> keys[n - 2] < keys[n - 1];
    }
  }

  lemma RowsOrdered(r: Response, chunks: seq<Chunk>)
    ensures var rows := Receipts(Rows(r, chunks, |chunks|));
      && |rows| == |chunks| && forall i | 0 <= i < |chunks| :: rows[i] == ReceiptFor(r, chunks[i])
  {
    var rows := Rows(r, chunks, |chunks|);
    RowKeys(r, chunks, |chunks|);
    KeysAre(|chunks|);
    SortedKeysSorts(Keys(|chunks|));
    var keys := SortedKeys(Keys(|chunks|));
    RangeSorted(keys, |chunks|);
    RowsInOrderMembers(rows, keys);
    forall i | 0 <= i < |chunks| ensures Receipts(rows)[i] == ReceiptFor(r, chunks[i]) {
      assert i in rows;
    }
  }

  lemma {:induction false} JoinedLines(receipts: seq<Receipt>, r: Response, chunks: seq<Chunk>)
    requires |receipts| == |chunks| && forall i | 0 <= i < |chunks| :: receipts[i] == ReceiptFor(r, chunks[i])
    ensures LinesOf(receipts) == Joined(chunks) && ReceiptBytes(receipts) == TotalWidth(chunks)
  {
    if chunks != [] {
      JoinedLines(receipts[..|receipts| - 1], r, chunks[..|chunks| - 1]);
    }
  }

  lemma CandidateComplete(m: Promotion, d: Descriptor, r: Response, run: RunId, chunks: seq<Chunk>)
    requires WellFormed(d, r) && Divides(d, r, run, chunks)
    requires m.plan == PlanFor(d, r) && m.rows == Rows(r, chunks, |chunks|)
    ensures CandidateAccepted(m) && Content(m) == SemanticBag(r.points)
    ensures AtMostOneEmpty(m.rows) <==> OneEmptyChunk(chunks)
  {
    RowsOrdered(r, chunks);
    JoinedLines(Receipts(m.rows), r, chunks);
    BagSize(Joined(chunks));
    BagSize(r.points);
    EmptyRows(r, chunks);
    hide Receipts, LinesOf, Joined, SemanticBag, FollowsPolicy, DistinctKeys, LocationsOf, Rows, AtMostOneEmpty,
         OneEmptyChunk, HeadCapture, TotalWidth, Fits;
  }

  lemma EmptyRows(r: Response, chunks: seq<Chunk>)
    ensures AtMostOneEmpty(Rows(r, chunks, |chunks|)) <==> OneEmptyChunk(chunks)
  {
    var rows := Rows(r, chunks, |chunks|);
    assert forall k | k in rows :: k < |chunks| && rows[k].digest.lines == chunks[k].lines;
    assert forall i | 0 <= i < |chunks| :: i in rows;
    if OneEmptyChunk(chunks) {
      forall j, k | j in rows && k in rows && rows[j].digest.lines == [] && rows[k].digest.lines == []
        ensures j == k
      {
        assert chunks[j].lines == [] && chunks[k].lines == [];
      }
    }
  }

  lemma FinalOwning(w: World, id: Identity, run: RunId, d: Descriptor, r: Response, chunks: seq<Chunk>)
    requires r.scope == d.scope
    ensures var a := Final(id.owner, run, NextEpoch(w.db.owners, d.scope), d, r, chunks);
            Owning(w.db, run, id, d.scope, a) && a.status == Preparing && a.closed && a.published.None?
            && a.plan == Some(PlanFor(d, r)) && a.receipts == Rows(r, chunks, |chunks|)
  {
    hide PlanFor, SealOf, Plans, Rows, Keys;
  }

  /** What the collector leaves alone. */
  lemma HandedIs(w: World, id: Identity, run: RunId, d: Descriptor, r: Response, chunks: seq<Chunk>)
    requires r.scope == d.scope
    ensures var v := Handed(w, id, run, d, r, chunks);
      && v.gcs == w.gcs && v.ticks == w.ticks && v.promotions == w.promotions
      && v.db.heads == w.db.heads && v.db.generations == w.db.generations
      && id.attempt in v.db.attempts
      && v.db.attempts[id.attempt] == Final(id.owner, run, NextEpoch(w.db.owners, d.scope), d, r, chunks)
      && Locked(v.db, id) && CurrentOwner(v.db, id.attempt) && RunOf(v.db, id.attempt).status == Success
      && forall i | 0 <= i < |chunks| :: Sha256(chunks[i].lines) in v.files
  {
    hide Final, Stored, Locked, CurrentOwner, Owning, RunOf;
    FinalOwning(w, id, run, d, r, chunks);
    OwnsScope(w.db, run, Success, id, d.scope, Final(id.owner, run, NextEpoch(w.db.owners, d.scope), d, r, chunks));
    StoredFiles(w.(time := r.fetched), id.attempt, chunks, |chunks|);
  }

  lemma RowsReadable(files: map<Digest, Time>, r: Response, chunks: seq<Chunk>)
    requires forall i | 0 <= i < |chunks| :: Sha256(chunks[i].lines) in files
    ensures forall k | k in Rows(r, chunks, |chunks|) ::
              Readable(files, ReceiptRef(Rows(r, chunks, |chunks|)[k]))
  {
  }

  lemma TicksAllowed(db: Db, id: Identity)
    requires id.attempt in db.attempts && Locked(db, id) && CurrentOwner(db, id.attempt)
    requires RunOf(db, id.attempt).status == Success
    requires db.attempts[id.attempt].closed && db.attempts[id.attempt].status == Preparing
    ensures CanTick(db, id)
  {
    hide CurrentOwner;
  }

  lemma PinsAllowed(db: Db, id: Identity, d: Descriptor, r: Response, run: RunId, chunks: seq<Chunk>)
    requires id.attempt in db.attempts && Locked(db, id) && CurrentOwner(db, id.attempt)
    requires db.attempts[id.attempt].plan == Some(PlanFor(d, r)) && r.scope == d.scope && r.points != []
    requires db.attempts[id.attempt].receipts == Rows(r, chunks, |chunks|) && Divides(d, r, run, chunks)
    ensures CanPin(db, id)
  {
    WidthBound(d, r, run, chunks);
    DividesIs(d, r, run, chunks);
    RowsOrdered(r, chunks);
    JoinedLines(Receipts(Rows(r, chunks, |chunks|)), r, chunks);
    RowsFit(r, chunks);
    hide Receipts, Rows, Locked, CurrentOwner, Divides, ReceiptBytes, LinesOf, Joined, TotalWidth;
  }

  /** A closed attempt of a finished run is the reconciler's, and then the promoter's. */
  lemma HandedReady(w: World, id: Identity, run: RunId, d: Descriptor, r: Response, chunks: seq<Chunk>)
    requires WellFormed(d, r) && Divides(d, r, run, chunks)
    ensures var v := Handed(w, id, run, d, r, chunks);
      CanTick(v.db, id) && AllReadable(v, id.attempt) && CanPin(v.db, id)
  {
    hide Handed, Final, Rows, Owning, Locked, CurrentOwner, RunOf, Divides, Readable, CanTick, CanPin, PlanFor;
    var v := Handed(w, id, run, d, r, chunks);
    HandedIs(w, id, run, d, r, chunks);
    FinalOwning(w, id, run, d, r, chunks);
    RowsReadable(v.files, r, chunks);
    TicksAllowed(v.db, id);
    PinsAllowed(v.db, id, d, r, run, chunks);
  }

  lemma WidthBound(d: Descriptor, r: Response, run: RunId, chunks: seq<Chunk>)
    requires Divides(d, r, run, chunks)
    ensures TotalWidth(chunks) <= MAX_PROMOTION_BYTES
  {
    hide HeadCapture, Joined, FollowsPolicy, DistinctKeys, LocationsOf, CaptureFor, Fits;
  }

  lemma RowsFit(r: Response, chunks: seq<Chunk>)
    requires chunks != []
    ensures Rows(r, chunks, |chunks|) != map[] && |Rows(r, chunks, |chunks|)| == |chunks|
    ensures forall k | k in Rows(r, chunks, |chunks|) ::
              Rows(r, chunks, |chunks|)[k].covered == {r.scope} && Rows(r, chunks, |chunks|)[k].collected == r.fetched
  {
    RowKeys(r, chunks, |chunks|);
    KeysAre(|chunks|);
    assert 0 in Rows(r, chunks, |chunks|);
    assert |Rows(r, chunks, |chunks|).Keys| == |Rows(r, chunks, |chunks|)|;
  }

  /** What a publication of response `r` looks like to everybody else. */
  ghost predicate Renewed(w: World, v: World, d: Descriptor, r: Response, gid: GenerationId) {
    && d in v.db.heads && v.db.heads == w.db.heads[d := v.db.heads[d]]
    && v.db.heads[d].generation == gid
    && v.db.heads[d].version == (if d in w.db.heads then w.db.heads[d].version + 1 else 1)
    && v.db.heads[d].revision == r.revision && v.db.heads[d].content == SemanticBag(r.points)
    && gid in v.db.generations && v.db.generations == w.db.generations[gid := v.db.generations[gid]]
    && SemanticBag(RefLines(v.db.generations[gid].refs)) == SemanticBag(r.points)
    && FilesPresent(v, gid)
  }

  /** Validation leaves everything a promotion looks at. */
  lemma SealedReady(v: World, x: World, id: Identity)
    requires CanTick(v.db, id) && AllReadable(v, id.attempt) && OnlyReconciled(v, x, id.attempt)
    requires CanPin(v.db, id) && v.db.attempts[id.attempt].published.None?
    requires x.db.attempts[id.attempt].status == Sealed
    ensures Ready(x, id)
    ensures StartPromotion(x.db, id) == StartPromotion(v.db, id)
  {
    hide Readable, Receipts, ReceiptBytes;
  }

  lemma SealedIs(v: World, x: World, id: Identity)
    requires OnlyReconciled(v, x, id.attempt)
    ensures x.gcs == v.gcs && x.promotions == v.promotions
    ensures x.db.heads == v.db.heads && x.db.generations == v.db.generations
    ensures id.attempt in x.db.attempts && id.attempt in v.db.attempts
    ensures x.db.attempts[id.attempt].plan == v.db.attempts[id.attempt].plan
  {
  }

  lemma MovedReplaces(w: World, x: World, y: World, id: Identity, d: Descriptor, r: Response,
                      gid: GenerationId, approved: set<Location>)
    requires Moved(x, y, id, gid, approved)
    requires x.db.heads == w.db.heads && x.db.generations == w.db.generations
    requires id.attempt in x.db.attempts
    requires x.db.attempts[id.attempt].plan == Some(PlanFor(d, r))
    ensures Renewed(w, y, d, r, gid)
  {
    hide FilesPresent, SemanticBag, RefLines;
  }

  // ---- from the collector to the new head -----------------------------------------

  /** Nothing about the response or the head keeps it from being published. */
  predicate Publishes(db: Db, d: Descriptor, r: Response, chunks: seq<Chunk>) {
    OneEmptyChunk(chunks) || (d in db.heads && db.heads[d].content == SemanticBag(r.points))
  }

  lemma HandedPublishable(w: World, x: World, m: Promotion, d: Descriptor, r: Response, run: RunId,
                          chunks: seq<Chunk>)
    requires WellFormed(d, r) && Divides(d, r, run, chunks) && HeadAdmits(w.db, d, r)
    requires x.db.heads == w.db.heads && m.plan == PlanFor(d, r) && m.rows == Rows(r, chunks, |chunks|)
    requires m.parent == ParentHead(x.db, d)
    ensures CandidateAccepted(m) && (Publishable(x.db, m) <==> Publishes(w.db, d, r, chunks))
  {
    hide WellFormed, Divides, CandidateAccepted, Content, AtMostOneEmpty, SemanticBag, Rows, OneEmptyChunk;
    CandidateComplete(m, d, r, run, chunks);
  }

  /** A state in which attempt `id` holds the response, sealed, and waits for its promotion. */
  ghost predicate Waiting(w: World, x: World, id: Identity, d: Descriptor, r: Response, run: RunId,
                          chunks: seq<Chunk>)
  {
    && Inv(x) && InvRefs(x) && Ready(x, id) && GuardFree(x)
    && x.promotions == w.promotions
    && x.db.heads == w.db.heads && x.db.generations == w.db.generations
    && x.db.attempts[id.attempt].plan == Some(PlanFor(d, r))
    && StartPromotion(x.db, id).plan == PlanFor(d, r)
    && StartPromotion(x.db, id).rows == Rows(r, chunks, |chunks|)
    && StartPromotion(x.db, id).parent == ParentHead(x.db, d)
  }

  /** From every state the pipeline can be in, whoever owns the scope and whatever else is under
      way, as long as no collector of files is inside the guard: a new attempt can take the scope
      over, capture the response in the given chunks, and be sealed. */
  lemma AnyResponseSeals(w: World, p: Process, id: Identity, run: RunId, d: Descriptor, r: Response,
                         chunks: seq<Chunk>)
    returns (actions: seq<Action>)
    requires Inv(w) && InvRefs(w) && GuardFree(w)
    requires run !in w.db.runs && id.attempt !in w.db.attempts && p !in w.ticks
    requires WellFormed(d, r) && Divides(d, r, run, chunks) && HeadAdmits(w.db, d, r) && w.time <= r.fetched
    ensures Waiting(w, Execute(w, actions), id, d, r, run, chunks)
  {
    hide Inv, InvRefs, GuardFree, Divides, HeadAdmits, Execute, Handed, CanTick, CanPin, AllReadable, Later,
         StartPromotion, Ready, OnlyReconciled, CollectRun, Final, Rows, PlanFor, Locked, CurrentOwner, RunOf;
    var collect := CollectRun(id, run, d, r, chunks);
    var v := Handed(w, id, run, d, r, chunks);
    CollectRunEnds(w, id, run, d, r, chunks);
    RunKeeps(w, collect);
    RunKeepsRefs(w, collect);
    HandedIs(w, id, run, d, r, chunks);
    FinalOwning(w, id, run, d, r, chunks);
    HandedReady(w, id, run, d, r, chunks);
    var drain, ticks := DrainSeals(v, p, id, 1);
    var x := Execute(v, drain);
    RunKeeps(v, drain);
    RunKeepsRefs(v, drain);
    SealedIs(v, x, id);
    SealedReady(v, x, id);
    GuardSame(w, x);
    StartIs(v.db, id);
    ExecuteSplit(w, collect, drain);
    actions := collect + drain;
    assert ParentHead(v.db, d) == ParentHead(x.db, d);
    PlanIs(d, r);
  }

  lemma PlanIs(d: Descriptor, r: Response)
    ensures PlanFor(d, r).descriptor == d
  {
  }

  /** What then happens to it: a promotion publishes the response exactly when at most one chunk
      is empty, or the head already has this content; otherwise it leaves only its pins. */
  lemma AnyResponsePublishes(w: World, p: Process, id: Identity, run: RunId, d: Descriptor, r: Response,
                             chunks: seq<Chunk>, gid: GenerationId, stamp: Time, approved: set<Location>)
    returns (actions: seq<Action>, promote: seq<Action>)
    requires Inv(w) && InvRefs(w) && GuardFree(w)
    requires run !in w.db.runs && id.attempt !in w.db.attempts && gid !in w.db.generations
    requires p !in w.ticks && p !in w.promotions
    requires WellFormed(d, r) && Divides(d, r, run, chunks) && HeadAdmits(w.db, d, r)
    requires w.time <= r.fetched && stamp > EPOCH
    ensures Waiting(w, Execute(w, actions), id, d, r, run, chunks)
    ensures CandidateAccepted(StartPromotion(Execute(w, actions).db, id))
    ensures Publishes(w.db, d, r, chunks) ==> Renewed(w, Execute(w, actions + promote), d, r, gid)
    ensures !Publishes(w.db, d, r, chunks) ==>
              var x := Execute(w, actions);
              Execute(w, actions + promote) == x.(db := Pin(x.db, id))
  {
    actions := AnyResponseSeals(w, p, id, run, d, r, chunks);
    hide Inv, InvRefs, GuardFree, WellFormed, Divides, HeadAdmits, Execute, CanPin, StartPromotion, Publishable,
         Moved, Renewed, ReadList, Pin, PlanFor, Rows, CandidateAccepted, AllReadable, Publishes;
    var x := Execute(w, actions);
    var m := StartPromotion(x.db, id);
    HandedPublishable(w, x, m, d, r, run, chunks);
    promote := PromoteRun(p, id, |ReadList(m)|, gid, stamp, approved);
    PromotionAlone(x, p, id, gid, stamp, approved);
    ExecuteSplit(w, actions, promote);
    if Publishes(w.db, d, r, chunks) {
      MovedReplaces(w, x, Execute(x, promote), id, d, r, gid, approved);
    }
  }

  /** No reachable state is stuck. */
  lemma NeverStuck(before: seq<Action>, p: Process, id: Identity, run: RunId, d: Descriptor, r: Response,
                   chunks: seq<Chunk>, gid: GenerationId, stamp: Time, approved: set<Location>)
    returns (after: seq<Action>)
    requires var w := Execute(Initial, before);
      && GuardFree(w) && run !in w.db.runs && id.attempt !in w.db.attempts && gid !in w.db.generations
      && p !in w.ticks && p !in w.promotions
      && WellFormed(d, r) && Divides(d, r, run, chunks) && OneEmptyChunk(chunks)
      && HeadAdmits(w.db, d, r) && w.time <= r.fetched && stamp > EPOCH
    ensures Renewed(Execute(Initial, before), Execute(Initial, before + after), d, r, gid)
  {
    hide Inv, InvRefs, Execute, GuardFree, WellFormed, Divides, HeadAdmits, Renewed, Waiting, OneEmptyChunk,
         CandidateAccepted;
    Reachable(before);
    ReachableRefs(before);
    var w := Execute(Initial, before);
    var seals, promote := AnyResponsePublishes(w, p, id, run, d, r, chunks, gid, stamp, approved);
    after := seals + promote;
    ExecuteSplit(Initial, before, after);
  }

  // ---- several empty chunks -----------------------------------------------------------

  const Place := Descriptor(0, 0, 1, 0, {0}, 0)
  const Value := Point(LogicalKey(0, 0, 0, 0, 1, 0, 0), 3, 0, 10)
  const Answer := Response(0, 0, 5, 4, [Value])

  /** The forecast is captured three times; twice its value was no longer stored. */
  const Thrice := [Chunk([Semantic(Value)], [Value]), Chunk([Semantic(Value)], []), Chunk([Semantic(Value)], [])]

  lemma OneValue()
    ensures SemanticBag([Value]) == multiset{Semantic(Value)} && Width([Value]) == 10
    ensures Width([]) == 0
  {
    assert [Value][..0] == [];
  }

  lemma ThriceJoined()
    ensures Joined(Thrice) == [Value] && TotalWidth(Thrice) == 10
  {
    OneValue();
    var none: seq<Chunk> := [];
    assert Thrice[..2] == [Thrice[0], Thrice[1]];
    assert Thrice[..2][..1] == [Thrice[0]];
    assert Thrice[..2][..1][..0] == none;
    assert Joined([Thrice[0]]) == [Value];
    assert Joined(Thrice[..2]) == [Value];
    assert TotalWidth(none) == 0;
    assert TotalWidth([Thrice[0]]) == Width(Thrice[0].lines) == 10;
    assert TotalWidth(Thrice[..2]) == TotalWidth([Thrice[0]]) + Width(Thrice[1].lines) == 10;
    assert TotalWidth(Thrice) == TotalWidth(Thrice[..2]) + Width(Thrice[2].lines);
  }

  lemma ThriceDivides(run: RunId)
    ensures WellFormed(Place, Answer) && Divides(Place, Answer, run, Thrice)
    ensures !OneEmptyChunk(Thrice)
  {
    OneValue();
    ThriceJoined();
    assert LocationsOf([Value]) == {0} by { assert [Value][0].key.location == 0; }
    forall i | 0 <= i < 3
      ensures Fits(Thrice[i]) && HeadCapture(PlanFor(Place, Answer), CaptureFor(run, Answer, Thrice[i], i))
    {
      assert Thrice[i].values == [Semantic(Value)];
    }
    assert Thrice[1].lines == [] && Thrice[2].lines == [];
    hide Joined, TotalWidth, SemanticBag, LocationsOf, HeadCapture, Fits;
  }

  /** A run in which a complete candidate is sealed and still not published, because two of its
      chunks are the empty file. */
  lemma TwoEmptyChunks() returns (actions: seq<Action>, promote: seq<Action>, id: Identity)
    ensures var x := Execute(Initial, actions);
      && Ready(x, id) && CandidateAccepted(StartPromotion(x.db, id)) && NotBehind(x.db, StartPromotion(x.db, id))
      && !AtMostOneEmpty(StartPromotion(x.db, id).rows)
      && Execute(Initial, actions + promote) == x.(db := Pin(x.db, id))
  {
    hide Inv, InvRefs, Execute, Divides, WellFormed, Ready, Pin, CanPin, CandidateAccepted, StartPromotion,
         OneEmptyChunk, AtMostOneEmpty, Rows;
    Reachable([]);
    ReachableRefs([]);
    Nothing(Initial);
    ThriceDivides(0);
    id := Identity(0, 0);
    actions, promote := AnyResponsePublishes(Initial, 0, id, 0, Place, Answer, Thrice, 0, 1, {});
    EmptyRows(Answer, Thrice);
  }
}
