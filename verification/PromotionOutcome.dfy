/** What a promotion that nobody disturbs ends in: from any state of the pipeline, exactly when
    it publishes, and what the database then holds. */
module PromotionOutcome {
  import opened ExportTypes
  import opened Lifecycle
  import opened Heads
  import opened Pipeline
  import opened PipelineFrames
  import opened PipelineInvariant
  import opened PipelineAttempts
  import opened PipelinePromotion
  import opened PipelineCas
  import opened PipelineFiles
  import opened PipelineReferences
  import opened PipelineTheorems
  import opened PipelineSteps
  import opened Reconcile

  // ---- the condition --------------------------------------------------------

  /** The head has no newer revision, and no other content at the same revision. */
  predicate NotBehind(db: Db, m: Promotion) {
    var ns := m.plan.descriptor;
    m.plan.binding.Some? && (ns in db.heads ==>
      || m.plan.binding.value.revision > db.heads[ns].revision
      || (m.plan.binding.value.revision == db.heads[ns].revision && db.heads[ns].content == Content(m)))
  }

  /** Two chunks without a point share a file, and a manifest names a file once. */
  predicate AtMostOneEmpty(rows: map<ChunkKey, Receipt>) {
    forall j, k | j in rows && k in rows && rows[j].digest.lines == [] && rows[k].digest.lines == [] :: j == k
  }

  predicate Publishable(db: Db, m: Promotion) {
    CandidateAccepted(m) && NotBehind(db, m) && (Reuse(m) || AtMostOneEmpty(m.rows))
  }

  // ---- distinct files -------------------------------------------------------

  lemma {:induction false} LineFrom(receipts: seq<Receipt>, i: nat, x: nat) returns (at: nat)
    requires i < |receipts| && x < |receipts[i].digest.lines|
    ensures at < |LinesOf(receipts)| && LinesOf(receipts)[at] == receipts[i].digest.lines[x]
  {
    var front := receipts[..|receipts| - 1];
    if i == |receipts| - 1 {
      at := |LinesOf(front)| + x;
    } else {
      at := LineFrom(front, i, x);
    }
  }

  /** Two chunks that share a file with a point in it repeat that point. */
  lemma {:induction false} SharedFileRepeats(receipts: seq<Receipt>, i: nat, j: nat)
    requires i < j < |receipts|
    requires receipts[i].digest == receipts[j].digest && receipts[i].digest.lines != []
    ensures !DistinctKeys(LinesOf(receipts))
  {
    var front, lines := receipts[..|receipts| - 1], receipts[j].digest.lines;
    var all := LinesOf(receipts);
    assert all == LinesOf(front) + receipts[|receipts| - 1].digest.lines;
    if j < |receipts| - 1 {
      SharedFileRepeats(front, i, j);
      var x, y :| 0 <= x < y < |LinesOf(front)| && LinesOf(front)[x].key == LinesOf(front)[y].key;
      assert all[x].key == all[y].key;
    } else {
      var at := LineFrom(front, i, 0);
      assert all[at].key == all[|LinesOf(front)|].key;
    }
  }

  lemma RowAt(rows: map<ChunkKey, Receipt>, i: nat) returns (k: ChunkKey)
    requires i < |Receipts(rows)|
    ensures k in rows && rows[k] == Receipts(rows)[i]
    ensures i < |SortedKeys(rows.Keys)| && SortedKeys(rows.Keys)[i] == k
  {
    var keys := SortedKeys(rows.Keys);
    SortedKeysSorts(rows.Keys);
    RowsInOrderMembers(rows, keys);
    k := keys[i];
    assert k in keys;
  }

  lemma RowIndex(rows: map<ChunkKey, Receipt>, k: ChunkKey) returns (i: nat)
    requires k in rows
    ensures i < |Receipts(rows)| && rows[k] == Receipts(rows)[i]
    ensures i < |SortedKeys(rows.Keys)| && SortedKeys(rows.Keys)[i] == k
  {
    var keys := SortedKeys(rows.Keys);
    SortedKeysSorts(rows.Keys);
    RowsInOrderMembers(rows, keys);
    assert k in keys;
    i :| 0 <= i < |keys| && keys[i] == k;
  }

  /** A complete candidate names each file once exactly when at most one chunk is empty. */
  lemma OwnFilesDistinct(m: Promotion)
    requires DistinctKeys(LinesOf(Receipts(m.rows)))
    ensures DistinctDigests(ReceiptRefs(Receipts(m.rows))) <==> AtMostOneEmpty(m.rows)
  {
    hide Receipts, LinesOf, DistinctKeys, ReceiptRefs;
    var receipts := Receipts(m.rows);
    ReceiptRefsElements(receipts);
    if AtMostOneEmpty(m.rows) {
      forall i, j | 0 <= i < j < |receipts| ensures receipts[i].digest != receipts[j].digest {
        if receipts[i].digest == receipts[j].digest {
          if receipts[i].digest.lines != [] { SharedFileRepeats(receipts, i, j); }
          var k := RowAt(m.rows, i);
          var l := RowAt(m.rows, j);
          SortedKeysSorts(m.rows.Keys);
        }
      }
    }
    if DistinctDigests(ReceiptRefs(receipts)) {
      forall j, k | j in m.rows && k in m.rows && m.rows[j].digest.lines == [] && m.rows[k].digest.lines == []
        ensures j == k
      {
        var x := RowIndex(m.rows, j);
        var y := RowIndex(m.rows, k);
        if x != y {
          SameFile(receipts, if x < y then x else y, if x < y then y else x);
        }
      }
    }
  }

  lemma SameFile(receipts: seq<Receipt>, i: nat, j: nat)
    requires i < j < |receipts| && DistinctDigests(ReceiptRefs(receipts))
    ensures receipts[i].digest.lines != [] || receipts[j].digest.lines != []
  {
    hide ReceiptRefs;
    ReceiptRefsElements(receipts);
    assert Sha256(receipts[i].digest.lines) == receipts[i].digest;
    assert Sha256(receipts[j].digest.lines) == receipts[j].digest;
  }

  // ---- what a promotion reads and publishes -----------------------------------

  lemma {:induction false} BagMember(lines: seq<Point>, s: SemanticPoint)
    ensures s in SemanticBag(lines) <==> exists i :: 0 <= i < |lines| && Semantic(lines[i]) == s
  {
    if lines != [] {
      var front := lines[..|lines| - 1];
      BagMember(front, s);
      if s in SemanticBag(front) {
        var i :| 0 <= i < |front| && Semantic(front[i]) == s;
        assert Semantic(lines[i]) == s;
      }
      if s == Semantic(lines[|lines| - 1]) {
        assert Semantic(lines[|lines| - 1]) == s;
      }
      if i :| 0 <= i < |lines| && Semantic(lines[i]) == s {
        assert i < |front| ==> Semantic(front[i]) == s;
      }
    }
  }

  /** Points of equal content follow the same policy and lie in the same selection, so the
      check of a reused parent can only fail on its size. */
  lemma EqualContentSelected(own: seq<Point>, reused: seq<Point>, d: Descriptor)
    requires SemanticBag(own) == SemanticBag(reused)
    requires FollowsPolicy(own, d) && LocationsOf(own) == d.locations
    ensures WithinSelection(reused, d)
  {
    hide SemanticBag;
    forall i | 0 <= i < |reused|
      ensures reused[i].key.location in d.locations
      ensures reused[i].key.provider == d.provider && reused[i].key.style == d.style
    {
      BagMember(reused, Semantic(reused[i]));
      BagMember(own, Semantic(reused[i]));
      var j :| 0 <= j < |own| && Semantic(own[j]) == Semantic(reused[i]);
      assert own[j].key.location in LocationsOf(own);
    }
  }

  /** Everything this promotion will read is there. */
  ghost predicate ListReadable(files: map<Digest, Time>, refs: seq<Ref>) {
    forall i | 0 <= i < |refs| :: Readable(files, refs[i])
  }

  lemma OwnReadable(files: map<Digest, Time>, rows: map<ChunkKey, Receipt>)
    requires forall k | k in rows :: Readable(files, ReceiptRef(rows[k]))
    ensures ListReadable(files, ReceiptRefs(Receipts(rows)))
  {
    hide Receipts, ReceiptRefs;
    ReceiptRefsElements(Receipts(rows));
    ReceiptsMembers(rows);
    forall i | 0 <= i < |ReceiptRefs(Receipts(rows))|
      ensures Readable(files, ReceiptRefs(Receipts(rows))[i])
    {
      assert Receipts(rows)[i] in rows.Values;
    }
  }

  lemma ParentReadable(w: World, ns: Namespace)
    requires Inv(w)
    ensures ListReadable(w.files, ParentRefs(w.db, ns))
  {
    hide Inv, InvHeads, InvGenerations, FilesHoldSource;
    if ns in w.db.heads && w.db.heads[ns].generation in w.db.generations {
      PartsOf(w);
      GenerationsOf(w);
      HeadFiles(w, ns);
      var g := w.db.generations[w.db.heads[ns].generation];
      assert GenerationOk(g, w.db.attempts) by { OneGeneration(w, w.db.heads[ns].generation); }
    }
  }

  lemma OneGeneration(w: World, g: GenerationId)
    requires InvGenerations(w.db.generations, w.db.attempts) && g in w.db.generations
    ensures GenerationOk(w.db.generations[g], w.db.attempts)
  {
    hide GenerationOk;
  }

  lemma ReadyList(w: World, id: Identity)
    requires Inv(w) && CanPin(w.db, id) && AllReadable(w, id.attempt)
    ensures ListReadable(w.files, ReadList(StartPromotion(w.db, id)))
    ensures AllPresent(w.files, NewRefs(StartPromotion(w.db, id)))
  {
    hide Inv, ReceiptRefs, Receipts, ParentRefs, Content, Readable, Reindexed, CanPin;
    var m := StartPromotion(w.db, id);
    StartIs(w.db, id);
    OwnReadable(w.files, m.rows);
    ParentReadable(w, m.plan.descriptor);
    ReindexedElements(m.parentRefs);
    forall i | 0 <= i < |NewRefs(m)|
      ensures NewRefs(m)[i].digest in w.files && ByteCount(NewRefs(m)[i].digest) == NewRefs(m)[i].bytes
    {
      assert Readable(w.files, if Reuse(m) then m.parentRefs[i] else NewRefs(m)[i]);
      ReadableMeans(w.files, if Reuse(m) then m.parentRefs[i] else NewRefs(m)[i]);
    }
  }

  lemma ReadableMeans(files: map<Digest, Time>, r: Ref)
    requires Readable(files, r)
    ensures r.digest in files && ByteCount(r.digest) == r.bytes
  {
  }

  lemma StartIs(db: Db, id: Identity)
    requires CanPin(db, id)
    ensures id.attempt in db.attempts && db.attempts[id.attempt].plan.Some?
    ensures var a := db.attempts[id.attempt];
            && a.plan.value.binding.Some?
            && StartPromotion(db, id) == Promotion(id, a.plan.value, a.seal, a.receipts,
                 ParentHead(db, a.plan.value.descriptor), ParentRefs(db, a.plan.value.descriptor), 0)
    ensures Locked(db, id) && CurrentOwner(db, id.attempt)
  {
    hide ReceiptBytes, Receipts, ParentHead, ParentRefs, CurrentOwner;
  }

  /** The parent's check passes whenever its content is reused. */
  lemma ParentPasses(w: World, id: Identity)
    requires Inv(w) && InvRefs(w) && CanPin(w.db, id)
    requires CandidateAccepted(StartPromotion(w.db, id)) && Reuse(StartPromotion(w.db, id))
    ensures ParentAccepted(StartPromotion(w.db, id))
    ensures DistinctDigests(NewRefs(StartPromotion(w.db, id)))
  {
    hide Inv, InvRefs, ReceiptRefs, Receipts, CanPin, SemanticBag, RefLines, LinesOf, FollowsPolicy,
         WithinSelection, LocationsOf, RefBytes, DistinctKeys, InvHeads, InvGenerations, Reindexed;
    var m := StartPromotion(w.db, id);
    StartIs(w.db, id);
    PartsOf(w);
    GenerationsOf(w);
    var ns := m.plan.descriptor;
    HeadGeneration(w.db.generations, w.db.heads, w.published, ns);
    var g := w.db.heads[ns].generation;
    OneGeneration(w, g);
    BoundedRefs(w, g);
    EqualContentSelected(LinesOf(Receipts(m.rows)), RefLines(m.parentRefs), ns);
    ReindexedElements(m.parentRefs);
  }

  lemma BoundedRefs(w: World, g: GenerationId)
    requires InvRefs(w) && g in w.db.generations
    ensures RefsBounded(w.db.generations[g].refs)
  {
    hide RefsBounded, PromotionBounded;
  }

  // ---- the run --------------------------------------------------------------

  /** A promotion's steps with nobody else's in between. */
  function PromoteRun(p: Process, id: Identity, files: nat, gid: GenerationId, stamp: Time,
                      approved: set<Location>): seq<Action>
  {
    [PromotePin(p, id)] + seq(files, _ => PromoteRead(p)) + [PromoteCas(p, gid, stamp, approved)]
  }

  lemma ReadMoves(m: Promotion, n: nat)
    ensures ReadList(m.(read := n)) == ReadList(m) && NewRefs(m.(read := n)) == NewRefs(m)
    ensures Reuse(m.(read := n)) == Reuse(m) && Content(m.(read := n)) == Content(m)
    ensures CandidateAccepted(m.(read := n)) == CandidateAccepted(m)
    ensures ParentAccepted(m.(read := n)) == ParentAccepted(m)
  {
    hide Receipts, ReceiptRefs, Reindexed, SemanticBag, LinesOf, FollowsPolicy, DistinctKeys, LocationsOf,
         RefLines, RefBytes, WithinSelection;
  }

  lemma ReadStep(u: World, p: Process, m: Promotion, n: nat)
    requires p in u.promotions && u.promotions[p] == m.(read := n) && n < |ReadList(m)|
    requires ListReadable(u.files, ReadList(m))
    ensures Next(u, PromoteRead(p)) == u.(promotions := u.promotions[p := m.(read := n + 1)])
  {
    hide NextCollector, NextGc, NextReader, ReadList, Readable;
    ReadMoves(m, n);
    assert Readable(u.files, ReadList(m)[n]);
  }

  lemma {:induction false} ReadRun(w: World, p: Process, m: Promotion, n: nat)
    requires p in w.promotions && w.promotions[p] == m && m.read == 0 && n <= |ReadList(m)|
    requires ListReadable(w.files, ReadList(m))
    ensures Execute(w, seq(n, _ => PromoteRead(p))) == w.(promotions := w.promotions[p := m.(read := n)])
  {
    hide Next, ListReadable, ReadList;
    var steps := seq(n, _ => PromoteRead(p));
    if n == 0 {
      assert w.promotions[p := m.(read := 0)] == w.promotions;
    } else {
      ReadRun(w, p, m, n - 1);
      var front := steps[..n - 1];
      assert front == seq(n - 1, _ => PromoteRead(p));
      assert steps[n - 1] == PromoteRead(p);
      ReadStep(Execute(w, front), p, m, n - 1);
      assert w.promotions[p := m.(read := n - 1)][p := m.(read := n)] == w.promotions[p := m.(read := n)];
    }
  }

  /** The state between a promotion's last read and its final transaction. */
  function BeforeCas(w: World, p: Process, id: Identity): World
    requires CanPin(w.db, id)
  {
    var m := StartPromotion(w.db, id);
    w.(db := Pin(w.db, id), promotions := w.promotions[p := m.(read := |ReadList(m)|)])
  }

  lemma PinStep(w: World, p: Process, id: Identity)
    requires CanPin(w.db, id) && p !in w.promotions
    ensures Next(w, PromotePin(p, id))
         == w.(db := Pin(w.db, id), promotions := w.promotions[p := StartPromotion(w.db, id)])
  {
    hide NextCollector, NextGc, NextReader, CanPin, Pin, StartPromotion;
  }

  lemma PromoteRunReaches(w: World, p: Process, id: Identity, gid: GenerationId, stamp: Time,
                          approved: set<Location>)
    requires CanPin(w.db, id) && p !in w.promotions
    requires ListReadable(w.files, ReadList(StartPromotion(w.db, id)))
    ensures Execute(w, PromoteRun(p, id, |ReadList(StartPromotion(w.db, id))|, gid, stamp, approved))
         == NextCas(BeforeCas(w, p, id), p, gid, stamp, approved)
  {
    hide Next, CanPin, Pin, ReadList, ListReadable, NextCas;
    var m := StartPromotion(w.db, id);
    StartIs(w.db, id);
    var pin, cas := [PromotePin(p, id)], [PromoteCas(p, gid, stamp, approved)];
    var load := seq(|ReadList(m)|, _ => PromoteRead(p));
    PinStep(w, p, id);
    Single(w, PromotePin(p, id));
    var begun := Next(w, PromotePin(p, id));
    ReadRun(begun, p, m, |ReadList(m)|);
    ExecuteSplit(w, pin, load);
    ExecuteSplit(w, pin + load, cas);
    var u := Execute(w, pin + load);
    assert u.promotions == w.promotions[p := m.(read := |ReadList(m)|)];
    assert u == BeforeCas(w, p, id);
    Single(u, PromoteCas(p, gid, stamp, approved));
    PromotionCase(u, PromoteCas(p, gid, stamp, approved));
  }

  // ---- the outcome ----------------------------------------------------------

  /** A sealed, unpublished attempt of a successful run, all of whose files can be read. */
  ghost predicate Ready(w: World, id: Identity) {
    && CanPin(w.db, id) && AllReadable(w, id.attempt)
    && RunOf(w.db, id.attempt).status == Success
    && w.db.attempts[id.attempt].status == Sealed
    && w.db.attempts[id.attempt].published.None?
  }

  lemma PinFrame(db: Db, id: Identity)
    requires CanPin(db, id)
    ensures var a := db.attempts[id.attempt];
            var now := Pin(db, id);
            && now == db.(attempts := db.attempts[id.attempt := a.(pins := now.attempts[id.attempt].pins)])
            && Locked(now, id) && CurrentOwner(now, id.attempt)
            && RunOf(now, id.attempt) == RunOf(db, id.attempt)
  {
    hide Receipts, ReceiptBytes, PinRows, ParentRefs;
  }

  lemma NoGenerationYet(w: World, aid: AttemptId)
    requires Inv(w) && aid in w.db.attempts && w.db.attempts[aid].published.None?
    ensures forall g | g in w.db.generations :: w.db.generations[g].attempt != aid
  {
    hide Inv, FilesHoldSource, InvGenerations;
    GenerationsOf(w);
    forall g | g in w.db.generations ensures w.db.generations[g].attempt != aid {
      OneGeneration(w, g);
    }
  }

  lemma SealedToken(a: Attempt)
    requires AttemptOk(a) && a.status == Sealed
    ensures a.seal.Some?
  {
    hide Barrier, PlanSealable, ReceiptTrue;
  }

  /** With nobody in between, the final transaction only compares with the head. */
  lemma CasDecides(w: World, id: Identity, db: Db, m: Promotion, gid: GenerationId)
    requires Ready(w, id) && w.db.attempts[id.attempt].seal.Some?
    requires forall g | g in w.db.generations :: w.db.generations[g].attempt != id.attempt
    requires db == Pin(w.db, id) && m == StartPromotion(w.db, id).(read := m.read)
    requires gid !in w.db.generations && AllPresent(w.files, NewRefs(m))
    ensures CasOutcome(db, w.files, m, gid) == Published
       <==> NotBehind(w.db, m) && DistinctDigests(NewRefs(m))
  {
    hide CanPin, Pin, StartPromotion, NewRefs, AllPresent, DistinctDigests, Content, ParentRefs, CurrentOwner,
         Locked, AllReadable;
    StartIs(w.db, id);
    PinFrame(w.db, id);
    assert !HasGeneration(db, id.attempt);
  }

  lemma ReadDoesNotDecide(db: Db, m: Promotion, n: nat)
    ensures NotBehind(db, m.(read := n)) == NotBehind(db, m)
  {
    hide Content;
    ReadMoves(m, n);
  }

  lemma Decides(w: World, p: Process, id: Identity, gid: GenerationId)
    requires Inv(w) && InvRefs(w) && GuardFree(w) && Ready(w, id) && gid !in w.db.generations
    ensures Wins(BeforeCas(w, p, id), p, gid) <==> Publishable(w.db, StartPromotion(w.db, id))
  {
    hide Inv, InvRefs, CanPin, Pin, StartPromotion, ReadList, NewRefs, AllPresent, CandidateAccepted,
         ParentAccepted, Reuse, DistinctDigests, NotBehind, AtMostOneEmpty, CasOutcome, AttemptOk, GuardFree;
    var m := StartPromotion(w.db, id);
    var n := |ReadList(m)|;
    OneAttempt(w, id.attempt);
    SealedToken(w.db.attempts[id.attempt]);
    NoGenerationYet(w, id.attempt);
    ReadMoves(m, n);
    ReadDoesNotDecide(w.db, m, n);
    ReadyList(w, id);
    CasDecides(w, id, Pin(w.db, id), m.(read := n), gid);
    var u := BeforeCas(w, p, id);
    assert u.promotions[p] == m.(read := n);
    if CandidateAccepted(m) {
      if Reuse(m) {
        ParentPasses(w, id);
      } else {
        AcceptedDistinct(m);
      }
    }
    GuardSame(w, u);
  }

  lemma AcceptedDistinct(m: Promotion)
    requires CandidateAccepted(m) && !Reuse(m)
    ensures DistinctDigests(NewRefs(m)) <==> AtMostOneEmpty(m.rows)
  {
    hide Receipts, ReceiptRefs, SemanticBag, LinesOf, FollowsPolicy, DistinctKeys, LocationsOf, Reindexed,
         AtMostOneEmpty, DistinctDigests;
    OwnFilesDistinct(m);
  }

  lemma GuardSame(w: World, u: World)
    requires w.gcs == u.gcs
    ensures GuardFree(w) == GuardFree(u)
  {
  }

  /** What a publication leaves behind: a new head of this namespace alone, one version on,
      whose generation holds the bound response and has all its files. */
  ghost predicate Moved(w: World, v: World, id: Identity, gid: GenerationId, approved: set<Location>) {
    id.attempt in w.db.attempts && w.db.attempts[id.attempt].plan.Some?
    && w.db.attempts[id.attempt].plan.value.binding.Some?
    && var ns := w.db.attempts[id.attempt].plan.value.descriptor;
    && var b := w.db.attempts[id.attempt].plan.value.binding.value;
    && ns in v.db.heads && v.db.heads == w.db.heads[ns := v.db.heads[ns]]
    && v.db.heads[ns] == Head(gid, if ns in w.db.heads then w.db.heads[ns].version + 1 else 1, b.revision,
         b.normalization, if ns in w.db.heads then Max(b.collected, w.db.heads[ns].collected) else b.collected)
    && gid in v.db.generations && v.db.generations == w.db.generations[gid := v.db.generations[gid]]
    && v.db.generations[gid].attempt == id.attempt
    && v.db.generations[gid].parent == (if ns in w.db.heads then Some(w.db.heads[ns].generation) else None)
    && SemanticBag(RefLines(v.db.generations[gid].refs)) == b.normalization
    && FilesPresent(v, gid)
    && id.attempt in v.db.attempts
    && v.db.attempts[id.attempt].published == Some(v.db.generations[gid].created)
    && v.db.attempts[id.attempt].pins == map[]
    && v.published == w.published + [gid]
    && ApprovedNow(w.db, v.db, ns, gid, approved)
  }

  /** Every location of the policy that the catalog still approves is approved under the new
      generation, whatever approved it before; no other approval changes. */
  ghost predicate ApprovedNow(was: Db, now: Db, d: Descriptor, gid: GenerationId, approved: set<Location>) {
    && (forall l | l in approved && l in d.locations ::
          var k := InventoryKey(d.provider, d.dataset, l); k in now.inventory && now.inventory[k] == gid)
    && (forall k: InventoryKey | !(k.provider == d.provider && k.dataset == d.dataset
                                   && k.location in approved && k.location in d.locations) ::
          (k in now.inventory <==> k in was.inventory) && (k in was.inventory ==> now.inventory[k] == was.inventory[k]))
  }

  lemma PublishApproves(db: Db, m: Promotion, gid: GenerationId, stamp: Time, approved: set<Location>)
    requires m.plan.binding.Some? && m.token.Some? && m.id.attempt in db.attempts
    requires InvInventory(db.inventory, db.generations) && gid !in db.generations
    ensures ApprovedNow(db, Publish(db, m, gid, stamp, approved), m.plan.descriptor, gid, approved)
  {
    hide Content, NewRefs, PublicationTime, NewHead;
    PublicationTimeAdvances(db, stamp);
  }

  lemma LoserRun(w: World, p: Process, id: Identity, gid: GenerationId, stamp: Time, approved: set<Location>)
    requires CanPin(w.db, id) && p !in w.promotions && GuardFree(w)
    requires !Wins(BeforeCas(w, p, id), p, gid)
    ensures NextCas(BeforeCas(w, p, id), p, gid, stamp, approved)
         == w.(db := Pin(w.db, id))
  {
    hide CanPin, Pin, StartPromotion, ReadList, Wins, Publish, GuardFree;
    var u := BeforeCas(w, p, id);
    GuardSame(w, u);
    assert Without(u.promotions, p) == w.promotions;
  }

  lemma WinnerRun(w: World, p: Process, id: Identity, gid: GenerationId, stamp: Time, approved: set<Location>)
    requires CanPin(w.db, id) && GuardFree(w) && stamp > EPOCH
    requires Wins(BeforeCas(w, p, id), p, gid)
    ensures BeforeCas(w, p, id).promotions[p].plan.binding.Some?
    ensures BeforeCas(w, p, id).promotions[p].token.Some?
    ensures var u := BeforeCas(w, p, id);
            var v := NextCas(u, p, gid, stamp, approved);
            && u.promotions[p].id.attempt in u.db.attempts
            && v.db == Publish(u.db, u.promotions[p], gid, stamp, approved)
            && v.published == w.published + [gid] && v.files == w.files
  {
    hide CanPin, Pin, StartPromotion, ReadList, Wins, Publish, GuardFree;
    var u := BeforeCas(w, p, id);
    CasImplies(u, p, gid);
    GuardSame(w, u);
  }

  lemma PublishHeads(db: Db, m: Promotion, gid: GenerationId, stamp: Time, approved: set<Location>)
    requires m.plan.binding.Some? && m.token.Some? && m.id.attempt in db.attempts
    requires CandidateAccepted(m)
    ensures var ns := m.plan.descriptor;
            var b := m.plan.binding.value;
            var now := Publish(db, m, gid, stamp, approved);
      && now.heads == db.heads[ns := Head(gid, if ns in db.heads then db.heads[ns].version + 1 else 1,
           b.revision, b.normalization,
           if ns in db.heads then Max(b.collected, db.heads[ns].collected) else b.collected)]
      && gid in now.generations && now.generations == db.generations[gid := now.generations[gid]]
      && now.generations[gid].attempt == m.id.attempt
      && now.generations[gid].parent == (if ns in db.heads then Some(db.heads[ns].generation) else None)
      && m.id.attempt in now.attempts
      && now.attempts[m.id.attempt].published == Some(now.generations[gid].created)
      && now.attempts[m.id.attempt].pins == map[]
  {
    hide Receipts, LinesOf, SemanticBag, FollowsPolicy, DistinctKeys, LocationsOf, NewRefs, PublicationTime,
         Approve;
  }

  /** From any state the pipeline can be in: a promotion that runs alone, of a sealed attempt
      with readable files, publishes exactly when the union of its chunks is the bound response,
      its revision is not behind the head, and it does not have two empty chunks to publish;
      otherwise only its pins remain. */
  lemma PromotionAlone(w: World, p: Process, id: Identity, gid: GenerationId, stamp: Time,
                       approved: set<Location>)
    requires Inv(w) && InvRefs(w) && GuardFree(w) && Ready(w, id)
    requires p !in w.promotions && gid !in w.db.generations && stamp > EPOCH
    ensures var m := StartPromotion(w.db, id);
            var v := Execute(w, PromoteRun(p, id, |ReadList(m)|, gid, stamp, approved));
      && Inv(v) && (Publishable(w.db, m) ==> Moved(w, v, id, gid, approved))
      && (!Publishable(w.db, m) ==> v == w.(db := Pin(w.db, id)))
  {
    hide Inv, InvRefs, CanPin, Pin, StartPromotion, ReadList, Publishable, GuardFree, Next, AllReadable,
         Wins, NextCas, Publish, Moved, BeforeCas, Later, CandidateAccepted;
    var m := StartPromotion(w.db, id);
    StartIs(w.db, id);
    ReadyList(w, id);
    PromoteRunReaches(w, p, id, gid, stamp, approved);
    var run := PromoteRun(p, id, |ReadList(m)|, gid, stamp, approved);
    var v := Execute(w, run);
    RunKeeps(w, run);
    Decides(w, p, id, gid);
    if Publishable(w.db, m) {
      PartsOf(w);
      WinnerRun(w, p, id, gid, stamp, approved);
      WinnerMoved(w, v, p, id, gid, stamp, approved);
    } else {
      LoserRun(w, p, id, gid, stamp, approved);
    }
  }

  lemma BeforeCasIs(w: World, p: Process, id: Identity)
    requires CanPin(w.db, id)
    ensures var u := BeforeCas(w, p, id);
            && u.db == Pin(w.db, id) && p in u.promotions
            && u.promotions[p] == StartPromotion(w.db, id).(read := u.promotions[p].read)
  {
    hide CanPin, Pin, StartPromotion, ReadList;
  }

  lemma WinnerMoved(w: World, v: World, p: Process, id: Identity, gid: GenerationId, stamp: Time,
                    approved: set<Location>)
    requires CanPin(w.db, id) && Inv(v) && v.published == w.published + [gid]
    requires InvInventory(w.db.inventory, w.db.generations) && gid !in w.db.generations
    requires var u := BeforeCas(w, p, id);
             && u.promotions[p].plan.binding.Some? && u.promotions[p].token.Some?
             && u.promotions[p].id.attempt in u.db.attempts
             && v.db == Publish(u.db, u.promotions[p], gid, stamp, approved)
    requires Publishable(w.db, StartPromotion(w.db, id))
    ensures Moved(w, v, id, gid, approved)
  {
    hide Inv, CanPin, Pin, StartPromotion, ReadList, CandidateAccepted, Publish, BeforeCas, FilesPresent,
         InvHeads, InvGenerations, FilesHoldSource, Barrier;
    var u := BeforeCas(w, p, id);
    BeforeCasIs(w, p, id);
    var m := u.promotions[p];
    StartIs(w.db, id);
    ReadMoves(StartPromotion(w.db, id), m.read);
    PinFrame(w.db, id);
    PublishHeads(u.db, m, gid, stamp, approved);
    PublishApproves(u.db, m, gid, stamp, approved);
    hide ApprovedNow;
    SameApprovals(w.db, u.db, v.db, m.plan.descriptor, gid, approved);
    PublishedHolds(v, gid, m.plan.descriptor);
  }

  lemma SameApprovals(was: Db, pinned: Db, now: Db, d: Descriptor, gid: GenerationId, approved: set<Location>)
    requires pinned.inventory == was.inventory
    ensures ApprovedNow(pinned, now, d, gid, approved) ==> ApprovedNow(was, now, d, gid, approved)
  {
  }

  lemma PublishedHolds(v: World, gid: GenerationId, ns: Namespace)
    requires Inv(v) && ns in v.db.heads && v.db.heads[ns].generation == gid
    ensures gid in v.db.generations
    ensures SemanticBag(RefLines(v.db.generations[gid].refs)) == v.db.heads[ns].content
    ensures FilesPresent(v, gid)
  {
    hide Inv, InvHeads, InvGenerations, FilesPresent;
    PartsOf(v);
    GenerationsOf(v);
    HeadGeneration(v.db.generations, v.db.heads, v.published, ns);
    HeadFiles(v, ns);
    OneGeneration(v, gid);
  }
}
