/** Pinning, reading and publishing keep the invariant.  The publishing step is where the
    head chain grows, the publication clock moves and the roots of the files change. */
module PipelinePromotion {
  import opened ExportTypes
  import opened Lifecycle
  import opened Heads
  import opened Pipeline
  import opened PipelineInvariant
  import opened PipelineAttempts
  import opened PipelinePublisher

  // ---- pin -----------------------------------------------------------------

  lemma {:induction false} LineageOf(generations: map<GenerationId, Generation>,
                                     published: seq<GenerationId>, ns: Namespace)
    ensures forall g | g in Lineage(generations, published, ns) ::
              g in generations && generations[g].namespace == ns && g in published
  {
    if published != [] {
      LineageOf(generations, published[..|published| - 1], ns);
    }
  }

  lemma HeadGeneration(generations: map<GenerationId, Generation>, heads: map<Namespace, Head>,
                       published: seq<GenerationId>, ns: Namespace)
    requires InvHeads(generations, heads, published) && ns in heads
    ensures heads[ns].generation in generations
    ensures generations[heads[ns].generation].namespace == ns
    ensures generations[heads[ns].generation].content == heads[ns].content
  {
    var line := Lineage(generations, published, ns);
    LineageOf(generations, published, ns);
    assert HeadOk(generations, line, heads[ns]);
    assert line[|line| - 1] in line;
  }

  lemma StartPromotionOk(w: World, id: Identity)
    requires CanPin(w.db, id) && AttemptOk(w.db.attempts[id.attempt])
    requires InvHeads(w.db.generations, w.db.heads, w.published)
    ensures PromotionOk(StartPromotion(w.db, id), w.db.generations)
  {
    hide InvHeads, Barrier, PlanSealable, ReceiptTrue, HeadOk, CurrentOwner;
    var ns := w.db.attempts[id.attempt].plan.value.descriptor;
    if ns in w.db.heads {
      HeadGeneration(w.db.generations, w.db.heads, w.published, ns);
    }
  }

  /** Roots that are not rows of an attempt do not notice a change of attempts. */
  lemma OtherRoots(w: World, v: World, r: Root, d: Digest)
    requires v == w.(db := w.db.(attempts := v.db.attempts), promotions := v.promotions)
    requires !r.ByReceipt? && !r.ByParentPin?
    ensures Needs(v, r, d) <==> Needs(w, r, d)
  {
    hide HasRef;
  }

  lemma AttemptRowRoots(w: World, id: Identity, r: Root, d: Digest)
    requires CanPin(w.db, id) && (r.ByReceipt? || r.ByParentPin?)
    requires Needs(w.(db := Pin(w.db, id)), r, d)
    ensures Needs(w, r, d)
         || (r.ByParentPin? && r.attempt == id.attempt
             && var parents := ParentRefs(w.db, w.db.attempts[id.attempt].plan.value.descriptor);
                r.index < |parents| && parents[r.index].digest == d)
  {
    var a := w.db.attempts[id.attempt];
    var parents := ParentRefs(w.db, a.plan.value.descriptor);
    var candidates := Receipts(a.receipts);
    hide CanPin, Receipts, ParentRefs;
    if r.ByParentPin? {
      PinRowsParent(candidates, parents, r.index);
    }
  }

  /** Pinning adds no file that the current head does not already need. */
  lemma PinRoots(w: World, v: World, id: Identity)
    requires CanPin(w.db, id)
    requires v == w.(db := Pin(w.db, id), promotions := v.promotions)
    ensures forall d: Digest :: Needed(v, d) ==> Needed(w, d)
  {
    var ns := w.db.attempts[id.attempt].plan.value.descriptor;
    hide CanPin, Receipts, Pin, Needs;
    forall d: Digest | Needed(v, d) ensures Needed(w, d) {
      var r: Root :| Needs(v, r, d);
      if r.ByReceipt? || r.ByParentPin? {
        PromotionsApart(w.(db := Pin(w.db, id)), v, r, d);
        AttemptRowRoots(w, id, r, d);
        if !Needs(w, r, d) {
          ParentIsHead(w, ns, r.index, d);
        }
      } else {
        OtherRoots(w, v, r, d);
      }
    }
  }

  lemma PromotionsApart(u: World, v: World, r: Root, d: Digest)
    requires v == u.(promotions := v.promotions)
    ensures Needs(u, r, d) <==> Needs(v, r, d)
  {
    hide HasRef, Pending;
  }

  lemma ParentIsHead(w: World, ns: Namespace, i: nat, d: Digest)
    requires i < |ParentRefs(w.db, ns)| && ParentRefs(w.db, ns)[i].digest == d
    ensures Needs(w, ByHead(ns), d)
  {
  }

  lemma PinRowsParent(candidates: seq<Receipt>, parents: seq<Ref>, i: nat)
    ensures ParentPin(i) in PinRows(candidates, parents) <==> i < |parents|
    ensures i < |parents| ==> PinRows(candidates, parents)[ParentPin(i)] == parents[i].digest
  {
  }

  lemma PinRow(a: Attempt, pins: map<PinKey, Digest>)
    requires AttemptOk(a)
    ensures AttemptOk(a.(pins := pins)) && AttemptLater(a, a.(pins := pins))
  {
    hide Barrier, PlanSealable, ReceiptTrue;
    BarrierKeeps(a, a.(pins := pins));
  }

  lemma PinKeeps(w: World, p: Process, id: Identity)
    requires Inv(w)
    ensures Inv(NextPin(w, p, id)) && Later(w, NextPin(w, p, id))
  {
    hide Inv, Later, InvAttempts, InvOwners, InvWitnessed, InvWritten, InvTicks, InvHeads,
         InvGenerations, AttemptOk, AttemptLater, AttemptsLater, OwnersLater, NoNewPublication,
         PromotionOk, Needed, CurrentOwner, RunsLater, PinRows, StartPromotion, Receipts,
         ParentRefs, ReceiptBytes;
    var v := NextPin(w, p, id);
    if !CanPin(w.db, id) || p in w.promotions {
      LaterReflexive(w);
    } else {
      TicksOf(w);
      AttemptTablesOf(w);
      OneAttempt(w, id.attempt);
      RunsLaterReflexive(w.db.runs);
      StartPromotionOk(w, id);
      PinRow(w.db.attempts[id.attempt], v.db.attempts[id.attempt].pins);
      WitnessedRow(w.db.attempts, w.witnessed, id.attempt);
      TickCommitTables(w, v, id.attempt);
      PinRoots(w, v, id);
      FrameKeeps(w, v);
    }
  }

  lemma PromoteReadKeeps(w: World, p: Process)
    requires Inv(w)
    ensures Inv(NextPromoteRead(w, p)) && Later(w, NextPromoteRead(w, p))
  {
    hide Inv, Later, ReadList, Readable;
    TicksOf(w);
    MemoryKeeps(w, NextPromoteRead(w, p));
  }

  // ---- what the files of a candidate hold -----------------------------------

  lemma {:induction false} BagSize(lines: seq<Point>)
    ensures |SemanticBag(lines)| == |lines|
  {
    if lines != [] { BagSize(lines[..|lines| - 1]); }
  }

  lemma {:induction false} ReceiptRefsElements(receipts: seq<Receipt>)
    ensures |ReceiptRefs(receipts)| == |receipts|
    ensures forall i | 0 <= i < |receipts| :: ReceiptRefs(receipts)[i] == ReceiptRef(receipts[i])
  {
    if receipts != [] {
      ReceiptRefsElements(receipts[..|receipts| - 1]);
    }
  }

  lemma {:induction false} ReceiptRefsLines(receipts: seq<Receipt>)
    ensures |ReceiptRefs(receipts)| == |receipts|
    ensures RefLines(ReceiptRefs(receipts)) == LinesOf(receipts)
    ensures forall i | 0 <= i < |receipts| :: ReceiptRefs(receipts)[i] == ReceiptRef(receipts[i])
  {
    ReceiptRefsElements(receipts);
    if receipts != [] {
      var front := receipts[..|receipts| - 1];
      var last := receipts[|receipts| - 1];
      ReceiptRefsLines(front);
      assert ReceiptRefs(receipts) == ReceiptRefs(front) + [ReceiptRef(last)];
      hide RefLines, ReceiptRefs;
      RefLinesAppend(ReceiptRefs(front), ReceiptRef(last));
    }
  }

  lemma RefLinesAppend(refs: seq<Ref>, r: Ref)
    ensures RefLines(refs + [r]) == RefLines(refs) + r.digest.lines
  {
    assert (refs + [r])[..|refs|] == refs;
  }

  lemma {:induction false} ReindexedElements(refs: seq<Ref>)
    ensures |Reindexed(refs)| == |refs|
    ensures forall i | 0 <= i < |refs| ::
              Reindexed(refs)[i] == refs[i].(locations := LocationsOf(refs[i].digest.lines))
  {
    if refs != [] {
      ReindexedElements(refs[..|refs| - 1]);
    }
  }

  /** Rebuilding the location index of reused files changes no line. */
  lemma {:induction false} ReindexedLines(refs: seq<Ref>)
    ensures |Reindexed(refs)| == |refs|
    ensures RefLines(Reindexed(refs)) == RefLines(refs)
    ensures forall i | 0 <= i < |refs| ::
              Reindexed(refs)[i] == refs[i].(locations := LocationsOf(refs[i].digest.lines))
  {
    ReindexedElements(refs);
    if refs != [] {
      var front := refs[..|refs| - 1];
      var last := refs[|refs| - 1];
      ReindexedLines(front);
      assert refs == front + [last];
      var again := last.(locations := LocationsOf(last.digest.lines));
      assert Reindexed(refs) == Reindexed(front) + [again];
      hide RefLines, Reindexed;
      RefLinesAppend(front, last);
      RefLinesAppend(Reindexed(front), again);
    }
  }

  lemma {:induction false} RowsInOrderMembers(rows: map<ChunkKey, Receipt>, keys: seq<ChunkKey>)
    requires forall k | k in keys :: k in rows
    ensures |RowsInOrder(rows, keys)| == |keys|
    ensures forall i | 0 <= i < |keys| :: RowsInOrder(rows, keys)[i] == rows[keys[i]]
  {
    if keys != [] { RowsInOrderMembers(rows, keys[..|keys| - 1]); }
  }

  lemma ReceiptsMembers(rows: map<ChunkKey, Receipt>)
    ensures forall r | r in Receipts(rows) :: r in rows.Values
  {
    var keys := SortedKeys(rows.Keys);
    SortedKeysSorts(rows.Keys);
    RowsInOrderMembers(rows, keys);
    forall r | r in Receipts(rows) ensures r in rows.Values {
      var i :| 0 <= i < |keys| && RowsInOrder(rows, keys)[i] == r;
      assert keys[i] in rows;
    }
  }

  /** Own chunks: the new files hold the bound source. */
  lemma OwnFiles(m: Promotion)
    requires CandidateAccepted(m) && !Reuse(m)
    requires forall k | k in m.rows :: ReceiptTrue(m.rows[k])
    ensures SemanticBag(RefLines(NewRefs(m))) == m.plan.binding.value.normalization
    ensures DistinctKeys(RefLines(NewRefs(m)))
    ensures LocationsOf(RefLines(NewRefs(m))) == m.plan.descriptor.locations
    ensures |RefLines(NewRefs(m))| == m.plan.binding.value.count
    ensures forall i | 0 <= i < |NewRefs(m)| :: RefTrue(NewRefs(m)[i])
  {
    hide SemanticBag, LocationsOf, DistinctKeys, FollowsPolicy, LinesOf, ReceiptRefs, Receipts;
    ReceiptRefsLines(Receipts(m.rows));
    ReceiptsMembers(m.rows);
    forall i | 0 <= i < |NewRefs(m)| ensures RefTrue(NewRefs(m)[i]) {
      assert Receipts(m.rows)[i] in m.rows.Values;
    }
  }

  /** Reused files: the parent's lines are the bound source, because its content is. */
  lemma ReusedFiles(m: Promotion, parent: Generation, plan: Plan)
    requires CandidateAccepted(m) && Reuse(m)
    requires parent.refs == m.parentRefs && parent.content == m.parent.value.content
    requires FilesHoldSource(parent, plan) && parent.content == plan.binding.value.normalization
    requires plan.descriptor == m.plan.descriptor
    requires forall i | 0 <= i < |parent.refs| :: RefTrue(parent.refs[i])
    ensures SemanticBag(RefLines(NewRefs(m))) == m.plan.binding.value.normalization
    ensures DistinctKeys(RefLines(NewRefs(m)))
    ensures LocationsOf(RefLines(NewRefs(m))) == m.plan.descriptor.locations
    ensures |RefLines(NewRefs(m))| == m.plan.binding.value.count
    ensures forall i | 0 <= i < |NewRefs(m)| :: RefTrue(NewRefs(m)[i])
  {
    hide SemanticBag, LocationsOf, DistinctKeys, FollowsPolicy, LinesOf, Receipts, Reindexed, RefLines;
    ReindexedLines(m.parentRefs);
    BagSize(RefLines(m.parentRefs));
    BagSize(LinesOf(Receipts(m.rows)));
  }

  lemma CandidateFiles(m: Promotion, generations: map<GenerationId, Generation>,
                       attempts: map<AttemptId, Attempt>)
    requires PromotionOk(m, generations) && InvGenerations(generations, attempts)
    requires CandidateAccepted(m)
    requires forall k | k in m.rows :: ReceiptTrue(m.rows[k])
    ensures SemanticBag(RefLines(NewRefs(m))) == m.plan.binding.value.normalization
    ensures DistinctKeys(RefLines(NewRefs(m)))
    ensures LocationsOf(RefLines(NewRefs(m))) == m.plan.descriptor.locations
    ensures |RefLines(NewRefs(m))| == m.plan.binding.value.count
    ensures forall i | 0 <= i < |NewRefs(m)| :: RefTrue(NewRefs(m)[i])
  {
    hide CandidateAccepted, FilesHoldSource, NewRefs, RefTrue, ReceiptTrue, SemanticBag, LocationsOf,
         DistinctKeys, RefLines;
    if Reuse(m) {
      var g := m.parent.value.generation;
      assert GenerationOk(generations[g], attempts);
      ReusedFiles(m, generations[g], attempts[generations[g].attempt].plan.value);
    } else {
      OwnFiles(m);
    }
  }
}
