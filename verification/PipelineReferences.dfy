/** The reference lists of published generations stay within the bounds that a later promotion
    puts on the list it reuses, and never name a file twice. */
module PipelineReferences {
  import opened ExportTypes
  import opened Lifecycle
  import opened Heads
  import opened Pipeline
  import opened PipelineFrames
  import opened PipelinePromotion

  ghost predicate RefsBounded(refs: seq<Ref>) {
    && |refs| <= MAX_PROMOTION_CHUNKS
    && RefBytes(refs) <= MAX_PROMOTION_BYTES
    && DistinctDigests(refs)
  }

  ghost predicate PromotionBounded(m: Promotion) {
    && |Receipts(m.rows)| <= MAX_PROMOTION_CHUNKS
    && ReceiptBytes(Receipts(m.rows)) <= MAX_PROMOTION_BYTES
    && RefsBounded(m.parentRefs)
  }

  ghost predicate InvRefs(w: World) {
    && (forall g | g in w.db.generations :: RefsBounded(w.db.generations[g].refs))
    && (forall p | p in w.promotions :: PromotionBounded(w.promotions[p]))
  }

  lemma {:induction false} ReceiptRefsBytes(receipts: seq<Receipt>)
    ensures RefBytes(ReceiptRefs(receipts)) == ReceiptBytes(receipts)
  {
    if receipts != [] {
      var front := receipts[..|receipts| - 1];
      ReceiptRefsBytes(front);
      var refs := ReceiptRefs(receipts);
      assert refs == ReceiptRefs(front) + [ReceiptRef(receipts[|receipts| - 1])];
      assert refs[..|refs| - 1] == ReceiptRefs(front);
    }
  }

  lemma {:induction false} ReindexedBytes(refs: seq<Ref>)
    ensures RefBytes(Reindexed(refs)) == RefBytes(refs)
  {
    if refs != [] {
      var front := refs[..|refs| - 1];
      ReindexedBytes(front);
      var again := Reindexed(refs);
      assert again[..|again| - 1] == Reindexed(front);
    }
  }

  lemma NewRefsBounded(m: Promotion)
    requires PromotionBounded(m) && DistinctDigests(NewRefs(m))
    ensures RefsBounded(NewRefs(m))
  {
    hide Receipts, ReceiptBytes, RefBytes, ReceiptRefs, Reindexed, Content;
    if Reuse(m) {
      ReindexedElements(m.parentRefs);
      ReindexedBytes(m.parentRefs);
    } else {
      ReceiptRefsElements(Receipts(m.rows));
      ReceiptRefsBytes(Receipts(m.rows));
    }
  }

  lemma ReceiptsCount(rows: map<ChunkKey, Receipt>)
    ensures |Receipts(rows)| == |rows|
  {
    SortedKeysSorts(rows.Keys);
    RowsInOrderMembers(rows, SortedKeys(rows.Keys));
    assert |rows.Keys| == |rows|;
  }

  lemma StartBounded(w: World, id: Identity)
    requires CanPin(w.db, id) && InvRefs(w)
    ensures PromotionBounded(StartPromotion(w.db, id))
  {
    hide Receipts, ReceiptBytes, CurrentOwner, PromotionBounded;
    ReceiptsCount(w.db.attempts[id.attempt].receipts);
    var ns := w.db.attempts[id.attempt].plan.value.descriptor;
    assert RefsBounded(ParentRefs(w.db, ns));
    StartParts(w, id);
  }

  lemma StartParts(w: World, id: Identity)
    requires CanPin(w.db, id)
    requires |Receipts(w.db.attempts[id.attempt].receipts)| <= MAX_PROMOTION_CHUNKS
    requires RefsBounded(ParentRefs(w.db, w.db.attempts[id.attempt].plan.value.descriptor))
    ensures PromotionBounded(StartPromotion(w.db, id))
  {
    hide Receipts, ReceiptBytes, CurrentOwner, RefsBounded, ParentRefs;
  }

  // ---- the steps ------------------------------------------------------------

  /** Other steps start no promotion and move none. */
  lemma PromotionsStay(w: World, a: Action)
    requires !IsPromotionStep(a)
    ensures forall p | p in Next(w, a).promotions ::
              p in w.promotions && Next(w, a).promotions[p] == w.promotions[p]
  {
    hide Next;
    if IsCollectorStep(a) {
      CollectorFrame(w, a);
    } else if IsPublisherStep(a) {
      ReconcilerFrame(w, a);
    } else if IsGcStep(a) {
      GcFrame(w, a);
    } else {
      ReaderFrame(w, a);
    }
  }

  lemma PinKeepsRefs(w: World, p: Process, id: Identity)
    requires InvRefs(w)
    ensures InvRefs(NextPin(w, p, id))
  {
    hide CanPin, StartPromotion, RefsBounded, PromotionBounded, Pin;
    if CanPin(w.db, id) {
      StartBounded(w, id);
    }
  }

  lemma ReadKeepsRefs(w: World, p: Process)
    requires InvRefs(w)
    ensures InvRefs(NextPromoteRead(w, p))
  {
    hide RefsBounded, ReadList, Readable, ReceiptBytes, Receipts;
  }

  lemma CasKeepsRefs(w: World, p: Process, gid: GenerationId, stamp: Time, approved: set<Location>)
    requires InvRefs(w)
    ensures InvRefs(NextCas(w, p, gid, stamp, approved))
  {
    hide RefsBounded, PromotionBounded, Wins, NewRefs, GuardFree, NewHead, Approve, PublicationTime;
    if p in w.promotions && GuardFree(w) && Wins(w, p, gid) && stamp > EPOCH {
      CasImplies(w, p, gid);
      WinnersRefs(w, p, gid);
      NewRefsBounded(w.promotions[p]);
    }
  }

  lemma WinnersRefs(w: World, p: Process, gid: GenerationId)
    requires Wins(w, p, gid)
    ensures DistinctDigests(NewRefs(w.promotions[p]))
  {
    hide DistinctDigests, NewRefs, Verified, AllPresent, Content, CurrentOwner, HasGeneration;
  }

  lemma NextKeepsRefs(w: World, a: Action)
    requires InvRefs(w)
    ensures InvRefs(Next(w, a))
  {
    hide Next, RefsBounded, PromotionBounded, NextPin, NextPromoteRead, NextCas;
    if IsPromotionStep(a) {
      PromotionCase(w, a);
      if a.PromotePin? {
        PinKeepsRefs(w, a.p, a.id);
      } else if a.PromoteRead? {
        ReadKeepsRefs(w, a.p);
      } else {
        CasKeepsRefs(w, a.p, a.generation, a.stamp, a.approved);
      }
    } else {
      PublishesNothing(w, a);
      PromotionsStay(w, a);
    }
  }

  /** Over any run, the manifests of the published generations can be reused by a later promotion. */
  lemma {:induction false} RunKeepsRefs(w: World, actions: seq<Action>)
    requires InvRefs(w)
    ensures InvRefs(Execute(w, actions))
  {
    hide Next, InvRefs;
    if actions != [] {
      RunKeepsRefs(w, actions[..|actions| - 1]);
      NextKeepsRefs(Execute(w, actions[..|actions| - 1]), actions[|actions| - 1]);
    }
  }

  lemma ReachableRefs(actions: seq<Action>)
    ensures InvRefs(Execute(Initial, actions))
  {
    hide Next;
    RunKeepsRefs(Initial, actions);
  }
}
