/** What the pins of a promotion protect.  Pin rows are keyed by kind and position and a row
    that is already there wins, so everything rests on no row being out of date: over every
    run, the parent rows of a current owner name the files of the present head. */
module PromotionPins {
  import opened ExportTypes
  import opened Lifecycle
  import opened Heads
  import opened Pipeline
  import opened PipelineFrames
  import opened PipelineInvariant
  import opened PipelinePromotion
  import opened PipelineFiles
  import opened PipelineSteps
  import opened PipelineTheorems

  // ---- the invariant --------------------------------------------------------

  /** Every parent row names the file at its place in `parents`. */
  ghost predicate RowsAgree(pins: map<PinKey, Digest>, parents: seq<Ref>) {
    forall i: nat | ParentPin(i) in pins :: i < |parents| && pins[ParentPin(i)] == parents[i].digest
  }

  /** Every file of `parents` has its row. */
  ghost predicate RowsCover(pins: map<PinKey, Digest>, parents: seq<Ref>) {
    forall i | 0 <= i < |parents| :: ParentPin(i) in pins && pins[ParentPin(i)] == parents[i].digest
  }

  /** Only a declared attempt has pins; it has claimed the one scope of its namespace. */
  ghost predicate Declared(a: Attempt) {
    && (a.plan.None? ==> a.pins == map[])
    && (a.plan.Some? ==> a.planned == {a.plan.value.descriptor.scope} && a.epochs.Some?)
  }

  ghost predicate AttemptPins(db: Db, aid: AttemptId)
    requires aid in db.attempts
  {
    var a := db.attempts[aid];
    && Declared(a)
    && (CurrentOwner(db, aid) && a.plan.Some? ==>
          RowsAgree(a.pins, ParentRefs(db, a.plan.value.descriptor)))
  }

  /** What a promoter that was not overtaken can rely on: the head is still the one it pinned,
      and every file of that head has its row. */
  ghost predicate PromotionPinned(db: Db, m: Promotion) {
    && m.id.attempt in db.attempts
    && var a := db.attempts[m.id.attempt];
    && a.plan.Some? && a.plan.value.descriptor == m.plan.descriptor
    && (CurrentOwner(db, m.id.attempt) && Pending(a) ==>
          && m.parent == ParentHead(db, m.plan.descriptor)
          && m.parentRefs == ParentRefs(db, m.plan.descriptor)
          && RowsCover(a.pins, m.parentRefs))
  }

  ghost predicate InvPins(w: World) {
    && (forall a | a in w.db.attempts :: AttemptPins(w.db, a))
    && (forall p | p in w.promotions :: PromotionPinned(w.db, w.promotions[p]))
  }

  // ---- steps that move no head ------------------------------------------------

  /** What a step other than pinning and publishing may do to one attempt's row. */
  ghost predicate SameOrSettled(a: Attempt, b: Attempt) {
    && Declared(b)
    && b.planned == a.planned && (a.epochs.Some? ==> b.epochs == a.epochs)
    && (b.pins == a.pins || (b.pins == map[] && !Pending(b)))
    && (Pending(b) ==> Pending(a))
    && (a.plan.Some? ==> b.plan.Some? && b.plan.value.descriptor == a.plan.value.descriptor)
  }

  ghost predicate HeadsStay(w: World, v: World) {
    && v.db.heads == w.db.heads && v.db.generations == w.db.generations
    && (forall p | p in v.promotions :: p in w.promotions && SameIntent(v.promotions[p], w.promotions[p]))
  }

  ghost predicate SameIntent(m: Promotion, n: Promotion) {
    m.id == n.id && m.plan == n.plan && m.parent == n.parent && m.parentRefs == n.parentRefs
  }

  /** Nobody who claimed before becomes an owner again. */
  ghost predicate OwnersOnlyLost(was: Db, now: Db) {
    forall a | a in was.attempts && a in now.attempts && was.attempts[a].epochs.Some? && CurrentOwner(now, a) ::
      CurrentOwner(was, a)
  }

  ghost predicate QuietStep(w: World, v: World) {
    && HeadsStay(w, v) && OwnersOnlyLost(w.db, v.db)
    && (forall a | a in w.db.attempts :: a in v.db.attempts && SameOrSettled(w.db.attempts[a], v.db.attempts[a]))
    && (forall a | a in v.db.attempts && a !in w.db.attempts ::
          v.db.attempts[a].plan.None? && v.db.attempts[a].pins == map[])
  }

  lemma QuietAttempt(was: Db, now: Db, aid: AttemptId)
    requires now.heads == was.heads && now.generations == was.generations && OwnersOnlyLost(was, now)
    requires aid in was.attempts && aid in now.attempts && AttemptPins(was, aid)
    requires SameOrSettled(was.attempts[aid], now.attempts[aid])
    ensures AttemptPins(now, aid)
  {
    hide CurrentOwner, ParentRefs;
    assert forall ns :: ParentRefs(now, ns) == ParentRefs(was, ns) by { ParentsSame(was, now); }
  }

  lemma ParentsSame(was: Db, now: Db)
    requires now.heads == was.heads && now.generations == was.generations
    ensures forall ns :: ParentRefs(now, ns) == ParentRefs(was, ns)
    ensures forall ns :: ParentHead(now, ns) == ParentHead(was, ns)
  {
  }

  lemma QuietPromotion(was: Db, now: Db, m: Promotion, n: Promotion)
    requires now.heads == was.heads && now.generations == was.generations && OwnersOnlyLost(was, now)
    requires PromotionPinned(was, m) && SameIntent(n, m)
    requires AttemptPins(was, m.id.attempt) && m.id.attempt in now.attempts
    requires SameOrSettled(was.attempts[m.id.attempt], now.attempts[m.id.attempt])
    ensures PromotionPinned(now, n)
  {
    hide CurrentOwner, ParentRefs, ParentHead;
    ParentsSame(was, now);
  }

  lemma QuietKeeps(w: World, v: World)
    requires InvPins(w) && QuietStep(w, v)
    ensures InvPins(v)
  {
    hide AttemptPins, PromotionPinned, SameOrSettled, SameIntent, OwnersOnlyLost, CurrentOwner;
    forall a | a in v.db.attempts ensures AttemptPins(v.db, a) {
      if a in w.db.attempts {
        QuietAttempt(w.db, v.db, a);
      } else {
        EmptyPins(v.db, a);
      }
    }
    forall p | p in v.promotions ensures PromotionPinned(v.db, v.promotions[p]) {
      PinnedAttempt(w.db, w.promotions[p]);
      QuietPromotion(w.db, v.db, w.promotions[p], v.promotions[p]);
    }
  }

  lemma PinnedAttempt(db: Db, m: Promotion)
    requires PromotionPinned(db, m)
    ensures m.id.attempt in db.attempts
  {
    hide CurrentOwner;
  }

  lemma EmptyPins(db: Db, aid: AttemptId)
    requires aid in db.attempts && db.attempts[aid].plan.None? && db.attempts[aid].pins == map[]
    ensures AttemptPins(db, aid)
  {
    hide CurrentOwner;
  }

  // ---- the transactions -------------------------------------------------------

  lemma SameRow(a: Attempt)
    requires Declared(a)
    ensures SameOrSettled(a, a)
  {
  }

  lemma DeclaredRow(w: World, aid: AttemptId)
    requires InvPins(w) && aid in w.db.attempts
    ensures Declared(w.db.attempts[aid]) && AttemptPins(w.db, aid)
  {
    hide CurrentOwner, PromotionPinned;
  }

  /** Attempts, owners and heads stay; processes may stop or count on. */
  lemma TablesStay(w: World, v: World)
    requires InvPins(w) && HeadsStay(w, v)
    requires v.db.attempts == w.db.attempts && v.db.owners == w.db.owners
    ensures InvPins(v)
  {
    hide InvPins, SameOrSettled, CurrentOwner, Declared, SameIntent;
    forall a | a in w.db.attempts ensures SameOrSettled(w.db.attempts[a], v.db.attempts[a]) {
      DeclaredRow(w, a);
      SameRow(w.db.attempts[a]);
    }
    OwnersSame(w.db, v.db);
    QuietKeeps(w, v);
  }

  lemma OwnersSame(was: Db, now: Db)
    requires now.attempts == was.attempts && now.owners == was.owners
    ensures OwnersOnlyLost(was, now)
  {
  }

  /** One row changes and keeps its claim. */
  lemma OneRowKeeps(w: World, v: World, aid: AttemptId)
    requires InvPins(w) && HeadsStay(w, v) && aid in w.db.attempts && aid in v.db.attempts
    requires v.db.attempts == w.db.attempts[aid := v.db.attempts[aid]] && v.db.owners == w.db.owners
    requires v.db.attempts[aid].epochs == w.db.attempts[aid].epochs
    requires SameOrSettled(w.db.attempts[aid], v.db.attempts[aid])
    ensures InvPins(v)
  {
    hide InvPins, Declared, SameIntent;
    forall a | a in w.db.attempts ensures SameOrSettled(w.db.attempts[a], v.db.attempts[a]) {
      DeclaredRow(w, a);
      SameRow(w.db.attempts[a]);
    }
    OneRowOwners(w.db, v.db, aid);
    hide SameOrSettled, OwnersOnlyLost;
    QuietKeeps(w, v);
  }

  lemma OneRowOwners(was: Db, now: Db, aid: AttemptId)
    requires aid in was.attempts && aid in now.attempts && now.owners == was.owners
    requires now.attempts == was.attempts[aid := now.attempts[aid]]
    requires now.attempts[aid].epochs == was.attempts[aid].epochs
    requires now.attempts[aid].planned == was.attempts[aid].planned
    ensures OwnersOnlyLost(was, now)
  {
  }

  lemma CreateKeepsPins(w: World, id: Identity, run: RunId, planned: set<Scope>, dagster: bool, o: Option<nat>)
    requires InvPins(w)
    ensures InvPins(OnDb(w, CreateAttempt(w.db, id, run, planned, dagster, o)))
  {
    hide InvPins, Declared, SameOrSettled;
    var v := OnDb(w, CreateAttempt(w.db, id, run, planned, dagster, o));
    if v.db != w.db {
      forall a | a in w.db.attempts ensures SameOrSettled(w.db.attempts[a], v.db.attempts[a]) {
        DeclaredRow(w, a);
        SameRow(w.db.attempts[a]);
      }
      QuietKeeps(w, v);
    }
  }

  lemma ClaimOnlyTakes(db: Db, id: Identity)
    requires CanClaim(db, id)
    ensures OwnersOnlyLost(db, Claim(db, id))
  {
    var now := Claim(db, id);
    forall a | a in db.attempts && a in now.attempts && db.attempts[a].epochs.Some? && CurrentOwner(now, a)
      ensures CurrentOwner(db, a)
    {
      assert a != id.attempt;
      assert now.attempts[a] == db.attempts[a];
      assert HoldsEpochs(now.owners, a, db.attempts[a].epochs.value, db.attempts[a].planned);
    }
  }

  lemma ClaimKeepsPins(w: World, id: Identity)
    requires InvPins(w)
    ensures InvPins(OnDb(w, Claim(w.db, id)))
  {
    hide InvPins, OwnersOnlyLost;
    if CanClaim(w.db, id) {
      var v := OnDb(w, Claim(w.db, id));
      ClaimOnlyTakes(w.db, id);
      forall a | a in w.db.attempts
        ensures a in v.db.attempts && SameOrSettled(w.db.attempts[a], v.db.attempts[a])
      {
        DeclaredRow(w, a);
      }
      QuietKeeps(w, v);
    }
  }

  lemma DeclareKeepsPins(w: World, id: Identity, d: Descriptor, listed: bool)
    requires InvPins(w)
    ensures InvPins(OnDb(w, Declare(w.db, id, d, listed, w.time)))
  {
    hide InvPins;
    if CanDeclare(w.db, id, d) && listed {
      DeclaredRow(w, id.attempt);
      OneRowKeeps(w, OnDb(w, Declare(w.db, id, d, listed, w.time)), id.attempt);
    }
  }

  lemma BindKeepsPins(w: World, id: Identity, r: Response)
    requires InvPins(w)
    ensures InvPins(OnDb(w, Bind(w.db, id, r, w.time)))
  {
    hide InvPins, BindingOf;
    if CanBind(w.db, id, r, w.time) {
      DeclaredRow(w, id.attempt);
      OneRowKeeps(w, OnDb(w, Bind(w.db, id, r, w.time)), id.attempt);
    }
  }

  /** A transaction that leaves claim, plan and pins alone, or clears the pins of an attempt it
      settles. */
  ghost predicate RowOnly(db: Db, now: Db, aid: AttemptId) {
    now == db.(runs := now.runs, attempts := now.attempts) &&
    (now.attempts == db.attempts
     || (&& aid in db.attempts && aid in now.attempts
         && now.attempts == db.attempts[aid := now.attempts[aid]]
         && var a, b := db.attempts[aid], now.attempts[aid];
         && (b.planned, b.epochs, b.plan) == (a.planned, a.epochs, a.plan)
         && (b.pins == a.pins || (b.pins == map[] && !Pending(b)))
         && (Pending(b) ==> Pending(a))))
  }

  lemma RowOnlyKeepsPins(w: World, v: World, aid: AttemptId)
    requires InvPins(w) && RowOnly(w.db, v.db, aid) && v.promotions == w.promotions
    ensures InvPins(v)
  {
    hide InvPins, Pending;
    if v.db.attempts == w.db.attempts {
      TablesStay(w, v);
    } else {
      DeclaredRow(w, aid);
      OneRowKeeps(w, v, aid);
    }
  }

  lemma FailRows(db: Db, id: Identity)
    ensures RowOnly(db, FailCapture(db, id), id.attempt)
  {
  }

  lemma ExpectRows(db: Db, id: Identity, key: ChunkKey, row: Expected)
    ensures RowOnly(db, ExpectChunk(db, id, key, row), id.attempt)
  {
  }

  lemma RecordRows(db: Db, id: Identity, c: Lifecycle.Capture)
    ensures RowOnly(db, RecordChunk(db, id, c), id.attempt)
  {
  }

  lemma SourceRows(db: Db, id: Identity, s: Scope, keys: set<ChunkKey>)
    ensures RowOnly(db, CloseSource(db, id, s, keys), id.attempt)
  {
  }

  lemma CloseRows(db: Db, id: Identity)
    ensures RowOnly(db, ClosePlan(db, id), id.attempt)
  {
    hide Barrier, PlanSealable;
  }

  lemma RetireRows(db: Db, aid: AttemptId, lost: bool)
    ensures RowOnly(db, RetireSuperseded(db, aid), aid)
    ensures RowOnly(db, RetireTerminal(db, aid, lost), aid)
  {
    hide HasGeneration;
  }

  lemma CommitRows(db: Db, id: Identity, token: Option<Seal>, rows: map<ChunkKey, Digest>)
    ensures RowOnly(db, CommitTick(db, id, token, rows), id.attempt)
  {
    hide CurrentOwner;
  }

  // ---- pinning ----------------------------------------------------------------

  lemma PinRowsAre(candidates: seq<Receipt>, parents: seq<Ref>, pins: map<PinKey, Digest>)
    requires RowsAgree(pins, parents)
    ensures RowsAgree(PinRows(candidates, parents) + pins, parents)
    ensures RowsCover(PinRows(candidates, parents) + pins, parents)
  {
  }

  lemma PinShape(db: Db, id: Identity)
    requires CanPin(db, id)
    ensures id.attempt in db.attempts && db.attempts[id.attempt].plan.Some?
    ensures CurrentOwner(db, id.attempt)
    ensures var a := db.attempts[id.attempt];
      && Pin(db, id) == db.(attempts := db.attempts[id.attempt := a.(pins :=
           PinRows(Receipts(a.receipts), ParentRefs(db, a.plan.value.descriptor)) + a.pins)])
      && StartPromotion(db, id) == Promotion(id, a.plan.value, a.seal, a.receipts,
           ParentHead(db, a.plan.value.descriptor), ParentRefs(db, a.plan.value.descriptor), 0)
  {
    hide CurrentOwner, Receipts, ReceiptBytes, ParentRefs, PinRows, ParentHead;
  }

  /** Pinning gives the attempt a row for every file of the present head. */
  lemma PinCovers(w: World, id: Identity)
    requires InvPins(w) && CanPin(w.db, id)
    ensures var a := w.db.attempts[id.attempt];
            var parents := ParentRefs(w.db, a.plan.value.descriptor);
            && id.attempt in Pin(w.db, id).attempts
            && RowsAgree(Pin(w.db, id).attempts[id.attempt].pins, parents)
            && RowsCover(Pin(w.db, id).attempts[id.attempt].pins, parents)
  {
    hide InvPins, CanPin, ParentRefs, RowsAgree, RowsCover, PinRows, Receipts, Pin;
    PinShape(w.db, id);
    DeclaredRow(w, id.attempt);
    var a := w.db.attempts[id.attempt];
    PinRowsAre(Receipts(a.receipts), ParentRefs(w.db, a.plan.value.descriptor), a.pins);
  }

  lemma PinOwners(db: Db, id: Identity, a: AttemptId)
    requires CanPin(db, id) && a in db.attempts
    ensures CurrentOwner(Pin(db, id), a) == CurrentOwner(db, a)
  {
    hide CanPin, Receipts, ParentRefs, PinRows;
    PinShape(db, id);
    hide Pin;
  }

  lemma OtherPromotion(db: Db, id: Identity, m: Promotion)
    requires CanPin(db, id) && PromotionPinned(db, m)
    requires m.id.attempt in Pin(db, id).attempts
    requires var a := db.attempts[id.attempt];
             RowsCover(Pin(db, id).attempts[id.attempt].pins, ParentRefs(db, a.plan.value.descriptor))
    ensures PromotionPinned(Pin(db, id), m)
  {
    hide CanPin, ParentRefs, ParentHead, RowsCover, PinRows, Receipts, Pin, CurrentOwner;
    PinShape(db, id);
    ParentsSame(db, Pin(db, id));
    PinOwners(db, id, m.id.attempt);
  }

  lemma PinKeepsPins(w: World, p: Process, id: Identity)
    requires InvPins(w)
    ensures InvPins(NextPin(w, p, id))
  {
    var v := NextPin(w, p, id);
    hide CanPin, ParentRefs, RowsAgree, RowsCover, PinRows, Receipts, Pin, CurrentOwner, ParentHead,
         PromotionPinned;
    if CanPin(w.db, id) && p !in w.promotions {
      PinShape(w.db, id);
      PinCovers(w, id);
      ParentsSame(w.db, v.db);
      forall a | a in v.db.attempts ensures AttemptPins(v.db, a) {
        PinOwners(w.db, id, a);
        assert AttemptPins(w.db, a);
      }
      forall q | q in v.promotions ensures PromotionPinned(v.db, v.promotions[q]) {
        if q == p {
          NewPromotion(w, v.db, id);
        } else {
          PinnedAttempt(w.db, w.promotions[q]);
          OtherPromotion(w.db, id, w.promotions[q]);
        }
      }
    }
  }

  lemma NewPromotion(w: World, now: Db, id: Identity)
    requires CanPin(w.db, id) && now == Pin(w.db, id) && InvPins(w)
    ensures PromotionPinned(now, StartPromotion(w.db, id))
  {
    hide InvPins, CanPin, ParentRefs, RowsAgree, RowsCover, PinRows, Receipts, Pin, CurrentOwner, ParentHead;
    PinShape(w.db, id);
    PinCovers(w, id);
    ParentsSame(w.db, now);
  }

  // ---- publishing ---------------------------------------------------------------

  /** A publication of attempt `winner`: its scope's namespace gets a new head, its row is settled. */
  ghost predicate HeadMoved(was: Db, now: Db, winner: AttemptId, ns: Namespace, gid: GenerationId) {
    && winner in was.attempts && winner in now.attempts && CurrentOwner(was, winner)
    && was.attempts[winner].plan.Some? && was.attempts[winner].plan.value.descriptor == ns
    && was.attempts[winner].planned == {ns.scope}
    && now.owners == was.owners && gid !in was.generations
    && (forall o | o in was.heads :: was.heads[o].generation in was.generations)
    && gid in now.generations && now.generations == was.generations[gid := now.generations[gid]]
    && ns in now.heads && now.heads == was.heads[ns := now.heads[ns]]
    && now.attempts == was.attempts[winner := now.attempts[winner]]
    && now.attempts[winner].epochs == was.attempts[winner].epochs
    && now.attempts[winner].plan == was.attempts[winner].plan
    && now.attempts[winner].planned == was.attempts[winner].planned
    && now.attempts[winner].pins == map[] && !Pending(now.attempts[winner])
  }

  lemma MovedOwners(was: Db, now: Db, winner: AttemptId, ns: Namespace, gid: GenerationId, a: AttemptId)
    requires HeadMoved(was, now, winner, ns, gid) && a in was.attempts
    ensures CurrentOwner(now, a) == CurrentOwner(was, a)
  {
  }

  /** Another current owner has another scope, so its namespace keeps its head. */
  lemma OtherNamespace(was: Db, now: Db, winner: AttemptId, ns: Namespace, gid: GenerationId, a: AttemptId,
                       o: Namespace)
    requires HeadMoved(was, now, winner, ns, gid) && a in was.attempts && a != winner
    requires CurrentOwner(was, a) && was.attempts[a].planned == {o.scope}
    ensures ParentRefs(now, o) == ParentRefs(was, o) && ParentHead(now, o) == ParentHead(was, o)
  {
    assert ns.scope in was.attempts[winner].planned;
    assert was.owners[ns.scope].active == winner;
    assert o.scope in was.attempts[a].planned;
    assert was.owners[o.scope].active == a;
    assert o != ns;
  }

  lemma MovedAttempt(was: Db, now: Db, winner: AttemptId, ns: Namespace, gid: GenerationId, a: AttemptId)
    requires HeadMoved(was, now, winner, ns, gid) && a in was.attempts && AttemptPins(was, a)
    ensures a in now.attempts && AttemptPins(now, a)
  {
    MovedOwners(was, now, winner, ns, gid, a);
    if a == winner {
      hide CurrentOwner, Pending;
    } else if CurrentOwner(was, a) && was.attempts[a].plan.Some? {
      OtherNamespace(was, now, winner, ns, gid, a, was.attempts[a].plan.value.descriptor);
      hide CurrentOwner, ParentRefs, Pending;
    } else {
      hide CurrentOwner, ParentRefs, Pending;
    }
  }

  lemma MovedPromotion(was: Db, now: Db, winner: AttemptId, ns: Namespace, gid: GenerationId, m: Promotion)
    requires HeadMoved(was, now, winner, ns, gid) && PromotionPinned(was, m)
    requires m.id.attempt in was.attempts && AttemptPins(was, m.id.attempt)
    ensures PromotionPinned(now, m)
  {
    var a := m.id.attempt;
    MovedOwners(was, now, winner, ns, gid, a);
    if a == winner {
      hide CurrentOwner;
    } else if CurrentOwner(was, a) {
      OtherNamespace(was, now, winner, ns, gid, a, m.plan.descriptor);
      hide CurrentOwner, ParentRefs, ParentHead, RowsCover;
    } else {
      hide CurrentOwner, ParentRefs, ParentHead, RowsCover;
    }
  }

  lemma HeadsIn(w: World)
    requires Inv(w)
    ensures forall o | o in w.db.heads :: w.db.heads[o].generation in w.db.generations
  {
    hide Inv, InvHeads;
    PartsOf(w);
    forall o | o in w.db.heads ensures w.db.heads[o].generation in w.db.generations {
      HeadGeneration(w.db.generations, w.db.heads, w.published, o);
    }
  }

  lemma WinnerMoves(w: World, p: Process, gid: GenerationId, stamp: Time, approved: set<Location>)
    requires Inv(w) && InvPins(w) && Wins(w, p, gid)
    ensures w.promotions[p].plan.binding.Some? && w.promotions[p].token.Some?
    ensures var m := w.promotions[p];
      && m.id.attempt in w.db.attempts
      && HeadMoved(w.db, Publish(w.db, m, gid, stamp, approved), m.id.attempt, m.plan.descriptor, gid)
  {
    hide Inv, InvPins;
    HeadsIn(w);
    CasImplies(w, p, gid);
    var m := w.promotions[p];
    DeclaredRow(w, m.id.attempt);
    OnePromotion(w, p);
    WinnerOwns(w, p, gid);
    hide Wins, CurrentOwner, NewGeneration, NewHead, Approve, ParentRefs, ParentHead, RowsCover;
    PublishShape(w.db, m, gid, stamp, approved);
  }

  lemma PublishShape(db: Db, m: Promotion, gid: GenerationId, stamp: Time, approved: set<Location>)
    requires m.plan.binding.Some? && m.token.Some? && m.id.attempt in db.attempts
    ensures var now := Publish(db, m, gid, stamp, approved);
      && now.owners == db.owners && gid in now.generations
      && now.generations == db.generations[gid := now.generations[gid]]
      && m.plan.descriptor in now.heads
      && now.heads == db.heads[m.plan.descriptor := now.heads[m.plan.descriptor]]
      && m.id.attempt in now.attempts
      && now.attempts == db.attempts[m.id.attempt := now.attempts[m.id.attempt]]
      && var a, b := db.attempts[m.id.attempt], now.attempts[m.id.attempt];
      && b == a.(published := b.published, pins := map[]) && b.published.Some?
  {
    hide Content, NewRefs, PublicationTime, NewHead, Approve;
  }

  lemma OnePromotion(w: World, p: Process)
    requires InvPins(w) && p in w.promotions
    ensures PromotionPinned(w.db, w.promotions[p])
  {
    hide AttemptPins, PromotionPinned;
  }

  lemma WinnerOwns(w: World, p: Process, gid: GenerationId)
    requires Wins(w, p, gid)
    ensures CurrentOwner(w.db, w.promotions[p].id.attempt) && gid !in w.db.generations
  {
    hide CurrentOwner, Verified, NewRefs, AllPresent, Content, HasGeneration, DistinctDigests;
  }

  lemma CasKeepsPins(w: World, p: Process, gid: GenerationId, stamp: Time, approved: set<Location>)
    requires Inv(w) && InvPins(w)
    ensures InvPins(NextCas(w, p, gid, stamp, approved))
  {
    hide Inv, Wins, Publish, HeadMoved, GuardFree, AttemptPins, PromotionPinned;
    var v := NextCas(w, p, gid, stamp, approved);
    if p in w.promotions && GuardFree(w) && Wins(w, p, gid) && stamp > EPOCH {
      WinnerMoves(w, p, gid, stamp, approved);
      var m := w.promotions[p];
      MovedKeys(w.db, v.db, m.id.attempt, m.plan.descriptor, gid);
      forall a | a in v.db.attempts ensures AttemptPins(v.db, a) {
        MovedAttempt(w.db, v.db, m.id.attempt, m.plan.descriptor, gid, a);
      }
      forall q | q in v.promotions ensures PromotionPinned(v.db, v.promotions[q]) {
        PinnedAttempt(w.db, w.promotions[q]);
        MovedPromotion(w.db, v.db, m.id.attempt, m.plan.descriptor, gid, w.promotions[q]);
      }
    } else {
      TablesStay(w, v);
    }
  }

  lemma MovedKeys(was: Db, now: Db, winner: AttemptId, ns: Namespace, gid: GenerationId)
    requires HeadMoved(was, now, winner, ns, gid)
    ensures now.attempts.Keys == was.attempts.Keys
  {
    hide CurrentOwner;
  }

  // ---- every step, every run ------------------------------------------------------

  /** The collector's transactions on rows of its attempt after the plan was bound. */
  predicate IsChunkStep(a: Action) {
    a.PlanChunk? || a.Capture? || a.AbandonCapture? || a.CloseOneSource? || a.CloseAll?
  }

  lemma ChunkStepKeepsPins(w: World, a: Action)
    requires InvPins(w) && IsChunkStep(a)
    ensures InvPins(Next(w, a))
  {
    hide NextPublisher, NextGc, NextReader;
    hide InvPins, ExpectChunk, RecordChunk, FailCapture, CloseSource, ClosePlan, RowOnly;
    match a
    case PlanChunk(id, key, row) =>
      ExpectRows(w.db, id, key, row);
      RowOnlyKeepsPins(w, Next(w, a), id.attempt);
    case Capture(id, c) =>
      RecordRows(w.db, id, c);
      RowOnlyKeepsPins(w, Next(w, a), id.attempt);
    case AbandonCapture(id) =>
      FailRows(w.db, id);
      RowOnlyKeepsPins(w, Next(w, a), id.attempt);
    case CloseOneSource(id, s, keys) =>
      SourceRows(w.db, id, s, keys);
      RowOnlyKeepsPins(w, Next(w, a), id.attempt);
    case CloseAll(id) =>
      CloseRows(w.db, id);
      RowOnlyKeepsPins(w, Next(w, a), id.attempt);
  }

  lemma OpeningStepKeepsPins(w: World, a: Action)
    requires InvPins(w) && IsCollectorStep(a) && !IsChunkStep(a)
    ensures InvPins(Next(w, a))
  {
    hide NextPublisher, NextGc, NextReader;
    hide InvPins, StartRun, FinishRun, CreateAttempt, Claim, Declare, Bind, NextWrite;
    match a
    case AdvanceClock(now) => TablesStay(w, Next(w, a));
    case BeginRun(run, o) => TablesStay(w, Next(w, a));
    case EndRun(run, status) => TablesStay(w, Next(w, a));
    case BeginAttempt(id, run, planned, dagster, o) => CreateKeepsPins(w, id, run, planned, dagster, o);
    case ClaimScopes(id) => ClaimKeepsPins(w, id);
    case DeclarePolicy(id, d, listed) => DeclareKeepsPins(w, id, d, listed);
    case BindResponse(id, r) => BindKeepsPins(w, id, r);
    case WriteFile(aid, key) => TablesStay(w, Next(w, a));
  }

  lemma TickCommitKeepsPins(w: World, p: Process)
    requires InvPins(w)
    ensures InvPins(NextTickCommit(w, p))
  {
    hide InvPins, CommitTick, RowOnly, TickDigests;
    var v := NextTickCommit(w, p);
    if p in w.ticks && w.ticks[p].verified == |w.ticks[p].rows| {
      var t := w.ticks[p];
      CommitRows(w.db, t.id, t.token, TickDigests(t));
      RowOnlyKeepsPins(w, v, t.id.attempt);
    }
  }

  lemma PromotionKeepsPins(w: World, a: Action)
    requires Inv(w) && InvPins(w) && IsPromotionStep(a)
    ensures InvPins(Next(w, a))
  {
    hide Inv, InvPins, Next, NextPin, NextCas, ReadList, Readable;
    PromotionCase(w, a);
    if a.PromotePin? {
      PinKeepsPins(w, a.p, a.id);
    } else if a.PromoteRead? {
      TablesStay(w, NextPromoteRead(w, a.p));
    } else {
      CasKeepsPins(w, a.p, a.generation, a.stamp, a.approved);
    }
  }

  lemma ReconcilerKeepsPins(w: World, a: Action)
    requires InvPins(w) && IsPublisherStep(a) && !IsPromotionStep(a)
    ensures InvPins(Next(w, a))
  {
    hide NextCollector, NextGc, NextReader;
    hide InvPins, NextTickBegin, NextTickVerify, NextTickCommit, NextPin, NextPromoteRead, NextCas,
         RetireSuperseded, RetireTerminal, BootstrapInventory, RowOnly;
    match a
    case TickBegin(p, id, limit) => TablesStay(w, Next(w, a));
    case TickVerify(p) => TablesStay(w, Next(w, a));
    case TickCommit(p) => TickCommitKeepsPins(w, p);
    case RetireMoved(aid) =>
      RetireRows(w.db, aid, false);
      RowOnlyKeepsPins(w, Next(w, a), aid);
    case RetireEnded(aid, lost) =>
      RetireRows(w.db, aid, lost);
      RowOnlyKeepsPins(w, Next(w, a), aid);
    case Reproject(ns, approved) => TablesStay(w, Next(w, a));
  }

  lemma OthersKeepPins(w: World, a: Action)
    requires InvPins(w) && (IsGcStep(a) || IsReaderStep(a))
    ensures InvPins(Next(w, a))
  {
    hide InvPins, Next;
    if IsGcStep(a) {
      GcFrame(w, a);
    } else {
      ReaderFrame(w, a);
    }
    TablesStay(w, Next(w, a));
  }

  lemma NextKeepsPins(w: World, a: Action)
    requires Inv(w) && InvPins(w)
    ensures InvPins(Next(w, a))
  {
    hide Inv, InvPins, Next;
    if IsChunkStep(a) {
      ChunkStepKeepsPins(w, a);
    } else if IsCollectorStep(a) {
      OpeningStepKeepsPins(w, a);
    } else if IsPromotionStep(a) {
      PromotionKeepsPins(w, a);
    } else if IsPublisherStep(a) {
      ReconcilerKeepsPins(w, a);
    } else {
      OthersKeepPins(w, a);
    }
  }

  lemma {:induction false} RunKeepsPins(w: World, actions: seq<Action>)
    requires Inv(w) && InvPins(w)
    ensures InvPins(Execute(w, actions))
  {
    hide Inv, InvPins, Next, Later;
    if actions != [] {
      var front := actions[..|actions| - 1];
      RunKeeps(w, front);
      RunKeepsPins(w, front);
      NextKeepsPins(Execute(w, front), actions[|actions| - 1]);
    }
  }

  lemma ReachablePins(actions: seq<Action>)
    ensures InvPins(Execute(Initial, actions))
  {
    hide Next, Inv;
    Reachable([]);
    RunKeepsPins(Initial, actions);
  }

  // ---- what the pins protect --------------------------------------------------------

  /** After pinning, every file of the parent's manifest is a garbage-collection root. */
  ghost predicate ParentProtected(pins: map<PinKey, Digest>, parents: seq<Ref>) {
    forall i | 0 <= i < |parents| :: parents[i].digest in pins.Values
  }

  /** Over every run and every try, the second transaction of a promotion pins the whole present
      manifest of its namespace, whatever rows earlier tries have left. */
  lemma EveryPinProtectsParent(actions: seq<Action>, id: Identity)
    requires CanPin(Execute(Initial, actions).db, id)
    ensures var db := Execute(Initial, actions).db;
      && id.attempt in db.attempts && db.attempts[id.attempt].plan.Some?
      && id.attempt in Pin(db, id).attempts
      && ParentProtected(Pin(db, id).attempts[id.attempt].pins,
                         ParentRefs(db, db.attempts[id.attempt].plan.value.descriptor))
  {
    hide InvPins, CanPin, ParentRefs, Pin, Next;
    var w := Execute(Initial, actions);
    ReachablePins(actions);
    PinShape(w.db, id);
    PinCovers(w, id);
    var parents := ParentRefs(w.db, w.db.attempts[id.attempt].plan.value.descriptor);
    var pins := Pin(w.db, id).attempts[id.attempt].pins;
    forall i | 0 <= i < |parents| ensures parents[i].digest in pins.Values {
      assert pins[ParentPin(i)] == parents[i].digest;
    }
  }

  /** A promoter that is still current owner of a pending attempt finds the head it pinned, and
      until its final transaction every file of that head stays on disk at its recorded size,
      whatever collectors of files do in between. */
  lemma PinnedParentStays(actions: seq<Action>, p: Process)
    requires var w := Execute(Initial, actions);
      && p in w.promotions && CurrentOwner(w.db, w.promotions[p].id.attempt)
      && Pending(w.db.attempts[w.promotions[p].id.attempt])
    ensures var w := Execute(Initial, actions);
      && w.promotions[p].parent == ParentHead(w.db, w.promotions[p].plan.descriptor)
      && w.promotions[p].parentRefs == ParentRefs(w.db, w.promotions[p].plan.descriptor)
      && AllPresent(w.files, w.promotions[p].parentRefs)
  {
    hide InvPins, Inv, ParentHead, Next, CurrentOwner, Pending, InvHeads, InvGenerations, GenerationOk;
    var w := Execute(Initial, actions);
    ReachablePins(actions);
    Reachable(actions);
    OnePromotion(w, p);
    var m := w.promotions[p];
    var ns := m.plan.descriptor;
    PartsOf(w);
    GenerationsOf(w);
    if ns in w.db.heads {
      HeadFiles(w, ns);
    }
  }
}
