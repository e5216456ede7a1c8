/** The compare-and-swap that publishes a generation keeps the invariant. */
module PipelineCas {
  import opened ExportTypes
  import opened Lifecycle
  import opened Heads
  import opened Pipeline
  import opened PipelineInvariant
  import opened PipelineAttempts
  import opened PipelinePublisher
  import opened PipelinePromotion

  // ---- the publication clock ------------------------------------------------

  lemma {:induction false} LatestCreatedBounds(generations: map<GenerationId, Generation>,
                                               keys: set<GenerationId>)
    requires keys <= generations.Keys && keys != {}
    ensures forall k | k in keys :: generations[k].created <= LatestCreated(generations, keys)
  {
    var k := Least(keys);
    if keys != {k} {
      LatestCreatedBounds(generations, keys - {k});
    }
  }

  /** Whatever the server's clock says, a publication is later than everything before it; and it is
      the server's time unless that would not be later, and then the next possible instant. */
  lemma PublicationTimeAdvances(db: Db, stamp: Time)
    ensures PublicationTime(db, stamp) >= stamp
    ensures forall g | g in db.generations :: db.generations[g].created < PublicationTime(db, stamp)
    ensures db.clock.Some? ==> db.clock.value < PublicationTime(db, stamp)
    ensures || PublicationTime(db, stamp) == stamp
            || (db.clock.Some? && PublicationTime(db, stamp) == db.clock.value + 1)
            || (exists g :: g in db.generations && PublicationTime(db, stamp) == db.generations[g].created + 1)
  {
    if db.generations != map[] {
      LatestCreatedBounds(db.generations, db.generations.Keys);
      var g := LatestGeneration(db.generations, db.generations.Keys);
      assert db.generations[g].created + 1 == LatestCreated(db.generations, db.generations.Keys) + 1;
    }
  }

  lemma {:induction false} LatestGeneration(generations: map<GenerationId, Generation>, keys: set<GenerationId>)
    returns (g: GenerationId)
    requires keys <= generations.Keys && keys != {}
    ensures g in keys && generations[g].created == LatestCreated(generations, keys)
  {
    g := Least(keys);
    if keys != {g} && generations[g].created != LatestCreated(generations, keys) {
      g := LatestGeneration(generations, keys - {g});
    }
  }

  // ---- what a win means -----------------------------------------------------

  ghost predicate WinFacts(w: World, m: Promotion, gid: GenerationId) {
    && m.id.attempt in w.db.attempts
    && var a := w.db.attempts[m.id.attempt];
    && a.owner == m.id.owner && a.status == Sealed && a.published.None?
    && m.token.Some? && a.seal == m.token
    && m.plan.binding.Some? && a.plan == Some(m.plan) && a.receipts == m.rows
    && gid !in w.db.generations && !HasGeneration(w.db, m.id.attempt)
    && CandidateAccepted(m) && AllPresent(w.files, NewRefs(m))
    && (m.plan.descriptor in w.db.heads ==>
          && m.plan.binding.value.revision >= w.db.heads[m.plan.descriptor].revision
          && (m.plan.binding.value.revision == w.db.heads[m.plan.descriptor].revision ==>
                w.db.heads[m.plan.descriptor].content == Content(m)))
  }

  lemma WinImplies(w: World, p: Process, gid: GenerationId)
    requires Wins(w, p, gid)
    requires AttemptOk(w.db.attempts[w.promotions[p].id.attempt])
    requires InvPublished(w.db) && InvPromotions(w.promotions, w.db.generations)
    ensures WinFacts(w, w.promotions[p], gid)
  {
    hide Barrier, PlanSealable, ReceiptTrue, CandidateAccepted, AllPresent, NewRefs, Content,
         ParentAccepted, ReadList, Reuse, HasGeneration, CurrentOwner, DistinctDigests;
    var m := w.promotions[p];
    assert PromotionOk(m, w.db.generations);
    var a := w.db.attempts[m.id.attempt];
    assert a.closed && a.seal == Some(SealOf(a));
  }

  /** The committed state of a winning promotion. */
  ghost predicate Won(w: World, v: World, m: Promotion, gid: GenerationId, stamp: Time,
                      approved: set<Location>)
  {
    && WinFacts(w, m, gid) && stamp > EPOCH
    && v == w.(db := Publish(w.db, m, gid, stamp, approved), published := w.published + [gid],
               promotions := v.promotions)
  }

  // ---- attempts -------------------------------------------------------------

  lemma PublishedRow(a: Attempt, created: Time)
    requires AttemptOk(a) && a.status == Sealed && a.published.None?
    ensures AttemptOk(a.(published := Some(created), pins := map[]))
    ensures AttemptLater(a, a.(published := Some(created), pins := map[]))
  {
    hide Barrier, PlanSealable, ReceiptTrue;
    BarrierKeeps(a, a.(published := Some(created), pins := map[]));
  }

  lemma RowReplaced(was: map<AttemptId, Attempt>, now: map<AttemptId, Attempt>,
                    owners: map<Scope, Ownership>, witnessed: set<Digest>, aid: AttemptId)
    requires aid in was && aid in now && now == was[aid := now[aid]]
    requires InvAttempts(was) && InvOwners(was, owners) && InvWitnessed(was, witnessed)
    requires AttemptOk(now[aid]) && AttemptLater(was[aid], now[aid])
    requires now[aid].epochs == was[aid].epochs && now[aid].validated == was[aid].validated
    ensures InvAttempts(now) && InvOwners(now, owners) && InvWitnessed(now, witnessed)
    ensures AttemptsLater(was, now)
  {
    hide AttemptOk, AttemptLater, ScopeClaim;
    forall a | a in was
      ensures a in now && AttemptLater(was[a], now[a])
    {
      AttemptLaterReflexive(was[a]);
    }
  }

  lemma WonAttempts(w: World, v: World, m: Promotion, gid: GenerationId, stamp: Time, approved: set<Location>)
    requires Won(w, v, m, gid, stamp, approved)
    requires InvAttempts(w.db.attempts) && InvOwners(w.db.attempts, w.db.owners)
    requires InvWitnessed(w.db.attempts, w.witnessed) && InvWritten(w.written, w.db.attempts)
    ensures InvAttempts(v.db.attempts) && InvOwners(v.db.attempts, v.db.owners)
    ensures InvWitnessed(v.db.attempts, v.witnessed) && InvWritten(v.written, v.db.attempts)
    ensures AttemptsLater(w.db.attempts, v.db.attempts)
  {
    hide AttemptOk, AttemptLater, InvOwners, InvWitnessed, InvWritten, AttemptsLater,
         CandidateAccepted, AllPresent, NewRefs, HasGeneration, Content, NewGeneration, NewHead, Approve;
    var a := w.db.attempts[m.id.attempt];
    PublishedRow(a, NewGeneration(w.db, m, stamp).created);
    RowReplaced(w.db.attempts, v.db.attempts, w.db.owners, w.witnessed, m.id.attempt);
    WrittenKeeps(w.written, w.db.attempts, v.db.attempts);
  }

  // ---- generations ----------------------------------------------------------

  lemma WonGeneration(w: World, v: World, m: Promotion, gid: GenerationId, stamp: Time, approved: set<Location>)
    requires Won(w, v, m, gid, stamp, approved)
    requires AttemptOk(w.db.attempts[m.id.attempt])
    requires PromotionOk(m, w.db.generations) && InvGenerations(w.db.generations, w.db.attempts)
    ensures GenerationOk(v.db.generations[gid], v.db.attempts)
  {
    hide Barrier, PlanSealable, NewRefs, InvGenerations, PromotionOk, HasGeneration, NewHead, Approve,
         AllPresent, PublicationTime, RefTrue;
    var a := w.db.attempts[m.id.attempt];
    CandidateFiles(m, w.db.generations, w.db.attempts);
    assert v.db.generations[gid] == NewGeneration(w.db, m, stamp);
    assert v.db.attempts[m.id.attempt] ==
      a.(published := Some(NewGeneration(w.db, m, stamp).created), pins := map[]);
  }

  lemma WonGenerations(w: World, v: World, m: Promotion, gid: GenerationId, stamp: Time, approved: set<Location>)
    requires Won(w, v, m, gid, stamp, approved)
    requires InvAttempts(w.db.attempts) && AttemptsLater(w.db.attempts, v.db.attempts)
    requires PromotionOk(m, w.db.generations) && InvGenerations(w.db.generations, w.db.attempts)
    ensures InvGenerations(v.db.generations, v.db.attempts)
    ensures KeepsRows(w.db.generations, v.db.generations)
  {
    hide GenerationOk, PromotionOk, AttemptOk, NewGeneration, NewHead, Approve, CandidateAccepted,
         AllPresent, HasGeneration, AttemptsLater;
    GenerationsKeep(w.db.generations, w.db.attempts, v.db.attempts);
    WonGeneration(w, v, m, gid, stamp, approved);
    assert v.db.generations == w.db.generations[gid := v.db.generations[gid]];
  }

  /** The table facts of a publication that speak of generations alone. */
  ghost predicate Added(was: Db, now: Db, gid: GenerationId, g: Generation) {
    && gid !in was.generations
    && now.generations == was.generations[gid := g]
    && (forall h | h in was.generations :: was.generations[h].created < g.created)
    && (was.clock.Some? ==> was.clock.value < g.created)
    && now.clock == Some(g.created)
    && EPOCH < g.created
    && !HasGeneration(was, g.attempt)
    && g.attempt in was.attempts
  }

  lemma WonAdds(w: World, v: World, m: Promotion, gid: GenerationId, stamp: Time, approved: set<Location>)
    requires Won(w, v, m, gid, stamp, approved)
    ensures Added(w.db, v.db, gid, NewGeneration(w.db, m, stamp))
    ensures v.db.owners == w.db.owners && v.db.runs == w.db.runs && v.db.snapshots == w.db.snapshots
    ensures v.db.progress == w.db.progress
    ensures v.db.attempts.Keys == w.db.attempts.Keys
    ensures forall a | a in w.db.attempts && a != m.id.attempt :: v.db.attempts[a] == w.db.attempts[a]
  {
    hide CandidateAccepted, AllPresent, HasGeneration, NewRefs, Content, NewHead, Approve, PublicationTime;
    PublicationTimeAdvances(w.db, stamp);
  }

  lemma AddedLog(was: Db, now: Db, gid: GenerationId, g: Generation, published: seq<GenerationId>)
    requires Added(was, now, gid, g)
    requires InvLog(was.generations, published) && InvClock(was.generations, was.clock)
    requires InvOncePerAttempt(was.generations)
    ensures InvLog(now.generations, published + [gid])
    ensures InvClock(now.generations, now.clock)
    ensures InvOncePerAttempt(now.generations)
    ensures NewerThanClock(was, now) && ClockLater(was.clock, now.clock)
  {
  }

  lemma AddedPublished(was: Db, now: Db, gid: GenerationId, g: Generation)
    requires Added(was, now, gid, g) && InvPublished(was)
    requires now.attempts.Keys == was.attempts.Keys
    requires forall a | a in was.attempts && a != g.attempt :: now.attempts[a] == was.attempts[a]
    ensures InvPublished(now)
  {
    forall a | a in now.attempts && now.attempts[a].published.Some? ensures HasGeneration(now, a) {
      if a == g.attempt {
        assert now.generations[gid].attempt == a;
      } else {
        assert HasGeneration(was, a);
        var h :| h in was.generations && was.generations[h].attempt == a;
        assert now.generations[h].attempt == a;
      }
    }
  }

  // ---- the head chain -------------------------------------------------------

  lemma {:induction false} LineageSame(was: map<GenerationId, Generation>, now: map<GenerationId, Generation>,
                                       published: seq<GenerationId>, ns: Namespace)
    requires forall g | g in published :: g in was && g in now && was[g] == now[g]
    ensures Lineage(was, published, ns) == Lineage(now, published, ns)
  {
    if published != [] {
      LineageSame(was, now, published[..|published| - 1], ns);
    }
  }

  lemma LineageGrows(was: map<GenerationId, Generation>, published: seq<GenerationId>,
                     gid: GenerationId, g: Generation, ns: Namespace)
    requires InvLog(was, published) && gid !in was
    ensures Lineage(was[gid := g], published + [gid], ns)
         == Lineage(was, published, ns) + (if g.namespace == ns then [gid] else [])
  {
    var all := published + [gid];
    assert all[..|all| - 1] == published;
    LineageSame(was, was[gid := g], published, ns);
  }

  /** The head that a publication replaces, if any, is where the chain ends. */
  ghost predicate Extends(generations: map<GenerationId, Generation>, line: seq<GenerationId>, g: Generation) {
    if line == [] then g.parent.None?
    else
      && var last := line[|line| - 1];
      && last in generations
      && g.parent == Some(last)
      && generations[last].revision <= g.revision
      && (generations[last].revision == g.revision ==> generations[last].content == g.content)
  }

  lemma LinkedGrows(was: map<GenerationId, Generation>, line: seq<GenerationId>, gid: GenerationId, g: Generation)
    requires Linked(was, line) && gid !in was && Extends(was, line, g)
    ensures Linked(was[gid := g], line + [gid])
  {
  }

  lemma LinkedSame(was: map<GenerationId, Generation>, line: seq<GenerationId>, gid: GenerationId, g: Generation)
    requires Linked(was, line) && gid !in was
    ensures Linked(was[gid := g], line)
  {
  }

  lemma WonExtends(w: World, m: Promotion, gid: GenerationId, stamp: Time)
    requires WinFacts(w, m, gid)
    requires InvHeads(w.db.generations, w.db.heads, w.published)
    ensures Extends(w.db.generations, Lineage(w.db.generations, w.published, m.plan.descriptor),
                    NewGeneration(w.db, m, stamp))
    ensures var line := Lineage(w.db.generations, w.published, m.plan.descriptor);
            var now := w.db.generations[gid := NewGeneration(w.db, m, stamp)];
            HeadOk(now, line + [gid], NewHead(w.db, m, gid))
    ensures m.plan.descriptor in w.db.heads ==>
              HeadLater(w.db.heads[m.plan.descriptor], NewHead(w.db, m, gid))
  {
    hide CandidateAccepted, AllPresent, HasGeneration, NewRefs, Content, PublicationTime, Lineage, Linked;
    var ns := m.plan.descriptor;
    var line := Lineage(w.db.generations, w.published, ns);
    assert Linked(w.db.generations, line);
    if ns in w.db.heads {
      assert HeadOk(w.db.generations, line, w.db.heads[ns]);
    }
  }

  lemma WonHeads(w: World, v: World, m: Promotion, gid: GenerationId, stamp: Time, approved: set<Location>)
    requires Won(w, v, m, gid, stamp, approved)
    requires InvLog(w.db.generations, w.published)
    requires InvHeads(w.db.generations, w.db.heads, w.published)
    ensures InvHeads(v.db.generations, v.db.heads, v.published)
    ensures HeadsLater(w.db.heads, v.db.heads)
  {
    hide InvLog, Approve, NewRefs, Content, PublicationTime, CandidateAccepted, AllPresent,
         HasGeneration, Linked, Extends, Lineage, NewHead;
    var g := NewGeneration(w.db, m, stamp);
    WonExtends(w, m, gid, stamp);
    forall ns: Namespace
      ensures var line := Lineage(v.db.generations, v.published, ns);
              && Linked(v.db.generations, line)
              && (ns in v.db.heads ==> HeadOk(v.db.generations, line, v.db.heads[ns]))
              && (ns !in v.db.heads ==> line == [])
    {
      var line := Lineage(w.db.generations, w.published, ns);
      LineageGrows(w.db.generations, w.published, gid, g, ns);
      assert Linked(w.db.generations, line);
      if ns == g.namespace {
        LinkedGrows(w.db.generations, line, gid, g);
      } else {
        LinkedSame(w.db.generations, line, gid, g);
        assert line + [] == line;
        assert ns in w.db.heads ==> HeadOk(w.db.generations, line, w.db.heads[ns]);
      }
    }
  }

  // ---- inventory, processes, files ------------------------------------------

  lemma WonProcesses(w: World, v: World, m: Promotion, gid: GenerationId, stamp: Time, approved: set<Location>)
    requires Won(w, v, m, gid, stamp, approved)
    requires InvInventory(w.db.inventory, w.db.generations)
    requires InvSnapshots(w.db.snapshots, w.db.generations)
    requires InvPromotions(w.promotions, w.db.generations)
    requires forall q | q in v.promotions :: q in w.promotions && v.promotions[q] == w.promotions[q]
    ensures InvInventory(v.db.inventory, v.db.generations)
    ensures InvSnapshots(v.db.snapshots, v.db.generations)
    ensures InvPromotions(v.promotions, v.db.generations)
  {
    hide NewGeneration, NewHead, CandidateAccepted, AllPresent, HasGeneration, NewRefs, Content;
    forall q | q in v.promotions ensures PromotionOk(v.promotions[q], v.db.generations) {
      assert PromotionOk(w.promotions[q], w.db.generations);
    }
  }

  lemma AddedDaily(was: Db, now: Db, gid: GenerationId, g: Generation, reducers: map<Process, Batch>,
                   published: seq<GenerationId>, applied: seq<GenerationId>)
    requires Added(was, now, gid, g) && now.progress == was.progress
    requires InvDaily(was, published, applied)
    requires InvReducers(reducers, was.generations, published, applied)
    ensures InvDaily(now, published + [gid], applied)
    ensures InvReducers(reducers, now.generations, published + [gid], applied)
  {
    forall p | p in reducers ensures BatchOk(reducers[p], now.generations, published + [gid], applied) {
      assert BatchOk(reducers[p], was.generations, published, applied);
    }
  }

  /** What a publication does to the tables that root files. */
  ghost predicate Reroots(w: World, v: World, ns: Namespace, aid: AttemptId, gid: GenerationId, g: Generation) {
    && gid !in w.db.generations
    && v.db.generations == w.db.generations[gid := g]
    && ns in v.db.heads && v.db.heads[ns].generation == gid
    && (forall o | o in v.db.heads && o != ns :: o in w.db.heads && v.db.heads[o] == w.db.heads[o])
    && (forall k | k in v.db.inventory ::
          v.db.inventory[k] == gid || (k in w.db.inventory && v.db.inventory[k] == w.db.inventory[k]))
    && v.db.progress == w.db.progress && v.db.snapshots == w.db.snapshots
    && v.time == w.time && v.confirmed == w.confirmed && v.written == w.written
    && (forall a | a in v.db.attempts && a != aid :: a in w.db.attempts && v.db.attempts[a] == w.db.attempts[a])
    && (aid in v.db.attempts ==> !Pending(v.db.attempts[aid]) && v.db.attempts[aid].pins == map[])
  }

  lemma WonReroots(w: World, v: World, m: Promotion, gid: GenerationId, stamp: Time, approved: set<Location>)
    requires Won(w, v, m, gid, stamp, approved)
    ensures Reroots(w, v, m.plan.descriptor, m.id.attempt, gid, NewGeneration(w.db, m, stamp))
  {
    hide CandidateAccepted, AllPresent, HasGeneration, NewRefs, Content, PublicationTime, Replaces;
  }

  /** A publication makes only its own files newly needed. */
  lemma RerootsNeeds(w: World, v: World, ns: Namespace, aid: AttemptId, gid: GenerationId, g: Generation,
                     d: Digest)
    requires Reroots(w, v, ns, aid, gid, g)
    requires InvSnapshots(w.db.snapshots, w.db.generations)
    requires Needed(v, d) && !HasRef(g, d)
    ensures Needed(w, d)
  {
    hide HasRef;
    var r: Root :| Needs(v, r, d);
    assert Needs(w, r, d);
  }

  lemma WonFiles(w: World, v: World, m: Promotion, gid: GenerationId, stamp: Time, approved: set<Location>)
    requires Won(w, v, m, gid, stamp, approved)
    requires InvSnapshots(w.db.snapshots, w.db.generations) && InvWritten(w.written, w.db.attempts)
    requires InvFiles(w) && GuardFree(w)
    ensures InvFiles(v) && InvHeld(v)
  {
    hide Needed, CandidateAccepted, HasGeneration, Content, PublicationTime, NewRefs, NewHead, Approve,
         InvSnapshots, InvWritten, Reroots;
    WonReroots(w, v, m, gid, stamp, approved);
    var g := NewGeneration(w.db, m, stamp);
    forall d: Digest | Needed(v, d) ensures d in v.files {
      if !HasRef(g, d) {
        RerootsNeeds(w, v, m.plan.descriptor, m.id.attempt, gid, g, d);
      }
    }
  }

  // ---- the step -------------------------------------------------------------

  lemma WonKeeps(w: World, v: World, p: Process, m: Promotion, gid: GenerationId, stamp: Time,
                 approved: set<Location>)
    requires Inv(w) && GuardFree(w) && p in w.promotions && m == w.promotions[p]
    requires Won(w, v, m, gid, stamp, approved) && v.promotions == Without(w.promotions, p)
    ensures InvTables(v.db, v.published) && InvProcesses(v) && InvFiles(v) && InvHeld(v)
    ensures Later(w, v)
  {
    hide Won, AttemptOk, InvAttempts, InvOwners, InvGenerations, InvOncePerAttempt, InvPublished, InvLog,
         InvClock, InvHeads, InvInventory, InvSnapshots, PromotionOk, InvTicks, InvWitnessed, InvDaily,
         InvReducers, InvGcs, InvWritten, InvFiles, InvHeld, InvConfirmed, AttemptsLater, RunsLater,
         KeepsRows, HeadsLater, ClockLater, NewerThanClock, Added, NewGeneration, GuardFree;
    OneAttemptOf(w, m);
    WonShape(w, v, m, gid, stamp, approved);
    WonAdds(w, v, m, gid, stamp, approved);
    WonAttempts(w, v, m, gid, stamp, approved);
    WonGenerations(w, v, m, gid, stamp, approved);
    var g := NewGeneration(w.db, m, stamp);
    AddedLog(w.db, v.db, gid, g, w.published);
    AddedPublishedWon(w, v, m, gid, stamp, approved);
    WonHeads(w, v, m, gid, stamp, approved);
    WonProcesses(w, v, m, gid, stamp, approved);
    AddedDaily(w.db, v.db, gid, g, w.reducers, w.published, w.applied);
    WonFiles(w, v, m, gid, stamp, approved);
    RunsLaterReflexive(w.db.runs);
  }

  lemma OneAttemptOf(w: World, m: Promotion)
    requires Inv(w) && exists p :: p in w.promotions && m == w.promotions[p]
    ensures PromotionOk(m, w.db.generations)
  {
    hide PromotionOk;
    TicksOf(w);
  }

  lemma AddedPublishedWon(w: World, v: World, m: Promotion, gid: GenerationId, stamp: Time, approved: set<Location>)
    requires Won(w, v, m, gid, stamp, approved) && InvPublished(w.db)
    ensures InvPublished(v.db)
  {
    hide InvPublished, Added, CandidateAccepted, AllPresent, HasGeneration, NewRefs, Content, NewHead,
         Approve, PublicationTime;
    WonAdds(w, v, m, gid, stamp, approved);
    AddedPublished(w.db, v.db, gid, NewGeneration(w.db, m, stamp));
  }

  lemma WonShape(w: World, v: World, m: Promotion, gid: GenerationId, stamp: Time, approved: set<Location>)
    requires Won(w, v, m, gid, stamp, approved)
    ensures v.published == w.published + [gid] && v.reducers == w.reducers && v.applied == w.applied
    ensures v.ticks == w.ticks && v.witnessed == w.witnessed && v.gcs == w.gcs && v.time == w.time
    ensures v.written == w.written && v.confirmed == w.confirmed && v.files == w.files
    ensures m.plan.binding.Some? && m.token.Some? && m.id.attempt in w.db.attempts
  {
    hide Publish, CandidateAccepted, AllPresent, HasGeneration, NewRefs, Content;
  }

  lemma CasKeeps(w: World, p: Process, gid: GenerationId, stamp: Time, approved: set<Location>)
    requires Inv(w)
    ensures Inv(NextCas(w, p, gid, stamp, approved)) && Later(w, NextCas(w, p, gid, stamp, approved))
  {
    hide Wins, Later, Inv, Publish, WinFacts, InvTables, InvProcesses, InvFiles, InvHeld, InvGenerations,
         InvHeads, InvWitnessed, InvTicks, GuardFree;
    var v := NextCas(w, p, gid, stamp, approved);
    TicksOf(w);
    if p !in w.promotions || !GuardFree(w) {
      LaterReflexive(w);
    } else if !Wins(w, p, gid) || stamp <= EPOCH {
      MemoryKeeps(w, v);
    } else {
      CasImplies(w, p, gid);
      WinOf(w, p, gid);
      WonKeeps(w, v, p, w.promotions[p], gid, stamp, approved);
      InvFrom(v);
    }
  }

  lemma InvFrom(v: World)
    requires InvTables(v.db, v.published) && InvProcesses(v) && InvFiles(v) && InvHeld(v)
    ensures Inv(v)
  {
    hide InvTables, InvProcesses, InvFiles, InvHeld;
  }

  lemma WinOf(w: World, p: Process, gid: GenerationId)
    requires Inv(w) && Wins(w, p, gid)
    ensures WinFacts(w, w.promotions[p], gid)
  {
    hide WinFacts, Wins, AttemptOk, InvOwners, InvGenerations, InvOncePerAttempt, InvPublished, InvLog,
         InvClock, InvHeads, InvInventory, InvSnapshots, InvPromotions, InvTicks, InvWitnessed, InvDaily,
         InvReducers, InvGcs, InvWritten, InvFiles, InvHeld, InvConfirmed;
    CasImplies(w, p, gid);
    WinImplies(w, p, gid);
  }
}
