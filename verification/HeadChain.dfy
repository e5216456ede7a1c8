/** Heads, content and publication order over every run. */
module HeadChain {
  import opened ExportTypes
  import opened Lifecycle
  import opened Heads
  import opened Pipeline
  import opened PipelineInvariant
  import opened PipelineFrames
  import opened PipelineAttempts
  import opened PipelinePromotion
  import opened PipelineCas
  import opened PipelineFiles
  import opened PipelineDaily
  import opened PipelineSteps

  // ---- one parent chain per namespace ---------------------------------------

  lemma {:induction false} LineageComplete(generations: map<GenerationId, Generation>,
                                           published: seq<GenerationId>, ns: Namespace)
    ensures forall g | g in published && g in generations && generations[g].namespace == ns ::
              g in Lineage(generations, published, ns)
  {
    if published != [] {
      LineageComplete(generations, published[..|published| - 1], ns);
      forall g | g in published && g in generations && generations[g].namespace == ns
        ensures g in Lineage(generations, published, ns)
      {
        if g != published[|published| - 1] {
          assert g in published[..|published| - 1];
        }
      }
    }
  }

  /** In every reachable state the generations of a namespace form one parent chain that
      starts without a parent and ends at the head: each names the one before it, data
      revisions never fall, equal revisions have equal content; the head's version is the
      length of the chain, and it carries the revision and content of its generation and a
      collection time no older. */
  lemma OneChainPerNamespace(actions: seq<Action>, ns: Namespace)
    ensures var w := Execute(Initial, actions);
            var chain := Lineage(w.db.generations, w.published, ns);
      && (forall g :: g in chain <==> g in w.db.generations && w.db.generations[g].namespace == ns)
      && (forall i | 0 <= i < |chain| ::
            w.db.generations[chain[i]].parent == if i == 0 then None else Some(chain[i - 1]))
      && (forall i, j | 0 <= i <= j < |chain| ::
            && w.db.generations[chain[i]].revision <= w.db.generations[chain[j]].revision
            && (w.db.generations[chain[i]].revision == w.db.generations[chain[j]].revision ==>
                  w.db.generations[chain[i]].content == w.db.generations[chain[j]].content))
      && (ns in w.db.heads <==> chain != [])
      && (ns in w.db.heads ==> HeadOk(w.db.generations, chain, w.db.heads[ns]))
  {
    hide Inv, Next, InvLog, InvInventory, InvSnapshots, InvClock, InvDaily, InvReducers, InvGcs,
         InvWritten, InvConfirmed, InvFiles, InvHeld, HeadOk, InvHeads;
    var w := Execute(Initial, actions);
    Reachable(actions);
    PartsOf(w);
    ChainFacts(w.db, w.published, ns);
    forall i, j | 0 <= i <= j < |Lineage(w.db.generations, w.published, ns)|
      ensures var chain := Lineage(w.db.generations, w.published, ns);
        && w.db.generations[chain[i]].revision <= w.db.generations[chain[j]].revision
        && (w.db.generations[chain[i]].revision == w.db.generations[chain[j]].revision ==>
              w.db.generations[chain[i]].content == w.db.generations[chain[j]].content)
    {
      ChainOrdered(w.db.generations, Lineage(w.db.generations, w.published, ns), i, j);
    }
  }

  lemma ChainFacts(db: Db, published: seq<GenerationId>, ns: Namespace)
    requires InvHeads(db.generations, db.heads, published) && InvLog(db.generations, published)
    ensures var chain := Lineage(db.generations, published, ns);
      && Linked(db.generations, chain)
      && (forall g :: g in chain <==> g in db.generations && db.generations[g].namespace == ns)
      && (ns in db.heads <==> chain != [])
      && (ns in db.heads ==> HeadOk(db.generations, chain, db.heads[ns]))
  {
    hide Linked;
    LineageOf(db.generations, published, ns);
    LineageComplete(db.generations, published, ns);
  }

  lemma {:induction false} ChainOrdered(generations: map<GenerationId, Generation>, chain: seq<GenerationId>,
                                        i: nat, j: nat)
    requires Linked(generations, chain) && i <= j < |chain|
    ensures generations[chain[i]].revision <= generations[chain[j]].revision
    ensures generations[chain[i]].revision == generations[chain[j]].revision ==>
              generations[chain[i]].content == generations[chain[j]].content
  {
    if i < j {
      ChainOrdered(generations, chain, i, j - 1);
    }
  }

  /** However a run goes on, a head only moves forward: version, revision and collection
      time never fall, and a version or a revision is never reused for other content. */
  lemma HeadsOnlyAdvance(before: seq<Action>, after: seq<Action>)
    ensures HeadsLater(Execute(Initial, before).db.heads, Execute(Initial, before + after).db.heads)
  {
    hide Inv, Next, HeadsLater;
    Reachable(before);
    ExecuteSplit(Initial, before, after);
    RunKeeps(Execute(Initial, before), after);
    LaterParts(Execute(Initial, before), Execute(Initial, before + after));
  }

  lemma LaterParts(w: World, v: World)
    requires Later(w, v)
    ensures HeadsLater(w.db.heads, v.db.heads) && AttemptsLater(w.db.attempts, v.db.attempts)
    ensures OwnersLater(w.db, v.db) && RunsLater(w.db.runs, v.db.runs)
    ensures NewerThanClock(w.db, v.db) && ClockLater(w.db.clock, v.db.clock)
    ensures KeepsRows(w.db.generations, v.db.generations)
    ensures w.published <= v.published && w.applied <= v.applied && w.witnessed <= v.witnessed
  {
    hide HeadsLater, AttemptsLater, OwnersLater, RunsLater, NewerThanClock, ClockLater, KeepsRows;
  }

  // ---- only the compare-and-swap moves a head --------------------------------

  ghost predicate SamePublications(w: World, v: World) {
    && v.db.heads == w.db.heads && v.db.generations == w.db.generations
    && v.published == w.published && v.db.clock == w.db.clock
  }

  lemma OthersPublishNothing(w: World, a: Action)
    requires !a.PromoteCas?
    ensures SamePublications(w, Next(w, a))
  {
    hide Next;
    PublishesNothing(w, a);
  }

  /** Who may publish: the current epoch owner of all its scopes, with a successful source
      run, sealed, and without a generation of its own. */
  ghost predicate Publisher(w: World, aid: AttemptId) {
    && CurrentOwner(w.db, aid)
    && w.db.attempts[aid].run in w.db.runs && RunOf(w.db, aid).status == Success
    && w.db.attempts[aid].status == Sealed
    && !HasGeneration(w.db, aid)
  }

  /** What one step may do to the publications: nothing, or publish one new generation. */
  ghost predicate PublishesOne(w: World, v: World, a: Action) {
    && a.PromoteCas? && a.p in w.promotions
    && w.promotions[a.p].read == |ReadList(w.promotions[a.p])|
    && var aid := w.promotions[a.p].id.attempt;
    && Publisher(w, aid)
    && a.generation !in w.db.generations && a.generation in v.db.generations
    && var g := v.db.generations[a.generation];
    && g.attempt == aid
    && v.db.generations == w.db.generations[a.generation := g]
    && v.published == w.published + [a.generation]
    && v.db.heads.Keys == w.db.heads.Keys + {g.namespace}
    && (forall ns | ns in w.db.heads && ns != g.namespace :: v.db.heads[ns] == w.db.heads[ns])
    && v.db.heads[g.namespace].generation == a.generation
    && v.db.heads[g.namespace].version
       == (if g.namespace in w.db.heads then w.db.heads[g.namespace].version + 1 else 1)
    && (w.db.clock.Some? ==> g.created > w.db.clock.value)
  }

  lemma CasPublishesOne(w: World, p: Process, gid: GenerationId, stamp: Time, approved: set<Location>)
    ensures var v := NextCas(w, p, gid, stamp, approved);
            SamePublications(w, v) || PublishesOne(w, v, PromoteCas(p, gid, stamp, approved))
  {
    hide CandidateAccepted, AllPresent, NewRefs, Content, HasGeneration, Approve, ReadList, Reuse,
         ParentAccepted, DistinctDigests, CurrentOwner, PublicationTime;
    if p in w.promotions && GuardFree(w) && Wins(w, p, gid) && stamp > EPOCH {
      CasImplies(w, p, gid);
      PublicationTimeAdvances(w.db, stamp);
    }
  }

  /** A step leaves every head alone, or publishes one generation of the attempt that is then
      the current owner, raising one head's version by exactly one. */
  lemma StepPublishesAtMostOne(w: World, a: Action)
    ensures SamePublications(w, Next(w, a)) || PublishesOne(w, Next(w, a), a)
  {
    hide Next, SamePublications, PublishesOne;
    if a.PromoteCas? {
      CasPublishesOne(w, a.p, a.generation, a.stamp, a.approved);
      CasStep(w, a);
    } else {
      OthersPublishNothing(w, a);
    }
  }

  lemma CasStep(w: World, a: Action)
    requires a.PromoteCas?
    ensures Next(w, a) == NextCas(w, a.p, a.generation, a.stamp, a.approved)
    ensures a == PromoteCas(a.p, a.generation, a.stamp, a.approved)
  {
    hide NextCollector, NextGc, NextReader;
    hide NextCas;
  }

  /** An attempt publishes at most once in any run. */
  lemma OneGenerationPerAttempt(actions: seq<Action>, g: GenerationId, h: GenerationId)
    requires var w := Execute(Initial, actions);
             g in w.db.generations && h in w.db.generations
             && w.db.generations[g].attempt == w.db.generations[h].attempt
    ensures g == h
  {
    hide Inv, Next, InvGenerations, InvAttempts, InvOwners;
    Reachable(actions);
    LogOf(Execute(Initial, actions));
  }

  lemma LogOf(w: World)
    requires Inv(w)
    ensures InvGenerations(w.db.generations, w.db.attempts) && InvAttempts(w.db.attempts)
    ensures InvOncePerAttempt(w.db.generations) && InvOwners(w.db.attempts, w.db.owners)
    ensures InvPublished(w.db)
  {
    hide InvAttempts, InvOwners, InvGenerations, InvOncePerAttempt, InvPublished, InvLog, InvClock,
         InvHeads, InvInventory, InvSnapshots, InvProcesses, InvFiles, InvHeld;
  }

  // ---- content --------------------------------------------------------------

  /** Every published generation, also one that reuses its parent's files, holds exactly the
      semantic points fixed when its source was bound: each once, covering exactly the
      declared locations; its references tell the truth about their files. */
  lemma PublishedFilesHoldSource(actions: seq<Action>, g: GenerationId)
    requires g in Execute(Initial, actions).db.generations
    ensures var w := Execute(Initial, actions);
            var row := w.db.generations[g];
      && row.attempt in w.db.attempts && w.db.attempts[row.attempt].plan.Some?
      && FilesHoldSource(row, w.db.attempts[row.attempt].plan.value)
      && row.content == SemanticBag(RefLines(row.refs))
      && (forall i | 0 <= i < |row.refs| :: RefTrue(row.refs[i]))
  {
    hide Inv, Next, InvAttempts, InvOwners, InvOncePerAttempt, InvPublished, SemanticBag, RefLines;
    Reachable(actions);
    LogOf(Execute(Initial, actions));
    assert GenerationOk(Execute(Initial, actions).db.generations[g], Execute(Initial, actions).db.attempts);
  }

  /** From the response to the files: whatever happens after a source response is bound, a
      generation of that attempt holds exactly that response's points. */
  lemma BoundResponseIsPublished(before: seq<Action>, id: Identity, response: Response, after: seq<Action>,
                                 g: GenerationId)
    requires CanBind(Execute(Initial, before).db, id, response, Execute(Initial, before).time)
    requires var v := Execute(Initial, before + [BindResponse(id, response)] + after);
             g in v.db.generations && v.db.generations[g].attempt == id.attempt
    ensures var v := Execute(Initial, before + [BindResponse(id, response)] + after);
            var d := Execute(Initial, before).db.attempts[id.attempt].plan.value.descriptor;
      && SemanticBag(RefLines(v.db.generations[g].refs)) == SemanticBag(response.points)
      && DistinctKeys(RefLines(v.db.generations[g].refs))
      && LocationsOf(RefLines(v.db.generations[g].refs)) == d.locations
      && v.db.generations[g].namespace == d
      && v.db.generations[g].revision == response.revision
      && v.db.generations[g].collected == response.fetched
  {
    hide Inv, SemanticBag, RefLines, DistinctKeys, LocationsOf, CanBind, Later;
    var u := Execute(Initial, before);
    var b := Next(u, BindResponse(id, response));
    assert (before + [BindResponse(id, response)])[..|before|] == before;
    assert Execute(Initial, before + [BindResponse(id, response)]) == b by { hide Next; }
    BindShape(u, id, response);
    hide Next;
    ExecuteSplit(Initial, before + [BindResponse(id, response)], after);
    Reachable(before + [BindResponse(id, response)]);
    var v := Execute(b, after);
    RunKeeps(b, after);
    LaterParts(b, v);
    assert AttemptLater(b.db.attempts[id.attempt], v.db.attempts[id.attempt]);
    PublishedFilesHoldSource(before + [BindResponse(id, response)] + after, g);
    GenerationPlan(v, g);
  }

  lemma BindShape(u: World, id: Identity, response: Response)
    requires CanBind(u.db, id, response, u.time)
    ensures id.attempt in u.db.attempts && u.db.attempts[id.attempt].plan.Some?
    ensures var b := Next(u, BindResponse(id, response));
            && id.attempt in b.db.attempts && b.db.attempts[id.attempt].plan
               == Some(u.db.attempts[id.attempt].plan.value.(binding := Some(BindingOf(response))))
  {
    hide NextPublisher, NextGc, NextReader;
    hide CurrentOwner, SemanticBag;
  }

  lemma GenerationPlan(v: World, g: GenerationId)
    requires Inv(v) && g in v.db.generations
    ensures GenerationOk(v.db.generations[g], v.db.attempts)
  {
    hide GenerationOk, Inv;
    LogOf(v);
  }

  // ---- the seal -------------------------------------------------------------

  /** Once a plan is closed, nothing its seal covers ever changes and the completeness
      barrier keeps holding, in every later state of every run. */
  lemma SealIsFinal(before: seq<Action>, id: Identity, after: seq<Action>)
    requires CanClosePlan(Execute(Initial, before).db, id)
    ensures var u := Execute(Initial, before);
            var v := Execute(Initial, before + [CloseAll(id)] + after);
      && id.attempt in v.db.attempts
      && v.db.attempts[id.attempt].closed
      && v.db.attempts[id.attempt].seal == Some(SealOf(u.db.attempts[id.attempt]))
      && SealOf(v.db.attempts[id.attempt]) == SealOf(u.db.attempts[id.attempt])
      && v.db.attempts[id.attempt].closures == u.db.attempts[id.attempt].closures
      && Barrier(v.db.attempts[id.attempt])
  {
    hide Inv, CanClosePlan, Later, Barrier;
    var u := Execute(Initial, before);
    var c := Next(u, CloseAll(id));
    assert (before + [CloseAll(id)])[..|before|] == before;
    assert Execute(Initial, before + [CloseAll(id)]) == c by { hide Next; }
    CloseShape(u, id);
    hide Next;
    ExecuteSplit(Initial, before + [CloseAll(id)], after);
    Reachable(before + [CloseAll(id)]);
    var v := Execute(c, after);
    RunKeeps(c, after);
    LaterParts(c, v);
    assert AttemptLater(c.db.attempts[id.attempt], v.db.attempts[id.attempt]);
    OneAttempt(v, id.attempt);
  }

  lemma CloseShape(u: World, id: Identity)
    requires CanClosePlan(u.db, id)
    ensures id.attempt in u.db.attempts
    ensures var c := Next(u, CloseAll(id));
            && id.attempt in c.db.attempts && c.db.attempts[id.attempt].closed
            && c.db.attempts[id.attempt].seal == Some(SealOf(u.db.attempts[id.attempt]))
            && SealOf(c.db.attempts[id.attempt]) == SealOf(u.db.attempts[id.attempt])
            && c.db.attempts[id.attempt].closures == u.db.attempts[id.attempt].closures
  {
    hide NextPublisher, NextGc, NextReader;
    hide CurrentOwner, Barrier;
  }

  // ---- publication order ----------------------------------------------------

  /** Publication times rise strictly in commit order, whatever the server clocks said. */
  lemma PublicationTimesRise(actions: seq<Action>)
    ensures var w := Execute(Initial, actions);
      && (forall g :: g in w.published <==> g in w.db.generations)
      && (forall i, j | 0 <= i < j < |w.published| ::
            w.db.generations[w.published[i]].created < w.db.generations[w.published[j]].created)
  {
    hide Inv, Next, InvHeads, InvInventory, InvSnapshots, InvDaily, InvReducers, InvGcs, InvWritten,
         InvConfirmed, InvFiles, InvHeld, InvClock;
    Reachable(actions);
    PartsOf(Execute(Initial, actions));
  }

  /** Over all races and crashes, the daily reducers together apply the published
      generations in publication order, each exactly once, none skipped; a generation is
      still protected as unread exactly while it has not been applied. */
  lemma DailyAppliesEachOnce(actions: seq<Action>)
    ensures var w := Execute(Initial, actions);
      && w.applied <= w.published
      && (forall i, j | 0 <= i < j < |w.applied| :: w.applied[i] != w.applied[j])
      && (forall g | g in w.db.generations :: Unread(w.db, g) <==> g !in w.applied)
  {
    hide Inv, Next, InvHeads, InvInventory, InvSnapshots, InvReducers, InvGcs, InvWritten,
         InvConfirmed, InvFiles, InvHeld, InvClock;
    var w := Execute(Initial, actions);
    Reachable(actions);
    PartsOf(w);
    LogOrdered(w.db.generations, w.db.clock, w.published);
    forall g | g in w.db.generations
      ensures Unread(w.db, g) <==> g !in w.applied
    {
      UnreadIsUnapplied(w.db, w.published, w.applied, g);
    }
  }

  lemma UnreadIsUnapplied(db: Db, published: seq<GenerationId>, applied: seq<GenerationId>, g: GenerationId)
    requires InvDaily(db, published, applied) && InvLog(db.generations, published)
    requires Ordered(db.generations, published) && g in db.generations
    ensures Unread(db, g) <==> g !in applied
  {
    hide After, CheckpointAt;
    var i :| 0 <= i < |published| && published[i] == g;
    AfterByPosition(db.generations, published, |applied|, i);
    assert i < |applied| ==> applied[i] == g;
    if g in applied {
      var j :| 0 <= j < |applied| && applied[j] == g;
      assert published[j] == g;
      assert i == j;
    }
  }
}
