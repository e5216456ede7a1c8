/** A client that follows `next_since` through the forecast export: each poll freezes the
    heads and the publication watermark in one database snapshot, sends the scopes published
    after the client's watermark, and hands the new watermark back.  A page served from an older
    manifest is a poll of the instant at which that manifest was frozen. */
module NextSince {
  import opened ExportTypes
  import opened Pipeline
  import opened PipelineInvariant
  import opened PipelinePromotion
  import opened PipelineFiles
  import opened PipelineSteps
  import opened HeadChain

  /** What the client has been told, and the watermark of its next request. */
  datatype Client = Client(known: map<Namespace, GenerationId>, since: Option<Time>)

  predicate Sent(db: Db, since: Option<Time>, ns: Namespace) {
    && ns in db.heads && db.heads[ns].generation in db.generations
    && (since.None? || db.generations[db.heads[ns].generation].created > since.value)
  }

  /** `roster` is what the freeze selects: the scopes of the locations that are enabled then. */
  function Page(db: Db, roster: set<Namespace>, since: Option<Time>): map<Namespace, GenerationId> {
    map ns | ns in db.heads && ns in roster && Sent(db, since, ns) :: db.heads[ns].generation
  }

  /** Without a watermark row the freeze is refused, as is a watermark not yet issued. */
  function Poll(c: Client, db: Db, roster: set<Namespace>): Client {
    if db.clock.None? || (c.since.Some? && c.since.value > db.clock.value) then c
    else Client(c.known + Page(db, roster, c.since), db.clock)
  }

  /** What happens up to a poll, and the roster of that poll. */
  datatype Turn = Turn(actions: seq<Action>, roster: set<Namespace>)

  /** The client polls after every part of a run. */
  function PollAll(w: World, turns: seq<Turn>, c: Client): (World, Client) {
    if turns == [] then (w, c)
    else
      var (u, d) := PollAll(w, turns[..|turns| - 1], c);
      var last := turns[|turns| - 1];
      var v := Execute(u, last.actions);
      (v, Poll(d, v.db, last.roster))
  }

  /** The current head of `ns` is the one that the previous poll saw. */
  predicate SameHead(u: Db, v: Db, ns: Namespace) {
    ns in v.heads && ns in u.heads && u.heads[ns].generation == v.heads[ns].generation
  }

  /** `ns` was in the roster of the first poll that saw its current head. */
  predicate InTime(w: World, turns: seq<Turn>, c: Client, ns: Namespace) {
    turns != [] &&
    var u := PollAll(w, turns[..|turns| - 1], c).0;
    var last := turns[|turns| - 1];
    if SameHead(u.db, Execute(u, last.actions).db, ns) then InTime(w, turns[..|turns| - 1], c, ns)
    else ns in last.roster
  }

  predicate Knows(c: Client, db: Db, ns: Namespace)
    requires ns in db.heads
  {
    ns in c.known && c.known[ns] == db.heads[ns].generation
  }

  lemma HeadCreated(w: World, ns: Namespace)
    requires InvHeads(w.db.generations, w.db.heads, w.published) && ns in w.db.heads
    requires InvClock(w.db.generations, w.db.clock)
    ensures w.db.heads[ns].generation in w.db.generations && w.db.clock.Some?
    ensures w.db.generations[w.db.heads[ns].generation].created <= w.db.clock.value
  {
    hide InvHeads;
    HeadGeneration(w.db.generations, w.db.heads, w.published, ns);
  }

  /** A poll sends a scope exactly when its head is not the one of the client's watermark. */
  lemma SentExactlyTheChanges(u: World, v: World, ns: Namespace)
    requires Inv(u) && Inv(v) && Later(u, v) && u.db.clock.Some? && ns in v.db.heads
    ensures Sent(v.db, u.db.clock, ns) <==>
              !(ns in u.db.heads && u.db.heads[ns].generation == v.db.heads[ns].generation)
  {
    hide Inv, Later, InvHeads, InvLog, InvInventory, InvSnapshots, InvDaily, InvReducers, InvGcs,
         InvWritten, InvConfirmed, InvFiles, InvHeld, InvClock, HeadsLater, AttemptsLater, OwnersLater,
         RunsLater;
    PartsOf(u);
    PartsOf(v);
    LaterParts(u, v);
    HeadCreated(v, ns);
    var g := v.db.heads[ns].generation;
    if ns in u.db.heads && u.db.heads[ns].generation == g {
      HeadCreated(u, ns);
    } else if g in u.db.generations {
      OldHeadStays(u, v, ns);
    }
  }

  /** A head that was already published at `u` was already the head at `u`. */
  lemma OldHeadStays(u: World, v: World, ns: Namespace)
    requires Inv(u) && Inv(v) && Later(u, v) && ns in v.db.heads
    requires v.db.heads[ns].generation in u.db.generations
    ensures ns in u.db.heads && u.db.heads[ns].generation == v.db.heads[ns].generation
  {
    hide Inv, Later, InvInventory, InvSnapshots, InvDaily, InvReducers, InvGcs, InvWritten,
         InvConfirmed, InvFiles, InvHeld, InvClock, HeadsLater, AttemptsLater, OwnersLater, RunsLater,
         Linked, InvHeads, NewerThanClock, ClockLater, Lineage, NoRepeats;
    PartsOf(u);
    PartsOf(v);
    LaterParts(u, v);
    var g := v.db.heads[ns].generation;
    ChainFacts(u.db, u.published, ns);
    ChainFacts(v.db, v.published, ns);
    HeadGeneration(v.db.generations, v.db.heads, v.published, ns);
    LineagePrefix(u.db.generations, v.db.generations, u.published, v.published, ns);
    LogDistinct(v, ns);
    var was := Lineage(u.db.generations, u.published, ns);
    var now := Lineage(v.db.generations, v.published, ns);
    assert g in was;
    PrefixEnds(was, now, g);
  }

  lemma PrefixEnds(was: seq<GenerationId>, now: seq<GenerationId>, g: GenerationId)
    requires was <= now && NoRepeats(now) && g in was && now[|now| - 1] == g
    ensures was == now
  {
    var i :| 0 <= i < |was| && was[i] == g;
    assert now[i] == g;
  }

  lemma {:induction false} LineagePrefix(was: map<GenerationId, Generation>, now: map<GenerationId, Generation>,
                                         before: seq<GenerationId>, after: seq<GenerationId>, ns: Namespace)
    requires before <= after && KeepsRows(was, now)
    requires forall g | g in before :: g in was
    ensures Lineage(was, before, ns) <= Lineage(now, after, ns)
  {
    if |before| == |after| {
      assert before == after;
      LineageFrame(was, now, before, ns);
    } else {
      assert before <= after[..|after| - 1];
      LineagePrefix(was, now, before, after[..|after| - 1], ns);
    }
  }

  lemma {:induction false} LineageFrame(was: map<GenerationId, Generation>, now: map<GenerationId, Generation>,
                                        published: seq<GenerationId>, ns: Namespace)
    requires KeepsRows(was, now) && forall g | g in published :: g in was
    ensures Lineage(was, published, ns) == Lineage(now, published, ns)
  {
    if published != [] {
      LineageFrame(was, now, published[..|published| - 1], ns);
    }
  }

  predicate NoRepeats(line: seq<GenerationId>) {
    forall i, j | 0 <= i < j < |line| :: line[i] != line[j]
  }

  lemma {:induction false} LineageNoRepeats(generations: map<GenerationId, Generation>,
                                            published: seq<GenerationId>, ns: Namespace)
    requires NoRepeats(published)
    ensures NoRepeats(Lineage(generations, published, ns))
  {
    if published != [] {
      var front := published[..|published| - 1];
      LineageNoRepeats(generations, front, ns);
      LineageOf(generations, front, ns);
      assert published[|published| - 1] !in front;
    }
  }

  lemma LogDistinct(v: World, ns: Namespace)
    requires Inv(v)
    ensures NoRepeats(Lineage(v.db.generations, v.published, ns))
  {
    hide Inv, InvInventory, InvSnapshots, InvDaily, InvReducers, InvGcs, InvWritten, InvConfirmed,
         InvFiles, InvHeld, InvClock, InvHeads, Lineage;
    PartsOf(v);
    LineageNoRepeats(v.db.generations, v.published, ns);
  }

  /** What is known are generations that exist. */
  ghost predicate Past(c: Client, db: Db) {
    c.since == db.clock && forall ns | ns in c.known :: c.known[ns] in db.generations
  }

  lemma OnePoll(u: World, v: World, c: Client, roster: set<Namespace>, ns: Namespace)
    requires Inv(u) && Inv(v) && Later(u, v) && Past(c, u.db) && ns in v.db.heads
    ensures Past(Poll(c, v.db, roster), v.db)
    ensures Knows(Poll(c, v.db, roster), v.db, ns)
       <==> if SameHead(u.db, v.db, ns) then Knows(c, u.db, ns) else ns in roster
  {
    hide Inv, Later, InvHeads, InvLog, InvInventory, InvSnapshots, InvDaily, InvReducers, InvGcs,
         InvWritten, InvConfirmed, InvFiles, InvHeld, InvClock, AttemptsLater, OwnersLater, RunsLater,
         HeadLater, NewerThanClock, Sent;
    PartsOf(u);
    PartsOf(v);
    LaterParts(u, v);
    HeadCreated(v, ns);
    PageIs(v.db, roster, c.since);
    if u.db.clock.Some? {
      SentExactlyTheChanges(u, v, ns);
    } else {
      SentFirst(v.db, ns);
      NoClockNoHeads(u, ns);
    }
    if !SameHead(u.db, v.db, ns) && v.db.heads[ns].generation in u.db.generations {
      OldHeadStays(u, v, ns);
    }
  }

  lemma PageIs(db: Db, roster: set<Namespace>, since: Option<Time>)
    ensures forall ns | ns in Page(db, roster, since) :: Page(db, roster, since)[ns] in db.generations
  {
  }

  lemma NoClockNoHeads(u: World, ns: Namespace)
    requires Inv(u) && u.db.clock.None?
    ensures ns !in u.db.heads
  {
    hide Inv, InvHeads, InvClock;
    PartsOf(u);
    if ns in u.db.heads {
      HeadCreated(u, ns);
    }
  }

  lemma PollKeepsPast(u: World, v: World, c: Client, roster: set<Namespace>)
    requires Inv(u) && Inv(v) && Later(u, v) && Past(c, u.db)
    ensures Past(Poll(c, v.db, roster), v.db)
  {
    hide Inv, Later, HeadsLater, AttemptsLater, OwnersLater, RunsLater, NewerThanClock;
    LaterParts(u, v);
    PageIs(v.db, roster, c.since);
  }

  lemma SentFirst(db: Db, ns: Namespace)
    requires ns in db.heads && db.heads[ns].generation in db.generations
    ensures Sent(db, None, ns)
  {
  }

  /** A client that starts without a watermark and follows `next_since` knows, after every poll,
      the current head of exactly those scopes that were in the roster of the first poll after
      that head was published: nothing newly published in the roster is ever missed, and a scope
      that enters the roster later is sent from its next publication on. */
  lemma {:induction false} FollowerKnowsExactly(turns: seq<Turn>)
    ensures var (w, c) := PollAll(Initial, turns, Client(map[], None));
      Inv(w) && Past(c, w.db)
      && forall ns | ns in w.db.heads :: Knows(c, w.db, ns) <==> InTime(Initial, turns, Client(map[], None), ns)
  {
    hide Inv, Execute, Poll, Later, Knows, Past;
    var none := Client(map[], None);
    if turns == [] {
      InitialInv();
      NothingKnown();
    } else {
      var front, last := turns[..|turns| - 1], turns[|turns| - 1];
      FollowerKnowsExactly(front);
      var (u, d) := PollAll(Initial, front, none);
      var v := Execute(u, last.actions);
      RunKeeps(u, last.actions);
      PollKeepsPast(u, v, d, last.roster);
      forall ns | ns in v.db.heads
        ensures Knows(Poll(d, v.db, last.roster), v.db, ns) <==> InTime(Initial, turns, none, ns)
      {
        OnePoll(u, v, d, last.roster, ns);
      }
    }
  }

  lemma NothingKnown()
    ensures Past(Client(map[], None), Initial.db) && Initial.db.heads == map[]
  {
  }

  lemma {:induction false} AlwaysInTime(w: World, turns: seq<Turn>, c: Client, ns: Namespace)
    requires turns != [] && forall i | 0 <= i < |turns| :: ns in turns[i].roster
    requires ns !in w.db.heads
    requires ns in PollAll(w, turns, c).0.db.heads
    ensures InTime(w, turns, c, ns)
  {
    hide Execute, Poll;
    var front, last := turns[..|turns| - 1], turns[|turns| - 1];
    var u := PollAll(w, front, c).0;
    if SameHead(u.db, Execute(u, last.actions).db, ns) {
      assert front != [];
      AlwaysInTime(w, front, c, ns);
    }
  }

  /** A scope that is in the roster of every poll is never missed, whatever is published between
      any two polls. */
  lemma FollowerMissesNothing(turns: seq<Turn>, ns: Namespace)
    requires turns != [] && forall i | 0 <= i < |turns| :: ns in turns[i].roster
    ensures var (w, c) := PollAll(Initial, turns, Client(map[], None));
      ns in w.db.heads ==> Knows(c, w.db, ns)
  {
    hide Inv, Execute, Poll, Knows, Past, InTime;
    FollowerKnowsExactly(turns);
    var w := PollAll(Initial, turns, Client(map[], None)).0;
    if ns in w.db.heads {
      AlwaysInTime(Initial, turns, Client(map[], None), ns);
    }
  }
}
