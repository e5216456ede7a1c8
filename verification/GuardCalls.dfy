/** The guard as its callers run it: retry loops that sleep between attempts, with anything the
    other callers do happening during the sleeps, and a clean-up that releases whatever was
    taken.  Every call is a run of the lock protocol of `Guard`. */
module GuardCalls {
  import opened ExportTypes
  import opened Guard

  lemma RunStep(s: Locks, trace: seq<Action>, a: Action)
    ensures Executed(s, trace + [a]) == Step(Executed(s, trace), a)
  {
    hide Step;
    assert (trace + [a])[..|trace|] == trace;
  }

  predicate ByOthers(actions: seq<Action>, c: Caller) {
    forall i | 0 <= i < |actions| :: actions[i].c != c
  }

  class LockFiles {
    var slots: map<nat, Caller>
    var turnstile: Option<Caller>
    var shared: set<Caller>
    var exclusive: Option<Caller>
    var phases: map<Caller, Phase>

    function State(): Locks
      reads this
    {
      Locks(slots, turnstile, shared, exclusive, phases)
    }

    constructor ()
      ensures State() == Free
    {
      slots, turnstile, shared, exclusive, phases := map[], None, {}, None, map[];
    }

    /** One system call on the lock files. */
    method Attempt(a: Action, ghost start: Locks, ghost before: seq<Action>) returns (ghost trace: seq<Action>)
      requires State() == Executed(start, before)
      modifies this
      ensures State() == Step(old(State()), a) && trace == before + [a] && State() == Executed(start, trace)
    {
      hide Step;
      var next := Step(State(), a);
      slots, turnstile, shared := next.slots, next.turnstile, next.shared;
      exclusive, phases := next.exclusive, next.phases;
      trace := before + [a];
      RunStep(start, before, a);
    }

    /** What the others do while `c` sleeps. */
    method Sleep(c: Caller, others: seq<Action>, ghost start: Locks, ghost before: seq<Action>)
      returns (ghost trace: seq<Action>)
      requires State() == Executed(start, before) && ByOthers(others, c)
      modifies this
      ensures State() == Executed(start, trace) && PhaseOf(State(), c) == PhaseOf(old(State()), c)
      ensures trace == before + others
    {
      trace := before;
      var i := 0;
      while i < |others|
        invariant 0 <= i <= |others| && trace == before + others[..i]
        invariant State() == Executed(start, trace) && PhaseOf(State(), c) == PhaseOf(old(State()), c)
      {
        OthersStay(State(), others[i]);
        assert before + others[..i] + [others[i]] == before + others[..i + 1];
        trace := Attempt(others[i], start, trace);
        i := i + 1;
      }
      assert others[..|others|] == others;
    }

    /** One round of attempts from where `c` stands: both slots in turn, or the one lock next. */
    method TryNext(c: Caller, ghost start: Locks, ghost before: seq<Action>) returns (ghost trace: seq<Action>)
      requires State() == Executed(start, before)
      requires Waiting(PhaseOf(State(), c))
      modifies this
      ensures State() == Executed(start, trace)
      ensures PhaseOf(State(), c) == PhaseOf(old(State()), c) || PhaseOf(State(), c) == After(old(State()), c)
      ensures PhaseOf(State(), c) == PhaseOf(old(State()), c) ==> State() == old(State()) && InTheWay(State(), c)
    {
      trace := before;
      if PhaseOf(State(), c).WantsSlot? {
        var ordinal := 0;
        while ordinal < SLOTS && PhaseOf(State(), c).WantsSlot?
          invariant 0 <= ordinal <= SLOTS && State() == Executed(start, trace)
          invariant PhaseOf(State(), c).WantsSlot? ==>
                      State() == old(State()) && forall i | 0 <= i < ordinal :: i in old(slots)
          invariant !PhaseOf(State(), c).WantsSlot? ==> PhaseOf(State(), c) == After(old(State()), c)
        {
          trace := Attempt(TrySlot(c, ordinal), start, trace);
          ordinal := ordinal + 1;
        }
      } else if PhaseOf(State(), c).ReaderAtTurnstile? || PhaseOf(State(), c).WriterAtTurnstile? {
        trace := Attempt(TryTurnstile(c), start, trace);
      } else {
        trace := Attempt(TryLock(c), start, trace);
      }
    }

    /** `guard`: the waits share one deadline, here the number of sleeps that fit before it. */
    method Enter(c: Caller, reading: bool, sleeps: seq<seq<Action>>) returns (entered: bool, ghost trace: seq<Action>)
      requires PhaseOf(State(), c).Idle?
      requires forall i | 0 <= i < |sleeps| :: ByOthers(sleeps[i], c)
      modifies this
      ensures State() == Executed(old(State()), trace)
      ensures entered && reading ==> PhaseOf(State(), c).Reading?
      ensures entered && !reading ==> PhaseOf(State(), c).Writing?
      ensures !entered ==> PhaseOf(State(), c).Idle? && c !in shared && exclusive != Some(c)
                           && turnstile != Some(c) && forall i | i in slots :: slots[i] != c
      ensures !entered ==>
                trace != [] && InTheWay(Executed(old(State()), trace[..|trace| - 1]), c)
      ensures Consistent(old(State())) ==> Consistent(State()) && Excludes(State())
    {
      hide Consistent, Excludes;
      ghost var start := old(State());
      trace := Attempt(if reading then StartReading(c) else StartWriting(c), start, []);
      var next := 0;
      while Waiting(PhaseOf(State(), c))
        invariant 0 <= next <= |sleeps| && State() == Executed(start, trace)
        invariant if reading then OnReaderPath(PhaseOf(State(), c)) else OnWriterPath(PhaseOf(State(), c))
        decreases Remaining(PhaseOf(State(), c)), |sleeps| - next
      {
        var phase := PhaseOf(State(), c);
        trace := TryNext(c, start, trace);
        if PhaseOf(State(), c) == phase {
          if next == |sleeps| {
            trace := Attempt(GiveUp(c), start, trace);
            CallIsSafe(start, State(), trace);
            return false, trace;
          }
          trace := Sleep(c, sleeps[next], start, trace);
          next := next + 1;
        }
      }
      if reading {
        trace := Attempt(PassTurnstile(c), start, trace);
      }
      CallIsSafe(start, State(), trace);
      entered := true;
    }

    /** Leaving the guarded section, normally or by an exception. */
    method Exit(c: Caller, ghost start: Locks, ghost before: seq<Action>) returns (ghost trace: seq<Action>)
      requires State() == Executed(start, before)
      requires PhaseOf(State(), c).Reading? || PhaseOf(State(), c).Writing?
      modifies this
      ensures State() == Executed(start, trace) && trace == before + [Unlock(c), Leave(c)]
      ensures PhaseOf(State(), c).Idle?
    {
      trace := Attempt(Unlock(c), start, before);
      trace := Attempt(Leave(c), start, trace);
      assert before + [Unlock(c), Leave(c)] == before + [Unlock(c)] + [Leave(c)];
    }
  }

  predicate Waiting(p: Phase) {
    p.WantsSlot? || p.ReaderAtTurnstile? || p.ReaderAtLock? || p.WriterAtTurnstile? || p.WriterAtLock?
  }

  /** Why an attempt fails: both slots are taken, or the turnstile, or the lock is held exclusively,
      or, for a writer, by anybody. */
  ghost predicate InTheWay(s: Locks, c: Caller) {
    match PhaseOf(s, c)
    case WantsSlot => 0 in s.slots && 1 in s.slots
    case ReaderAtTurnstile(_) => s.turnstile != None
    case WriterAtTurnstile => s.turnstile != None
    case ReaderAtLock(_) => s.exclusive != None
    case WriterAtLock => s.exclusive != None || s.shared != {}
    case _ => false
  }

  predicate OnReaderPath(p: Phase) {
    p.WantsSlot? || p.ReaderAtTurnstile? || p.ReaderAtLock? || p.ReaderEntering?
  }

  predicate OnWriterPath(p: Phase) {
    p.WriterAtTurnstile? || p.WriterAtLock? || p.Writing?
  }

  /** Where a successful attempt takes the call; a reader gets the first free slot. */
  function After(s: Locks, c: Caller): Phase {
    match PhaseOf(s, c)
    case WantsSlot => ReaderAtTurnstile(if 0 !in s.slots then 0 else 1)
    case ReaderAtTurnstile(i) => ReaderAtLock(i)
    case ReaderAtLock(i) => ReaderEntering(i)
    case WriterAtTurnstile => WriterAtLock
    case WriterAtLock => Writing
    case p => p
  }

  /** Whatever one caller and the others do, files that were consistent stay so, and the guard
      keeps excluding what it must. */
  lemma CallIsSafe(start: Locks, files: Locks, trace: seq<Action>)
    requires files == Executed(start, trace)
    ensures Consistent(start) ==> Consistent(files) && Excludes(files)
  {
    hide Consistent, Excludes;
    if Consistent(start) {
      RunKeepsConsistent(start, trace);
      ConsistentExcludes(files);
    }
  }
}
