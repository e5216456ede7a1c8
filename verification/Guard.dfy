/** The artifact guard: two reader slots, a turnstile and one shared/exclusive lock, all of them
    advisory file locks.  A reader takes a slot, passes the turnstile, locks shared and lets go
    of the turnstile; a writer keeps the turnstile until it is done.  Each step is one attempt
    on one lock or one release; a caller can give up or die anywhere. */
module Guard {
  import opened ExportTypes

  /** One call of the guard; it has descriptors of its own. */
  type Caller = nat

  const SLOTS: nat := 2

  datatype Phase =
    | Idle
    | WantsSlot
    | ReaderAtTurnstile(slot: nat)
    | ReaderAtLock(slot: nat)
    | ReaderEntering(slot: nat)
    | Reading(slot: nat)
    | ReaderLeaving(slot: nat)
    | WriterAtTurnstile
    | WriterAtLock
    | Writing
    | WriterLeaving

  /** Who holds which lock file, as the operating system sees it, and how far each call is. */
  datatype Locks = Locks(
    slots: map<nat, Caller>, turnstile: Option<Caller>, shared: set<Caller>, exclusive: Option<Caller>,
    phases: map<Caller, Phase>)

  const Free := Locks(map[], None, {}, None, map[])

  function PhaseOf(s: Locks, c: Caller): Phase {
    if c in s.phases then s.phases[c] else Idle
  }

  datatype Action =
    | StartReading(c: Caller)
    | StartWriting(c: Caller)
    | TrySlot(c: Caller, ordinal: nat)
    | TryTurnstile(c: Caller)
    | TryLock(c: Caller)
    | PassTurnstile(c: Caller)
    | Unlock(c: Caller)
    | Leave(c: Caller)
    | GiveUp(c: Caller)

  function At(s: Locks, c: Caller, phase: Phase): Locks {
    s.(phases := s.phases[c := phase])
  }

  /** Closing all descriptors of a call: a timeout, an exception or a crash. */
  function Closed(s: Locks, c: Caller): Locks {
    Locks(map i | i in s.slots && s.slots[i] != c :: s.slots[i],
          if s.turnstile == Some(c) then None else s.turnstile,
          s.shared - {c},
          if s.exclusive == Some(c) then None else s.exclusive,
          s.phases[c := Idle])
  }

  /** A lock attempt that meets a conflicting holder leaves everything as it is. */
  function Step(s: Locks, a: Action): Locks {
    match a
    case StartReading(c) => if PhaseOf(s, c).Idle? then At(s, c, WantsSlot) else s
    case StartWriting(c) => if PhaseOf(s, c).Idle? then At(s, c, WriterAtTurnstile) else s
    case TrySlot(c, i) =>
      if PhaseOf(s, c).WantsSlot? && i < SLOTS && i !in s.slots
      then At(s, c, ReaderAtTurnstile(i)).(slots := s.slots[i := c]) else s
    case TryTurnstile(c) =>
      if s.turnstile.Some? then s
      else if PhaseOf(s, c).ReaderAtTurnstile?
      then At(s, c, ReaderAtLock(PhaseOf(s, c).slot)).(turnstile := Some(c))
      else if PhaseOf(s, c).WriterAtTurnstile?
      then At(s, c, WriterAtLock).(turnstile := Some(c))
      else s
    case TryLock(c) =>
      if PhaseOf(s, c).ReaderAtLock? && s.exclusive.None?
      then At(s, c, ReaderEntering(PhaseOf(s, c).slot)).(shared := s.shared + {c})
      else if PhaseOf(s, c).WriterAtLock? && s.exclusive.None? && s.shared == {}
      then At(s, c, Writing).(exclusive := Some(c))
      else s
    case PassTurnstile(c) =>
      if PhaseOf(s, c).ReaderEntering?
      then At(s, c, Reading(PhaseOf(s, c).slot)).(turnstile := None) else s
    case Unlock(c) =>
      if PhaseOf(s, c).Reading?
      then At(s, c, ReaderLeaving(PhaseOf(s, c).slot)).(shared := s.shared - {c})
      else if PhaseOf(s, c).Writing? then At(s, c, WriterLeaving).(exclusive := None)
      else s
    case Leave(c) =>
      if PhaseOf(s, c).ReaderLeaving? || PhaseOf(s, c).WriterLeaving? then Closed(s, c) else s
    case GiveUp(c) => Closed(s, c)
  }

  function Executed(s: Locks, actions: seq<Action>): Locks {
    if actions == [] then s
    else Step(Executed(s, actions[..|actions| - 1]), actions[|actions| - 1])
  }

  // ---- the invariant --------------------------------------------------------

  predicate HasSlot(p: Phase) {
    p.ReaderAtTurnstile? || p.ReaderAtLock? || p.ReaderEntering? || p.Reading? || p.ReaderLeaving?
  }

  predicate HasTurnstile(p: Phase) {
    p.ReaderAtLock? || p.ReaderEntering? || p.WriterAtLock? || p.Writing? || p.WriterLeaving?
  }

  predicate HasShared(p: Phase) {
    p.ReaderEntering? || p.Reading?
  }

  ghost predicate SlotsMatch(s: Locks) {
    && (forall i: nat, c: Caller ::
          i in s.slots && s.slots[i] == c <==> HasSlot(PhaseOf(s, c)) && PhaseOf(s, c).slot == i)
    && (forall i | i in s.slots :: i < SLOTS)
  }

  ghost predicate TurnstileMatches(s: Locks) {
    forall c: Caller :: s.turnstile == Some(c) <==> HasTurnstile(PhaseOf(s, c))
  }

  ghost predicate LockMatches(s: Locks) {
    && (forall c: Caller :: c in s.shared <==> HasShared(PhaseOf(s, c)))
    && (forall c: Caller :: s.exclusive == Some(c) <==> PhaseOf(s, c).Writing?)
    && (s.exclusive.Some? ==> s.shared == {})
  }

  /** The locks held are exactly those that the phases imply. */
  ghost predicate Consistent(s: Locks) {
    SlotsMatch(s) && TurnstileMatches(s) && LockMatches(s)
  }

  lemma OthersStay(s: Locks, a: Action)
    ensures forall c: Caller | c != a.c :: PhaseOf(Step(s, a), c) == PhaseOf(s, c)
  {
  }

  lemma OwnSlots(s: Locks, a: Action, i: nat)
    requires SlotsMatch(s)
    ensures var t := Step(s, a);
            i in t.slots && t.slots[i] == a.c <==> HasSlot(PhaseOf(t, a.c)) && PhaseOf(t, a.c).slot == i
  {
    assert i in s.slots && s.slots[i] == a.c <==> HasSlot(PhaseOf(s, a.c)) && PhaseOf(s, a.c).slot == i;
  }

  lemma OtherSlots(s: Locks, a: Action, i: nat, c: Caller)
    requires SlotsMatch(s) && c != a.c
    ensures var t := Step(s, a);
            i in t.slots && t.slots[i] == c <==> i in s.slots && s.slots[i] == c
  {
  }

  lemma SlotsInRange(s: Locks, a: Action)
    requires SlotsMatch(s)
    ensures forall i | i in Step(s, a).slots :: i < SLOTS
  {
  }

  lemma StepSlots(s: Locks, a: Action)
    requires SlotsMatch(s)
    ensures SlotsMatch(Step(s, a))
  {
    var t := Step(s, a);
    OthersStay(s, a);
    SlotsInRange(s, a);
    hide Step, PhaseOf;
    forall i: nat, c: Caller
      ensures i in t.slots && t.slots[i] == c <==> HasSlot(PhaseOf(t, c)) && PhaseOf(t, c).slot == i
    {
      if c == a.c {
        OwnSlots(s, a, i);
      } else {
        OtherSlots(s, a, i, c);
        assert i in s.slots && s.slots[i] == c <==> HasSlot(PhaseOf(s, c)) && PhaseOf(s, c).slot == i;
      }
    }
  }

  lemma StepTurnstile(s: Locks, a: Action)
    requires TurnstileMatches(s)
    ensures TurnstileMatches(Step(s, a))
  {
    OthersStay(s, a);
    assert HasTurnstile(PhaseOf(s, a.c)) <==> s.turnstile == Some(a.c);
  }

  lemma StepLock(s: Locks, a: Action)
    requires LockMatches(s)
    ensures LockMatches(Step(s, a))
  {
    OthersStay(s, a);
    assert HasShared(PhaseOf(s, a.c)) <==> a.c in s.shared;
    assert PhaseOf(s, a.c).Writing? <==> s.exclusive == Some(a.c);
  }

  /** A step keeps the lock files and the phases of all calls together. */
  lemma StepConsistent(s: Locks, a: Action)
    requires Consistent(s)
    ensures Consistent(Step(s, a))
  {
    hide Step, SlotsMatch, TurnstileMatches, LockMatches;
    StepSlots(s, a);
    StepTurnstile(s, a);
    StepLock(s, a);
  }

  lemma {:induction false} RunKeepsConsistent(s: Locks, actions: seq<Action>)
    requires Consistent(s)
    ensures Consistent(Executed(s, actions))
  {
    hide Step, Consistent;
    if actions != [] {
      RunKeepsConsistent(s, actions[..|actions| - 1]);
      StepConsistent(Executed(s, actions[..|actions| - 1]), actions[|actions| - 1]);
    }
  }

  lemma RunConsistent(actions: seq<Action>)
    ensures Consistent(Executed(Free, actions))
  {
    hide Step, Consistent;
    FreeConsistent();
    RunKeepsConsistent(Free, actions);
  }

  lemma FreeConsistent()
    ensures Consistent(Free)
  {
  }

  lemma ExclusiveHasTurnstile(s: Locks)
    requires Consistent(s) && s.exclusive.Some?
    ensures s.turnstile == s.exclusive && PhaseOf(s, s.exclusive.value).Writing?
  {
    assert HasTurnstile(PhaseOf(s, s.exclusive.value));
  }

  // ---- safety ---------------------------------------------------------------

  lemma {:induction false} AtMostSlots(s: Locks, callers: set<Caller>, n: nat)
    requires forall c | c in callers :: exists i :: i < n && i in s.slots && s.slots[i] == c
    ensures |callers| <= n
  {
    if n == 0 {
      if c :| c in callers { assert false; }
    } else if n - 1 in s.slots && s.slots[n - 1] in callers {
      var rest := callers - {s.slots[n - 1]};
      forall c | c in rest ensures exists i :: i < n - 1 && i in s.slots && s.slots[i] == c {
        var i :| i < n && i in s.slots && s.slots[i] == c;
        assert i < n - 1;
      }
      AtMostSlots(s, rest, n - 1);
    } else {
      AtMostSlots(s, callers, n - 1);
    }
  }

  /** At most two readers hold the lock, no reader beside a writer, no two writers, and whoever
      holds it exclusively holds the turnstile. */
  ghost predicate Excludes(s: Locks) {
    && |s.shared| <= SLOTS
    && (s.exclusive.Some? ==> s.shared == {} && s.turnstile == s.exclusive)
    && (forall c: Caller, d: Caller :: PhaseOf(s, c).Writing? && PhaseOf(s, d).Writing? ==> c == d)
    && (forall c: Caller, d: Caller :: !(PhaseOf(s, c).Writing? && HasShared(PhaseOf(s, d))))
  }

  lemma ConsistentExcludes(s: Locks)
    requires Consistent(s)
    ensures Excludes(s)
  {
    forall c | c in s.shared ensures exists i :: i < SLOTS && i in s.slots && s.slots[i] == c {
      assert s.slots[PhaseOf(s, c).slot] == c;
    }
    AtMostSlots(s, s.shared, SLOTS);
    forall c: Caller | PhaseOf(s, c).Writing?
      ensures s.turnstile == Some(c) && s.exclusive == Some(c)
    {
    }
  }

  /** In every reachable state the guard excludes what it must. */
  lemma MutualExclusion(actions: seq<Action>)
    ensures Excludes(Executed(Free, actions))
  {
    hide Step, Consistent, Excludes;
    RunConsistent(actions);
    ConsistentExcludes(Executed(Free, actions));
  }

  /** A reader that has the turnstile is never refused the lock. */
  lemma ReaderPastTurnstileNeverBlocks(actions: seq<Action>, c: Caller)
    requires PhaseOf(Executed(Free, actions), c).ReaderAtLock?
    ensures PhaseOf(Step(Executed(Free, actions), TryLock(c)), c).ReaderEntering?
  {
    var s := Executed(Free, actions);
    RunConsistent(actions);
    assert s.turnstile == Some(c);
    if s.exclusive.Some? { ExclusiveHasTurnstile(s); }
  }

  /** From the moment a writer has the turnstile until it lets go, no reader gets in: the set
      of lock holders only shrinks, and no step gives a reader the lock. */
  lemma NoReaderEntersPastWriter(actions: seq<Action>, w: Caller, a: Action)
    requires PhaseOf(Executed(Free, actions), w).WriterAtLock? || PhaseOf(Executed(Free, actions), w).Writing?
    ensures var s := Executed(Free, actions);
            Step(s, a).shared <= s.shared
  {
    var s := Executed(Free, actions);
    RunConsistent(actions);
    assert s.turnstile == Some(w);
    if a.TryLock? && PhaseOf(s, a.c).ReaderAtLock? {
      assert HasTurnstile(PhaseOf(s, a.c));
    }
  }

  lemma WriterAlone(s: Locks, w: Caller)
    requires Consistent(s) && PhaseOf(s, w).WriterAtLock?
    ensures s.turnstile == Some(w) && s.exclusive.None?
    ensures forall c | c in s.shared :: PhaseOf(s, c).Reading?
  {
    assert HasTurnstile(PhaseOf(s, w));
    if s.exclusive.Some? { ExclusiveHasTurnstile(s); }
    forall c | c in s.shared ensures PhaseOf(s, c).Reading? {
      assert HasShared(PhaseOf(s, c));
      assert PhaseOf(s, c).ReaderEntering? ==> HasTurnstile(PhaseOf(s, c));
    }
  }

  lemma UnlockLeaves(s: Locks, c: Caller)
    requires PhaseOf(s, c).Reading? && c in s.shared
    ensures |Step(s, Unlock(c)).shared| == |s.shared| - 1
  {
  }

  lemma WriterTries(s: Locks, w: Caller)
    requires PhaseOf(s, w).WriterAtLock? && s.exclusive.None?
    ensures PhaseOf(Step(s, TryLock(w)), w).Writing? <==> s.shared == {}
  {
  }

  /** So a writer waits for at most the two readers it found: once they have unlocked, its next
      attempt succeeds. */
  lemma WriterWaitsForReadersOnly(actions: seq<Action>, w: Caller)
    requires PhaseOf(Executed(Free, actions), w).WriterAtLock?
    ensures var s := Executed(Free, actions);
      && |s.shared| <= SLOTS
      && (PhaseOf(Step(s, TryLock(w)), w).Writing? <==> s.shared == {})
      && (forall c | c in s.shared :: PhaseOf(s, c).Reading? && |Step(s, Unlock(c)).shared| == |s.shared| - 1)
  {
    hide Step, Consistent, PhaseOf;
    var s := Executed(Free, actions);
    RunConsistent(actions);
    MutualExclusion(actions);
    WriterAlone(s, w);
    WriterTries(s, w);
    forall c | c in s.shared
      ensures PhaseOf(s, c).Reading? && |Step(s, Unlock(c)).shared| == |s.shared| - 1
    {
      UnlockLeaves(s, c);
    }
  }

  // ---- progress -------------------------------------------------------------

  /** Steps a call still has to take. */
  function Remaining(p: Phase): nat {
    match p
    case Idle => 0
    case WantsSlot => 6
    case ReaderAtTurnstile(_) => 5
    case ReaderAtLock(_) => 4
    case ReaderEntering(_) => 3
    case Reading(_) => 2
    case ReaderLeaving(_) => 1
    case WriterAtTurnstile => 4
    case WriterAtLock => 3
    case Writing => 2
    case WriterLeaving => 1
  }

  /** A step that a waiting or working call takes by itself, successfully. */
  predicate Progresses(s: Locks, a: Action) {
    && !a.GiveUp? && !a.StartReading? && !a.StartWriting?
    && Remaining(PhaseOf(Step(s, a), a.c)) < Remaining(PhaseOf(s, a.c))
  }

  /** No deadlock: while any call is under way, some call can take its next step. */
  lemma NoDeadlock(actions: seq<Action>, c: Caller) returns (a: Action)
    requires !PhaseOf(Executed(Free, actions), c).Idle?
    ensures Progresses(Executed(Free, actions), a)
  {
    var s := Executed(Free, actions);
    RunConsistent(actions);
    if s.turnstile.Some? {
      a := HolderMoves(s, s.turnstile.value);
    } else if r :| r in s.shared {
      assert HasShared(PhaseOf(s, r)) && !HasTurnstile(PhaseOf(s, r));
      a := Unlock(r);
    } else {
      a := WaiterMoves(s, c);
    }
  }

  lemma HolderMoves(s: Locks, t: Caller) returns (a: Action)
    requires Consistent(s) && s.turnstile == Some(t)
    ensures Progresses(s, a)
  {
    var phase := PhaseOf(s, t);
    if s.exclusive.Some? { ExclusiveHasTurnstile(s); }
    if phase.ReaderEntering? {
      a := PassTurnstile(t);
    } else if phase.Writing? {
      a := Unlock(t);
    } else if phase.WriterLeaving? {
      a := Leave(t);
    } else if r :| phase.WriterAtLock? && r in s.shared {
      assert r != t && s.turnstile != Some(r);
      a := Unlock(r);
    } else {
      a := TryLock(t);
    }
  }

  /** Without a turnstile holder and without readers, whoever waits can move, or whoever holds
      the slot it waits for can. */
  lemma WaiterMoves(s: Locks, c: Caller) returns (a: Action)
    requires Consistent(s) && s.turnstile.None? && s.shared == {} && !PhaseOf(s, c).Idle?
    ensures Progresses(s, a)
  {
    var phase := PhaseOf(s, c);
    assert !HasTurnstile(phase) && !HasShared(phase);
    if phase.ReaderAtTurnstile? || phase.WriterAtTurnstile? {
      a := TryTurnstile(c);
    } else if phase.ReaderLeaving? {
      a := Leave(c);
    } else if 0 !in s.slots {
      a := TrySlot(c, 0);
    } else {
      var h := s.slots[0];
      assert HasSlot(PhaseOf(s, h)) && h !in s.shared;
      assert !HasTurnstile(PhaseOf(s, h));
      a := if PhaseOf(s, h).ReaderAtTurnstile? then TryTurnstile(h) else Leave(h);
    }
  }

  // ---- refinement of a readers/writer lock -----------------------------------

  datatype RwLock = RwLock(readers: set<Caller>, writer: Option<Caller>)

  function Abstract(s: Locks): RwLock {
    RwLock(s.shared, s.exclusive)
  }

  /** One step of a lock that admits up to two readers or one writer, or no change. */
  ghost predicate RwNext(l: RwLock, m: RwLock) {
    || m == l
    || (exists c :: c !in l.readers && l.writer.None? && |l.readers| < SLOTS
                    && m == RwLock(l.readers + {c}, None))
    || (exists c :: c in l.readers && m == RwLock(l.readers - {c}, l.writer))
    || (exists c :: l == RwLock({}, None) && m == RwLock({}, Some(c)))
    || (exists c :: l.writer == Some(c) && m == RwLock(l.readers, None))
  }

  lemma LockGranted(s: Locks, c: Caller)
    requires Consistent(s) && |Step(s, TryLock(c)).shared| <= SLOTS
    ensures RwNext(Abstract(s), Abstract(Step(s, TryLock(c))))
  {
    var t := Step(s, TryLock(c));
    var l, m := Abstract(s), Abstract(t);
    if PhaseOf(s, c).ReaderAtLock? && s.exclusive.None? {
      assert c !in s.shared && t.shared == s.shared + {c};
      assert m == RwLock(l.readers + {c}, None);
    } else if m != l {
      assert l == RwLock({}, None) && m == RwLock({}, Some(c));
    }
  }

  lemma LockReleased(s: Locks, a: Action)
    requires Consistent(s) && !a.TryLock?
    ensures RwNext(Abstract(s), Abstract(Step(s, a)))
  {
    var t := Step(s, a);
    var l, m := Abstract(s), Abstract(t);
    assert t.shared == s.shared || t.shared == s.shared - {a.c};
    if a.c in s.shared {
      assert s.exclusive.None? && t.exclusive.None?;
      assert m == l || m == RwLock(l.readers - {a.c}, l.writer);
    } else {
      assert s.shared - {a.c} == s.shared;
      assert m == l || (s.exclusive == Some(a.c) && m == RwLock(l.readers, None));
    }
  }

  /** Whatever happens to slots and turnstile, the lock itself behaves as that lock. */
  lemma RefinesReadersWriterLock(actions: seq<Action>, a: Action)
    ensures RwNext(Abstract(Executed(Free, actions)), Abstract(Step(Executed(Free, actions), a)))
  {
    hide Step, Consistent, RwNext, Abstract;
    RunConsistent(actions);
    MutualExclusion(actions + [a]);
    assert (actions + [a])[..|actions|] == actions;
    if a.TryLock? {
      LockGranted(Executed(Free, actions), a.c);
    } else {
      LockReleased(Executed(Free, actions), a);
    }
  }
}
