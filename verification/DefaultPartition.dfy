/** The operator steps on a large DEFAULT partition, one committed transaction at a time: giving
    it a floor, extending the partitions, and removing what is past retention, while ingest goes
    on and any step can be the last one before a crash. */
module DefaultPartition {
  import opened ExportTypes
  import opened Partitions

  /** A fact; `validAt` is set for the short forecasts that are kept while they are valid. */
  datatype Fact = Fact(id: nat, known: Time, validAt: Option<Time>)

  datatype Floor = Floor(value: Time, validated: bool)

  datatype Removal = Removal(fact: Fact, cutoff: Time)

  /** What the operator that holds the maintenance lock does next. */
  datatype Phase =
    | Idle
    | Resetting(day: Day, end: Day)
    | Adding(day: Day, end: Day)
    | Validating(day: Day, end: Day)
    | Undoing
    | Extending(floor: Time, end: Day)
    | Swapping(cutoff: Time, floor: Time)
    | Dropping
    | Checking
    | Clearing
    | Rechecking
    | Deleting(cutoff: Time)

  /** `fkValid`: the projection's foreign key is validated.  `promised` is the last day that the
      run which validated the floor had to provide for; `removed` records what was taken out of
      the fact table and the cutoff of the run that did it. */
  datatype State = State(
    dflt: set<Fact>, floor: Option<Floor>, parts: Catalog, dated: set<Fact>,
    detached: Option<set<Fact>>, pointers: set<Fact>, fkValid: bool,
    phase: Phase, promised: Option<Day>, removed: set<Removal>)

  const Fresh := State({}, None, map[], {}, None, {}, true, Idle, None, {})

  function Facts(s: State): set<Fact> {
    s.dflt + s.dated
  }

  predicate Dangling(s: State) {
    !(s.pointers <= Facts(s))
  }

  predicate Kept(f: Fact, shortCutoff: Time) {
    f.validAt.Some? && f.validAt.value >= shortCutoff
  }

  predicate Holds(b: Bound, f: Fact) {
    b.lower <= f.known < b.upper
  }

  /** What `ensure_forward_partitions` leaves behind. */
  ghost predicate Forward(was: Catalog, now: Catalog, floor: Time, start: Day, end: Day) {
    && Disjoint(now)
    && (forall n | n in was :: n in now && now[n] == was[n])
    && (forall n | n in now && n !in was :: now[n].lower >= floor)
    && (forall d | start <= d <= end && Midnight(d) >= floor :: ForDay(d) in now)
  }

  ghost predicate ForwardFromFloor(was: Catalog, now: Catalog, floor: Time, end: Day) {
    exists day :: Midnight(day) == floor && Forward(was, now, floor, day, end)
  }

  datatype Action =
    // ingest
    | Insert(fact: Fact)
    | Point(fact: Fact)
    | Unpoint(fact: Fact)
    // establish_floor
    | StartFloor(day: Day, end: Day)
    | RemoveFloor
    | AddFloor
    | ValidateAndCreate(parts: Catalog)
    | ValidationFails
    | CreateMissing(parts: Catalog)
    // purge_execute
    | StartPurge(cutoff: Time)
    | ClearPointers(victims: set<Fact>, shortCutoff: Time)
    | SwapDefault(shortCutoff: Time)
    | DropOldDefault(shortCutoff: Time)
    | ValidateKeys
    | DeleteDangling
    | DeleteRows(victims: set<Fact>, shortCutoff: Time)
    | FinishRows
    // the operator dies or gives up; the nightly job, when nobody holds the lock
    | Crash
    | NightlyReset

  function Enter(s: State, phase: Phase): State {
    s.(phase := phase)
  }

  function WithoutUnvalidatedFloor(s: State): State {
    if s.floor.Some? && !s.floor.value.validated then s.(floor := None) else s
  }

  /** A row goes to the partition that holds it, otherwise to DEFAULT, unless the floor refuses it. */
  function Inserted(s: State, f: Fact): State {
    if f in Facts(s) then s
    else if exists n | n in s.parts :: Holds(s.parts[n], f) then s.(dated := s.dated + {f})
    else if s.floor.Some? && f.known >= s.floor.value.value then s
    else s.(dflt := s.dflt + {f})
  }

  /** `swap_default`: DEFAULT out, an empty DEFAULT with the same floor in, keys not validated. */
  function Swapped(s: State, cutoff: Time, floor: Time): State {
    s.(dflt := {}, detached := Some(s.dflt), floor := Some(Floor(floor, true)), fkValid := false,
       removed := s.removed + set f | f in s.dflt :: Removal(f, cutoff))
  }

  ghost function Step(s: State, a: Action): State {
    match a
    case Insert(f) => Inserted(s, f)
    case Point(f) => if f in Facts(s) then s.(pointers := s.pointers + {f}) else s
    case Unpoint(f) => s.(pointers := s.pointers - {f})
    case StartFloor(day, end) =>
      if !s.phase.Idle? then s
      else if s.floor.None? then Enter(s, Adding(day, end))
      else if !s.floor.value.validated then Enter(s, Resetting(day, end))
      else Enter(s, Extending(s.floor.value.value, end))
    case RemoveFloor =>
      if s.phase.Resetting? then Enter(WithoutUnvalidatedFloor(s), Adding(s.phase.day, s.phase.end))
      else if s.phase.Undoing? then Enter(WithoutUnvalidatedFloor(s), Idle)
      else s
    case AddFloor =>
      if !s.phase.Adding? then s
      else
        Enter(if s.floor.Some? then s else s.(floor := Some(Floor(Midnight(s.phase.day), false))),
              Validating(s.phase.day, s.phase.end))
    case ValidateAndCreate(parts) =>
      if !s.phase.Validating? then s
      else
        var value := Midnight(s.phase.day);
        if s.floor == Some(Floor(value, false)) && (forall f | f in s.dflt :: f.known < value)
           && Forward(s.parts, parts, value, s.phase.day, s.phase.end)
        then Enter(s.(floor := Some(Floor(value, true)), parts := parts, promised := Some(s.phase.end)), Idle)
        else Enter(s, Undoing)
    case ValidationFails => if s.phase.Validating? then Enter(s, Undoing) else s
    case CreateMissing(parts) =>
      if s.phase.Extending? && ForwardFromFloor(s.parts, parts, s.phase.floor, s.phase.end)
      then Enter(s.(parts := parts), Idle) else s
    case StartPurge(cutoff) =>
      if !s.phase.Idle? then s
      else if s.detached.Some? then Enter(s, Dropping)
      else if s.floor.None? || !s.floor.value.validated then s
      else if s.floor.value.value <= cutoff then Enter(s, Swapping(cutoff, s.floor.value.value))
      else Enter(s, Deleting(cutoff))
    case ClearPointers(victims, shortCutoff) =>
      if s.phase.Swapping? || s.phase.Deleting?
      then s.(pointers := s.pointers - set p | p in victims && p.known < s.phase.cutoff
                                             && !(p in Facts(s) && Kept(p, shortCutoff)))
      else s
    case SwapDefault(shortCutoff) =>
      if !s.phase.Swapping? then s
      else if exists f | f in s.dflt :: Kept(f, shortCutoff) then Enter(s, Idle)
      else Enter(Swapped(s, s.phase.cutoff, s.phase.floor), Dropping)
    case DropOldDefault(shortCutoff) =>
      if !s.phase.Dropping? then s
      else if s.detached.Some? && exists f | f in s.detached.value :: Kept(f, shortCutoff) then Enter(s, Idle)
      else Enter(s.(detached := None), Checking)
    case ValidateKeys =>
      if s.phase.Checking? || s.phase.Rechecking?
      then if Dangling(s) then Enter(s, if s.phase.Checking? then Clearing else Idle)
           else Enter(s.(fkValid := true), Idle)
      else s
    case DeleteDangling =>
      if s.phase.Clearing? then Enter(s.(pointers := s.pointers * Facts(s)), Rechecking) else s
    case DeleteRows(victims, shortCutoff) =>
      if !s.phase.Deleting? then s
      else
        var expired := set f | f in victims && f in s.dflt && f.known < s.phase.cutoff && !Kept(f, shortCutoff);
        if expired !! s.pointers
        then s.(dflt := s.dflt - expired,
                removed := s.removed + set f | f in expired :: Removal(f, s.phase.cutoff))
        else s
    case FinishRows => if s.phase.Deleting? then Enter(s, Idle) else s
    case Crash => Enter(s, Idle)
    case NightlyReset => if s.phase.Idle? then WithoutUnvalidatedFloor(s) else s
  }

  ghost function Executed(s: State, actions: seq<Action>): State {
    if actions == [] then s
    else Step(Executed(s, actions[..|actions| - 1]), actions[|actions| - 1])
  }

  // ---- the invariant --------------------------------------------------------

  ghost predicate FloorOk(s: State) {
    s.floor.Some? && s.floor.value.validated ==>
      && (forall f | f in s.dflt :: f.known < s.floor.value.value)
      && (exists day :: Midnight(day) == s.floor.value.value)
      && s.promised.Some?
      && (forall d | Midnight(d) >= s.floor.value.value && d <= s.promised.value :: ForDay(d) in s.parts)
  }

  ghost predicate PhaseOk(s: State) {
    && (s.phase.Adding? ==> s.floor.None?)
    && (s.phase.Validating? ==> s.floor == Some(Floor(Midnight(s.phase.day), false)))
    && (s.phase.Resetting? ==> s.floor.Some? && !s.floor.value.validated)
    && (s.phase.Undoing? ==> s.floor.Some? && !s.floor.value.validated)
    && (s.phase.Extending? ==> s.floor == Some(Floor(s.phase.floor, true)))
    && (s.phase.Swapping? ==>
          s.floor == Some(Floor(s.phase.floor, true)) && s.phase.floor <= s.phase.cutoff && s.detached.None?)
    && (s.phase.Rechecking? ==> !Dangling(s))
  }

  ghost predicate TableOk(s: State) {
    && Disjoint(s.parts)
    && (forall f, n | f in s.dflt && n in s.parts :: !Holds(s.parts[n], f))
    && (forall f | f in s.dated :: exists n :: n in s.parts && Holds(s.parts[n], f))
    && (forall r | r in s.removed :: r.fact.known < r.cutoff)
    && (s.fkValid ==> !Dangling(s))
  }

  ghost predicate Inv(s: State) {
    FloorOk(s) && PhaseOk(s) && TableOk(s)
  }

  predicate IsIngest(a: Action) {
    a.Insert? || a.Point? || a.Unpoint?
  }

  predicate IsFloorStep(a: Action) {
    a.StartFloor? || a.RemoveFloor? || a.AddFloor? || a.ValidateAndCreate? || a.ValidationFails?
    || a.CreateMissing? || a.Crash? || a.NightlyReset?
  }

  /** Where a new row goes: to a partition whose range holds its known time; otherwise to DEFAULT,
      unless a floor, validated or not, lies at or below that time and refuses it.  A row that is
      there already stays where it is, and nothing else changes. */
  lemma IngestExactly(s: State, f: Fact)
    ensures var t := Step(s, Insert(f));
      var fits := exists n :: n in s.parts && s.parts[n].lower <= f.known && f.known < s.parts[n].upper;
      t == if f in s.dflt || f in s.dated then s
           else if fits then s.(dated := s.dated + {f})
           else if s.floor.None? || f.known < s.floor.value.value then s.(dflt := s.dflt + {f})
           else s
    ensures Step(s, Action.Point(f)) == if f in s.dflt || f in s.dated then s.(pointers := s.pointers + {f}) else s
    ensures Step(s, Unpoint(f)) == s.(pointers := s.pointers - {f})
  {
    assert (exists n | n in s.parts :: Holds(s.parts[n], f)) <==>
           exists n :: n in s.parts && s.parts[n].lower <= f.known && f.known < s.parts[n].upper by {
      if n :| n in s.parts && s.parts[n].lower <= f.known && f.known < s.parts[n].upper {
        assert Holds(s.parts[n], f);
      }
    }
  }

  lemma IngestKeeps(s: State, a: Action)
    requires Inv(s) && IsIngest(a)
    ensures Inv(Step(s, a))
  {
    hide Disjoint, Forward;
  }

  lemma CreationKeeps(s: State, parts: Catalog, floor: Time)
    requires TableOk(s) && forall f | f in s.dflt :: f.known < floor
    requires Disjoint(parts) && forall n | n in s.parts :: n in parts && parts[n] == s.parts[n]
    requires forall n | n in parts && n !in s.parts :: parts[n].lower >= floor
    ensures TableOk(s.(parts := parts))
  {
    hide Disjoint;
    forall f | f in s.dated ensures exists n :: n in parts && Holds(parts[n], f) {
      var n :| n in s.parts && Holds(s.parts[n], f);
      assert n in parts && Holds(parts[n], f);
    }
  }

  lemma ValidateKeeps(s: State, parts: Catalog)
    requires Inv(s)
    ensures Inv(Step(s, ValidateAndCreate(parts)))
  {
    hide Disjoint, TableOk;
    if s.phase.Validating? {
      var value := Midnight(s.phase.day);
      if s.floor == Some(Floor(value, false)) && (forall f | f in s.dflt :: f.known < value)
         && Forward(s.parts, parts, value, s.phase.day, s.phase.end) {
        CreationKeeps(s, parts, value);
        SameTables(s.(parts := parts), Step(s, ValidateAndCreate(parts)));
      } else {
        SameTables(s, Step(s, ValidateAndCreate(parts)));
      }
    }
  }

  lemma SameTables(s: State, t: State)
    requires t == s.(floor := t.floor, phase := t.phase, promised := t.promised)
    ensures TableOk(s) <==> TableOk(t)
  {
  }

  lemma CreateMissingKeeps(s: State, parts: Catalog)
    requires Inv(s)
    ensures Inv(Step(s, CreateMissing(parts)))
  {
    hide Disjoint, TableOk;
    if s.phase.Extending? && ForwardFromFloor(s.parts, parts, s.phase.floor, s.phase.end) {
      CreationKeeps(s, parts, s.phase.floor);
      SameTables(s.(parts := parts), Step(s, CreateMissing(parts)));
    }
  }

  lemma FloorStepKeeps(s: State, a: Action)
    requires Inv(s) && IsFloorStep(a)
    ensures Inv(Step(s, a))
  {
    hide Disjoint, Forward, ForwardFromFloor, Dangling;
    if a.ValidateAndCreate? {
      ValidateKeeps(s, a.parts);
    } else if a.CreateMissing? {
      CreateMissingKeeps(s, a.parts);
    } else {
      PhaseStepKeeps(s, a);
    }
  }

  lemma PhaseStepKeeps(s: State, a: Action)
    requires Inv(s) && IsFloorStep(a) && !a.ValidateAndCreate? && !a.CreateMissing?
    ensures Inv(Step(s, a))
  {
    hide TableOk, Forward, ForwardFromFloor;
    SameTables(s, Step(s, a));
    DanglingSame(s, Step(s, a));
  }

  lemma DanglingSame(s: State, t: State)
    requires t == s.(floor := t.floor, phase := t.phase, promised := t.promised)
    ensures Dangling(s) <==> Dangling(t)
  {
  }

  lemma PurgeStepKeeps(s: State, a: Action)
    requires Inv(s) && !IsIngest(a) && !IsFloorStep(a)
    ensures Inv(Step(s, a))
  {
    hide Disjoint, Forward, ForwardFromFloor;
  }

  lemma StepKeeps(s: State, a: Action)
    requires Inv(s)
    ensures Inv(Step(s, a))
  {
    hide Inv, Step;
    if IsIngest(a) {
      IngestKeeps(s, a);
    } else if IsFloorStep(a) {
      FloorStepKeeps(s, a);
    } else {
      PurgeStepKeeps(s, a);
    }
  }

  lemma FreshInv()
    ensures Inv(Fresh)
  {
  }

  lemma {:induction false} RunKeeps(s: State, actions: seq<Action>)
    requires Inv(s)
    ensures Inv(Executed(s, actions))
  {
    hide Inv, Step;
    if actions != [] {
      RunKeeps(s, actions[..|actions| - 1]);
      StepKeeps(Executed(s, actions[..|actions| - 1]), actions[|actions| - 1]);
    }
  }

  // ---- what holds at every transaction boundary -------------------------------

  /** In every state of every run, whatever crashed where: each row of DEFAULT lies below a
      validated floor, and the partitions promised with that floor exist; every fact that was
      taken out was known before the cutoff; a validated foreign key has no dangling pointer. */
  lemma EveryBoundary(actions: seq<Action>)
    ensures var s := Executed(Fresh, actions);
      && (s.floor.Some? && s.floor.value.validated ==>
            && (forall f | f in s.dflt :: f.known < s.floor.value.value)
            && s.promised.Some?
            && forall d | Midnight(d) >= s.floor.value.value && d <= s.promised.value :: ForDay(d) in s.parts)
      && (forall r | r in s.removed :: r.fact.known < r.cutoff)
      && (s.fkValid ==> s.pointers <= Facts(s))
      && Disjoint(s.parts)
  {
    hide Step, Disjoint;
    FreshInv();
    RunKeeps(Fresh, actions);
  }

  ghost predicate ValidFloor(s: State) {
    s.floor.Some? && s.floor.value.validated
  }

  lemma OnlyValidationMakesValid(s: State, a: Action)
    requires PhaseOk(s) && !ValidFloor(s) && ValidFloor(Step(s, a))
    ensures a.ValidateAndCreate? && s.phase.Validating?
    ensures Step(s, a).floor.value.value == Midnight(s.phase.day)
    ensures Forward(s.parts, Step(s, a).parts, Midnight(s.phase.day), s.phase.day, s.phase.end)
  {
    hide Forward, ForwardFromFloor, Dangling, Inserted;
    InsertedFloor(s, a);
  }

  lemma InsertedFloor(s: State, a: Action)
    ensures a.Insert? ==> Inserted(s, a.fact).floor == s.floor
  {
  }

  lemma ForwardDays(was: Catalog, now: Catalog, start: Day, end: Day)
    requires Forward(was, now, Midnight(start), start, end)
    ensures forall d | start <= d <= end :: ForDay(d) in now
    ensures forall n | n in now && n !in was :: now[n].lower >= Midnight(start)
  {
    assert forall d | start <= d <= end :: Midnight(d) >= Midnight(start);
  }

  /** The commit that makes a floor valid is the one that provides every forward partition. */
  lemma ValidatedWithPartitions(actions: seq<Action>, a: Action)
    requires !ValidFloor(Executed(Fresh, actions)) && ValidFloor(Step(Executed(Fresh, actions), a))
    ensures var s := Executed(Fresh, actions);
            var t := Step(s, a);
      && s.phase.Validating? && t.floor.value.value == Midnight(s.phase.day)
      && (forall d | s.phase.day <= d <= s.phase.end :: ForDay(d) in t.parts)
      && (forall n | n in t.parts && n !in s.parts :: t.parts[n].lower >= t.floor.value.value)
  {
    hide Step, Forward, PhaseOk, TableOk, FloorOk;
    var s := Executed(Fresh, actions);
    FreshInv();
    RunKeeps(Fresh, actions);
    OnlyValidationMakesValid(s, a);
    ForwardDays(s.parts, Step(s, a).parts, s.phase.day, s.phase.end);
  }

  lemma StepKeepsFloor(s: State, a: Action)
    requires Inv(s) && ValidFloor(s)
    ensures Step(s, a).floor == s.floor
  {
    hide Disjoint, Forward, ForwardFromFloor, TableOk, Dangling;
  }

  /** A validated floor's value never changes. */
  lemma {:induction false} FloorNeverMoves(s: State, actions: seq<Action>)
    requires Inv(s) && ValidFloor(s)
    ensures Executed(s, actions).floor == s.floor
  {
    hide Inv, Step;
    if actions != [] {
      var front := actions[..|actions| - 1];
      FloorNeverMoves(s, front);
      RunKeeps(s, front);
      StepKeepsFloor(Executed(s, front), actions[|actions| - 1]);
    }
  }

  /** Facts of one state that are still there, or were recorded as removed. */
  ghost predicate Accounted(s: State, t: State) {
    && s.removed <= t.removed
    && forall f | f in Facts(s) :: f in Facts(t) || exists r :: r in t.removed && r.fact == f
  }

  lemma StepAccounts(s: State, a: Action)
    requires Inv(s)
    ensures Accounted(s, Step(s, a))
  {
    hide Disjoint, Forward, ForwardFromFloor, FloorOk;
    var t := Step(s, a);
    forall f | f in Facts(s) && f !in Facts(t)
      ensures exists r :: r in t.removed && r.fact == f
    {
      assert Removal(f, s.phase.cutoff) in t.removed;
    }
  }

  /** No fact is lost silently: across any run it stays in the table or was removed as expired. */
  lemma {:induction false} NoFactVanishes(s: State, actions: seq<Action>)
    requires Inv(s)
    ensures Accounted(s, Executed(s, actions))
  {
    hide Inv, Step;
    if actions != [] {
      var front := actions[..|actions| - 1];
      NoFactVanishes(s, front);
      RunKeeps(s, front);
      var mid := Executed(s, front);
      StepAccounts(mid, actions[|actions| - 1]);
    }
  }

  lemma StepSpares(s: State, a: Action, f: Fact)
    requires f in Facts(s) && f.validAt.Some?
    requires a.SwapDefault? || a.DeleteRows? ==> f.validAt.value >= a.shortCutoff
    ensures f in Facts(Step(s, a))
  {
    hide Disjoint, Forward, ForwardFromFloor, Dangling;
  }

  /** A short forecast that is still valid is never removed: over any run of ingest, floor and
      purge steps with crashes anywhere, it stays as long as it is valid at or after the short
      cutoffs of the removal steps, whatever retention cutoffs the runs were given. */
  lemma {:induction false} ValidForecastsAreKept(s: State, actions: seq<Action>, f: Fact)
    requires f in Facts(s) && f.validAt.Some?
    requires forall i | 0 <= i < |actions| && (actions[i].SwapDefault? || actions[i].DeleteRows?) ::
               f.validAt.value >= actions[i].shortCutoff
    ensures f in Facts(Executed(s, actions))
  {
    hide Step;
    if actions != [] {
      var front := actions[..|actions| - 1];
      ValidForecastsAreKept(s, front, f);
      StepSpares(Executed(s, front), actions[|actions| - 1], f);
    }
  }

  /** So is the pointer to it, until its projection row is replaced. */
  lemma {:induction false} ValidPointersAreKept(s: State, actions: seq<Action>, f: Fact)
    requires f in Facts(s) && f in s.pointers && f.validAt.Some?
    requires forall i | 0 <= i < |actions|
                       && (actions[i].SwapDefault? || actions[i].DeleteRows? || actions[i].ClearPointers?) ::
               f.validAt.value >= actions[i].shortCutoff
    requires forall i | 0 <= i < |actions| :: actions[i] != Unpoint(f)
    ensures f in Executed(s, actions).pointers
  {
    hide Step;
    if actions != [] {
      var front := actions[..|actions| - 1];
      ValidPointersAreKept(s, front, f);
      ValidForecastsAreKept(s, front, f);
      PointerStays(Executed(s, front), actions[|actions| - 1], f);
    }
  }

  lemma PointerStays(s: State, a: Action, f: Fact)
    requires f in Facts(s) && f in s.pointers && f.validAt.Some? && a != Unpoint(f)
    requires a.ClearPointers? ==> f.validAt.value >= a.shortCutoff
    ensures f in Step(s, a).pointers
  {
    hide Disjoint, Forward, ForwardFromFloor, Dangling;
  }

  /** The row-by-row path removes exactly the rows of its batch that were known before the cutoff
      and are not short forecasts valid at or after the short cutoff, or, while a projection row
      points at one of them, nothing; its pointer pass clears what would be in the way. */
  lemma DeletesExactlyExpired(s: State, cutoff: Time, victims: set<Fact>, shortCutoff: Time)
    requires s.phase == Deleting(cutoff)
    ensures var t := Step(s, DeleteRows(victims, shortCutoff));
      && t.dated == s.dated && t.pointers == s.pointers
      && (t == s || forall f :: f in t.dflt <==> f in s.dflt && !(f in victims && Expired(f, cutoff, shortCutoff)))
      && (t.dflt == s.dflt
          || forall p | p in s.pointers && p in victims && p in s.dflt :: !Expired(p, cutoff, shortCutoff))
    ensures var u := Step(s, ClearPointers(s.pointers, shortCutoff));
            var t := Step(u, DeleteRows(victims, shortCutoff));
      && (forall p :: p in u.pointers <==>
            p in s.pointers
            && (p.known >= cutoff || (p in Facts(s) && p.validAt.Some? && p.validAt.value >= shortCutoff)))
      && forall f :: f in t.dflt <==> f in s.dflt && !(f in victims && Expired(f, cutoff, shortCutoff))
  {
    hide Disjoint, Forward, ForwardFromFloor, Dangling;
  }

  /** Past retention, and not a short forecast that is valid at or after the short cutoff. */
  ghost predicate Expired(f: Fact, cutoff: Time, shortCutoff: Time) {
    f.known < cutoff && !(f.validAt.Some? && f.validAt.value >= shortCutoff)
  }

  /** When the swap path returns normally, no projection pointer dangles; and once dangling
      pointers were deleted, the second validation cannot fail, whatever ingest did meanwhile. */
  lemma NormalReturnLeavesNoDangling(actions: seq<Action>)
    ensures var s := Executed(Fresh, actions);
            var t := Step(s, ValidateKeys);
      && (s.phase.Checking? && t.phase.Idle? ==> t.fkValid && t.pointers <= Facts(t))
      && (s.phase.Rechecking? ==> t.phase.Idle? && t.fkValid && t.pointers <= Facts(t))
  {
    hide Disjoint, Forward, ForwardFromFloor;
    FreshInv();
    RunKeeps(Fresh, actions);
  }

  // ---- restarting ---------------------------------------------------------------

  lemma Last(s: State, actions: seq<Action>, a: Action)
    ensures Executed(s, actions + [a]) == Step(Executed(s, actions), a)
  {
    hide Step;
    assert (actions + [a])[..|actions|] == actions;
  }

  /** A purge that died after the swap is finished by the next run: the old DEFAULT is dropped
      first, whatever the retention asked for, and the keys are validated. */
  lemma NextRunFinishesSwap(actions: seq<Action>, cutoff: Time, shortCutoff: Time)
    requires var s := Executed(Fresh, actions);
             && s.phase.Idle? && s.detached.Some?
             && forall f | f in s.detached.value && f.validAt.Some? :: f.validAt.value < shortCutoff
    ensures var s := Executed(Fresh, actions);
            var t := Executed(Fresh, actions + [StartPurge(cutoff)] + [DropOldDefault(shortCutoff)]
                                     + [ValidateKeys] + [DeleteDangling] + [ValidateKeys]);
      && t.phase.Idle? && t.detached.None? && t.fkValid && t.pointers <= Facts(t)
      && Facts(t) == Facts(s) && t.floor == s.floor
  {
    Last(Fresh, actions, StartPurge(cutoff));
    var one := actions + [StartPurge(cutoff)];
    Last(Fresh, one, DropOldDefault(shortCutoff));
    var two := one + [DropOldDefault(shortCutoff)];
    Last(Fresh, two, ValidateKeys);
    var three := two + [ValidateKeys];
    Last(Fresh, three, DeleteDangling);
    Last(Fresh, three + [DeleteDangling], ValidateKeys);
    hide Executed;
    var s := Executed(Fresh, actions);
    FreshInv();
    RunKeeps(Fresh, actions);
  }

  lemma LeftoverStep(s: State, day: Day, end: Day)
    requires s.phase.Idle? && s.floor.Some? && !s.floor.value.validated
    ensures Step(Step(s, StartFloor(day, end)), RemoveFloor).floor.None?
    ensures Step(s, NightlyReset).floor.None?
  {
    hide Forward, ForwardFromFloor, Inserted, Swapped;
  }

  /** A floor left unvalidated by a crash is removed by the next run of either kind before
      anything else, and then refuses no row. */
  lemma LeftoverFloorIsRemoved(actions: seq<Action>, day: Day, end: Day)
    requires var s := Executed(Fresh, actions);
             s.phase.Idle? && s.floor.Some? && !s.floor.value.validated
    ensures Executed(Fresh, actions + [StartFloor(day, end)] + [RemoveFloor]).floor.None?
    ensures Executed(Fresh, actions + [NightlyReset]).floor.None?
  {
    hide Step;
    Last(Fresh, actions, StartFloor(day, end));
    Last(Fresh, actions + [StartFloor(day, end)], RemoveFloor);
    Last(Fresh, actions, NightlyReset);
    LeftoverStep(Executed(Fresh, actions), day, end);
  }
}
