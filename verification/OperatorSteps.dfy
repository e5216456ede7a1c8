/** The operator steps as the source runs them: an object whose tables each transaction updates,
    drivers that call the transactions in order, and the page walk that deletes in batches.
    Every transaction is proved to be a step of `DefaultPartition`. */
module OperatorSteps {
  import opened ExportTypes
  import opened Partitions
  import opened DefaultPartition

  // ---- the page walk -----------------------------------------------------------

  type Heap = seq<set<Fact>>

  function RowsFrom(heap: Heap, block: nat): set<Fact> {
    set i, f | block <= i < |heap| && f in heap[i] :: f
  }

  /** No row is on two pages. */
  ghost predicate Separate(heap: Heap) {
    forall i, j | 0 <= i < j < |heap| :: heap[i] !! heap[j]
  }

  /** `_walk_delete`: `batch` pages at a time from `start`, one statement per range. */
  method WalkDelete(heap: Heap, expired: set<Fact>, batch: nat, start: nat) returns (left: Heap, total: nat)
    requires batch >= 1 && Separate(heap)
    ensures |left| == |heap|
    ensures forall i | 0 <= i < |heap| :: left[i] == if i < start then heap[i] else heap[i] - expired
    ensures total == |RowsFrom(heap, start) * expired|
  {
    hide RowsBetween, RowsFrom;
    left, total := heap, 0;
    var block := start;
    NoRowsYet(heap, start, expired);
    while block < |heap|
      invariant start <= block && |left| == |heap|
      invariant forall i | 0 <= i < |heap| :: left[i] == if start <= i < block then heap[i] - expired else heap[i]
      invariant total == |RowsBetween(heap, start, block) * expired|
      decreases |heap| - block
    {
      var count: nat;
      left, count := DeleteRange(heap, left, expired, start, block, block + batch);
      total := total + count;
      block := block + batch;
    }
    WholeHeap(heap, start, block);
  }

  /** One statement: the pages from `block` up to `upper`, as far as the heap goes. */
  method DeleteRange(ghost heap: Heap, pages: Heap, expired: set<Fact>, ghost start: nat, block: nat, upper: nat)
    returns (left: Heap, count: nat)
    requires Separate(heap) && start <= block <= upper && |pages| == |heap|
    requires forall i | 0 <= i < |heap| :: pages[i] == if start <= i < block then heap[i] - expired else heap[i]
    ensures |left| == |heap|
    ensures forall i | 0 <= i < |heap| :: left[i] == if start <= i < upper then heap[i] - expired else heap[i]
    ensures count == |RowsBetween(heap, start, upper) * expired| - |RowsBetween(heap, start, block) * expired|
  {
    hide RowsBetween;
    left, count := pages, 0;
    var i := block;
    while i < upper && i < |pages|
      invariant block <= i <= upper && |left| == |heap|
      invariant forall j | 0 <= j < |heap| :: left[j] == if start <= j < i then heap[j] - expired else heap[j]
      invariant count == |RowsBetween(heap, start, i) * expired| - |RowsBetween(heap, start, block) * expired|
    {
      PageCount(heap, start, i, expired);
      count := count + |left[i] * expired|;
      left := left[i := left[i] - expired];
      i := i + 1;
    }
    PastTheEnd(heap, start, i, upper);
  }

  lemma NoRowsYet(heap: Heap, start: nat, expired: set<Fact>)
    ensures RowsBetween(heap, start, start) * expired == {}
  {
  }

  lemma WholeHeap(heap: Heap, start: nat, block: nat)
    requires block >= |heap|
    ensures RowsBetween(heap, start, block) == RowsFrom(heap, start)
  {
  }

  function RowsBetween(heap: Heap, lo: nat, hi: nat): set<Fact> {
    set i, f | lo <= i < hi && i < |heap| && f in heap[i] :: f
  }

  lemma PastTheEnd(heap: Heap, start: nat, i: nat, upper: nat)
    requires i >= upper || i >= |heap|
    ensures i <= upper ==> RowsBetween(heap, start, i) == RowsBetween(heap, start, upper)
    ensures i >= |heap| && upper >= |heap| ==> RowsBetween(heap, start, i) == RowsBetween(heap, start, upper)
  {
  }

  /** A page adds its own expired rows to the count, and no other page has them. */
  lemma PageCount(heap: Heap, start: nat, i: nat, expired: set<Fact>)
    requires Separate(heap) && start <= i < |heap|
    ensures |RowsBetween(heap, start, i + 1) * expired|
         == |RowsBetween(heap, start, i) * expired| + |heap[i] * expired|
  {
    var before := RowsBetween(heap, start, i) * expired;
    var page := heap[i] * expired;
    assert RowsBetween(heap, start, i + 1) == RowsBetween(heap, start, i) + heap[i];
    assert RowsBetween(heap, start, i + 1) * expired == before + page;
    assert before !! page;
  }

  /** Every row of DEFAULT lies below `value`, so the floor can be validated. */
  ghost predicate FloorHolds(rows: set<Fact>, value: Time) {
    forall f | f in rows :: f.known < value
  }

  // ---- the transactions ----------------------------------------------------------

  class FactTable {
    var dflt: set<Fact>
    var floor: Option<Floor>
    const partitions: Table
    var dated: set<Fact>
    var detached: Option<set<Fact>>
    var pointers: set<Fact>
    var fkValid: bool
    ghost var promised: Option<Day>
    ghost var removed: set<Removal>

    ghost function At(phase: Phase): State
      reads this, partitions
    {
      State(dflt, floor, partitions.parts, dated, detached, pointers, fkValid, phase, promised, removed)
    }

    constructor ()
      ensures fresh(partitions) && At(Idle) == Fresh
    {
      dflt, floor, dated, detached, pointers, fkValid := {}, None, {}, None, {}, true;
      partitions := new Table(map[]);
      promised, removed := None, {};
    }

    /** `_drop_floor`. */
    method RemoveFloor(ghost phase: Phase)
      requires phase.Undoing? || phase.Resetting?
      modifies this
      ensures At(Step(old(At(phase)), Action.RemoveFloor).phase) == Step(old(At(phase)), Action.RemoveFloor)
    {
      if floor.Some? && !floor.value.validated {
        floor := None;
      }
    }

    /** `add_default_floor`: an existing floor is left alone. */
    method AddFloor(day: Day, ghost end: Day)
      modifies this
      ensures At(Validating(day, end)) == Step(old(At(Adding(day, end))), Action.AddFloor)
    {
      if floor.None? {
        floor := Some(Floor(Midnight(day), false));
      }
    }

    /** `_validate_and_create`: the floor is proved against every row, and the partitions are
        created, in one transaction. */
    method ValidateAndCreate(day: Day, end: Day) returns (done: bool)
      requires Disjoint(partitions.parts) && floor == Some(Floor(Midnight(day), false))
      modifies this, partitions
      ensures done <==> FloorHolds(old(dflt), Midnight(day)) && !Blocked(old(partitions.parts), Midnight(day), day, end)
      ensures done ==>
        At(Idle) == Step(old(At(Validating(day, end))), Action.ValidateAndCreate(partitions.parts))
      ensures !done ==> At(Undoing) == Step(old(At(Validating(day, end))), ValidationFails)
      ensures done ==> ValidFloor(At(Idle)) && forall d | day <= d <= end :: ForDay(d) in partitions.parts
    {
      var value := Midnight(day);
      if exists f | f in dflt :: f.known >= value {
        return false;
      }
      var failed, created := partitions.EnsureForward(value, day, end);
      if failed {
        return false;
      }
      assert forall d | day <= d <= end :: Midnight(d) >= value;
      floor := Some(Floor(value, true));
      promised := Some(end);
      done := true;
    }

    /** `swap_default`. */
    method SwapDefault(cutoff: Time, floor: Time, shortCutoff: Time) returns (swapped: bool)
      modifies this
      ensures var t := Step(old(At(Swapping(cutoff, floor))), Action.SwapDefault(shortCutoff));
              At(t.phase) == t && (swapped <==> t.phase.Dropping?)
      ensures swapped <==> !exists f :: f in old(dflt) && f.validAt.Some? && f.validAt.value >= shortCutoff
      ensures if swapped
              then dflt == {} && detached == Some(old(dflt)) && this.floor == Some(Floor(floor, true)) && !fkValid
              else dflt == old(dflt) && detached == old(detached) && this.floor == old(this.floor)
    {
      if exists f | f in dflt :: Kept(f, shortCutoff) {
        return false;
      }
      removed := removed + set f | f in dflt :: Removal(f, cutoff);
      detached := Some(dflt);
      dflt := {};
      this.floor := Some(Floor(floor, true));
      fkValid := false;
      swapped := true;
    }

    /** `drop_old_default`. */
    method DropOldDefault(shortCutoff: Time) returns (dropped: bool)
      modifies this
      ensures var t := Step(old(At(Dropping)), Action.DropOldDefault(shortCutoff));
              At(t.phase) == t && (dropped <==> t.phase.Checking?)
      ensures dropped <==>
        old(detached).None?
        || !exists f :: f in old(detached).value && f.validAt.Some? && f.validAt.value >= shortCutoff
      ensures detached == if dropped then None else old(detached)
    {
      if detached.None? {
        return true;
      }
      if exists f | f in detached.value :: Kept(f, shortCutoff) {
        return false;
      }
      detached := None;
      dropped := true;
    }

    /** `_validate_foreign_keys`: validate; on a violation delete what dangles and validate again. */
    method ValidateForeignKeys() returns (validated: bool)
      modifies this
      ensures validated && fkValid && pointers <= Facts(At(Idle))
      ensures var one := Step(old(At(Checking)), ValidateKeys);
              At(Idle) == if one.phase.Idle? then one else Step(Step(one, DeleteDangling), ValidateKeys)
    {
      if !(pointers <= dflt + dated) {
        pointers := pointers * (dflt + dated);
      }
      fkValid := true;
      validated := true;
    }

    /** `establish_floor`, alone: it ends with a validated floor and its partitions, or with the
        floor it found, or with none. */
    method EstablishFloor(day: Day, end: Day) returns (established: bool)
      requires Inv(At(Idle))
      modifies this, partitions
      ensures Inv(At(Idle))
      ensures established <==>
        if ValidFloor(old(At(Idle)))
        then var value := old(floor).value.value; !Blocked(old(partitions.parts), value, (value + KST) / DAY, end)
        else FloorHolds(old(dflt), Midnight(day)) && !Blocked(old(partitions.parts), Midnight(day), day, end)
      ensures established ==> ValidFloor(At(Idle))
      ensures established && !ValidFloor(old(At(Idle))) ==>
                floor.value.value == Midnight(day) && forall d | day <= d <= end :: ForDay(d) in partitions.parts
      ensures ValidFloor(old(At(Idle))) ==> floor == old(floor)
      ensures !established ==> floor.None? || floor == old(floor)
      ensures dflt == old(dflt) && dated == old(dated) && pointers == old(pointers)
    {
      hide Disjoint, Forward, TableOk, FloorOk, Blocked, FloorHolds;
      StepKeeps(At(Idle), StartFloor(day, end));
      if floor.Some? && floor.value.validated {
        established := Extend(floor.value.value, day, end);
        return;
      }
      if floor.Some? {
        ghost var resetting := At(Resetting(day, end));
        StepKeeps(resetting, Action.RemoveFloor);
        RemoveFloor(Resetting(day, end));
      }
      ghost var adding := At(Adding(day, end));
      StepKeeps(adding, Action.AddFloor);
      AddFloor(day, end);
      ghost var validating := At(Validating(day, end));
      DisjointParts(validating);
      established := ValidateAndCreate(day, end);
      if established {
        StepKeeps(validating, Action.ValidateAndCreate(partitions.parts));
      } else {
        StepKeeps(validating, ValidationFails);
        StepKeeps(At(Undoing), Action.RemoveFloor);
        RemoveFloor(Undoing);
      }
    }

    /** The first half of the swap path: expired pointers, then DEFAULT out and a new one in. */
    method ClearAndSwap(cutoff: Time, shortCutoff: Time) returns (swapped: bool)
      requires Inv(At(Idle)) && floor.Some? && floor.value.validated && floor.value.value <= cutoff
      requires detached.None?
      modifies this
      ensures Inv(At(if swapped then Dropping else Idle)) && floor == old(floor) && dated == old(dated)
      ensures swapped <==> !exists f :: f in old(dflt) && f.validAt.Some? && f.validAt.value >= shortCutoff
      ensures swapped ==> dflt == {} && forall f | f in old(dflt) :: Removal(f, cutoff) in removed
      ensures swapped ==> detached == Some(old(dflt))
      ensures !swapped ==> dflt == old(dflt) && removed == old(removed) && detached.None?
    {
      hide Disjoint, FloorOk, TableOk;
      ghost var swapping := At(Swapping(cutoff, floor.value.value));
      StepKeeps(At(Idle), StartPurge(cutoff));
      StepKeeps(swapping, ClearPointers(pointers, shortCutoff));
      pointers := pointers - set p | p in pointers && p.known < cutoff && !(p in dflt + dated && Kept(p, shortCutoff));
      ghost var cleared := At(Swapping(cutoff, floor.value.value));
      assert cleared == Step(swapping, ClearPointers(swapping.pointers, shortCutoff));
      StepKeeps(cleared, Action.SwapDefault(shortCutoff));
      swapped := SwapDefault(cutoff, floor.value.value, shortCutoff);
    }

    /** The second half, also the whole of a run that finds a leftover. */
    method DropAndValidate(shortCutoff: Time) returns (returned: bool)
      requires Inv(At(Dropping))
      modifies this
      ensures Inv(At(Idle)) && floor == old(floor) && dated == old(dated)
      ensures dflt == old(dflt) && removed == old(removed)
      ensures returned <==>
        old(detached).None?
        || !exists f :: f in old(detached).value && f.validAt.Some? && f.validAt.value >= shortCutoff
      ensures returned ==> detached.None? && fkValid && pointers <= Facts(At(Idle))
    {
      hide Disjoint, FloorOk, TableOk;
      StepKeeps(At(Dropping), Action.DropOldDefault(shortCutoff));
      var dropped := DropOldDefault(shortCutoff);
      if !dropped {
        return false;
      }
      ghost var checking := At(Checking);
      StepKeeps(checking, ValidateKeys);
      StepKeeps(Step(checking, ValidateKeys), DeleteDangling);
      StepKeeps(Step(Step(checking, ValidateKeys), DeleteDangling), ValidateKeys);
      returned := ValidateForeignKeys();
    }

    /** `purge_execute` alone: a leftover of an earlier run is finished whatever floor and cutoff
        are, and nothing else is done; otherwise it refuses to work without a validated floor, and
        on a partition that is past retention as a whole, on normal return, DEFAULT's rows are
        gone, the floor is where it was, and no pointer dangles. */
    method PurgeWhole(cutoff: Time, shortCutoff: Time) returns (returned: bool)
      requires Inv(At(Idle))
      requires detached.None? && ValidFloor(At(Idle)) ==> floor.value.value <= cutoff
      modifies this
      ensures returned <==>
        if old(detached).Some?
        then !exists f :: f in old(detached).value && f.validAt.Some? && f.validAt.value >= shortCutoff
        else ValidFloor(old(At(Idle)))
             && !exists f :: f in old(dflt) && f.validAt.Some? && f.validAt.value >= shortCutoff
      ensures old(detached).None? && !ValidFloor(old(At(Idle))) ==> At(Idle) == old(At(Idle))
      ensures Inv(At(Idle)) && floor == old(floor) && dated == old(dated)
      ensures returned ==> detached.None? && fkValid && pointers <= Facts(At(Idle))
      ensures returned && old(detached).None? ==> dflt == {}
      ensures returned && old(detached).Some? ==> dflt == old(dflt)
      ensures forall f | f in old(dflt) :: f in dflt || Removal(f, cutoff) in removed
    {
      hide Disjoint, FloorOk, TableOk, PhaseOk, Inv;
      if detached.None? {
        if floor.None? || !floor.value.validated {
          return false;
        }
        var swapped := ClearAndSwap(cutoff, shortCutoff);
        if !swapped {
          return false;
        }
      } else {
        StepKeeps(At(Idle), StartPurge(cutoff));
      }
      returned := DropAndValidate(shortCutoff);
    }

    /** `_create_missing`: the validated floor is reused, whatever day was asked for. */
    method Extend(value: Time, ghost day: Day, end: Day) returns (done: bool)
      requires Inv(At(Extending(value, end)))
      modifies partitions
      ensures Inv(At(Idle))
      ensures done <==> !Blocked(old(partitions.parts), value, (value + KST) / DAY, end)
    {
      hide Disjoint, TableOk, Blocked;
      ghost var s := At(Extending(value, end));
      var start := (value + KST) / DAY;
      assert Midnight(start) == value by { FloorDay(s); }
      DisjointParts(s);
      var failed, created := partitions.EnsureForward(value, start, end);
      done := !failed;
      if failed {
        StepKeeps(s, Crash);
      } else {
        StepKeeps(s, CreateMissing(partitions.parts));
        assert ForwardFromFloor(s.parts, partitions.parts, value, end);
      }
    }
  }

  lemma DisjointParts(s: State)
    requires Inv(s)
    ensures Disjoint(s.parts)
  {
    hide Disjoint;
  }

  lemma FloorDay(s: State)
    requires Inv(s) && ValidFloor(s)
    ensures Midnight((s.floor.value.value + KST) / DAY) == s.floor.value.value
  {
    var day :| Midnight(day) == s.floor.value.value;
    assert day * DAY / DAY == day;
  }
}
