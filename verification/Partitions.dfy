/** Daily partitions of the fact table: what the maintenance job creates beside whatever exists. */
module Partitions {
  import opened ExportTypes

  const DAY: int := 86400000000
  /** A KST day starts nine hours before the UTC day of the same date. */
  const KST: int := 9 * 3600000000

  type Day = int

  datatype Bound = Bound(lower: Time, upper: Time)

  /** The dated name of a day, or any other name. */
  datatype Name = ForDay(day: Day) | Other(id: nat)

  type Catalog = map<Name, Bound>

  function Midnight(d: Day): Time {
    d * DAY - KST
  }

  predicate Overlaps(a: Bound, b: Bound) {
    a.lower < b.upper && a.upper > b.lower
  }

  function WholeDay(d: Day): Bound {
    Bound(Midnight(d), Midnight(d + 1))
  }

  /** What the database keeps true of the partitions of one table. */
  ghost predicate Disjoint(parts: Catalog) {
    && (forall n | n in parts :: parts[n].lower < parts[n].upper)
    && (forall m, n | m in parts && n in parts && m != n :: !Overlaps(parts[m], parts[n]))
  }

  // ---- the overlap check -----------------------------------------------------

  /** `_overlapping_upper_bound`: the greatest upper bound among the overlapping ranges. */
  method OverlappingUpperBound(bounds: seq<Bound>, range: Bound) returns (upper: Option<Time>)
    ensures upper.None? <==> forall i | 0 <= i < |bounds| :: !Overlaps(bounds[i], range)
    ensures upper.Some? ==>
              exists i :: 0 <= i < |bounds| && Overlaps(bounds[i], range) && bounds[i].upper == upper.value
    ensures upper.Some? ==> forall i | 0 <= i < |bounds| && Overlaps(bounds[i], range) :: bounds[i].upper <= upper.value
  {
    upper := None;
    var i := 0;
    while i < |bounds|
      invariant 0 <= i <= |bounds|
      invariant upper.None? <==> forall j | 0 <= j < i :: !Overlaps(bounds[j], range)
      invariant upper.Some? ==> exists j :: 0 <= j < i && Overlaps(bounds[j], range) && bounds[j].upper == upper.value
      invariant upper.Some? ==> forall j | 0 <= j < i && Overlaps(bounds[j], range) :: bounds[j].upper <= upper.value
    {
      if Overlaps(bounds[i], range) && (upper.None? || bounds[i].upper > upper.value) {
        upper := Some(bounds[i].upper);
      }
      i := i + 1;
    }
  }

  /** Where the partition of a day would start: at midnight, or where the last existing partition
      that reaches into the day ends. */
  ghost predicate StartsAt(parts: Catalog, d: Day, lower: Time) {
    && lower >= Midnight(d)
    && (forall n | n in parts && Overlaps(parts[n], WholeDay(d)) :: parts[n].upper <= lower)
    && (lower == Midnight(d)
        || exists n :: n in parts && Overlaps(parts[n], WholeDay(d)) && parts[n].upper == lower)
  }

  lemma StartUnique(parts: Catalog, d: Day, a: Time, b: Time)
    requires StartsAt(parts, d, a) && StartsAt(parts, d, b)
    ensures a == b
  {
  }

  /** Some existing partition fills the day to its end, so nothing is left to create. */
  ghost predicate Full(parts: Catalog, d: Day) {
    exists n :: n in parts && Overlaps(parts[n], WholeDay(d)) && parts[n].upper >= Midnight(d + 1)
  }

  lemma FullStart(parts: Catalog, d: Day, lower: Time)
    requires StartsAt(parts, d, lower)
    ensures Full(parts, d) <==> lower >= Midnight(d + 1)
  {
    if lower >= Midnight(d + 1) {
      var n :| n in parts && Overlaps(parts[n], WholeDay(d)) && parts[n].upper == lower;
    }
  }

  // ---- the table -------------------------------------------------------------

  datatype Created = New | AlreadyThere | EmptyRange | WouldOverlap

  class Table {
    var parts: Catalog

    constructor (parts: Catalog)
      ensures this.parts == parts
    {
      this.parts := parts;
    }

    /** `CREATE TABLE IF NOT EXISTS ... PARTITION OF`: a name that exists is left alone whatever
        its bounds; otherwise the range must be nonempty and free. */
    method Create(name: Name, bound: Bound) returns (outcome: Created)
      modifies this
      ensures outcome.AlreadyThere? <==> name in old(parts)
      ensures outcome.EmptyRange? <==> name !in old(parts) && bound.lower >= bound.upper
      ensures outcome.WouldOverlap? ==> exists n :: n in old(parts) && Overlaps(old(parts)[n], bound)
      ensures outcome.New? ==> forall n | n in old(parts) :: !Overlaps(old(parts)[n], bound)
      ensures parts == if outcome.New? then old(parts)[name := bound] else old(parts)
    {
      if name in parts {
        return AlreadyThere;
      }
      if bound.lower >= bound.upper {
        return EmptyRange;
      }
      if exists n | n in parts :: Overlaps(parts[n], bound) {
        return WouldOverlap;
      }
      parts := parts[name := bound];
      return New;
    }

    /** `_existing_partition_bounds`. */
    method ReadBounds() returns (bounds: seq<Bound>)
      ensures forall n | n in parts :: parts[n] in bounds
      ensures forall b | b in bounds :: exists n :: n in parts && parts[n] == b
    {
      bounds := [];
      var rest := parts.Keys;
      while rest != {}
        invariant rest <= parts.Keys
        invariant forall n | n in parts && n !in rest :: parts[n] in bounds
        invariant forall b | b in bounds :: exists n :: n in parts && parts[n] == b
        decreases rest
      {
        var n :| n in rest;
        bounds := bounds + [parts[n]];
        rest := rest - {n};
      }
    }

    /** One turn of the loop of `ensure_partitions`. */
    method EnsureDay(existing: seq<Bound>, day: Day, ghost was: Catalog, ghost start: Day)
      returns (empty: bool, bound: Bound)
      requires start <= day && Ensured(was, parts, start, day - 1) && Knows(was, existing, day)
      modifies this
      ensures empty <==> ForDay(day) !in was && Full(was, day)
      ensures !empty ==> Ensured(was, parts, start, day) && Knows(was, existing + [bound], day + 1)
    {
      hide StartsAt, Full, Knows, Ensured;
      var range := WholeDay(day);
      var clamp := OverlappingUpperBound(existing, range);
      var lower := if clamp.Some? && clamp.value > range.lower then clamp.value else range.lower;
      bound := Bound(lower, range.upper);
      Clamped(was, existing, day, clamp, lower);
      FullStart(was, day, lower);
      NeverOverlaps(was, parts, start, day, lower);
      NameIsFree(was, parts, start, day);
      ghost var before := parts;
      var outcome := Create(ForDay(day), bound);
      empty := outcome.EmptyRange?;
      if !empty {
        OneMoreDay(was, before, parts, start, day, lower);
        KnowsMore(was, existing, day, lower);
      }
    }

    /** `ensure_partitions`: every day of the range in turn; an error leaves the transaction rolled
        back.  The list of bounds starts with what exists and grows with every day, also with the
        days whose name was already there. */
    method EnsurePartitions(start: Day, end: Day) returns (failed: bool, names: seq<Name>)
      requires start <= end && Disjoint(parts)
      modifies this
      ensures failed <==> exists d :: start <= d <= end && ForDay(d) !in old(parts) && Full(old(parts), d)
      ensures failed ==> parts == old(parts)
      ensures !failed ==> Ensured(old(parts), parts, start, end)
      ensures !failed ==> |names| == end - start + 1 && forall i | 0 <= i < |names| :: names[i] == ForDay(start + i)
    {
      hide StartsAt, Disjoint, Full, Fits;
      var savepoint := parts;
      var existing := ReadBounds();
      names := [];
      var day := start;
      while day <= end
        invariant start <= day <= end + 1
        invariant Ensured(savepoint, parts, start, day - 1)
        invariant |names| == day - start && forall i | 0 <= i < |names| :: names[i] == ForDay(start + i)
        invariant Knows(savepoint, existing, day)
        invariant forall d | start <= d < day :: ForDay(d) in savepoint || !Full(savepoint, d)
      {
        var empty, bound := EnsureDay(existing, day, savepoint, start);
        if empty {
          parts := savepoint;
          return true, names;
        }
        names := names + [ForDay(day)];
        existing := existing + [bound];
        day := day + 1;
      }
      failed := false;
    }

    /** `missing_forward_days`. */
    method MissingForwardDays(floor: Time, start: Day, end: Day) returns (days: seq<Day>)
      ensures forall d :: d in days <==> start <= d <= end && Midnight(d) >= floor && ForDay(d) !in parts
      ensures forall i, j | 0 <= i < j < |days| :: days[i] < days[j]
    {
      days := [];
      var day := start;
      while day <= end
        invariant start <= day && (day <= end + 1 || day == start)
        invariant forall d :: d in days <==> start <= d < day && Midnight(d) >= floor && ForDay(d) !in parts
        invariant forall i | 0 <= i < |days| :: days[i] < day
        invariant forall i, j | 0 <= i < j < |days| :: days[i] < days[j]
        decreases end - day
      {
        if Midnight(day) >= floor && ForDay(day) !in parts {
          days := days + [day];
        }
        day := day + 1;
      }
    }

    /** `ensure_forward_partitions`: only missing days at or after the floor are touched. */
    method EnsureForward(floor: Time, start: Day, end: Day) returns (failed: bool, created: seq<Name>)
      requires Disjoint(parts)
      modifies this
      ensures failed <==> Blocked(old(parts), floor, start, end)
      ensures failed ==> parts == old(parts)
      ensures Disjoint(parts)
      ensures forall n | n in old(parts) :: n in parts && parts[n] == old(parts)[n]
      ensures forall n | n in parts && n !in old(parts) :: parts[n].lower >= floor
      ensures !failed ==> forall d | start <= d <= end && Midnight(d) >= floor :: ForDay(d) in parts
    {
      hide Disjoint, StartsAt, Full, Fits, Grown, Ensured, Blocked;
      var savepoint := parts;
      var days := MissingForwardDays(floor, start, end);
      created := [];
      var i := 0;
      StartForward(parts);
      while i < |days|
        invariant 0 <= i <= |days| && Disjoint(parts) && Grown(savepoint, parts)
        invariant forall n | n in parts && n !in savepoint :: parts[n].lower >= floor
        invariant forall j | 0 <= j < i :: ForDay(days[j]) in parts && !Full(savepoint, days[j])
        invariant forall j | i <= j < |days| :: ForDay(days[j]) !in parts
      {
        ghost var before := parts;
        var day := days[i];
        var bad, names := EnsurePartitions(day, day);
        GrownFull(savepoint, before, day);
        if bad {
          parts := savepoint;
          IsBlocked(savepoint, floor, start, end, day);
          return true, created;
        }
        EnsuredDisjoint(before, parts, day, day);
        GrowsBy(savepoint, before, parts, day);
        NewInDay(before, parts, day, floor);
        created := created + names;
        i := i + 1;
      }
      failed := false;
      NotBlocked(savepoint, floor, start, end, days);
      KeptAll(savepoint, parts);
    }
  }

  // ---- what one call creates ---------------------------------------------------

  /** Everything that existed is kept; every day of the range that had no partition of its name
      has one now, from where `StartsAt` says to the end of the day. */
  ghost predicate Ensured(was: Catalog, now: Catalog, start: Day, end: Day) {
    && (forall n | n in was :: n in now && now[n] == was[n])
    && (forall n | n in now && n !in was :: n.ForDay? && start <= n.day <= end)
    && (forall d | start <= d <= end && ForDay(d) !in was :: ForDay(d) in now && Fits(was, d, now[ForDay(d)]))
  }

  ghost predicate Fits(was: Catalog, d: Day, b: Bound) {
    b.lower < b.upper == Midnight(d + 1) && StartsAt(was, d, b.lower)
  }

  /** The growing list speaks of what existed and of days already done. */
  ghost predicate Knows(was: Catalog, bounds: seq<Bound>, day: Day) {
    && (forall n | n in was :: was[n] in bounds)
    && (forall b | b in bounds ::
          (exists n :: n in was && was[n] == b) || b.upper <= Midnight(day))
  }

  lemma Clamped(was: Catalog, bounds: seq<Bound>, day: Day, clamp: Option<Time>, lower: Time)
    requires Knows(was, bounds, day)
    requires clamp.None? <==> forall i | 0 <= i < |bounds| :: !Overlaps(bounds[i], WholeDay(day))
    requires clamp.Some? ==>
      exists i :: 0 <= i < |bounds| && Overlaps(bounds[i], WholeDay(day)) && bounds[i].upper == clamp.value
    requires clamp.Some? ==>
      forall i | 0 <= i < |bounds| && Overlaps(bounds[i], WholeDay(day)) :: bounds[i].upper <= clamp.value
    requires lower == if clamp.Some? && clamp.value > Midnight(day) then clamp.value else Midnight(day)
    ensures StartsAt(was, day, lower)
  {
    forall n | n in was && Overlaps(was[n], WholeDay(day)) ensures was[n].upper <= lower {
      var i :| 0 <= i < |bounds| && bounds[i] == was[n];
      assert Overlaps(bounds[i], WholeDay(day));
    }
    if clamp.Some? {
      var i :| 0 <= i < |bounds| && Overlaps(bounds[i], WholeDay(day)) && bounds[i].upper == clamp.value;
      assert bounds[i] in bounds;
    }
  }

  /** Some day that would have to be created is filled to its end already. */
  ghost predicate Blocked(parts: Catalog, floor: Time, start: Day, end: Day) {
    exists d :: start <= d <= end && Midnight(d) >= floor && ForDay(d) !in parts && Full(parts, d)
  }

  /** Everything new is a partition of its own day, within that day. */
  ghost predicate Grown(was: Catalog, now: Catalog) {
    && (forall n | n in was :: n in now && now[n] == was[n])
    && (forall n | n in now && n !in was ::
          n.ForDay? && Midnight(n.day) <= now[n].lower < now[n].upper == Midnight(n.day + 1))
  }

  lemma GrownFull(was: Catalog, now: Catalog, d: Day)
    requires Grown(was, now) && ForDay(d) !in now
    ensures Full(now, d) <==> Full(was, d)
  {
    if Full(now, d) {
      var n :| n in now && Overlaps(now[n], WholeDay(d)) && now[n].upper >= Midnight(d + 1);
      if n !in was {
        DaysApart(n.day, d);
      }
      assert n in was;
    }
    if Full(was, d) {
      var n :| n in was && Overlaps(was[n], WholeDay(d)) && was[n].upper >= Midnight(d + 1);
      assert n in now && now[n] == was[n];
    }
  }

  lemma StartForward(parts: Catalog)
    ensures Grown(parts, parts)
  {
  }

  lemma KeptAll(was: Catalog, now: Catalog)
    requires Grown(was, now)
    ensures forall n | n in was :: n in now && now[n] == was[n]
  {
  }

  lemma IsBlocked(parts: Catalog, floor: Time, start: Day, end: Day, d: Day)
    requires start <= d <= end && Midnight(d) >= floor && ForDay(d) !in parts && Full(parts, d)
    ensures Blocked(parts, floor, start, end)
  {
  }

  lemma NotBlocked(parts: Catalog, floor: Time, start: Day, end: Day, days: seq<Day>)
    requires forall d :: d in days <==> start <= d <= end && Midnight(d) >= floor && ForDay(d) !in parts
    requires forall j | 0 <= j < |days| :: !Full(parts, days[j])
    ensures !Blocked(parts, floor, start, end)
  {
    hide Full;
  }

  lemma GrowsBy(was: Catalog, before: Catalog, now: Catalog, d: Day)
    requires Grown(was, before) && Ensured(before, now, d, d)
    ensures Grown(was, now) && (forall e | e != d && ForDay(e) !in before :: ForDay(e) !in now)
    ensures forall n | n in before :: n in now
    ensures forall n | n in before && n !in was :: now[n] == before[n]
  {
    forall n | n in now && n !in was
      ensures n.ForDay? && Midnight(n.day) <= now[n].lower < now[n].upper == Midnight(n.day + 1)
    {
      if n !in before {
        assert n == ForDay(d) && Fits(before, d, now[n]);
      }
    }
  }

  /** What overlaps the rest of a day overlaps the day. */
  lemma WithinDay(b: Bound, lower: Time, d: Day)
    requires lower >= Midnight(d)
    ensures Overlaps(b, Bound(lower, Midnight(d + 1))) ==> Overlaps(b, WholeDay(d))
  {
  }

  /** A day's partition overlaps nothing: neither what existed nor what earlier days created. */
  lemma NeverOverlaps(was: Catalog, now: Catalog, start: Day, day: Day, lower: Time)
    requires Ensured(was, now, start, day - 1) && StartsAt(was, day, lower)
    ensures lower < Midnight(day + 1) ==>
              forall n | n in now :: !Overlaps(now[n], Bound(lower, Midnight(day + 1)))
  {
    forall n | n in now && lower < Midnight(day + 1)
      ensures !Overlaps(now[n], Bound(lower, Midnight(day + 1)))
    {
      if n in was {
        WithinDay(was[n], lower, day);
      } else {
        assert now[n].upper == Midnight(n.day + 1) <= Midnight(day);
      }
    }
  }

  lemma NameIsFree(was: Catalog, now: Catalog, start: Day, day: Day)
    requires Ensured(was, now, start, day - 1)
    ensures ForDay(day) in now <==> ForDay(day) in was
  {
  }

  lemma OneMoreDay(was: Catalog, before: Catalog, now: Catalog, start: Day, day: Day, lower: Time)
    requires start <= day && Ensured(was, before, start, day - 1) && StartsAt(was, day, lower)
    requires if ForDay(day) in was then now == before
             else lower < Midnight(day + 1) && now == before[ForDay(day) := Bound(lower, Midnight(day + 1))]
    ensures Ensured(was, now, start, day)
  {
    hide StartsAt;
  }

  lemma KnowsMore(was: Catalog, bounds: seq<Bound>, day: Day, lower: Time)
    requires Knows(was, bounds, day)
    ensures Knows(was, bounds + [Bound(lower, Midnight(day + 1))], day + 1)
  {
    assert Midnight(day) <= Midnight(day + 1);
  }

  /** Every partition created is disjoint from every existing and every newly created one. */
  lemma EnsuredDisjoint(was: Catalog, now: Catalog, start: Day, end: Day)
    requires Disjoint(was) && Ensured(was, now, start, end)
    ensures Disjoint(now)
  {
    forall m, n | m in now && n in now && m != n
      ensures !Overlaps(now[m], now[n])
    {
      if m !in was && n !in was {
        DaysApart(m.day, n.day);
      } else if m !in was {
        WithinDay(was[n], now[m].lower, m.day);
      } else if n !in was {
        WithinDay(was[m], now[n].lower, n.day);
      }
    }
  }

  lemma DaysApart(a: Day, b: Day)
    requires a != b
    ensures Midnight(a + 1) <= Midnight(b) || Midnight(b + 1) <= Midnight(a)
  {
  }

  lemma NewInDay(was: Catalog, now: Catalog, d: Day, floor: Time)
    requires Ensured(was, now, d, d) && Midnight(d) >= floor
    ensures forall n | n in now && n !in was :: now[n].lower >= floor
    ensures ForDay(d) in now
  {
  }

  // ---- coverage ----------------------------------------------------------------

  ghost predicate Covered(parts: Catalog, t: Time) {
    exists n :: n in parts && parts[n].lower <= t < parts[n].upper
  }

  ghost predicate DayCovered(parts: Catalog, d: Day) {
    forall t | Midnight(d) <= t < Midnight(d + 1) :: Covered(parts, t)
  }

  /** Whatever of the day comes before the start of its partition was covered already. */
  ghost predicate CoveredToStart(parts: Catalog, d: Day) {
    forall lower | StartsAt(parts, d, lower) :: forall t | Midnight(d) <= t < lower :: Covered(parts, t)
  }

  /** Exactly when a requested day is covered afterwards: a day whose name existed must have been
      covered before, another one must have been covered up to where its partition starts. */
  lemma CoveredExactly(was: Catalog, now: Catalog, start: Day, end: Day, d: Day)
    requires Ensured(was, now, start, end) && start <= d <= end
    ensures ForDay(d) in was ==> (DayCovered(now, d) <==> DayCovered(was, d))
    ensures ForDay(d) !in was ==>
      (DayCovered(now, d) <==> CoveredToStart(was, d))
  {
    forall t | Midnight(d) <= t < Midnight(d + 1)
      ensures Covered(now, t) <==>
                Covered(was, t) || (ForDay(d) !in was && now[ForDay(d)].lower <= t)
    {
      if Covered(was, t) {
        var n :| n in was && was[n].lower <= t < was[n].upper;
        assert n in now;
      }
      if Covered(now, t) && !Covered(was, t) {
        var n :| n in now && now[n].lower <= t < now[n].upper;
        if n !in was && n.day != d {
          DaysApart(n.day, d);
        }
      }
    }
    if ForDay(d) !in was {
      var begin := now[ForDay(d)].lower;
      assert begin < Midnight(d + 1) && StartsAt(was, d, begin);
      forall lower | StartsAt(was, d, lower) ensures lower == begin {
        StartUnique(was, d, lower, begin);
      }
    }
  }

  /** No partition that reaches into the day starts after its midnight, as where older partitions
      were cut at UTC midnight of the day before. */
  ghost predicate StartsBefore(parts: Catalog, d: Day) {
    forall n | n in parts && Overlaps(parts[n], WholeDay(d)) :: parts[n].lower <= Midnight(d)
  }

  /** Then a requested range is covered without gaps: every day whose name was free, and every
      day that was covered before. */
  lemma NoGaps(was: Catalog, now: Catalog, start: Day, end: Day)
    requires Ensured(was, now, start, end)
    requires forall d | start <= d <= end ::
               if ForDay(d) in was then DayCovered(was, d) else StartsBefore(was, d)
    ensures forall t | start * 86400000000 <= t + 32400000000 < (end + 1) * 86400000000 :: Covered(now, t)
  {
    forall t | Midnight(start) <= t < Midnight(end + 1)
      ensures Covered(now, t)
    {
      var d := (t + KST) / DAY;
      assert Midnight(d) <= t < Midnight(d + 1);
      InRange(start, end, d, t);
      CoveredExactly(was, now, start, end, d);
      if ForDay(d) !in was {
        forall lower | StartsAt(was, d, lower)
          ensures forall t | Midnight(d) <= t < lower :: Covered(was, t)
        {
          LegacyStart(was, d, lower);
        }
      }
      assert DayCovered(now, d);
    }
  }

  lemma InRange(start: Day, end: Day, d: Day, t: Time)
    requires Midnight(start) <= t < Midnight(end + 1) && Midnight(d) <= t < Midnight(d + 1)
    ensures start <= d <= end
  {
  }

  lemma LegacyStart(was: Catalog, d: Day, lower: Time)
    requires StartsBefore(was, d) && StartsAt(was, d, lower)
    ensures forall t | Midnight(d) <= t < lower :: Covered(was, t)
  {
    if lower > Midnight(d) {
      var n :| n in was && Overlaps(was[n], WholeDay(d)) && was[n].upper == lower;
      assert was[n].lower <= Midnight(d);
    }
  }

  /** Without that condition a gap can remain: a partition of another name that starts inside the
      day pushes the new partition's start past itself, and the morning belongs to neither. */
  lemma MorningLost(d: Day, now: Catalog)
    requires Ensured(map[Other(0) := Bound(Midnight(d) + 10, Midnight(d) + 15)], now, d, d)
    ensures Disjoint(map[Other(0) := Bound(Midnight(d) + 10, Midnight(d) + 15)])
    ensures ForDay(d) in now && now[ForDay(d)].lower == Midnight(d) + 15
    ensures !Covered(now, Midnight(d))
  {
    var was := map[Other(0) := Bound(Midnight(d) + 10, Midnight(d) + 15)];
    assert Overlaps(was[Other(0)], WholeDay(d));
    assert StartsAt(was, d, now[ForDay(d)].lower);
  }
}
