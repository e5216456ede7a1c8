/** What a daily summary says about the winners it was computed from. */
module DailySummary {
  import opened ExportTypes
  import opened Daily

  datatype Summary = Summary(
    tempMin: Option<real>, tempMax: Option<real>, tempAvg: Option<real>,
    humidityAvg: Option<real>, precipSum: Option<real>, precipOccurred: Option<bool>,
    skyCode: Option<real>, windAvg: Option<real>, sampleCount: nat,
    providers: set<nat>, partial: bool)

  /** The hours that have a winner of one field. */
  function HoursWith(state: State, f: Field): set<nat> {
    set h | h in state && f in state[h]
  }

  /** The values of one field, hour by hour. */
  function Values(state: State, f: Field, hours: set<nat>): seq<real>
    requires hours <= HoursWith(state, f)
  {
    if hours == {} then []
    else var h := Least(hours); [state[h][f].value] + Values(state, f, hours - {h})
  }

  function ValuesOf(state: State, f: Field): seq<real> {
    Values(state, f, HoursWith(state, f))
  }

  function Sum(values: seq<real>): real {
    if values == [] then 0.0 else Sum(values[..|values| - 1]) + values[|values| - 1]
  }

  function Min(values: seq<real>): real
    requires values != []
  {
    if |values| == 1 then values[0]
    else var m := Min(values[..|values| - 1]); if values[|values| - 1] < m then values[|values| - 1] else m
  }

  function Max(values: seq<real>): real
    requires values != []
  {
    if |values| == 1 then values[0]
    else var m := Max(values[..|values| - 1]); if values[|values| - 1] > m then values[|values| - 1] else m
  }

  function Average(values: seq<real>): Option<real> {
    if values == [] then None else Some(Sum(values) / |values| as real)
  }

  function Occurrences(values: seq<real>, v: real): nat {
    multiset(values)[v]
  }

  /** `min(counter, key=lambda v: (-counter[v], v))`. */
  function Mode(values: seq<real>, candidates: seq<real>): real
    requires candidates != []
  {
    if |candidates| == 1 then candidates[0]
    else
      var best := Mode(values, candidates[..|candidates| - 1]);
      var v := candidates[|candidates| - 1];
      if Preferred(values, v, best) then v else best
  }

  predicate Preferred(values: seq<real>, v: real, w: real) {
    Occurrences(values, v) > Occurrences(values, w)
    || (Occurrences(values, v) == Occurrences(values, w) && v < w)
  }

  function SlotEndsAt(day: int, slot: Slot): Time {
    day * DAY + SlotEnd(slot) * HOUR - SEOUL
  }

  /** `summarize`. */
  function Summarize(day: int, slot: Slot, state: State, now: Time): Summary {
    var temp := ValuesOf(state, Temp);
    var sky := ValuesOf(state, Sky);
    var precip := ValuesOf(state, Precip);
    var rain := HoursWith(state, Precip);
    var unknown := exists h | h in rain :: state[h][Precip].unknownAmount;
    var covered := |rain| == SlotEnd(slot) - SlotStart(slot);
    var wet := unknown || exists h | h in rain :: state[h][Precip].value > 0.0;
    Summary(
      if temp == [] then None else Some(Min(temp)),
      if temp == [] then None else Some(Max(temp)),
      Average(temp), Average(ValuesOf(state, Humidity)),
      if covered && !unknown then Some(Sum(precip)) else None,
      if wet then Some(true) else if covered then Some(false) else None,
      if sky == [] then None else Some(Mode(sky, sky)),
      Average(ValuesOf(state, Wind)), |state|,
      set h, f | h in state && f in state[h] :: state[h][f].provider,
      now < SlotEndsAt(day, slot))
  }

  // ---- precipitation ---------------------------------------------------------

  /** The hour has a precipitation winner of known amount. */
  ghost predicate KnownAmount(state: State, h: nat) {
    Has(state, h, Precip) && !state[h][Precip].unknownAmount
  }

  ghost predicate Dry(state: State, h: nat) {
    KnownAmount(state, h) && state[h][Precip].value <= 0.0
  }

  ghost predicate Wet(state: State, h: nat) {
    Has(state, h, Precip) && (state[h][Precip].unknownAmount || state[h][Precip].value > 0.0)
  }

  lemma CoveredByCount(state: State, slot: Slot)
    requires InSlot(state, slot)
    ensures |HoursWith(state, Precip)| == SlotEnd(slot) - SlotStart(slot)
       <==> forall h: nat | SlotStart(slot) <= h < SlotEnd(slot) :: Has(state, h, Precip)
  {
    var rain := HoursWith(state, Precip);
    assert forall h: nat :: h in rain <==> Has(state, h, Precip);
    IntervalSize(rain, SlotStart(slot), SlotEnd(slot));
  }

  lemma PrecipitationFacts(state: State, day: int, slot: Slot, clock: Time)
    requires InSlot(state, slot)
    ensures var s := Summarize(day, slot, state, clock);
      && (s.precipSum.Some? <==>
            forall h: nat | SlotStart(slot) <= h < SlotEnd(slot) :: KnownAmount(state, h))
      && (s.precipOccurred == Some(false) <==>
            forall h: nat | SlotStart(slot) <= h < SlotEnd(slot) :: Dry(state, h))
      && (s.precipOccurred == Some(true) <==> exists h: nat :: Wet(state, h))
  {
    CoveredByCount(state, slot);
    var rain := HoursWith(state, Precip);
    forall h: nat
      ensures h in rain <==> Has(state, h, Precip)
      ensures h in rain ==> SlotStart(slot) <= h < SlotEnd(slot)
      ensures h in rain && !state[h][Precip].unknownAmount <==> KnownAmount(state, h)
      ensures KnownAmount(state, h) && state[h][Precip].value <= 0.0 <==> Dry(state, h)
      ensures Wet(state, h) <==> Has(state, h, Precip) && !Dry(state, h)
    {
    }
    var s := Summarize(day, slot, state, clock);
    assert s.precipOccurred == Some(true) <==> exists h | h in rain :: Wet(state, h);
    assert (exists h: nat :: Wet(state, h)) <==> exists h | h in rain :: Wet(state, h);
    if forall h: nat | SlotStart(slot) <= h < SlotEnd(slot) :: KnownAmount(state, h) {
      forall h: nat | SlotStart(slot) <= h < SlotEnd(slot) ensures Has(state, h, Precip) {
        assert KnownAmount(state, h);
      }
    }
    if forall h: nat | SlotStart(slot) <= h < SlotEnd(slot) :: Dry(state, h) {
      forall h: nat | SlotStart(slot) <= h < SlotEnd(slot) ensures Has(state, h, Precip) && !Wet(state, h) {
        assert Dry(state, h);
      }
    }
  }

  /** For the stored state after any merges, summarised at any clock: a precipitation sum is
      published exactly when every hour of the slot has a winner of known amount; "no rain"
      exactly when every hour has a winner of exactly zero; "rain" exactly when some winner is
      positive or of unknown amount. */
  lemma PrecipitationOnlyWhenCovered(batches: seq<Batch>, key: Key, clock: Time)
    ensures var state := MergeAll(batches, key);
            var s := Summarize(key.day, key.slot, state, clock);
      && (s.precipSum.Some? <==>
            forall h: nat | SlotOf(h) == Some(key.slot) :: KnownAmount(state, h))
      && (s.precipOccurred == Some(false) <==>
            forall h: nat | SlotOf(h) == Some(key.slot) :: Dry(state, h))
      && (s.precipOccurred == Some(true) <==> exists h: nat :: Wet(state, h))
  {
    AllInSlot(batches, key);
    assert forall h: nat :: SlotOf(h) == Some(key.slot) <==> SlotStart(key.slot) <= h < SlotEnd(key.slot);
    PrecipitationFacts(MergeAll(batches, key), key.day, key.slot, clock);
  }

  // ---- averages and extremes ------------------------------------------------

  lemma {:induction false} Extremes(values: seq<real>)
    requires values != []
    ensures Min(values) in values && Max(values) in values
    ensures forall v | v in values :: Min(values) <= v <= Max(values)
  {
    if |values| > 1 {
      var front := values[..|values| - 1];
      Extremes(front);
      assert values == front + [values[|values| - 1]];
    }
  }

  /** The sum over some hours, whatever their order. */
  function TotalOf(state: State, f: Field, hours: set<nat>): real
    requires hours <= HoursWith(state, f)
  {
    if hours == {} then 0.0
    else var h := Least(hours); state[h][f].value + TotalOf(state, f, hours - {h})
  }

  lemma {:induction false} SumFrom(first: real, rest: seq<real>)
    ensures Sum([first] + rest) == first + Sum(rest)
  {
    var all := [first] + rest;
    if rest == [] {
      assert all[..0] == [] && Sum(all) == Sum(all[..0]) + first;
    } else {
      SumFrom(first, rest[..|rest| - 1]);
      assert all[..|all| - 1] == [first] + rest[..|rest| - 1];
    }
  }

  lemma {:induction false} SumIsTotal(state: State, f: Field, hours: set<nat>)
    requires hours <= HoursWith(state, f)
    ensures Sum(Values(state, f, hours)) == TotalOf(state, f, hours)
  {
    if hours != {} {
      var h := Least(hours);
      SumIsTotal(state, f, hours - {h});
      SumFrom(state[h][f].value, Values(state, f, hours - {h}));
    }
  }

  /** An average is there exactly when some hour has a winner, and then the winners' sum is the
      average times their number. */
  ghost predicate IsAverage(average: Option<real>, state: State, f: Field) {
    var hours := set h | h in state && f in state[h];
    && (average.Some? <==> hours != {})
    && (average.Some? ==> average.value * (|hours| as real) == TotalOf(state, f, hours))
  }

  lemma AverageIs(state: State, f: Field)
    ensures IsAverage(Average(ValuesOf(state, f)), state, f)
  {
    var hours := HoursWith(state, f);
    SumIsTotal(state, f, hours);
    ValuesAreWinners(state, f, hours);
    var values := ValuesOf(state, f);
    assert |values| == |hours|;
    assert hours == {} <==> |hours| == 0;
    if values != [] {
      var n := |values| as real;
      assert Average(values).value * n == Sum(values);
    }
  }

  /** The averages, the amount of rain where it is published, the number of hours, the providers
      and whether the slot is still running (its end is 11, 17 or 23 o'clock in Seoul). */
  lemma SummaryFields(day: int, slot: Slot, state: State, now: Time)
    ensures var s := Summarize(day, slot, state, now);
      && IsAverage(s.tempAvg, state, Temp) && IsAverage(s.humidityAvg, state, Humidity)
      && IsAverage(s.windAvg, state, Wind)
      && (s.precipSum.Some? ==> s.precipSum.value == TotalOf(state, Precip, HoursWith(state, Precip)))
      && s.sampleCount == |set h | h in state|
      && (forall p :: p in s.providers <==> exists h, f :: Has(state, h, f) && state[h][f].provider == p)
      && (s.partial <==>
            now + 32400000000
            < day * 86400000000 + 3600000000 * match slot case Morning => 11 case Noon => 17 case Evening => 23)
  {
    AverageIs(state, Temp);
    AverageIs(state, Humidity);
    AverageIs(state, Wind);
    SumIsTotal(state, Precip, HoursWith(state, Precip));
    assert (set h | h in state) == state.Keys;
    assert |state.Keys| == |state|;
    hide Average, IsAverage, Sum, TotalOf, Min, Max, Mode;
  }

  lemma {:induction false} SumAtLeast(values: seq<real>, least: real)
    requires forall v | v in values :: least <= v
    ensures least * (|values| as real) <= Sum(values)
  {
    if values != [] {
      var front := values[..|values| - 1];
      assert forall v | v in front :: v in values;
      SumAtLeast(front, least);
      var last := values[|values| - 1];
      assert last in values;
      assert |values| as real == |front| as real + 1.0;
      assert least * (|values| as real) == least * (|front| as real) + least;
    }
  }

  lemma {:induction false} SumAtMost(values: seq<real>, most: real)
    requires forall v | v in values :: v <= most
    ensures Sum(values) <= most * (|values| as real)
  {
    if values != [] {
      var front := values[..|values| - 1];
      assert forall v | v in front :: v in values;
      SumAtMost(front, most);
      var last := values[|values| - 1];
      assert last in values;
      assert |values| as real == |front| as real + 1.0;
      assert most * (|values| as real) == most * (|front| as real) + most;
    }
  }

  lemma Quotient(low: real, sum: real, high: real, n: real)
    requires n > 0.0 && low * n <= sum <= high * n
    ensures low <= sum / n <= high
  {
    var q := sum / n;
    assert q * n == sum;
    assert (q - low) * n >= 0.0 && (high - q) * n >= 0.0;
    Sign(q - low, n);
    Sign(high - q, n);
  }

  lemma Sign(x: real, n: real)
    requires n > 0.0 && x * n >= 0.0
    ensures x >= 0.0
  {
  }

  lemma AverageBetween(values: seq<real>)
    requires values != []
    ensures Average(values).Some? && Min(values) <= Average(values).value <= Max(values)
  {
    hide Min, Max, Sum;
    Extremes(values);
    SumAtLeast(values, Min(values));
    SumAtMost(values, Max(values));
    Quotient(Min(values), Sum(values), Max(values), |values| as real);
  }

  lemma AverageExists(values: seq<real>)
    ensures Average(values).Some? <==> values != []
  {
    hide Sum;
  }

  /** The hour-by-hour list has exactly the winners of the field. */
  lemma {:induction false} ValuesAreWinners(state: State, f: Field, hours: set<nat>)
    requires hours <= HoursWith(state, f)
    ensures |Values(state, f, hours)| == |hours|
    ensures forall v :: v in Values(state, f, hours) <==> exists h :: h in hours && state[h][f].value == v
    ensures forall v :: Occurrences(Values(state, f, hours), v) == |Showing(state, f, hours, v)|
  {
    if hours != {} {
      var h := Least(hours);
      var rest := hours - {h};
      ValuesAreWinners(state, f, rest);
      forall v
        ensures v in Values(state, f, hours) <==> exists k :: k in hours && state[k][f].value == v
        ensures Occurrences(Values(state, f, hours), v) == |Showing(state, f, hours, v)|
      {
        if k :| k in hours && state[k][f].value == v {
          if k != h { assert k in rest; }
        }
        OneMoreShows(state, f, hours, h, v);
      }
    } else {
      assert forall v :: Showing(state, f, hours, v) == {};
    }
  }

  /** The hours among `hours` whose winner has value `v`. */
  function Showing(state: State, f: Field, hours: set<nat>, v: real): set<nat>
    requires hours <= HoursWith(state, f)
  {
    set h | h in hours && state[h][f].value == v
  }

  lemma OneMoreShows(state: State, f: Field, hours: set<nat>, h: nat, v: real)
    requires hours <= HoursWith(state, f) && h in hours
    ensures |Showing(state, f, hours, v)|
         == |Showing(state, f, hours - {h}, v)| + if state[h][f].value == v then 1 else 0
  {
    var rest := Showing(state, f, hours - {h}, v);
    assert Showing(state, f, hours, v) == if state[h][f].value == v then rest + {h} else rest;
  }

  /** A temperature summary reports winners' values as its extremes: no hour's winner is below
      the minimum or above the maximum, and the average lies between them; all three are there,
      or there is no winner at all. */
  lemma TemperaturesAgree(day: int, slot: Slot, state: State, now: Time)
    ensures var s := Summarize(day, slot, state, now);
      && (s.tempMin.Some? <==> exists h :: Has(state, h, Temp))
      && (s.tempMax.Some? <==> s.tempMin.Some?) && (s.tempAvg.Some? <==> s.tempMin.Some?)
      && (s.tempMin.Some? ==>
            && (exists h :: Has(state, h, Temp) && state[h][Temp].value == s.tempMin.value)
            && (exists h :: Has(state, h, Temp) && state[h][Temp].value == s.tempMax.value)
            && (forall h | Has(state, h, Temp) :: s.tempMin.value <= state[h][Temp].value <= s.tempMax.value)
            && s.tempMin.value <= s.tempAvg.value <= s.tempMax.value)
  {
    var temp := ValuesOf(state, Temp);
    var hours := HoursWith(state, Temp);
    ValuesAreWinners(state, Temp, hours);
    assert forall h: nat :: h in hours <==> Has(state, h, Temp);
    AverageExists(temp);
    hide Average;
    if temp == [] {
      assert |hours| == 0;
    } else {
      hide Min, Max, Values;
      Extremes(temp);
      AverageBetween(temp);
      var s := Summarize(day, slot, state, now);
      var low :| low in hours && state[low][Temp].value == s.tempMin.value;
      var high :| high in hours && state[high][Temp].value == s.tempMax.value;
      forall h | Has(state, h, Temp) ensures s.tempMin.value <= state[h][Temp].value <= s.tempMax.value {
        assert state[h][Temp].value in temp;
      }
    }
  }

  lemma PreferredOrder(values: seq<real>, u: real, v: real, w: real)
    requires !Preferred(values, v, u) && !Preferred(values, w, v)
    ensures !Preferred(values, w, u)
  {
  }

  lemma {:induction false} ModeIsBest(values: seq<real>, candidates: seq<real>)
    requires candidates != []
    ensures Mode(values, candidates) in candidates
    ensures forall v | v in candidates :: !Preferred(values, v, Mode(values, candidates))
  {
    if |candidates| > 1 {
      var front := candidates[..|candidates| - 1];
      var last := candidates[|candidates| - 1];
      ModeIsBest(values, front);
      var best := Mode(values, front);
      forall v | v in candidates
        ensures !Preferred(values, v, Mode(values, candidates))
      {
        if v in front {
          if Preferred(values, last, best) { PreferredOrder(values, last, best, v); }
        } else {
          assert v == last;
        }
      }
    }
  }

  /** The representative sky code is a winner's code, no other is shown in more hours, and it is
      the smallest of those shown in as many. */
  lemma SkyIsMostFrequent(day: int, slot: Slot, state: State, now: Time)
    ensures var code := Summarize(day, slot, state, now).skyCode;
            var hours := HoursWith(state, Sky);
      && (code.Some? <==> hours != {})
      && (code.Some? ==>
            && Showing(state, Sky, hours, code.value) != {}
            && forall h | h in hours ::
                 var v := state[h][Sky].value;
                 || |Showing(state, Sky, hours, v)| < |Showing(state, Sky, hours, code.value)|
                 || (|Showing(state, Sky, hours, v)| == |Showing(state, Sky, hours, code.value)| && code.value <= v))
  {
    var sky := ValuesOf(state, Sky);
    var hours := HoursWith(state, Sky);
    ValuesAreWinners(state, Sky, hours);
    if sky == [] {
      assert |hours| == 0;
    } else {
      ModeIsBest(sky, sky);
      hide Values, Mode, Occurrences;
      var code := Summarize(day, slot, state, now).skyCode;
      var k :| k in hours && state[k][Sky].value == code.value;
      assert k in Showing(state, Sky, hours, code.value);
      forall h | h in hours
        ensures var v := state[h][Sky].value;
          || |Showing(state, Sky, hours, v)| < |Showing(state, Sky, hours, code.value)|
          || (|Showing(state, Sky, hours, v)| == |Showing(state, Sky, hours, code.value)| && code.value <= v)
      {
        var v := state[h][Sky].value;
        assert v in sky;
        assert !Preferred(sky, v, code.value);
        assert Occurrences(sky, v) == |Showing(state, Sky, hours, v)|;
        assert Occurrences(sky, code.value) == |Showing(state, Sky, hours, code.value)|;
      }
    }
  }
}
