/** The daily summary: observations are reduced to one winner per hour and field, by rank.
    Instants are microseconds since the epoch; Decimal arithmetic is exact. */
module Daily {
  import opened ExportTypes
  import opened SetSize

  const SECOND: int := 1000000
  const HOUR: int := 3600 * SECOND
  const DAY: int := 24 * HOUR
  /** Asia/Seoul has had one offset since 1988. */
  const SEOUL: int := 9 * HOUR
  const KNOWN_PROVIDERS: nat := 14

  datatype Style = Observed | Nowcast | OtherStyle
  datatype Metric = T1H | TEMP | REH | HUMIDITY | WSD | WIND_SPEED | RN1 | SKY | OtherMetric
  datatype Unit = DegC | DegreeSign | Percent | MeterSecond | MeterPerSecond | KmPerHour | Mm | Code | OtherUnit
  datatype Field = Temp | Humidity | Wind | Precip | Sky
  datatype Slot = Morning | Noon | Evening

  /** A stored point.  `provider` is its place in the provider list (14 when it is not listed, as
      a provider number from 14 on), `kma` and `nowcastSet` whether it is a KMA point of the
      ultra short nowcast, `below` whether its text says "less than", `digest` its content hash. */
  datatype Measurement = Measurement(
    location: nat, provider: nat, kma: bool, nowcastSet: bool, style: Style, metric: Metric,
    unit: Unit, number: Option<real>, below: bool, target: Time, known: Time, digest: nat)

  /** Compared from the left; later targets and later knowledge come first. */
  datatype Rank = Rank(priority: nat, target: Time, known: Time, digest: nat)

  datatype Cell = Cell(value: real, provider: nat, rank: Rank, unknownAmount: bool)

  datatype Key = Key(location: nat, day: int, slot: Slot)

  datatype Parsed = Parsed(key: Key, hour: nat, field: Field, cell: Cell)

  type State = map<nat, map<Field, Cell>>

  predicate Lower(a: Rank, b: Rank) {
    || a.priority < b.priority
    || (a.priority == b.priority
        && (|| a.target > b.target
            || (a.target == b.target
                && (a.known > b.known || (a.known == b.known && a.digest < b.digest)))))
  }

  function SlotStart(s: Slot): nat {
    match s case Morning => 5 case Noon => 11 case Evening => 17
  }

  function SlotEnd(s: Slot): nat {
    match s case Morning => 11 case Noon => 17 case Evening => 23
  }

  function SlotOf(hour: nat): Option<Slot> {
    if 5 <= hour < 11 then Some(Morning)
    else if 11 <= hour < 17 then Some(Noon)
    else if 17 <= hour < 23 then Some(Evening)
    else None
  }

  /** The field, the value in the field's unit and the instant the value belongs to. */
  function Measured(p: Measurement): Option<(Field, real, Time)> {
    if p.number.None? then None
    else
      var n := p.number.value;
      if p.metric in {T1H, TEMP} && p.unit in {DegC, DegreeSign} && -90.0 <= n <= 65.0
      then Some((Temp, n, p.target))
      else if p.metric in {REH, HUMIDITY} && p.unit == Percent && 0.0 <= n <= 100.0
      then Some((Humidity, n, p.target))
      else if p.metric in {WSD, WIND_SPEED} && p.unit in {MeterSecond, MeterPerSecond, KmPerHour}
      then
        var speed := if p.unit == KmPerHour then n / 3.6 else n;
        if 0.0 <= speed <= 150.0 then Some((Wind, speed, p.target)) else None
      else if p.kma && p.metric == RN1 && p.nowcastSet && p.unit == Mm && p.target % HOUR == 0
              && 0.0 <= n <= 1000.0
      then Some((Precip, n, p.target - HOUR))
      else if p.metric == SKY && p.unit == Code && n in {1.0, 3.0, 4.0}
      then Some((Sky, n, p.target))
      else None
  }

  function LocalHour(t: Time): nat {
    (t + SEOUL) / HOUR % 24
  }

  function LocalDay(t: Time): int {
    (t + SEOUL) / DAY
  }

  /** `observation`. */
  function Observation(p: Measurement): Option<Parsed> {
    if p.style == OtherStyle || Measured(p).None? then None
    else
      var (field, value, at) := Measured(p).value;
      var slot := SlotOf(LocalHour(at));
      if slot.None? then None
      else
        var priority := if p.provider < KNOWN_PROVIDERS then p.provider else KNOWN_PROVIDERS;
        Some(Parsed(Key(p.location, LocalDay(at), slot.value), LocalHour(at), field,
                    Cell(value, p.provider, Rank(priority, at, p.known, p.digest),
                         field == Precip && p.below)))
  }

  /** What an accepted observation is filed under: the hour of the day of its instant in Seoul,
      the hour before it for rain, which is an amount of the past hour; and the slot of that hour. */
  lemma FiledUnder(p: Measurement)
    requires Observation(p).Some?
    ensures var o := Observation(p).value;
            var at := if o.field == Precip then p.target - 3600000000 else p.target;
      && o.key.location == p.location && o.hour < 24
      && o.key.day * 86400000000 + o.hour * 3600000000 <= at + 32400000000
         < o.key.day * 86400000000 + (o.hour + 1) * 3600000000
      && (o.key.slot == Morning <==> 5 <= o.hour <= 10) && (o.key.slot == Noon <==> 11 <= o.hour <= 16)
      && (o.key.slot == Evening <==> 17 <= o.hour <= 22)
      && o.cell.provider == p.provider && o.cell.rank.target == at && o.cell.rank.known == p.known
      && o.cell.rank.digest == p.digest
      && o.cell.rank.priority == (if p.provider <= 13 then p.provider else 14)
      && (o.cell.unknownAmount <==> o.field == Precip && p.below)
  {
    var o := Observation(p).value;
    DayAndHour(Measured(p).value.2);
  }

  lemma DayAndHour(t: Time)
    ensures LocalDay(t) * 86400000000 + LocalHour(t) * 3600000000 <= t + 32400000000
            < LocalDay(t) * 86400000000 + (LocalHour(t) + 1) * 3600000000
    ensures LocalHour(t) < 24
  {
    var x := t + SEOUL;
    var h := x / HOUR;
    assert x / DAY == h / 24 by {
      assert h * HOUR <= x < (h + 1) * HOUR;
      assert h / 24 * 24 <= h < h / 24 * 24 + 24;
    }
  }

  /** Which points are accepted, and the value in the field's unit. */
  lemma AcceptedExactly(p: Measurement)
    ensures Measured(p).Some? <==>
      p.number.Some? && var n := p.number.value;
      || ((p.metric == T1H || p.metric == TEMP) && (p.unit == DegC || p.unit == DegreeSign) && -90.0 <= n <= 65.0)
      || ((p.metric == REH || p.metric == HUMIDITY) && p.unit == Percent && 0.0 <= n <= 100.0)
      || ((p.metric == WSD || p.metric == WIND_SPEED)
          && (((p.unit == MeterSecond || p.unit == MeterPerSecond) && 0.0 <= n <= 150.0)
              || (p.unit == KmPerHour && 0.0 <= n <= 540.0)))
      || (p.kma && p.nowcastSet && p.metric == RN1 && p.unit == Mm && p.target % 3600000000 == 0 && 0.0 <= n <= 1000.0)
      || (p.metric == SKY && p.unit == Code && (n == 1.0 || n == 3.0 || n == 4.0))
    ensures Measured(p).Some? ==>
      var (field, value, _) := Measured(p).value;
      && (field == Temp <==> p.metric == T1H || p.metric == TEMP)
      && (field == Humidity <==> p.metric == REH || p.metric == HUMIDITY)
      && (field == Wind <==> p.metric == WSD || p.metric == WIND_SPEED)
      && (field == Precip <==> p.metric == RN1) && (field == Sky <==> p.metric == SKY)
      && p.number.value == (if field == Wind && p.unit == KmPerHour then value * 3.6 else value)
    ensures Observation(p).Some? ==> p.style != OtherStyle && Measured(p).Some?
    ensures p.style != OtherStyle && Measured(p).Some? ==>
      (Observation(p).Some? <==> 5 <= LocalHour(Measured(p).value.2) <= 22)
  {
  }

  // ---- merging --------------------------------------------------------------

  /** A point that this merge looks at. */
  predicate Counts(p: Measurement, key: Key, now: Time) {
    p.target <= now && Observation(p).Some? && Observation(p).value.key == key
  }

  function Put(state: State, o: Parsed): State {
    var row := if o.hour in state then state[o.hour] else map[];
    if o.field in row && !Lower(o.cell.rank, row[o.field].rank) then state[o.hour := row]
    else state[o.hour := row[o.field := o.cell]]
  }

  function Merged(state: State, points: seq<Measurement>, key: Key, now: Time): State {
    if points == [] then state
    else
      var before := Merged(state, points[..|points| - 1], key, now);
      var p := points[|points| - 1];
      if Counts(p, key, now) then Put(before, Observation(p).value) else before
  }

  /** `merge_observations`, point by point into one dictionary. */
  method MergeObservations(state: State, points: seq<Measurement>, key: Key, now: Time) returns (result: State)
    ensures result == Merged(state, points, key, now)
  {
    result := state;
    var i := 0;
    while i < |points|
      invariant 0 <= i <= |points|
      invariant result == Merged(state, points[..i], key, now)
    {
      var p := points[i];
      assert points[..i + 1][..i] == points[..i];
      i := i + 1;
      if p.target > now {
        continue;
      }
      var parsed := Observation(p);
      if parsed.None? || parsed.value.key != key {
        continue;
      }
      var Parsed(_, hour, field, candidate) := parsed.value;
      if hour !in result {
        result := result[hour := map[]];
      }
      if field !in result[hour] || Lower(candidate.rank, result[hour][field].rank) {
        result := result[hour := result[hour][field := candidate]];
      }
    }
    assert points[..|points|] == points;
  }

  function Members(points: seq<Measurement>): set<Measurement> {
    set p | p in points
  }

  /** Points seen by one merge call, at that call's clock. */
  datatype Batch = Batch(points: seq<Measurement>, now: Time)

  function MergeAll(batches: seq<Batch>, key: Key): State {
    if batches == [] then map[]
    else
      var last := batches[|batches| - 1];
      Merged(MergeAll(batches[..|batches| - 1], key), last.points, key, last.now)
  }

  // ---- winners --------------------------------------------------------------

  function Offer(p: Measurement, key: Key): Option<(nat, Field, Cell)> {
    var o := Observation(p);
    if o.Some? && o.value.key == key then Some((o.value.hour, o.value.field, o.value.cell)) else None
  }

  /** At one hour and field, `state` holds exactly the offer of least rank among `offered`. */
  ghost predicate WinnerAt(state: State, offered: set<Measurement>, key: Key, h: nat, f: Field) {
    && (Has(state, h, f) <==> exists p :: p in offered && At(p, key, h, f))
    && (Has(state, h, f) ==> exists p :: p in offered && At(p, key, h, f) && Offer(p, key).value.2 == state[h][f])
    && (Has(state, h, f) ==> forall p | p in offered && At(p, key, h, f) ::
          !Lower(Offer(p, key).value.2.rank, state[h][f].rank))
  }

  ghost predicate Winners(state: State, offered: set<Measurement>, key: Key) {
    && (forall h, f :: WinnerAt(state, offered, key, h, f))
    && (forall h | h in state :: state[h] != map[])
  }

  ghost predicate Has(state: State, h: nat, f: Field) {
    h in state && f in state[h]
  }

  ghost predicate At(p: Measurement, key: Key, h: nat, f: Field) {
    Offer(p, key).Some? && Offer(p, key).value.0 == h && Offer(p, key).value.1 == f
  }

  /** Equal content hashes mean equal points. */
  ghost predicate HashesTell(points: set<Measurement>) {
    forall p, q | p in points && q in points && p.digest == q.digest :: p == q
  }

  lemma RankTotal(a: Rank, b: Rank)
    ensures Lower(a, b) || Lower(b, a) || a == b
    ensures !(Lower(a, b) && Lower(b, a)) && !Lower(a, a)
  {
  }

  lemma RankTransitive(a: Rank, b: Rank, c: Rank)
    requires !Lower(b, a) && !Lower(c, b)
    ensures !Lower(c, a)
  {
  }

  lemma PutWinnerAt(state: State, offered: set<Measurement>, key: Key, p: Measurement, h: nat, f: Field)
    requires WinnerAt(state, offered, key, h, f) && Offer(p, key).Some?
    ensures WinnerAt(Put(state, Observation(p).value), offered + {p}, key, h, f)
  {
    hide Observation, Lower;
    var (h0, f0, cell) := Offer(p, key).value;
    var now := Put(state, Observation(p).value);
    RankTotal(cell.rank, cell.rank);
    if h == h0 && f == f0 {
      assert At(p, key, h, f) && Has(now, h, f);
      if Has(state, h, f) {
        var was := state[h][f];
        RankTotal(cell.rank, was.rank);
        var w :| w in offered && At(w, key, h, f) && Offer(w, key).value.2 == was;
        assert w in offered + {p};
        forall q | q in offered + {p} && At(q, key, h, f)
          ensures !Lower(Offer(q, key).value.2.rank, now[h][f].rank)
        {
          if q in offered && Lower(cell.rank, was.rank) {
            RankTransitive(cell.rank, was.rank, Offer(q, key).value.2.rank);
          }
        }
      }
    } else {
      assert Has(now, h, f) <==> Has(state, h, f);
      assert forall q | q in offered + {p} && At(q, key, h, f) :: q in offered;
    }
  }

  lemma PutWinner(state: State, offered: set<Measurement>, key: Key, p: Measurement)
    requires Winners(state, offered, key)
    ensures Winners(if Offer(p, key).Some? then Put(state, Observation(p).value) else state, offered + {p}, key)
  {
    hide Observation, WinnerAt, Lower;
    var now := if Offer(p, key).Some? then Put(state, Observation(p).value) else state;
    forall h, f
      ensures WinnerAt(now, offered + {p}, key, h, f)
    {
      assert WinnerAt(state, offered, key, h, f);
      if Offer(p, key).Some? {
        PutWinnerAt(state, offered, key, p, h, f);
      } else {
        NotOffered(state, offered, key, p, h, f);
      }
    }
  }

  lemma NotOffered(state: State, offered: set<Measurement>, key: Key, p: Measurement, h: nat, f: Field)
    requires WinnerAt(state, offered, key, h, f) && Offer(p, key).None?
    ensures WinnerAt(state, offered + {p}, key, h, f)
  {
    hide Observation, Lower;
  }

  /** The points of a batch that its merge looks at: none read before its own target time. */
  function Timely(points: seq<Measurement>, now: Time): set<Measurement> {
    set p | p in points && p.target <= now
  }

  lemma {:induction false} MergedWinners(state: State, offered: set<Measurement>, points: seq<Measurement>, key: Key,
                                         now: Time)
    requires Winners(state, offered, key)
    ensures Winners(Merged(state, points, key, now), offered + Timely(points, now), key)
  {
    hide Winners, Put;
    if points == [] {
      assert offered + Timely(points, now) == offered;
    } else {
      var front := points[..|points| - 1];
      var p := points[|points| - 1];
      MergedWinners(state, offered, front, key, now);
      if p.target <= now {
        PutWinner(Merged(state, front, key, now), offered + Timely(front, now), key, p);
        assert offered + Timely(front, now) + {p} == offered + Timely(points, now);
      } else {
        assert Timely(front, now) == Timely(points, now);
      }
    }
  }

  function PointsOf(batches: seq<Batch>): set<Measurement> {
    if batches == [] then {}
    else PointsOf(batches[..|batches| - 1]) + Members(batches[|batches| - 1].points)
  }

  /** Every point that was in time for some batch it was in. */
  function TimelyPoints(batches: seq<Batch>): set<Measurement> {
    if batches == [] then {}
    else
      var last := batches[|batches| - 1];
      TimelyPoints(batches[..|batches| - 1]) + Timely(last.points, last.now)
  }

  lemma {:induction false} TimelyAre(batches: seq<Batch>)
    ensures forall p :: p in TimelyPoints(batches) <==>
              exists i :: 0 <= i < |batches| && p in batches[i].points && p.target <= batches[i].now
    ensures TimelyPoints(batches) <= PointsOf(batches)
  {
    if batches != [] {
      var front := batches[..|batches| - 1];
      TimelyAre(front);
      var last := batches[|batches| - 1];
      forall p
        ensures p in TimelyPoints(batches) <==>
                  exists i :: 0 <= i < |batches| && p in batches[i].points && p.target <= batches[i].now
      {
        if p in TimelyPoints(front) {
          var i :| 0 <= i < |front| && p in front[i].points && p.target <= front[i].now;
          assert p in batches[i].points && p.target <= batches[i].now;
        }
        if p in Timely(last.points, last.now) {
          assert p in batches[|batches| - 1].points && p.target <= batches[|batches| - 1].now;
        }
        if i :| 0 <= i < |batches| && p in batches[i].points && p.target <= batches[i].now {
          if i < |front| {
            assert p in front[i].points && p.target <= front[i].now;
          }
        }
      }
    }
  }

  /** However observations are split into batches and ordered, whatever the clocks of the merges,
      the state is the least-rank winner of every hour and field among the timely points. */
  lemma {:induction false} BatchesWinners(batches: seq<Batch>, key: Key)
    ensures Winners(MergeAll(batches, key), TimelyPoints(batches), key)
  {
    if batches != [] {
      var front := batches[..|batches| - 1];
      var last := batches[|batches| - 1];
      BatchesWinners(front, key);
      hide Winners;
      MergedWinners(MergeAll(front, key), TimelyPoints(front), last.points, key, last.now);
    }
  }

  /** `p` is offered at hour `h` and field `f`, and no offer of `offered` there comes first by the
      source's rule: the provider earlier in the list, then the later target, then what became
      known later, then the smaller content hash. */
  ghost predicate First(p: Measurement, offered: set<Measurement>, key: Key, h: nat, f: Field) {
    p in offered && At(p, key, h, f) &&
    forall q | q in offered && At(q, key, h, f) ::
      var a, b := if p.provider < 14 then p.provider else 14, if q.provider < 14 then q.provider else 14;
      && a <= b
      && (a == b ==> p.target >= q.target)
      && (a == b && p.target == q.target ==> p.known >= q.known)
      && (a == b && p.target == q.target && p.known == q.known ==> p.digest <= q.digest)
  }

  /** After any merges, an hour and field holds the value of the first timely offer, and holds
      nothing exactly when there is none. */
  lemma FirstTimelyWins(batches: seq<Batch>, key: Key, h: nat, f: Field)
    ensures var state := MergeAll(batches, key);
            var timely := TimelyPoints(batches);
      if Has(state, h, f)
      then exists p :: First(p, timely, key, h, f) && Offer(p, key).value.2 == state[h][f]
      else forall p | p in timely :: !At(p, key, h, f)
  {
    var state := MergeAll(batches, key);
    var timely := TimelyPoints(batches);
    BatchesWinners(batches, key);
    assert WinnerAt(state, timely, key, h, f);
    hide MergeAll, TimelyPoints, Winners;
    if Has(state, h, f) {
      var p :| p in timely && At(p, key, h, f) && Offer(p, key).value.2 == state[h][f];
      WinnerIsFirst(state, timely, key, h, f, p);
    }
  }

  lemma WinnerIsFirst(state: State, offered: set<Measurement>, key: Key, h: nat, f: Field, p: Measurement)
    requires WinnerAt(state, offered, key, h, f) && Has(state, h, f)
    requires p in offered && At(p, key, h, f) && Offer(p, key).value.2 == state[h][f]
    ensures First(p, offered, key, h, f)
  {
    OfferFields(p, key);
    forall q | q in offered && At(q, key, h, f)
      ensures var a, b := if p.provider < 14 then p.provider else 14, if q.provider < 14 then q.provider else 14;
        && a <= b
        && (a == b ==> p.target >= q.target)
        && (a == b && p.target == q.target ==> p.known >= q.known)
        && (a == b && p.target == q.target && p.known == q.known ==> p.digest <= q.digest)
    {
      OfferFields(q, key);
      hide Observation, Offer;
      assert !Lower(Offer(q, key).value.2.rank, state[h][f].rank);
    }
  }

  lemma OfferFields(p: Measurement, key: Key)
    requires Offer(p, key).Some?
    ensures var (_, f, cell) := Offer(p, key).value;
      cell.rank == Rank(if p.provider < 14 then p.provider else 14,
                        if f == Precip then p.target - 3600000000 else p.target, p.known, p.digest)
  {
    FiledUnder(p);
  }

  /** Every point offered, also one that was never in time, is beaten or equalled by a timely one. */
  ghost predicate LateAreBeaten(batches: seq<Batch>, key: Key) {
    forall h, f :: AllBeaten(PointsOf(batches), TimelyPoints(batches), key, h, f)
  }

  ghost predicate AllBeaten(offered: set<Measurement>, rivals: set<Measurement>, key: Key, h: nat, f: Field) {
    forall p | p in offered && At(p, key, h, f) :: Beaten(p, rivals, key, h, f)
  }

  ghost predicate Beaten(p: Measurement, rivals: set<Measurement>, key: Key, h: nat, f: Field)
    requires At(p, key, h, f)
  {
    exists q :: q in rivals && At(q, key, h, f) && !Lower(RankOf(p, key), RankOf(q, key))
  }

  ghost function RankOf(p: Measurement, key: Key): Rank
    requires Offer(p, key).Some?
  {
    Offer(p, key).value.2.rank
  }

  lemma RivalBeats(state: State, some: set<Measurement>, key: Key, h: nat, f: Field, p: Measurement)
    requires WinnerAt(state, some, key, h, f) && At(p, key, h, f)
    ensures Beaten(p, some, key, h, f) <==> Has(state, h, f) && !Lower(RankOf(p, key), state[h][f].rank)
  {
    hide Observation, Lower, Offer;
    if Beaten(p, some, key, h, f) {
      var q :| q in some && At(q, key, h, f) && !Lower(RankOf(p, key), RankOf(q, key));
      RankTransitive(state[h][f].rank, RankOf(q, key), RankOf(p, key));
    }
    if Has(state, h, f) {
      var q :| q in some && At(q, key, h, f) && Offer(q, key).value.2 == state[h][f];
      assert RankOf(q, key) == state[h][f].rank;
    }
  }

  /** The winner among some points is the winner among more exactly when the others are beaten. */
  lemma WinnerAmongMore(state: State, some: set<Measurement>, more: set<Measurement>, key: Key, h: nat, f: Field)
    requires WinnerAt(state, some, key, h, f) && some <= more
    ensures WinnerAt(state, more, key, h, f) <==> AllBeaten(more, some, key, h, f)
  {
    hide Observation, Lower, Offer, Beaten;
    forall p | p in more && At(p, key, h, f)
      ensures Beaten(p, some, key, h, f) <==> Has(state, h, f) && !Lower(RankOf(p, key), state[h][f].rank)
    {
      RivalBeats(state, some, key, h, f, p);
    }
  }

  /** The state is that of all points offered exactly when no point that came too early would have
      won. */
  lemma AllWinnersExactly(batches: seq<Batch>, key: Key)
    ensures Winners(MergeAll(batches, key), PointsOf(batches), key) <==> LateAreBeaten(batches, key)
  {
    hide TimelyPoints, PointsOf, MergeAll, WinnerAt, AllBeaten;
    var state := MergeAll(batches, key);
    BatchesWinners(batches, key);
    TimelyAre(batches);
    forall h, f
      ensures WinnerAt(state, PointsOf(batches), key, h, f)
         <==> AllBeaten(PointsOf(batches), TimelyPoints(batches), key, h, f)
    {
      assert WinnerAt(state, TimelyPoints(batches), key, h, f);
      WinnerAmongMore(state, TimelyPoints(batches), PointsOf(batches), key, h, f);
    }
  }

  lemma OneWinner(a: State, b: State, offered: set<Measurement>, key: Key, h: nat, f: Field)
    requires WinnerAt(a, offered, key, h, f) && WinnerAt(b, offered, key, h, f) && HashesTell(offered)
    ensures Has(a, h, f) <==> Has(b, h, f)
    ensures Has(a, h, f) ==> a[h][f] == b[h][f]
  {
    if !Has(a, h, f) { return; }
    var p :| p in offered && At(p, key, h, f) && Offer(p, key).value.2 == a[h][f];
    var q :| q in offered && At(q, key, h, f) && Offer(q, key).value.2 == b[h][f];
    RankTotal(a[h][f].rank, b[h][f].rank);
    assert a[h][f].rank.digest == p.digest && b[h][f].rank.digest == q.digest;
  }

  /** The winners are determined by the set of points alone. */
  lemma WinnersUnique(a: State, b: State, offered: set<Measurement>, key: Key)
    requires Winners(a, offered, key) && Winners(b, offered, key) && HashesTell(offered)
    ensures a == b
  {
    hide WinnerAt;
    forall h, f
      ensures Has(a, h, f) <==> Has(b, h, f)
      ensures Has(a, h, f) ==> a[h][f] == b[h][f]
    {
      assert WinnerAt(a, offered, key, h, f) && WinnerAt(b, offered, key, h, f);
      OneWinner(a, b, offered, key, h, f);
    }
    forall h
      ensures h in a <==> h in b
    {
      if h in a {
        var f :| f in a[h];
        assert Has(a, h, f);
      }
      if h in b {
        var f :| f in b[h];
        assert Has(b, h, f);
      }
    }
    forall h | h in a
      ensures a[h] == b[h]
    {
      forall f
        ensures f in a[h] <==> f in b[h]
        ensures f in a[h] ==> a[h][f] == b[h][f]
      {
        assert Has(a, h, f) <==> Has(b, h, f);
      }
    }
  }

  /** Order and batching do not matter: two histories with the same timely observations end in
      the same state, whatever else came too early. */
  lemma OrderAndBatchesDoNotMatter(one: seq<Batch>, other: seq<Batch>, key: Key)
    requires TimelyPoints(one) == TimelyPoints(other) && HashesTell(TimelyPoints(one))
    ensures MergeAll(one, key) == MergeAll(other, key)
  {
    BatchesWinners(one, key);
    BatchesWinners(other, key);
    WinnersUnique(MergeAll(one, key), MergeAll(other, key), TimelyPoints(one), key);
  }

  /** When no observation is in the future of its batch, the timely ones are all of them. */
  lemma NoneTooEarly(batches: seq<Batch>)
    requires forall i, p | 0 <= i < |batches| && p in batches[i].points :: p.target <= batches[i].now
    ensures TimelyPoints(batches) == PointsOf(batches)
  {
    if batches != [] {
      var front := batches[..|batches| - 1];
      assert forall i | 0 <= i < |front| :: front[i] == batches[i];
      NoneTooEarly(front);
      var last := batches[|batches| - 1];
      assert forall p | p in last.points :: p in batches[|batches| - 1].points;
    }
  }

  /** So then the state is the winner of everything offered. */
  lemma NoneEarlyAllWin(batches: seq<Batch>, key: Key)
    requires forall i, p | 0 <= i < |batches| && p in batches[i].points :: p.target <= batches[i].now
    ensures Winners(MergeAll(batches, key), PointsOf(batches), key)
  {
    NoneTooEarly(batches);
    BatchesWinners(batches, key);
  }

  // ---- idempotence, for any state and any clock ------------------------------

  /** No counted point would still change the state. */
  ghost predicate Settled(state: State, points: seq<Measurement>, key: Key, now: Time) {
    forall p | p in points && Counts(p, key, now) ::
      var o := Observation(p).value;
      Has(state, o.hour, o.field) && !Lower(o.cell.rank, state[o.hour][o.field].rank)
  }

  lemma PutSettles(state: State, points: seq<Measurement>, key: Key, now: Time, p: Measurement)
    requires Settled(state, points, key, now) && Counts(p, key, now)
    ensures Settled(Put(state, Observation(p).value), points + [p], key, now)
  {
    hide Observation, Lower;
    var o := Observation(p).value;
    RankTotal(o.cell.rank, o.cell.rank);
    forall q | q in points + [p] && Counts(q, key, now)
      ensures var r := Observation(q).value;
              Has(Put(state, o), r.hour, r.field)
              && !Lower(r.cell.rank, Put(state, o)[r.hour][r.field].rank)
    {
      var r := Observation(q).value;
      if q in points && r.hour == o.hour && r.field == o.field {
        var was := state[o.hour][o.field].rank;
        RankTotal(o.cell.rank, was);
        if Lower(o.cell.rank, was) {
          RankTransitive(o.cell.rank, was, r.cell.rank);
        }
      }
    }
  }

  lemma {:induction false} MergeSettles(state: State, points: seq<Measurement>, key: Key, now: Time)
    ensures Settled(Merged(state, points, key, now), points, key, now)
  {
    hide Put;
    if points != [] {
      var front := points[..|points| - 1];
      var p := points[|points| - 1];
      MergeSettles(state, front, key, now);
      assert points == front + [p];
      if Counts(p, key, now) {
        PutSettles(Merged(state, front, key, now), front, key, now, p);
      }
    }
  }

  lemma {:induction false} SettledStays(state: State, points: seq<Measurement>, key: Key, now: Time)
    requires Settled(state, points, key, now)
    ensures Merged(state, points, key, now) == state
  {
    if points != [] {
      var front := points[..|points| - 1];
      var p := points[|points| - 1];
      assert p in points && forall q | q in front :: q in points;
      SettledStays(state, front, key, now);
    }
  }

  /** Merging the same points again changes nothing. */
  lemma MergeIsIdempotent(state: State, points: seq<Measurement>, key: Key, now: Time)
    ensures var once := Merged(state, points, key, now);
            Merged(once, points, key, now) == once
  {
    MergeSettles(state, points, key, now);
    SettledStays(Merged(state, points, key, now), points, key, now);
  }

  // ---- the size of the state -------------------------------------------------

  /** Only hours of the slot; each with at most the five fields. */
  ghost predicate InSlot(state: State, slot: Slot) {
    forall h | h in state :: SlotStart(slot) <= h < SlotEnd(slot)
  }

  lemma {:induction false} MergeStaysInSlot(state: State, points: seq<Measurement>, key: Key, now: Time)
    requires InSlot(state, key.slot)
    ensures InSlot(Merged(state, points, key, now), key.slot)
  {
    if points != [] {
      MergeStaysInSlot(state, points[..|points| - 1], key, now);
    }
  }

  lemma {:induction false} IntervalSize(s: set<nat>, lo: nat, hi: nat)
    requires lo <= hi && forall x | x in s :: lo <= x < hi
    ensures |s| <= hi - lo
    ensures |s| == hi - lo <==> forall x | lo <= x < hi :: x in s
    decreases hi - lo
  {
    if lo == hi {
      assert s == {};
    } else {
      IntervalSize(s - {lo}, lo + 1, hi);
      assert forall x | lo < x < hi :: x in s - {lo} <==> x in s;
      if lo in s {
        assert |s| == |s - {lo}| + 1;
        assert (forall x | lo <= x < hi :: x in s) <==> forall x | lo + 1 <= x < hi :: x in s - {lo};
      } else {
        assert s - {lo} == s;
      }
    }
  }

  lemma FieldCount(row: map<Field, Cell>)
    ensures |row| <= 5
  {
    var all := {Temp, Humidity, Wind, Precip, Sky};
    forall f | f in row.Keys ensures f in all {
      match f case Temp => case Humidity => case Wind => case Precip => case Sky =>
    }
    SubsetSize(row.Keys, all);
  }

  lemma {:induction false} AllInSlot(batches: seq<Batch>, key: Key)
    ensures InSlot(MergeAll(batches, key), key.slot)
  {
    if batches != [] {
      var front, last := batches[..|batches| - 1], batches[|batches| - 1];
      AllInSlot(front, key);
      MergeStaysInSlot(MergeAll(front, key), last.points, key, last.now);
    }
  }

  /** At most six hours with at most five winners each, whatever is merged into the stored state,
      in however many calls and at whatever clocks. */
  lemma AtMostSixHoursOfFive(batches: seq<Batch>, key: Key)
    ensures var state := MergeAll(batches, key);
            |state| <= 6 && forall h | h in state :: |state[h]| <= 5
  {
    var state := MergeAll(batches, key);
    AllInSlot(batches, key);
    IntervalSize(state.Keys, SlotStart(key.slot), SlotEnd(key.slot));
    forall h | h in state ensures |state[h]| <= 5 { FieldCount(state[h]); }
  }

  // ---- an observation from the future ----------------------------------------

  /** A point read before its target time is dropped for good: merged a moment later it would
      have won, so only the timely points decide. */
  lemma FutureObservationIsLost()
    ensures exists p: Measurement, key: Key, now: Time, later: Time ::
      now < p.target <= later
      && MergeAll([Batch([p], now), Batch([], later)], key) != MergeAll([Batch([p], later)], key)
  {
    var p := Measurement(1, 0, true, true, Observed, T1H, DegC, Some(20.0), false, 10 * HOUR - SEOUL, 0, 7);
    var key := Key(1, 0, Morning);
    var o := Observation(p).value;
    assert LocalHour(p.target) == 10 && LocalDay(p.target) == 0;
    assert Observation(p).Some? && o.key == key;
    var early := p.target - 1;
    var one := [Batch([p], early), Batch([], p.target)];
    var other := [Batch([p], p.target)];
    assert one[..1] == [Batch([p], early)] && one[..1][..0] == [] && other[..0] == [];
    assert [p][..0] == [];
    assert !Counts(p, key, early) && Merged(map[], [p], key, early) == Merged(map[], [p][..0], key, early);
    assert one[..1][0] == Batch([p], early);
    assert MergeAll(one[..1], key) == map[];
    assert MergeAll(one, key) == map[];
    assert 10 in MergeAll(other, key);
    assert early < p.target <= p.target && MergeAll(one, key) != MergeAll(other, key);
  }
}
