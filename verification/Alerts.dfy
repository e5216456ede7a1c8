/** Active weather alerts: a feed of announcements and releases is reduced, newest first, to
    one state per station and warning name. */
module Alerts {
  import opened ExportTypes

  /** An alert fact.  `names` are the warning names of its title, `release` whether it lifts
      them; `valueId` is its identity key, which does not cover title or known time. */
  datatype Row = Row(
    station: nat, names: seq<nat>, release: bool, event: Time, known: Time, source: nat,
    valueId: nat, validUntil: Option<Time>)

  datatype Warning = Warning(station: nat, name: nat)

  /** Expired and stale announcements are dropped; releases are kept as tombstones. */
  predicate Prepared(r: Row, now: Time, maxAge: Option<nat>) {
    || r.release
    || (match r.validUntil
        case Some(until) => until > now
        case None => maxAge.None? || r.event >= now - maxAge.value)
  }

  /** The order of the reduction. */
  predicate Newer(a: Row, b: Row) {
    || a.event > b.event
    || (a.event == b.event
        && (|| a.known > b.known
            || (a.known == b.known && (a.source > b.source || (a.source == b.source && a.valueId > b.valueId)))))
  }

  /** The order of the result. */
  predicate Above(a: Row, b: Row) {
    || a.event > b.event
    || (a.event == b.event && (a.known > b.known || (a.known == b.known && a.valueId > b.valueId)))
  }

  predicate Covers(r: Row, id: Warning) {
    r.station == id.station && id.name in r.names
  }

  // ---- `sort(reverse=True)`: descending, equal keys keep their order ----------

  function Insert(sorted: seq<Row>, r: Row, before: (Row, Row) -> bool): seq<Row> {
    if sorted == [] || !before(r, sorted[|sorted| - 1]) then sorted + [r]
    else Insert(sorted[..|sorted| - 1], r, before) + [sorted[|sorted| - 1]]
  }

  function Sort(rows: seq<Row>, before: (Row, Row) -> bool): seq<Row> {
    if rows == [] then [] else Insert(Sort(rows[..|rows| - 1], before), rows[|rows| - 1], before)
  }

  ghost predicate Descending(rows: seq<Row>, before: (Row, Row) -> bool) {
    forall i, j | 0 <= i < j < |rows| :: !before(rows[j], rows[i])
  }

  ghost predicate StrictWeak(before: (Row, Row) -> bool) {
    && (forall a: Row, b: Row :: before(a, b) ==> !before(b, a))
    && (forall a: Row, b: Row, c: Row :: !before(b, a) && !before(c, b) ==> !before(c, a))
  }

  lemma {:induction false} InsertContent(sorted: seq<Row>, r: Row, before: (Row, Row) -> bool)
    ensures multiset(Insert(sorted, r, before)) == multiset(sorted) + multiset{r}
  {
    if sorted != [] && before(r, sorted[|sorted| - 1]) {
      var front := sorted[..|sorted| - 1];
      InsertContent(front, r, before);
      assert sorted == front + [sorted[|sorted| - 1]];
    }
  }

  lemma InsertMembers(sorted: seq<Row>, r: Row, before: (Row, Row) -> bool)
    ensures forall x :: x in Insert(sorted, r, before) <==> x in sorted || x == r
  {
    InsertContent(sorted, r, before);
    forall x ensures x in Insert(sorted, r, before) <==> x in sorted || x == r {
      assert x in Insert(sorted, r, before) <==> x in multiset(Insert(sorted, r, before));
      assert x in sorted <==> x in multiset(sorted);
    }
  }

  lemma AppendDescending(rows: seq<Row>, last: Row, before: (Row, Row) -> bool)
    requires Descending(rows, before) && forall x | x in rows :: !before(last, x)
    ensures Descending(rows + [last], before)
  {
  }

  lemma {:induction false} InsertDescending(sorted: seq<Row>, r: Row, before: (Row, Row) -> bool)
    requires Descending(sorted, before) && StrictWeak(before)
    ensures Descending(Insert(sorted, r, before), before)
  {
    if sorted != [] {
      var front := sorted[..|sorted| - 1];
      var last := sorted[|sorted| - 1];
      assert sorted == front + [last];
      if before(r, last) {
        InsertDescending(front, r, before);
        InsertMembers(front, r, before);
        AppendDescending(Insert(front, r, before), last, before);
      } else {
        forall x | x in sorted ensures !before(r, x) {
          assert x == last || !before(last, x);
        }
        AppendDescending(sorted, r, before);
      }
    }
  }

  lemma {:induction false} SortSorts(rows: seq<Row>, before: (Row, Row) -> bool)
    requires StrictWeak(before)
    ensures Descending(Sort(rows, before), before)
    ensures multiset(Sort(rows, before)) == multiset(rows)
  {
    if rows != [] {
      var front := rows[..|rows| - 1];
      SortSorts(front, before);
      InsertDescending(Sort(front, before), rows[|rows| - 1], before);
      InsertContent(Sort(front, before), rows[|rows| - 1], before);
      assert rows == front + [rows[|rows| - 1]];
    }
  }

  lemma SortMembers(rows: seq<Row>, before: (Row, Row) -> bool)
    requires StrictWeak(before)
    ensures forall x :: x in Sort(rows, before) <==> x in rows
  {
    SortSorts(rows, before);
    forall x ensures x in Sort(rows, before) <==> x in rows {
      assert x in Sort(rows, before) <==> x in multiset(Sort(rows, before));
      assert x in rows <==> x in multiset(rows);
    }
  }

  lemma OrdersAreStrict()
    ensures StrictWeak(Newer) && StrictWeak(Above)
  {
  }

  // ---- the reduction ---------------------------------------------------------

  /** The newest row of an identity in a list sorted newest first. */
  function First(rows: seq<Row>, id: Warning): Option<Row> {
    if rows == [] then None
    else
      var earlier := First(rows[..|rows| - 1], id);
      if earlier.Some? then earlier
      else if Covers(rows[|rows| - 1], id) then Some(rows[|rows| - 1])
      else None
  }

  predicate Wins(before: seq<Row>, r: Row) {
    !r.release && exists n | n in r.names :: First(before, Warning(r.station, n)).None?
  }

  /** The announcements that decide at least one identity, newest first. */
  function Winners(rows: seq<Row>): seq<Row> {
    if rows == [] then []
    else
      var front := rows[..|rows| - 1];
      var r := rows[|rows| - 1];
      Winners(front) + (if Wins(front, r) then [r] else [])
  }

  /** A dictionary keyed by value id, filled in order: a later row replaces an earlier one. */
  function Unique(values: seq<Row>): map<nat, Row> {
    if values == [] then map[]
    else Unique(values[..|values| - 1])[values[|values| - 1].valueId := values[|values| - 1]]
  }

  function PreparedRows(rows: seq<Row>, now: Time, maxAge: Option<nat>): seq<Row> {
    if rows == [] then []
    else
      var r := rows[|rows| - 1];
      PreparedRows(rows[..|rows| - 1], now, maxAge) + (if Prepared(r, now, maxAge) then [r] else [])
  }

  function Feed(rows: seq<Row>, now: Time, maxAge: Option<nat>): seq<Row> {
    Sort(PreparedRows(rows, now, maxAge), Newer)
  }

  /** The inner loop: the names of one row that nothing newer has decided. */
  method DecideNames(r: Row, before: map<Warning, bool>, chosen: map<Warning, Row>)
    returns (state: map<Warning, bool>, selected: map<Warning, Row>, won: bool)
    requires forall id :: id in chosen <==> id in before && before[id]
    ensures forall id :: id in state <==> id in before || Covers(r, id)
    ensures forall id | id in state :: state[id] == if id in before then before[id] else !r.release
    ensures forall id :: id in selected <==> id in state && state[id]
    ensures forall id | id in selected :: selected[id] == if id in before then chosen[id] else r
    ensures won <==> !r.release && exists n | n in r.names :: Warning(r.station, n) !in before
  {
    state, selected, won := before, chosen, false;
    var j := 0;
    while j < |r.names|
      invariant 0 <= j <= |r.names|
      invariant forall id :: id in state <==> id in before || (id.station == r.station && id.name in r.names[..j])
      invariant forall id | id in state :: state[id] == if id in before then before[id] else !r.release
      invariant forall id :: id in selected <==> id in state && state[id]
      invariant forall id | id in selected :: selected[id] == if id in before then chosen[id] else r
      invariant won <==> !r.release && exists n | n in r.names[..j] :: Warning(r.station, n) !in before
    {
      var id := Warning(r.station, r.names[j]);
      assert r.names[..j + 1] == r.names[..j] + [r.names[j]];
      if id !in state {
        state := state[id := !r.release];
        if !r.release {
          selected := selected[id := r];
          won := true;
        }
      }
      j := j + 1;
    }
    assert r.names[..|r.names|] == r.names;
  }

  /** The outer loop: identities are decided by the first row that names them. */
  method Reduce(rows: seq<Row>) returns (state: map<Warning, bool>, selected: map<Warning, Row>, values: seq<Row>)
    ensures forall id :: id in state <==> First(rows, id).Some?
    ensures forall id | id in state :: state[id] == !First(rows, id).value.release
    ensures forall id :: id in selected <==> id in state && state[id]
    ensures forall id | id in selected :: selected[id] == First(rows, id).value
    ensures values == Winners(rows)
  {
    state, selected, values := map[], map[], [];
    var i := 0;
    while i < |rows|
      invariant 0 <= i <= |rows|
      invariant forall id :: id in state <==> First(rows[..i], id).Some?
      invariant forall id | id in state :: state[id] == !First(rows[..i], id).value.release
      invariant forall id :: id in selected <==> id in state && state[id]
      invariant forall id | id in selected :: selected[id] == First(rows[..i], id).value
      invariant values == Winners(rows[..i])
    {
      var won: bool;
      assert rows[..i + 1][..i] == rows[..i];
      state, selected, won := DecideNames(rows[i], state, selected);
      if won {
        values := values + [rows[i]];
      }
      i := i + 1;
    }
    assert rows[..|rows|] == rows;
  }

  /** What `active_alert_values` returns. */
  ghost predicate IsResult(rows: seq<Row>, now: Time, maxAge: Option<nat>, result: seq<Row>) {
    && (forall r :: r in result <==> r in Unique(Winners(Feed(rows, now, maxAge))).Values)
    && (forall i, j | 0 <= i < j < |result| :: result[i].valueId != result[j].valueId)
    && Latest(result)
  }

  /** Latest event first; of equal events the latest known, then the greatest value id. */
  ghost predicate Latest(result: seq<Row>) {
    forall i, j | 0 <= i < j < |result| ::
      && result[i].event >= result[j].event
      && (result[i].event == result[j].event ==> result[i].known >= result[j].known)
      && (result[i].event == result[j].event && result[i].known == result[j].known ==>
            result[i].valueId >= result[j].valueId)
  }

  lemma LatestIs(result: seq<Row>)
    ensures Latest(result) <==> Descending(result, Above)
  {
    forall i, j | 0 <= i < j < |result|
      ensures Above(result[j], result[i]) <==>
        || result[i].event < result[j].event
        || (result[i].event == result[j].event
            && (result[i].known < result[j].known
                || (result[i].known == result[j].known && result[i].valueId < result[j].valueId)))
    {
    }
  }

  lemma {:induction false} UniqueKeys(values: seq<Row>)
    ensures forall k | k in Unique(values) :: Unique(values)[k].valueId == k && Unique(values)[k] in values
    ensures forall r | r in values :: r.valueId in Unique(values)
  {
    if values != [] {
      var front := values[..|values| - 1];
      UniqueKeys(front);
      assert values == front + [values[|values| - 1]];
    }
  }

  /** The dictionary comprehension over the selected rows. */
  method DistinctValues(values: seq<Row>) returns (distinct: seq<Row>)
    ensures forall r :: r in distinct <==> r in Unique(values).Values
    ensures forall i, j | 0 <= i < j < |distinct| :: distinct[i].valueId != distinct[j].valueId
  {
    var unique: map<nat, Row> := map[];
    var order: seq<nat> := [];
    var i := 0;
    while i < |values|
      invariant 0 <= i <= |values|
      invariant unique == Unique(values[..i])
      invariant forall k :: k in order <==> k in unique
      invariant forall a, b | 0 <= a < b < |order| :: order[a] != order[b]
    {
      assert values[..i + 1][..i] == values[..i];
      if values[i].valueId !in unique {
        order := order + [values[i].valueId];
      }
      unique := unique[values[i].valueId := values[i]];
      i := i + 1;
    }
    assert values[..|values|] == values;
    UniqueKeys(values);
    distinct := seq(|order|, k requires 0 <= k < |order| && order[k] in unique => unique[order[k]]);
    forall r ensures r in distinct <==> r in Unique(values).Values {
      if r in Unique(values).Values {
        var k :| k in unique && unique[k] == r;
        assert k in order;
        var n :| 0 <= n < |order| && order[n] == k;
        assert distinct[n] == r;
      }
      if r in distinct {
        var n :| 0 <= n < |distinct| && distinct[n] == r;
        assert order[n] in order;
      }
    }
    forall a, b | 0 <= a < b < |distinct| ensures distinct[a].valueId != distinct[b].valueId {
      assert order[a] in order && order[b] in order;
    }
  }

  method ActiveAlertValues(rows: seq<Row>, now: Time, maxAge: Option<nat>) returns (result: seq<Row>)
    ensures IsResult(rows, now, maxAge, result)
  {
    var prepared := [];
    var i := 0;
    while i < |rows|
      invariant 0 <= i <= |rows|
      invariant prepared == PreparedRows(rows[..i], now, maxAge)
    {
      assert rows[..i + 1][..i] == rows[..i];
      if Prepared(rows[i], now, maxAge) {
        prepared := prepared + [rows[i]];
      }
      i := i + 1;
    }
    assert rows[..|rows|] == rows;
    prepared := Sort(prepared, Newer);
    var _, _, values := Reduce(prepared);
    var distinct := DistinctValues(values);
    result := Sort(distinct, Above);
    OrdersAreStrict();
    SortSorts(distinct, Above);
    LatestIs(result);
    SortMembers(distinct, Above);
    SortKeepsDistinct(distinct, result);
  }

  lemma SortKeepsDistinct(distinct: seq<Row>, result: seq<Row>)
    requires forall i, j | 0 <= i < j < |distinct| :: distinct[i].valueId != distinct[j].valueId
    requires multiset(result) == multiset(distinct)
    ensures forall i, j | 0 <= i < j < |result| :: result[i].valueId != result[j].valueId
  {
    forall i, j | 0 <= i < j < |result| ensures result[i].valueId != result[j].valueId {
      var a, b := result[i], result[j];
      assert a in multiset(distinct) && b in multiset(distinct);
      assert a in distinct && b in distinct;
      if a == b {
        Twice(result, i, j);
        AtMostOnce(distinct, a);
      }
    }
  }

  lemma Twice(rows: seq<Row>, i: nat, j: nat)
    requires i < j < |rows| && rows[i] == rows[j]
    ensures multiset(rows)[rows[i]] >= 2
  {
    assert rows == rows[..j] + [rows[j]] + rows[j + 1..];
    assert rows[i] in rows[..j];
  }

  lemma {:induction false} AtMostOnce(rows: seq<Row>, r: Row)
    requires forall i, j | 0 <= i < j < |rows| :: rows[i] != rows[j]
    ensures multiset(rows)[r] <= 1
  {
    if rows != [] {
      var front := rows[..|rows| - 1];
      AtMostOnce(front, r);
      assert rows == front + [rows[|rows| - 1]];
      if rows[|rows| - 1] == r {
        assert r !in front;
      }
    }
  }

  // ---- what the result means --------------------------------------------------

  /** No two different rows of the feed are equal in the sort key. */
  ghost predicate Untied(rows: seq<Row>) {
    forall a, b | a in rows && b in rows && a != b ::
      a.event != b.event || a.known != b.known || a.source != b.source || a.valueId != b.valueId
  }

  /** `a` comes no earlier than `b` in event time, then known time, source record and value id. */
  ghost predicate NoEarlier(a: Row, b: Row) {
    && a.event >= b.event
    && (a.event == b.event ==> a.known >= b.known)
    && (a.event == b.event && a.known == b.known ==> a.source >= b.source)
    && (a.event == b.event && a.known == b.known && a.source == b.source ==> a.valueId >= b.valueId)
  }

  lemma NoEarlierIs(a: Row, b: Row)
    ensures NoEarlier(a, b) <==> !Newer(b, a)
  {
  }

  lemma {:induction false} FirstIsNewest(rows: seq<Row>, id: Warning)
    requires Descending(rows, Newer)
    ensures First(rows, id).Some? ==> First(rows, id).value in rows && Covers(First(rows, id).value, id)
    ensures First(rows, id).Some? ==> forall r | r in rows && Covers(r, id) :: !Newer(r, First(rows, id).value)
    ensures First(rows, id).None? ==> forall r | r in rows :: !Covers(r, id)
  {
    if rows != [] {
      var front := rows[..|rows| - 1];
      var last := rows[|rows| - 1];
      FirstIsNewest(front, id);
      assert rows == front + [last];
      if First(front, id).Some? {
        var f := First(front, id).value;
        var i :| 0 <= i < |front| && front[i] == f;
        assert !Newer(rows[|rows| - 1], rows[i]);
      }
    }
  }

  lemma {:induction false} PreparedMembers(rows: seq<Row>, now: Time, maxAge: Option<nat>)
    ensures forall r :: r in PreparedRows(rows, now, maxAge) <==> r in rows && Prepared(r, now, maxAge)
  {
    if rows != [] {
      PreparedMembers(rows[..|rows| - 1], now, maxAge);
      assert rows == rows[..|rows| - 1] + [rows[|rows| - 1]];
    }
  }

  lemma FeedMembers(rows: seq<Row>, now: Time, maxAge: Option<nat>)
    ensures forall r :: r in Feed(rows, now, maxAge) <==> r in rows && Prepared(r, now, maxAge)
    ensures Descending(Feed(rows, now, maxAge), Newer)
  {
    OrdersAreStrict();
    PreparedMembers(rows, now, maxAge);
    SortSorts(PreparedRows(rows, now, maxAge), Newer);
    SortMembers(PreparedRows(rows, now, maxAge), Newer);
  }

  /** A live announcement that no later release lifts. */
  ghost predicate Standing(rows: seq<Row>, now: Time, maxAge: Option<nat>, id: Warning, a: Row) {
    && a in rows && !a.release && a.station == id.station && id.name in a.names
    && (if a.validUntil.Some? then a.validUntil.value > now
        else maxAge.None? || a.event + maxAge.value >= now)
    && forall r | r in rows && r.release && r.station == id.station && id.name in r.names :: NoEarlier(a, r)
  }

  /** The announcement that decides an identity. */
  ghost predicate Decides(rows: seq<Row>, now: Time, maxAge: Option<nat>, id: Warning, a: Row) {
    First(Feed(rows, now, maxAge), id) == Some(a) && !a.release
  }

  /** An identity is active exactly when some live announcement for it has no later release,
      expired releases included; the newest live announcement is the one that decides. */
  lemma ActiveExactly(rows: seq<Row>, now: Time, maxAge: Option<nat>, id: Warning)
    requires Untied(rows)
    ensures (exists a :: Decides(rows, now, maxAge, id, a)) <==> exists a :: Standing(rows, now, maxAge, id, a)
    ensures forall a | Decides(rows, now, maxAge, id, a) ::
              Standing(rows, now, maxAge, id, a)
              && forall b | Standing(rows, now, maxAge, id, b) :: NoEarlier(a, b)
  {
    hide Standing, Decides, NoEarlier, Untied;
    forall a | Decides(rows, now, maxAge, id, a)
      ensures Standing(rows, now, maxAge, id, a)
      ensures forall b | Standing(rows, now, maxAge, id, b) :: NoEarlier(a, b)
    {
      DecidingStands(rows, now, maxAge, id, a);
    }
    if a :| Standing(rows, now, maxAge, id, a) {
      StandingDecides(rows, now, maxAge, id, a);
    }
  }

  lemma StandingIsPrepared(rows: seq<Row>, now: Time, maxAge: Option<nat>, id: Warning)
    ensures forall a | Standing(rows, now, maxAge, id, a) :: a in rows && Prepared(a, now, maxAge) && Covers(a, id)
  {
    hide NoEarlier;
  }

  lemma DecidingStands(rows: seq<Row>, now: Time, maxAge: Option<nat>, id: Warning, a: Row)
    requires Decides(rows, now, maxAge, id, a)
    ensures Standing(rows, now, maxAge, id, a)
    ensures forall b | Standing(rows, now, maxAge, id, b) :: NoEarlier(a, b)
  {
    var feed := Feed(rows, now, maxAge);
    FeedMembers(rows, now, maxAge);
    FirstIsNewest(feed, id);
    StandingIsPrepared(rows, now, maxAge, id);
    forall r ensures NoEarlier(a, r) <==> !Newer(r, a) { NoEarlierIs(a, r); }
    hide Feed, First, Newer, NoEarlier;
    assert a in feed;
  }

  lemma StandingDecides(rows: seq<Row>, now: Time, maxAge: Option<nat>, id: Warning, a: Row)
    requires Untied(rows) && Standing(rows, now, maxAge, id, a)
    ensures exists f :: Decides(rows, now, maxAge, id, f)
  {
    var feed := Feed(rows, now, maxAge);
    FeedMembers(rows, now, maxAge);
    FirstIsNewest(feed, id);
    StandingIsPrepared(rows, now, maxAge, id);
    hide Feed, First;
    assert a in feed && First(feed, id).Some?;
    var f := First(feed, id).value;
    NoEarlierIs(a, f);
    NewerAsymmetric(f, a);
    hide Newer, NoEarlier;
    assert Decides(rows, now, maxAge, id, f);
  }

  lemma NewerAsymmetric(a: Row, b: Row)
    ensures !(Newer(a, b) && Newer(b, a))
  {
  }

  ghost predicate DecidesSome(rows: seq<Row>, r: Row) {
    !r.release && exists id :: First(rows, id) == Some(r)
  }

  lemma {:induction false} WinnersDecide(rows: seq<Row>)
    ensures forall r | r in Winners(rows) :: DecidesSome(rows, r)
    ensures forall id | First(rows, id).Some? && !First(rows, id).value.release ::
              First(rows, id).value in Winners(rows)
  {
    if rows != [] {
      var front := rows[..|rows| - 1];
      var last := rows[|rows| - 1];
      WinnersDecide(front);
      forall r | r in Winners(rows)
        ensures DecidesSome(rows, r)
      {
        if r in Winners(front) {
          assert DecidesSome(front, r);
          var id :| First(front, id) == Some(r);
          assert First(rows, id) == Some(r);
        } else {
          var n :| n in last.names && First(front, Warning(last.station, n)).None?;
          assert First(rows, Warning(last.station, n)) == Some(last);
        }
      }
      forall id | First(rows, id).Some? && !First(rows, id).value.release
        ensures First(rows, id).value in Winners(rows)
      {
        if First(front, id).None? {
          assert Warning(last.station, id.name) == id;
          assert Wins(front, last);
        } else {
          assert First(front, id).value in Winners(front);
        }
      }
    }
  }

  /** Every announcement that decides an identity is reported, exactly when no two of them share
      a value id; and nothing else is reported. */
  lemma ReportedExactly(rows: seq<Row>, now: Time, maxAge: Option<nat>, result: seq<Row>)
    requires IsResult(rows, now, maxAge, result)
    ensures forall r | r in result :: exists id :: Decides(rows, now, maxAge, id, r)
    ensures (forall r, id | Decides(rows, now, maxAge, id, r) :: r in result)
       <==> (forall a, b, i, j | Decides(rows, now, maxAge, i, a) && Decides(rows, now, maxAge, j, b)
                                 && a.valueId == b.valueId :: a == b)
  {
    var winners := Winners(Feed(rows, now, maxAge));
    WinnersDecide(Feed(rows, now, maxAge));
    UniqueKeys(winners);
    assert forall r, id | Decides(rows, now, maxAge, id, r) :: r in winners;
    forall r | r in winners ensures exists id :: Decides(rows, now, maxAge, id, r) {
      assert DecidesSome(Feed(rows, now, maxAge), r);
      var id :| First(Feed(rows, now, maxAge), id) == Some(r);
      assert Decides(rows, now, maxAge, id, r);
    }
    hide Feed, Winners;
    var unique := Unique(winners);
    if forall a, b, i, j | Decides(rows, now, maxAge, i, a) && Decides(rows, now, maxAge, j, b)
                           && a.valueId == b.valueId :: a == b {
      forall r, id | Decides(rows, now, maxAge, id, r) ensures r in result {
        var kept := unique[r.valueId];
        assert kept in winners && kept.valueId == r.valueId;
        var other :| Decides(rows, now, maxAge, other, kept);
        assert r == kept;
      }
    }
    if forall r, id | Decides(rows, now, maxAge, id, r) :: r in result {
      forall a, b, i, j | Decides(rows, now, maxAge, i, a) && Decides(rows, now, maxAge, j, b)
                          && a.valueId == b.valueId
        ensures a == b
      {
        assert a in unique.Values && b in unique.Values;
        assert unique[a.valueId] == a && unique[b.valueId] == b;
      }
    }
  }

  /** Rows with one value id concern the same station and warnings.  The value id covers the
      source record key; the KMA producer derives that key from the station and the title. */
  ghost predicate TitlesAgree(rows: seq<Row>) {
    forall a, b | a in rows && b in rows && a.valueId == b.valueId ::
      a.station == b.station && forall n :: n in a.names <==> n in b.names
  }

  lemma {:induction false} FirstAt(rows: seq<Row>, id: Warning) returns (i: nat)
    requires First(rows, id).Some?
    ensures i < |rows| && rows[i] == First(rows, id).value && Covers(rows[i], id)
    ensures forall k | 0 <= k < i :: !Covers(rows[k], id)
  {
    var front := rows[..|rows| - 1];
    if First(front, id).Some? {
      i := FirstAt(front, id);
    } else {
      i := |rows| - 1;
      NoneCovers(front, id);
    }
  }

  lemma {:induction false} NoneCovers(rows: seq<Row>, id: Warning)
    requires First(rows, id).None?
    ensures forall k | 0 <= k < |rows| :: !Covers(rows[k], id)
  {
    if rows != [] {
      NoneCovers(rows[..|rows| - 1], id);
    }
  }

  /** Two rows for the same warnings cannot both decide one. */
  lemma OneDecides(feed: seq<Row>, i: Warning, j: Warning)
    requires First(feed, i).Some? && First(feed, j).Some?
    requires var a, b := First(feed, i).value, First(feed, j).value;
             a.station == b.station && forall n :: n in a.names <==> n in b.names
    ensures First(feed, i) == First(feed, j)
  {
    var x := FirstAt(feed, i);
    var y := FirstAt(feed, j);
    assert Covers(feed[x], j) && Covers(feed[y], i);
  }

  /** Where rows of one value id carry the same title, as the producer makes them, every deciding
      announcement is reported, however often a row was read again. */
  lemma ReportedWhenTitlesAgree(rows: seq<Row>, now: Time, maxAge: Option<nat>, result: seq<Row>)
    requires IsResult(rows, now, maxAge, result) && TitlesAgree(rows)
    ensures forall r :: r in result <==> exists id :: Decides(rows, now, maxAge, id, r)
  {
    var feed := Feed(rows, now, maxAge);
    FeedMembers(rows, now, maxAge);
    ReportedExactly(rows, now, maxAge, result);
    hide IsResult, Feed, Prepared, First;
    forall a, b, i, j | Decides(rows, now, maxAge, i, a) && Decides(rows, now, maxAge, j, b)
                        && a.valueId == b.valueId
      ensures a == b
    {
      var x := FirstAt(feed, i);
      var y := FirstAt(feed, j);
      assert a in feed && b in feed;
      OneDecides(feed, i, j);
    }
  }

  // ---- the order of the input --------------------------------------------------

  /** Any two different rows of the list can be told apart. */
  ghost predicate Comparable(rows: seq<Row>, before: (Row, Row) -> bool) {
    forall x, y | x in rows && y in rows && x != y :: before(x, y) || before(y, x)
  }

  lemma LastsAgree(a: seq<Row>, b: seq<Row>, before: (Row, Row) -> bool)
    requires Descending(a, before) && Descending(b, before) && multiset(a) == multiset(b)
    requires Comparable(a, before) && a != [] && b != []
    ensures a[|a| - 1] == b[|b| - 1]
  {
    var x, y := a[|a| - 1], b[|b| - 1];
    assert x in multiset(b) && y in multiset(a);
    var i :| 0 <= i < |b| && b[i] == x;
    var j :| 0 <= j < |a| && a[j] == y;
    assert i < |b| - 1 ==> !before(y, x);
    assert j < |a| - 1 ==> !before(x, y);
  }

  lemma FrontCounts(a: seq<Row>)
    requires a != []
    ensures multiset(a[..|a| - 1]) == multiset(a) - multiset{a[|a| - 1]}
    ensures forall x | x in a[..|a| - 1] :: x in a
  {
    assert a == a[..|a| - 1] + [a[|a| - 1]];
  }

  lemma FrontSorted(a: seq<Row>, before: (Row, Row) -> bool)
    requires a != [] && Descending(a, before)
    ensures Descending(a[..|a| - 1], before)
    ensures Comparable(a, before) ==> Comparable(a[..|a| - 1], before)
  {
    FrontCounts(a);
  }

  lemma {:induction false} SortedIsUnique(a: seq<Row>, b: seq<Row>, before: (Row, Row) -> bool)
    requires Descending(a, before) && Descending(b, before) && multiset(a) == multiset(b)
    requires Comparable(a, before)
    ensures a == b
  {
    hide Descending, Comparable;
    assert |a| == |multiset(a)| == |multiset(b)| == |b|;
    if a != [] {
      LastsAgree(a, b, before);
      FrontCounts(a);
      FrontCounts(b);
      FrontSorted(a, before);
      FrontSorted(b, before);
      SortedIsUnique(a[..|a| - 1], b[..|b| - 1], before);
      assert a == a[..|a| - 1] + [a[|a| - 1]];
      assert b == b[..|b| - 1] + [b[|b| - 1]];
    }
  }

  lemma {:induction false} PreparedCounts(rows: seq<Row>, now: Time, maxAge: Option<nat>, r: Row)
    ensures multiset(PreparedRows(rows, now, maxAge))[r] == if Prepared(r, now, maxAge) then multiset(rows)[r] else 0
  {
    if rows != [] {
      PreparedCounts(rows[..|rows| - 1], now, maxAge, r);
      assert rows == rows[..|rows| - 1] + [rows[|rows| - 1]];
    }
  }

  /** Rows may come in any order: without ties the reduction sees the same feed, and the result
      is the same list. */
  lemma InputOrderDoesNotMatter(one: seq<Row>, other: seq<Row>, now: Time, maxAge: Option<nat>,
                                a: seq<Row>, b: seq<Row>)
    requires multiset(one) == multiset(other) && Untied(one)
    requires IsResult(one, now, maxAge, a) && IsResult(other, now, maxAge, b)
    ensures a == b
  {
    SameFeed(one, other, now, maxAge);
    hide Feed;
    SameMembers(a, b);
    forall x, y | x in a && y in a && x != y ensures Above(x, y) || Above(y, x) {
      assert x.valueId != y.valueId;
    }
    SortedIsUnique(a, b, Above);
  }

  lemma SameFeed(one: seq<Row>, other: seq<Row>, now: Time, maxAge: Option<nat>)
    requires multiset(one) == multiset(other) && Untied(one)
    ensures Feed(one, now, maxAge) == Feed(other, now, maxAge)
  {
    OrdersAreStrict();
    var p, q := PreparedRows(one, now, maxAge), PreparedRows(other, now, maxAge);
    SortSorts(p, Newer);
    SortSorts(q, Newer);
    forall r ensures multiset(p)[r] == multiset(q)[r] {
      PreparedCounts(one, now, maxAge, r);
      PreparedCounts(other, now, maxAge, r);
    }
    assert multiset(p) == multiset(q);
    FeedMembers(one, now, maxAge);
    forall x, y | x in Sort(p, Newer) && y in Sort(p, Newer) && x != y ensures Newer(x, y) || Newer(y, x) {
      assert x in Feed(one, now, maxAge) && y in Feed(one, now, maxAge);
    }
    SortedIsUnique(Sort(p, Newer), Sort(q, Newer), Newer);
  }

  lemma SameMembers(a: seq<Row>, b: seq<Row>)
    requires forall r :: r in a <==> r in b
    requires forall i, j | 0 <= i < j < |a| :: a[i].valueId != a[j].valueId
    requires forall i, j | 0 <= i < j < |b| :: b[i].valueId != b[j].valueId
    ensures multiset(a) == multiset(b)
  {
    forall r ensures multiset(a)[r] == multiset(b)[r] {
      AtMostOnce(a, r);
      AtMostOnce(b, r);
      assert r in a <==> r in multiset(a);
      assert r in b <==> r in multiset(b);
    }
  }

  // ---- two titles under one value id ------------------------------------------------------

  const Older := Row(1, [10], false, 100, 5, 7, 7, None)
  const Newest := Row(1, [11], false, 100, 6, 7, 7, None)

  lemma FeedOfTwo()
    ensures Feed([Older, Newest], 200, None) == [Newest, Older]
  {
    var rows := [Older, Newest];
    assert rows[..1] == [Older] && [Older][..0] == [];
    assert PreparedRows([Older], 200, None) == [Older];
    assert PreparedRows(rows, 200, None) == rows;
    assert Insert([], Older, Newer) == [Older];
    assert Sort([Older], Newer) == [Older];
    assert Insert([Older], Newest, Newer) == [Newest, Older];
  }

  lemma WinnersOfTwo()
    ensures Winners([Newest, Older]) == [Newest, Older]
    ensures First([Newest, Older], Warning(1, 11)) == Some(Newest)
  {
    hide Feed, Sort, Insert;
    var feed := [Newest, Older];
    assert feed[..1] == [Newest] && [Newest][..0] == [];
    assert First([Newest], Warning(1, 11)) == Some(Newest);
    assert First([Newest], Warning(1, 10)) == None;
    assert Wins([], Newest) by { assert 11 in Newest.names; }
    assert Wins([Newest], Older) by { assert 10 in Older.names; }
    assert Winners([Newest]) == [Newest];
  }

  lemma UniqueOfTwo()
    ensures Unique([Newest, Older]) == map[7 := Older]
  {
    hide Feed, Sort, Insert, Winners, First;
    assert [Newest, Older][..1] == [Newest] && [Newest][..0] == [];
    assert Unique([Newest]) == map[7 := Newest];
  }

  /** The proviso is needed: of two rows made by hand, with one value id and different titles, both
      decide an identity, the older replaces the newer one, and the newer is not reported.  No
      producer of the repository makes such rows. */
  lemma NewerVersionIsLost(result: seq<Row>)
    requires IsResult([Older, Newest], 200, None, result)
    ensures Untied([Older, Newest])
    ensures Decides([Older, Newest], 200, None, Warning(1, 11), Newest)
    ensures Newest !in result
  {
    hide Feed, Sort, Insert, Winners, First, Unique;
    FeedOfTwo();
    WinnersOfTwo();
    UniqueOfTwo();
    assert Newest.known != Older.known;
    assert Newest !in (map[7 := Older]).Values;
  }
}
