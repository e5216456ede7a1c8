/** The fresh sweep of the publisher: windows of recently finished runs, newest first, and inside
    a window a keyset walk over the attempts that may be promoted. */
module FreshSweep {
  import opened ExportTypes
  import opened SetSize

  /** A row key, compared by finish time and then by id. */
  datatype Key = Key(finished: Time, id: nat)

  predicate Lower(a: Key, b: Key) {
    a.finished < b.finished || (a.finished == b.finished && a.id < b.id)
  }

  predicate Below(k: Key, after: Option<Key>) {
    after.None? || Lower(k, after.value)
  }

  // ---- `ORDER BY ... DESC LIMIT n` --------------------------------------------

  predicate IsGreatest(g: Key, keys: set<Key>) {
    g in keys && forall k | k in keys && k != g :: Lower(k, g)
  }

  lemma GreatestExists(keys: set<Key>)
    requires keys != {}
    ensures exists g :: IsGreatest(g, keys)
  {
    var k :| k in keys;
    assert forall x | x in keys :: x == k || x in keys - {k};
    if keys - {k} == {} {
      assert IsGreatest(k, keys);
    } else {
      GreatestExists(keys - {k});
      var g :| IsGreatest(g, keys - {k});
      assert IsGreatest(g, keys) || IsGreatest(k, keys);
    }
  }

  function Greatest(keys: set<Key>): (g: Key)
    requires keys != {}
    ensures IsGreatest(g, keys)
  {
    GreatestExists(keys);
    var g :| IsGreatest(g, keys);
    g
  }

  function Top(keys: set<Key>, n: nat): seq<Key> {
    if n == 0 || keys == {} then []
    else [Greatest(keys)] + Top(keys - {Greatest(keys)}, n - 1)
  }

  ghost predicate Descending(keys: seq<Key>) {
    forall i, j | 0 <= i < j < |keys| :: Lower(keys[j], keys[i])
  }

  lemma {:induction false} TopRows(keys: set<Key>, n: nat)
    ensures Descending(Top(keys, n)) && |Top(keys, n)| <= n
    ensures forall i, j | 0 <= i < j < |Top(keys, n)| ::
      var a, b := Top(keys, n)[i], Top(keys, n)[j];
      a.finished > b.finished || (a.finished == b.finished && a.id > b.id)
    ensures forall k | k in Top(keys, n) :: k in keys
    ensures forall k, t | k in keys && k !in Top(keys, n) && t in Top(keys, n) :: Lower(k, t)
    ensures |Top(keys, n)| < n ==> forall k | k in keys :: k in Top(keys, n)
    ensures n > 0 && keys != {} ==> Top(keys, n) != []
  {
    if n > 0 && keys != {} {
      var g := Greatest(keys);
      var rest := Top(keys - {g}, n - 1);
      TopRows(keys - {g}, n - 1);
      assert Top(keys, n) == [g] + rest;
      assert forall i | 0 <= i < |rest| :: rest[i] in rest;
    }
  }

  /** The first rows of an answer are the answer to a smaller limit. */
  lemma {:induction false} TopPrefix(keys: set<Key>, n: nat, m: nat)
    requires m <= |Top(keys, n)|
    ensures Top(keys, n)[..m] == Top(keys, m)
  {
    if m > 0 {
      TopPrefix(keys - {Greatest(keys)}, n - 1, m - 1);
    }
  }

  // ---- the sweep --------------------------------------------------------------

  /** Attempts that may be promoted, each with the key of its run. */
  type Candidates = map<AttemptId, Key>

  function RowKey(c: Candidates, a: AttemptId): Key
    requires a in c
  {
    Key(c[a].finished, a)
  }

  /** The candidate rows of a window after a row key. */
  function RowsAfter(c: Candidates, window: set<Key>, after: Option<Key>): set<Key> {
    set a | a in c && c[a] in window && Below(RowKey(c, a), after) :: RowKey(c, a)
  }

  function RunsAfter(runs: set<Key>, after: Option<Key>): set<Key> {
    set r | r in runs && Below(r, after)
  }

  /** Visited rows, newest first: no attempt twice, finish times never rise. */
  ghost predicate Ordered(visited: seq<Key>) {
    && (forall i, j | 0 <= i < j < |visited| :: visited[i] != visited[j])
    && (forall i, j | 0 <= i < j < |visited| :: visited[j].finished <= visited[i].finished)
  }

  ghost predicate Eligible(c: Candidates, k: Key) {
    k.id in c && RowKey(c, k.id) == k
  }

  /** Where the sweep is: everything of earlier windows and everything of this window down to
      `after` has been visited, and nothing else. */
  ghost predicate Reached(c: Candidates, windowAfter: Option<Key>, window: seq<Key>, after: Option<Key>,
                          visited: seq<Key>)
  {
    && (forall k | k in visited :: Eligible(c, k))
    && (forall a | a in c ::
          RowKey(c, a) in visited <==>
            !Below(c[a], windowAfter) || (c[a] in window && !Below(RowKey(c, a), after)))
  }

  ghost predicate WindowOk(runs: set<Key>, windowAfter: Option<Key>, window: seq<Key>) {
    && Descending(window)
    && (forall r | r in window :: r in runs && Below(r, windowAfter))
    && (forall r, t | r in runs && Below(r, windowAfter) && r !in window && t in window :: Lower(r, t))
  }

  /** Everything visited so far finished no earlier than anything still ahead. */
  ghost predicate AheadIsOlder(c: Candidates, windowAfter: Option<Key>, visited: seq<Key>) {
    forall k, a | k in visited && a in c && Below(c[a], windowAfter) && RowKey(c, a) !in visited ::
      c[a].finished <= k.finished
  }

  /** `publish_fresh_exports` over a fixed set of candidates.  `runs` are the runs that the cheap
      window query finds; every candidate belongs to one of them.  `budget` is how many rows are
      processed before the deadline passes or repeated errors stop the tick; `more` says that a
      page (`page` is the last one read) was left unfinished. */
  method PublishFresh(runs: set<Key>, c: Candidates, limit: nat, maxCandidates: nat, runWindow: nat, budget: nat)
    returns (visited: seq<Key>, more: bool, ghost page: seq<Key>)
    requires limit >= 1 && maxCandidates >= 1 && runWindow >= 1
    requires forall a | a in c :: c[a] in runs
    ensures Ordered(visited) && forall k | k in visited :: Eligible(c, k)
    ensures |visited| == Min(|c|, Min(maxCandidates, budget))
    ensures (forall a | a in c :: RowKey(c, a) in visited) <==> |c| <= Min(maxCandidates, budget)
    ensures forall k, a | k in visited && a in c && RowKey(c, a) !in visited :: c[a].finished <= k.finished
    ensures more ==> |visited| == budget
    ensures more <==> exists k :: k in page && k !in visited
    ensures forall k | k in page :: Eligible(c, k)
  {
    hide Reached, Ordered, AheadIsOlder, WindowOk, Eligible, RunsAfter, RowsAfter, Top, Below;
    visited, more, page := [], false, [];
    var windowAfter: Option<Key> := None;
    var window: seq<Key> := [];
    var after: Option<Key> := None;
    NothingVisited(runs, c);
    while |visited| < maxCandidates && |visited| < budget
      invariant |visited| <= Min(maxCandidates, budget) && !more
      invariant WindowOk(runs, windowAfter, window) && (window == [] ==> after.None?)
      invariant Reached(c, windowAfter, window, after, visited)
      invariant Ordered(visited) && AheadIsOlder(c, windowAfter, visited)
      invariant forall k | k in page :: k in visited && Eligible(c, k)
      decreases |RunsAfter(runs, windowAfter)|, |c| - |visited|
    {
      if window == [] {
        window := Top(RunsAfter(runs, windowAfter), runWindow);
        WindowFetched(runs, c, windowAfter, window, runWindow, visited);
        if window == [] {
          NothingLeft(runs, c, windowAfter, visited);
          EverythingVisited(c, visited);
          return;
        }
      }
      var rows := Top(RowsAfter(c, Members(window), after), Min(limit, maxCandidates - |visited|));
      TopRows(RowsAfter(c, Members(window), after), Min(limit, maxCandidates - |visited|));
      if rows == [] {
        var oldest := window[|window| - 1];
        WindowDone(runs, c, windowAfter, window, after, visited);
        windowAfter := Some(oldest);
        window := [];
        after := None;
        continue;
      }
      var processed := rows[..Min(|rows|, budget - |visited|)];
      TopPrefix(RowsAfter(c, Members(window), after), Min(limit, maxCandidates - |visited|), |processed|);
      TopRows(RowsAfter(c, Members(window), after), |processed|);
      PageVisited(runs, c, windowAfter, window, after, visited, processed);
      PageEligible(c, Members(window), after, rows);
      LeftOver(runs, c, windowAfter, window, after, visited, rows, |processed|);
      page := rows;
      visited := visited + processed;
      after := Some(processed[|processed| - 1]);
      CountIds(c, visited);
      if |processed| < |rows| {
        more := true;
        break;
      }
    }
    UnvisitedIsOlder(c, windowAfter, window, after, visited);
    CountIds(c, visited);
    VisitedAll(c, visited);
  }

  function Members(keys: seq<Key>): set<Key> {
    set k | k in keys
  }

  function Min(a: nat, b: nat): nat {
    if a < b then a else b
  }

  lemma NothingVisited(runs: set<Key>, c: Candidates)
    ensures WindowOk(runs, None, []) && Reached(c, None, [], None, [])
    ensures Ordered([]) && AheadIsOlder(c, None, [])
  {
  }

  lemma WindowFetched(runs: set<Key>, c: Candidates, windowAfter: Option<Key>, window: seq<Key>, n: nat,
                      visited: seq<Key>)
    requires n >= 1 && window == Top(RunsAfter(runs, windowAfter), n)
    requires Reached(c, windowAfter, [], None, visited)
    ensures WindowOk(runs, windowAfter, window) && Reached(c, windowAfter, window, None, visited)
    ensures window == [] <==> RunsAfter(runs, windowAfter) == {}
  {
    TopRows(RunsAfter(runs, windowAfter), n);
  }

  lemma NothingLeft(runs: set<Key>, c: Candidates, windowAfter: Option<Key>, visited: seq<Key>)
    requires RunsAfter(runs, windowAfter) == {} && forall a | a in c :: c[a] in runs
    requires Reached(c, windowAfter, [], None, visited)
    ensures forall a | a in c :: RowKey(c, a) in visited
    ensures forall k | k in visited :: Eligible(c, k)
  {
    forall a | a in c ensures RowKey(c, a) in visited {
      assert c[a] !in RunsAfter(runs, windowAfter);
    }
  }

  /** A window without further rows is finished; the next one starts after its oldest run, and the
      row key starts over, because runs on both sides of the boundary may share a finish time. */
  lemma WindowDone(runs: set<Key>, c: Candidates, windowAfter: Option<Key>, window: seq<Key>, after: Option<Key>,
                   visited: seq<Key>)
    requires WindowOk(runs, windowAfter, window) && window != []
    requires forall a | a in c :: c[a] in runs
    requires Reached(c, windowAfter, window, after, visited) && AheadIsOlder(c, windowAfter, visited)
    requires RowsAfter(c, Members(window), after) == {}
    ensures var oldest := Some(window[|window| - 1]);
      && WindowOk(runs, oldest, []) && Reached(c, oldest, [], None, visited)
      && AheadIsOlder(c, oldest, visited)
      && |RunsAfter(runs, oldest)| < |RunsAfter(runs, windowAfter)|
  {
    var last := window[|window| - 1];
    assert last in window;
    forall r | r in runs
      ensures Below(r, Some(last)) <==> Below(r, windowAfter) && r !in window
    {
      if r in window {
        var i :| 0 <= i < |window| && window[i] == r;
      }
    }
    forall a | a in c
      ensures RowKey(c, a) in visited <==> !Below(c[a], Some(last))
    {
      assert RowKey(c, a) !in RowsAfter(c, Members(window), after);
    }
    var next := RunsAfter(runs, Some(last));
    var all := RunsAfter(runs, windowAfter);
    assert next <= all - {last} && last in all;
    SubsetSize(next, all - {last});
  }

  lemma PageVisited(runs: set<Key>, c: Candidates, windowAfter: Option<Key>, window: seq<Key>, after: Option<Key>,
                    visited: seq<Key>, rows: seq<Key>)
    requires WindowOk(runs, windowAfter, window) && forall a | a in c :: c[a] in runs
    requires Reached(c, windowAfter, window, after, visited) && Ordered(visited)
    requires AheadIsOlder(c, windowAfter, visited) && rows != [] && Descending(rows)
    requires forall k | k in rows :: k in RowsAfter(c, Members(window), after)
    requires forall k, t | k in RowsAfter(c, Members(window), after) && k !in rows && t in rows :: Lower(k, t)
    ensures var last := Some(rows[|rows| - 1]);
      && Reached(c, windowAfter, window, last, visited + rows)
      && Ordered(visited + rows) && AheadIsOlder(c, windowAfter, visited + rows)
  {
    PageReached(c, windowAfter, window, after, visited, rows);
    PageOrdered(c, runs, windowAfter, window, after, visited, rows);
    PageAhead(c, runs, windowAfter, window, after, visited, rows);
  }

  lemma PageEligible(c: Candidates, window: set<Key>, after: Option<Key>, rows: seq<Key>)
    requires forall k | k in rows :: k in RowsAfter(c, window, after)
    ensures forall k | k in rows :: Eligible(c, k)
  {
    forall k | k in rows ensures Eligible(c, k) { RowOf(c, window, after, k); }
  }

  /** What a page keeps back has not been visited. */
  lemma LeftOver(runs: set<Key>, c: Candidates, windowAfter: Option<Key>, window: seq<Key>, after: Option<Key>,
                 visited: seq<Key>, rows: seq<Key>, n: nat)
    requires Reached(c, windowAfter, window, after, visited) && Descending(rows) && n <= |rows|
    requires forall k | k in rows :: k in RowsAfter(c, Members(window), after)
    requires WindowOk(runs, windowAfter, window)
    ensures n < |rows| ==> exists k :: k in rows && k !in visited + rows[..n]
    ensures n == |rows| ==> forall k | k in rows :: k in visited + rows[..n]
  {
    if n < |rows| {
      var k := rows[n];
      RowOf(c, Members(window), after, k);
      assert RowKey(c, k.id) == k;
      assert k !in rows[..n];
      assert k in rows && k !in visited + rows[..n];
    } else {
      assert rows[..n] == rows;
    }
  }

  lemma PageReached(c: Candidates, windowAfter: Option<Key>, window: seq<Key>, after: Option<Key>,
                    visited: seq<Key>, rows: seq<Key>)
    requires Reached(c, windowAfter, window, after, visited) && rows != [] && Descending(rows)
    requires forall k | k in rows :: k in RowsAfter(c, Members(window), after)
    requires forall k, t | k in RowsAfter(c, Members(window), after) && k !in rows && t in rows :: Lower(k, t)
    ensures Reached(c, windowAfter, window, Some(rows[|rows| - 1]), visited + rows)
  {
    var last := rows[|rows| - 1];
    assert last in rows;
    forall a | a in c
      ensures RowKey(c, a) in visited + rows <==>
                !Below(c[a], windowAfter) || (c[a] in window && !Below(RowKey(c, a), Some(last)))
    {
      var k := RowKey(c, a);
      if k in rows {
        var i :| 0 <= i < |rows| && rows[i] == k;
        RowOf(c, Members(window), after, k);
      } else if c[a] in window && Below(k, after) {
        assert k in RowsAfter(c, Members(window), after);
      } else if c[a] in window {
        RowOf(c, Members(window), after, last);
      }
    }
    forall k | k in visited + rows ensures Eligible(c, k) {
      if k in rows { RowOf(c, Members(window), after, k); }
    }
  }

  lemma RowOf(c: Candidates, window: set<Key>, after: Option<Key>, k: Key)
    requires k in RowsAfter(c, window, after)
    ensures Eligible(c, k) && c[k.id] in window && Below(k, after)
  {
  }

  lemma PageOrdered(c: Candidates, runs: set<Key>, windowAfter: Option<Key>, window: seq<Key>, after: Option<Key>,
                    visited: seq<Key>, rows: seq<Key>)
    requires WindowOk(runs, windowAfter, window)
    requires Reached(c, windowAfter, window, after, visited) && Ordered(visited)
    requires AheadIsOlder(c, windowAfter, visited) && Descending(rows)
    requires forall k | k in rows :: k in RowsAfter(c, Members(window), after)
    ensures Ordered(visited + rows)
  {
    forall k | k in rows
      ensures k !in visited && forall v | v in visited :: k.finished <= v.finished
    {
      RowOf(c, Members(window), after, k);
      assert RowKey(c, k.id) == k;
    }
    var all := visited + rows;
    forall i, j | 0 <= i < j < |all|
      ensures all[i] != all[j] && all[j].finished <= all[i].finished
    {
      if i < |visited| <= j {
        assert all[j] in rows && all[i] in visited;
      }
    }
  }

  lemma PageAhead(c: Candidates, runs: set<Key>, windowAfter: Option<Key>, window: seq<Key>, after: Option<Key>,
                  visited: seq<Key>, rows: seq<Key>)
    requires WindowOk(runs, windowAfter, window) && forall a | a in c :: c[a] in runs
    requires Reached(c, windowAfter, window, after, visited)
    requires AheadIsOlder(c, windowAfter, visited)
    requires forall k | k in rows :: k in RowsAfter(c, Members(window), after)
    requires forall k, t | k in RowsAfter(c, Members(window), after) && k !in rows && t in rows :: Lower(k, t)
    ensures AheadIsOlder(c, windowAfter, visited + rows)
  {
    forall k, a | k in visited + rows && a in c && Below(c[a], windowAfter) && RowKey(c, a) !in visited + rows
      ensures c[a].finished <= k.finished
    {
      if k in rows {
        RowOf(c, Members(window), after, k);
        if c[a] in window {
          assert RowKey(c, a) in RowsAfter(c, Members(window), after);
        } else {
          assert Lower(c[a], c[k.id]);
        }
      }
    }
  }

  /** Distinct eligible rows are at most as many as the candidates. */
  lemma {:induction false} CountIds(c: Candidates, visited: seq<Key>)
    requires Ordered(visited) && forall k | k in visited :: Eligible(c, k)
    ensures |visited| <= |c|
    decreases |visited|
  {
    assert |c.Keys| == |c|;
    if visited != [] {
      var k := visited[0];
      var rest := visited[1..];
      var less := c - {k.id};
      forall x | x in rest ensures Eligible(less, x) {
        assert x in visited && Eligible(c, x);
        var i :| 0 <= i < |rest| && rest[i] == x;
        assert visited[i + 1] == x && x != k;
        assert Eligible(c, k);
      }
      CountIds(less, rest);
      assert Eligible(c, k) && less.Keys == c.Keys - {k.id};
      assert |less.Keys| == |less|;
    }
  }

  ghost function Ids(visited: seq<Key>): set<AttemptId> {
    set k | k in visited :: k.id
  }

  lemma {:induction false} IdsCount(c: Candidates, visited: seq<Key>)
    requires Ordered(visited) && forall k | k in visited :: Eligible(c, k)
    ensures |Ids(visited)| == |visited| && Ids(visited) <= c.Keys
  {
    if visited != [] {
      var front, last := visited[..|visited| - 1], visited[|visited| - 1];
      IdsCount(c, front);
      forall k | k in front ensures k.id != last.id {
        var i :| 0 <= i < |front| && front[i] == k;
        assert visited[i] != last && Eligible(c, k) && Eligible(c, last);
      }
      assert Ids(visited) == Ids(front) + {last.id};
      assert Eligible(c, last);
    } else {
      assert Ids(visited) == {};
    }
  }

  /** Every candidate is visited exactly when as many rows as candidates were. */
  lemma VisitedAll(c: Candidates, visited: seq<Key>)
    requires Ordered(visited) && forall k | k in visited :: Eligible(c, k)
    ensures (forall a | a in c :: RowKey(c, a) in visited) <==> |visited| == |c|
  {
    IdsCount(c, visited);
    assert |c.Keys| == |c|;
    forall a | a in c ensures RowKey(c, a) in visited <==> a in Ids(visited) {
      if a in Ids(visited) {
        var k :| k in visited && k.id == a;
        assert Eligible(c, k);
      }
    }
    if |visited| == |c| {
      assert |c.Keys - Ids(visited)| == 0;
      assert c.Keys - Ids(visited) == {};
    }
    if forall a | a in c :: RowKey(c, a) in visited {
      assert Ids(visited) == c.Keys;
    }
  }

  lemma EverythingVisited(c: Candidates, visited: seq<Key>)
    requires Ordered(visited) && forall k | k in visited :: Eligible(c, k)
    requires forall a | a in c :: RowKey(c, a) in visited
    ensures |visited| == |c|
  {
    VisitedAll(c, visited);
  }

  lemma UnvisitedIsOlder(c: Candidates, windowAfter: Option<Key>, window: seq<Key>, after: Option<Key>,
                         visited: seq<Key>)
    requires Reached(c, windowAfter, window, after, visited) && AheadIsOlder(c, windowAfter, visited)
    ensures forall k, a | k in visited && a in c && RowKey(c, a) !in visited :: c[a].finished <= k.finished
    ensures forall k | k in visited :: Eligible(c, k)
  {
  }
}
