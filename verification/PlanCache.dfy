/** The process-wide cache of parsed plans: a least-recently-used dictionary with a byte counter,
    in front of a bounded read.  Answers do not depend on what the process cached before. */
module PlanCache {
  import opened ExportTypes
  import opened SetSize

  const MAX_SOURCE_SCOPES: nat := 8192
  const MAX_SCOPE_PLAN_BYTES: nat := 256 * 1024
  const MAX_MANIFEST_BYTES: nat := 8 * 1024 * 1024
  const PLAN_CACHE_SIZE: nat := 16384
  const PLAN_CACHE_BYTES: nat := 64 * 1024 * 1024

  /** A stored plan: `parsed` is what its descriptor parses to (nothing when it does not), `size`
      the bytes of its canonical JSON, `oversized` whether the server withholds it. */
  datatype StoredPlan = StoredPlan(parsed: Option<nat>, size: nat, oversized: bool)

  datatype Entry = Entry(parsed: nat, size: nat)

  type Table = map<AttemptId, StoredPlan>

  predicate Readable(row: StoredPlan) {
    !row.oversized && row.size <= MAX_SCOPE_PLAN_BYTES
  }

  function SizeOf(table: Table, ids: set<AttemptId>): nat
    requires ids <= table.Keys
  {
    if ids == {} then 0 else var k := Least(ids); table[k].size + SizeOf(table, ids - {k})
  }

  /** Which requests an uncached read accepts. */
  ghost predicate Acceptable(table: Table, ids: set<AttemptId>) {
    && |ids| <= 8192 && ids <= table.Keys
    && (forall k | k in ids :: !table[k].oversized && table[k].size <= 256 * 1024 && table[k].parsed.Some?)
    && SizeOf(table, ids) <= 8 * 1024 * 1024
  }

  /** What it answers. */
  ghost function Uncached(table: Table, ids: set<AttemptId>): Option<map<AttemptId, nat>> {
    if Acceptable(table, ids) then Some(map k | k in ids :: table[k].parsed.value) else None
  }

  lemma {:induction false} SizeSplit(table: Table, ids: set<AttemptId>, k: AttemptId)
    requires ids <= table.Keys && k in ids
    ensures SizeOf(table, ids) == table[k].size + SizeOf(table, ids - {k})
    decreases |ids|
  {
    var m := Least(ids);
    if m != k {
      SizeSplit(table, ids - {m}, k);
      SizeSplit(table, ids - {k}, m);
      assert ids - {m} - {k} == ids - {k} - {m};
    }
  }

  lemma {:induction false} SizeUnion(table: Table, a: set<AttemptId>, b: set<AttemptId>)
    requires a !! b && a + b <= table.Keys
    ensures SizeOf(table, a + b) == SizeOf(table, a) + SizeOf(table, b)
    decreases |b|
  {
    if b == {} {
      assert a + b == a;
    } else {
      var k := Least(b);
      SizeSplit(table, a + b, k);
      assert a + b - {k} == a + (b - {k});
      SizeUnion(table, a, b - {k});
    }
  }

  /** `MetadataBudget`: bytes used so far, against a maximum. */
  class MetadataBudget {
    var used: nat

    constructor ()
      ensures used == 0
    {
      used := 0;
    }

    method AddBoundedRecord(size: nat, maximum: nat) returns (within: bool)
      modifies this
      ensures used == old(used) + size
      ensures within == (size <= maximum && used <= MAX_MANIFEST_BYTES)
    {
      used := used + size;
      within := size <= maximum && used <= MAX_MANIFEST_BYTES;
    }
  }

  /** Which requests have all their rows within every bound. */
  ghost predicate Fits(table: Table, ids: set<AttemptId>) {
    && |ids| <= 8192 && ids <= table.Keys
    && (forall k | k in ids :: !table[k].oversized && table[k].size <= 256 * 1024)
    && SizeOf(table, ids) <= 8 * 1024 * 1024
  }

  /** The rows of `read`, taken so far in key order, are all readable and within the budget. */
  ghost predicate Taken(table: Table, taken: set<AttemptId>, plans: Table, used: nat) {
    && plans.Keys == taken <= table.Keys
    && (forall k | k in plans :: plans[k] == table[k] && Readable(table[k]))
    && used == SizeOf(table, taken) <= MAX_MANIFEST_BYTES
  }

  lemma TakeOne(table: Table, found: set<AttemptId>, rest: set<AttemptId>, k: AttemptId, plans: Table, used: nat)
    requires Taken(table, found - rest, plans, used) && rest <= found <= table.Keys && k in rest
    ensures !Readable(table[k]) || used + table[k].size > MAX_MANIFEST_BYTES ==> !Fits(table, found)
    ensures Readable(table[k]) && used + table[k].size <= MAX_MANIFEST_BYTES ==>
              Taken(table, found - (rest - {k}), plans[k := table[k]], used + table[k].size)
  {
    hide SizeOf;
    NextSize(table, found, rest, k);
    SizeMonotone(table, found - (rest - {k}), found);
  }

  /** `read_scope_plans`: rows in key order against a budget of their own; all or nothing. */
  method ReadScopePlans(table: Table, ids: set<AttemptId>) returns (rows: Option<Table>)
    ensures rows.Some? <==> Fits(table, ids)
    ensures rows.Some? ==> rows.value == map k | k in ids :: table[k]
  {
    if |ids| > MAX_SOURCE_SCOPES {
      return None;
    }
    hide *;
    var budget := new MetadataBudget();
    var plans: Table := map[];
    var found := set k | k in ids && k in table;
    FoundFits(table, ids, found);
    var rest := found;
    assert found - rest == {};
    while rest != {}
      invariant rest <= found
      invariant Taken(table, found - rest, plans, budget.used)
      decreases rest
    {
      var k := Least(rest);
      TakeOne(table, found, rest, k, plans, budget.used);
      if table[k].oversized {
        return None;
      }
      var within := budget.AddBoundedRecord(table[k].size, MAX_SCOPE_PLAN_BYTES);
      if !within {
        return None;
      }
      plans := plans[k := table[k]];
      rest := rest - {k};
    }
    assert found - {} == found;
    TakenAll(table, ids, found, plans, budget.used);
    if plans.Keys != ids {
      return None;
    }
    rows := Some(plans);
  }

  lemma TakenAll(table: Table, ids: set<AttemptId>, found: set<AttemptId>, plans: Table, used: nat)
    requires Taken(table, found, plans, used) && |ids| <= MAX_SOURCE_SCOPES
    requires found == set k | k in ids && k in table
    ensures plans.Keys == ids <==> Fits(table, ids)
    ensures plans.Keys == ids ==> plans == map k | k in ids :: table[k]
  {
    hide SizeOf;
    if ids <= table.Keys {
      assert found == ids;
    }
  }

  lemma FoundFits(table: Table, ids: set<AttemptId>, found: set<AttemptId>)
    requires found == set k | k in ids && k in table
    ensures Fits(table, ids) ==> Fits(table, found)
  {
    hide SizeOf;
    assert ids <= table.Keys ==> found == ids;
  }

  lemma NextSize(table: Table, found: set<AttemptId>, rest: set<AttemptId>, k: AttemptId)
    requires rest <= found <= table.Keys && k in rest
    ensures SizeOf(table, found - (rest - {k})) == SizeOf(table, found - rest) + table[k].size
  {
    SizeSplit(table, found - (rest - {k}), k);
    assert found - (rest - {k}) - {k} == found - rest;
  }

  lemma SizeMonotone(table: Table, a: set<AttemptId>, b: set<AttemptId>)
    requires a <= b <= table.Keys
    ensures SizeOf(table, a) <= SizeOf(table, b)
  {
    SizeUnion(table, a, b - a);
    assert a + (b - a) == b;
  }

  // ---- the cache -------------------------------------------------------------

  function Bytes(order: seq<AttemptId>, entries: map<AttemptId, Entry>): nat
    requires forall k | k in order :: k in entries
  {
    if order == [] then 0
    else Bytes(order[..|order| - 1], entries) + entries[order[|order| - 1]].size
  }

  ghost predicate NoRepeats(order: seq<AttemptId>) {
    forall i, j | 0 <= i < j < |order| :: order[i] != order[j]
  }

  function Remove(order: seq<AttemptId>, k: AttemptId): seq<AttemptId> {
    if order == [] then []
    else if order[|order| - 1] == k then order[..|order| - 1]
    else Remove(order[..|order| - 1], k) + [order[|order| - 1]]
  }

  lemma {:induction false} RemoveMembers(order: seq<AttemptId>, k: AttemptId)
    requires NoRepeats(order)
    ensures NoRepeats(Remove(order, k))
    ensures forall x :: x in Remove(order, k) <==> x in order && x != k
    ensures |Remove(order, k)| == if k in order then |order| - 1 else |order|
  {
    if order != [] {
      var front := order[..|order| - 1];
      var last := order[|order| - 1];
      assert order == front + [last];
      assert last !in front;
      if last != k {
        RemoveMembers(front, k);
        assert Remove(order, k) == Remove(front, k) + [last];
      }
    }
  }

  lemma {:induction false} RemoveBytes(order: seq<AttemptId>, entries: map<AttemptId, Entry>, k: AttemptId)
    requires NoRepeats(order) && k in order && forall x | x in order :: x in entries
    ensures forall x | x in Remove(order, k) :: x in entries
    ensures Bytes(Remove(order, k), entries) + entries[k].size == Bytes(order, entries)
  {
    RemoveMembers(order, k);
    var front := order[..|order| - 1];
    var last := order[|order| - 1];
    assert order == front + [last];
    if last != k {
      RemoveBytes(front, entries, k);
      var rest := Remove(front, k) + [last];
      assert rest[..|rest| - 1] == Remove(front, k);
    }
  }

  lemma DropMembers(order: seq<AttemptId>)
    requires NoRepeats(order) && order != []
    ensures NoRepeats(order[1..]) && forall x :: x in order[1..] <==> x in order && x != order[0]
  {
    assert order == [order[0]] + order[1..];
  }

  lemma AppendMember(order: seq<AttemptId>, k: AttemptId)
    requires NoRepeats(order) && k !in order
    ensures NoRepeats(order + [k]) && forall x :: x in order + [k] <==> x in order || x == k
  {
  }

  lemma AppendBytes(order: seq<AttemptId>, entries: map<AttemptId, Entry>, k: AttemptId)
    requires k in entries && forall x | x in order :: x in entries
    ensures Bytes(order + [k], entries) == Bytes(order, entries) + entries[k].size
  {
    assert (order + [k])[..|order|] == order;
  }

  lemma {:induction false} BytesDropFirst(order: seq<AttemptId>, entries: map<AttemptId, Entry>)
    requires order != [] && forall k | k in order :: k in entries
    ensures Bytes(order, entries) == entries[order[0]].size + Bytes(order[1..], entries)
  {
    if |order| > 1 {
      var front := order[..|order| - 1];
      BytesDropFirst(front, entries);
      assert order[1..][..|order| - 2] == front[1..];
    }
  }

  lemma {:induction false} BytesSame(order: seq<AttemptId>, a: map<AttemptId, Entry>, b: map<AttemptId, Entry>)
    requires forall k | k in order :: k in a && k in b && a[k] == b[k]
    ensures Bytes(order, a) == Bytes(order, b)
  {
    if order != [] {
      BytesSame(order[..|order| - 1], a, b);
    }
  }

  lemma {:induction false} RemoveNone(order: seq<AttemptId>, k: AttemptId)
    ensures k !in order ==> Remove(order, k) == order
  {
    if order != [] && k !in order {
      assert order[|order| - 1] in order;
      RemoveNone(order[..|order| - 1], k);
    }
  }

  // ---- what a use does to the order --------------------------------------------

  /** The keys that are not in `keys`, in their order. */
  function Without(order: seq<AttemptId>, keys: set<AttemptId>): seq<AttemptId> {
    if order == [] then []
    else
      Without(order[..|order| - 1], keys)
      + if order[|order| - 1] in keys then [] else [order[|order| - 1]]
  }

  /** Each of `keys` in turn goes to the most recently used end. */
  function Requeued(order: seq<AttemptId>, keys: set<AttemptId>): seq<AttemptId>
    decreases keys
  {
    if keys == {} then order
    else var k := Least(keys); Requeued(Remove(order, k) + [k], keys - {k})
  }

  lemma {:induction false} WithoutRemoved(order: seq<AttemptId>, keys: set<AttemptId>, k: AttemptId)
    requires NoRepeats(order) && k in keys
    ensures Without(Remove(order, k), keys - {k}) == Without(order, keys)
  {
    if order != [] {
      var front, last := order[..|order| - 1], order[|order| - 1];
      if last == k {
        WithoutOther(front, keys, k);
      } else {
        WithoutRemoved(front, keys, k);
        var rest := Remove(front, k) + [last];
        assert rest[..|rest| - 1] == Remove(front, k);
      }
    }
  }

  lemma {:induction false} WithoutOther(order: seq<AttemptId>, keys: set<AttemptId>, k: AttemptId)
    requires k !in order
    ensures Without(order, keys - {k}) == Without(order, keys)
  {
    if order != [] {
      WithoutOther(order[..|order| - 1], keys, k);
      assert order[|order| - 1] in order;
    }
  }

  lemma {:induction false} WithoutNothing(order: seq<AttemptId>)
    ensures Without(order, {}) == order
  {
    if order != [] {
      WithoutNothing(order[..|order| - 1]);
    }
  }

  lemma RequeuedNext(order: seq<AttemptId>, keys: set<AttemptId>)
    requires keys != {}
    ensures Requeued(order, keys) == Requeued(Remove(order, Least(keys)) + [Least(keys)], keys - {Least(keys)})
  {
  }

  lemma RequeuedNone(order: seq<AttemptId>, keys: set<AttemptId>)
    ensures keys == {} ==> Requeued(order, keys) == order
  {
  }

  /** All of `keys` end up behind the others, in key order; the others keep theirs. */
  lemma {:induction false} RequeuedIs(order: seq<AttemptId>, keys: set<AttemptId>)
    requires NoRepeats(order)
    ensures Requeued(order, keys) == Without(order, keys) + SortedKeys(keys)
    decreases keys
  {
    if keys == {} {
      WithoutNothing(order);
    } else {
      var k := Least(keys);
      RequeuedStep(order, keys, k);
      RequeuedNext(order, keys);
      SortedNext(keys);
      hide NoRepeats, Without, Remove, SortedKeys, Requeued;
      RequeuedIs(Remove(order, k) + [k], keys - {k});
    }
  }

  lemma SortedNext(keys: set<AttemptId>)
    requires keys != {}
    ensures SortedKeys(keys) == [Least(keys)] + SortedKeys(keys - {Least(keys)})
  {
  }

  lemma RequeuedStep(order: seq<AttemptId>, keys: set<AttemptId>, k: AttemptId)
    requires NoRepeats(order) && k in keys
    ensures NoRepeats(Remove(order, k) + [k])
    ensures Without(Remove(order, k) + [k], keys - {k}) == Without(order, keys) + [k]
  {
    RemoveMembers(order, k);
    AppendMember(Remove(order, k), k);
    WithoutRemoved(order, keys, k);
    hide NoRepeats, Remove;
    var less := Remove(order, k);
    assert (less + [k])[..|less|] == less;
  }

  lemma LeastHit(rest: set<AttemptId>, hits: set<AttemptId>, k: AttemptId)
    requires rest != {} && k == Least(rest)
    ensures k in hits ==> rest * hits != {} && Least(rest * hits) == k && rest * hits - {k} == (rest - {k}) * hits
    ensures k !in hits ==> rest * hits == (rest - {k}) * hits
  {
    if k in hits {
      assert k in rest * hits;
      assert IsLeast(Least(rest * hits), rest * hits);
    }
  }

  // ---- what is dropped -------------------------------------------------------------

  ghost predicate OverLimits(order: seq<AttemptId>, entries: map<AttemptId, Entry>)
    requires forall k | k in order :: k in entries
  {
    |order| > 16384 || Bytes(order, entries) > 64 * 1024 * 1024
  }

  /** What is left of `given`, queued as `all`, is all but the first `dropped`; with one more
      entry it would be over a limit. */
  ghost predicate Trimmed(all: seq<AttemptId>, given: map<AttemptId, Entry>, dropped: nat, order: seq<AttemptId>,
                          entries: map<AttemptId, Entry>)
  {
    && (forall k | k in all :: k in given)
    && dropped <= |all| && order == all[dropped..]
    && (forall k :: k in entries <==> k in order)
    && (forall k | k in entries :: k in given && entries[k] == given[k])
    && (dropped > 0 ==> OverLimits(all[dropped - 1..], given))
  }

  /** The most recently used entries are kept, as many as fit. */
  ghost predicate KeepsRecent(all: seq<AttemptId>, given: map<AttemptId, Entry>, order: seq<AttemptId>,
                              entries: map<AttemptId, Entry>)
  {
    exists dropped: nat :: Trimmed(all, given, dropped, order, entries)
  }

  lemma StartTrim(all: seq<AttemptId>, given: map<AttemptId, Entry>)
    requires forall k :: k in all <==> k in given
    ensures Trimmed(all, given, 0, all, given)
  {
    assert all[0..] == all;
  }

  lemma TrimOne(all: seq<AttemptId>, given: map<AttemptId, Entry>, dropped: nat, order: seq<AttemptId>,
                entries: map<AttemptId, Entry>)
    requires Trimmed(all, given, dropped, order, entries) && NoRepeats(order) && order != []
    requires forall k | k in order :: k in entries
    requires OverLimits(order, entries)
    ensures Trimmed(all, given, dropped + 1, order[1..], entries - {order[0]})
  {
    DropMembers(order);
    StillOver(order, entries, given);
    hide NoRepeats, Bytes, OverLimits;
    assert all[dropped + 1..] == order[1..];
  }

  lemma StillOver(order: seq<AttemptId>, a: map<AttemptId, Entry>, b: map<AttemptId, Entry>)
    requires forall k | k in order :: k in a && k in b && a[k] == b[k]
    ensures OverLimits(order, a) == OverLimits(order, b)
  {
    BytesSame(order, a, b);
  }

  lemma NoBytes(order: seq<AttemptId>, entries: map<AttemptId, Entry>)
    requires forall k | k in order :: k in entries
    ensures order == [] ==> Bytes(order, entries) == 0
  {
  }

  /** Whatever is left is what was given last. */
  lemma TrimmedEntries(all: seq<AttemptId>, given: map<AttemptId, Entry>, dropped: nat, order: seq<AttemptId>,
                       entries: map<AttemptId, Entry>)
    requires Trimmed(all, given, dropped, order, entries)
    ensures forall k | k in entries :: k in given && entries[k] == given[k]
  {
  }

  class Cache {
    /** An ordered dictionary: `order` lists its keys from the least to the most recently used. */
    var order: seq<AttemptId>
    var entries: map<AttemptId, Entry>
    var bytes: nat

    /** The counter is the sum of the entries. */
    ghost predicate Counted()
      reads this
    {
      && NoRepeats(order) && (forall k :: k in order <==> k in entries)
      && bytes == Bytes(order, entries)
    }

    ghost predicate Valid()
      reads this
    {
      Counted() && |order| <= 16384 && bytes <= 64 * 1024 * 1024
    }

    /** Every entry is what a bounded read of the stored plan gave once.  `ever` holds every plan
        ever stored; a plan is never changed. */
    ghost predicate Remembers(ever: Table)
      reads this
    {
      forall k | k in entries ::
        k in ever && Readable(ever[k]) && ever[k].parsed == Some(entries[k].parsed)
        && ever[k].size == entries[k].size
    }

    constructor ()
      ensures Valid() && entries == map[]
    {
      order, entries, bytes := [], map[], 0;
    }

    /** `_remembered_plans`: hits move to the most recently used end, in turn. */
    method Remembered(ids: set<AttemptId>) returns (found: map<AttemptId, Entry>)
      requires Valid()
      modifies this
      ensures Valid() && entries == old(entries)
      ensures found == map k | k in ids && k in entries :: entries[k]
      ensures order == Without(old(order), found.Keys) + SortedKeys(found.Keys)
    {
      hide NoRepeats, Bytes, Requeued, Without, SortedKeys, Remove;
      found := map[];
      var rest := ids;
      ghost var hits := set k | k in ids && k in entries;
      ghost var goal := Requeued(order, hits);
      assert ids * hits == hits;
      RequeuedIs(order, hits);
      while rest != {}
        invariant Valid() && entries == old(entries) && rest <= ids
        invariant found == map k | k in ids - rest && k in entries :: entries[k]
        invariant Requeued(order, rest * hits) == goal
        decreases rest
      {
        var k := Least(rest);
        LeastHit(rest, hits, k);
        if k in entries {
          RequeuedNext(order, rest * hits);
          MoveToEnd(k);
          found := found[k := entries[k]];
        }
        rest := rest - {k};
      }
      RequeuedNone(order, rest * hits);
      assert found.Keys == hits;
    }

    /** `_remember_plans`: new entries go to the end, then the oldest are dropped until both
        limits hold again, and no more of them than that takes. */
    method Remember(parsed: map<AttemptId, Entry>)
      requires Valid()
      modifies this
      ensures Valid()
      ensures KeepsRecent(Without(old(order), parsed.Keys) + SortedKeys(parsed.Keys), old(entries) + parsed,
                          order, entries)
      ensures forall k | k in entries ::
                if k in parsed then entries[k] == parsed[k] else k in old(entries) && entries[k] == old(entries)[k]
    {
      hide NoRepeats, Trimmed, Requeued, Without, SortedKeys, Bytes;
      var rest := parsed.Keys;
      RequeuedIs(order, parsed.Keys);
      RequeuedNone(order, parsed.Keys);
      ghost var all := Requeued(order, parsed.Keys);
      ghost var given := old(entries) + parsed;
      while rest != {}
        invariant Counted() && rest <= parsed.Keys
        invariant entries == old(entries) + (map k | k in parsed && k !in rest :: parsed[k])
        invariant Requeued(order, rest) == all
        decreases rest
      {
        var k := Least(rest);
        RequeuedNext(order, rest);
        InsertOne(k, parsed[k]);
        rest := rest - {k};
      }
      RequeuedNone(order, rest);
      assert entries == given && order == all;
      StartTrim(all, given);
      ghost var dropped := 0;
      while order != [] && (|order| > PLAN_CACHE_SIZE || bytes > PLAN_CACHE_BYTES)
        invariant Counted() && Trimmed(all, given, dropped, order, entries)
        decreases |order|
      {
        TrimOne(all, given, dropped, order, entries);
        dropped := dropped + 1;
        DropOldest();
      }
      TrimmedEntries(all, given, dropped, order, entries);
      NoBytes(order, entries);
    }

    /** `move_to_end`. */
    method MoveToEnd(k: AttemptId)
      requires Counted() && k in entries
      modifies `order
      ensures Counted() && |order| == |old(order)| && order == Remove(old(order), k) + [k]
    {
      RemoveMembers(order, k);
      RemoveBytes(order, entries, k);
      AppendBytes(Remove(order, k), entries, k);
      order := Remove(order, k) + [k];
    }

    /** `pop`: an earlier entry of the same key no longer counts. */
    method Discard(k: AttemptId)
      requires Counted()
      modifies this
      ensures Counted() && entries == old(entries) - {k} && order == Remove(old(order), k)
    {
      RemoveNone(order, k);
      if k in entries {
        RemoveMembers(order, k);
        RemoveBytes(order, entries, k);
        BytesSame(Remove(order, k), entries, entries - {k});
        bytes := bytes - entries[k].size;
        order := Remove(order, k);
        entries := entries - {k};
      }
    }

    method InsertOne(k: AttemptId, value: Entry)
      requires Counted()
      modifies this
      ensures Counted() && entries == old(entries)[k := value] && order == Remove(old(order), k) + [k]
    {
      hide NoRepeats, Bytes;
      Discard(k);
      AppendMember(order, k);
      BytesSame(order, entries, entries[k := value]);
      AppendBytes(order, entries[k := value], k);
      entries := entries[k := value];
      order := order + [k];
      bytes := bytes + value.size;
    }

    method DropOldest()
      requires Counted() && order != []
      modifies this
      ensures Counted() && entries == old(entries) - {old(order)[0]} && order == old(order)[1..]
    {
      hide NoRepeats, Bytes;
      var k := order[0];
      BytesDropFirst(order, entries);
      DropMembers(order);
      BytesSame(order[1..], entries, entries - {k});
      bytes := bytes - entries[k].size;
      entries := entries - {k};
      order := order[1..];
    }

    /** `parsed_scope_plans`: the answer is that of an uncached read, whatever is cached. */
    method ParsedScopePlans(table: Table, ids: set<AttemptId>, ghost ever: Table)
      returns (answer: Option<map<AttemptId, nat>>)
      requires Valid() && Remembers(ever)
      requires forall k | k in table :: k in ever && ever[k] == table[k]
      modifies this
      ensures Valid() && Remembers(ever)
      ensures answer == Uncached(table, ids)
    {
      hide SizeOf, Readable, Counted, KeepsRecent, Without, SortedKeys, Bytes, NoRepeats;
      if |ids| > MAX_SOURCE_SCOPES {
        TooMany(table, ids);
        return None;
      }
      var remembered := Remembered(ids);
      var loaded := Gather(table, ids, remembered, ever);
      if loaded.None? {
        return None;
      }
      Remember(loaded.value);
      answer := Some(map k | k in ids :: (if k in remembered then remembered[k] else loaded.value[k]).parsed);
      forall k | k in ids ensures answer.value[k] == table[k].parsed.value {
        assert k in remembered || k in loaded.value;
      }
      assert answer.value == map k | k in ids :: table[k].parsed.value;
    }
  }

  lemma TooMany(table: Table, ids: set<AttemptId>)
    requires |ids| > MAX_SOURCE_SCOPES
    ensures !Acceptable(table, ids)
  {
  }

  /** The part of a request that reads: remembered plans are checked for existence, the others are
      read and parsed, and the bytes of all of them are counted against one budget. */
  method Gather(table: Table, ids: set<AttemptId>, remembered: map<AttemptId, Entry>, ghost ever: Table)
    returns (loaded: Option<map<AttemptId, Entry>>)
    requires |ids| <= MAX_SOURCE_SCOPES && remembered.Keys <= ids
    requires forall k | k in table :: k in ever && ever[k] == table[k]
    requires forall k | k in remembered ::
               k in ever && Readable(ever[k]) && ever[k].parsed == Some(remembered[k].parsed)
               && ever[k].size == remembered[k].size
    ensures loaded.Some? <==> Acceptable(table, ids)
    ensures loaded.Some? ==> loaded.value.Keys == ids - remembered.Keys
    ensures loaded.Some? ==> forall k | k in loaded.value ::
              k in table && Readable(table[k]) && table[k].parsed == Some(loaded.value[k].parsed)
              && table[k].size == loaded.value[k].size
    ensures loaded.Some? ==> forall k | k in remembered :: k in table && table[k].parsed == Some(remembered[k].parsed)
  {
    if !(remembered.Keys <= table.Keys) {
      return None;
    }
    var missing := ids - remembered.Keys;
    SubsetSize(missing, ids);
    RememberedSizes(table, ever, ids, remembered);
    Decided(table, ids, remembered);
    hide SizeOf, Acceptable;
    var rows := ReadScopePlans(table, missing);
    if rows.None? {
      return None;
    }
    loaded := Parse(rows.value);
    if loaded.None? {
      return None;
    }
    var total := TotalSize(table, remembered.Keys, remembered);
    var more := TotalSize(table, missing, loaded.value);
    if total + more > MAX_MANIFEST_BYTES {
      return None;
    }
  }

  /** What is remembered of a request counts as much, and is as readable, as what is stored. */
  lemma RememberedSizes(table: Table, ever: Table, ids: set<AttemptId>, remembered: map<AttemptId, Entry>)
    requires forall k | k in table :: k in ever && ever[k] == table[k]
    requires remembered.Keys <= ids && remembered.Keys <= table.Keys
    requires forall k | k in remembered ::
               k in ever && Readable(ever[k]) && ever[k].parsed == Some(remembered[k].parsed)
               && ever[k].size == remembered[k].size
    ensures var missing := ids - remembered.Keys;
      && (ids <= table.Keys <==> missing <= table.Keys)
      && (ids <= table.Keys ==> SizeOf(table, ids) == SizeOf(table, remembered.Keys) + SizeOf(table, missing))
      && (forall k | k in remembered :: Readable(table[k]) && table[k].parsed == Some(remembered[k].parsed)
                                        && table[k].size == remembered[k].size)
  {
    var missing := ids - remembered.Keys;
    assert remembered.Keys + missing == ids;
    if ids <= table.Keys {
      SizeUnion(table, remembered.Keys, missing);
    }
  }

  /** The tests on what is missing and on the total decide as an uncached read does. */
  lemma Decided(table: Table, ids: set<AttemptId>, remembered: map<AttemptId, Entry>)
    requires remembered.Keys <= ids && remembered.Keys <= table.Keys && |ids| <= MAX_SOURCE_SCOPES
    requires forall k | k in remembered :: Readable(table[k]) && table[k].parsed == Some(remembered[k].parsed)
    requires var missing := ids - remembered.Keys;
             ids <= table.Keys ==> SizeOf(table, ids) == SizeOf(table, remembered.Keys) + SizeOf(table, missing)
    ensures var missing := ids - remembered.Keys;
      Acceptable(table, ids) <==>
        && missing <= table.Keys
        && (forall k | k in missing :: Readable(table[k]))
        && (forall k | k in missing :: table[k].parsed.Some?)
        && SizeOf(table, remembered.Keys) + SizeOf(table, missing) <= MAX_MANIFEST_BYTES
  {
    var missing := ids - remembered.Keys;
    assert forall k :: k in ids <==> k in remembered || k in missing;
  }

  /** Each row is parsed; one that does not parse fails the request. */
  method Parse(rows: Table) returns (loaded: Option<map<AttemptId, Entry>>)
    ensures loaded.Some? <==> forall k | k in rows :: rows[k].parsed.Some?
    ensures loaded.Some? ==> loaded.value.Keys == rows.Keys
    ensures loaded.Some? ==> forall k | k in rows :: loaded.value[k] == Entry(rows[k].parsed.value, rows[k].size)
  {
    var done: map<AttemptId, Entry> := map[];
    var rest := rows.Keys;
    while rest != {}
      invariant rest <= rows.Keys && done.Keys == rows.Keys - rest
      invariant forall k | k in done :: rows[k].parsed.Some? && done[k] == Entry(rows[k].parsed.value, rows[k].size)
      decreases rest
    {
      var k := Least(rest);
      if rows[k].parsed.None? {
        return None;
      }
      done := done[k := Entry(rows[k].parsed.value, rows[k].size)];
      rest := rest - {k};
    }
    loaded := Some(done);
  }

  /** The sum over the entries of a request. */
  method TotalSize(ghost table: Table, ids: set<AttemptId>, found: map<AttemptId, Entry>) returns (total: nat)
    requires ids <= table.Keys && ids <= found.Keys && forall k | k in ids :: found[k].size == table[k].size
    ensures total == SizeOf(table, ids)
  {
    total := 0;
    var rest := ids;
    while rest != {}
      invariant rest <= ids && total == SizeOf(table, ids - rest)
      decreases rest
    {
      var k := Least(rest);
      NextSize(table, ids, rest, k);
      total := total + found[k].size;
      rest := rest - {k};
    }
    assert ids - {} == ids;
  }

  /** A request: the plans stored when it is served, and the attempts it names. */
  datatype Request = Request(table: Table, ids: set<AttemptId>)

  /** A process serves requests one after the other; plans may be added or lost in between, never
      changed.  Every answer is that of a process that remembers nothing. */
  method Serve(requests: seq<Request>, ghost ever: Table) returns (answers: seq<Option<map<AttemptId, nat>>>)
    requires forall i, k | 0 <= i < |requests| && k in requests[i].table ::
               k in ever && ever[k] == requests[i].table[k]
    ensures |answers| == |requests|
    ensures forall i | 0 <= i < |requests| :: answers[i] == Uncached(requests[i].table, requests[i].ids)
  {
    var cache := new Cache();
    answers := [];
    for i := 0 to |requests|
      invariant cache.Valid() && cache.Remembers(ever) && fresh(cache)
      invariant |answers| == i
      invariant forall j | 0 <= j < i :: answers[j] == Uncached(requests[j].table, requests[j].ids)
    {
      var answer := cache.ParsedScopePlans(requests[i].table, requests[i].ids, ever);
      answers := answers + [answer];
    }
  }
}
