/** Cursor paging over a frozen snapshot: pages are cut by an item limit and a byte limit, and a
    cursor names a group and a position in it.  The three readers differ in their loops; all
    are proved against one greedy specification, and following the cursor from the first page
    to the last yields the whole list once. */
module Paging {

  const PAGE_BYTES: nat := 4 * 1024 * 1024 - 8192

  /** `size` counts the encoded bytes and the separator. */
  datatype Item = Item(id: nat, size: nat)

  /** A position of a group: an item, or a location whose forecast has passed. */
  datatype Entry = Value(item: Item) | Passed

  /** A scope of the manifest; `known` when it was not published after the client's watermark. */
  datatype Group = Group(entries: seq<Entry>, known: bool)

  datatype Cursor = Cursor(g: nat, p: nat)

  datatype Page = Page(items: seq<Item>, next: Cursor, more: bool) | BadCursor | TooLarge

  // ---- the list that is paged ------------------------------------------------

  function Items(entries: seq<Entry>): seq<Item> {
    if entries == [] then []
    else (if entries[0].Value? then [entries[0].item] else []) + Items(entries[1..])
  }

  function ItemsOf(group: Group): seq<Item> {
    if group.known then [] else Items(group.entries)
  }

  function Flat(groups: seq<Group>): seq<Item> {
    if groups == [] then [] else ItemsOf(groups[0]) + Flat(groups[1..])
  }

  predicate InRange(groups: seq<Group>, c: Cursor) {
    c.g <= |groups| && (c.g < |groups| && !groups[c.g].known ==> c.p <= |groups[c.g].entries|)
  }

  /** What a cursor still has to deliver. */
  function Rest(groups: seq<Group>, c: Cursor): seq<Item>
    requires InRange(groups, c)
  {
    if c.g == |groups| then []
    else (if groups[c.g].known then [] else Items(groups[c.g].entries[c.p..])) + Flat(groups[c.g + 1..])
  }

  function Bytes(items: seq<Item>): nat {
    if items == [] then 0 else Bytes(items[..|items| - 1]) + items[|items| - 1].size
  }

  // ---- one page --------------------------------------------------------------

  /** `items` is the longest prefix of `all` that respects both limits. */
  ghost predicate Greedy(all: seq<Item>, limit: nat, items: seq<Item>) {
    && items <= all && |items| <= limit && Bytes(items) <= PAGE_BYTES
    && (|items| < |all| ==> |items| == limit || Bytes(items) + all[|items|].size > PAGE_BYTES)
  }

  /** The answer to a request: the greedy page, or a failure because the next item alone is too
      large for any page. */
  ghost predicate Answers(groups: seq<Group>, c: Cursor, limit: nat, page: Page) {
    match page
    case BadCursor => !InRange(groups, c)
    case TooLarge =>
      InRange(groups, c)
      && exists n: nat :: n < |Rest(groups, c)| && Greedy(Rest(groups, c), limit, Rest(groups, c)[..n])
                          && Rest(groups, c)[n].size > PAGE_BYTES
    case Page(items, next, more) =>
      && InRange(groups, c) && Greedy(Rest(groups, c), limit, items)
      && InRange(groups, next) && Rest(groups, c) == items + Rest(groups, next)
      && (more <==> Rest(groups, next) != [])
      && (more ==> Rest(groups, next)[0].size <= PAGE_BYTES)
  }

  lemma {:induction false} GreedyPrefix(all: seq<Item>, items: seq<Item>, rest: seq<Item>, limit: nat)
    requires all == items + rest && |items| <= limit && Bytes(items) <= PAGE_BYTES
    requires rest != [] ==> |items| == limit || Bytes(items) + rest[0].size > PAGE_BYTES
    ensures Greedy(all, limit, items)
  {
    if rest != [] { assert all[|items|] == rest[0]; }
  }

  /** At the start of a group, what is left is the list of the remaining groups. */
  lemma RestAtGroup(groups: seq<Group>, g: nat)
    requires g <= |groups|
    ensures InRange(groups, Cursor(g, 0)) && Rest(groups, Cursor(g, 0)) == Flat(groups[g..])
  {
    if g < |groups| {
      assert groups[g..][0] == groups[g] && groups[g..][1..] == groups[g + 1..];
      assert groups[g].entries[0..] == groups[g].entries;
    }
  }

  lemma GroupDone(groups: seq<Group>, c: Cursor)
    requires InRange(groups, c) && c.g < |groups|
    requires groups[c.g].known || c.p == |groups[c.g].entries|
    ensures InRange(groups, Cursor(c.g + 1, 0)) && Rest(groups, c) == Rest(groups, Cursor(c.g + 1, 0))
  {
    hide Flat;
    RestAtGroup(groups, c.g + 1);
  }

  lemma ItemsFrom(entries: seq<Entry>, p: nat)
    requires p < |entries|
    ensures entries[p].Passed? ==> Items(entries[p..]) == Items(entries[p + 1..])
    ensures entries[p].Value? ==> Items(entries[p..]) == [entries[p].item] + Items(entries[p + 1..])
  {
    assert entries[p..][0] == entries[p] && entries[p..][1..] == entries[p + 1..];
  }

  lemma EntryDone(groups: seq<Group>, c: Cursor)
    requires InRange(groups, c) && c.g < |groups|
    requires !groups[c.g].known && c.p < |groups[c.g].entries|
    ensures InRange(groups, Cursor(c.g, c.p + 1))
    ensures groups[c.g].entries[c.p].Passed? ==> Rest(groups, c) == Rest(groups, Cursor(c.g, c.p + 1))
    ensures groups[c.g].entries[c.p].Value? ==>
              Rest(groups, c) == [groups[c.g].entries[c.p].item] + Rest(groups, Cursor(c.g, c.p + 1))
  {
    hide Flat, Items;
    ItemsFrom(groups[c.g].entries, c.p);
  }

  lemma EndRest(groups: seq<Group>, c: Cursor)
    requires c.g == |groups|
    ensures InRange(groups, c) && Rest(groups, c) == []
  {
  }

  /** One more item fits on the page. */
  lemma OutputMore(output: seq<Item>, item: Item, rest: seq<Item>)
    ensures output + ([item] + rest) == output + [item] + rest
    ensures Bytes(output + [item]) == Bytes(output) + item.size
  {
    BytesOfMore(output, item);
  }

  lemma BytesOfMore(items: seq<Item>, i: Item)
    ensures Bytes(items + [i]) == Bytes(items) + i.size
  {
    assert (items + [i])[..|items|] == items;
  }

  /** The forecast reader: scopes the client knows are skipped, passed locations are left out,
      `more` is set where an item is refused.  The current-value reader has the same loops over
      groups in which nothing is known and nothing has passed. */
  method ForecastPage(groups: seq<Group>, start: Cursor, limit: nat) returns (page: Page)
    requires limit >= 1
    ensures Answers(groups, start, limit, page)
  {
    hide Rest, Bytes, Greedy;
    var output, size, more := [], 0, false;
    var c := start;
    if c.g > |groups| {
      return BadCursor;
    }
    assert Bytes([]) == 0 by { BytesOfNone(); }
    while c.g < |groups|
      invariant c.g <= |groups| && (InRange(groups, start) <==> InRange(groups, c))
      invariant InRange(groups, start) ==> Rest(groups, start) == output + Rest(groups, c)
      invariant |output| <= limit && size == Bytes(output) <= PAGE_BYTES && !more
      decreases |groups| - c.g
    {
      var group := groups[c.g];
      if group.known {
        GroupDone(groups, c);
        c := Cursor(c.g + 1, 0);
        continue;
      }
      if c.p > |group.entries| {
        return BadCursor;
      }
      ghost var g := c.g;
      while c.p < |group.entries|
        invariant c.g == g < |groups| && groups[c.g] == group && c.p <= |group.entries|
        invariant InRange(groups, start) && InRange(groups, c)
        invariant Rest(groups, start) == output + Rest(groups, c)
        invariant |output| <= limit && size == Bytes(output) <= PAGE_BYTES && !more
        decreases |group.entries| - c.p
      {
        EntryDone(groups, c);
        if group.entries[c.p].Passed? {
          c := c.(p := c.p + 1);
          continue;
        }
        var item := group.entries[c.p].item;
        if item.size > PAGE_BYTES {
          Oversize(Rest(groups, start), output, Rest(groups, c), limit);
          return TooLarge;
        }
        if |output| >= limit || size + item.size > PAGE_BYTES {
          GreedyPrefix(Rest(groups, start), output, Rest(groups, c), limit);
          more := true;
          break;
        }
        OutputMore(output, item, Rest(groups, c.(p := c.p + 1)));
        output := output + [item];
        size := size + item.size;
        c := c.(p := c.p + 1);
      }
      if more {
        return Page(output, c, true);
      }
      GroupDone(groups, c);
      c := Cursor(c.g + 1, 0);
    }
    EndRest(groups, c);
    GreedyPrefix(Rest(groups, start), output, Rest(groups, c), limit);
    page := Page(output, c, false);
  }

  lemma BytesOfNone()
    ensures Bytes([]) == 0
  {
  }

  lemma Oversize(all: seq<Item>, items: seq<Item>, rest: seq<Item>, limit: nat)
    requires all == items + rest && |items| <= limit && Bytes(items) <= PAGE_BYTES
    requires rest != [] && rest[0].size > PAGE_BYTES
    ensures exists n: nat :: n < |all| && Greedy(all, limit, all[..n]) && all[n].size > PAGE_BYTES
  {
    GreedyPrefix(all, items, rest, limit);
    assert all[..|items|] == items && all[|items|] == rest[0];
  }

  /** The daily reader: every location has the same number of positions, and `more` is read off
      the cursor after the loops. */
  method DailyPage(groups: seq<Group>, positions: nat, start: Cursor, limit: nat) returns (page: Page)
    requires limit >= 1 && positions >= 1
    requires forall i | 0 <= i < |groups| :: !groups[i].known && |groups[i].entries| == positions
    requires forall i, j | 0 <= i < |groups| && 0 <= j < positions :: groups[i].entries[j].Value?
    ensures Answers(groups, start, limit, page)
         || (page.BadCursor? && start.g == |groups| && start.p > positions)
  {
    hide Rest, Bytes, Greedy;
    var output, size := [], 0;
    var c := start;
    if c.g > |groups| || c.p > positions {
      return BadCursor;
    }
    assert Bytes([]) == 0 by { BytesOfNone(); }
    while c.g < |groups|
      invariant c.g <= |groups| && InRange(groups, c) && (c.g < |groups| ==> c.p <= positions)
      invariant Rest(groups, start) == output + Rest(groups, c)
      invariant |output| <= limit && size == Bytes(output) <= PAGE_BYTES
      decreases |groups| - c.g
    {
      var entries := groups[c.g].entries;
      ghost var g := c.g;
      while c.p < positions
        invariant c.g == g < |groups| && groups[c.g].entries == entries && c.p <= positions
        invariant InRange(groups, c) && Rest(groups, start) == output + Rest(groups, c)
        invariant |output| <= limit && size == Bytes(output) <= PAGE_BYTES
        decreases positions - c.p
      {
        EntryDone(groups, c);
        var item := entries[c.p].item;
        if item.size > PAGE_BYTES {
          Oversize(Rest(groups, start), output, Rest(groups, c), limit);
          return TooLarge;
        }
        if |output| >= limit || size + item.size > PAGE_BYTES {
          GreedyPrefix(Rest(groups, start), output, Rest(groups, c), limit);
          break;
        }
        OutputMore(output, item, Rest(groups, c.(p := c.p + 1)));
        output := output + [item];
        size := size + item.size;
        c := c.(p := c.p + 1);
      }
      if c.p < positions {
        break;
      }
      GroupDone(groups, c);
      c := Cursor(c.g + 1, 0);
    }
    if c.g == |groups| {
      EndRest(groups, c);
      GreedyPrefix(Rest(groups, start), output, Rest(groups, c), limit);
    }
    page := Page(output, c, c.g < |groups|);
  }

  /** A flat list as one group. */
  function Whole(items: seq<Item>): Group {
    Group(seq(|items|, i requires 0 <= i < |items| => Value(items[i])), false)
  }

  lemma {:induction false} WholeItems(items: seq<Item>, p: nat)
    requires p <= |items|
    ensures Items(Whole(items).entries[p..]) == items[p..]
    decreases |items| - p
  {
    if p < |items| {
      WholeItems(items, p + 1);
      ItemsFrom(Whole(items).entries, p);
      assert items[p..] == [items[p]] + items[p + 1..];
    }
  }

  lemma WholeRest(items: seq<Item>, p: nat)
    requires p <= |items|
    ensures InRange([Whole(items)], Cursor(0, p)) && Rest([Whole(items)], Cursor(0, p)) == items[p..]
    ensures Flat([Whole(items)]) == items
  {
    WholeItems(items, p);
    WholeItems(items, 0);
    assert Whole(items).entries[0..] == Whole(items).entries;
    assert Flat([Whole(items)]) == ItemsOf(Whole(items)) + Flat([]);
    assert [Whole(items)][1..] == [];
  }

  /** The place where a page of at most `limit` items would stop because of one item alone. */
  ghost predicate StopsAt(all: seq<Item>, limit: nat, n: nat) {
    n < |all| && Greedy(all, limit, all[..n]) && all[n].size > PAGE_BYTES
  }

  /** The location list: one slice, cut by bytes.  An item beyond the slice is not looked at. */
  method LocationsPage(items: seq<Item>, start: Cursor, limit: nat) returns (page: Page)
    requires limit >= 1
    ensures page.BadCursor? <==> start.g != 0 || start.p > |items|
    ensures page.Page? ==>
      && Greedy(items[start.p..], limit, page.items)
      && page.next == Cursor(0, start.p + |page.items|) && (page.more <==> page.next.p < |items|)
    ensures page.TooLarge? <==>
      start.g == 0 && start.p <= |items| && exists n :: 0 <= n < limit && StopsAt(items[start.p..], limit, n)
  {
    hide Bytes, Greedy, StopsAt;
    if start.g != 0 || start.p > |items| {
      return BadCursor;
    }
    var output, size := [], 0;
    assert Bytes([]) == 0 by { BytesOfNone(); }
    var stop := if start.p + limit < |items| then start.p + limit else |items|;
    var i := start.p;
    ghost var all := items[start.p..];
    while i < stop
      invariant start.p <= i <= stop
      invariant output == items[start.p..i] == all[..i - start.p] && size == Bytes(output) <= PAGE_BYTES
    {
      var item := items[i];
      if item.size > PAGE_BYTES {
        SliceSplit(items, start.p, i);
        Stops(all, output, items[i..], limit);
        return TooLarge;
      }
      if size + item.size > PAGE_BYTES {
        break;
      }
      assert items[start.p..i + 1] == items[start.p..i] + [item];
      BytesOfMore(output, item);
      output := output + [item];
      size := size + item.size;
      i := i + 1;
    }
    var next := start.p + |output|;
    SliceSplit(items, start.p, next);
    assert next < |items| ==> items[next..][0] == items[next];
    GreedyPrefix(all, output, items[next..], limit);
    forall n | 0 <= n < limit ensures !StopsAt(all, limit, n) {
      StopsElsewhere(all, output, limit, n);
    }
    page := Page(output, Cursor(0, next), next < |items|);
  }

  lemma Stops(all: seq<Item>, items: seq<Item>, rest: seq<Item>, limit: nat)
    requires all == items + rest && |items| < limit && Bytes(items) <= PAGE_BYTES
    requires rest != [] && rest[0].size > PAGE_BYTES
    ensures StopsAt(all, limit, |items|)
  {
    GreedyPrefix(all, items, rest, limit);
    assert all[..|items|] == items && all[|items|] == rest[0];
  }

  lemma StopsElsewhere(all: seq<Item>, items: seq<Item>, limit: nat, n: nat)
    requires Greedy(all, limit, items) && n < limit
    requires |items| < |all| && |items| < limit ==> all[|items|].size <= PAGE_BYTES
    ensures !StopsAt(all, limit, n)
  {
    if StopsAt(all, limit, n) {
      GreedyUnique(all, limit, items, all[..n]);
    }
  }

  lemma SliceSplit(items: seq<Item>, start: nat, next: nat)
    requires start <= next <= |items|
    ensures items[start..] == items[start..next] + items[next..]
  {
  }

  // ---- following the cursor ---------------------------------------------------

  /** A greedy page is determined by the list and the limits. */
  lemma GreedyUnique(all: seq<Item>, limit: nat, a: seq<Item>, b: seq<Item>)
    requires Greedy(all, limit, a) && Greedy(all, limit, b)
    ensures a == b
  {
    if |a| < |b| {
      LongerIsHeavier(all, a, b);
    } else if |b| < |a| {
      LongerIsHeavier(all, b, a);
    }
  }

  lemma {:induction false} LongerIsHeavier(all: seq<Item>, a: seq<Item>, b: seq<Item>)
    requires a <= all && b <= all && |a| < |b|
    ensures Bytes(b) >= Bytes(a) + all[|a|].size
  {
    var front := b[..|b| - 1];
    if |front| == |a| {
      assert front == a;
    } else {
      LongerIsHeavier(all, a, front);
    }
  }

  /** A page that announces more is never empty, so a client that follows the cursor makes
      progress with every page. */
  lemma MoreMeansProgress(groups: seq<Group>, c: Cursor, limit: nat, page: Page)
    requires limit >= 1 && Answers(groups, c, limit, page) && page.Page? && page.more
    ensures page.items != [] && |Rest(groups, page.next)| < |Rest(groups, c)|
  {
  }

  /** What all three readers promise a client: a greedy page and the cursor of the rest, not empty
      while more is to come; or a failure because of one item that fits no page. */
  ghost predicate Serves(groups: seq<Group>, c: Cursor, limit: nat, page: Page) {
    InRange(groups, c) &&
    match page
    case BadCursor => false
    case TooLarge => exists n: nat :: StopsAt(Rest(groups, c), limit, n)
    case Page(items, next, more) =>
      && Greedy(Rest(groups, c), limit, items)
      && InRange(groups, next) && Rest(groups, c) == items + Rest(groups, next)
      && (more <==> Rest(groups, next) != []) && (more ==> items != [])
  }

  lemma AnswersServe(groups: seq<Group>, c: Cursor, limit: nat, page: Page)
    requires limit >= 1 && InRange(groups, c) && Answers(groups, c, limit, page)
    ensures Serves(groups, c, limit, page)
  {
    hide Rest, Bytes;
    if page.Page? && page.more {
      MoreMeansProgress(groups, c, limit, page);
    }
    if page.TooLarge? {
      hide Greedy;
      var rest := Rest(groups, c);
      var n: nat :| n < |rest| && Greedy(rest, limit, rest[..n]) && rest[n].size > PAGE_BYTES;
      assert StopsAt(rest, limit, n);
    }
  }

  lemma EmptyPageStops(all: seq<Item>, items: seq<Item>, limit: nat)
    ensures limit >= 1 && Greedy(all, limit, items) && items == [] && all != [] ==> StopsAt(all, limit, 0)
  {
  }

  lemma LocationsServe(items: seq<Item>, c: Cursor, limit: nat, page: Page)
    requires limit >= 1 && c.g == 0 && c.p <= |items|
    requires page.Page? || (page.TooLarge? && exists n :: 0 <= n < limit && StopsAt(items[c.p..], limit, n))
    requires page.Page? ==>
      && Greedy(items[c.p..], limit, page.items)
      && page.next == Cursor(0, c.p + |page.items|) && (page.more <==> page.next.p < |items|)
      && !(exists n :: 0 <= n < limit && StopsAt(items[c.p..], limit, n))
    ensures Serves([Whole(items)], c, limit, page)
  {
    hide Rest, Whole;
    WholeRest(items, c.p);
    if page.Page? {
      WholeRest(items, page.next.p);
      assert items[c.p..] == page.items + items[page.next.p..];
      EmptyPageStops(items[c.p..], page.items, limit);
    }
  }

  /** What a client asks one of the three readers for. */
  datatype Listing =
    | Forecasts(scopes: seq<Group>)
    | DailyValues(locations: seq<Group>, positions: nat)
    | Locations(items: seq<Item>)

  function GroupsOf(l: Listing): seq<Group> {
    match l
    case Forecasts(scopes) => scopes
    case DailyValues(locations, _) => locations
    case Locations(items) => [Whole(items)]
  }

  predicate Regular(l: Listing) {
    l.DailyValues? ==>
      && l.positions >= 1
      && (forall i | 0 <= i < |l.locations| ::
            !l.locations[i].known && |l.locations[i].entries| == l.positions)
      && (forall i, j | 0 <= i < |l.locations| && 0 <= j < l.positions :: l.locations[i].entries[j].Value?)
  }

  /** A request for the page at a cursor that a page handed out, or for the first page. */
  method Request(l: Listing, c: Cursor, limit: nat) returns (page: Page)
    requires limit >= 1 && Regular(l) && InRange(GroupsOf(l), c)
    requires c == Cursor(0, 0) || Rest(GroupsOf(l), c) != []
    ensures Serves(GroupsOf(l), c, limit, page)
  {
    hide Answers, Serves, Greedy, StopsAt, Bytes;
    match l
    case Forecasts(scopes) =>
      page := ForecastPage(scopes, c, limit);
      AnswersServe(scopes, c, limit, page);
    case DailyValues(locations, positions) =>
      page := DailyPage(locations, positions, c, limit);
      AnswersServe(locations, c, limit, page);
    case Locations(items) =>
      page := LocationsPage(items, c, limit);
      LocationsServe(items, c, limit, page);
  }

  /** What a client that follows the cursor has after some pages. */
  ghost predicate Following(groups: seq<Group>, limit: nat, pages: seq<seq<Item>>, c: Cursor) {
    && InRange(groups, c) && Joined(pages) + Rest(groups, c) == Flat(groups)
    && (forall i | 0 <= i < |pages| :: |pages[i]| <= limit && Bytes(pages[i]) <= PAGE_BYTES)
    && (forall i | 0 <= i < |Joined(pages)| :: Joined(pages)[i].size <= PAGE_BYTES)
  }

  lemma FollowPage(groups: seq<Group>, limit: nat, pages: seq<seq<Item>>, c: Cursor, page: Page)
    requires Following(groups, limit, pages, c) && Serves(groups, c, limit, page) && page.Page?
    ensures Following(groups, limit, pages + [page.items], page.next)
    ensures page.more ==> |Rest(groups, page.next)| < |Rest(groups, c)|
  {
    hide Rest, Flat;
    var items, rest := page.items, Rest(groups, page.next);
    JoinedMore(pages, items);
    FitsEach(items);
    assert Joined(pages) + (items + rest) == Joined(pages) + items + rest;
  }

  lemma FailedPage(groups: seq<Group>, limit: nat, pages: seq<seq<Item>>, c: Cursor)
    requires Following(groups, limit, pages, c) && Serves(groups, c, limit, TooLarge)
    ensures exists i :: 0 <= i < |Flat(groups)| && Flat(groups)[i].size > PAGE_BYTES
  {
    hide Flat, Greedy;
    var rest := Rest(groups, c);
    hide Rest;
    var n: nat :| StopsAt(rest, limit, n);
    assert Flat(groups)[|Joined(pages)| + n] == rest[n];
  }

  /** A client of any of the three readers that starts without a cursor and follows it to the end:
      it gets every item of the list once and in order, on pages within both limits, none empty
      before the last; it fails exactly when some item is too large for any page. */
  method ReadAll(l: Listing, limit: nat) returns (complete: bool, pages: seq<seq<Item>>)
    requires limit >= 1 && Regular(l)
    ensures complete ==> Joined(pages) == Flat(GroupsOf(l))
    ensures complete <==>
              forall i | 0 <= i < |Flat(GroupsOf(l))| :: Flat(GroupsOf(l))[i].size <= 4 * 1024 * 1024 - 8192
    ensures forall i | 0 <= i < |pages| :: |pages[i]| <= limit && Bytes(pages[i]) <= 4 * 1024 * 1024 - 8192
    ensures forall i | 0 <= i < |pages| - 1 :: pages[i] != []
  {
    hide Flat, Rest, Greedy, Bytes, StopsAt, GroupsOf, Regular;
    pages := [];
    var c := Cursor(0, 0);
    ghost var groups := GroupsOf(l);
    StartRest(groups);
    var more := true;
    while more
      invariant Following(groups, limit, pages, c)
      invariant forall i | 0 <= i < |pages| :: pages[i] != [] || (!more && i == |pages| - 1)
      invariant if more then c == Cursor(0, 0) || Rest(groups, c) != [] else Rest(groups, c) == []
      decreases |Rest(groups, c)|, more
    {
      var page := Request(l, c, limit);
      if page.TooLarge? {
        FailedPage(groups, limit, pages, c);
        return false, pages;
      }
      FollowPage(groups, limit, pages, c, page);
      pages := pages + [page.items];
      c := page.next;
      more := page.more;
    }
    assert Joined(pages) + [] == Joined(pages);
    complete := true;
  }

  function Joined(pages: seq<seq<Item>>): seq<Item> {
    if pages == [] then [] else Joined(pages[..|pages| - 1]) + pages[|pages| - 1]
  }

  lemma JoinedMore(pages: seq<seq<Item>>, items: seq<Item>)
    ensures Joined(pages + [items]) == Joined(pages) + items
  {
    assert (pages + [items])[..|pages|] == pages;
  }

  lemma {:induction false} FitsEach(items: seq<Item>)
    requires Bytes(items) <= PAGE_BYTES
    ensures forall i | 0 <= i < |items| :: items[i].size <= PAGE_BYTES
  {
    if items != [] {
      FitsEach(items[..|items| - 1]);
    }
  }

  lemma StartRest(groups: seq<Group>)
    ensures Rest(groups, Cursor(0, 0)) == Flat(groups)
  {
    if groups != [] {
      assert groups[0].entries[0..] == groups[0].entries;
    }
  }
}
