/** Reader handles: when a first page reuses one, what a fallback finds, how they are renewed and
    pruned, and the bounded retry that checks the files before a handle is handed out. */
module SnapshotHandles {
  import opened ExportTypes
  import opened Heads
  import opened Pipeline

  /** `manifest` is the digest of the manifest, which names its selection. */
  datatype Handle = Handle(manifest: nat, selection: nat, expires: Time, order: nat)

  class Handles {
    var rows: map<SnapshotId, Handle>
    var issued: nat

    /** Issue orders are distinct and below the counter; equal manifests are of one selection. */
    ghost predicate Valid()
      reads this
    {
      && (forall s | s in rows :: rows[s].order < issued)
      && (forall s, t | s in rows && t in rows && rows[s].order == rows[t].order :: s == t)
      && (forall s, t | s in rows && t in rows && rows[s].manifest == rows[t].manifest ::
            rows[s].selection == rows[t].selection)
    }

    /** The handle issued last for a selection. */
    ghost predicate Latest(s: SnapshotId, selection: nat)
      reads this
    {
      && s in rows && rows[s].selection == selection
      && forall t | t in rows && rows[t].selection == selection :: rows[t].order <= rows[s].order
    }

    constructor ()
      ensures Valid() && rows == map[]
    {
      rows, issued := map[], 0;
    }

    /** `ORDER BY issue_order DESC LIMIT 1` over some of the rows. */
    method Newest(wanted: set<SnapshotId>) returns (found: Option<SnapshotId>)
      requires wanted <= rows.Keys
      ensures found.None? <==> wanted == {}
      ensures found.Some? ==>
        found.value in wanted && forall t | t in wanted :: rows[t].order <= rows[found.value].order
    {
      found := None;
      var rest := wanted;
      while rest != {}
        invariant rest <= wanted
        invariant found.None? <==> rest == wanted
        invariant found.Some? ==>
          found.value in wanted && forall t | t in wanted - rest :: rows[t].order <= rows[found.value].order
        decreases rest
      {
        var s := Least(rest);
        if found.None? || rows[s].order > rows[found.value].order {
          found := Some(s);
        }
        rest := rest - {s};
      }
    }

    method Issue(id: SnapshotId, manifest: nat, selection: nat, now: Time)
      requires Valid() && id !in rows
      requires forall s | s in rows && rows[s].manifest == manifest :: rows[s].selection == selection
      modifies this
      ensures Valid() && rows == old(rows)[id := Handle(manifest, selection, now + 15 * 60 * 1000000, old(issued))]
      ensures Latest(id, selection)
    {
      rows := rows[id := Handle(manifest, selection, now + SNAPSHOT_TTL, issued)];
      issued := issued + 1;
    }

    /** The reuse rule of `_freeze`: an unexpired handle of the same manifest is answered again only
        if nothing newer was issued for its selection.  Either way the answer is afterwards the
        latest handle of the selection, and it holds the manifest asked for. */
    method Freeze(id: SnapshotId, manifest: nat, selection: nat, now: Time) returns (s: SnapshotId, reused: bool)
      requires Valid() && id !in rows
      requires forall t | t in rows && rows[t].manifest == manifest :: rows[t].selection == selection
      modifies this
      ensures Valid() && Latest(s, selection) && rows[s].manifest == manifest && rows[s].expires > now
      ensures reused ==> rows == old(rows)
      ensures !reused ==> s == id && rows == old(rows)[id := rows[id]]
      ensures reused <==> exists t :: t in old(rows) && old(rows)[t].manifest == manifest
                                      && old(rows)[t].expires > now && old(Latest(t, selection))
    {
      var same := set t | t in rows && rows[t].manifest == manifest && rows[t].expires > now;
      var previous := Newest(same);
      if previous.Some?
         && !(exists t | t in rows :: rows[t].selection == selection && rows[t].order > rows[previous.value].order) {
        return previous.value, true;
      }
      forall t | t in rows && rows[t].manifest == manifest && rows[t].expires > now
        ensures !Latest(t, selection)
      {
        assert t in same;
        var newer :| newer in rows && rows[newer].selection == selection
                     && rows[newer].order > rows[previous.value].order;
        assert rows[t].order < rows[newer].order;
      }
      Issue(id, manifest, selection, now);
      return id, false;
    }

    /** `_previous_success`: the manifest that was issued last, behind a live handle. */
    method PreviousSuccess(id: SnapshotId, selection: nat, now: Time) returns (s: Option<SnapshotId>)
      requires Valid() && id !in rows
      modifies this
      ensures Valid()
      ensures s.None? <==> forall t | t in old(rows) :: old(rows)[t].selection != selection
      ensures s.None? ==> rows == old(rows)
      ensures s.Some? ==> Latest(s.value, selection) && rows[s.value].expires > now
      ensures forall t | old(Latest(t, selection)) :: s.Some? && rows[s.value].manifest == old(rows)[t].manifest
    {
      var wanted := set t | t in rows && rows[t].selection == selection;
      var last := Newest(wanted);
      if last.None? {
        assert forall t | t in rows :: t !in wanted;
        return None;
      }
      var row := rows[last.value];
      assert forall t | Latest(t, selection) :: t in wanted && t == last.value;
      if row.expires > now {
        return last;
      }
      Issue(id, row.manifest, selection, now);
      return Some(id);
    }

    /** `_renew_reused`: an unexpired handle is extended, never shortened. */
    method Renew(s: SnapshotId, now: Time)
      requires Valid()
      modifies this
      ensures Valid() && rows.Keys == old(rows).Keys && issued == old(issued)
      ensures forall t | t in rows && t != s :: rows[t] == old(rows)[t]
      ensures s in rows ==>
        rows[s] == old(rows)[s].(expires := rows[s].expires) && rows[s].expires >= old(rows)[s].expires
      ensures s in rows && old(rows)[s].expires > now ==> rows[s].expires >= now + 15 * 60 * 1000000
      ensures s in rows && old(rows)[s].expires <= now ==> rows == old(rows)
    {
      if s in rows && rows[s].expires > now {
        var until := if rows[s].expires < now + SNAPSHOT_TTL then now + SNAPSHOT_TTL else rows[s].expires;
        rows := rows[s := rows[s].(expires := until)];
      }
    }

    method Remove(s: SnapshotId)
      requires Valid() && s in rows
      modifies `rows
      ensures Valid() && rows == old(rows) - {s} && |rows| == |old(rows)| - 1
    {
      OneLess(rows, s);
      rows := rows - {s};
    }

    /** `prune_export_snapshots`: of the handles that expired more than `retain` ago, the first
        `limit` to expire go.  Handles locked by somebody else are passed over. */
    method Prune(now: Time, retain: nat, limit: nat, locked: set<SnapshotId>)
      requires Valid()
      modifies this
      ensures Valid() && rows.Keys <= old(rows).Keys
      ensures forall s | s in rows :: rows[s] == old(rows)[s]
      ensures forall s | s in old(rows) && s !in rows :: old(rows)[s].expires < now - retain && s !in locked
      ensures var due := set s | s in old(rows) && old(rows)[s].expires < now - retain && s !in locked;
        |old(rows)| - |rows| == if limit < |due| then limit else |due|
      ensures forall s, t | s in old(rows) && s !in rows && t in rows && t !in locked ::
                rows[t].expires >= old(rows)[s].expires
    {
      hide Valid;
      var victims := set s | s in rows && rows[s].expires < now - retain && s !in locked;
      ghost var due := victims;
      var left := limit;
      while victims != {} && left > 0
        invariant Valid() && rows.Keys <= old(rows).Keys && victims <= rows.Keys
        invariant |old(rows)| - |rows| == limit - left == |due| - |victims|
        invariant forall s | s in rows && rows[s].expires < now - retain && s !in locked :: s in victims
        invariant forall s, t | s in old(rows) && s !in rows && t in victims :: rows[t].expires >= old(rows)[s].expires
        invariant forall s | s in rows :: rows[s] == old(rows)[s]
        invariant forall s | s in victims :: old(rows)[s].expires < now - retain && s !in locked
        invariant forall s | s in old(rows) && s !in rows :: old(rows)[s].expires < now - retain && s !in locked
        decreases victims
      {
        var s := FirstToExpire(rows, victims);
        Remove(s);
        victims := victims - {s};
        left := left - 1;
      }
      assert due == set s | s in old(rows) && old(rows)[s].expires < now - retain && s !in locked;
      assert victims == {} <==> |victims| == 0;
    }
  }

  predicate ExpiresFirst(rows: map<SnapshotId, Handle>, victims: set<SnapshotId>, s: SnapshotId)
    requires victims <= rows.Keys
  {
    s in victims && forall t | t in victims :: rows[s].expires <= rows[t].expires
  }

  lemma FirstExists(rows: map<SnapshotId, Handle>, victims: set<SnapshotId>)
    requires victims <= rows.Keys && victims != {}
    ensures exists s :: ExpiresFirst(rows, victims, s)
  {
    var k :| k in victims;
    assert forall t | t in victims :: t == k || t in victims - {k};
    if victims - {k} == {} {
      assert ExpiresFirst(rows, victims, k);
    } else {
      FirstExists(rows, victims - {k});
      var s :| ExpiresFirst(rows, victims - {k}, s);
      assert ExpiresFirst(rows, victims, if rows[k].expires < rows[s].expires then k else s);
    }
  }

  /** `ORDER BY expires_at`. */
  method FirstToExpire(rows: map<SnapshotId, Handle>, victims: set<SnapshotId>) returns (s: SnapshotId)
    requires victims <= rows.Keys && victims != {}
    ensures ExpiresFirst(rows, victims, s)
  {
    FirstExists(rows, victims);
    s :| ExpiresFirst(rows, victims, s);
  }

  lemma OneLess(rows: map<SnapshotId, Handle>, s: SnapshotId)
    requires s in rows
    ensures |rows - {s}| == |rows| - 1
  {
    assert (rows - {s}).Keys == rows.Keys - {s};
  }

  // ---- the check before a handle is handed out ----------------------------------

  /** The references of every generation of a manifest, in order. */
  function ManifestRefs(db: Db, generations: seq<GenerationId>): seq<Ref>
    requires forall g | g in generations :: g in db.generations
  {
    if generations == [] then []
    else
      ManifestRefs(db, generations[..|generations| - 1])
      + db.generations[generations[|generations| - 1]].refs
  }

  lemma PresentParts(files: map<Digest, Time>, a: seq<Ref>, b: seq<Ref>)
    ensures AllPresent(files, a + b) <==> AllPresent(files, a) && AllPresent(files, b)
  {
    if AllPresent(files, a + b) {
      assert forall i | 0 <= i < |a| :: (a + b)[i] == a[i];
      assert forall i | 0 <= i < |b| :: (a + b)[|a| + i] == b[i];
    }
  }

  lemma {:induction false} EachPresent(db: Db, files: map<Digest, Time>, generations: seq<GenerationId>)
    requires forall g | g in generations :: g in db.generations
    ensures AllPresent(files, ManifestRefs(db, generations))
       <==> forall g | g in generations :: AllPresent(files, db.generations[g].refs)
  {
    if generations != [] {
      var front, last := generations[..|generations| - 1], generations[|generations| - 1];
      EachPresent(db, files, front);
      PresentParts(files, ManifestRefs(db, front), db.generations[last].refs);
      hide AllPresent;
      assert generations == front + [last];
    }
  }

  /** The check of a manifest's references is the pipeline's test for handing its snapshot out. */
  lemma CheckedIsPresent(w: World, s: SnapshotId)
    requires s in w.db.snapshots && forall g | g in w.db.snapshots[s].generations :: g in w.db.generations
    ensures AllPresent(w.files, ManifestRefs(w.db, w.db.snapshots[s].generations)) <==> SnapshotPresent(w, s)
  {
    hide AllPresent;
    EachPresent(w.db, w.files, w.db.snapshots[s].generations);
  }

  /** `all_present`, under the shared guard: the store does not change during the loop. */
  method AllRefsPresent(files: map<Digest, Time>, refs: seq<Ref>) returns (present: bool)
    ensures present <==> AllPresent(files, refs)
  {
    var i := 0;
    while i < |refs|
      invariant 0 <= i <= |refs| && AllPresent(files, refs[..i])
    {
      if refs[i].digest !in files || ByteCount(refs[i].digest) != refs[i].bytes {
        return false;
      }
      assert refs[..i + 1] == refs[..i] + [refs[i]];
      i := i + 1;
    }
    assert refs[..|refs|] == refs;
    present := true;
  }

  /** What one `issue()` answers. */
  datatype Issue = Issue(handle: SnapshotId, refs: seq<Ref>)

  /** `ensure_snapshot_files`: issued at most three times, checked at most twice; `stores` is the
      file store at each check.  A handle is returned exactly when a check passes, and it is the
      first that passed. */
  method EnsureSnapshotFiles(issues: seq<Issue>, stores: seq<map<Digest, Time>>)
    returns (frozen: Option<SnapshotId>, calls: nat)
    requires |issues| == 3 && |stores| == 2
    ensures frozen == (if AllPresent(stores[0], issues[0].refs) then Some(issues[0].handle)
                       else if AllPresent(stores[1], issues[1].refs) then Some(issues[1].handle)
                       else None)
    ensures calls == if AllPresent(stores[0], issues[0].refs) then 1
                     else if AllPresent(stores[1], issues[1].refs) then 2 else 3
  {
    hide AllPresent;
    var current := issues[0];
    calls := 1;
    var i := 0;
    while i < 2
      invariant 0 <= i <= 2 && calls == i + 1 && current == issues[i]
      invariant forall j | 0 <= j < i :: !AllPresent(stores[j], issues[j].refs)
    {
      var present := AllRefsPresent(stores[i], current.refs);
      if present {
        return Some(current.handle), calls;
      }
      current := issues[calls];
      calls := calls + 1;
      i := i + 1;
    }
    frozen := None;
  }
}
