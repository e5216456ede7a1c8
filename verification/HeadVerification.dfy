/** The verification loops of a promotion, which run on the files outside any transaction:
    one point after the other, accumulating `semantic`, `seen`, `count` and `locations`. */
module HeadVerification {
  import opened ExportTypes
  import opened Heads
  import opened PipelinePromotion

  function KeysOf(lines: seq<Point>): set<LogicalKey> {
    set i | 0 <= i < |lines| :: lines[i].key
  }

  /** What one more accepted point does to the accumulators. */
  lemma OneMorePoint(lines: seq<Point>, p: Point)
    ensures SemanticBag(lines + [p]) == SemanticBag(lines) + multiset{Semantic(p)}
    ensures KeysOf(lines + [p]) == KeysOf(lines) + {p.key}
    ensures LocationsOf(lines + [p]) == LocationsOf(lines) + {p.key.location}
    ensures DistinctKeys(lines + [p]) <==> DistinctKeys(lines) && p.key !in KeysOf(lines)
  {
    var more := lines + [p];
    assert more[..|lines|] == lines;
    assert forall i | 0 <= i < |lines| :: more[i] == lines[i];
    assert more[|lines|] == p;
    if p.key in KeysOf(lines) {
      var i :| 0 <= i < |lines| && lines[i].key == p.key;
      assert more[i].key == more[|lines|].key;
    }
  }

  predicate PolicyPoint(p: Point, d: Descriptor) {
    p.key.provider == d.provider && p.key.dataset == d.dataset && p.key.style == d.style
  }

  lemma OneMorePolicy(lines: seq<Point>, p: Point, d: Descriptor)
    ensures FollowsPolicy(lines + [p], d) <==> FollowsPolicy(lines, d) && PolicyPoint(p, d)
  {
    var more := lines + [p];
    assert forall i | 0 <= i < |lines| :: more[i] == lines[i];
    assert more[|lines|] == p;
  }

  lemma PrefixRefused(lines: seq<Point>, rest: seq<Point>, d: Descriptor)
    ensures !FollowsPolicy(lines, d) || !DistinctKeys(lines) ==>
              !FollowsPolicy(lines + rest, d) || !DistinctKeys(lines + rest)
  {
    var all := lines + rest;
    assert forall i | 0 <= i < |lines| :: all[i] == lines[i];
  }

  /** The accumulators of the verification loop. */
  datatype Verified = Verified(
    semantic: multiset<SemanticPoint>, seen: set<LogicalKey>, count: nat, locations: set<Location>)

  ghost predicate Accumulated(v: Verified, lines: seq<Point>, d: Descriptor) {
    && v.semantic == SemanticBag(lines) && v.seen == KeysOf(lines) && v.count == |lines|
    && v.locations == LocationsOf(lines)
    && FollowsPolicy(lines, d) && DistinctKeys(lines)
  }

  lemma AccumulateOne(v: Verified, lines: seq<Point>, p: Point, d: Descriptor)
    requires Accumulated(v, lines, d) && PolicyPoint(p, d) && p.key !in v.seen
    ensures Accumulated(Verified(v.semantic + multiset{Semantic(p)}, v.seen + {p.key}, v.count + 1,
                                 v.locations + {p.key.location}), lines + [p], d)
  {
    OneMorePoint(lines, p);
    OneMorePolicy(lines, p, d);
  }

  lemma RefusePoint(v: Verified, lines: seq<Point>, p: Point, rest: seq<Point>, d: Descriptor)
    requires Accumulated(v, lines, d) && (!PolicyPoint(p, d) || p.key in v.seen)
    ensures !FollowsPolicy(lines + [p] + rest, d) || !DistinctKeys(lines + [p] + rest)
  {
    OneMorePoint(lines, p);
    OneMorePolicy(lines, p, d);
    PrefixRefused(lines + [p], rest, d);
  }

  /** The inner loop: the points of one file. */
  method ReadPoints(d: Descriptor, v: Verified, file: seq<Point>, ghost before: seq<Point>)
    returns (accepted: bool, now: Verified)
    requires Accumulated(v, before, d)
    ensures accepted <==> FollowsPolicy(before + file, d) && DistinctKeys(before + file)
    ensures accepted ==> Accumulated(now, before + file, d)
  {
    hide Accumulated, FollowsPolicy, DistinctKeys;
    now := v;
    assert before + file[..0] == before;
    var j := 0;
    while j < |file|
      invariant 0 <= j <= |file|
      invariant Accumulated(now, before + file[..j], d)
    {
      var p := file[j];
      var lines := before + file[..j];
      assert before + file[..j + 1] == lines + [p];
      if !PolicyPoint(p, d) || p.key in now.seen {
        RefusePoint(now, lines, p, file[j + 1..], d);
        assert lines + [p] + file[j + 1..] == before + file;
        return false, now;
      }
      AccumulateOne(now, lines, p, d);
      now := Verified(now.semantic + multiset{Semantic(p)}, now.seen + {p.key}, now.count + 1,
                      now.locations + {p.key.location});
      j := j + 1;
    }
    assert file[..|file|] == file;
    AccumulatedAccepts(now, before + file, d);
    accepted := true;
  }

  lemma AccumulatedAccepts(v: Verified, lines: seq<Point>, d: Descriptor)
    requires Accumulated(v, lines, d)
    ensures FollowsPolicy(lines, d) && DistinctKeys(lines)
    ensures v.semantic == SemanticBag(lines) && v.count == |lines| && v.locations == LocationsOf(lines)
  {
  }

  lemma {:induction false} LinesOfPrefix(receipts: seq<Receipt>, i: nat)
    requires i < |receipts|
    ensures LinesOf(receipts[..i + 1]) == LinesOf(receipts[..i]) + receipts[i].digest.lines
    ensures LinesOf(receipts[..i + 1]) <= LinesOf(receipts)
    decreases |receipts| - i
  {
    assert receipts[..i + 1][..i] == receipts[..i];
    if i + 1 == |receipts| {
      assert receipts[..i + 1] == receipts;
    } else {
      LinesOfPrefix(receipts, i + 1);
      assert receipts[..i + 2][..i + 1] == receipts[..i + 1];
    }
  }

  ghost predicate AllReadable(files: map<Digest, Time>, receipts: seq<Receipt>) {
    forall i | 0 <= i < |receipts| :: Readable(files, ReceiptRef(receipts[i]))
  }

  /** The outer loop and the tests after it: the union of the chunks is the bound source. */
  method VerifyCandidate(files: map<Digest, Time>, p: Promotion, receipts: seq<Receipt>)
    returns (accepted: bool, content: multiset<SemanticPoint>)
    requires receipts == Receipts(p.rows)
    ensures accepted <==> AllReadable(files, receipts) && CandidateAccepted(p)
    ensures accepted ==> content == Content(p)
  {
    hide Accumulated, FollowsPolicy, DistinctKeys, Receipts;
    var d := p.plan.descriptor;
    var v := Verified(multiset{}, {}, 0, {});
    assert receipts[..0] == [];
    NothingYet(d);
    var i := 0;
    while i < |receipts|
      invariant 0 <= i <= |receipts|
      invariant AllReadable(files, receipts[..i])
      invariant Accumulated(v, LinesOf(receipts[..i]), d)
    {
      if !Readable(files, ReceiptRef(receipts[i])) {
        return false, v.semantic;
      }
      LinesOfPrefix(receipts, i);
      var ok, next := ReadPoints(d, v, receipts[i].digest.lines, LinesOf(receipts[..i]));
      if !ok {
        var read := LinesOf(receipts[..i + 1]);
        var rest := LinesOf(receipts)[|read|..];
        assert LinesOf(receipts) == read + rest;
        PrefixRefused(read, rest, d);
        return false, v.semantic;
      }
      v := next;
      i := i + 1;
    }
    assert receipts[..|receipts|] == receipts;
    AccumulatedAccepts(v, LinesOf(receipts), d);
    content := v.semantic;
    accepted := && p.plan.binding.Some? && v.count == p.plan.binding.value.count && v.count != 0
                && v.locations == d.locations && content == p.plan.binding.value.normalization;
  }

  lemma NothingYet(d: Descriptor)
    ensures Accumulated(Verified(multiset{}, {}, 0, {}), [], d)
  {
  }

  // ---- the parent's files ----------------------------------------------------

  predicate SelectedPoint(p: Point, d: Descriptor) {
    p.key.location in d.locations && p.key.provider == d.provider && p.key.style == d.style
  }

  method ReadParentFile(d: Descriptor, file: seq<Point>) returns (accepted: bool, locations: set<Location>)
    ensures accepted <==> WithinSelection(file, d)
    ensures accepted ==> locations == LocationsOf(file)
  {
    locations := {};
    var j := 0;
    while j < |file|
      invariant 0 <= j <= |file|
      invariant WithinSelection(file[..j], d) && locations == LocationsOf(file[..j])
    {
      if !SelectedPoint(file[j], d) {
        return false, locations;
      }
      OneMorePoint(file[..j], file[j]);
      assert file[..j + 1] == file[..j] + [file[j]];
      locations := locations + {file[j].key.location};
      j := j + 1;
    }
    assert file[..|file|] == file;
    accepted := true;
  }

  lemma {:induction false} WithinEachFile(refs: seq<Ref>, d: Descriptor)
    ensures WithinSelection(RefLines(refs), d)
       <==> forall i | 0 <= i < |refs| :: WithinSelection(refs[i].digest.lines, d)
  {
    if refs != [] {
      var front := refs[..|refs| - 1];
      var last := refs[|refs| - 1];
      WithinEachFile(front, d);
      WithinBoth(RefLines(front), last.digest.lines, d);
      assert forall i | 0 <= i < |front| :: refs[i] == front[i];
    }
  }

  lemma WithinBoth(a: seq<Point>, b: seq<Point>, d: Descriptor)
    ensures WithinSelection(a + b, d) <==> WithinSelection(a, d) && WithinSelection(b, d)
  {
    assert forall i | 0 <= i < |a| :: (a + b)[i] == a[i];
    assert forall i | 0 <= i < |b| :: (a + b)[|a| + i] == b[i];
  }

  ghost predicate AllRefsReadable(files: map<Digest, Time>, refs: seq<Ref>) {
    forall i | 0 <= i < |refs| :: Readable(files, refs[i])
  }

  /** Reused files are read again and their location index is rebuilt from the bytes. */
  method VerifyParent(files: map<Digest, Time>, d: Descriptor, refs: seq<Ref>)
    returns (accepted: bool, reindexed: seq<Ref>)
    ensures accepted <==> AllRefsReadable(files, refs) && WithinSelection(RefLines(refs), d)
    ensures accepted ==> reindexed == Reindexed(refs)
  {
    hide WithinSelection, LocationsOf, Readable;
    reindexed := [];
    WithinEachFile(refs, d);
    ReindexedLines(refs);
    var i := 0;
    while i < |refs|
      invariant 0 <= i <= |refs|
      invariant forall j | 0 <= j < i :: Readable(files, refs[j]) && WithinSelection(refs[j].digest.lines, d)
      invariant |reindexed| == i
      invariant forall j | 0 <= j < i :: reindexed[j] == refs[j].(locations := LocationsOf(refs[j].digest.lines))
    {
      if !Readable(files, refs[i]) {
        return false, reindexed;
      }
      var ok, locations := ReadParentFile(d, refs[i].digest.lines);
      if !ok {
        return false, reindexed;
      }
      reindexed := reindexed + [refs[i].(locations := locations)];
      i := i + 1;
    }
    accepted := true;
  }
}
