/** One run of the artifact garbage collector, as the source performs it: a scan that fills
    `eligible`, then batches that recheck the references before they unlink.  The interleaving
    with other processes is the subject of `Pipeline`; here the loops themselves. */
module ArtifactCollection {
  import opened ExportTypes
  import opened Lifecycle
  import opened Pipeline

  const UNLINK_BATCH: nat := 256
  const MAX_UNLINKS: nat := 20000

  datatype Report = Report(scanned: nat, live: nat, eligible: nat, deleted: nat, complete: bool)

  /** Why a file must stay, read off the tables: a generation refers to it that is a head's or an
      approval's, is younger than the retention, belongs to a snapshot that is unexpired past the
      retention or among the latest 64 issued, or is not yet passed by the daily checkpoint; or a
      receipt of an attempt that is neither failed nor published names it; or a pin does. */
  ghost predicate Referenced(db: Db, cutoff: Time, d: Digest) {
    || (exists g, i :: g in db.generations && 0 <= i < |db.generations[g].refs|
                       && db.generations[g].refs[i].digest == d && Retained(db, cutoff, g))
    || (exists a, k :: a in db.attempts && k in db.attempts[a].receipts
                       && db.attempts[a].status != Failed && db.attempts[a].published == None
                       && db.attempts[a].receipts[k].digest == d)
    || (exists a, k :: a in db.attempts && k in db.attempts[a].pins && db.attempts[a].pins[k] == d)
  }

  ghost predicate Retained(db: Db, cutoff: Time, g: GenerationId)
    requires g in db.generations
  {
    var created := db.generations[g].created;
    || (exists ns :: ns in db.heads && db.heads[ns].generation == g)
    || (exists l :: l in db.inventory && db.inventory[l] == g)
    || created > cutoff
    || (exists s :: s in db.snapshots && g in db.snapshots[s].generations && db.snapshots[s].expires > cutoff)
    || (exists s :: s in db.snapshots && g in db.snapshots[s].generations
                    && |set t | t in db.snapshots && db.snapshots[t].order > db.snapshots[s].order| < 64)
    || db.progress == None
    || created > db.progress.value.at
    || (created == db.progress.value.at && g > db.progress.value.generation)
  }

  lemma RetainedIs(db: Db, cutoff: Time, g: GenerationId)
    requires g in db.generations
    ensures LiveGeneration(db, g, cutoff) <==> Retained(db, cutoff, g)
  {
    forall s | s in db.snapshots
      ensures Newer(db, s) == set t | t in db.snapshots && db.snapshots[t].order > db.snapshots[s].order
    {
    }
  }

  /** The reference query finds exactly these. */
  lemma ReferencedIs(db: Db, cutoff: Time, d: Digest)
    ensures Live(db, cutoff, d) <==> Referenced(db, cutoff, d)
  {
    hide LiveGeneration, Retained;
    forall g | g in db.generations ensures LiveGeneration(db, g, cutoff) <==> Retained(db, cutoff, g) {
      RetainedIs(db, cutoff, g);
    }
    if exists g, i :: g in db.generations && 0 <= i < |db.generations[g].refs|
                      && db.generations[g].refs[i].digest == d && Retained(db, cutoff, g) {
      var g, i :| g in db.generations && 0 <= i < |db.generations[g].refs|
                  && db.generations[g].refs[i].digest == d && Retained(db, cutoff, g);
      assert HasRef(db.generations[g], d);
    }
    if a, k :| a in db.attempts && k in db.attempts[a].receipts
               && db.attempts[a].status != Failed && db.attempts[a].published == None
               && db.attempts[a].receipts[k].digest == d {
      assert Pending(db.attempts[a]) && Received(db.attempts[a], d);
    }
    if a, k :| a in db.attempts && k in db.attempts[a].pins && db.attempts[a].pins[k] == d {
      assert Pinned(db.attempts[a], d);
    }
  }

  /** An old file without a reference. */
  predicate Dead(db: Db, cutoff: Time, files: map<Digest, Time>, cut: Time, d: Digest) {
    d in files && files[d] < cut && !Live(db, cutoff, d)
  }

  predicate NoRepeats(s: seq<Digest>) {
    forall i, j | 0 <= i < j < |s| :: s[i] != s[j]
  }

  /** The files that one batch leaves: its dead names are gone. */
  function Unlinked(db: Db, cutoff: Time, cut: Time, files: map<Digest, Time>, batch: seq<Digest>): map<Digest, Time> {
    map d | d in files && !(d in batch && Dead(db, cutoff, files, cut, d)) :: files[d]
  }

  lemma NothingUnlinked(db: Db, cutoff: Time, cut: Time, files: map<Digest, Time>)
    ensures Unlinked(db, cutoff, cut, files, []) == files
  {
    hide Live;
  }

  lemma OneUnlinked(db: Db, cutoff: Time, cut: Time, files: map<Digest, Time>, batch: seq<Digest>, i: nat)
    requires i < |batch|
    ensures var left := Unlinked(db, cutoff, cut, files, batch[..i]);
            var gone := !Live(db, cutoff, batch[i]) && batch[i] in left && left[batch[i]] < cut;
            Unlinked(db, cutoff, cut, files, batch[..i + 1]) == if gone then left - {batch[i]} else left
  {
    hide Live;
    assert batch[..i + 1] == batch[..i] + [batch[i]];
  }

  /** The files that a list of unlinked names leaves. */
  function Except(files: map<Digest, Time>, gone: seq<Digest>): map<Digest, Time> {
    map d | d in files && d !in gone :: files[d]
  }

  lemma {:induction false} ExceptSize(files: map<Digest, Time>, gone: seq<Digest>)
    requires NoRepeats(gone) && forall d | d in gone :: d in files
    ensures |Except(files, gone)| == |files| - |gone|
  {
    if gone == [] {
      assert Except(files, gone) == files;
    } else {
      var front := gone[..|gone| - 1];
      var last := gone[|gone| - 1];
      ExceptSize(files, front);
      assert last !in front;
      assert Except(files, gone) == Except(files, front) - {last};
      Removed(Except(files, front), last);
    }
  }

  /** With nobody else around, a batch of dead names is unlinked completely. */
  lemma BatchUnlinked(db: Db, cutoff: Time, cut: Time, was: map<Digest, Time>, before: map<Digest, Time>,
                      now: map<Digest, Time>, eligible: seq<Digest>, start: nat, stop: nat)
    requires start <= stop <= |eligible| && NoRepeats(eligible)
    requires forall d | d in eligible :: Dead(db, cutoff, was, cut, d)
    requires before == Except(was, eligible[..start])
    requires now == Unlinked(db, cutoff, cut, before, eligible[start..stop])
    ensures now == Except(was, eligible[..stop])
    ensures |was| - |now| == stop
  {
    hide Live;
    assert eligible[..stop] == eligible[..start] + eligible[start..stop];
    assert forall d | d in eligible[start..stop] && d in before :: d in eligible;
    assert forall d | d in eligible[..stop] :: d in eligible;
    ExceptSize(was, eligible[..stop]);
  }

  class Store {
    var files: map<Digest, Time>

    constructor (files: map<Digest, Time>)
      ensures this.files == files
    {
      this.files := files;
    }

    /** The scan.  `entries` is the directory in whatever order it is listed; after `budget`
        unreferenced entries the deadline has passed. */
    method Scan(db: Db, cutoff: Time, cut: Time, entries: seq<Digest>, budget: nat)
      returns (eligible: seq<Digest>, report: Report)
      requires NoRepeats(entries)
      ensures NoRepeats(eligible)
      ensures forall d | d in eligible :: d in entries && Dead(db, cutoff, files, cut, d)
      ensures report.complete ==> forall d | d in entries && Dead(db, cutoff, files, cut, d) :: d in eligible
      ensures forall d | d in eligible :: d in files && files[d] < cut && !Referenced(db, cutoff, d)
      ensures report.complete ==>
                forall d | d in entries && d in files && files[d] < cut && !Referenced(db, cutoff, d) :: d in eligible
      ensures report.eligible == |eligible| && report.deleted == 0
      ensures report.complete ==>
                report.scanned == |entries| && report.live == |entries| - Unclaimed(db, cutoff, entries)
      ensures report.complete <==> Loose(db, cutoff, files, entries) <= budget
      ensures report.complete ==> |eligible| == Old(db, cutoff, cut, files, entries)
    {
      hide Live, Loose, Unclaimed, Old, Referenced;
      eligible := [];
      report := Report(0, 0, 0, 0, true);
      var i := 0;
      var left: nat := budget;
      NoEntries(db, cutoff, cut, files, entries);
      while i < |entries|
        invariant 0 <= i <= |entries|
        invariant report.complete && report.deleted == 0 && report.scanned == i
        invariant left + Loose(db, cutoff, files, entries[..i]) == budget
        invariant report.live == i - Unclaimed(db, cutoff, entries[..i])
        invariant |eligible| == Old(db, cutoff, cut, files, entries[..i])
        invariant NoRepeats(eligible)
        invariant forall d | d in eligible :: d in entries[..i] && Dead(db, cutoff, files, cut, d)
        invariant forall d | d in entries[..i] && Dead(db, cutoff, files, cut, d) :: d in eligible
      {
        var d := entries[i];
        NextEntry(db, cutoff, cut, files, entries, i);
        report := report.(scanned := report.scanned + 1);
        i := i + 1;
        if Live(db, cutoff, d) {
          report := report.(live := report.live + 1);
          continue;
        }
        if d !in files {
          continue;
        }
        if files[d] < cut {
          eligible := eligible + [d];
        }
        if left == 0 {
          report := report.(complete := false);
          LooseGrows(db, cutoff, files, entries, i);
          break;
        }
        left := left - 1;
      }
      assert entries[..|entries|] == entries;
      DeadAre(db, cutoff, files, cut);
      report := report.(eligible := |eligible|);
    }

    /** One batch inside the exclusive guard: `db` is what the recheck reads. */
    method UnlinkBatch(db: Db, cutoff: Time, cut: Time, batch: seq<Digest>) returns (deleted: nat)
      modifies this
      ensures files == Unlinked(db, cutoff, cut, old(files), batch)
      ensures deleted == |old(files)| - |files|
    {
      hide Live, Unlinked;
      deleted := 0;
      NothingUnlinked(db, cutoff, cut, files);
      var i := 0;
      while i < |batch|
        invariant 0 <= i <= |batch|
        invariant files == Unlinked(db, cutoff, cut, old(files), batch[..i])
        invariant deleted == |old(files)| - |files|
      {
        var d := batch[i];
        OneUnlinked(db, cutoff, cut, old(files), batch, i);
        if !Live(db, cutoff, d) && d in files && files[d] < cut {
          Removed(files, d);
          files := files - {d};
          deleted := deleted + 1;
        }
        i := i + 1;
      }
      assert batch[..|batch|] == batch;
    }

    /** The batches, one after the other, until the names or the rounds run out. */
    method UnlinkAll(db: Db, cutoff: Time, cut: Time, eligible: seq<Digest>, rounds: nat)
      returns (deleted: nat, finished: bool)
      requires NoRepeats(eligible) && forall d | d in eligible :: Dead(db, cutoff, files, cut, d)
      modifies this
      ensures finished <==> |eligible| <= 256 * rounds
      ensures deleted == if finished then |eligible| else 256 * rounds
      ensures deleted <= |eligible| && files == Except(old(files), eligible[..deleted])
      ensures deleted == |old(files)| - |files|
    {
      hide Dead, Unlinked;
      deleted, finished := 0, true;
      var start := 0;
      var left: nat := rounds;
      assert Except(files, eligible[..0]) == files;
      while start < |eligible|
        invariant 0 <= start <= |eligible| && left <= rounds && finished
        invariant start == 256 * (rounds - left) || start == |eligible| <= 256 * (rounds - left)
        invariant files == Except(old(files), eligible[..start])
        invariant deleted == |old(files)| - |files| == start
        decreases |eligible| - start
      {
        if left == 0 {
          finished := false;
          break;
        }
        left := left - 1;
        var stop := if start + UNLINK_BATCH < |eligible| then start + UNLINK_BATCH else |eligible|;
        ghost var before := files;
        var gone := UnlinkBatch(db, cutoff, cut, eligible[start..stop]);
        BatchUnlinked(db, cutoff, cut, old(files), before, files, eligible, start, stop);
        deleted := deleted + gone;
        start := stop;
      }
    }

    /** The whole collection without interference: nothing live or young is ever deleted, a dry
        run deletes nothing, and a complete run deletes every old file without a reference. */
    method Collect(db: Db, clock: Time, retention: Time, grace: Time, deleting: bool,
                   entries: seq<Digest>, budget: nat, rounds: nat) returns (report: Report)
      requires NoRepeats(entries) && forall d :: d in entries <==> d in files
      requires retention >= MIN_RETENTION && grace >= MIN_GRACE
      modifies this
      ensures forall d | d in files :: d in old(files) && files[d] == old(files)[d]
      ensures forall d | d in old(files) && d !in files ::
                old(files)[d] < clock - grace && !Referenced(db, clock - retention, d)
      ensures !deleting ==> files == old(files)
      ensures deleting && report.complete ==>
                forall d :: d in files <==>
                  d in old(files) && (old(files)[d] >= clock - grace || Referenced(db, clock - retention, d))
      ensures report.deleted == |old(files)| - |files| <= 20000
      ensures report.complete <==>
        && Loose(db, clock - retention, old(files), entries) <= budget
        && (deleting ==>
              Old(db, clock - retention, clock - grace, old(files), entries) <= 20000
              && Old(db, clock - retention, clock - grace, old(files), entries) <= 256 * rounds)
    {
      hide Live, Dead, Unlinked, Referenced, Loose, Unclaimed, Old, Except;
      var cutoff, cut := clock - retention, clock - grace;
      var eligible: seq<Digest>;
      eligible, report := Scan(db, cutoff, cut, entries, budget);
      if !deleting {
        return;
      }
      ghost var listed := eligible;
      if |eligible| > MAX_UNLINKS {
        report := report.(complete := false);
        eligible := eligible[..MAX_UNLINKS];
      }
      ghost var was := files;
      var deleted, finished := UnlinkAll(db, cutoff, cut, eligible, rounds);
      CollectedAre(db, cutoff, cut, was, files, listed, eligible[..deleted], report.complete && finished);
      report := report.(deleted := deleted, complete := report.complete && finished);
    }
  }

  /** How many entries nothing refers to. */
  function Unclaimed(db: Db, cutoff: Time, entries: seq<Digest>): nat {
    if entries == [] then 0
    else
      Unclaimed(db, cutoff, entries[..|entries| - 1])
      + if Live(db, cutoff, entries[|entries| - 1]) then 0 else 1
  }

  /** How many of those have a file. */
  function Loose(db: Db, cutoff: Time, files: map<Digest, Time>, entries: seq<Digest>): nat {
    if entries == [] then 0
    else
      var d := entries[|entries| - 1];
      Loose(db, cutoff, files, entries[..|entries| - 1]) + if d in files && !Live(db, cutoff, d) then 1 else 0
  }

  /** How many of those are old. */
  function Old(db: Db, cutoff: Time, cut: Time, files: map<Digest, Time>, entries: seq<Digest>): nat {
    if entries == [] then 0
    else
      Old(db, cutoff, cut, files, entries[..|entries| - 1])
      + if Dead(db, cutoff, files, cut, entries[|entries| - 1]) then 1 else 0
  }

  lemma NoEntries(db: Db, cutoff: Time, cut: Time, files: map<Digest, Time>, entries: seq<Digest>)
    ensures Loose(db, cutoff, files, entries[..0]) == 0 && Unclaimed(db, cutoff, entries[..0]) == 0
    ensures Old(db, cutoff, cut, files, entries[..0]) == 0
  {
  }

  lemma NextEntry(db: Db, cutoff: Time, cut: Time, files: map<Digest, Time>, entries: seq<Digest>, i: nat)
    requires i < |entries| && NoRepeats(entries)
    ensures var d := entries[i];
      && entries[..i + 1] == entries[..i] + [d] && d !in entries[..i]
      && Loose(db, cutoff, files, entries[..i + 1])
         == Loose(db, cutoff, files, entries[..i]) + (if d in files && !Live(db, cutoff, d) then 1 else 0)
      && Unclaimed(db, cutoff, entries[..i + 1])
         == Unclaimed(db, cutoff, entries[..i]) + (if Live(db, cutoff, d) then 0 else 1)
      && Old(db, cutoff, cut, files, entries[..i + 1])
         == Old(db, cutoff, cut, files, entries[..i]) + (if Dead(db, cutoff, files, cut, d) then 1 else 0)
  {
    hide Live, Dead;
    assert entries[..i + 1][..i] == entries[..i];
  }

  lemma {:induction false} LooseGrows(db: Db, cutoff: Time, files: map<Digest, Time>, entries: seq<Digest>, i: nat)
    requires i <= |entries|
    ensures Loose(db, cutoff, files, entries[..i]) <= Loose(db, cutoff, files, entries)
  {
    if i == |entries| {
      assert entries[..i] == entries;
    } else {
      var front := entries[..|entries| - 1];
      assert front[..i] == entries[..i];
      LooseGrows(db, cutoff, files, front, i);
    }
  }

  /** What is left when `gone` was unlinked of the `listed` dead names. */
  lemma CollectedAre(db: Db, cutoff: Time, cut: Time, was: map<Digest, Time>, now: map<Digest, Time>,
                     listed: seq<Digest>, gone: seq<Digest>, all: bool)
    requires now == Except(was, gone) && gone <= listed
    requires forall d | d in listed :: Dead(db, cutoff, was, cut, d)
    requires all ==> gone == listed && forall d | d in was && Dead(db, cutoff, was, cut, d) :: d in listed
    ensures forall d | d in now :: d in was && now[d] == was[d]
    ensures forall d | d in was && d !in now :: was[d] < cut && !Referenced(db, cutoff, d)
    ensures all ==> forall d :: d in now <==> d in was && (was[d] >= cut || Referenced(db, cutoff, d))
  {
    hide Live, Dead, Referenced;
    DeadAre(db, cutoff, was, cut);
  }

  lemma DeadAre(db: Db, cutoff: Time, files: map<Digest, Time>, cut: Time)
    ensures forall d :: Dead(db, cutoff, files, cut, d) <==>
                        d in files && files[d] < cut && !Referenced(db, cutoff, d)
  {
    hide Live, Referenced;
    forall d ensures Live(db, cutoff, d) <==> Referenced(db, cutoff, d) { ReferencedIs(db, cutoff, d); }
  }

  lemma Removed(files: map<Digest, Time>, d: Digest)
    requires d in files
    ensures |files - {d}| == |files| - 1
  {
    assert (files - {d}).Keys == files.Keys - {d};
  }
}
