/** Watching files by polling: each sweep is compared with the one before, and what differs is
  * reported as one batch in path order. */
module Snapshots {

  datatype Stamp = Stamp(modTime: int, size: int)

  type Snapshot = map<string, Stamp>

  datatype Kind = Added | Modified | Deleted

  datatype FileChange = FileChange(kind: Kind, path: string)

  // ----- path order ----------------------------------------------------------------------

  /** The lexicographic order of strings.Compare. */
  predicate Less(a: string, b: string) {
    b != "" && (a == "" || a[0] < b[0] || (a[0] == b[0] && Less(a[1..], b[1..])))
  }

  lemma {:induction false} LessTransitive(a: string, b: string, c: string)
    requires Less(a, b) && Less(b, c)
    ensures Less(a, c)
  {
    if a != "" && a[0] == b[0] == c[0] { LessTransitive(a[1..], b[1..], c[1..]); }
  }

  lemma {:induction false} LessTotal(a: string, b: string)
    ensures Less(a, b) || Less(b, a) || a == b
  {
    if a != "" && b != "" && a[0] == b[0] {
      LessTotal(a[1..], b[1..]);
      if a[1..] == b[1..] { assert a == [a[0]] + a[1..] && b == [b[0]] + b[1..]; }
    }
  }

  lemma {:induction false} LessIrreflexive(a: string)
    ensures !Less(a, a)
  {
    if a != "" { LessIrreflexive(a[1..]); }
  }

  /** The first place where two strings differ decides, and a string comes before what it begins. */
  lemma {:induction false} LessIff(a: string, b: string)
    ensures Less(a, b) <==> (|a| < |b| && a <= b) || exists i :: DiffersAt(a, b, i)
  {
    if a != "" && b != "" {
      LessHead(a, b);
      if a[0] == b[0] {
        LessIff(a[1..], b[1..]);
        LessTail(a, b);
      }
    }
  }

  ghost predicate DiffersAt(a: string, b: string, i: int) {
    0 <= i < |a| && i < |b| && a[..i] == b[..i] && a[i] < b[i]
  }

  lemma LessHead(a: string, b: string)
    requires a != "" && b != ""
    ensures a[0] < b[0] ==> DiffersAt(a, b, 0)
    ensures forall i :: DiffersAt(a, b, i) && i > 0 ==> a[0] == b[0]
  {
    assert a[..0] == b[..0];
    forall i | DiffersAt(a, b, i) && i > 0 ensures a[0] == b[0] { assert a[0] == a[..i][0] && b[0] == b[..i][0]; }
  }

  lemma LessTail(a: string, b: string)
    requires a != "" && b != "" && a[0] == b[0]
    ensures a <= b <==> a[1..] <= b[1..]
    ensures (exists i :: DiffersAt(a, b, i)) <==> (exists i :: DiffersAt(a[1..], b[1..], i))
  {
    var c, d := a[1..], b[1..];
    assert a == [a[0]] + c && b == [b[0]] + d;
    if i :| DiffersAt(c, d, i) {
      assert a[..i + 1] == [a[0]] + c[..i] && b[..i + 1] == [b[0]] + d[..i];
      assert DiffersAt(a, b, i + 1);
    }
    if i :| DiffersAt(a, b, i) {
      assert c[..i - 1] == a[..i][1..] && d[..i - 1] == b[..i][1..];
      assert DiffersAt(c, d, i - 1);
    }
  }

  ghost predicate Ascending(changes: seq<FileChange>) {
    forall i, j :: 0 <= i < j < |changes| ==> Less(changes[i].path, changes[j].path)
  }

  ghost predicate Distinct(changes: seq<FileChange>) {
    forall i, j :: 0 <= i < j < |changes| ==> changes[i].path != changes[j].path
  }

  function Insert(changes: seq<FileChange>, c: FileChange): (r: seq<FileChange>)
    ensures |r| == |changes| + 1 && forall d :: d in r <==> d in changes || d == c
  {
    if changes == [] then [c]
    else if Less(c.path, changes[0].path) then [c] + changes
    else [changes[0]] + Insert(changes[1..], c)
  }

  function SortByPath(changes: seq<FileChange>): (r: seq<FileChange>)
    ensures |r| == |changes| && forall d :: d in r <==> d in changes
  {
    if changes == [] then [] else Insert(SortByPath(changes[..|changes| - 1]), changes[|changes| - 1])
  }

  lemma {:induction false} InsertAscends(changes: seq<FileChange>, c: FileChange)
    requires Ascending(changes) && forall d :: d in changes ==> d.path != c.path
    ensures Ascending(Insert(changes, c))
  {
    if changes != [] {
      var rest := changes[1..];
      if Less(c.path, changes[0].path) {
        forall j | 0 < j < |changes| ensures Less(c.path, changes[j].path) {
          LessTransitive(c.path, changes[0].path, changes[j].path);
        }
      } else {
        assert changes[0] in changes;
        LessTotal(c.path, changes[0].path);
        InsertAscends(rest, c);
        var r := Insert(rest, c);
        forall j | 0 <= j < |r| ensures Less(changes[0].path, r[j].path) {
          assert r[j] in r;
          if r[j] != c {
            var k :| 0 <= k < |rest| && rest[k] == r[j];
            assert rest[k] == changes[k + 1];
          }
        }
      }
    }
  }

  lemma {:induction false} SortAscends(changes: seq<FileChange>)
    requires Distinct(changes)
    ensures Ascending(SortByPath(changes))
  {
    if changes != [] {
      var n := |changes| - 1;
      SortAscends(changes[..n]);
      InsertAscends(SortByPath(changes[..n]), changes[n]);
    }
  }

  // ----- one sweep -----------------------------------------------------------------------

  /** What happened to a path between two sweeps. */
  predicate Happened(before: Snapshot, after: Snapshot, c: FileChange) {
    match c.kind
    case Added => c.path in after && c.path !in before
    case Modified => c.path in after && c.path in before && before[c.path] != after[c.path]
    case Deleted => c.path in before && c.path !in after
  }

  /** A batch reports each changed path once, as what happened to it, in ascending path order. */
  ghost predicate Reports(before: Snapshot, after: Snapshot, batch: seq<FileChange>) {
    Ascending(batch) && forall c :: c in batch <==> Happened(before, after, c)
  }

  method DiffSnapshots(before: Snapshot, after: Snapshot) returns (changes: seq<FileChange>)
    ensures Reports(before, after, changes)
  {
    changes := [];
    var left := after.Keys;
    while left != {}
      invariant left <= after.Keys
      invariant Distinct(changes)
      invariant forall c :: c in changes <==> c.path in after.Keys - left && Happened(before, after, c)
    {
      var path :| path in left;
      left := left - {path};
      if path !in before {
        AppendDistinct(changes, FileChange(Added, path));
        changes := changes + [FileChange(Added, path)];
      } else if before[path] != after[path] {
        AppendDistinct(changes, FileChange(Modified, path));
        changes := changes + [FileChange(Modified, path)];
      }
    }
    left := before.Keys;
    while left != {}
      invariant left <= before.Keys
      invariant Distinct(changes)
      invariant forall c :: c in changes <==>
        Happened(before, after, c) && (c.path in after || c.path in before.Keys - left)
    {
      var path :| path in left;
      left := left - {path};
      if path !in after {
        AppendDistinct(changes, FileChange(Deleted, path));
        changes := changes + [FileChange(Deleted, path)];
      }
    }
    SortAscends(changes);
    changes := SortByPath(changes);
  }

  lemma AppendDistinct(changes: seq<FileChange>, c: FileChange)
    requires Distinct(changes) && forall d :: d in changes ==> d.path != c.path
    ensures Distinct(changes + [c])
    ensures forall d :: d in changes + [c] <==> d in changes || d == c
  {
    forall i | 0 <= i < |changes| ensures changes[i].path != c.path { assert changes[i] in changes; }
  }

  /** A sweep reports nothing exactly when nothing changed. */
  lemma EmptyIffSame(before: Snapshot, after: Snapshot, batch: seq<FileChange>)
    requires Reports(before, after, batch)
    ensures batch == [] <==> before == after
  {
    if batch == [] {
      forall path ensures path in before <==> path in after {
        assert FileChange(Added, path) !in batch && FileChange(Deleted, path) !in batch;
      }
      forall path | path in before ensures before[path] == after[path] {
        assert FileChange(Modified, path) !in batch;
      }
    } else {
      assert batch[0] in batch;
    }
  }

  /** Two sweeps have one report: the order of the map walks cannot show. */
  lemma {:induction false} AscendingUnique(a: seq<FileChange>, b: seq<FileChange>)
    requires Ascending(a) && Ascending(b) && forall c :: c in a <==> c in b
    ensures a == b
  {
    SameEnd(a, b);
    if a != [] {
      var m, n := |a| - 1, |b| - 1;
      forall c ensures c in a[..m] <==> c in b[..n] {
        ButLast(a, c);
        ButLast(b, c);
      }
      AscendingUnique(a[..m], b[..n]);
    }
  }

  lemma ButLast(a: seq<FileChange>, c: FileChange)
    requires Ascending(a) && a != []
    ensures c in a[..|a| - 1] <==> c in a && c != a[|a| - 1]
  {
    if c in a[..|a| - 1] {
      var k :| 0 <= k < |a| - 1 && a[k] == c;
      LessIrreflexive(c.path);
    }
  }

  lemma SameEnd(a: seq<FileChange>, b: seq<FileChange>)
    requires Ascending(a) && Ascending(b) && forall c :: c in a <==> c in b
    ensures a == [] <==> b == []
    ensures a != [] ==> a[|a| - 1] == b[|b| - 1]
  {
    if a != [] { assert a[|a| - 1] in a; }
    if b != [] { assert b[|b| - 1] in b; }
    if a != [] && b != [] {
      var m, n := |a| - 1, |b| - 1;
      var k :| 0 <= k < |b| && b[k] == a[m];
      var l :| 0 <= l < |a| && a[l] == b[n];
      if k < n && l < m {
        LessTransitive(a[m].path, b[n].path, a[m].path);
        LessIrreflexive(a[m].path);
      }
    }
  }

  // ----- many sweeps ---------------------------------------------------------------------

  function Apply(files: set<string>, c: FileChange): set<string> {
    match c.kind
    case Added => files + {c.path}
    case Modified => files
    case Deleted => files - {c.path}
  }

  function ApplyAll(files: set<string>, batch: seq<FileChange>): set<string> {
    if batch == [] then files else Apply(ApplyAll(files, batch[..|batch| - 1]), batch[|batch| - 1])
  }

  function Fold(files: set<string>, batches: seq<seq<FileChange>>): set<string> {
    if batches == [] then files else ApplyAll(Fold(files, batches[..|batches| - 1]), batches[|batches| - 1])
  }

  // A path not mentioned stays as it was; one mentioned is there unless it was deleted.
  lemma {:induction false} ApplyMeans(files: set<string>, batch: seq<FileChange>, path: string)
    requires Distinct(batch)
    ensures (forall c :: c in batch ==> c.path != path) ==> (path in ApplyAll(files, batch) <==> path in files)
    ensures forall c :: c in batch && c.path == path ==>
      (path in ApplyAll(files, batch) <==> c.kind == Added || (c.kind == Modified && path in files))
  {
    if batch != [] {
      var n := |batch| - 1;
      ApplyMeans(files, batch[..n], path);
      assert batch[n] in batch;
      forall c | c in batch && c.path == path
        ensures path in ApplyAll(files, batch) <==> c.kind == Added || (c.kind == Modified && path in files)
      {
        if c == batch[n] {
          forall d | d in batch[..n] ensures d.path != path {
            var k :| 0 <= k < n && batch[k] == d;
          }
        } else {
          assert c in batch[..n];
          var k :| 0 <= k < n && batch[k] == c;
          assert batch[k].path != batch[n].path;
        }
      }
    }
  }

  lemma AscendingDistinct(changes: seq<FileChange>)
    requires Ascending(changes)
    ensures Distinct(changes)
  {
    forall i, j | 0 <= i < j < |changes| ensures changes[i].path != changes[j].path {
      LessIrreflexive(changes[i].path);
    }
  }

  /** Applying a sweep's report to the files seen before gives the files seen after. */
  lemma ReportGivesFiles(before: Snapshot, after: Snapshot, batch: seq<FileChange>)
    requires Reports(before, after, batch)
    ensures ApplyAll(before.Keys, batch) == after.Keys
  {
    AscendingDistinct(batch);
    forall path ensures path in ApplyAll(before.Keys, batch) <==> path in after {
      ApplyMeans(before.Keys, batch, path);
      var a, m, d := FileChange(Added, path), FileChange(Modified, path), FileChange(Deleted, path);
      if a !in batch && m !in batch && d !in batch {
        forall c | c in batch ensures c.path != path {
          assert c.kind == Added || c.kind == Modified || c.kind == Deleted;
        }
      }
    }
  }

  function LastOf(baseline: Snapshot, sweeps: seq<Snapshot>): Snapshot {
    if sweeps == [] then baseline else sweeps[|sweeps| - 1]
  }

  /** The sweeps that found something different from the sweep before. */
  function Changed(baseline: Snapshot, sweeps: seq<Snapshot>): (r: seq<nat>)
    ensures forall k :: 0 <= k < |r| ==> r[k] < |sweeps|
    ensures forall i, j :: 0 <= i < j < |r| ==> r[i] < r[j]
  {
    if sweeps == [] then []
    else
      var n := |sweeps| - 1;
      var before := Changed(baseline, sweeps[..n]);
      if LastOf(baseline, sweeps[..n]) == sweeps[n] then before else before + [n]
  }

  lemma {:induction false} ChangedExact(baseline: Snapshot, sweeps: seq<Snapshot>, k: nat)
    requires k < |sweeps|
    ensures k in Changed(baseline, sweeps) <==> sweeps[k] != LastOf(baseline, sweeps[..k])
  {
    hide LastOf;
    var n := |sweeps| - 1;
    var before := Changed(baseline, sweeps[..n]);
    if k < n {
      assert sweeps[..n][..k] == sweeps[..k];
      ChangedExact(baseline, sweeps[..n], k);
    } else {
      assert n !in before;
    }
  }

  /** A batch for each sweep that found a difference: its report against the sweep before it. */
  ghost predicate Batched(baseline: Snapshot, sweeps: seq<Snapshot>, batches: seq<seq<FileChange>>) {
    var at := Changed(baseline, sweeps);
    |batches| == |at| &&
    forall k :: 0 <= k < |at| ==> Reports(LastOf(baseline, sweeps[..at[k]]), sweeps[at[k]], batches[k])
  }

  lemma NothingSwept(baseline: Snapshot)
    ensures Fold(baseline.Keys, []) == baseline.Keys && Batched(baseline, [], [])
  {
  }

  lemma SweepReport(before: Snapshot, after: Snapshot, batch: seq<FileChange>)
    requires Reports(before, after, batch)
    ensures batch == [] <==> before == after
    ensures ApplyAll(before.Keys, batch) == after.Keys
  {
    EmptyIffSame(before, after, batch);
    ReportGivesFiles(before, after, batch);
  }

  lemma OneMoreBatch(files: set<string>, batches: seq<seq<FileChange>>, batch: seq<FileChange>)
    ensures Fold(files, batches + [batch]) == ApplyAll(Fold(files, batches), batch)
  {
    assert (batches + [batch])[..|batches|] == batches;
  }

  lemma OneMoreSweep(baseline: Snapshot, sweeps: seq<Snapshot>, current: Snapshot,
      batches: seq<seq<FileChange>>, batch: seq<FileChange>)
    requires Batched(baseline, sweeps, batches) && Reports(LastOf(baseline, sweeps), current, batch)
    ensures LastOf(baseline, sweeps) == current ==> Batched(baseline, sweeps + [current], batches)
    ensures LastOf(baseline, sweeps) != current ==> Batched(baseline, sweeps + [current], batches + [batch])
  {
    hide Reports;
    var more := sweeps + [current];
    assert more[..|sweeps|] == sweeps;
    assert forall k :: 0 <= k < |sweeps| ==> more[..k] == sweeps[..k];
  }

  /** The polling loop over the sweeps that follow the baseline: each sweep that differs from the one
    * before is reported, until the callback fails. Folding the reports over the baseline's files
    * gives the latest sweep's. */
  method OnFileChange(baseline: Snapshot, sweeps: seq<Snapshot>, fails: seq<FileChange> -> bool)
    returns (batches: seq<seq<FileChange>>, failed: bool, swept: nat)
    ensures swept <= |sweeps| && (!failed ==> swept == |sweeps|)
    ensures Batched(baseline, sweeps[..swept], batches)
    ensures Fold(baseline.Keys, batches) == LastOf(baseline, sweeps[..swept]).Keys
    ensures forall k :: 0 <= k < |batches| ==> (fails(batches[k]) <==> failed && k == |batches| - 1)
  {
    hide Fold, ApplyAll, Reports, Batched;
    NothingSwept(baseline);
    batches, failed, swept := [], false, 0;
    var previous := baseline;
    while swept < |sweeps|
      invariant swept <= |sweeps| && !failed
      invariant previous == LastOf(baseline, sweeps[..swept])
      invariant Fold(baseline.Keys, batches) == previous.Keys
      invariant Batched(baseline, sweeps[..swept], batches)
      invariant forall k :: 0 <= k < |batches| ==> !fails(batches[k])
    {
      var current := sweeps[swept];
      var changes := DiffSnapshots(previous, current);
      SweepReport(previous, current, changes);
      assert sweeps[..swept + 1] == sweeps[..swept] + [current];
      OneMoreSweep(baseline, sweeps[..swept], current, batches, changes);
      swept := swept + 1;
      if |changes| > 0 {
        previous := current;
        OneMoreBatch(baseline.Keys, batches, changes);
        batches := batches + [changes];
        if fails(changes) { return batches, true, swept; }
        continue;
      }
      previous := current;
    }
  }
}
