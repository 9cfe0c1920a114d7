/** The watch loop: a change re-runs the command once two consecutive snapshots agree. The file system is a list of the
    snapshots it will show, after which nothing changes any more. */
module Watch {
  import opened Model
  import opened Ordering

  type Snapshot = map<string, int>

  const MISSING := -1

  datatype Kind = Created | Modified | Deleted
  datatype Change = Change(path: string, kind: Kind)

  // ------------------------------------------------------------------ the difference of two snapshots

  function Was(before: Snapshot, path: string): int { if path in before then before[path] else MISSING }

  function KindOf(was: int, now: int): Kind {
    if was == MISSING then Created else if now == MISSING then Deleted else Modified
  }

  function ChangesAmong(before: Snapshot, after: Snapshot, paths: seq<string>): seq<Change>
    requires forall p :: p in paths ==> p in after
  {
    if paths == [] then []
    else
      (if Was(before, paths[0]) == after[paths[0]] then [] else [Change(paths[0], KindOf(Was(before, paths[0]), after[paths[0]]))])
      + ChangesAmong(before, after, paths[1..])
  }

  ghost function Difference(before: Snapshot, after: Snapshot): seq<Change> {
    SortedKeysElements(after.Keys);
    ChangesAmong(before, after, SortedKeys(after.Keys))
  }

  lemma {:induction false} ChangesExact(before: Snapshot, after: Snapshot, paths: seq<string>, c: Change)
    requires forall p :: p in paths ==> p in after
    ensures c in ChangesAmong(before, after, paths) <==>
      c.path in paths && Was(before, c.path) != after[c.path] && c.kind == KindOf(Was(before, c.path), after[c.path])
  {
    if paths != [] {
      assert paths == [paths[0]] + paths[1..];
      ChangesExact(before, after, paths[1..], c);
    }
  }

  predicate Exists(files: Snapshot, path: string) { path in files && files[path] != -1 }

  /** What happened to the path from one snapshot to the next. */
  predicate Happened(before: Snapshot, after: Snapshot, c: Change) {
    match c.kind
    case Created => !Exists(before, c.path) && Exists(after, c.path)
    case Deleted => Exists(before, c.path) && !Exists(after, c.path)
    case Modified => Exists(before, c.path) && Exists(after, c.path) && before[c.path] != after[c.path]
  }

  /** A path is reported exactly when its state differs, as created, deleted or modified. */
  lemma {:induction false} DifferenceExact(before: Snapshot, after: Snapshot, c: Change)
    ensures c in Difference(before, after) <==> c.path in after && Happened(before, after, c)
    ensures c in Difference(before, after) <==>
      c.path in after && Was(before, c.path) != after[c.path] && c.kind == KindOf(Was(before, c.path), after[c.path])
  {
    SortedKeysElements(after.Keys);
    ChangesExact(before, after, SortedKeys(after.Keys), c);
  }

  lemma {:induction false} ChangesSorted(before: Snapshot, after: Snapshot, paths: seq<string>)
    requires (forall p :: p in paths ==> p in after) && Ascending(NameLess, paths)
    ensures forall i, j :: 0 <= i < j < |ChangesAmong(before, after, paths)| ==>
      NameLess(ChangesAmong(before, after, paths)[i].path, ChangesAmong(before, after, paths)[j].path)
  {
    if paths != [] {
      var rest := ChangesAmong(before, after, paths[1..]);
      ChangesSorted(before, after, paths[1..]);
      forall j | 0 <= j < |rest| ensures NameLess(paths[0], rest[j].path) {
        ChangesExact(before, after, paths[1..], rest[j]);
        var k :| 0 <= k < |paths[1..]| && paths[1..][k] == rest[j].path;
        assert NameLess(paths[0], paths[k + 1]);
      }
      hide NameLess, KindOf;
    }
  }

  /** Changes are reported by path, each path once. */
  lemma {:induction false} DifferenceSorted(before: Snapshot, after: Snapshot)
    ensures forall i, j :: 0 <= i < j < |Difference(before, after)| ==> NameLess(Difference(before, after)[i].path, Difference(before, after)[j].path)
  {
    SortedKeysElements(after.Keys);
    SortedKeysAscending(after.Keys);
    ChangesSorted(before, after, SortedKeys(after.Keys));
    hide SortedKeys, ChangesAmong, NameLess;
  }

  /** Snapshots of the same paths differ in nothing exactly when they are equal. */
  lemma {:induction false} NoDifference(before: Snapshot, after: Snapshot)
    requires before.Keys == after.Keys
    ensures Difference(before, after) == [] <==> before == after
  {
    if before == after {
      if Difference(before, after) != [] {
        var c := Difference(before, after)[0];
        assert c in Difference(before, after);
        DifferenceExact(before, after, c);
      }
    } else {
      assert exists p :: p in after && before[p] != after[p];
      var p :| p in after && before[p] != after[p];
      DifferenceExact(before, after, Change(p, KindOf(before[p], after[p])));
    }
  }

  /** `diff`. */
  method Diff(before: Snapshot, after: Snapshot) returns (changes: seq<Change>)
    ensures changes == Difference(before, after)
  {
    var paths := SortKeys(after.Keys);
    SortedKeysElements(after.Keys);
    assert Difference(before, after) == ChangesAmong(before, after, paths);
    hide SortedKeys, Difference;
    changes := DiffPaths(before, after, paths);
  }

  method DiffPaths(before: Snapshot, after: Snapshot, paths: seq<string>) returns (changes: seq<Change>)
    requires forall p :: p in paths ==> p in after
    ensures changes == ChangesAmong(before, after, paths)
  {
    hide *;
    changes := [];
    assert paths[0..] == paths;
    for i := 0 to |paths|
      invariant forall p :: p in paths[i..] ==> p in after
      invariant changes + ChangesAmong(before, after, paths[i..]) == ChangesAmong(before, after, paths)
    {
      var path := paths[i];
      NextPath(before, after, paths, i);
      var was := Was(before, path);
      if was != after[path] { changes := changes + [Change(path, KindOf(was, after[path]))]; }
    }
    NoPaths(before, after);
    assert paths[|paths|..] == [];
  }

  lemma {:induction false} NoPaths(before: Snapshot, after: Snapshot)
    ensures ChangesAmong(before, after, []) == []
  {
  }

  lemma {:induction false} NextPath(before: Snapshot, after: Snapshot, paths: seq<string>, i: nat)
    requires i < |paths| && forall p :: p in paths[i..] ==> p in after
    ensures paths[i] in after && forall p :: p in paths[i + 1..] ==> p in after
    ensures ChangesAmong(before, after, paths[i..]) ==
      (if Was(before, paths[i]) == after[paths[i]] then [] else [Change(paths[i], KindOf(Was(before, paths[i]), after[paths[i]]))])
      + ChangesAmong(before, after, paths[i + 1..])
  {
    assert paths[i..] == [paths[i]] + paths[i + 1..];
    assert paths[i] in paths[i..] && paths[i..][1..] == paths[i + 1..];
    hide KindOf;
  }

  // ------------------------------------------------------------------ the loop

  /** A re-run: the baseline it compared with, the state that settled, and what it reported. */
  datatype Rerun = Rerun(before: Snapshot, agreed: Snapshot, changes: seq<Change>)

  /** From a snapshot that differs, look until two in a row agree: what they agree on, and what is still to be shown. */
  function Settled(seen: Snapshot, shown: seq<Snapshot>): (r: (Snapshot, seq<Snapshot>))
    ensures |r.1| <= |shown|
    decreases |shown|
  {
    if shown == [] then (seen, [])
    else if shown[0] == seen then (seen, shown[1..])
    else Settled(shown[0], shown[1..])
  }

  /** The re-runs over a number of polls, given the baseline and what the file system shows now and next. */
  ghost function Reruns(baseline: Snapshot, current: Snapshot, shown: seq<Snapshot>, polls: nat): seq<Rerun>
    decreases polls
  {
    if polls == 0 then []
    else
      var now, rest := if shown == [] then current else shown[0], if shown == [] then [] else shown[1..];
      if Difference(baseline, now) == [] then Reruns(baseline, now, rest, polls - 1)
      else
        var (agreed, left) := Settled(now, rest);
        [Rerun(baseline, agreed, Difference(baseline, agreed))] + Reruns(agreed, agreed, left, polls - 1)
  }

  class FileSystem {
    var shown: seq<Snapshot>
    var current: Snapshot

    constructor (current: Snapshot, shown: seq<Snapshot>)
      ensures this.current == current && this.shown == shown
    {
      this.current, this.shown := current, shown;
    }

    /** The next snapshot; once all have been shown, the last one stays. */
    method Look() returns (now: Snapshot)
      modifies this
      ensures now == current == (if old(shown) == [] then old(current) else old(shown)[0])
      ensures shown == (if old(shown) == [] then [] else old(shown)[1..])
    {
      if shown != [] { current, shown := shown[0], shown[1..]; }
      now := current;
    }
  }

  /** The inner loop: changes are recomputed as long as the files keep moving. */
  method Settle(files: FileSystem, state: Snapshot, seen: Snapshot) returns (rerun: Rerun)
    requires seen == files.current
    modifies files
    ensures (rerun.agreed, files.shown) == Settled(seen, old(files.shown)) && files.current == rerun.agreed
    ensures rerun.before == state && rerun.changes == Difference(state, rerun.agreed)
  {
    var current := seen;
    var changes := Diff(state, current);
    var more := true;
    while more
      invariant current == files.current && changes == Difference(state, current)
      invariant more ==> Settled(seen, old(files.shown)) == Settled(current, files.shown)
      invariant !more ==> Settled(seen, old(files.shown)) == (current, files.shown)
      decreases more, |files.shown|
    {
      var settled := files.Look();
      if settled == current {
        more := false;
      } else {
        current := settled;
        changes := Diff(state, current);
      }
    }
    rerun := Rerun(state, current, changes);
  }

  /** The re-runs of a watch that starts when the files are as in `before`: the first run comes first, and the baseline
      is what the files show after it. */
  ghost function Watched(before: Snapshot, shown: seq<Snapshot>, polls: nat): seq<Rerun> {
    if shown == [] then Reruns(before, before, [], polls) else Reruns(shown[0], shown[0], shown[1..], polls)
  }

  /** `watch`, for as many polls as it is let continue. */
  method Run(files: FileSystem, polls: nat) returns (reruns: seq<Rerun>, runs: nat)
    modifies files
    ensures reruns == Watched(old(files.current), old(files.shown), polls)
    ensures runs == 1 + |reruns|
  {
    runs := 1;
    var baseline := files.Look();
    reruns := [];
    hide Reruns, Settled, Difference;
    ghost var all := Reruns(baseline, files.current, files.shown, polls);
    for poll := 0 to polls
      invariant reruns + Reruns(baseline, files.current, files.shown, polls - poll) == all && runs == 1 + |reruns|
    {
      var rerun := Poll(files, baseline, polls - poll);
      if rerun.Some? { baseline, reruns, runs := rerun.value.agreed, reruns + [rerun.value], runs + 1; }
    }
    NoMorePolls(baseline, files.current, files.shown);
  }

  /** One poll: nothing, or a re-run once what changed has settled. */
  method Poll(files: FileSystem, baseline: Snapshot, ghost left: nat) returns (rerun: Option<Rerun>)
    requires left > 0
    modifies files
    ensures Reruns(baseline, old(files.current), old(files.shown), left) ==
      (if rerun.Some? then [rerun.value] + Reruns(rerun.value.agreed, files.current, files.shown, left - 1)
       else Reruns(baseline, files.current, files.shown, left - 1))
  {
    hide Reruns, Settled, Difference;
    NextPoll(baseline, files.current, files.shown, left);
    var current := files.Look();
    var changes := Diff(baseline, current);
    if changes == [] { return None; }
    var settled := Settle(files, baseline, current);
    rerun := Some(settled);
  }

  lemma {:induction false} NoMorePolls(baseline: Snapshot, current: Snapshot, shown: seq<Snapshot>)
    ensures Reruns(baseline, current, shown, 0) == []
  {
  }

  lemma {:induction false} NextPoll(baseline: Snapshot, current: Snapshot, shown: seq<Snapshot>, polls: nat)
    requires polls > 0
    ensures
      var now, rest := if shown == [] then current else shown[0], if shown == [] then [] else shown[1..];
      var (agreed, left) := Settled(now, rest);
      Reruns(baseline, current, shown, polls) ==
        if Difference(baseline, now) == [] then Reruns(baseline, now, rest, polls - 1)
        else [Rerun(baseline, agreed, Difference(baseline, agreed))] + Reruns(agreed, agreed, left, polls - 1)
  {
    hide Difference, Settled;
  }

  // ------------------------------------------------------------------ settled means seen twice

  /** What settles is the first snapshot that is shown twice in a row, or the state that never changes again. */
  lemma {:induction false} SettledTwice(seen: Snapshot, shown: seq<Snapshot>) returns (k: nat)
    ensures
      var (agreed, left) := Settled(seen, shown);
      var looks := [seen] + shown;
      && k < |looks| && looks[k] == agreed
      && (forall j :: 0 <= j < k ==> looks[j] != looks[j + 1])
      && (if k + 1 < |looks| then looks[k + 1] == agreed && left == looks[k + 2..] else left == [])
    decreases |shown|
  {
    var looks := [seen] + shown;
    if shown == [] || shown[0] == seen {
      k := 0;
    } else {
      var inner := SettledTwice(shown[0], shown[1..]);
      k := inner + 1;
      assert [shown[0]] + shown[1..] == shown;
      forall j | 0 <= j < k ensures looks[j] != looks[j + 1] { if j > 0 { assert shown[j - 1] != shown[j]; } }
    }
  }

  // ------------------------------------------------------------------ nothing that persists is missed

  predicate SamePaths(paths: set<string>, snapshots: seq<Snapshot>) {
    forall i :: 0 <= i < |snapshots| ==> snapshots[i].Keys == paths
  }

  /** What the file system shows after the polls. */
  ghost function Final(baseline: Snapshot, current: Snapshot, shown: seq<Snapshot>, polls: nat): Snapshot
    decreases polls
  {
    if polls == 0 then current
    else
      var now, rest := if shown == [] then current else shown[0], if shown == [] then [] else shown[1..];
      if Difference(baseline, now) == [] then Final(baseline, now, rest, polls - 1)
      else
        var (agreed, left) := Settled(now, rest);
        Final(agreed, agreed, left, polls - 1)
  }

  lemma {:induction false} SettledPaths(seen: Snapshot, shown: seq<Snapshot>, paths: set<string>)
    requires seen.Keys == paths && SamePaths(paths, shown)
    ensures Settled(seen, shown).0.Keys == paths && SamePaths(paths, Settled(seen, shown).1)
    decreases |shown|
  {
    if shown != [] && shown[0] != seen { SettledPaths(shown[0], shown[1..], paths); }
  }

  ghost predicate Reported(reruns: seq<Rerun>, path: string, was: int) {
    exists i, c :: 0 <= i < |reruns| && c in reruns[i].changes && c.path == path && Was(reruns[i].before, path) == was
  }

  /** Each re-run compares with what the one before it settled on, and each one reports exactly its difference. */
  lemma {:induction false} Chained(baseline: Snapshot, current: Snapshot, shown: seq<Snapshot>, polls: nat)
    ensures
      var reruns := Reruns(baseline, current, shown, polls);
      && (forall i :: 0 <= i < |reruns| ==> reruns[i].changes == Difference(reruns[i].before, reruns[i].agreed))
      && (reruns != [] ==> reruns[0].before == baseline)
      && (forall i :: 0 < i < |reruns| ==> reruns[i].before == reruns[i - 1].agreed)
    decreases polls
  {
    hide Difference;
    if polls > 0 {
      var now, rest := if shown == [] then current else shown[0], if shown == [] then [] else shown[1..];
      if Difference(baseline, now) == [] {
        Chained(baseline, now, rest, polls - 1);
      } else {
        var (agreed, left) := Settled(now, rest);
        Chained(agreed, agreed, left, polls - 1);
      }
    }
  }

  /** An edit made at any time after the baseline was taken, during a re-run or between polls, is reported by a later
      poll if it persists: the path whose final state is not the baseline's is in the changes of some re-run. */
  lemma {:induction false} NothingMissed(baseline: Snapshot, current: Snapshot, shown: seq<Snapshot>, polls: nat, paths: set<string>, path: string)
    requires baseline.Keys == paths && current.Keys == paths && SamePaths(paths, shown) && path in paths && polls > 0
    ensures
      var final := Final(baseline, current, shown, polls);
      && final.Keys == paths
      && (final[path] != baseline[path] ==> Reported(Reruns(baseline, current, shown, polls), path, baseline[path]))
    decreases polls
  {
    hide Difference;
    var now, rest := if shown == [] then current else shown[0], if shown == [] then [] else shown[1..];
    var all := Reruns(baseline, current, shown, polls);
    NoDifference(baseline, now);
    if now == baseline {
      if polls > 1 { NothingMissed(baseline, now, rest, polls - 1, paths, path); }
    } else {
      var (agreed, left) := Settled(now, rest);
      SettledPaths(now, rest, paths);
      if agreed[path] != baseline[path] {
        var c := Change(path, KindOf(baseline[path], agreed[path]));
        DifferenceExact(baseline, agreed, c);
        assert c in all[0].changes;
      }
      if polls > 1 {
        NothingMissed(agreed, agreed, left, polls - 1, paths, path);
        var later := Reruns(agreed, agreed, left, polls - 1);
        if Reported(later, path, baseline[path]) {
          var i, c :| 0 <= i < |later| && c in later[i].changes && c.path == path && Was(later[i].before, path) == baseline[path];
          assert all[i + 1] == later[i];
        }
      }
    }
  }

  // ------------------------------------------------------------------ what changes during the first run

  ghost predicate NeverShown(path: string, was: int, shown: seq<Snapshot>) {
    forall k :: 0 <= k < |shown| ==> Was(shown[k], path) != was
  }

  lemma {:induction false} SettledNever(seen: Snapshot, shown: seq<Snapshot>, path: string, was: int)
    requires Was(seen, path) != was && NeverShown(path, was, shown)
    ensures Was(Settled(seen, shown).0, path) != was && NeverShown(path, was, Settled(seen, shown).1)
    decreases |shown|
  {
    if shown != [] && shown[0] != seen { SettledNever(shown[0], shown[1..], path, was); }
  }

  ghost predicate NeverBaseline(path: string, was: int, reruns: seq<Rerun>) {
    forall i :: 0 <= i < |reruns| ==> Was(reruns[i].before, path) != was
  }

  lemma {:induction false} OneMore(path: string, was: int, first: Rerun, later: seq<Rerun>)
    requires Was(first.before, path) != was && NeverBaseline(path, was, later)
    ensures NeverBaseline(path, was, [first] + later)
  {
  }

  /** Only states that were shown are compared with. */
  lemma {:induction false} NeverCompared(baseline: Snapshot, current: Snapshot, shown: seq<Snapshot>, polls: nat, path: string, was: int)
    requires Was(baseline, path) != was && Was(current, path) != was && NeverShown(path, was, shown)
    ensures NeverBaseline(path, was, Reruns(baseline, current, shown, polls))
    decreases polls
  {
    hide Difference, Reruns;
    if polls == 0 {
      NoMorePolls(baseline, current, shown);
    } else {
      NextPoll(baseline, current, shown, polls);
      var now, rest := if shown == [] then current else shown[0], if shown == [] then [] else shown[1..];
      if Difference(baseline, now) == [] {
        NeverCompared(baseline, now, rest, polls - 1, path, was);
      } else {
        SettledNever(now, rest, path, was);
        var (agreed, left) := Settled(now, rest);
        NeverCompared(agreed, agreed, left, polls - 1, path, was);
        OneMore(path, was, Rerun(baseline, agreed, Difference(baseline, agreed)), Reruns(agreed, agreed, left, polls - 1));
      }
    }
  }

  /** A path whose state changed between the start and the first look, during the first run, is never reported against
      the state it had, unless it is shown in that state again later. */
  lemma {:induction false} EditDuringFirstRun(before: Snapshot, shown: seq<Snapshot>, polls: nat, path: string)
    requires shown != [] && Was(shown[0], path) != Was(before, path) && NeverShown(path, Was(before, path), shown[1..])
    ensures !Reported(Watched(before, shown, polls), path, Was(before, path))
  {
    hide Reruns;
    NeverCompared(shown[0], shown[0], shown[1..], polls, path, Was(before, path));
    var reruns := Watched(before, shown, polls);
    assert reruns == Reruns(shown[0], shown[0], shown[1..], polls);
  }
}
