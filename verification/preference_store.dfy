/** The plugin's persistent settings (Maya optionVars): export directory, Painter executable,
    the three flags, and the list of exported files with its clean-up routines. */
module PreferenceStore {
  import opened Text
  import opened Paths

  /** Some stored entry contains `path`: the duplicate test of `addObjectToList`. */
  predicate AnyContains(files: seq<string>, path: string) {
    exists i :: 0 <= i < |files| && Contains(files[i], path)
  }

  /** The list after `addObjectToList(path)`. */
  function WithRecorded(files: seq<string>, path: string): seq<string> {
    if AnyContains(files, path) then files else files + [path]
  }

  /** Recording keeps every earlier entry in place, adds at most `path` at the end, leaves the list
      as it was exactly when a stored entry already contains `path`, and afterwards `path` is covered. */
  lemma RecordingKeepsEntries(files: seq<string>, path: string)
    ensures var r := WithRecorded(files, path);
      |files| <= |r| <= |files| + 1 && r[..|files|] == files
      && (r == files <==> AnyContains(files, path))
      && (r != files ==> r[|files|] == path)
      && AnyContains(r, path)
  {
    var r := WithRecorded(files, path);
    if !AnyContains(files, path) {
      assert Contains(r[|files|], path) by { assert IsPrefix(path, path); }
      assert r != files by { assert |r| != |files|; }
    }
  }

  /** Recording the same path twice is the same as recording it once. */
  lemma RecordingIsIdempotent(files: seq<string>, path: string)
    ensures WithRecorded(WithRecorded(files, path), path) == WithRecorded(files, path)
  {
    RecordingKeepsEntries(files, path);
  }

  /** The example list ["/tmp/a.fbx"]: adding "/tmp/a.fbx" again changes nothing, adding "/tmp/b.fbx" appends it. */
  lemma RecordingExample()
    ensures WithRecorded(["/tmp/a.fbx"], "/tmp/a.fbx") == ["/tmp/a.fbx"]
    ensures WithRecorded(["/tmp/a.fbx"], "/tmp/b.fbx") == ["/tmp/a.fbx", "/tmp/b.fbx"]
  {
    var stored: seq<string> := ["/tmp/a.fbx"];
    assert Contains(stored[0], "/tmp/a.fbx") by { assert IsPrefix("/tmp/a.fbx", "/tmp/a.fbx"); }
    assert AnyContains(stored, "/tmp/a.fbx");
    assert !AnyContains(["/tmp/a.fbx"], "/tmp/b.fbx") by {
      ContainsIffOccurs("/tmp/a.fbx", "/tmp/b.fbx");
    }
  }

  /** The list after recording `paths` one after another. */
  function RecordAll(files: seq<string>, paths: seq<string>): seq<string>
    decreases |paths|
  {
    if paths == [] then files
    else WithRecorded(RecordAll(files, paths[..|paths| - 1]), paths[|paths| - 1])
  }

  /** Recording a sequence of paths keeps the earlier entries in place, adds at most one entry per
      path, and leaves every recorded path contained in some entry. */
  lemma {:induction false} RecordAllCovers(files: seq<string>, paths: seq<string>)
    ensures var r := RecordAll(files, paths);
      |files| <= |r| <= |files| + |paths| && r[..|files|] == files
      && forall p :: p in paths ==> AnyContains(r, p)
    decreases |paths|
  {
    if paths != [] {
      var init, last := paths[..|paths| - 1], paths[|paths| - 1];
      RecordAllCovers(files, init);
      var prev := RecordAll(files, init);
      RecordingKeepsEntries(prev, last);
      var r := RecordAll(files, paths);
      forall p | p in paths
        ensures AnyContains(r, p)
      {
        if p != last {
          assert p in init by { assert paths == init + [last]; }
          var i :| 0 <= i < |prev| && Contains(prev[i], p);
          assert r[i] == prev[i];
        }
      }
      assert r[..|files|] == prev[..|files|];
    }
  }

  // ---------------------------------------------------------------------------
  // Clean-up of exported files

  /** The four clean-up routines differ only in which entries they pick. */
  datatype Cleanup = AllFiles | LowFiles | HighFiles | OtherFiles

  predicate Targets(which: Cleanup, file: string) {
    match which
    case AllFiles => true
    case LowFiles => IsLow(file)
    case HighFiles => IsHigh(file)
    case OtherFiles => !IsHigh(file) && !IsLow(file)
  }

  /** The "neither" routine picks exactly the entries the low and the high routines both leave. */
  lemma OtherFilesAreDisjoint(file: string)
    ensures Targets(OtherFiles, file) <==> !Targets(LowFiles, file) && !Targets(HighFiles, file)
    ensures Targets(AllFiles, file)
  {
  }

  /** `optionVar -removeFromArray` at `index`; an index past the end is taken to change nothing. */
  function RemoveAt(live: seq<string>, index: nat): seq<string> {
    if index < |live| then live[..index] + live[index + 1..] else live
  }

  /** The stored list after the loop has visited the first `n` entries of the `snapshot` it
      enumerates: each picked entry is removed at its snapshot index from the live list. */
  function Deleted(snapshot: seq<string>, which: Cleanup, n: nat): seq<string>
    requires n <= |snapshot|
  {
    if n == 0 then snapshot
    else
      var live := Deleted(snapshot, which, n - 1);
      if Targets(which, snapshot[n - 1]) then RemoveAt(live, n - 1) else live
  }

  /** The files a clean-up deletes from disk when present: each picked entry and its companion. */
  function DiskTargets(snapshot: seq<string>, which: Cleanup): set<string>
    decreases |snapshot|
  {
    if snapshot == [] then {}
    else
      var file := snapshot[|snapshot| - 1];
      DiskTargets(snapshot[..|snapshot| - 1], which) + (if Targets(which, file) then {file, Companion(file)} else {})
  }

  /** A file is deleted exactly when it is a picked entry or the companion of one. */
  lemma {:induction false} DiskTargetsArePicked(snapshot: seq<string>, which: Cleanup, x: string)
    ensures x in DiskTargets(snapshot, which)
      <==> exists i :: 0 <= i < |snapshot| && Targets(which, snapshot[i]) && (x == snapshot[i] || x == Companion(snapshot[i]))
    decreases |snapshot|
  {
    if snapshot != [] {
      var init := snapshot[..|snapshot| - 1];
      DiskTargetsArePicked(init, which, x);
      if x in DiskTargets(init, which) {
        var i :| 0 <= i < |init| && Targets(which, init[i]) && (x == init[i] || x == Companion(init[i]));
        assert snapshot[i] == init[i];
      }
      if exists i :: 0 <= i < |snapshot| && Targets(which, snapshot[i]) && (x == snapshot[i] || x == Companion(snapshot[i])) {
        var i :| 0 <= i < |snapshot| && Targets(which, snapshot[i]) && (x == snapshot[i] || x == Companion(snapshot[i]));
        if i < |init| {
          assert init[i] == snapshot[i];
        }
      }
    }
  }

  /** Visiting one more snapshot entry adds that entry and its companion when it is picked. */
  lemma DiskTargetsStep(snapshot: seq<string>, which: Cleanup, index: nat)
    requires index < |snapshot|
    ensures var file := snapshot[index];
      DiskTargets(snapshot[..index + 1], which)
        == DiskTargets(snapshot[..index], which) + (if Targets(which, file) then {file, Companion(file)} else {})
  {
    assert snapshot[..index + 1][..index] == snapshot[..index];
  }

  lemma DeleteBoth(disk: set<string>, gone: set<string>, file: string, companion: string)
    ensures disk - gone - {file} - {companion} == disk - (gone + {file, companion})
  {
  }

  /** What the routines evidently mean to leave in the list: every entry they did not pick. */
  function Retained(files: seq<string>, which: Cleanup): seq<string>
    decreases |files|
  {
    if files == [] then []
    else
      var rest := Retained(files[..|files| - 1], which);
      var last := files[|files| - 1];
      if Targets(which, last) then rest else rest + [last]
  }

  /** The corrected clean-up keeps exactly the entries it does not pick. */
  lemma {:induction false} RetainedIsIntended(files: seq<string>, which: Cleanup)
    ensures forall x :: x in Retained(files, which) <==> x in files && !Targets(which, x)
    ensures |Retained(files, which)| <= |files|
    decreases |files|
  {
    if files != [] {
      var init := files[..|files| - 1];
      RetainedIsIntended(init, which);
      assert files == init + [files[|files| - 1]];
    }
  }

  /** When nothing is picked the loop removes nothing. */
  lemma {:induction false} NothingPickedNothingRemoved(snapshot: seq<string>, which: Cleanup, n: nat)
    requires n <= |snapshot|
    requires forall i :: 0 <= i < |snapshot| ==> !Targets(which, snapshot[i])
    ensures Deleted(snapshot, which, n) == snapshot == Retained(snapshot[..n], which) + snapshot[n..]
  {
    if n > 0 {
      NothingPickedNothingRemoved(snapshot, which, n - 1);
      assert snapshot[..n] == snapshot[..n - 1] + [snapshot[n - 1]];
      assert snapshot[..n][..n - 1] == snapshot[..n - 1];
      assert snapshot[n - 1..] == [snapshot[n - 1]] + snapshot[n..];
    } else {
      assert snapshot[..0] == [];
    }
  }

  /** With two low-poly entries followed by another file, `removeLowTempFiles` removes the second
      low entry's record and then the other file's record: the first low file's record survives
      although that file is gone from disk, and the other file's record is lost. */
  lemma CleanupRemovesWrongEntries()
    ensures Deleted(["a_low.fbx", "b_low.fbx", "c.fbx"], LowFiles, 3) == ["b_low.fbx"]
    ensures Retained(["a_low.fbx", "b_low.fbx", "c.fbx"], LowFiles) == ["c.fbx"]
  {
    var s: seq<string> := ["a_low.fbx", "b_low.fbx", "c.fbx"];
    assert IsLow("a_low.fbx") by { assert "a_low.fbx"[1..5] == "_low"; ContainsAt("a_low.fbx", "_low", 1); }
    assert IsLow("b_low.fbx") by { assert "b_low.fbx"[1..5] == "_low"; ContainsAt("b_low.fbx", "_low", 1); }
    assert !IsLow("c.fbx") by {
      ContainsIffOccurs("c.fbx", "_low");
      forall i | 0 <= i <= 1 ensures !OccursAt("c.fbx", "_low", i) {
        assert "c.fbx"[i..i + 4][0] == "c.fbx"[i] != '_';
      }
    }
    assert Deleted(s, LowFiles, 1) == ["b_low.fbx", "c.fbx"];
    assert Deleted(s, LowFiles, 2) == ["b_low.fbx"];
    assert s[..2] == ["a_low.fbx", "b_low.fbx"] && s[..2][..1] == ["a_low.fbx"] && s[..2][..1][..0] == [];
    assert Retained(s[..2][..1], LowFiles) == [];
    assert Retained(s[..2], LowFiles) == [];
  }

  /** Every other entry, from the second on: s[1], s[3], s[5], ... */
  function Odds(s: seq<string>): seq<string>
    decreases |s|
  {
    if |s| < 2 then [] else [s[1]] + Odds(s[2..])
  }

  lemma {:induction false} OddsAppend(t: seq<string>, u: seq<string>)
    requires |t| % 2 == 0
    ensures Odds(t + u) == Odds(t) + Odds(u)
    decreases |t|
  {
    if |t| == 0 {
      assert t + u == u;
    } else {
      assert (t + u)[2..] == t[2..] + u;
      OddsAppend(t[2..], u);
    }
  }

  lemma {:induction false} OddsLength(s: seq<string>)
    ensures |Odds(s)| == |s| / 2
    decreases |s|
  {
    if |s| >= 2 {
      OddsLength(s[2..]);
    }
  }

  /** One step of `removeAllTempFiles`'s loop while the scan is still in the first half. */
  lemma RemoveAllStep(s: seq<string>, k: nat)
    requires 2 * k + 2 <= |s|
    ensures RemoveAt(Odds(s[..2 * k]) + s[2 * k..], k) == Odds(s[..2 * k + 2]) + s[2 * k + 2..]
  {
    OddsLength(s[..2 * k]);
    var live := Odds(s[..2 * k]) + s[2 * k..];
    assert live[..k] == Odds(s[..2 * k]);
    assert live[k + 1..] == s[2 * k + 1..];
    assert s[..2 * k + 2] == s[..2 * k] + s[2 * k..2 * k + 2];
    OddsAppend(s[..2 * k], s[2 * k..2 * k + 2]);
    assert Odds(s[2 * k..2 * k + 2]) == [s[2 * k + 1]];
    SuffixFrom(s, 2 * k + 1);
  }

  lemma SuffixFrom(s: seq<string>, i: nat)
    requires i < |s|
    ensures s[i..] == [s[i]] + s[i + 1..]
  {
  }

  /** The step that removes the middle entry of an odd-length list. */
  lemma RemoveAllMiddle(s: seq<string>, k: nat)
    requires 2 * k + 1 == |s|
    ensures RemoveAt(Odds(s[..2 * k]) + s[2 * k..], k) == Odds(s)
  {
    OddsLength(s[..2 * k]);
    var live := Odds(s[..2 * k]) + s[2 * k..];
    assert live[..k] == Odds(s[..2 * k]);
    assert live[k + 1..] == [];
    assert s == s[..2 * k] + [s[2 * k]];
    OddsAppend(s[..2 * k], [s[2 * k]]);
  }

  /** The state of `removeAllTempFiles`'s loop after `n` steps. */
  lemma {:induction false} RemoveAllProgress(s: seq<string>, n: nat)
    requires n <= |s|
    ensures 2 * n <= |s| ==> Deleted(s, AllFiles, n) == Odds(s[..2 * n]) + s[2 * n..]
    ensures 2 * n > |s| ==> Deleted(s, AllFiles, n) == Odds(s)
  {
    if n == 0 {
      assert s[..0] == [] && s[0..] == s;
    } else {
      var k := n - 1;
      RemoveAllProgress(s, k);
      assert Deleted(s, AllFiles, n) == RemoveAt(Deleted(s, AllFiles, k), k);
      if 2 * n <= |s| {
        RemoveAllStep(s, k);
      } else if 2 * k + 1 == |s| {
        RemoveAllMiddle(s, k);
      } else {
        if 2 * k == |s| {
          assert s[..2 * k] == s && s[2 * k..] == [];
        }
        OddsLength(s);
      }
    }
  }

  /** `removeAllTempFiles` does not empty the list: the entries at odd positions stay behind. */
  lemma RemoveAllKeepsOddEntries(s: seq<string>)
    ensures Deleted(s, AllFiles, |s|) == Odds(s)
    ensures |Deleted(s, AllFiles, |s|)| == |s| / 2
  {
    RemoveAllProgress(s, |s|);
    if 2 * |s| <= |s| {
      assert s == [] && s[..0] == [];
    }
    OddsLength(s);
  }

  class Preferences {
    var exportDirectory: string
    var painterPath: string
    var splitByUDIMs: bool
    var shouldBake: bool
    var sameWidthHeight: bool
    var exportedFiles: seq<string>

    /** The values the plugin creates on its first load: both flags off, same width/height on, no files. */
    constructor (exportDirectory: string, painterPath: string)
      ensures this.exportDirectory == exportDirectory && this.painterPath == painterPath
      ensures !splitByUDIMs && !shouldBake && sameWidthHeight && exportedFiles == []
    {
      this.exportDirectory := exportDirectory;
      this.painterPath := painterPath;
      splitByUDIMs := false;
      shouldBake := false;
      sameWidthHeight := true;
      exportedFiles := [];
    }

    /** `addObjectToList`: skip `path` when a stored entry contains it, otherwise append it. */
    method AddObjectToList(path: string)
      modifies this`exportedFiles
      ensures exportedFiles == WithRecorded(old(exportedFiles), path)
    {
      var stored := exportedFiles;
      for i := 0 to |stored|
        invariant forall j :: 0 <= j < i ==> !Contains(stored[j], path)
      {
        if Contains(stored[i], path) {
          return;
        }
      }
      exportedFiles := exportedFiles + [path];
    }

    /** The loop shared by the four clean-up routines: enumerate a copy of the list; for each picked
        entry delete the file and its companion when they exist, and remove the entry's snapshot
        index from the live list. Returns the files left on `disk`. */
    method RemoveTempFiles(which: Cleanup, disk: set<string>) returns (remaining: set<string>)
      modifies this`exportedFiles
      ensures exportedFiles == Deleted(old(exportedFiles), which, |old(exportedFiles)|)
      ensures remaining == disk - DiskTargets(old(exportedFiles), which)
    {
      var snapshot := exportedFiles;
      remaining := disk;
      for index := 0 to |snapshot|
        invariant exportedFiles == Deleted(snapshot, which, index)
        invariant remaining == disk - DiskTargets(snapshot[..index], which)
      {
        var file := snapshot[index];
        DiskTargetsStep(snapshot, which, index);
        if Targets(which, file) {
          ghost var before := remaining;
          if file in remaining {
            remaining := remaining - {file};
          }
          assert remaining == before - {file};
          exportedFiles := RemoveAt(exportedFiles, index);
          var assbin := Companion(file);
          if assbin in remaining {
            remaining := remaining - {assbin};
          }
          assert remaining == before - {file} - {assbin};
          DeleteBoth(disk, DiskTargets(snapshot[..index], which), file, assbin);
        }
      }
      assert snapshot[..|snapshot|] == snapshot;
    }

    method RemoveAllTempFiles(disk: set<string>) returns (remaining: set<string>)
      modifies this`exportedFiles
      ensures exportedFiles == Deleted(old(exportedFiles), AllFiles, |old(exportedFiles)|)
      ensures remaining == disk - DiskTargets(old(exportedFiles), AllFiles)
    {
      remaining := RemoveTempFiles(AllFiles, disk);
    }

    method RemoveLowTempFiles(disk: set<string>) returns (remaining: set<string>)
      modifies this`exportedFiles
      ensures exportedFiles == Deleted(old(exportedFiles), LowFiles, |old(exportedFiles)|)
      ensures remaining == disk - DiskTargets(old(exportedFiles), LowFiles)
    {
      remaining := RemoveTempFiles(LowFiles, disk);
    }

    method RemoveHighTempFiles(disk: set<string>) returns (remaining: set<string>)
      modifies this`exportedFiles
      ensures exportedFiles == Deleted(old(exportedFiles), HighFiles, |old(exportedFiles)|)
      ensures remaining == disk - DiskTargets(old(exportedFiles), HighFiles)
    {
      remaining := RemoveTempFiles(HighFiles, disk);
    }

    method RemoveNotLowHighTempFiles(disk: set<string>) returns (remaining: set<string>)
      modifies this`exportedFiles
      ensures exportedFiles == Deleted(old(exportedFiles), OtherFiles, |old(exportedFiles)|)
      ensures remaining == disk - DiskTargets(old(exportedFiles), OtherFiles)
    {
      remaining := RemoveTempFiles(OtherFiles, disk);
    }
  }
}
