/** The "send to painter" command: classify the selection, export it, record the exported files,
    update `shouldBake.json` and either leave a running Painter to pick up the meshes or launch it. */
module MayaToPainter {
  import opened Wrappers
  import opened Text
  import opened Paths
  import opened PyJson
  import opened BakingParameters
  import opened PreferenceStore
  import opened PainterProcess

  /** What the export-name dialog returns: the button pressed (or the dismiss string) and the text typed. */
  datatype Prompt = Prompt(button: string, text: string)

  /** The name check of `exportMutliple`: abort unless OK was pressed with a non-empty name;
      append `.fbx` unless the name already contains `.fbx` or `.FBX`. */
  function NormalizeExportName(prompt: Prompt): (name: Option<string>)
    ensures name.None? <==> prompt.button != "OK" || prompt.text == ""
    ensures name.Some? ==> HasFbxExtension(name.value)
    ensures name.Some? ==> (name.value == prompt.text <==> HasFbxExtension(prompt.text))
    ensures name.Some? && name.value != prompt.text ==> name.value == prompt.text + ".fbx"
  {
    if prompt.button == "OK" && prompt.text != "" then
      if HasFbxExtension(prompt.text) then Some(prompt.text)
      else
        ContainsSuffix(prompt.text, ".fbx");
        Some(prompt.text + ".fbx")
    else None
  }

  /** Typing an already normalised name into the dialog gives it back unchanged. */
  lemma NormalizingTwice(prompt: Prompt)
    requires NormalizeExportName(prompt).Some?
    ensures NormalizeExportName(Prompt("OK", NormalizeExportName(prompt).value)) == NormalizeExportName(prompt)
  {
  }

  /** One call of Maya's FBX export: the file written and the objects selected for it. */
  datatype Export = Export(path: string, objects: seq<string>)

  /** `exportMutliple`'s result: the export and whether its file existed before. */
  datatype MultiExport = MultiExport(file: Export, shouldUpdateMesh: bool)

  /** `exportMutliple`: the whole selection goes to one file named through the dialog. */
  function ExportMultiple(selection: seq<string>, exportDir: string, onDisk: set<string>, prompt: Prompt): (r: Option<MultiExport>)
    ensures r.None? <==> NormalizeExportName(prompt).None?
    ensures r.Some? ==> r.value.file.objects == selection && HasFbxExtension(r.value.file.path)
    ensures r.Some? ==> r.value.file.path == Join(exportDir, NormalizeExportName(prompt).value)
    ensures r.Some? ==> (r.value.shouldUpdateMesh <==> r.value.file.path in onDisk)
  {
    match NormalizeExportName(prompt)
    case None => None
    case Some(name) =>
      var path := Join(exportDir, name);
      assert HasFbxExtension(path) by {
        if Contains(name, ".fbx") { JoinKeepsName(exportDir, name, ".fbx"); }
        else { JoinKeepsName(exportDir, name, ".FBX"); }
      }
      Some(MultiExport(Export(path, selection), path in onDisk))
  }

  /** What the selection handling of `sendToPainter` does before Painter is involved. */
  datatype Plan =
    | NothingSelected
      /** The dialog was cancelled or left empty, after `exports` had already been written. */
    | NoExportName(exports: seq<Export>)
      /** `mesh` is the file handed to Painter; `shouldUpdateMesh` whether the last file checked existed. */
    | Exported(exports: seq<Export>, mesh: string, shouldUpdateMesh: bool)

  function ExportsOf(plan: Plan): seq<Export> {
    if plan.NothingSelected? then [] else plan.exports
  }

  function PathsOf(exports: seq<Export>): (paths: seq<string>)
    ensures |paths| == |exports| && forall i :: 0 <= i < |exports| ==> paths[i] == exports[i].path
  {
    seq(|exports|, i requires 0 <= i < |exports| => exports[i].path)
  }

  predicate Tagged(name: string) {
    IsLow(name) || IsHigh(name)
  }

  /** Falling back to `exportMutliple` after the exports in `before`. */
  function MultiPlan(selection: seq<string>, exportDir: string, onDisk: set<string>, prompt: Prompt, before: seq<Export>): Plan {
    match ExportMultiple(selection, exportDir, onDisk, prompt)
    case None => NoExportName(before)
    case Some(m) => Exported(before + [m.file], m.file.path, m.shouldUpdateMesh)
  }

  /** The selection handling, case by case: nothing; one object; a pair whose names are both
      tagged `_low`/`_high` (each exported on its own, only a `_low` one becoming the mesh, the
      second one's file deciding `shouldUpdateMesh`); a pair with an untagged name, where the loop
      falls back to a multi-export of both when it reaches that name; more than two objects. */
  function ExpectedPlan(selection: seq<string>, exportDir: string, existing: set<string>, prompt: Prompt): Plan {
    if |selection| == 0 then NothingSelected
    else if |selection| == 1 then
      var p := MeshPath(exportDir, selection[0]);
      Exported([Export(p, selection)], p, p in existing)
    else if |selection| > 2 then MultiPlan(selection, exportDir, existing, prompt, [])
    else
      var first, second := selection[0], selection[1];
      if !Tagged(first) then MultiPlan(selection, exportDir, existing, prompt, [])
      else
        var p0 := MeshPath(exportDir, first);
        var e0 := [Export(p0, [first])];
        if !Tagged(second) then MultiPlan(selection, exportDir, existing + {p0}, prompt, e0)
        else
          var p1 := MeshPath(exportDir, second);
          Exported(e0 + [Export(p1, [second])],
                   if IsLow(second) then p1 else if IsLow(first) then p0 else "",
                   p1 in existing + {p0})
  }

  /** Nothing is exported exactly when nothing is selected. */
  lemma EmptySelectionExportsNothing(selection: seq<string>, exportDir: string, existing: set<string>, prompt: Prompt)
    ensures ExpectedPlan(selection, exportDir, existing, prompt).NothingSelected? <==> |selection| == 0
  {
  }

  /** One selected object: exactly one file, `<exportDir>\<name>.fbx`, is written and handed to Painter. */
  lemma SingleObjectExportsOneFile(selection: seq<string>, exportDir: string, existing: set<string>, prompt: Prompt)
    requires |selection| == 1
    ensures var plan := ExpectedPlan(selection, exportDir, existing, prompt);
      plan.Exported? && |plan.exports| == 1
      && plan.exports[0].path == MeshPath(exportDir, selection[0]) && plan.exports[0].objects == selection
      && plan.mesh == plan.exports[0].path
      && (plan.shouldUpdateMesh <==> plan.mesh in existing)
  {
  }

  /** More than two objects: the only export, if the dialog gives a name, is the whole selection. */
  lemma LargeSelectionIsMultiExport(selection: seq<string>, exportDir: string, existing: set<string>, prompt: Prompt)
    requires |selection| > 2
    ensures var plan := ExpectedPlan(selection, exportDir, existing, prompt);
      (plan == NoExportName([]) <==> NormalizeExportName(prompt).None?)
      && (plan.Exported? ==> |plan.exports| == 1 && plan.exports[0].objects == selection
                             && plan.mesh == plan.exports[0].path)
  {
  }

  /** A pair with a name carrying neither tag: the loop stops at that name and multi-exports the
      whole selection; only a tagged first object has been exported on its own before that. */
  lemma UntaggedPairIsMultiExport(selection: seq<string>, exportDir: string, existing: set<string>, prompt: Prompt)
    requires |selection| == 2 && (!Tagged(selection[0]) || !Tagged(selection[1]))
    ensures var plan := ExpectedPlan(selection, exportDir, existing, prompt);
      var before := if Tagged(selection[0]) then [Export(MeshPath(exportDir, selection[0]), [selection[0]])] else [];
      (plan.NoExportName? <==> NormalizeExportName(prompt).None?)
      && (plan.NoExportName? ==> plan.exports == before)
      && (plan.Exported? ==> |plan.exports| == |before| + 1 && plan.exports[..|before|] == before
                             && plan.exports[|before|].objects == selection
                             && plan.mesh == plan.exports[|before|].path)
  {
  }

  /** A pair of tagged names: both are exported on their own, and the mesh handed to Painter is set
      only by a `_low` name (the later one when both are); two `_high` names leave it empty. */
  lemma OnlyLowSetsMesh(selection: seq<string>, exportDir: string, existing: set<string>, prompt: Prompt)
    requires |selection| == 2 && Tagged(selection[0]) && Tagged(selection[1])
    ensures var plan := ExpectedPlan(selection, exportDir, existing, prompt);
      plan.Exported? && |plan.exports| == 2
      && plan.exports[0] == Export(MeshPath(exportDir, selection[0]), [selection[0]])
      && plan.exports[1] == Export(MeshPath(exportDir, selection[1]), [selection[1]])
      && (plan.mesh == "" <==> !IsLow(selection[0]) && !IsLow(selection[1]))
      && (plan.mesh != "" ==> exists i :: 0 <= i < 2 && plan.mesh == plan.exports[i].path && IsLow(selection[i]))
  {
    var plan := ExpectedPlan(selection, exportDir, existing, prompt);
    if IsLow(selection[1]) {
      assert plan.mesh == plan.exports[1].path;
    } else if IsLow(selection[0]) {
      assert plan.mesh == plan.exports[0].path;
    }
  }

  /** Every file the command writes has an FBX extension, and the mesh handed to Painter is one
      of them (or empty). */
  lemma ExportsAreFbxFiles(selection: seq<string>, exportDir: string, existing: set<string>, prompt: Prompt)
    ensures var plan := ExpectedPlan(selection, exportDir, existing, prompt);
      (forall e :: e in ExportsOf(plan) ==> HasFbxExtension(e.path))
      && (plan.Exported? ==> plan.mesh == "" || plan.mesh in PathsOf(plan.exports))
  {
    if |selection| == 1 {
      var p := MeshPath(exportDir, selection[0]);
      assert PathsOf([Export(p, selection)])[0] == p;
    } else if |selection| > 2 || (|selection| == 2 && !Tagged(selection[0])) {
      MultiPlanIsFbx(selection, exportDir, existing, prompt, []);
    } else if |selection| == 2 {
      var p0, p1 := MeshPath(exportDir, selection[0]), MeshPath(exportDir, selection[1]);
      var e0 := [Export(p0, [selection[0]])];
      if !Tagged(selection[1]) {
        MultiPlanIsFbx(selection, exportDir, existing + {p0}, prompt, e0);
      } else {
        var exports := e0 + [Export(p1, [selection[1]])];
        assert PathsOf(exports)[0] == p0 && PathsOf(exports)[1] == p1;
      }
    }
  }

  lemma MultiPlanIsFbx(selection: seq<string>, exportDir: string, onDisk: set<string>, prompt: Prompt, before: seq<Export>)
    requires forall e :: e in before ==> HasFbxExtension(e.path)
    ensures var plan := MultiPlan(selection, exportDir, onDisk, prompt, before);
      (forall e :: e in ExportsOf(plan) ==> HasFbxExtension(e.path))
      && (plan.Exported? ==> plan.mesh in PathsOf(plan.exports))
  {
    var plan := MultiPlan(selection, exportDir, onDisk, prompt, before);
    if plan.Exported? {
      assert PathsOf(plan.exports)[|before|] == plan.mesh;
    }
  }

  /** `shouldUpdateMesh` is decided by the last file exported: whether it existed before
      this command wrote it (files written earlier in the same command count as existing). */
  lemma ShouldUpdateFollowsLastExport(selection: seq<string>, exportDir: string, existing: set<string>, prompt: Prompt)
    ensures var plan := ExpectedPlan(selection, exportDir, existing, prompt);
      plan.Exported? ==>
        |plan.exports| >= 1
        && var last := |plan.exports| - 1;
        (plan.shouldUpdateMesh <==>
          plan.exports[last].path in existing + set e | e in plan.exports[..last] :: e.path)
  {
  }

  /** The selection handling of `sendToPainter` as the source runs it: for a pair the loop
      reassigns `painterObj` and `shouldUpdateMesh` on each object and breaks into the
      multi-export at the first untagged name. Exports are reported, not performed. */
  method PlanExports(selection: seq<string>, exportDir: string, existing: set<string>, prompt: Prompt) returns (plan: Plan)
    ensures plan == ExpectedPlan(selection, exportDir, existing, prompt)
  {
    ghost var expected := ExpectedPlan(selection, exportDir, existing, prompt);
    if |selection| == 0 {
      return NothingSelected;
    }
    var painterObj := "";
    var shouldUpdateMesh := false;
    var exports: seq<Export> := [];
    var written: set<string> := {};
    if |selection| == 2 {
      ghost var p0, p1 := MeshPath(exportDir, selection[0]), MeshPath(exportDir, selection[1]);
      var i := 0;
      while i < 2
        invariant 0 <= i <= 2
        invariant i == 0 ==> exports == [] && written == {} && painterObj == ""
        invariant i == 1 ==>
          Tagged(selection[0]) && exports == [Export(p0, [selection[0]])] && written == {p0}
          && painterObj == (if IsLow(selection[0]) then p0 else "")
          && (shouldUpdateMesh <==> p0 in existing)
        invariant i == 2 ==>
          Tagged(selection[0]) && Tagged(selection[1])
          && exports == [Export(p0, [selection[0]]), Export(p1, [selection[1]])]
          && painterObj == (if IsLow(selection[1]) then p1 else if IsLow(selection[0]) then p0 else "")
          && (shouldUpdateMesh <==> p1 in existing + {p0})
      {
        var obj := selection[i];
        if IsLow(obj) {
          var filename := MeshPath(exportDir, obj);
          shouldUpdateMesh := filename in existing + written;
          exports := exports + [Export(filename, [obj])];
          written := written + {filename};
          painterObj := filename;
        } else if IsHigh(obj) {
          var filename := MeshPath(exportDir, obj);
          shouldUpdateMesh := filename in existing + written;
          exports := exports + [Export(filename, [obj])];
          written := written + {filename};
        } else {
          var output := ExportMultiple(selection, exportDir, existing + written, prompt);
          assert i == 0 ==> existing + written == existing;
          if output.None? {
            return NoExportName(exports);
          }
          exports := exports + [output.value.file];
          painterObj := output.value.file.path;
          shouldUpdateMesh := output.value.shouldUpdateMesh;
          assert Exported(exports, painterObj, shouldUpdateMesh) == expected;
          break;
        }
        i := i + 1;
      }
    } else if |selection| == 1 {
      var filename := MeshPath(exportDir, selection[0]);
      shouldUpdateMesh := filename in existing;
      exports := [Export(filename, selection)];
      painterObj := filename;
    } else {
      var output := ExportMultiple(selection, exportDir, existing, prompt);
      if output.None? {
        return NoExportName([]);
      }
      exports := [output.value.file];
      painterObj := output.value.file.path;
      shouldUpdateMesh := output.value.shouldUpdateMesh;
    }
    plan := Exported(exports, painterObj, shouldUpdateMesh);
  }

  /** What the host reports for one invocation of the command. */
  datatype Host = Host(
    selection: seq<string>,     // names of the selected objects, in selection order
    existing: set<string>,      // files on disk before the command runs
    exportDirIsDir: bool,       // os.path.isdir(export directory)
    painterIsFile: bool,        // os.path.isfile(Painter executable)
    prompt: Prompt,             // the export-name dialog, if it is shown
    tasklistOutput: string)     // what TASKLIST prints for the Painter image name

  datatype Abort =
    | PathInvalid(pathError: PathError)
    | SelectionEmpty
      /** The dialog gave no name: a warning, after which the source raises TypeError on the missing result. */
    | ExportNameMissing
    | AutoBakeRaised(raised: PyError)

  datatype SendOutcome = Aborted(reason: Abort) | Finished(launch: Launch)

  /** `sendToPainter`. */
  method SendToPainter(prefs: Preferences, folder: PainterPluginFolder, host: Host) returns (outcome: SendOutcome)
    modifies prefs`exportedFiles, folder`shouldBake
    ensures var check := VerifyPaths(host.exportDirIsDir, host.painterIsFile, prefs.painterPath);
      check.Some? ==>
        outcome == Aborted(PathInvalid(check.value))
        && prefs.exportedFiles == old(prefs.exportedFiles) && folder.shouldBake == old(folder.shouldBake)
    ensures var check := VerifyPaths(host.exportDirIsDir, host.painterIsFile, prefs.painterPath);
      var plan := ExpectedPlan(host.selection, prefs.exportDirectory, host.existing, host.prompt);
      check.None? ==>
        prefs.exportedFiles == RecordAll(old(prefs.exportedFiles), PathsOf(ExportsOf(plan)))
        && (plan.NothingSelected? ==> outcome == Aborted(SelectionEmpty) && folder.shouldBake == old(folder.shouldBake))
        && (plan.NoExportName? ==> outcome == Aborted(ExportNameMissing) && folder.shouldBake == old(folder.shouldBake))
        && (plan.Exported? ==>
              var bake := EditShouldBake(old(folder.shouldBake), prefs.shouldBake);
              folder.shouldBake == (if bake.Ok? then Some(bake.value) else old(folder.shouldBake))
              && outcome == if bake.Err? then Aborted(AutoBakeRaised(bake.error))
                            else Finished(Decide(ProcessExists(host.tasklistOutput, PainterProcessName),
                                                 plan.shouldUpdateMesh, prefs.painterPath, plan.mesh,
                                                 prefs.splitByUDIMs)))
  {
    var check := VerifyPaths(host.exportDirIsDir, host.painterIsFile, prefs.painterPath);
    if check.Some? {
      return Aborted(PathInvalid(check.value));
    }
    var plan := PlanExports(host.selection, prefs.exportDirectory, host.existing, host.prompt);
    var exports := ExportsOf(plan);
    var paths := PathsOf(exports);
    for k := 0 to |paths|
      invariant prefs.exportedFiles == RecordAll(old(prefs.exportedFiles), paths[..k])
      invariant folder.shouldBake == old(folder.shouldBake)
    {
      assert paths[..k + 1][..k] == paths[..k];
      prefs.AddObjectToList(paths[k]);
    }
    assert paths[..|paths|] == paths;
    match plan
    case NothingSelected =>
      outcome := Aborted(SelectionEmpty);
    case NoExportName(_) =>
      outcome := Aborted(ExportNameMissing);
    case Exported(_, mesh, shouldUpdateMesh) =>
      var status := folder.UpdateAutoBakeJSON(prefs.shouldBake);
      if status.Fail? {
        return Aborted(AutoBakeRaised(status.error));
      }
      var running := ProcessExists(host.tasklistOutput, PainterProcessName);
      outcome := Finished(Decide(running, shouldUpdateMesh, prefs.painterPath, mesh, prefs.splitByUDIMs));
  }
}
