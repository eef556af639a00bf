# maya-to-painter, modelled in Dafny

This project models the logic of the Maya plug-in `mayaToPainter.py`. The plug-in exports the selected meshes as FBX files and hands them to Substance Painter. The model covers:

- **Export dispatch** (`sendToPainter`). Nothing selected aborts. One object is exported as `<export dir>\<name>.fbx`. A pair of objects both tagged `_low` / `_high` is exported object by object. A pair whose first object is tagged and whose second is not exports the first object on its own, then the whole selection to one file named through a prompt (`exportMutliple`). Any other selection, including a pair whose first object is untagged, goes only to that prompted file.
- **The launch decision.** A running Painter picks up meshes that it already has open. Otherwise a detached Painter is started with `--mesh <file>`, plus `--split-by-udim` when that option is on.
- **The exported-files list.** `addObjectToList` appends to it. The four `remove*TempFiles` routines prune it and delete files on disk.
- **The plug-in's settings**, with their first-load defaults.
- **The two JSON documents shared with the Painter-side plug-in:**
  - `bakingParameters.json`: its `Output_Size` pair of resolution codes, the two resolution tables, the X/Y menu handlers, and the reset applied to a document with unknown codes.
  - `shouldBake.json`: the auto-bake flag.
- **The `verifyPaths` check.**
- **The TASKLIST test** for a running Painter (`processExists`).

## How the host is represented

- Maya's optionVars become the class `PreferenceStore.Preferences`. The exported-files list is a `seq<string>` field, and the methods update it in place.
- The plug-in folder of Painter becomes the class `BakingParameters.PainterPluginFolder`. It has one field per JSON file, holding the parsed document, or `None` when the file does not exist.
- A document is a `PyJson.Json` value. Python's subscripting is modelled with its exceptions: `KeyError`, `IndexError`, `TypeError`, and `IOError` when a file is missing.
- File-system and process facts are parameters:
  - whether a path is a directory or a file;
  - the set of files that exist;
  - the text TASKLIST prints.
- The Maya selection is a sequence of object names. The prompt dialog is a `(button, text)` pair.
- FBX exports are not performed. `MayaToPainter.PlanExports` returns the exports in the order the plug-in performs them. `MayaToPainter.SendToPainter` records them in the list and returns the launch decision as a value.
- Python's `in` on strings is `Text.Contains`. `str.strip()` and `str.split` are `Text.Strip` and `Text.Split`. `os.path.join` is `Paths.Join`, which models the Windows flavour for a relative name.

## Where the code and its description differ

The model follows the code in each of these cases:

- **Duplicate test.** `addObjectToList` treats a path as already recorded when it is a substring of a stored entry. It does not check the reverse, and it does not compare the two for equality.
- **Tag test.** The `_low` / `_high` test is case-sensitive.
- **Missing `shouldBake.json`.** `updateAutoBakeJSON` raises when the file is missing. The model does not skip the file in that case.
- **Prompt with no name.** When the prompt is cancelled or left empty, `exportMutliple` returns `None` after a warning. `sendToPainter` then fails while subscripting that `None`. The model reports this as `Aborted(ExportNameMissing)`: files exported before it stay recorded, and `shouldBake.json` is not touched.
- **Stored flag.** The flag written to `shouldBake.json` is the optionVar's integer, 0 or 1, not a JSON boolean.
- **Mesh of a pair.** In the pair branch, `shouldUpdateMesh` is decided by the second object's file. The mesh handed to Painter is set only by a `_low` name, so two `_high` objects launch Painter with an empty mesh argument.
- **Clean-up indices.** The clean-up routines remove entries by the index they have in a snapshot. That index is applied to the list as already shortened, so the wrong entries are removed (see Findings).
- **Executable-name test.** The test in `verifyPaths` rejects only a path that contains both spellings of the executable name (see Findings).

## Model

| member | source | states |
|---|---|---|
| PreferenceStore.Preferences.constructor | Content/mayaToPainter.py:47-62 | first-load defaults: empty exported-files list, UDIM split and auto-bake off, same width/height on |
| PreferenceStore.Preferences.AddObjectToList | Content/mayaToPainter.py:67-71 | the new list is `WithRecorded(old list, path)`: unchanged when a stored entry contains the path, else the path appended |
| PreferenceStore.RecordingKeepsEntries | Content/mayaToPainter.py:67-71 | earlier entries stay in place; the list grows by at most the path, at the end; it is unchanged exactly when a stored entry contains the path; afterwards some entry contains the path |
| PreferenceStore.RecordingIsIdempotent | Content/mayaToPainter.py:67-71 | recording the same path twice equals recording it once |
| PreferenceStore.RecordingExample | Content/mayaToPainter.py:67-71 | `["/tmp/a.fbx"]` is unchanged by `/tmp/a.fbx` and gains `/tmp/b.fbx` at the end |
| PreferenceStore.RecordAllCovers | Content/mayaToPainter.py:67-71 | recording a sequence of paths keeps the old entries as a prefix, adds at most one entry per path, and leaves every path contained in some entry |
| PreferenceStore.OtherFilesAreDisjoint | Content/mayaToPainter.py:436-496 | the "neither" routine picks exactly the entries that neither the `_low` nor the `_high` routine picks; the "all" routine picks every entry |
| PreferenceStore.Preferences.RemoveTempFiles | Content/mayaToPainter.py:436-496 | the list becomes `Deleted(snapshot, which, n)` (removal at snapshot indices from the live list); the files left on disk are the old ones minus every picked entry and its `.assbin` companion |
| PreferenceStore.Preferences.RemoveAllTempFiles | Content/mayaToPainter.py:436-448 | as `RemoveTempFiles` with every entry picked |
| PreferenceStore.Preferences.RemoveLowTempFiles | Content/mayaToPainter.py:451-464 | as `RemoveTempFiles` with the entries containing `_low` picked |
| PreferenceStore.Preferences.RemoveHighTempFiles | Content/mayaToPainter.py:467-480 | as `RemoveTempFiles` with the entries containing `_high` picked |
| PreferenceStore.Preferences.RemoveNotLowHighTempFiles | Content/mayaToPainter.py:483-496 | as `RemoveTempFiles` with the entries containing neither tag picked |
| PreferenceStore.DiskTargetsArePicked | Content/mayaToPainter.py:436-496 | a file is deleted from disk exactly when it is a picked entry or the `.assbin` companion of one |
| PreferenceStore.RemoveAllKeepsOddEntries | Content/mayaToPainter.py:436-448 | after `removeAllTempFiles` the list holds exactly the entries at odd positions, `|s| / 2` of them |
| PreferenceStore.CleanupRemovesWrongEntries | Content/mayaToPainter.py:451-464 | on `[a_low, b_low, c]` the low routine leaves `[b_low]`, where the intended result is `[c]` |
| PreferenceStore.RetainedIsIntended | Content/mayaToPainter.py:436-496 | the corrected clean-up keeps exactly the entries that were not picked, and never more entries than it was given |
| PreferenceStore.NothingPickedNothingRemoved | Content/mayaToPainter.py:436-496 | when no entry is picked, the as-written loop leaves the list unchanged and agrees with the corrected one |
| Paths.CompanionOfFbx | Content/mayaToPainter.py:445 | the companion of `x.fbx` or `x.FBX` is `x.assbin`, which is never the file itself |
| Paths.Join | Content/mayaToPainter.py:213 | the joined path starts with the directory and ends with the name |
| Paths.JoinInjective | Content/mayaToPainter.py:213 | two names joined to the same directory give the same path only if the names are equal |
| Paths.MeshPath | Content/mayaToPainter.py:273 | `<dir>\<name>.fbx` is non-empty and carries the `.fbx` extension |
| Paths.MeshPathInjective | Content/mayaToPainter.py:213 | different object names give different path strings |
| MayaToPainter.NormalizeExportName | Content/mayaToPainter.py:85-101 | no name exactly when the button is not OK or the text is empty; the name has an FBX extension; the typed text is kept exactly when it contains `.fbx` or `.FBX`, otherwise `.fbx` is appended |
| MayaToPainter.NormalizingTwice | Content/mayaToPainter.py:85-101 | normalising an already normalised name gives it back |
| MayaToPainter.ExportMultiple | Content/mayaToPainter.py:77-144 | no export exactly when the prompt gives no name; otherwise one export of the whole selection to `join(exportDir, name)`, an FBX file, with `shouldUpdateMesh` true exactly when that file existed |
| MayaToPainter.PlanExports | Content/mayaToPainter.py:203-317 | the loop over the selection produces exactly `ExpectedPlan`, the case-by-case description of the dispatch |
| MayaToPainter.EmptySelectionExportsNothing | Content/mayaToPainter.py:203-205 | nothing is exported exactly when nothing is selected |
| MayaToPainter.SingleObjectExportsOneFile | Content/mayaToPainter.py:272-296 | one object: exactly one export, `<exportDir>\<name>.fbx`, which is the mesh handed to Painter; update exactly when it existed |
| MayaToPainter.LargeSelectionIsMultiExport | Content/mayaToPainter.py:314-317 | more than two objects: nothing is exported when no name is given; otherwise one export of the whole selection, which is the mesh |
| MayaToPainter.UntaggedPairIsMultiExport | Content/mayaToPainter.py:207-270 | a pair with an untagged name falls back to one multi-export of both objects, after the export of a tagged first object |
| MayaToPainter.OnlyLowSetsMesh | Content/mayaToPainter.py:207-263 | a tagged pair exports both objects separately; the mesh is empty exactly when neither is `_low`, and otherwise it is the file of a `_low` object |
| MayaToPainter.ExportsAreFbxFiles | Content/mayaToPainter.py:203-317 | every exported file has an FBX extension, and the mesh is empty or one of the exported files |
| MayaToPainter.ShouldUpdateFollowsLastExport | Content/mayaToPainter.py:207-317 | `shouldUpdateMesh` holds exactly when the last exported file existed before, counting files written earlier in the same run |
| MayaToPainter.SendToPainter | Content/mayaToPainter.py:189-355 | a failed path check changes nothing; otherwise the planned exports are recorded in order; after an abort for an empty selection or a missing name `shouldBake.json` is untouched; after an export it is updated, and the result is the launch decision for the TASKLIST answer |
| PainterProcess.VerifyPaths | Content/mayaToPainter.py:166-184 | an export directory that is not a directory fails first, then a Painter path that is not a file; the name error fires exactly when the path contains both spellings of the executable name; the check passes exactly when both paths exist and the path does not contain both spellings |
| PainterProcess.AnyExistingFilePasses | Content/mayaToPainter.py:171-184 | any existing file without the capitalised executable name passes the check |
| PainterProcess.NotepadPasses | Content/mayaToPainter.py:171-184 | `C:\notepad.exe` passes the executable check as written |
| PainterProcess.VerifyPathsIntended | Content/mayaToPainter.py:166-184 | corrected check: the name error fires exactly when the path contains neither spelling; it passes exactly when both paths exist and one spelling is present |
| PainterProcess.VerifyPathsIsInverted | Content/mayaToPainter.py:171-184 | when the path holds both spellings or neither, the as-written check accepts exactly what the corrected one rejects |
| PainterProcess.TaskLines | Content/mayaToPainter.py:156 | the output of TASKLIST always splits into at least one line |
| PainterProcess.ProcessExists | Content/mayaToPainter.py:150-161 | running exactly when the trimmed output holds a line break and its last line contains the process name |
| PainterProcess.RunningMeansNameOnLastLine | Content/mayaToPainter.py:156-158 | when running, the trimmed output has at least two lines: it is the earlier lines joined by CRLF, a CRLF, and a last line that contains the process name and no CRLF |
| PainterProcess.LaunchArguments | Content/mayaToPainter.py:333-355 | `[painterPath, "--mesh", mesh]`, with `--split-by-udim` appended exactly when UDIM splitting is on |
| PainterProcess.Decide | Content/mayaToPainter.py:324-355 | the launch is skipped exactly when Painter is running and the mesh existed; otherwise it is the argument vector above |
| Text.ContainsIffOccurs | Content/mayaToPainter.py:70 | Python's substring test holds exactly when the needle occurs at some index |
| Text.Strip | Content/mayaToPainter.py:156 | the stripped text occurs in the original with only whitespace before and after it, and neither starts nor ends with whitespace |
| Text.IndexOfIsLeftmost | Content/mayaToPainter.py:156 | the search finds the first occurrence of the separator, and finds none exactly when the separator does not occur |
| Text.JoinSplit | Content/mayaToPainter.py:156 | joining the pieces of a split with the separator gives back the text |
| Text.SplitCount | Content/mayaToPainter.py:156-158 | a split gives more than one piece exactly when the separator occurs |
| Text.SplitPiecesAvoidSep | Content/mayaToPainter.py:156 | no piece of a split contains the separator |
| Text.JoinWithLast | Content/mayaToPainter.py:156-158 | a list of two or more lines is its earlier lines joined, the separator, then its last line |
| ResolutionTables.CodesAreFiveToThirteen | Content/mayaToPainter.py:595-605 | the codes of `read_resolutions` are exactly 5 to 13 |
| ResolutionTables.TablesAreInverse | Content/mayaToPainter.py:582-605 | the two tables are mutual inverses; the labels of one are the values of the other |
| ResolutionTables.LabelIsPowerOfTwo | Content/mayaToPainter.py:582-605 | each code's label is the decimal spelling of 2 to the power of the code |
| BakingParameters.SetOutputSize | Content/mayaToPainter.py:613 | an unknown size raises KeyError before the document is read; on success the same keys remain and every key but `Output_Size` is unchanged |
| BakingParameters.SetOutputSizeEditsOneEntry | Content/mayaToPainter.py:613 | on a document with an `Output_Size` list, the edited entry holds the code of the chosen size and every other entry is unchanged |
| BakingParameters.SameWidthHeightCopiesCode | Content/mayaToPainter.py:608-619 | X followed by the Y handler leaves both entries holding the chosen code and the rest of the document unchanged |
| BakingParameters.SameWidthHeightExample | Content/mayaToPainter.py:608-631 | `[7, 11]` with X set to 256 and same width/height on becomes `[8, 8]` |
| BakingParameters.PainterPluginFolder.UpdateXResolution | Content/mayaToPainter.py:608-619 | writes `Output_Size[0]`, then runs the Y edit on the result exactly when same width/height is on; on an exception the file keeps its last written state |
| BakingParameters.PainterPluginFolder.UpdateYResolution | Content/mayaToPainter.py:624-631 | writes `Output_Size[1]` alone; a missing file or an exception leaves the file unchanged |
| BakingParameters.LookupSize | Content/mayaToPainter.py:680-683 | a number in the table yields its label, whose code is that number; a number outside the table raises KeyError, a list or dict raises TypeError (unhashable), and any other value raises KeyError |
| PyJson.GetField | Content/mayaToPainter.py:613 | `doc[key]` succeeds exactly on a dict holding the key and yields its value; a dict without it raises KeyError, anything else TypeError |
| PyJson.GetItem | Content/mayaToPainter.py:680-683 | `v[i]` succeeds exactly on a list or string long enough, yielding the element or one-character substring; a short list or string raises IndexError, a dict KeyError, anything else TypeError |
| PyJson.SetItem | Content/mayaToPainter.py:613 | `v[i] = x` succeeds exactly on a long enough list or on a dict; afterwards `v[i]` (on a dict, the key spelt as the numeral) reads back `x` and every other entry is unchanged; a short list raises IndexError, anything else TypeError |
| PyJson.SetField | Content/mayaToPainter.py:563 | `d[key] = x` succeeds exactly on a dict; the keys become the old ones plus `key`, `key` reads back `x`, other entries are unchanged; anything else raises TypeError |
| BakingParameters.ReadSize | Content/mayaToPainter.py:678-683 | a menu value that is read is one of the nine labels |
| BakingParameters.ReadOutputSize | Content/mayaToPainter.py:676-686 | both sizes are shown exactly when both lookups succeed; otherwise the file is reset exactly when the first failing lookup raised KeyError, and any other exception escapes |
| BakingParameters.MissingSizesAreReset | Content/mayaToPainter.py:676-687 | an object without `Output_Size`, such as the empty document, is reset |
| BakingParameters.ResetExactlyOnUnknownCode | Content/mayaToPainter.py:676-687 | with numeric codes, the reset happens exactly when a code is not a key of `read_resolutions`; otherwise both labels are shown |
| BakingParameters.DefaultDocumentIsReadable | Content/mayaToPainter.py:688-694 | the default document reads back as 128 x 2048, so the recursive re-read does not reset again |
| BakingParameters.PainterPluginFolder.UpdateOptionsFromJSON | Content/mayaToPainter.py:671-694 | shows the stored sizes, or writes the default document once and shows 128 x 2048, or raises the other exception; a missing file raises IOError |
| BakingParameters.SetShouldBake | Content/mayaToPainter.py:563 | succeeds exactly on a JSON object; sets `shouldBake` to 1 or 0 and keeps every other key |
| BakingParameters.PainterPluginFolder.UpdateAutoBakeJSON | Content/mayaToPainter.py:559-565 | the file becomes the edited document; a missing file or a non-object document raises and leaves it unchanged |

## Findings

| source | as written | input that shows it | evidently intended | confidence | as-written member | corrected member |
|---|---|---|---|---|---|---|
| Content/mayaToPainter.py:436-496 | each picked entry is removed at its index in the enumerated copy, applied to the list that is already shorter | `removeLowTempFiles` on `[a_low.fbx, b_low.fbx, c.fbx]` leaves `[b_low.fbx]`; `removeAllTempFiles` leaves every odd-position entry | the picked entries are removed and all others kept (`[c.fbx]`; the empty list) | high, not executed | PreferenceStore.CleanupRemovesWrongEntries | PreferenceStore.RetainedIsIntended |
| Content/mayaToPainter.py:171-184 | the name test flags only a path containing both spellings of `substance painter.exe` (`or` of two negations) | `C:\notepad.exe` passes; a path with neither spelling is never rejected | reject a path that contains neither spelling | high, not executed | PainterProcess.NotepadPasses | PainterProcess.VerifyPathsIntended |

Both rows are kept as written in the operations on the preferences and in `SendToPainter`, because those members model what the plug-in does. The corrected definitions (`PreferenceStore.Retained`, `PainterProcess.VerifyPathsIntended`) carry the intended properties. `PreferenceStore.NothingPickedNothingRemoved` and `PainterProcess.VerifyPathsIsInverted` relate each corrected definition to the as-written one.

## Left out

- Maya scene work is not modelled: placeholder blinn shaders and shading groups, their removal, `pm.select`, `listConnections` and `FBXExport`. An export is recorded only as "the file at this path was written with these objects".
- The UI is not modelled: option windows, resolution menus, check boxes, text fields, file dialogs and the prompt dialog itself. The prompt appears only as its answer.
- Process and file-system calls are inputs, not actions. `subprocess.Popen` appears as the argument vector it would receive. Existence tests are booleans or a set of existing files. The TASKLIST call is its output text.
- `os.makedirs` of the default temp folder, `removeTempFolder`, `openCurrentTempFolder` and the path-changing callbacks (`changeExportPath`, `changePainterPath`, `resetExportPath`, `resetPainterPath`, `updateExportPath`, `updatePainterPath`) are user-interface and file-system actions; they are not modelled.
- `updateSameWidthHeight`, `updateSplitByUDIMs` and `updateAutoBake` only copy a UI control into a setting; they are not modelled. `updateBakingParametersJSON` reads a file and does nothing with it.
- JSON parsing and serialisation are not modelled: key order, floating-point numbers and the text format are out of scope. Documents are values.
- The first-load code that asks for the Painter executable through a file dialog is not modelled. The constructor of `Preferences` takes both paths as parameters.
- Plug-in registration (`MPxCommand` classes, `initializePlugin`, `uninitializePlugin`) is not modelled.
- Paths.Join: models `os.path.join` on Windows only for a relative second argument without a drive. Absolute names, UNC paths and the POSIX flavour are not modelled.
- PreferenceStore.RemoveAt: assumes that Maya's `optionVar -removeFromArray` with an index past the end of the array changes nothing.
- PreferenceStore.Preferences.RemoveTempFiles: does not model the order of deletions on disk, only the resulting set of files. An `.assbin` companion is removed whether or not the mesh file itself existed, as in the source.
- MayaToPainter.PlanExports: the Maya exports of one run are collected and then recorded in the list by `SendToPainter`. The source records each export immediately after writing it. Nothing else reads the list in between, so the resulting list is the same.
- PyJson.SetItem: on a dict-shaped `Output_Size` that already holds the numeral key, the new value replaces the old one. `json.dump` would write both keys, and which duplicate a later read keeps depends on CPython 2's dict slot order, which is not modelled.
- MayaToPainter.ExpectedPlan: file identity is exact string equality. Windows compares file names without regard to case, so two objects such as `a_low` and `A_low` name the same file there, and the second export finds the first one's file already present; the model treats them as different files and does not capture that case.
- Python 2 string details are not modelled: `str.strip()` removes the six ASCII whitespace characters, and non-ASCII whitespace is not considered.
