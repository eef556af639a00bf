/** Everything about the Painter executable: the path check run before each export, the
    TASKLIST test for a running instance, and the command line a new instance gets. */
module PainterProcess {
  import opened Wrappers
  import opened Text

  const PainterProcessName := "Substance Painter.exe"
  const CrLf := "\r\n"

  datatype PathError = ExportDirNotADirectory | PainterNotAFile | NotAPainterExecutable

  /** `verifyPaths`, with the two file-system tests passed in. The executable-name test, as
      written, only complains about a path that contains BOTH spellings of the executable name. */
  function VerifyPaths(exportDirIsDir: bool, painterIsFile: bool, painterPath: string): (r: Option<PathError>)
    ensures !exportDirIsDir ==> r == Some(ExportDirNotADirectory)
    ensures exportDirIsDir && !painterIsFile ==> r == Some(PainterNotAFile)
    ensures r == Some(NotAPainterExecutable) <==>
      exportDirIsDir && painterIsFile
      && Contains(painterPath, "substance painter.exe") && Contains(painterPath, "Substance Painter.exe")
    ensures r.None? <==>
      exportDirIsDir && painterIsFile
      && !(Contains(painterPath, "substance painter.exe") && Contains(painterPath, "Substance Painter.exe"))
  {
    var painterExe :=
      if !Contains(painterPath, "substance painter.exe") || !Contains(painterPath, "Substance Painter.exe")
      then false else true;
    if !exportDirIsDir then Some(ExportDirNotADirectory)
    else if !painterIsFile then Some(PainterNotAFile)
    else if painterExe then Some(NotAPainterExecutable)
    else None
  }

  /** A file whose name does not contain both spellings passes the check, whatever program it is. */
  lemma AnyExistingFilePasses(painterPath: string)
    requires !Contains(painterPath, "Substance Painter.exe")
    ensures VerifyPaths(true, true, painterPath).None?
  {
  }

  /** An ordinary program such as `C:\notepad.exe` passes the executable check as written. */
  lemma NotepadPasses()
    ensures VerifyPaths(true, true, "C:\\notepad.exe").None?
  {
    var path := "C:\\notepad.exe";
    assert !Contains(path, "Substance Painter.exe") by {
      ContainsIffOccurs(path, "Substance Painter.exe");
      assert |path| < |"Substance Painter.exe"|;
    }
  }

  /** The executable check the error message describes: a path is rejected when it names neither
      spelling of the Painter executable. */
  function VerifyPathsIntended(exportDirIsDir: bool, painterIsFile: bool, painterPath: string): (r: Option<PathError>)
    ensures !exportDirIsDir ==> r == Some(ExportDirNotADirectory)
    ensures exportDirIsDir && !painterIsFile ==> r == Some(PainterNotAFile)
    ensures r == Some(NotAPainterExecutable) <==>
      exportDirIsDir && painterIsFile
      && !Contains(painterPath, "substance painter.exe") && !Contains(painterPath, "Substance Painter.exe")
    ensures r.None? <==>
      exportDirIsDir && painterIsFile
      && (Contains(painterPath, "substance painter.exe") || Contains(painterPath, "Substance Painter.exe"))
  {
    var painterExe := Contains(painterPath, "substance painter.exe") || Contains(painterPath, "Substance Painter.exe");
    if !exportDirIsDir then Some(ExportDirNotADirectory)
    else if !painterIsFile then Some(PainterNotAFile)
    else if !painterExe then Some(NotAPainterExecutable)
    else None
  }

  /** On an existing file whose path holds both spellings or neither, the two checks disagree:
      one rejects exactly the files the other accepts. (With exactly one spelling both pass.) */
  lemma VerifyPathsIsInverted(painterPath: string)
    requires Contains(painterPath, "substance painter.exe") == Contains(painterPath, "Substance Painter.exe")
    ensures VerifyPaths(true, true, painterPath).None? <==> VerifyPathsIntended(true, true, painterPath).Some?
  {
  }

  /** The lines of TASKLIST's output, as `out.strip().split('\r\n')` gives them. */
  function TaskLines(output: string): (lines: seq<string>)
    ensures |lines| >= 1
  {
    Split(Strip(output), CrLf)
  }

  /** `processExists`: TASKLIST printed more than one line and the last one names the process. */
  function ProcessExists(output: string, processName: string): (running: bool)
    ensures running <==>
      Contains(Strip(output), CrLf) && Contains(TaskLines(output)[|TaskLines(output)| - 1], processName)
  {
    var lines := TaskLines(output);
    SplitCount(Strip(output), CrLf);
    |lines| > 1 && Contains(lines[|lines| - 1], processName)
  }

  /** A running instance is reported only when the trimmed output is some earlier lines, a line
      break, and a last line that names the process and holds no line break itself. */
  lemma RunningMeansNameOnLastLine(output: string, processName: string)
    requires ProcessExists(output, processName)
    ensures var lines := TaskLines(output);
      var last := lines[|lines| - 1];
      |lines| >= 2
      && Strip(output) == JoinWith(lines[..|lines| - 1], CrLf) + CrLf + last
      && Contains(last, processName) && !Contains(last, CrLf)
  {
    var s := Strip(output);
    SplitCount(s, CrLf);
    JoinSplit(s, CrLf);
    SplitPiecesAvoidSep(s, CrLf);
    JoinWithLast(TaskLines(output), CrLf);
  }

  /** The command line of a new Painter instance. */
  function LaunchArguments(painterPath: string, mesh: string, splitByUDIM: bool): (args: seq<string>)
    ensures |args| == if splitByUDIM then 4 else 3
    ensures args[..3] == [painterPath, "--mesh", mesh]
    ensures splitByUDIM ==> args[3] == "--split-by-udim"
  {
    if splitByUDIM then [painterPath, "--mesh", mesh, "--split-by-udim"]
    else [painterPath, "--mesh", mesh]
  }

  /** The end of `sendToPainter`: an open Painter picks up rewritten meshes by itself. */
  datatype Launch = MeshesUpdated | Launched(arguments: seq<string>)

  function Decide(running: bool, shouldUpdateMesh: bool, painterPath: string, mesh: string, splitByUDIM: bool): (d: Launch)
    ensures d.MeshesUpdated? <==> running && shouldUpdateMesh
    ensures d.Launched? ==> d.arguments == LaunchArguments(painterPath, mesh, splitByUDIM)
  {
    if running && shouldUpdateMesh then MeshesUpdated
    else Launched(LaunchArguments(painterPath, mesh, splitByUDIM))
  }
}
