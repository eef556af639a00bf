/** File names the plugin builds: `os.path.join` (Windows flavour), the `.fbx` mesh path of an object,
    the `_low`/`_high` naming convention and the `.assbin` companion of an exported file. */
module Paths {
  import opened Text

  /** An object (or exported file) whose name contains `_low` is a low-poly mesh. */
  predicate IsLow(name: string) {
    Contains(name, "_low")
  }

  /** An object (or exported file) whose name contains `_high` is a high-poly mesh. */
  predicate IsHigh(name: string) {
    Contains(name, "_high")
  }

  /** The test the export-name prompt applies: either spelling of the extension anywhere in the name. */
  predicate HasFbxExtension(name: string) {
    Contains(name, ".fbx") || Contains(name, ".FBX")
  }

  predicate IsSeparator(c: char) {
    c == '\\' || c == '/'
  }

  /** The part of a Windows path after a drive prefix such as `C:`. */
  function PathPart(dir: string): string {
    if |dir| >= 2 && dir[1] == ':' then dir[2..] else dir
  }

  /** `os.path.join(dir, name)` on Windows, for a `name` that is relative and carries no drive:
      a backslash goes between the two unless the directory part is empty or already ends in a separator. */
  function Join(dir: string, name: string): (path: string)
    ensures |path| >= |dir| + |name|
    ensures path[..|dir|] == dir && path[|path| - |name|..] == name
  {
    var p := PathPart(dir);
    if p != "" && !IsSeparator(p[|p| - 1]) then dir + "\\" + name else dir + name
  }

  /** Two different names never join to the same path under one directory. */
  lemma JoinInjective(dir: string, a: string, b: string)
    requires Join(dir, a) == Join(dir, b)
    ensures a == b
  {
    var p := PathPart(dir);
    if p != "" && !IsSeparator(p[|p| - 1]) {
      assert a == Join(dir, a)[|dir| + 1..];
    } else {
      assert a == Join(dir, a)[|dir|..];
    }
  }

  /** Whatever the name contains, the joined path contains. */
  lemma JoinKeepsName(dir: string, name: string, needle: string)
    requires Contains(name, needle)
    ensures Contains(Join(dir, name), needle)
  {
    var p := PathPart(dir);
    if p != "" && !IsSeparator(p[|p| - 1]) {
      ContainsInConcat(dir + "\\", name, "", needle);
      assert dir + "\\" + name + "" == Join(dir, name);
    } else {
      ContainsInConcat(dir, name, "", needle);
      assert dir + name + "" == Join(dir, name);
    }
  }

  /** `os.path.join(exportDir, "%s.fbx" % obj)`: where one object is exported. */
  function MeshPath(exportDir: string, objectName: string): (path: string)
    ensures HasFbxExtension(path) && path != ""
  {
    ContainsSuffix(objectName, ".fbx");
    JoinKeepsName(exportDir, objectName + ".fbx", ".fbx");
    Join(exportDir, objectName + ".fbx")
  }

  /** Distinct objects get distinct mesh paths. */
  lemma MeshPathInjective(exportDir: string, a: string, b: string)
    requires MeshPath(exportDir, a) == MeshPath(exportDir, b)
    ensures a == b
  {
    JoinInjective(exportDir, a + ".fbx", b + ".fbx");
    assert a == (a + ".fbx")[..|a|];
  }

  /** Python's `file[0:-3]`: drop the last three characters, or everything when there are fewer. */
  function DropLastThree(file: string): string {
    if |file| >= 3 then file[..|file| - 3] else ""
  }

  /** `file[0:-3] + "assbin"`: the cache file Painter may leave beside an exported mesh. */
  function Companion(file: string): string {
    DropLastThree(file) + "assbin"
  }

  /** The companion of `x.fbx` (or `x.FBX`) is `x.assbin`; it is never the file itself. */
  lemma CompanionOfFbx(base: string)
    ensures Companion(base + ".fbx") == base + ".assbin"
    ensures Companion(base + ".FBX") == base + ".assbin"
    ensures Companion(base + ".fbx") != base + ".fbx"
  {
    assert (base + ".fbx")[..|base| + 1] == base + ".";
    assert (base + ".FBX")[..|base| + 1] == base + ".";
    assert (base + ".assbin")[|base| + 1] == 'a';
  }
}
