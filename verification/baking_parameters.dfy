/** The two JSON files the plugin shares with its companion Painter plugin: `bakingParameters.json`
    (whose `Output_Size` pair of codes the resolution menus edit) and `shouldBake.json`. */
module BakingParameters {
  import opened Wrappers
  import opened ResolutionTables
  import opened PyJson

  const OutputSize := "Output_Size"
  const ShouldBakeKey := "shouldBake"

  /** Which entry of `Output_Size` a resolution menu edits. */
  datatype Axis = Width | Height {
    function Index(): nat {
      if Width? then 0 else 1
    }
  }

  /** `obj["Output_Size"][axis] = resolutions[size]` on a parsed document. Python evaluates the
      right-hand side first, so an unknown size fails before the document is looked at. */
  function SetOutputSize(doc: Json, axis: Axis, size: string): (r: Result<Json, PyError>)
    ensures size !in Resolutions ==> r == Err(KeyError)
    ensures r.Ok? ==> doc.JObject? && r.value.JObject? && r.value.fields.Keys == doc.fields.Keys
    ensures r.Ok? ==> forall k :: k in doc.fields && k != OutputSize ==> r.value.fields[k] == doc.fields[k]
  {
    if size !in Resolutions then Err(KeyError)
    else match GetField(doc, OutputSize)
      case Err(e) => Err(e)
      case Ok(sizes) =>
        match SetItem(sizes, axis.Index(), JNumber(Resolutions[size]))
        case Err(e) => Err(e)
        case Ok(v) => Ok(JObject(doc.fields[OutputSize := v]))
  }

  /** The shape the file has when Painter wrote it: `Output_Size` is a list of (at least) two entries. */
  predicate HasSizeList(doc: Json) {
    doc.JObject? && OutputSize in doc.fields && doc.fields[OutputSize].JArray?
    && |doc.fields[OutputSize].items| >= 2
  }

  function Sizes(doc: Json): seq<Json>
    requires HasSizeList(doc)
  {
    doc.fields[OutputSize].items
  }

  /** On a well-shaped document a menu change writes the chosen code into its own entry and
      touches neither the other entries nor any other key. */
  lemma SetOutputSizeEditsOneEntry(doc: Json, axis: Axis, size: string)
    requires HasSizeList(doc) && size in Resolutions
    ensures SetOutputSize(doc, axis, size).Ok?
    ensures var d := SetOutputSize(doc, axis, size).value;
      HasSizeList(d) && |Sizes(d)| == |Sizes(doc)|
      && Sizes(d)[axis.Index()] == JNumber(Resolutions[size])
      && (forall j :: 0 <= j < |Sizes(doc)| && j != axis.Index() ==> Sizes(d)[j] == Sizes(doc)[j])
  {
  }

  /** With "same width/height" on, the X menu writes X and then the Y handler writes Y:
      both entries end up holding the chosen code and nothing else changes. */
  lemma SameWidthHeightCopiesCode(doc: Json, size: string)
    requires HasSizeList(doc) && size in Resolutions
    ensures SetOutputSize(doc, Width, size).Ok?
    ensures SetOutputSize(SetOutputSize(doc, Width, size).value, Height, size).Ok?
    ensures var d := SetOutputSize(SetOutputSize(doc, Width, size).value, Height, size).value;
      HasSizeList(d) && |Sizes(d)| == |Sizes(doc)|
      && Sizes(d)[0] == Sizes(d)[1] == JNumber(Resolutions[size])
      && (forall j :: 2 <= j < |Sizes(doc)| ==> Sizes(d)[j] == Sizes(doc)[j])
      && d.fields.Keys == doc.fields.Keys
      && (forall k :: k in doc.fields && k != OutputSize ==> d.fields[k] == doc.fields[k])
  {
    SetOutputSizeEditsOneEntry(doc, Width, size);
    SetOutputSizeEditsOneEntry(SetOutputSize(doc, Width, size).value, Height, size);
  }

  /** Output_Size [7, 11] with X set to 256 and "same width/height" on becomes [8, 8]. */
  lemma SameWidthHeightExample()
    ensures var doc := JObject(map[OutputSize := JArray([JNumber(7), JNumber(11)])]);
      SetOutputSize(doc, Width, "256").Ok?
      && SetOutputSize(SetOutputSize(doc, Width, "256").value, Height, "256")
         == Ok(JObject(map[OutputSize := JArray([JNumber(8), JNumber(8)])]))
  {
    var doc := JObject(map[OutputSize := JArray([JNumber(7), JNumber(11)])]);
    assert "256" in Resolutions && Resolutions["256"] == 8;
    assert [JNumber(7), JNumber(11)][0 := JNumber(8)] == [JNumber(8), JNumber(11)];
    assert [JNumber(8), JNumber(11)][1 := JNumber(8)] == [JNumber(8), JNumber(8)];
    var mid := JObject(map[OutputSize := JArray([JNumber(8), JNumber(11)])]);
    assert doc.fields[OutputSize := JArray([JNumber(8), JNumber(11)])] == mid.fields;
    assert SetOutputSize(doc, Width, "256") == Ok(mid);
    assert mid.fields[OutputSize := JArray([JNumber(8), JNumber(8)])] == map[OutputSize := JArray([JNumber(8), JNumber(8)])];
  }

  /** `read_resolutions[code]`: numbers look up the table, unhashable lists and dicts raise
      TypeError, anything else (a string, a bool, null) is simply not a key. */
  function LookupSize(code: Json): (r: Result<string, PyError>)
    ensures r.Ok? <==> code.JNumber? && code.n in ReadResolutions
    ensures r.Ok? ==> r.value in Resolutions && Resolutions[r.value] == code.n
    ensures r.Err? ==> r.error == (if code.JArray? || code.JObject? then TypeError else KeyError)
  {
    TablesAreInverse();
    match code
    case JNumber(n) => if n in ReadResolutions then Ok(ReadResolutions[n]) else Err(KeyError)
    case JArray(_) => Err(TypeError)
    case JObject(_) => Err(TypeError)
    case _ => Err(KeyError)
  }

  /** `read_resolutions[obj["Output_Size"][axis]]`: the menu entry one axis shows. */
  function ReadSize(doc: Json, axis: Axis): (r: Result<string, PyError>)
    ensures r.Ok? ==> r.value in Resolutions
  {
    TablesAreInverse();
    match GetField(doc, OutputSize)
    case Err(e) => Err(e)
    case Ok(sizes) =>
      match GetItem(sizes, axis.Index())
      case Err(e) => Err(e)
      case Ok(code) => LookupSize(code)
  }

  /** What opening the options does with the document: show both sizes, reset the file
      (only a KeyError is caught), or let any other exception escape. */
  datatype Reading = Shown(width: string, height: string) | NeedsReset | Raised(error: PyError)

  function ReadOutputSize(doc: Json): (r: Reading)
    ensures r.Shown? <==> ReadSize(doc, Width).Ok? && ReadSize(doc, Height).Ok?
    ensures r.Shown? ==> r.width in Resolutions && r.height in Resolutions
    ensures r.NeedsReset? ==> ReadSize(doc, Width) == Err(KeyError) || ReadSize(doc, Height) == Err(KeyError)
    ensures !r.Shown? ==>
      (r.NeedsReset? <==>
        (if ReadSize(doc, Width).Err? then ReadSize(doc, Width).error else ReadSize(doc, Height).error) == KeyError)
  {
    match ReadSize(doc, Width)
    case Err(e) => if e == KeyError then NeedsReset else Raised(e)
    case Ok(w) =>
      match ReadSize(doc, Height)
      case Err(e) => if e == KeyError then NeedsReset else Raised(e)
      case Ok(h) => Shown(w, h)
  }

  /** A document without `Output_Size`, such as the empty object, is reset. */
  lemma MissingSizesAreReset(doc: Json)
    requires doc.JObject? && OutputSize !in doc.fields
    ensures ReadOutputSize(doc) == NeedsReset
  {
  }

  /** The document written when the file holds unknown codes. */
  const DefaultDocument: Json := JObject(map[
    "Antialiasing" := JString("None"),
    OutputSize := JArray([JNumber(7), JNumber(11)]),
    "Match" := JString("Always"),
    "Average_Normals" := JBool(true)])

  /** The default document reads back without another reset: the re-read after a reset shows 128 x 2048. */
  lemma DefaultDocumentIsReadable()
    ensures ReadOutputSize(DefaultDocument) == Shown("128", "2048")
  {
  }

  /** On a document whose two sizes are numbers, the reset happens exactly when one of the codes
      is not a key of `read_resolutions`; otherwise both sizes are shown. */
  lemma ResetExactlyOnUnknownCode(doc: Json)
    requires HasSizeList(doc) && Sizes(doc)[0].JNumber? && Sizes(doc)[1].JNumber?
    ensures var w, h := Sizes(doc)[0].n, Sizes(doc)[1].n;
      (ReadOutputSize(doc) == NeedsReset <==> w !in ReadResolutions || h !in ReadResolutions)
      && (ReadOutputSize(doc).Shown? <==> w in ReadResolutions && h in ReadResolutions)
      && (ReadOutputSize(doc).Shown? ==> ReadOutputSize(doc) == Shown(ReadResolutions[w], ReadResolutions[h]))
  {
  }

  /** `obj['shouldBake'] = <flag>`: the optionVar holds the flag as an int, so 0 or 1 is written. */
  function SetShouldBake(doc: Json, flag: bool): (r: Result<Json, PyError>)
    ensures r.Ok? <==> doc.JObject?
    ensures r.Err? ==> r.error == TypeError
    ensures r.Ok? ==> r.value.JObject? && r.value.fields.Keys == doc.fields.Keys + {ShouldBakeKey}
    ensures r.Ok? ==> r.value.fields[ShouldBakeKey] == JNumber(if flag then 1 else 0)
    ensures r.Ok? ==> forall k :: k in doc.fields && k != ShouldBakeKey ==> r.value.fields[k] == doc.fields[k]
  {
    SetField(doc, ShouldBakeKey, JNumber(if flag then 1 else 0))
  }

  /** Reading `shouldBake.json`, which may be missing (None), then storing the flag in it. */
  function EditShouldBake(file: Option<Json>, flag: bool): Result<Json, PyError> {
    match file
    case None => Err(IOError)
    case Some(doc) => SetShouldBake(doc, flag)
  }

  /** Reading `bakingParameters.json`, which may be missing (None), then editing it. */
  function EditFile(file: Option<Json>, axis: Axis, size: string): Result<Json, PyError> {
    match file
    case None => Err(IOError)
    case Some(doc) => SetOutputSize(doc, axis, size)
  }

  /** The Painter plugin folder's two documents; None stands for a file that does not exist. */
  class PainterPluginFolder {
    var bakingParameters: Option<Json>
    var shouldBake: Option<Json>

    constructor (bakingParameters: Option<Json>, shouldBake: Option<Json>)
      ensures this.bakingParameters == bakingParameters && this.shouldBake == shouldBake
    {
      this.bakingParameters := bakingParameters;
      this.shouldBake := shouldBake;
    }

    /** `updateYResolution`: rewrite `Output_Size[1]`; on an exception the file is left as it was. */
    method UpdateYResolution(size: string) returns (status: Outcome<PyError>)
      modifies this`bakingParameters
      ensures var u := EditFile(old(bakingParameters), Height, size);
        (status == if u.Ok? then Pass else Fail(u.error))
        && bakingParameters == (if u.Ok? then Some(u.value) else old(bakingParameters))
    {
      var file := bakingParameters;
      if file.None? {
        return Fail(IOError);
      }
      var edited := SetOutputSize(file.value, Height, size);
      if edited.Err? {
        return Fail(edited.error);
      }
      bakingParameters := Some(edited.value);
      status := Pass;
    }

    /** `updateXResolution`: rewrite `Output_Size[0]`, then, with "same width/height" on,
        run the Y handler on the file just written. */
    method UpdateXResolution(size: string, sameWidthHeight: bool) returns (status: Outcome<PyError>)
      modifies this`bakingParameters
      ensures var ux := EditFile(old(bakingParameters), Width, size);
        if ux.Err? then status == Fail(ux.error) && bakingParameters == old(bakingParameters)
        else if !sameWidthHeight then status == Pass && bakingParameters == Some(ux.value)
        else
          var uy := SetOutputSize(ux.value, Height, size);
          (status == if uy.Ok? then Pass else Fail(uy.error))
          && bakingParameters == Some(if uy.Ok? then uy.value else ux.value)
    {
      var file := bakingParameters;
      if file.None? {
        return Fail(IOError);
      }
      var edited := SetOutputSize(file.value, Width, size);
      if edited.Err? {
        return Fail(edited.error);
      }
      bakingParameters := Some(edited.value);
      status := Pass;
      if sameWidthHeight {
        status := UpdateYResolution(size);
      }
    }

    /** `updateOptionsFromJSON`: show the sizes the file holds; when a lookup raises KeyError, write
        the default document and read again. The default is readable, so that second read is the last. */
    method UpdateOptionsFromJSON() returns (shown: Result<(string, string), PyError>)
      modifies this`bakingParameters
      decreases if bakingParameters.Some? && ReadOutputSize(bakingParameters.value).NeedsReset? then 1 else 0
      ensures old(bakingParameters).None? ==> shown == Err(IOError) && bakingParameters == old(bakingParameters)
      ensures old(bakingParameters).Some? ==>
        match ReadOutputSize(old(bakingParameters).value)
        case Shown(w, h) => shown == Ok((w, h)) && bakingParameters == old(bakingParameters)
        case NeedsReset => shown == Ok(("128", "2048")) && bakingParameters == Some(DefaultDocument)
        case Raised(e) => shown == Err(e) && bakingParameters == old(bakingParameters)
    {
      var file := bakingParameters;
      if file.None? {
        return Err(IOError);
      }
      match ReadOutputSize(file.value)
      case Shown(w, h) =>
        shown := Ok((w, h));
      case Raised(e) =>
        shown := Err(e);
      case NeedsReset =>
        bakingParameters := Some(DefaultDocument);
        DefaultDocumentIsReadable();
        shown := UpdateOptionsFromJSON();
    }

    /** `updateAutoBakeJSON`: store the auto-bake flag in `shouldBake.json`. A missing file raises. */
    method UpdateAutoBakeJSON(flag: bool) returns (status: Outcome<PyError>)
      modifies this`shouldBake
      ensures var u := EditShouldBake(old(shouldBake), flag);
        (status == if u.Ok? then Pass else Fail(u.error))
        && shouldBake == (if u.Ok? then Some(u.value) else old(shouldBake))
    {
      var file := shouldBake;
      if file.None? {
        return Fail(IOError);
      }
      var edited := SetShouldBake(file.value, flag);
      if edited.Err? {
        return Fail(edited.error);
      }
      shouldBake := Some(edited.value);
      status := Pass;
    }
  }
}
