// pkg/oci: reading files out of the layers of an image, and building an image from files. A layer is
// a list of named entries or cannot be decoded; tar, gzip and the registry protocol are outside the model.
module Oci {
  import opened Wrappers
  import opened Text

  // A file pushed to, or an entry read from, an image.
  datatype File = File(name: string, content: string)

  datatype Layer = Undecodable | Entries(entries: seq<File>)

  // ----- What an image holds: by base name, later entries and layers over earlier ones -----

  function Unpack(entries: seq<File>): map<string, string> {
    if entries == [] then map[]
    else Unpack(entries[..|entries| - 1])[BaseName(entries[|entries| - 1].name) := entries[|entries| - 1].content]
  }

  function Overlay(layers: seq<Layer>): map<string, string> {
    if layers == [] then map[]
    else
      var below, top := Overlay(layers[..|layers| - 1]), layers[|layers| - 1];
      if top.Undecodable? then below else below + Unpack(top.entries)
  }

  function Wanted(m: map<string, string>, want: set<string>): map<string, string> {
    map n | n in m && n in want :: m[n]
  }

  // The requested files in the requested order; one that is missing spoils the whole.
  function Requested(m: map<string, string>, names: seq<string>): Result<seq<File>> {
    if forall i | 0 <= i < |names| :: names[i] in m
    then Ok(seq(|names|, i requires 0 <= i < |names| && names[i] in m => File(names[i], m[names[i]])))
    else Err(NotFound)
  }

  // A list with every entry of the map once, in any order.
  predicate Lists(files: seq<File>, m: map<string, string>) {
    && (forall f | f in files :: f.name in m && m[f.name] == f.content)
    && (forall n | n in m :: File(n, m[n]) in files)
    && (forall i, j | 0 <= i < j < |files| :: files[i].name != files[j].name)
  }

  lemma UnpackStep(entries: seq<File>, i: nat, want: set<string>)
    requires i < |entries|
    ensures var below, n, all := Unpack(entries[..i]), BaseName(entries[i].name), Unpack(entries[..i + 1]);
      && all == below[n := entries[i].content]
      && Wanted(all, want) == if n in want then Wanted(below, want)[n := entries[i].content] else Wanted(below, want)
  {
    hide BaseName;
    assert entries[..i + 1][..i] == entries[..i];
  }

  lemma OverlayStep(layers: seq<Layer>, i: nat, want: set<string>)
    requires i < |layers|
    ensures var below, top, all := Overlay(layers[..i]), layers[i], Overlay(layers[..i + 1]);
      && all == (if top.Undecodable? then below else below + Unpack(top.entries))
      && Wanted(all, want) ==
         (if top.Undecodable? then Wanted(below, want) else Wanted(below, want) + Wanted(Unpack(top.entries), want))
  {
    hide Unpack;
    assert layers[..i + 1][..i] == layers[..i];
  }

  // The base name as the readers cut it.
  method CutBaseName(name: string) returns (baseName: string)
    ensures baseName == BaseName(name)
  {
    baseName := name;
    var idx := LastIndex(baseName, '/');
    if idx >= 0 { baseName := baseName[idx + 1..]; }
  }

  method ReadAllTarGzLayer(layer: Layer) returns (r: Result<map<string, string>>)
    ensures r == if layer.Undecodable? then Err(Fault) else Ok(Unpack(layer.entries))
  {
    if layer.Undecodable? { return Err(Fault); }
    hide BaseName, Wanted;
    var result := map[];
    for i := 0 to |layer.entries|
      invariant result == Unpack(layer.entries[..i])
    {
      UnpackStep(layer.entries, i, {});
      var baseName := CutBaseName(layer.entries[i].name);
      result := result[baseName := layer.entries[i].content];
    }
    assert layer.entries[..|layer.entries|] == layer.entries;
    return Ok(result);
  }

  method ReadTarGzLayer(layer: Layer, want: set<string>) returns (r: Result<map<string, string>>)
    ensures r == if layer.Undecodable? then Err(Fault) else Ok(Wanted(Unpack(layer.entries), want))
    ensures r.Ok? ==> forall n :: n in r.value <==> n in Unpack(layer.entries) && n in want
  {
    if layer.Undecodable? { return Err(Fault); }
    var result := map[];
    assert Wanted(Unpack([]), want) == map[];
    hide BaseName, Wanted, Unpack;
    for i := 0 to |layer.entries|
      invariant result == Wanted(Unpack(layer.entries[..i]), want)
    {
      UnpackStep(layer.entries, i, want);
      var baseName := CutBaseName(layer.entries[i].name);
      if baseName in want { result := result[baseName := layer.entries[i].content]; }
    }
    assert layer.entries[..|layer.entries|] == layer.entries;
    return Ok(result);
  }

  // The last loop of ExtractLayers.
  method InOrder(found: map<string, string>, fileNames: seq<string>) returns (r: Result<seq<File>>)
    ensures r == Requested(found, fileNames)
  {
    var result := [];
    for i := 0 to |fileNames|
      invariant forall k | 0 <= k < i :: fileNames[k] in found
      invariant |result| == i && forall k | 0 <= k < i :: result[k] == File(fileNames[k], found[fileNames[k]])
    {
      if fileNames[i] !in found { return Err(NotFound); }
      result := result + [File(fileNames[i], found[fileNames[i]])];
    }
    assert Requested(found, fileNames).Ok? && Requested(found, fileNames).value == result;
    return Ok(result);
  }

  lemma WantedSuffices(m: map<string, string>, want: set<string>, names: seq<string>)
    requires forall n | n in names :: n in want
    ensures Requested(Wanted(m, want), names) == Requested(m, names)
  {
    assert forall i | 0 <= i < |names| :: names[i] in names;
    var r, s := Requested(Wanted(m, want), names), Requested(m, names);
    assert r.Ok? <==> s.Ok?;
    if r.Ok? { assert r.value == s.value; }
  }

  // Layers that cannot be decoded are passed over.
  method ExtractLayers(img: Result<seq<Layer>>, fileNames: seq<string>) returns (r: Result<seq<File>>)
    ensures r == if img.Err? then Err(img.error) else Requested(Overlay(img.value), fileNames)
  {
    hide Overlay, Unpack, Wanted, Requested;
    if img.Err? { return Err(img.error); }
    var layers := img.value;
    var want: set<string> := {};
    for i := 0 to |fileNames|
      invariant forall n | n in fileNames[..i] :: n in want
    {
      want := want + {fileNames[i]};
    }
    assert fileNames[..|fileNames|] == fileNames;
    var found := map[];
    NothingWanted(want);
    for i := 0 to |layers|
      invariant found == Wanted(Overlay(layers[..i]), want)
    {
      OverlayStep(layers, i, want);
      var contents := ReadTarGzLayer(layers[i], want);
      if contents.Err? { continue; }
      found := found + contents.value;
    }
    assert layers[..|layers|] == layers;
    WantedSuffices(Overlay(layers), want, fileNames);
    r := InOrder(found, fileNames);
  }

  lemma NothingWanted(want: set<string>)
    ensures Wanted(Overlay([]), want) == map[]
  {
  }

  method ExtractAllLayers(img: Result<seq<Layer>>) returns (r: Result<seq<File>>)
    ensures img.Err? ==> r == Err(img.error)
    ensures img.Ok? ==> r.Ok? && Lists(r.value, Overlay(img.value))
    ensures r.Ok? ==> forall i, j | 0 <= i < j < |r.value| :: r.value[i].name != r.value[j].name
  {
    if img.Err? { return Err(img.error); }
    var layers := img.value;
    var found := map[];
    for i := 0 to |layers|
      invariant found == Overlay(layers[..i])
    {
      OverlayStep(layers, i, {});
      var contents := ReadAllTarGzLayer(layers[i]);
      if contents.Err? { continue; }
      found := found + contents.value;
    }
    assert layers[..|layers|] == layers;
    var result := [];
    var todo := found.Keys;
    while todo != {}
      invariant todo <= found.Keys && Lists(result, map n | n in found && n !in todo :: found[n])
      decreases todo
    {
      var fileName :| fileName in todo;
      result, todo := result + [File(fileName, found[fileName])], todo - {fileName};
    }
    assert (map n | n in found && n !in todo :: found[n]) == found;
    return Ok(result);
  }

  // The named extraction is the projection of the full one to the requested names, and it fails
  // exactly when the full one lacks one of them.
  lemma ExtractIsProjection(layers: seq<Layer>, names: seq<string>, all: seq<File>)
    requires Lists(all, Overlay(layers))
    ensures var r := Requested(Overlay(layers), names);
      && (r.Ok? <==> forall n | n in names :: exists f :: f in all && f.name == n)
      && (r.Ok? ==> |r.value| == |names| && forall i | 0 <= i < |names| ::
            && r.value[i] in all && r.value[i].name == names[i]
            && forall f | f in all && f.name == names[i] :: f == r.value[i])
  {
    hide Overlay;
    var m := Overlay(layers);
    forall n | n in m ensures exists f :: f in all && f.name == n { assert File(n, m[n]) in all; }
    assert forall i | 0 <= i < |names| :: names[i] in names;
  }

  // ----- Pushing -----

  // failing is the position of the file whose layer cannot be built, or of the image itself.
  method PushArtifact(files: seq<File>, failing: Option<nat>) returns (r: Result<seq<Layer>>)
    ensures r.Ok? <==> files != [] && !(failing.Some? && failing.value <= |files|)
    ensures r.Ok? ==> r.value == Pushed(files)
    ensures r.Ok? ==> |r.value| == |files| && forall i | 0 <= i < |files| :: r.value[i] == Entries([files[i]])
  {
    var layers := [];
    for i := 0 to |files|
      invariant layers == Pushed(files[..i]) && !(failing.Some? && failing.value < i)
    {
      if failing == Some(i) { return Err(Fault); }
      layers := layers + [Entries([files[i]])];
    }
    if |layers| == 0 { return Err(Invalid); }
    var img := [layers[0]];
    for i := 1 to |layers|
      invariant img == layers[..i]
    {
      img := img + [layers[i]];
    }
    if failing == Some(|files|) { return Err(Fault); }
    return Ok(img);
  }

  // One layer a file.
  function Pushed(files: seq<File>): seq<Layer> { seq(|files|, i requires 0 <= i < |files| => Entries([files[i]])) }

  // All entries that can be read, lowest layer first.
  function Flatten(layers: seq<Layer>): seq<File> {
    if layers == [] then []
    else if layers[|layers| - 1].Undecodable? then Flatten(layers[..|layers| - 1])
    else Flatten(layers[..|layers| - 1]) + layers[|layers| - 1].entries
  }

  ghost predicate LastOfName(files: seq<File>, i: nat)
    requires i < |files|
  {
    forall j | i < j < |files| :: BaseName(files[j].name) != BaseName(files[i].name)
  }

  // m holds each base name with the content of its last file, and nothing else.
  ghost predicate LastWins(files: seq<File>, m: map<string, string>) {
    && (forall i | 0 <= i < |files| :: BaseName(files[i].name) in m)
    && (forall i | 0 <= i < |files| && LastOfName(files, i) :: m[BaseName(files[i].name)] == files[i].content)
    && (forall n | n in m :: exists i :: 0 <= i < |files| && BaseName(files[i].name) == n && LastOfName(files, i))
  }

  lemma LastWinsStep(before: seq<File>, f: File, m: map<string, string>)
    requires LastWins(before, m)
    ensures LastWins(before + [f], m[BaseName(f.name) := f.content])
  {
    hide BaseName;
    var files, m' := before + [f], m[BaseName(f.name) := f.content];
    forall i | 0 <= i < |files| && LastOfName(files, i) ensures m'[BaseName(files[i].name)] == files[i].content {
      if i < |before| {
        assert files[|before|] == f;
        assert LastOfName(before, i) by { assert forall j | i < j < |before| :: files[j] == before[j]; }
      }
    }
    forall n | n in m' ensures exists i :: 0 <= i < |files| && BaseName(files[i].name) == n && LastOfName(files, i) {
      if n == BaseName(f.name) {
        assert LastOfName(files, |before|);
      } else {
        var i :| 0 <= i < |before| && BaseName(before[i].name) == n && LastOfName(before, i);
        assert files[i] == before[i] && LastOfName(files, i);
      }
    }
  }

  lemma {:induction false} UnpackLastWins(files: seq<File>)
    ensures LastWins(files, Unpack(files))
    decreases |files|
  {
    hide LastWins, BaseName, Unpack, Wanted;
    if files == [] {
      NothingUnpacked();
    } else {
      var before, f := files[..|files| - 1], files[|files| - 1];
      UnpackLastWins(before);
      LastWinsStep(before, f, Unpack(before));
      assert files == before + [f] && files[..|before| + 1] == files;
      UnpackStep(files, |before|, {});
    }
  }

  lemma {:induction false} UnpackConcat(a: seq<File>, b: seq<File>)
    ensures Unpack(a + b) == Unpack(a) + Unpack(b)
    decreases |b|
  {
    hide BaseName;
    if b == [] {
      assert a + b == a;
    } else {
      assert (a + b)[..|a + b| - 1] == a + b[..|b| - 1];
      UnpackConcat(a, b[..|b| - 1]);
    }
  }

  // Layer by layer or all at once: of the readable entries of one base name the last one counts.
  lemma {:induction false} OverlayLastWins(layers: seq<Layer>)
    ensures Overlay(layers) == Unpack(Flatten(layers)) && LastWins(Flatten(layers), Overlay(layers))
    decreases |layers|
  {
    hide Unpack, LastWins;
    UnpackLastWins(Flatten(layers));
    if layers == [] {
      UnpackLastWins([]);
      NothingUnpacked();
    } else {
      OverlayLastWins(layers[..|layers| - 1]);
      if layers[|layers| - 1].Entries? { UnpackConcat(Flatten(layers[..|layers| - 1]), layers[|layers| - 1].entries); }
    }
  }

  lemma NothingUnpacked()
    ensures Unpack([]) == map[] && LastWins([], map[])
  {
  }

  lemma {:induction false} FlattenPushed(files: seq<File>)
    ensures Flatten(Pushed(files)) == files
    decreases |files|
  {
    if files != [] {
      assert Pushed(files)[..|files| - 1] == Pushed(files[..|files| - 1]);
      FlattenPushed(files[..|files| - 1]);
    }
  }

  // Extracting what was pushed gives the files by base name, the last one of each name winning.
  lemma PushedThenRead(files: seq<File>)
    ensures LastWins(files, Overlay(Pushed(files)))
  {
    OverlayLastWins(Pushed(files));
    FlattenPushed(files);
  }

  // ----- What the server reads -----

  const MANIFEST := "plugin.yaml"
  const README := "README.md"

  // fetchOCILayers: the manifest must be there; a missing readme is empty.
  method FetchOCILayers(img: Result<seq<Layer>>) returns (r: Result<(string, string)>)
    ensures r.Ok? <==> img.Ok? && "plugin.yaml" in Overlay(img.value)
    ensures r.Ok? ==> r.value == (Overlay(img.value)["plugin.yaml"], ReadmeOf(Overlay(img.value)))
  {
    hide Overlay;
    var layers := ExtractLayers(img, [MANIFEST]);
    if layers.Err? { return Err(layers.error); }
    assert [MANIFEST][0] in Overlay(img.value);
    var rawManifest: Option<string> := None;
    for i := 0 to |layers.value|
      invariant i == 1 ==> rawManifest == Some(Overlay(img.value)[MANIFEST])
    {
      if layers.value[i].name == MANIFEST { rawManifest := Some(layers.value[i].content); }
    }
    var rawReadme := "";
    var readmeLayers := ExtractLayers(img, [README]);
    if readmeLayers.Ok? {
      assert [README][0] in Overlay(img.value);
      for i := 0 to |readmeLayers.value|
        invariant rawReadme == "" && i == 0
      {
        if readmeLayers.value[i].name == README {
          rawReadme := readmeLayers.value[i].content;
          break;
        }
      }
    }
    return Ok((rawManifest.value, rawReadme));
  }

  function ReadmeOf(m: map<string, string>): string { if README in m then m[README] else "" }
}
