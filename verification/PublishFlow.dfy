// A publish from end to end: the files the command-line tool pushes (cmd/cli/publish.go), and what the
// server makes of the image it then reads (internal/service/service.go, Publish).
module PublishFlow {
  import opened Wrappers
  import opened Tables
  import opened Registry
  import opened Publishing
  import opened Text
  import Oci
  import Refs

  datatype Manifest = Manifest(name: string, version: string, description: string, author: string, runtime: string)

  function ManifestData(m: Manifest): map<string, string> {
    map["name" := m.name, "version" := m.version, "description" := m.description,
        "author" := m.author, "runtime" := m.runtime]
  }

  // The file list of buildAndPushArtifact.
  function Collected(raw: string, artifacts: seq<Oci.File>, readme: Option<string>): seq<Oci.File> {
    [Oci.File(Oci.MANIFEST, raw)] + artifacts + if readme.Some? then [Oci.File(Oci.README, readme.value)] else []
  }

  method CollectFiles(raw: string, artifacts: seq<Oci.File>, readme: Option<string>) returns (ociFiles: seq<Oci.File>)
    ensures ociFiles == Collected(raw, artifacts, readme)
    ensures ociFiles ==
      [Oci.File("plugin.yaml", raw)] + artifacts + if readme.Some? then [Oci.File("README.md", readme.value)] else []
  {
    ociFiles := [Oci.File(Oci.MANIFEST, raw)];
    for i := 0 to |artifacts|
      invariant ociFiles == [Oci.File(Oci.MANIFEST, raw)] + artifacts[..i]
    {
      ociFiles := ociFiles + [artifacts[i]];
    }
    if readme.Some? { ociFiles := ociFiles + [Oci.File(Oci.README, readme.value)]; }
  }

  // What the server takes from the image for this request, if it accepts it: the manifest and the readme.
  // parse stands for ParseManifest.
  ghost function Accepted(parse: string -> Option<Manifest>, req: Request,
                          img: Result<seq<Oci.Layer>>): Option<(Manifest, string)> {
    if img.Err? || Oci.MANIFEST !in Oci.Overlay(img.value) then None
    else
      var files := Oci.Overlay(img.value);
      var m := parse(files[Oci.MANIFEST]);
      if m.Some? && m.value.version == req.version && BaseName(m.value.name) == req.name
      then Some((m.value, Oci.ReadmeOf(files))) else None
  }

  // The manifest among the files parses to one with the request's version and name; the release stored under
  // the request's key has the request's digest, the readme among the files, or none, and the five fields of
  // the manifest; and the plugin has the manifest's description.
  ghost predicate Stored(db: Db, req: Request, files: map<string, string>, parse: string -> Option<Manifest>) {
    var key, target := Key(req.ns, req.name, req.version), PluginKey(req.ns, req.name);
    && "plugin.yaml" in files && parse(files["plugin.yaml"]).Some? && key in Releases(db) && target in Descriptions(db)
    && var m, release := parse(files["plugin.yaml"]).value, Releases(db)[key];
       && m.version == req.version && BaseName(m.name) == req.name
       && release.digest == req.digest
       && release.readme == (if "README.md" in files then files["README.md"] else "")
       && release.manifest == map["name" := m.name, "version" := m.version, "description" := m.description,
                                  "author" := m.author, "runtime" := m.runtime]
       && Descriptions(db)[target] == m.description
  }

  class Publisher {
    const service: PluginService
    const parse: string -> Option<Manifest>

    constructor (service: PluginService, parse: string -> Option<Manifest>)
      ensures this.service == service && this.parse == parse
    {
      this.service, this.parse := service, parse;
    }

    // A publish succeeds exactly when the image is accepted, the fields are valid and no call it needs
    // fails; otherwise the tables stay as they are.
    method Publish(req: Request, img: Result<seq<Oci.Layer>>, faults: set<Call>) returns (r: Result<PublishResult>)
      requires service.store.Valid()
      modifies service.store
      ensures service.store.Valid()
      ensures r.Ok? <==>
        && Accepted(parse, req, img).Some?
        && var (m, readme) := Accepted(parse, req, img).value;
           var p := ToPublication(service.registryURL, req, ManifestData(m), readme);
           p.Admissible() && Path(old(service.store.db), p) !! faults
      ensures r.Err? ==> service.store.db == old(service.store.db)
      ensures r.Ok? ==>
        var (m, readme) := Accepted(parse, req, img).value;
        Publishes(old(service.store.db), old(service.store.seqs), service.store.db, service.store.seqs,
                  ToPublication(service.registryURL, req, ManifestData(m), readme), r.value)
      // What the lookup then reads under the request's key is what the image holds.
      ensures r.Ok? ==> img.Ok? && Stored(service.store.db, req, Oci.Overlay(img.value), parse)
      ensures forall host | r.Ok? && (service.registryURL == "http://" + host
                                      || (service.registryURL == "https://" + host && !("http://" <= host))) ::
        Releases(service.store.db)[Key(req.ns, req.name, req.version)].imageRef ==
        host + "/" + Refs.Print(Refs.Ref(req.ns, req.name, req.version))
    {
      hide Consistent, Published, Publishes, Path, ToPublication, Oci.Overlay, BaseName, Releases, Descriptions;
      var raw := Oci.FetchOCILayers(img);
      if raw.Err? { return Err(raw.error); }
      var (rawManifest, rawReadme) := raw.value;
      var m := parse(rawManifest);
      if m.None? { return Err(Invalid); }
      if m.value.version != req.version { return Err(Invalid); }
      var manifestName := Oci.CutBaseName(m.value.name);
      if manifestName != req.name { return Err(Invalid); }
      r := service.UpsertRecords(req, ManifestData(m.value), rawReadme, faults);
    }
  }

  // The request the tool sends for a manifest.
  function ToolRequest(m: Manifest, digest: string): Request {
    Request(Refs.PluginNameFromRef(m.name).0, Refs.PluginNameFromRef(m.name).1, m.version, digest)
  }

  // For a manifest named namespace/name, or name alone, the tool asks for that namespace and name.
  lemma ToolRequestIff(m: Manifest, digest: string, ns: string, name: string)
    ensures m.name == ns + "/" + name ==>
      (ToolRequest(m, digest) == Request(ns, name, m.version, digest) <==> '/' !in ns)
    ensures m.name == name ==>
      (ToolRequest(m, digest) == Request("default", name, m.version, digest) <==> '/' !in name)
  {
    hide Refs.PluginNameFromRef;
    Refs.PluginNameIff(ns, name);
  }

  // The reference the tool pushes to.
  function ToolRef(registryURL: string, m: Manifest): string {
    var (ns, name) := Refs.PluginNameFromRef(m.name);
    TrimEnd(StripScheme(registryURL), '/') + "/" + ns + "/" + name + ":" + m.version
  }

  // The server stores the reference the tool pushed to if and only if the registry's URL, which the tool
  // takes from the server, does not end in a slash: only the tool cuts that off.
  lemma PushedIsStoredIff(registryURL: string, m: Manifest, digest: string, manifest: map<string, string>,
                          readme: string)
    ensures var stored := ToPublication(registryURL, ToolRequest(m, digest), manifest, readme).release.imageRef;
      var host := StripScheme(registryURL);
      stored == ToolRef(registryURL, m) <==> host == "" || host[|host| - 1] != '/'
  {
    hide StripScheme, TrimEnd, Refs.PluginNameFromRef;
    var host := StripScheme(registryURL);
    var (ns, name) := Refs.PluginNameFromRef(m.name);
    var rest := "/" + ns + "/" + name + ":" + m.version;
    assert ToolRef(registryURL, m) == TrimEnd(host, '/') + rest;
    assert ToPublication(registryURL, ToolRequest(m, digest), manifest, readme).release.imageRef == host + rest;
  }

  // buildAndPushArtifact: what the registry holds under the reference afterwards. An image that is
  // already there is kept as it is, and nothing is built or pushed.
  method BuildAndPush(existing: Option<seq<Oci.Layer>>, raw: string, built: Result<seq<Oci.File>>,
                      readme: Option<string>, failing: Option<nat>)
    returns (r: Result<seq<Oci.Layer>>)
    ensures existing.Some? ==> r == Ok(existing.value)
    ensures existing.None? && built.Err? ==> r == Err(built.error)
    ensures existing.None? && built.Ok? ==>
      var files := Collected(raw, built.value, readme);
      && (r.Ok? <==> !(failing.Some? && failing.value <= |files|))
      && (r.Ok? ==> r.value == Oci.Pushed(files))
  {
    if existing.Some? { return Ok(existing.value); }
    if built.Err? { return Err(built.error); }
    var ociFiles := CollectFiles(raw, built.value, readme);
    r := Oci.PushArtifact(ociFiles, failing);
  }

  // ----- What the server reads out of the tool's image -----

  // The content of the last file with this base name, or a given one if there is none.
  function LastOf(files: seq<Oci.File>, name: string, otherwise: string): string {
    if files == [] then otherwise
    else if BaseName(files[|files| - 1].name) == name then files[|files| - 1].content
    else LastOf(files[..|files| - 1], name, otherwise)
  }

  function Read(m: map<string, string>, name: string, otherwise: string): string {
    if name in m then m[name] else otherwise
  }

  lemma {:induction false} ReadAfter(a: seq<Oci.File>, files: seq<Oci.File>, name: string, otherwise: string)
    ensures Read(Oci.Unpack(a + files), name, otherwise) == LastOf(files, name, Read(Oci.Unpack(a), name, otherwise))
    ensures name in Oci.Unpack(a) ==> name in Oci.Unpack(a + files)
    decreases |files|
  {
    hide BaseName;
    if files == [] {
      assert a + files == a;
    } else {
      assert (a + files)[..|a + files| - 1] == a + files[..|files| - 1];
      ReadAfter(a, files[..|files| - 1], name, otherwise);
    }
  }

  lemma FixedNames()
    ensures BaseName(Oci.MANIFEST) == Oci.MANIFEST && BaseName(Oci.README) == Oci.README && Oci.MANIFEST != Oci.README
  {
    hide BaseName;
    assert |Oci.MANIFEST| == 11 && |Oci.README| == 9;
    BaseNameCut("", Oci.MANIFEST);
    BaseNameCut("", Oci.README);
  }

  lemma FirstUnpacked(raw: string)
    ensures Oci.Unpack([Oci.File(Oci.MANIFEST, raw)]) == map[Oci.MANIFEST := raw]
  {
    hide BaseName;
    FixedNames();
    assert [Oci.File(Oci.MANIFEST, raw)][..0] == [];
  }

  // The manifest the server reads is the tool's own unless an artifact carries another one, and the
  // readme is the tool's if it pushed one, else the last artifact's of that name, else empty. Every other
  // base name holds its last artifact.
  lemma ImageReadBack(raw: string, artifacts: seq<Oci.File>, readme: Option<string>)
    ensures var files := Oci.Overlay(Oci.Pushed(Collected(raw, artifacts, readme)));
      && Oci.MANIFEST in files && files[Oci.MANIFEST] == LastOf(artifacts, Oci.MANIFEST, raw)
      && Oci.ReadmeOf(files) == (if readme.Some? then readme.value else LastOf(artifacts, Oci.README, ""))
      && forall name, otherwise | name != Oci.MANIFEST && name != Oci.README ::
           Read(files, name, otherwise) == LastOf(artifacts, name, otherwise)
  {
    hide Oci.Overlay, Oci.Unpack, Oci.LastWins, BaseName;
    var first := [Oci.File(Oci.MANIFEST, raw)];
    var tail := if readme.Some? then [Oci.File(Oci.README, readme.value)] else [];
    Oci.OverlayLastWins(Oci.Pushed(first + artifacts + tail));
    Oci.FlattenPushed(first + artifacts + tail);
    FirstUnpacked(raw);
    FixedNames();
    ReadAfter(first, artifacts, Oci.MANIFEST, raw);
    ReadAfter(first + artifacts, tail, Oci.MANIFEST, raw);
    ReadAfter(first, artifacts, Oci.README, "");
    ReadAfter(first + artifacts, tail, Oci.README, "");
    if readme.Some? { assert tail[|tail| - 1] == Oci.File(Oci.README, readme.value) && tail[..|tail| - 1] == []; }
    var files := Oci.Overlay(Oci.Pushed(Collected(raw, artifacts, readme)));
    forall name, otherwise | name != Oci.MANIFEST && name != Oci.README
      ensures Read(files, name, otherwise) == LastOf(artifacts, name, otherwise)
    {
      ReadAfter(first, artifacts, name, otherwise);
      ReadAfter(first + artifacts, tail, name, otherwise);
    }
  }

  ghost predicate LastNamed(files: seq<Oci.File>, i: int, name: string) {
    0 <= i < |files| && BaseName(files[i].name) == name && Oci.LastOfName(files, i)
  }

  lemma {:induction false} LastOfIs(files: seq<Oci.File>, name: string, otherwise: string)
    ensures forall i | LastNamed(files, i, name) :: LastOf(files, name, otherwise) == files[i].content
    ensures (forall i :: !LastNamed(files, i, name)) ==> LastOf(files, name, otherwise) == otherwise
    decreases |files|
  {
    hide BaseName;
    if files != [] {
      var before, f := files[..|files| - 1], files[|files| - 1];
      if BaseName(f.name) == name {
        assert LastNamed(files, |files| - 1, name);
      } else {
        LastOfIs(before, name, otherwise);
        forall i ensures LastNamed(files, i, name) <==> LastNamed(before, i, name) { LastNamedBefore(files, i, name); }
      }
    }
  }

  lemma LastNamedBefore(files: seq<Oci.File>, i: int, name: string)
    requires files != [] && BaseName(files[|files| - 1].name) != name
    ensures LastNamed(files, i, name) <==> LastNamed(files[..|files| - 1], i, name)
  {
    hide BaseName;
    var before := files[..|files| - 1];
    assert forall j | 0 <= j < |before| :: files[j] == before[j];
  }

  // The server reads the tool's own manifest exactly when no build artifact carries another one: the
  // last artifact of that base name, if there is any, has the same content.
  lemma ManifestReadBackIff(raw: string, artifacts: seq<Oci.File>, readme: Option<string>)
    ensures var files := Oci.Overlay(Oci.Pushed(Collected(raw, artifacts, readme)));
      && Oci.MANIFEST in files
      && (files[Oci.MANIFEST] == raw <==>
            forall i | LastNamed(artifacts, i, Oci.MANIFEST) :: artifacts[i].content == raw)
  {
    hide Oci.Overlay, Collected, LastNamed, LastOf;
    ImageReadBack(raw, artifacts, readme);
    LastOfIs(artifacts, Oci.MANIFEST, raw);
  }

  // A publish by the tool that pushes its image passes the server's checks exactly when the manifest the
  // server reads parses, has the tool's version, and ends its name in the name the tool sends. If it is
  // the tool's own, this means exactly that its name has at most one slash.
  lemma ToolPublishAcceptedIff(parse: string -> Option<Manifest>, raw: string, artifacts: seq<Oci.File>,
                               readme: Option<string>, m: Manifest, digest: string)
    requires parse(raw) == Some(m)
    ensures var a := Accepted(parse, ToolRequest(m, digest), Ok(Oci.Pushed(Collected(raw, artifacts, readme))));
      var read := parse(LastOf(artifacts, Oci.MANIFEST, raw));
      && (a.Some? <==>
            && read.Some? && read.value.version == m.version
            && BaseName(read.value.name) == Refs.PluginNameFromRef(m.name).1)
      && (a.Some? ==> a.value.0 == read.value)
      && (a.Some? ==> a.value.1 == if readme.Some? then readme.value else LastOf(artifacts, Oci.README, ""))
      && (read == Some(m) ==>
            (a.Some? <==> forall i, j | 0 <= i < j < |m.name| :: !(m.name[i] == '/' && m.name[j] == '/')))
    ensures (forall i | LastNamed(artifacts, i, Oci.MANIFEST) :: artifacts[i].content == raw) ==>
      parse(LastOf(artifacts, Oci.MANIFEST, raw)) == Some(m)
  {
    hide Oci.Overlay, BaseName, Oci.ReadmeOf, Collected, Refs.PluginNameFromRef, LastOf, LastNamed;
    ImageReadBack(raw, artifacts, readme);
    LastOfIs(artifacts, Oci.MANIFEST, raw);
    Refs.NamesAgreeIff(m.name);
  }
}
