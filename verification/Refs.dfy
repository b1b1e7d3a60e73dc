// Plugin references: cmd/cli/register.go and cmd/cli/install.go read namespace/name:version, and
// pkg/manifest/template.go reads namespace/name.
module Refs {
  import opened Wrappers
  import opened Text

  datatype Ref = Ref(ns: string, name: string, version: string)

  function Print(r: Ref): string { r.ns + "/" + r.name + ":" + r.version }

  // parseRegisterRef
  function ParseRegister(ref: string): Result<Ref> {
    var colon := LastIndex(ref, ':');
    if colon < 0 then Err(Invalid)
    else
      var version, path := ref[colon + 1..], ref[..colon];
      var slash := Index(path, '/');
      if slash < 0 then Err(Invalid) else Ok(Ref(path[..slash], path[slash + 1..], version))
  }

  // parseInstallRef: nothing is refused; the version and the namespace have defaults.
  function ParseInstall(ref: string): Ref {
    var colon := LastIndex(ref, ':');
    var version := if colon >= 0 then ref[colon + 1..] else "latest";
    var path := if colon >= 0 then ref[..colon] else ref;
    var slash := Index(path, '/');
    if slash >= 0 then Ref(path[..slash], path[slash + 1..], version) else Ref("default", path, version)
  }

  // manifest.PluginNameFromRef
  function PluginNameFromRef(fullName: string): (string, string) {
    var slash := Index(fullName, '/');
    if slash >= 0 then (fullName[..slash], fullName[slash + 1..]) else ("default", fullName)
  }

  // What the register parser accepts prints back to itself, and its parts are what they should be.
  lemma AcceptedPrintsBack(ref: string)
    requires ParseRegister(ref).Ok?
    ensures var r := ParseRegister(ref).value; Print(r) == ref && '/' !in r.ns && ':' !in r.version
  {
    hide Index, LastIndex;
    var colon := LastIndex(ref, ':');
    var path := ref[..colon];
    var slash := Index(path, '/');
    assert ref == path + ":" + ref[colon + 1..];
    assert path == path[..slash] + "/" + path[slash + 1..];
  }

  // Printing and reading a reference gives it back exactly when its namespace holds no slash and its
  // version no colon. Both parsers then agree on it.
  lemma RegisterRoundTripIff(r: Ref)
    ensures ParseRegister(Print(r)) == Ok(r) <==> '/' !in r.ns && ':' !in r.version
  {
    hide Index, LastIndex;
    if '/' !in r.ns && ':' !in r.version {
      var path := r.ns + "/" + r.name;
      LastIndexOfLast(path, ':', r.version);
      IndexOfFirst(r.ns, '/', r.name);
      assert Print(r)[..|path|] == path && Print(r)[|path| + 1..] == r.version;
      assert path[..|r.ns|] == r.ns && path[|r.ns| + 1..] == r.name;
    }
    if ParseRegister(Print(r)) == Ok(r) { AcceptedPrintsBack(Print(r)); }
  }

  // The install parser reads every reference the register parser accepts as the same triple.
  lemma InstallAgrees(ref: string)
    requires ParseRegister(ref).Ok?
    ensures ParseInstall(ref) == ParseRegister(ref).value
  {
  }

  lemma InstallRoundTripIff(r: Ref)
    ensures ParseInstall(Print(r)) == r <==> '/' !in r.ns && ':' !in r.version
  {
    hide Index, LastIndex;
    if '/' !in r.ns && ':' !in r.version {
      RegisterRoundTripIff(r);
      InstallAgrees(Print(r));
    }
    if ParseInstall(Print(r)) == r { InstallParts(Print(r)); }
  }

  lemma InstallParts(ref: string)
    ensures '/' !in ParseInstall(ref).ns && ':' !in ParseInstall(ref).version
  {
    hide Index, LastIndex;
  }

  // A reference without version means the latest one exactly when no colon can be taken for one.
  lemma LatestIff(ns: string, name: string)
    ensures ParseInstall(ns + "/" + name) == Ref(ns, name, "latest") <==> '/' !in ns && ':' !in ns + name
  {
    hide Index, LastIndex;
    var ref := ns + "/" + name;
    if '/' !in ns && ':' !in ns + name {
      assert ':' !in ref;
      IndexOfFirst(ns, '/', name);
      assert ref[..|ns|] == ns && ref[|ns| + 1..] == name;
    }
    if ParseInstall(ref) == Ref(ns, name, "latest") {
      InstallParts(ref);
      if LastIndex(ref, ':') >= 0 { CutIsShorter(ref); }
    }
  }

  // Without a slash the namespace is the default one; the name and the version are read as meant exactly
  // when no slash and no colon of theirs can be taken for a separator.
  lemma DefaultNamespaceIff(name: string, version: string)
    ensures ParseInstall(name + ":" + version) == Ref("default", name, version) <==> '/' !in name && ':' !in version
    ensures ParseInstall(name) == Ref("default", name, "latest") <==> '/' !in name && ':' !in name
  {
    hide ParseInstall;
    var ref := name + ":" + version;
    InstallParts(ref);
    if ':' !in version {
      LastIndexOfLast(name, ':', version);
      PathRead(ref, name, version);
    }
    if ':' in name { CutIsShorter(name); } else { PathRead(name, name, "latest"); }
  }

  // What is left of a reference without its version is the name, unless it has a slash.
  lemma PathRead(ref: string, path: string, version: string)
    requires if ':' in ref then ref[..LastIndex(ref, ':')] == path && ref[LastIndex(ref, ':') + 1..] == version
             else ref == path && version == "latest"
    ensures ParseInstall(ref) == Ref("default", path, version) <==> '/' !in path
  {
    hide Index, LastIndex;
    if '/' in path { assert |ParseInstall(ref).name| < |path|; }
  }

  // A version cut off by a colon leaves less than the whole for the namespace and the name.
  lemma CutIsShorter(ref: string)
    requires LastIndex(ref, ':') >= 0
    ensures var r := ParseInstall(ref); '/' in ref[..LastIndex(ref, ':')] ==> |r.ns| + 1 + |r.name| < |ref|
    ensures var r := ParseInstall(ref); '/' !in ref[..LastIndex(ref, ':')] ==> r.ns == "default" && |r.name| < |ref|
  {
    hide Index, LastIndex;
  }

  // The tool's namespace and name are those of the manifest's name, or it has no slash and the default namespace.
  lemma PluginNameIff(ns: string, name: string)
    ensures PluginNameFromRef(ns + "/" + name) == (ns, name) <==> '/' !in ns
    ensures PluginNameFromRef(name) == ("default", name) <==> '/' !in name
  {
    hide Index;
    var fullName := ns + "/" + name;
    if '/' !in ns {
      IndexOfFirst(ns, '/', name);
      assert fullName[..|ns|] == ns && fullName[|ns| + 1..] == name;
    } else {
      assert '/' !in PluginNameFromRef(fullName).0;
    }
  }

  // The tool cuts the manifest's name at the first slash, the server at the last one. The name the tool
  // sends passes the server's check exactly when the manifest's name has at most one slash.
  lemma NamesAgreeIff(fullName: string)
    ensures PluginNameFromRef(fullName).1 == BaseName(fullName) <==>
      forall i, j | 0 <= i < j < |fullName| :: !(fullName[i] == '/' && fullName[j] == '/')
  {
    hide Index, LastIndex;
    var first, last := Index(fullName, '/'), LastIndex(fullName, '/');
    if first >= 0 {
      assert forall j | 0 <= j < first :: fullName[j] in fullName[..first];
      assert forall j | last < j < |fullName| :: fullName[j] in fullName[last + 1..];
      assert |PluginNameFromRef(fullName).1| == |fullName| - first - 1 && |BaseName(fullName)| == |fullName| - last - 1;
    }
  }

  // With two slashes they part.
  lemma NamesPart()
    ensures PluginNameFromRef("a/b/c") == ("a", "b/c") && BaseName("a/b/c") == "c"
  {
    hide Index, LastIndex;
    assert "a/b/c" == "a" + ['/'] + "b/c" && "a/b/c" == "a/b" + ['/'] + "c";
    IndexOfFirst("a", '/', "b/c");
    LastIndexOfLast("a/b", '/', "c");
    assert "a/b/c"[..1] == "a" && "a/b/c"[2..] == "b/c" && "a/b/c"[4..] == "c";
  }
}
