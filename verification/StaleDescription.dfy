// A run that ends with the wrong description: two owners' publishes of one version, each made of a
// manifest as the server makes them, both let through by the gate.
module StaleDescription {
  import opened Wrappers
  import opened Tables
  import opened Registry
  import opened Server
  import opened Runs
  import Publishing
  import PublishFlow

  const URL := "https://r"
  const REQUEST := Publishing.Request("n", "p", "v", "sha256:1")

  // The manifest of plugin n/p with this description.
  function Described(text: string): PublishFlow.Manifest { PublishFlow.Manifest("n/p", "v", text, "", "grpc") }

  function Wants(text: string): Publication {
    Publishing.ToPublication(URL, REQUEST, PublishFlow.ManifestData(Described(text)), "")
  }

  lemma WantsFields(text: string)
    ensures var p := Wants(text);
      && p == Publishing.ToPublication(URL, REQUEST, PublishFlow.ManifestData(Described(text)), "")
      && p.key == Key("n", "p", "v") && p.description == text && p.release.digest == "sha256:1"
  {
  }

  // One user with the namespace and the plugin, described by text, and one version published with last.
  function Small(text: string, last: string): Db {
    Db(map[1 := Namespace("n", "user", Some(1))],
       map[1 := Plugin(1, "p", "", text, "")],
       map[1 := Version(1, "v", Wants(last).release)],
       map[1 := User("n@x", "h")],
       map[])
  }

  const SEQS := Sequences(1, 1, 1, 1, 0)

  lemma SmallIsConsistent(text: string, last: string)
    ensures Consistent(Small(text, last)) && Bounded(Small(text, last), SEQS)
  {
    hide Wants, KeysUnique;
    WantsFields(last);
    SmallKeys(text, last);
    var db := Small(text, last);
    assert HasVersion(db, 1) by { assert db.versions[1].pluginId == 1; }
  }

  lemma SmallKeys(text: string, last: string)
    ensures KeysUnique(Small(text, last))
  {
    hide Wants;
  }

  lemma SmallIsOwned(text: string, last: string)
    ensures Owned(Small(text, last))
  {
    hide Wants;
    assert "n@x"[0] == 'n' && "n@x"[1] == '@' && "n@x"[..1] == "n";
  }

  lemma Lookups(db: Db)
    requires db.namespaces.Keys == {1} && db.namespaces[1].name == "n"
    requires db.plugins.Keys == {1} && IndexedPlugin(db.plugins[1]) == (1, "p")
    requires db.versions.Keys == {1} && IndexedVersion(db.versions[1]) == (1, "v")
    ensures NamespaceByName(db, "n") == Ok(1) && PluginByKey(db, 1, "p") == Ok(1) && VersionByKey(db, 1, "v") == Ok(1)
  {
    OnlyFinds(NamespaceKeys(db.namespaces), 1);
    OnlyFinds(PluginKeys(db.plugins), 1);
    OnlyFinds(VersionKeys(db.versions), 1);
  }

  // The first publish asks for the description that is there, and reads it; the second one changes it
  // and commits; then the first one commits.
  const FIRST := [Begin(0, Wants("a"), Some(1)), Exec(0), Exec(0)]
  const SECOND_READS := [Begin(1, Wants("b"), Some(1)), Exec(1), Exec(1)]
  const SECOND_WRITES := [Exec(1), Exec(1), Exec(1)]
  const SECOND_COMMITS := [Exec(1)]
  const LAST := [Exec(0), Exec(0), Exec(0)]

  lemma One(s: State, a: seq<Event>, e: Event)
    ensures Run(s, a + [e]) == Next(Run(s, a), e)
  {
    hide Next;
    assert (a + [e])[..|a|] == a;
  }

  lemma Three(s: State, a: seq<Event>, x: Event, y: Event, z: Event)
    ensures Run(s, a + [x, y, z]) == Next(Next(Next(Run(s, a), x), y), z)
  {
    hide Next, Run;
    One(s, a, x);
    One(s, a + [x], y);
    One(s, a + [x] + [y], z);
    assert a + [x, y, z] == a + [x] + [y] + [z];
  }

  function Reader(phase: Phase, delta: Delta): Tx { Tx(Wants("a"), Some(1), phase, delta, 0) }

  function Writer(phase: Phase, delta: Delta): Tx { Tx(Wants("b"), Some(1), phase, delta, 0) }

  const WAITING := Reader(GetVersion(1, 1), NOTHING)
  const PLUGIN_WRITE := Write(1, Plugin(1, "p", "", "b", ""))

  function VersionWrite(text: string): Write<Version> { Write(1, Version(1, "v", Wants(text).release)) }

  const WRITTEN := Delta(None, Some(PLUGIN_WRITE), Some(VersionWrite("b")))

  const RESULT := PublishResult(1, 1, false)
  const FIRST_ENTRY := Entry(1, Wants("b"), Some(1), RESULT, true, 0)
  const LAST_ENTRY := Entry(0, Wants("a"), Some(1), RESULT, false, 0)

  lemma FirstReads(s: State)
    requires s == Start(Small("a", "a"), SEQS)
    ensures Next(Next(Next(s, FIRST[0]), FIRST[1]), FIRST[2]) == s.(txs := map[0 := WAITING])
  {
    hide Only, NamespaceByName, PluginByKey, VersionByKey, Wants;
    WantsFields("a");
    Lookups(s.db);
    assert View(s.db, NOTHING) == s.db;
    var s1 := Next(s, FIRST[0]);
    var s2 := Next(s1, FIRST[1]);
    assert s2.txs == map[0 := Reader(GetPlugin(1), NOTHING)];
  }

  lemma SecondReads(s: State)
    requires s == State(Small("a", "a"), SEQS, map[0 := WAITING], [])
    ensures Next(Next(Next(s, SECOND_READS[0]), SECOND_READS[1]), SECOND_READS[2]) ==
      s.(txs := map[0 := WAITING, 1 := Writer(ChangePlugin(1, 1), NOTHING)])
  {
    hide Only, NamespaceByName, PluginByKey, VersionByKey, Wants;
    WantsFields("b");
    Lookups(s.db);
    assert View(s.db, NOTHING) == s.db;
    var s1 := Next(s, SECOND_READS[0]);
    var s2 := Next(s1, SECOND_READS[1]);
    assert s2.txs == map[0 := WAITING, 1 := Writer(GetPlugin(1), NOTHING)];
  }

  lemma SecondWrites(s: State)
    requires s == State(Small("a", "a"), SEQS, map[0 := WAITING, 1 := Writer(ChangePlugin(1, 1), NOTHING)], [])
    ensures Next(Next(Next(s, SECOND_WRITES[0]), SECOND_WRITES[1]), SECOND_WRITES[2]) ==
      s.(txs := map[0 := WAITING, 1 := Writer(Ready(1, 1, 1, false), WRITTEN)])
  {
    hide Only, NamespaceByName, PluginByKey, VersionByKey, Wants;
    WantsFields("b");
    assert View(s.db, NOTHING) == s.db;
    var s1 := Next(s, SECOND_WRITES[0]);
    var d := Delta(None, Some(PLUGIN_WRITE), None);
    assert s1.txs == map[0 := WAITING, 1 := Writer(GetVersion(1, 1), d)];
    assert View(s.db, d) == Small("b", "a");
    Lookups(Small("b", "a"));
    var s2 := Next(s1, SECOND_WRITES[1]);
    assert s2.txs == map[0 := WAITING, 1 := Writer(ChangeVersion(1, 1, 1), d)];
  }

  lemma SecondCommits(s: State)
    requires s == State(Small("a", "a"), SEQS, map[0 := WAITING, 1 := Writer(Ready(1, 1, 1, false), WRITTEN)], [])
    ensures Next(s, SECOND_COMMITS[0]) ==
      State(Small("b", "b"), SEQS, map[0 := WAITING, 1 := Writer(Committed, NOTHING)], [FIRST_ENTRY])
  {
    hide Wants;
  }

  lemma FirstWrites(s: State)
    requires s.db == Small("b", "b") && s.seqs == SEQS && s.txs == map[0 := WAITING, 1 := Writer(Committed, NOTHING)]
    ensures var d := Delta(None, None, Some(VersionWrite("a")));
      Next(Next(s, LAST[0]), LAST[1]) == s.(txs := s.txs[0 := Reader(Ready(1, 1, 1, false), d)])
  {
    hide Only, NamespaceByName, PluginByKey, VersionByKey, Wants;
    WantsFields("a");
    Lookups(s.db);
    assert View(s.db, NOTHING) == s.db;
    var s1 := Next(s, LAST[0]);
    assert s1.txs[0] == Reader(ChangeVersion(1, 1, 1), NOTHING);
  }

  lemma FirstFinishes(s: State)
    requires s.db == Small("b", "b") && s.seqs == SEQS && s.txs == map[0 := WAITING, 1 := Writer(Committed, NOTHING)]
    ensures var s' := Next(Next(Next(s, LAST[0]), LAST[1]), LAST[2]);
      s'.db == Small("b", "a") && s'.log == s.log + [LAST_ENTRY]
  {
    hide Next, Wants;
    FirstWrites(s);
    CommitStep(Next(Next(s, LAST[0]), LAST[1]), LAST[2]);
  }

  const RACE := FIRST + SECOND_READS + SECOND_WRITES + SECOND_COMMITS + LAST

  // From a consistent database with an owned namespace, by publishes of its owner alone: the last commit
  // asked for "a" and its release says so, but the plugin is described by "b".
  lemma DescriptionCanBeStale()
    ensures var db := Small("a", "a");
      && Consistent(db) && Bounded(db, SEQS) && Owned(db)
      && forall i | 0 <= i < |RACE| && RACE[i].Begin? :: RACE[i].caller == Some(1)
    ensures var s := Run(Start(Small("a", "a"), SEQS), RACE); var k := Wants("a").Target();
      && s.log == [FIRST_ENTRY, LAST_ENTRY] && s.db == Small("b", "a")
      && LAST_ENTRY.p == Publishing.ToPublication(URL, REQUEST, PublishFlow.ManifestData(Described("a")), "")
      && LAST_ENTRY.p.description == "a"
      && k in Descriptions(s.db) && Descriptions(s.db)[k] == "b"
  {
    hide Next, Run, Descriptions, Small, Consistent, Bounded, Owned, Wants;
    var s := Start(Small("a", "a"), SEQS);
    SmallIsConsistent("a", "a");
    SmallIsOwned("a", "a");
    WantsFields("a");
    Unstarted(s);
    assert [] + FIRST == FIRST;
    Three(s, [], FIRST[0], FIRST[1], FIRST[2]);
    FirstReads(s);
    Three(s, FIRST, SECOND_READS[0], SECOND_READS[1], SECOND_READS[2]);
    SecondReads(Run(s, FIRST));
    var two := FIRST + SECOND_READS;
    Three(s, two, SECOND_WRITES[0], SECOND_WRITES[1], SECOND_WRITES[2]);
    SecondWrites(Run(s, two));
    var three := two + SECOND_WRITES;
    One(s, three, SECOND_COMMITS[0]);
    SecondCommits(Run(s, three));
    var four := three + SECOND_COMMITS;
    Three(s, four, LAST[0], LAST[1], LAST[2]);
    FirstFinishes(Run(s, four));
    SmallDescription("b", "a");
  }

  lemma Unstarted(s: State)
    ensures Run(s, []) == s
  {
  }

  lemma SmallDescription(text: string, last: string)
    ensures PluginKey("n", "p") in Descriptions(Small(text, last))
    ensures Descriptions(Small(text, last))[PluginKey("n", "p")] == text
  {
    hide Descriptions, Wants;
    SmallIsConsistent(text, last);
    PluginRow(Small(text, last), 1);
  }
}
