// What interleaving does to plugin descriptions. Releases are serializable in commit order; the
// description is not, because a publish that finds its own description in place writes none.
module Races {
  import opened Wrappers
  import opened Tables
  import opened Registry
  import opened Server
  import opened Runs

  // The descriptions a log leaves: only the publishes that wrote the plugin row count.
  function Rewrites(m: map<PluginKey, string>, log: seq<Entry>): map<PluginKey, string>
    decreases |log|
  {
    if log == [] then m
    else
      var before, e := Rewrites(m, log[..|log| - 1]), log[|log| - 1];
      if e.wrote then before[e.p.Target() := e.p.description] else before
  }

  // The text the last of these publishes wrote for a plugin, if any wrote one.
  function LastWritten(log: seq<Entry>, k: PluginKey): Option<string>
    decreases |log|
  {
    if log == [] then None
    else if log[|log| - 1].wrote && log[|log| - 1].p.Target() == k then Some(log[|log| - 1].p.description)
    else LastWritten(log[..|log| - 1], k)
  }

  ghost predicate Has(m: map<PluginKey, string>, p: Publication) { p.Target() in m && m[p.Target()] == p.description }

  lemma {:induction false} RewritesFrom(m: map<PluginKey, string>, a: seq<Entry>, b: seq<Entry>, p: Publication)
    ensures Has(Rewrites(m, a + b), p) <==>
      match LastWritten(b, p.Target()) case Some(text) => text == p.description case None => Has(Rewrites(m, a), p)
    decreases |b|
  {
    if b == [] {
      assert a + b == a;
    } else {
      assert (a + b)[..|a + b| - 1] == a + b[..|b| - 1];
      RewritesFrom(m, a, b[..|b| - 1], p);
    }
  }

  // ----- What a publish that wrote no description once read -----

  // Past its look at the plugin, without having written it.
  ghost predicate ReadOnly(tx: Tx) {
    && tx.delta.plugin.None?
    && (tx.phase.GetVersion? || tx.phase.CreateVersion? || tx.phase.ChangeVersion? || tx.phase.Ready?)
  }

  // When it looked, its description was the committed one.
  ghost predicate ReadRight(m: map<PluginKey, string>, log: seq<Entry>, seen: nat, p: Publication) {
    seen <= |log| && Has(Rewrites(m, log[..seen]), p)
  }

  ghost predicate ReadsRight(m: map<PluginKey, string>, s: State) {
    && Descriptions(s.db) == Rewrites(m, s.log)
    && (forall t | t in s.txs && ReadOnly(s.txs[t]) :: ReadRight(m, s.log, s.txs[t].seen, s.txs[t].p))
    && (forall i | 0 <= i < |s.log| && !s.log[i].wrote :: ReadRight(m, s.log[..i], s.log[i].seen, s.log[i].p))
  }

  // The read that finds the description in place sees the committed row.
  lemma ReadIsCommitted(s: State, t: nat, n: int, id: int)
    requires Inv(s) && t in s.txs && s.txs[t].phase == GetPlugin(n)
    requires var v := View(s.db, s.txs[t].delta);
      PluginByKey(v, n, s.txs[t].p.key.plugin) == Ok(id) && v.plugins[id].description == s.txs[t].p.description
    ensures Has(Descriptions(s.db), s.txs[t].p)
  {
    hide KeysUnique, Named, Released, Bounded, PluginByKey, Apart, Fits, Descriptions, VersionWriteOk;
    assert TxOk(s.db, s.seqs, s.txs[t]);
    assert PluginLinked(s.db, id) && PluginKeyOf(s.db, id) == s.txs[t].p.Target();
    PluginRow(s.db, id);
  }

  lemma ReadStep(s: State, t: nat)
    requires t in s.txs && !s.txs[t].phase.Ready?
    requires t in ExecNext(s, t).txs && ReadOnly(ExecNext(s, t).txs[t])
    ensures var tx, tx' := s.txs[t], ExecNext(s, t).txs[t]; tx'.p == tx.p
    ensures var tx, tx' := s.txs[t], ExecNext(s, t).txs[t]; var v := View(s.db, tx.delta);
      || (ReadOnly(tx) && tx'.seen == tx.seen)
      || (tx.phase.GetPlugin? && tx'.seen == |s.log| && PluginByKey(v, tx.phase.ns, tx.p.key.plugin).Ok?
          && v.plugins[PluginByKey(v, tx.phase.ns, tx.p.key.plugin).value].description == tx.p.description)
  {
    hide Only, NamespaceByName, PluginByKey, VersionByKey, NsBusy, PluginBusy, VersionBusy;
    hide InsertNamespace, InsertPlugin, InsertVersion, UpdatePlugin, UpdateVersion, View;
  }

  lemma ReadsStep(m: map<PluginKey, string>, s: State, e: Event, t: nat)
    requires Inv(s) && ReadsRight(m, s) && !IsCommit(s, e) && t in Next(s, e).txs && ReadOnly(Next(s, e).txs[t])
    ensures ReadRight(m, s.log, Next(s, e).txs[t].seen, Next(s, e).txs[t].p)
  {
    hide Inv, Descriptions, Rewrites, MayPublish, ExecNext, PluginByKey, View;
    assert s.log[..|s.log|] == s.log;
    if e.Exec? && e.t in s.txs {
      if e.t == t {
        ReadStep(s, t);
        if !ReadOnly(s.txs[t]) {
          var n := s.txs[t].phase.ns;
          ReadIsCommitted(s, t, n, PluginByKey(View(s.db, s.txs[t].delta), n, s.txs[t].p.key.plugin).value);
        }
      } else {
        OthersStay(s, e.t, t);
      }
    }
  }

  lemma ReadStays(m: map<PluginKey, string>, log: seq<Entry>, e: Entry, seen: nat, p: Publication)
    requires ReadRight(m, log, seen, p)
    ensures ReadRight(m, log + [e], seen, p)
  {
    hide Rewrites;
    assert (log + [e])[..seen] == log[..seen];
  }

  lemma ReadsCommit(m: map<PluginKey, string>, s: State, t: nat)
    requires Inv(s) && ReadsRight(m, s) && t in s.txs && s.txs[t].phase.Ready?
    ensures ReadsRight(m, ExecCommit(s, t))
  {
    hide Inv, Descriptions, Releases, Owners, View, VersionLinked, KeyOf, Has, ReadRight;
    CommitIsOneUpdate(s, t);
    var s', tx := ExecCommit(s, t), s.txs[t];
    var entry := s'.log[|s.log|];
    assert s'.log == s.log + [entry] && s'.log[..|s.log|] == s.log;
    forall u | u in s'.txs && ReadOnly(s'.txs[u]) ensures ReadRight(m, s'.log, s'.txs[u].seen, s'.txs[u].p) {
      ReadStays(m, s.log, entry, s.txs[u].seen, s.txs[u].p);
    }
    forall i | 0 <= i < |s'.log| && !s'.log[i].wrote ensures ReadRight(m, s'.log[..i], s'.log[i].seen, s'.log[i].p) {
      assert i < |s.log| ==> s'.log[..i] == s.log[..i];
    }
  }

  lemma ReadsNext(m: map<PluginKey, string>, s: State, e: Event)
    requires Inv(s) && ReadsRight(m, s)
    ensures ReadsRight(m, Next(s, e))
  {
    hide Inv, Descriptions, Rewrites, Next, ReadRight, ReadOnly, Extends, Sound;
    if IsCommit(s, e) {
      CommitStep(s, e);
      ReadsCommit(m, s, e.t);
    } else {
      InvNext(s, e);
      Quiet(s, e);
      InvSound(s);
      InvSound(Next(s, e));
      PluginsKept(s.db, Next(s, e).db);
      forall t | t in Next(s, e).txs && ReadOnly(Next(s, e).txs[t])
        ensures ReadRight(m, Next(s, e).log, Next(s, e).txs[t].seen, Next(s, e).txs[t].p)
      {
        ReadsStep(m, s, e, t);
      }
    }
  }

  lemma ReadsStart(db: Db, seqs: Sequences)
    ensures ReadsRight(Descriptions(db), Start(db, seqs))
  {
    hide Descriptions;
  }

  lemma {:induction false} RunReads(db: Db, seqs: Sequences, es: seq<Event>)
    requires Consistent(db) && Bounded(db, seqs)
    ensures ReadsRight(Descriptions(db), Run(Start(db, seqs), es))
    decreases |es|
  {
    hide Inv, Consistent, Bounded, Next, ReadsRight, Descriptions, History;
    if es == [] {
      ReadsStart(db, seqs);
    } else {
      RunReads(db, seqs, es[..|es| - 1]);
      RunKeeps(db, seqs, es[..|es| - 1]);
      ReadsNext(Descriptions(db), Run(Start(db, seqs), es[..|es| - 1]), es[|es| - 1]);
    }
  }

  // ----- Main results -----

  // The descriptions of every reachable database are the initial ones with exactly the writing
  // publishes applied in commit order.
  lemma DescriptionsFollowWrites(db: Db, seqs: Sequences, es: seq<Event>)
    requires Consistent(db) && Bounded(db, seqs)
    ensures var s := Run(Start(db, seqs), es); Descriptions(s.db) == Rewrites(Descriptions(db), s.log)
  {
    hide Consistent, Bounded, Run, Descriptions, Rewrites;
    RunReads(db, seqs, es);
  }

  // Nobody wrote the plugin's description between publish i's look at it and its commit, or whoever
  // did so last wrote the text it asked for.
  predicate Undisturbed(log: seq<Entry>, i: nat)
    requires i < |log|
  {
    && log[i].seen <= i
    && match LastWritten(log[log[i].seen..i], log[i].p.Target())
       case Some(text) => text == log[i].p.description
       case None => true
  }

  lemma RightStep(m: map<PluginKey, string>, log: seq<Entry>, e: Entry)
    ensures Has(Rewrites(m, log + [e]), e.p) <==> e.wrote || Has(Rewrites(m, log), e.p)
  {
    assert (log + [e])[..|log|] == log;
  }

  lemma RightIff(m: map<PluginKey, string>, s: State, i: nat)
    requires ReadsRight(m, s) && i < |s.log|
    ensures Has(Rewrites(m, s.log[..i + 1]), s.log[i].p) <==> s.log[i].wrote || Undisturbed(s.log, i)
  {
    hide Descriptions, Rewrites, Has, LastWritten;
    var before, e := s.log[..i], s.log[i];
    assert s.log[..i + 1] == before + [e];
    RightStep(m, before, e);
    if !e.wrote {
      assert ReadRight(m, before, e.seen, e.p);
      assert before == before[..e.seen] + s.log[e.seen..i];
      RewritesFrom(m, before[..e.seen], s.log[e.seen..i], e.p);
    }
  }

  // The schedules that go wrong: when publish i commits, its plugin has the description it asked for
  // exactly if it wrote the row itself or was left undisturbed.
  lemma DescriptionRightIff(db: Db, seqs: Sequences, es: seq<Event>, i: nat)
    requires Consistent(db) && Bounded(db, seqs) && i < |Run(Start(db, seqs), es).log|
    ensures var log := Run(Start(db, seqs), es).log;
      Has(Rewrites(Descriptions(db), log[..i + 1]), log[i].p) <==> log[i].wrote || Undisturbed(log, i)
  {
    hide Consistent, Bounded, Run, Descriptions, Rewrites, Undisturbed;
    RunReads(db, seqs, es);
    RightIff(Descriptions(db), Run(Start(db, seqs), es), i);
  }

  // The same, read off the table itself right after the commit.
  lemma CommittedRightIff(db: Db, seqs: Sequences, es: seq<Event>, e: Event)
    requires Consistent(db) && Bounded(db, seqs) && IsCommit(Run(Start(db, seqs), es), e)
    ensures var s := Next(Run(Start(db, seqs), es), e);
      && s.log != [] && s.log[|s.log| - 1].t == e.t
      && (Has(Descriptions(s.db), s.log[|s.log| - 1].p) <==>
            s.log[|s.log| - 1].wrote || Undisturbed(s.log, |s.log| - 1))
  {
    hide Consistent, Bounded, Descriptions, Rewrites, Undisturbed, Has, Inv, History, Run, Next;
    RunReads(db, seqs, es);
    RunKeeps(db, seqs, es);
    ReadsNext(Descriptions(db), Run(Start(db, seqs), es), e);
    CommitStep(Run(Start(db, seqs), es), e);
    var s := Next(Run(Start(db, seqs), es), e);
    RightIff(Descriptions(db), s, |s.log| - 1);
    assert s.log[..|s.log|] == s.log;
  }
}
