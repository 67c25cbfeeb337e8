/** applyConfig: the rename pass, the instance name, the five stages and the
    removal of repeated messages, with what one run does to the store. */
module Apply {
  import opened Prelude
  import opened SlugGrammar
  import opened Tables
  import opened Store
  import opened Config
  import opened Reconciler
  import opened Rename
  import opened References

  // ---- no step breaks a constraint ----

  lemma MovingKeeps<F>(t: Table<F>, src: string, dst: string)
    requires Wf(t)
    ensures Wf(Moving(t, src, dst)) && Moving(t, src, dst).Keys == t.Keys
    ensures forall i :: i in t ==> Moving(t, src, dst)[i].f == t[i].f
  {
    var t' := Moving(t, src, dst);
    forall i, j | i in t' && j in t' && t'[i].slug == t'[j].slug ensures i == j {
      assert t[i].slug in Slugs(t) && t[j].slug in Slugs(t);
    }
  }

  lemma MoveInKeeps(lib: Lib, db: Store, at: Section, src: string, dst: string)
    requires Consistent(lib, db)
    ensures Consistent(lib, MoveIn(db, at, src, dst))
  {
    match at
    case Services => MovingKeeps(db.services, src, dst);
    case Monitors => MovingKeeps(db.monitors, src, dst);
    case Channels => MovingKeeps(db.channels, src, dst);
    case Groups => MovingKeeps(db.groups, src, dst);
  }

  lemma EntryKeeps(lib: Lib, db: Store, k: string, dst: string)
    requires Consistent(lib, db)
    ensures Consistent(lib, EntryStore(db, k, dst))
  {
    if Source(k).Some? {
      MoveInKeeps(lib, db, Source(k).value.0, Source(k).value.1, dst);
    }
  }

  lemma {:induction false} FoldKeeps(lib: Lib, cfg: Config, db: Store, order: seq<string>)
    requires Consistent(lib, db) && Elems(order) <= cfg.rename.Keys
    ensures Consistent(lib, Fold(lib, cfg, db, order).0)
  {
    if order != [] {
      var k, rest := order[|order| - 1], order[..|order| - 1];
      assert order == rest + [k];
      ElemsAppend(rest, [k]);
      FoldKeeps(lib, cfg, db, rest);
      FoldStep(lib, cfg, db, rest, k);
      EntryKeeps(lib, Fold(lib, cfg, db, rest).0, k, cfg.rename[k]);
    }
  }

  lemma ServicesKeep(lib: Lib, cfg: Config, db0: Store, db: Store)
    requires Consistent(lib, db0) && ServicesStep(lib, cfg, db0, db)
    ensures Consistent(lib, db)
  {
  }

  lemma MonitorsKeep(lib: Lib, cfg: Config, db0: Store, db: Store)
    requires Consistent(lib, db0) && MonitorsStep(lib, cfg, db0, db)
    ensures Consistent(lib, db)
  {
  }

  lemma ChannelsKeep(lib: Lib, cfg: Config, db0: Store, db: Store)
    requires Consistent(lib, db0) && ChannelsStep(lib, cfg, db0, db)
    ensures Consistent(lib, db)
  {
    var kept := Keep(db0.channels, cfg.channels.Keys);
    KeepWf(db0.channels, cfg.channels.Keys);
    TargetKinds(lib, cfg, kept);
    forall i | i in db.channels ensures KnownKind(db.channels[i].f.kind) {
      if i in kept {
        assert db.channels[i] == Edited(kept[i], ChannelTargets(lib, cfg, kept), ChannelTargets(lib, cfg, kept).Keys);
      }
    }
  }

  lemma TargetKinds(lib: Lib, cfg: Config, t: Table<Channel>)
    requires Wf(t) && forall i :: i in t ==> KnownKind(t[i].f.kind)
    ensures forall s :: s in ChannelTargets(lib, cfg, t) ==> KnownKind(ChannelTargets(lib, cfg, t)[s].kind)
  {
  }

  lemma GroupsKeep(lib: Lib, cfg: Config, db0: Store, db: Store)
    requires Consistent(lib, db0) && GroupsStep(lib, cfg, db0, db)
    ensures Consistent(lib, db)
  {
    MembersKeep(lib, cfg, CutGroups(db0, Keep(db0.groups, cfg.groups.Keys)).members, db.groups, cfg.groups.Keys);
  }

  lemma MembersKeep(lib: Lib, cfg: Config, m0: set<(Id, string)>, t: Table<Group>, done: set<string>)
    requires forall p, q :: p in m0 && q in m0 && p.0 == q.0 && lib.nocase(p.1) == lib.nocase(q.1) ==> p == q
    ensures MembersOk(lib, t, MembersFor(lib, cfg, m0, t, done))
  {
  }

  lemma CutMonitorsKeeps(lib: Lib, db: Store, keys: set<string>)
    requires Consistent(lib, db)
    ensures Consistent(lib, CutMonitors(db, Keep(db.monitors, keys)))
  {
  }

  lemma LinksForKeeps<F>(links: set<(Id, Id)>, monitors: Table<Monitor>, t: Table<F>,
                         names: map<string, seq<string>>, done: set<string>)
    requires forall p :: p in links ==> p.0 in monitors && p.1 in t
    ensures forall p :: p in LinksFor(links, monitors, t, names, done) ==> p.0 in monitors && p.1 in t
  {
  }

  lemma RefsKeep(lib: Lib, cfg: Config, db0: Store)
    requires Consistent(lib, db0)
    ensures Consistent(lib, RefsOutcome(lib, cfg, db0))
  {
    var cut := CutMonitors(db0, Keep(db0.monitors, cfg.monitors.Keys));
    var c, g := Slugs(db0.channels), Slugs(db0.groups);
    CutMonitorsKeeps(lib, db0, cfg.monitors.Keys);
    LinksForKeeps(cut.channelLinks, cut.monitors, db0.channels, ChannelNames(lib, cfg, c, g), cfg.monitors.Keys);
    LinksForKeeps(cut.groupLinks, cut.monitors, db0.groups, GroupNames(lib, cfg, c, g), cfg.monitors.Keys);
  }

  // ---- the effect of one run ----

  /** The rename pass of a file without renames. */
  lemma NothingToRename(lib: Lib, cfg: Config, db: Store, order: seq<string>)
    requires cfg.rename == map[] && IsOrder(order, cfg.rename.Keys)
    ensures Fold(lib, cfg, db, order) == (db, {})
  {
  }

  function KeptLinks(links: set<(Id, Id)>, from: set<Id>, to: set<Id>): set<(Id, Id)> {
    set p | p in links && p.0 in from && p.1 in to
  }

  /** `db` is what the stages make of `db0`, the store after the rename pass.
      Rows are kept by declared slug and edited in place; whatever referred to a
      dropped row went with it; a created row starts with nothing. */
  ghost predicate Applied(lib: Lib, cfg: Config, db0: Store, db: Store)
    requires Wf(db0.channels)
  {
    var services, monitors := Keep(db0.services, cfg.services.Keys), Keep(db0.monitors, cfg.monitors.Keys);
    var channels, groups := Keep(db0.channels, cfg.channels.Keys), Keep(db0.groups, cfg.groups.Keys);
    var c, g := Slugs(db.channels), Slugs(db.groups);
    KeepWf(db0.channels, cfg.channels.Keys);
    && Settled(services, db.services, ServiceTargets(lib, cfg))
    && Settled(monitors, db.monitors, MonitorTargets(lib, cfg))
    && Settled(channels, db.channels, ChannelTargets(lib, cfg, channels))
    && Settled(groups, db.groups, GroupTargets(lib, cfg))
    && db.alertServices == RowsInto(db0.alertServices, services.Keys)
    && db.monitorLogs == RowsInto(db0.monitorLogs, monitors.Keys)
    && db.members == MembersFor(lib, cfg, LinksFrom(db0.members, groups.Keys), db.groups, cfg.groups.Keys)
    && db.channelLinks == LinksFor(KeptLinks(db0.channelLinks, monitors.Keys, channels.Keys), db.monitors, db.channels,
                                   ChannelNames(lib, cfg, c, g), cfg.monitors.Keys)
    && db.groupLinks == LinksFor(KeptLinks(db0.groupLinks, monitors.Keys, groups.Keys), db.monitors, db.groups,
                                 GroupNames(lib, cfg, c, g), cfg.monitors.Keys)
    && db.name == (if cfg.name != "" then cfg.name else db0.name)
    && db.settings == cfg.alerts.settings
    && db.smtpChannel == SmtpFor(cfg, db.channels)
  }

  /** Dropping monitors last gives the same monitors, logs and links as dropping
      them first. */
  lemma DropLate(lib: Lib, cfg: Config, m0: Table<Monitor>, m1: Table<Monitor>)
    requires Wf(m0) && Settled(m0, m1, MonitorTargets(lib, cfg))
    ensures var k0, k1 := Keep(m0, cfg.monitors.Keys), Keep(m1, cfg.monitors.Keys);
            Settled(k0, k1, MonitorTargets(lib, cfg)) && forall i :: i in m0 ==> (i in k0 <==> i in k1)
  {
    KeepAfterSettling(m0, m1, MonitorTargets(lib, cfg), cfg.monitors.Keys);
  }

  lemma LogsAgree(logs: map<Id, Id>, m0: set<Id>, k0: set<Id>, k1: set<Id>)
    requires (forall r :: r in logs ==> logs[r] in m0) && forall i :: i in m0 ==> (i in k0 <==> i in k1)
    ensures RowsInto(logs, k1) == RowsInto(logs, k0)
  {
  }

  lemma LinksAgree(links: set<(Id, Id)>, m0: set<Id>, k0: set<Id>, k1: set<Id>, to: set<Id>)
    requires (forall p :: p in links ==> p.0 in m0) && forall i :: i in m0 ==> (i in k0 <==> i in k1)
    ensures LinksFrom(LinksTo(links, to), k1) == KeptLinks(links, k0, to)
  {
  }

  /** The stores between the five stages. */
  ghost predicate Stages(lib: Lib, cfg: Config, db0: Store, s: Store, m: Store, c: Store, g: Store) {
    && Consistent(lib, m) && Consistent(lib, g)
    && ServicesStep(lib, cfg, db0, s) && MonitorsStep(lib, cfg, s, m)
    && ChannelsStep(lib, cfg, m, c) && GroupsStep(lib, cfg, c, g)
  }

  lemma StagesCompose(lib: Lib, cfg: Config, db0: Store, s: Store, m: Store, c: Store, g: Store)
    requires Consistent(lib, db0) && Stages(lib, cfg, db0, s, m, c, g)
    requires db0.name == cfg.name || cfg.name == ""
    ensures Applied(lib, cfg, db0, RefsOutcome(lib, cfg, g))
  {
    var k0, k1 := Keep(db0.monitors, cfg.monitors.Keys), Keep(m.monitors, cfg.monitors.Keys);
    DropLate(lib, cfg, db0.monitors, m.monitors);
    LogsAgree(db0.monitorLogs, db0.monitors.Keys, k0.Keys, k1.Keys);
    LinksAgree(db0.channelLinks, db0.monitors.Keys, k0.Keys, k1.Keys, Keep(db0.channels, cfg.channels.Keys).Keys);
    LinksAgree(db0.groupLinks, db0.monitors.Keys, k0.Keys, k1.Keys, Keep(db0.groups, cfg.groups.Keys).Keys);
  }

  // ---- messages ----

  /** Each message once, where it was first reported. */
  function FirstReports(msgs: seq<Msg>): (r: seq<Msg>)
    ensures Elems(r) == Elems(msgs) && Distinct(r)
  {
    if msgs == [] then []
    else
      var last, before := msgs[|msgs| - 1], msgs[..|msgs| - 1];
      var r := FirstReports(before);
      assert msgs == before + [last];
      ElemsAppend(before, [last]);
      ElemsAppend(r, [last]);
      assert last in Elems(r) <==> last in r;
      if last in before then r else r + [last]
  }

  /** Of two messages the one that was reported first comes first. */
  lemma {:induction false} FirstReportsOrder(msgs: seq<Msg>, i: nat, j: nat) returns (k: nat)
    requires i < j < |FirstReports(msgs)|
    ensures k < |msgs| && msgs[k] == FirstReports(msgs)[i] && FirstReports(msgs)[j] !in msgs[..k + 1]
  {
    var n := |msgs| - 1;
    var before, r := FirstReports(msgs[..n]), FirstReports(msgs);
    SplitLast(msgs);
    if j < |before| {
      k := FirstReportsOrder(msgs[..n], i, j);
      assert msgs[..n][..k + 1] == msgs[..k + 1];
    } else {
      assert r[i] == before[i] && before[i] in Elems(before);
      assert r[i] in Elems(msgs[..n]);
      k :| 0 <= k < n && msgs[..n][k] == r[i];
      assert forall x :: x in msgs[..k + 1] ==> x in msgs[..n];
    }
  }

  method Dedupe(msgs: seq<Msg>) returns (final: seq<Msg>)
    ensures final == FirstReports(msgs)
    ensures Distinct(final) && forall m :: m in final <==> m in msgs
  {
    final := [];
    var unique: set<Msg> := {};
    for n := 0 to |msgs|
      invariant final == FirstReports(msgs[..n]) && unique == Elems(msgs[..n])
    {
      assert msgs[..n + 1][..n] == msgs[..n] && msgs[..n + 1] == msgs[..n] + [msgs[n]];
      ElemsAppend(msgs[..n], [msgs[n]]);
      if msgs[n] !in unique {
        unique := unique + {msgs[n]};
        final := final + [msgs[n]];
      }
    }
    assert msgs[..|msgs|] == msgs;
    forall m ensures m in final <==> m in msgs {
      assert m in Elems(final) <==> m in Elems(msgs);
    }
  }

  /** Everything one run reports: `order` is the order in which it visited the
      rename map, `db` the store it left. */
  function RunMsgs(lib: Lib, cfg: Config, order: seq<string>, db0: Store, db: Store): set<Msg>
    requires Elems(order) <= cfg.rename.Keys
  {
    Fold(lib, cfg, db0, order).1
    + Need(cfg.name != "", NameRequired)
    + StageMsgs(lib, cfg, Slugs(db.channels), Slugs(db.groups))
  }

  /** One run of applyConfig from `db0`. */
  ghost predicate RunVia(lib: Lib, cfg: Config, order: seq<string>, db0: Store, db: Store, msgs: set<Msg>)
    requires Consistent(lib, db0)
  {
    && IsOrder(order, cfg.rename.Keys)
    && Consistent(lib, db)
    && (FoldKeeps(lib, cfg, db0, order); Applied(lib, cfg, Fold(lib, cfg, db0, order).0, db))
    && msgs == RunMsgs(lib, cfg, order, db0, db)
  }

  lemma LegalMonitorsThere(lib: Lib, cfg: Config, t: Table<Monitor>, t0: Table<Monitor>)
    requires Settled(t0, t, MonitorTargets(lib, cfg))
    ensures forall s :: s in cfg.monitors && Legal(lib, s) ==> s in Slugs(t)
  {
  }

  method FirstStages(tx: Tx, lib: Lib, cfg: Config)
    returns (msgs: seq<Msg>, err: Option<SqlError>, ghost s: Store, ghost m: Store)
    requires Consistent(lib, tx.db)
    modifies tx
    ensures err == None && m == tx.db && Consistent(lib, m)
    ensures ServicesStep(lib, cfg, old(tx.db), s) && MonitorsStep(lib, cfg, s, m)
    ensures Elems(msgs) ==
              Gather(ServicesMsgs(lib, cfg), cfg.services.Keys) + Gather(MonitorsMsgs(lib, cfg), cfg.monitors.Keys)
  {
    ghost var db0 := tx.db;
    msgs, err := ApplyServices(tx, lib, cfg, []);
    s := tx.db;
    ServicesKeep(lib, cfg, db0, s);
    if err == None {
      msgs, err := ApplyMonitors(tx, lib, cfg, msgs);
      MonitorsKeep(lib, cfg, s, tx.db);
    }
    m := tx.db;
  }

  method LastStages(tx: Tx, lib: Lib, cfg: Config, msgs0: seq<Msg>)
    returns (msgs: seq<Msg>, err: Option<SqlError>, ghost c: Store, ghost g: Store)
    requires Consistent(lib, tx.db)
    modifies tx
    ensures err == None && g == tx.db && Consistent(lib, g)
    ensures ChannelsStep(lib, cfg, old(tx.db), c) && GroupsStep(lib, cfg, c, g)
    ensures Elems(msgs) == Elems(msgs0) + Gather(ChannelsMsgs(lib, cfg), cfg.channels.Keys)
                           + Gather(GroupsMsgs(lib, cfg), cfg.groups.Keys)
  {
    ghost var m := tx.db;
    msgs, err := ApplyNotificationChannels(tx, lib, cfg, msgs0);
    c := tx.db;
    ChannelsKeep(lib, cfg, m, c);
    if err == None {
      msgs, err := ApplyMailGroups(tx, lib, cfg, msgs);
      GroupsKeep(lib, cfg, c, tx.db);
    }
    g := tx.db;
  }

  method RunStages(tx: Tx, lib: Lib, cfg: Config)
    returns (msgs: seq<Msg>, err: Option<SqlError>, ghost s: Store, ghost m: Store, ghost c: Store, ghost g: Store)
    requires Consistent(lib, tx.db)
    modifies tx
    ensures err == None && tx.db == RefsOutcome(lib, cfg, g) && Stages(lib, cfg, old(tx.db), s, m, c, g)
    ensures Elems(msgs) == StageMsgs(lib, cfg, Slugs(g.channels), Slugs(g.groups))
  {
    msgs, err, s, m := FirstStages(tx, lib, cfg);
    if err == None {
      msgs, err, c, g := LastStages(tx, lib, cfg, msgs);
      LegalMonitorsThere(lib, cfg, g.monitors, s.monitors);
      if err == None {
        msgs, err := ApplyReferences(tx, lib, cfg, msgs);
      }
    }
  }

  method ApplyStages(tx: Tx, lib: Lib, cfg: Config, msgs0: seq<Msg>) returns (msgs: seq<Msg>, err: Option<SqlError>)
    requires Consistent(lib, tx.db) && (tx.db.name == cfg.name || cfg.name == "")
    modifies tx
    ensures err == None && Consistent(lib, tx.db) && Applied(lib, cfg, old(tx.db), tx.db)
    ensures Elems(msgs) == Elems(msgs0) + StageMsgs(lib, cfg, Slugs(tx.db.channels), Slugs(tx.db.groups))
  {
    ghost var db0 := tx.db;
    ghost var s, m, c, g;
    var found;
    found, err, s, m, c, g := RunStages(tx, lib, cfg);
    RefsKeep(lib, cfg, g);
    StagesCompose(lib, cfg, db0, s, m, c, g);
    ElemsAppend(msgs0, found);
    msgs := msgs0 + found;
  }

  method ApplyConfig(tx: Tx, lib: Lib, cfg: Config)
    returns (msgs: seq<Msg>, err: Option<SqlError>, ghost order: seq<string>)
    requires Consistent(lib, tx.db)
    modifies tx
    ensures err == None
    ensures RunVia(lib, cfg, order, old(tx.db), tx.db, Elems(msgs))
    ensures Distinct(msgs)
  {
    ghost var db0 := tx.db;
    msgs, order := RenamePass(tx, lib, cfg);
    FoldKeeps(lib, cfg, db0, order);
    ghost var renamed := tx.db;
    if cfg.name != "" {
      tx.db := tx.db.(name := cfg.name);
    }
    msgs := Report(msgs, cfg.name != "", NameRequired);
    ghost var named := tx.db;
    msgs, err := ApplyStages(tx, lib, cfg, msgs);
    assert Applied(lib, cfg, renamed, tx.db);
    if err == None {
      msgs := Dedupe(msgs);
    }
  }
}
