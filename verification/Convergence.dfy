/** What runs of applyConfig guarantee: when they report nothing, what they
    leave behind, and what running again does. */
module Convergence {
  import opened Prelude
  import opened SlugGrammar
  import opened Tables
  import opened Store
  import opened Config
  import opened Acceptance
  import opened Reconciler
  import opened Rename
  import opened References
  import opened Apply

  // ---- the verdict ----

  lemma TargetsOfGood(lib: Lib, cfg: Config, t: Table<Channel>)
    requires Wf(t)
    ensures GoodServices(lib, cfg) ==> ServiceTargets(lib, cfg).Keys == cfg.services.Keys
    ensures GoodMonitors(lib, cfg) ==> MonitorTargets(lib, cfg).Keys == cfg.monitors.Keys
    ensures GoodChannels(lib, cfg) ==> ChannelTargets(lib, cfg, t).Keys == cfg.channels.Keys
    ensures GoodGroups(lib, cfg) ==> GroupTargets(lib, cfg).Keys == cfg.groups.Keys
  {
  }

  /** A settled table shows every target and no undeclared slug. */
  lemma SettledKeys<F>(t0: Table<F>, t: Table<F>, target: map<string, F>, keys: set<string>)
    requires Wf(t0) && Settled(Keep(t0, keys), t, target) && target.Keys <= keys
    ensures Slugs(t) <= keys && (target.Keys == keys ==> Slugs(t) == keys)
  {
  }

  lemma AppliedKeys(lib: Lib, cfg: Config, db0: Store, db: Store)
    requires Consistent(lib, db0) && Applied(lib, cfg, db0, db)
    ensures Slugs(db.services) <= cfg.services.Keys
    ensures GoodServices(lib, cfg) ==> Slugs(db.services) == cfg.services.Keys
    ensures Slugs(db.monitors) <= cfg.monitors.Keys
    ensures GoodMonitors(lib, cfg) ==> Slugs(db.monitors) == cfg.monitors.Keys
    ensures Slugs(db.channels) <= cfg.channels.Keys
    ensures GoodChannels(lib, cfg) ==> Slugs(db.channels) == cfg.channels.Keys
    ensures Slugs(db.groups) <= cfg.groups.Keys && (GoodGroups(lib, cfg) ==> Slugs(db.groups) == cfg.groups.Keys)
  {
    var channels := Keep(db0.channels, cfg.channels.Keys);
    KeepWf(db0.channels, cfg.channels.Keys);
    TargetsOfGood(lib, cfg, channels);
    SettledKeys(db0.services, db.services, ServiceTargets(lib, cfg), cfg.services.Keys);
    SettledKeys(db0.monitors, db.monitors, MonitorTargets(lib, cfg), cfg.monitors.Keys);
    SettledKeys(db0.channels, db.channels, ChannelTargets(lib, cfg, channels), cfg.channels.Keys);
    SettledKeys(db0.groups, db.groups, GroupTargets(lib, cfg), cfg.groups.Keys);
  }

  lemma StagesVerdict(lib: Lib, cfg: Config, db0: Store, db: Store)
    requires Consistent(lib, db0) && Applied(lib, cfg, db0, db)
    ensures StageMsgs(lib, cfg, Slugs(db.channels), Slugs(db.groups)) == {} <==>
            CleanStages(lib, cfg, cfg.channels.Keys, cfg.groups.Keys)
  {
    AppliedKeys(lib, cfg, db0, db);
    StagesSilent(lib, cfg, Slugs(db.channels), Slugs(db.groups));
  }

  /** A run reports nothing exactly when its rename pass does and the file is
      clean; what the instance holds matters to the rename pass alone. */
  lemma Verdict(lib: Lib, cfg: Config, order: seq<string>, db0: Store, db: Store, msgs: set<Msg>)
    requires Consistent(lib, db0) && RunVia(lib, cfg, order, db0, db, msgs)
    ensures msgs == {} <==> Fold(lib, cfg, db0, order).1 == {} && CleanConfig(lib, cfg)
  {
    FoldKeeps(lib, cfg, db0, order);
    StagesVerdict(lib, cfg, Fold(lib, cfg, db0, order).0, db);
    var renames, name := Fold(lib, cfg, db0, order).1, Need(cfg.name != "", NameRequired);
    UnionEmpty(renames, name);
    UnionEmpty(renames + name, StageMsgs(lib, cfg, Slugs(db.channels), Slugs(db.groups)));
  }

  /** With independent renames the verdict can be read off the file and the
      slugs the instance holds. */
  lemma IndependentVerdict(lib: Lib, cfg: Config, order: seq<string>, db0: Store, db: Store, msgs: set<Msg>)
    requires Consistent(lib, db0) && RunVia(lib, cfg, order, db0, db, msgs) && Independent(cfg)
    ensures msgs == {} <==> GoodRenames(lib, cfg) && RenamesFit(cfg, db0) && CleanConfig(lib, cfg)
  {
    Verdict(lib, cfg, order, db0, db, msgs);
    FoldIsClosed(lib, cfg, db0, order);
    RenamesSilent(lib, cfg, db0);
  }

  // ---- convergence ----

  /** The store as the config file sees it: slugs instead of ids. */
  datatype Picture = Picture(
    name: string,
    services: map<string, Service>, monitors: map<string, Monitor>,
    channels: map<string, Channel>, groups: map<string, Group>,
    members: set<(string, string)>, channelLinks: set<(string, string)>, groupLinks: set<(string, string)>,
    emailChannel: Option<string>, settings: AlertSettings)

  function SlugPairs<F>(links: set<(Id, Id)>, monitors: Table<Monitor>, t: Table<F>): set<(string, string)> {
    set p | p in links && p.0 in monitors && p.1 in t :: (monitors[p.0].slug, t[p.1].slug)
  }

  function SlugMembers(members: set<(Id, string)>, t: Table<Group>): set<(string, string)> {
    set p | p in members && p.0 in t :: (t[p.0].slug, p.1)
  }

  ghost function PictureOf(db: Store): Picture
    requires WfAll(db)
  {
    Picture(db.name, View(db.services), View(db.monitors), View(db.channels), View(db.groups),
            SlugMembers(db.members, db.groups),
            SlugPairs(db.channelLinks, db.monitors, db.channels), SlugPairs(db.groupLinks, db.monitors, db.groups),
            if db.smtpChannel.Some? && db.smtpChannel.value in db.channels
            then Some(db.channels[db.smtpChannel.value].slug) else None,
            db.settings)
  }

  function DeclaredPairs(names: map<string, seq<string>>): set<(string, string)> {
    set s, n | s in names && n in names[s] :: (s, n)
  }

  function DeclaredChannels(cfg: Config): map<string, Channel> {
    map s | s in cfg.channels :: ChannelOf(cfg.channels[s])
  }

  function DeclaredMembers(lib: Lib, cfg: Config): set<(string, string)> {
    set s, e | s in cfg.groups && e in FirstSpellings(lib, cfg.groups[s].members) :: (s, e)
  }

  function AllChannelNames(cfg: Config): map<string, seq<string>> {
    map s | s in cfg.monitors :: cfg.monitors[s].channels
  }

  function AllGroupNames(cfg: Config): map<string, seq<string>> {
    map s | s in cfg.monitors :: cfg.monitors[s].groups
  }

  /** What a clean file asks for. */
  function DeclaredPicture(lib: Lib, cfg: Config): Picture {
    Picture(cfg.name,
            map s | s in cfg.services :: Service(cfg.services[s].name, cfg.services[s].description),
            map s | s in cfg.monitors :: MonitorOf(lib, cfg.monitors[s]),
            DeclaredChannels(cfg),
            map s | s in cfg.groups :: Group(cfg.groups[s].name, cfg.groups[s].description),
            DeclaredMembers(lib, cfg),
            DeclaredPairs(AllChannelNames(cfg)), DeclaredPairs(AllGroupNames(cfg)),
            if cfg.alerts.emailChannel == "" then None else Some(cfg.alerts.emailChannel),
            cfg.alerts.settings)
  }

  /** Channels that the file goes on naming have the type it gives them. */
  ghost predicate KindsAgree(cfg: Config, t: Table<Channel>) {
    forall i :: i in t && t[i].slug in cfg.channels ==> t[i].f.kind == TextAt(cfg.channels[t[i].slug], "type")
  }

  lemma ServicesConverge(lib: Lib, cfg: Config, db0: Store, db: Store)
    requires Consistent(lib, db0) && Applied(lib, cfg, db0, db) && CleanConfig(lib, cfg)
    ensures WfAll(db) && PictureOf(db).services == DeclaredPicture(lib, cfg).services
  {
    KeepWf(db0.services, cfg.services.Keys);
    TargetsOfGood(lib, cfg, db0.channels);
    SettledConverges(Keep(db0.services, cfg.services.Keys), db.services, ServiceTargets(lib, cfg));
  }

  lemma MonitorsConverge(lib: Lib, cfg: Config, db0: Store, db: Store)
    requires Consistent(lib, db0) && Applied(lib, cfg, db0, db) && CleanConfig(lib, cfg)
    ensures WfAll(db) && PictureOf(db).monitors == DeclaredPicture(lib, cfg).monitors
  {
    KeepWf(db0.monitors, cfg.monitors.Keys);
    TargetsOfGood(lib, cfg, db0.channels);
    SettledConverges(Keep(db0.monitors, cfg.monitors.Keys), db.monitors, MonitorTargets(lib, cfg));
  }

  lemma GroupsConverge(lib: Lib, cfg: Config, db0: Store, db: Store)
    requires Consistent(lib, db0) && Applied(lib, cfg, db0, db) && CleanConfig(lib, cfg)
    ensures WfAll(db) && PictureOf(db).groups == DeclaredPicture(lib, cfg).groups
  {
    KeepWf(db0.groups, cfg.groups.Keys);
    TargetsOfGood(lib, cfg, db0.channels);
    SettledConverges(Keep(db0.groups, cfg.groups.Keys), db.groups, GroupTargets(lib, cfg));
  }

  lemma TargetKind(lib: Lib, cfg: Config, t: Table<Channel>, i: Id)
    requires Wf(t) && i in t && t[i].slug in ChannelTargets(lib, cfg, t)
    ensures ChannelTargets(lib, cfg, t)[t[i].slug].kind == t[i].f.kind
    ensures ChannelOf(cfg.channels[t[i].slug]).kind == TextAt(cfg.channels[t[i].slug], "type")
  {
  }

  lemma TargetsDeclared(lib: Lib, cfg: Config, t: Table<Channel>)
    requires Wf(t) && ChannelTargets(lib, cfg, t).Keys == cfg.channels.Keys
    ensures ChannelTargets(lib, cfg, t) == DeclaredChannels(cfg) <==> KindsAgree(cfg, t)
  {
    var target, declared := ChannelTargets(lib, cfg, t), DeclaredChannels(cfg);
    if KindsAgree(cfg, t) {
      forall s | s in target ensures target[s] == declared[s] {
        if s in Slugs(t) {
          TargetKind(lib, cfg, t, IdOf(t, s));
        }
      }
    } else {
      var i :| i in t && t[i].slug in cfg.channels && t[i].f.kind != TextAt(cfg.channels[t[i].slug], "type");
      TargetKind(lib, cfg, t, i);
    }
  }

  lemma KindsOfKept(cfg: Config, t: Table<Channel>)
    ensures KindsAgree(cfg, Keep(t, cfg.channels.Keys)) <==> KindsAgree(cfg, t)
  {
    var kept := Keep(t, cfg.channels.Keys);
    forall i | i in t && t[i].slug in cfg.channels ensures i in kept {}
  }

  /** Channels converge exactly when no surviving channel changes type, because
      the edit statement never writes that column. */
  lemma ChannelsConverge(lib: Lib, cfg: Config, db0: Store, db: Store)
    requires Consistent(lib, db0) && Applied(lib, cfg, db0, db) && CleanConfig(lib, cfg)
    ensures WfAll(db)
    ensures PictureOf(db).channels == DeclaredPicture(lib, cfg).channels <==> KindsAgree(cfg, db0.channels)
  {
    var kept := Keep(db0.channels, cfg.channels.Keys);
    KeepWf(db0.channels, cfg.channels.Keys);
    TargetsOfGood(lib, cfg, kept);
    SettledConverges(kept, db.channels, ChannelTargets(lib, cfg, kept));
    TargetsDeclared(lib, cfg, kept);
    KindsOfKept(cfg, db0.channels);
  }

  lemma MembersShown(lib: Lib, cfg: Config, m0: set<(Id, string)>, t: Table<Group>)
    requires Wf(t) && Slugs(t) == cfg.groups.Keys && forall s :: s in cfg.groups ==> Legal(lib, s)
    ensures SlugMembers(MembersFor(lib, cfg, m0, t, cfg.groups.Keys), t) == DeclaredMembers(lib, cfg)
  {
  }

  lemma MembersConverge(lib: Lib, cfg: Config, db0: Store, db: Store)
    requires Consistent(lib, db0) && Applied(lib, cfg, db0, db) && CleanConfig(lib, cfg)
    ensures WfAll(db) && PictureOf(db).members == DeclaredPicture(lib, cfg).members
  {
    AppliedKeys(lib, cfg, db0, db);
    MembersShown(lib, cfg, LinksFrom(db0.members, Keep(db0.groups, cfg.groups.Keys).Keys), db.groups);
  }

  lemma PairsConverge<F>(links: set<(Id, Id)>, monitors: Table<Monitor>, t: Table<F>, names: map<string, seq<string>>)
    requires Wf(monitors) && Wf(t) && Slugs(monitors) == names.Keys
    requires forall s, n :: s in names && n in names[s] ==> n in Slugs(t)
    ensures SlugPairs(LinksFor(links, monitors, t, names, names.Keys), monitors, t) == DeclaredPairs(names)
  {
    var l := LinksFor(links, monitors, t, names, names.Keys);
    var a, b := SlugPairs(l, monitors, t), DeclaredPairs(names);
    forall m | m in monitors ensures monitors[m].slug in names {
      assert monitors[m].slug in Slugs(monitors);
    }
    forall q | q in a ensures q in b {}
    forall q | q in b ensures q in a {
      var m, i := IdOf(monitors, q.0), IdOf(t, q.1);
      assert (m, i) in l;
    }
  }

  lemma AllRelink(lib: Lib, cfg: Config, c: set<string>, g: set<string>)
    requires GoodLinks(cfg, c, g) && forall s :: s in cfg.monitors ==> Legal(lib, s)
    ensures ChannelNames(lib, cfg, c, g) == AllChannelNames(cfg) && GroupNames(lib, cfg, c, g) == AllGroupNames(cfg)
  {
    forall s | s in cfg.monitors ensures Relinks(lib, cfg, s, c, g) {
      LinksClean(s, cfg.monitors[s], c, g);
    }
  }

  lemma NamesKnown(cfg: Config, c: set<string>, g: set<string>)
    requires GoodLinks(cfg, c, g)
    ensures forall s, n :: s in AllChannelNames(cfg) && n in AllChannelNames(cfg)[s] ==> n in c
    ensures forall s, n :: s in AllGroupNames(cfg) && n in AllGroupNames(cfg)[s] ==> n in g
  {
  }

  /** The link tables of a clean run, before they are seen through slugs. */
  lemma LinksOfClean(lib: Lib, cfg: Config, db0: Store, db: Store)
    requires Consistent(lib, db0) && Applied(lib, cfg, db0, db) && CleanConfig(lib, cfg)
    ensures var monitors := Keep(db0.monitors, cfg.monitors.Keys).Keys;
            && db.channelLinks ==
                 LinksFor(KeptLinks(db0.channelLinks, monitors, Keep(db0.channels, cfg.channels.Keys).Keys),
                                           db.monitors, db.channels, AllChannelNames(cfg), cfg.monitors.Keys)
            && db.groupLinks == LinksFor(KeptLinks(db0.groupLinks, monitors, Keep(db0.groups, cfg.groups.Keys).Keys),
                                         db.monitors, db.groups, AllGroupNames(cfg), cfg.monitors.Keys)
  {
    AppliedKeys(lib, cfg, db0, db);
    AllRelink(lib, cfg, cfg.channels.Keys, cfg.groups.Keys);
  }

  lemma ChannelLinksConverge(lib: Lib, cfg: Config, db0: Store, db: Store)
    requires Consistent(lib, db0) && Applied(lib, cfg, db0, db) && CleanConfig(lib, cfg)
    ensures WfAll(db) && PictureOf(db).channelLinks == DeclaredPicture(lib, cfg).channelLinks
  {
    AppliedKeys(lib, cfg, db0, db);
    LinksOfClean(lib, cfg, db0, db);
    NamesKnown(cfg, cfg.channels.Keys, cfg.groups.Keys);
    var kept := KeptLinks(db0.channelLinks, Keep(db0.monitors, cfg.monitors.Keys).Keys,
                          Keep(db0.channels, cfg.channels.Keys).Keys);
    PairsConverge(kept, db.monitors, db.channels, AllChannelNames(cfg));
  }

  lemma GroupLinksConverge(lib: Lib, cfg: Config, db0: Store, db: Store)
    requires Consistent(lib, db0) && Applied(lib, cfg, db0, db) && CleanConfig(lib, cfg)
    ensures WfAll(db) && PictureOf(db).groupLinks == DeclaredPicture(lib, cfg).groupLinks
  {
    AppliedKeys(lib, cfg, db0, db);
    LinksOfClean(lib, cfg, db0, db);
    NamesKnown(cfg, cfg.channels.Keys, cfg.groups.Keys);
    var kept := KeptLinks(db0.groupLinks, Keep(db0.monitors, cfg.monitors.Keys).Keys,
                          Keep(db0.groups, cfg.groups.Keys).Keys);
    PairsConverge(kept, db.monitors, db.groups, AllGroupNames(cfg));
  }

  lemma EmailChannelConverges(lib: Lib, cfg: Config, db0: Store, db: Store)
    requires Consistent(lib, db0) && Applied(lib, cfg, db0, db) && CleanConfig(lib, cfg)
    ensures WfAll(db) && PictureOf(db).emailChannel == DeclaredPicture(lib, cfg).emailChannel
  {
    AppliedKeys(lib, cfg, db0, db);
    assert "" in cfg.channels ==> Legal(lib, "");
  }

  /** A clean run leaves the store showing exactly what the file declares,
      whatever it held before and in whatever order the maps were visited, if and
      only if every channel that survives the rename pass keeps its type. */
  lemma Converges(lib: Lib, cfg: Config, order: seq<string>, db0: Store, db: Store)
    requires Consistent(lib, db0) && RunVia(lib, cfg, order, db0, db, {})
    ensures PictureOf(db) == DeclaredPicture(lib, cfg) <==>
            KindsAgree(cfg, Fold(lib, cfg, db0, order).0.channels)
  {
    Verdict(lib, cfg, order, db0, db, {});
    FoldKeeps(lib, cfg, db0, order);
    var renamed := Fold(lib, cfg, db0, order).0;
    ServicesConverge(lib, cfg, renamed, db);
    MonitorsConverge(lib, cfg, renamed, db);
    ChannelsConverge(lib, cfg, renamed, db);
    GroupsConverge(lib, cfg, renamed, db);
    MembersConverge(lib, cfg, renamed, db);
    ChannelLinksConverge(lib, cfg, renamed, db);
    GroupLinksConverge(lib, cfg, renamed, db);
    EmailChannelConverges(lib, cfg, renamed, db);
  }

  /** Two clean runs of one file, from any two stores, show the same picture. */
  lemma SamePicture(lib: Lib, cfg: Config, orderA: seq<string>, a0: Store, a: Store,
                    orderB: seq<string>, b0: Store, b: Store)
    requires Consistent(lib, a0) && RunVia(lib, cfg, orderA, a0, a, {})
    requires KindsAgree(cfg, Fold(lib, cfg, a0, orderA).0.channels)
    requires Consistent(lib, b0) && RunVia(lib, cfg, orderB, b0, b, {})
    requires KindsAgree(cfg, Fold(lib, cfg, b0, orderB).0.channels)
    ensures PictureOf(a) == PictureOf(b)
  {
    Converges(lib, cfg, orderA, a0, a);
    Converges(lib, cfg, orderB, b0, b);
  }
}
