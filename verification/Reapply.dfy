/** Running applyConfig again, and which rows keep their ids through a run. */
module Reapply {
  import opened Prelude
  import opened Tables
  import opened Store
  import opened Config
  import opened Acceptance
  import opened Reconciler
  import opened Rename
  import opened References
  import opened Apply
  import opened Convergence

  // ---- a second run changes nothing ----

  lemma NothingToDrop<F>(t0: Table<F>, t1: Table<F>, target: map<string, F>, keys: set<string>)
    requires Wf(t0) && target.Keys <= keys && Settled(Keep(t0, keys), t1, target)
    ensures Keep(t1, keys) == t1
  {
  }

  lemma TableFixed<F>(t0: Table<F>, t1: Table<F>, t2: Table<F>, target: map<string, F>, keys: set<string>)
    requires Wf(t0) && target.Keys <= keys
    requires Settled(Keep(t0, keys), t1, target) && Settled(Keep(t1, keys), t2, target)
    ensures Keep(t1, keys) == t1 && t2 == t1
  {
    KeepWf(t0, keys);
    NothingToDrop(t0, t1, target, keys);
    SettledView(Keep(t0, keys), t1, target);
    SettledFixpoint(t1, t2, target);
  }

  /** The second run asks each channel for the type the first one left. */
  lemma SameTargets(lib: Lib, cfg: Config, kept: Table<Channel>, t1: Table<Channel>)
    requires Wf(kept) && Settled(kept, t1, ChannelTargets(lib, cfg, kept))
    ensures ChannelTargets(lib, cfg, t1) == ChannelTargets(lib, cfg, kept)
  {
    var a, b := ChannelTargets(lib, cfg, kept), ChannelTargets(lib, cfg, t1);
    SettledView(kept, t1, a);
    forall s | s in a ensures a[s] == b[s] {
      assert View(t1)[s] == a[s];
    }
  }

  lemma ChannelsFixed(lib: Lib, cfg: Config, t0: Table<Channel>, t1: Table<Channel>, t2: Table<Channel>)
    requires Wf(t0) && Wf(t1) && Wf(Keep(t0, cfg.channels.Keys)) && Wf(Keep(t1, cfg.channels.Keys))
    requires Settled(Keep(t0, cfg.channels.Keys), t1, ChannelTargets(lib, cfg, Keep(t0, cfg.channels.Keys)))
    requires Settled(Keep(t1, cfg.channels.Keys), t2, ChannelTargets(lib, cfg, Keep(t1, cfg.channels.Keys)))
    ensures Keep(t1, cfg.channels.Keys) == t1 && t2 == t1
  {
    var target := ChannelTargets(lib, cfg, Keep(t0, cfg.channels.Keys));
    NothingToDrop(t0, t1, target, cfg.channels.Keys);
    SameTargets(lib, cfg, Keep(t0, cfg.channels.Keys), t1);
    TableFixed(t0, t1, t2, target, cfg.channels.Keys);
  }

  lemma MembersFixed(lib: Lib, cfg: Config, m0: set<(Id, string)>, t: Table<Group>, done: set<string>)
    ensures var m := MembersFor(lib, cfg, m0, t, done);
            MembersFor(lib, cfg, LinksFrom(m, t.Keys), t, done) == m
  {
  }

  lemma LinksFixed<F>(links: set<(Id, Id)>, monitors: Table<Monitor>, t: Table<F>, names: map<string, seq<string>>,
                      done: set<string>)
    requires forall p :: p in LinksFor(links, monitors, t, names, done) ==> p.0 in monitors && p.1 in t
    ensures var l := LinksFor(links, monitors, t, names, done);
            LinksFor(KeptLinks(l, monitors.Keys, t.Keys), monitors, t, names, done) == l
  {
  }

  lemma TablesFixed(lib: Lib, cfg: Config, db0: Store, db1: Store, db2: Store)
    requires Consistent(lib, db0) && Consistent(lib, db1)
    requires Applied(lib, cfg, db0, db1) && Applied(lib, cfg, db1, db2)
    ensures db2.services == db1.services == Keep(db1.services, cfg.services.Keys)
    ensures db2.monitors == db1.monitors == Keep(db1.monitors, cfg.monitors.Keys)
    ensures db2.channels == db1.channels == Keep(db1.channels, cfg.channels.Keys)
    ensures db2.groups == db1.groups == Keep(db1.groups, cfg.groups.Keys)
  {
    TableFixed(db0.services, db1.services, db2.services, ServiceTargets(lib, cfg), cfg.services.Keys);
    TableFixed(db0.monitors, db1.monitors, db2.monitors, MonitorTargets(lib, cfg), cfg.monitors.Keys);
    TableFixed(db0.groups, db1.groups, db2.groups, GroupTargets(lib, cfg), cfg.groups.Keys);
    KeepWf(db0.channels, cfg.channels.Keys);
    KeepWf(db1.channels, cfg.channels.Keys);
    ChannelsFixed(lib, cfg, db0.channels, db1.channels, db2.channels);
  }

  lemma RowsFixed(lib: Lib, db: Store)
    requires Consistent(lib, db)
    ensures RowsInto(db.alertServices, db.services.Keys) == db.alertServices
    ensures RowsInto(db.monitorLogs, db.monitors.Keys) == db.monitorLogs
  {
  }

  /** The stages, run on a store they already left, leave it as it is: no id, no
      field and no link changes, even when the file has errors. */
  lemma StagesTwice(lib: Lib, cfg: Config, db0: Store, db1: Store, db2: Store)
    requires Consistent(lib, db0) && Consistent(lib, db1)
    requires Applied(lib, cfg, db0, db1) && Applied(lib, cfg, db1, db2)
    ensures db2 == db1
  {
    TablesFixed(lib, cfg, db0, db1, db2);
    RowsFixed(lib, db1);
    RelationsFixed(lib, cfg, db0, db1, db2);
  }

  lemma RelationsFixed(lib: Lib, cfg: Config, db0: Store, db1: Store, db2: Store)
    requires Consistent(lib, db0) && Consistent(lib, db1)
    requires Applied(lib, cfg, db0, db1) && Applied(lib, cfg, db1, db2)
    ensures db2.members == db1.members && db2.channelLinks == db1.channelLinks && db2.groupLinks == db1.groupLinks
  {
    TablesFixed(lib, cfg, db0, db1, db2);
    var c, g := Slugs(db1.channels), Slugs(db1.groups);
    var monitors := Keep(db0.monitors, cfg.monitors.Keys).Keys;
    var channels, groups := Keep(db0.channels, cfg.channels.Keys).Keys, Keep(db0.groups, cfg.groups.Keys).Keys;
    MembersFixed(lib, cfg, LinksFrom(db0.members, groups), db1.groups, cfg.groups.Keys);
    LinksFixed(KeptLinks(db0.channelLinks, monitors, channels), db1.monitors, db1.channels,
               ChannelNames(lib, cfg, c, g), cfg.monitors.Keys);
    LinksFixed(KeptLinks(db0.groupLinks, monitors, groups), db1.monitors, db1.groups, GroupNames(lib, cfg, c, g),
               cfg.monitors.Keys);
  }

  /** Applying a rename-free file twice is applying it once, and the second run
      reports what the first did. The file need not be valid. */
  lemma Idempotent(lib: Lib, cfg: Config, orderA: seq<string>, orderB: seq<string>,
                   db0: Store, db1: Store, db2: Store, msgsA: set<Msg>, msgsB: set<Msg>)
    requires Consistent(lib, db0) && RunVia(lib, cfg, orderA, db0, db1, msgsA)
    requires Consistent(lib, db1) && RunVia(lib, cfg, orderB, db1, db2, msgsB)
    requires cfg.rename == map[]
    ensures db2 == db1 && msgsB == msgsA
  {
    NothingToRename(lib, cfg, db0, orderA);
    NothingToRename(lib, cfg, db1, orderB);
    StagesTwice(lib, cfg, db0, db1, db2);
  }

  lemma NoOrder(order: seq<string>)
    ensures Elems(order) == {} <==> order == []
  {
    if order != [] {
      assert order[0] in Elems(order);
    }
  }

  // ---- a second run of a file with renames ----

  lemma SilentStep(lib: Lib, cfg: Config, db: Store, rest: seq<string>, k: string)
    requires Elems(rest + [k]) <= cfg.rename.Keys && Fold(lib, cfg, db, rest + [k]).1 == {}
    ensures k in cfg.rename && Elems(rest) <= cfg.rename.Keys
    ensures Fold(lib, cfg, db, rest).1 == {} && GoodRename(lib, cfg, k)
  {
    ElemsAppend(rest, [k]);
    assert k in Elems([k]);
    FoldStep(lib, cfg, db, rest, k);
    var (d, m) := Fold(lib, cfg, db, rest);
    UnionEmpty(m, EntryMsgs(lib, cfg, k, cfg.rename[k], Present(d, k)));
    EntrySilent(lib, cfg, k, Present(d, k));
  }

  /** A silent rename pass, in whatever order, was given good renames. */
  lemma {:induction false} SilentRenameGood(lib: Lib, cfg: Config, db: Store, order: seq<string>, i: nat)
    requires Elems(order) <= cfg.rename.Keys && Fold(lib, cfg, db, order).1 == {} && i < |order|
    ensures order[i] in cfg.rename && GoodRename(lib, cfg, order[i])
  {
    var n := |order| - 1;
    SplitLast(order);
    SilentStep(lib, cfg, db, order[..n], order[n]);
    if i < n {
      SilentRenameGood(lib, cfg, db, order[..n], i);
    }
  }

  ghost predicate GoodRename(lib: Lib, cfg: Config, k: string)
    requires k in cfg.rename
  {
    && Source(k).Some? && ValidMove(lib, Source(k).value.1, cfg.rename[k])
    && cfg.rename[k] in Declared(cfg, Source(k).value.0)
  }

  /** What a rename that was carried out before reports. */
  function StaleMsg(cfg: Config, db: Store, k: string): Msg
    requires k in cfg.rename
  {
    if Source(k).Some? && Source(k).value.1 in Present(db, k) then RenameTaken(cfg.rename[k]) else RenameNoSource(k)
  }

  function StaleMsgs(cfg: Config, db: Store, keys: set<string>): set<Msg> {
    set k | k in keys && k in cfg.rename :: StaleMsg(cfg, db, k)
  }

  lemma StaleEntry(lib: Lib, cfg: Config, db: Store, k: string)
    requires k in cfg.rename && GoodRename(lib, cfg, k) && cfg.rename[k] in Present(db, k)
    ensures EntryStore(db, k, cfg.rename[k]) == db
    ensures EntryMsgs(lib, cfg, k, cfg.rename[k], Present(db, k)) == {StaleMsg(cfg, db, k)}
  {
  }

  lemma StaleStep(cfg: Config, db: Store, keys: set<string>, k: string)
    requires k in cfg.rename
    ensures StaleMsgs(cfg, db, keys + {k}) == StaleMsgs(cfg, db, keys) + {StaleMsg(cfg, db, k)}
  {
  }

  lemma {:induction false} StaleFold(lib: Lib, cfg: Config, db: Store, order: seq<string>)
    requires Elems(order) <= cfg.rename.Keys
    requires forall k :: k in order ==> GoodRename(lib, cfg, k) && cfg.rename[k] in Present(db, k)
    ensures Fold(lib, cfg, db, order) == (db, StaleMsgs(cfg, db, Elems(order)))
  {
    if order == [] {
      NoOrder(order);
      assert StaleMsgs(cfg, db, {}) == {};
    } else {
      var k, rest := order[|order| - 1], order[..|order| - 1];
      assert order == rest + [k];
      ElemsAppend(rest, [k]);
      StaleFold(lib, cfg, db, rest);
      StaleFoldStep(lib, cfg, db, rest, k);
    }
  }

  lemma StaleFoldStep(lib: Lib, cfg: Config, db: Store, rest: seq<string>, k: string)
    requires Elems(rest) <= cfg.rename.Keys && k in cfg.rename
    requires GoodRename(lib, cfg, k) && cfg.rename[k] in Present(db, k)
    requires Fold(lib, cfg, db, rest) == (db, StaleMsgs(cfg, db, Elems(rest)))
    ensures Elems(rest + [k]) <= cfg.rename.Keys
    ensures Fold(lib, cfg, db, rest + [k]) == (db, StaleMsgs(cfg, db, Elems(rest + [k])))
  {
    ElemsAppend(rest, [k]);
    assert Elems([k]) == {k};
    FoldStep(lib, cfg, db, rest, k);
    StaleEntry(lib, cfg, db, k);
    StaleStep(cfg, db, Elems(rest), k);
  }

  /** Every declared slug is there after a clean run. */
  lemma DeclaredPresent(lib: Lib, cfg: Config, db0: Store, db: Store, at: Section)
    requires Consistent(lib, db0) && Applied(lib, cfg, db0, db) && CleanConfig(lib, cfg)
    ensures SlugsOf(db, at) == Declared(cfg, at)
  {
    AppliedKeys(lib, cfg, db0, db);
    match at
    case Services => assert SlugsOf(db, at) == Slugs(db.services);
    case Monitors => assert SlugsOf(db, at) == Slugs(db.monitors);
    case Channels => assert SlugsOf(db, at) == Slugs(db.channels);
    case Groups => assert SlugsOf(db, at) == Slugs(db.groups);
  }

  /** Applying an accepted file again leaves the store as it is, renames
      included, and reports exactly one message per rename: its source is gone,
      or its target is taken. */
  lemma AcceptedTwice(lib: Lib, cfg: Config, orderA: seq<string>, orderB: seq<string>,
                      db0: Store, db1: Store, db2: Store, msgs: set<Msg>)
    requires Consistent(lib, db0) && RunVia(lib, cfg, orderA, db0, db1, {})
    requires Consistent(lib, db1) && RunVia(lib, cfg, orderB, db1, db2, msgs)
    ensures db2 == db1 && msgs == StaleMsgs(cfg, db1, cfg.rename.Keys)
  {
    Verdict(lib, cfg, orderA, db0, db1, {});
    FoldKeeps(lib, cfg, db0, orderA);
    var renamed := Fold(lib, cfg, db0, orderA).0;
    forall k | k in orderB ensures k in cfg.rename && GoodRename(lib, cfg, k) && cfg.rename[k] in Present(db1, k) {
      assert k in Elems(orderB) && k in Elems(orderA);
      var i :| 0 <= i < |orderA| && orderA[i] == k;
      SilentRenameGood(lib, cfg, db0, orderA, i);
      DeclaredPresent(lib, cfg, renamed, db1, Source(k).value.0);
    }
    StaleFold(lib, cfg, db1, orderB);
    StagesTwice(lib, cfg, renamed, db1, db2);
    StagesVerdict(lib, cfg, renamed, db1);
  }

  // ---- ids ----

  /** A row whose slug the file declares stays; a row that is not such a row was
      created, under a slug that no kept row has. */
  ghost predicate RowsKept(before: map<Id, string>, keys: set<string>, after: map<Id, string>) {
    && (forall i :: i in before && before[i] in keys ==> i in after && after[i] == before[i])
    && (forall i, j :: i in after && !(i in before && before[i] in keys) && j in before && before[j] in keys ==>
          after[i] in keys && after[i] != before[j])
  }

  lemma SettledRows<F>(t0: Table<F>, t: Table<F>, target: map<string, F>, keys: set<string>)
    requires Wf(t0) && Settled(Keep(t0, keys), t, target) && target.Keys <= keys
    ensures RowsKept(SlugById(t0), keys, SlugById(t))
  {
  }

  /** Through a run of any file, rows keep their ids: those of the store after
      the rename pass, which moves slugs and never ids. */
  lemma IdsKept(lib: Lib, cfg: Config, order: seq<string>, db0: Store, db: Store, msgs: set<Msg>, at: Section)
    requires Consistent(lib, db0) && RunVia(lib, cfg, order, db0, db, msgs)
    ensures RowsKept(SlugMap(Fold(lib, cfg, db0, order).0, at), Declared(cfg, at), SlugMap(db, at))
  {
    FoldKeeps(lib, cfg, db0, order);
    var renamed := Fold(lib, cfg, db0, order).0;
    match at
    case Services => SettledRows(renamed.services, db.services, ServiceTargets(lib, cfg), cfg.services.Keys);
    case Monitors => SettledRows(renamed.monitors, db.monitors, MonitorTargets(lib, cfg), cfg.monitors.Keys);
    case Channels =>
      KeepWf(renamed.channels, cfg.channels.Keys);
      SettledRows(renamed.channels, db.channels, ChannelTargets(lib, cfg, Keep(renamed.channels, cfg.channels.Keys)),
                  cfg.channels.Keys);
    case Groups => SettledRows(renamed.groups, db.groups, GroupTargets(lib, cfg), cfg.groups.Keys);
  }

  lemma RenamedRowIn(cfg: Config, db: Store, at: Section, src: string, i: Id)
    requires '.' !in src && EntityName(at) + "." + src in cfg.rename
    requires i in SlugMap(db, at) && SlugMap(db, at)[i] == src
    requires cfg.rename[EntityName(at) + "." + src] !in SlugsOf(db, at)
    ensures i in SlugMap(Renamed(cfg, cfg.rename.Keys, db), at)
    ensures SlugMap(Renamed(cfg, cfg.rename.Keys, db), at)[i] == cfg.rename[EntityName(at) + "." + src]
  {
  }

  /** With independent renames, a row whose rename has a free, declared target
      carries its id to that target and keeps it through every stage. */
  lemma RenamedKeepsId(lib: Lib, cfg: Config, order: seq<string>, db0: Store, db: Store, msgs: set<Msg>, at: Section,
                       src: string, i: Id)
    requires Consistent(lib, db0) && RunVia(lib, cfg, order, db0, db, msgs) && Independent(cfg)
    requires '.' !in src && EntityName(at) + "." + src in cfg.rename
    requires i in SlugMap(db0, at) && SlugMap(db0, at)[i] == src
    requires var dst := cfg.rename[EntityName(at) + "." + src]; dst !in SlugsOf(db0, at) && dst in Declared(cfg, at)
    ensures i in SlugMap(db, at) && SlugMap(db, at)[i] == cfg.rename[EntityName(at) + "." + src]
  {
    FoldIsClosed(lib, cfg, db0, order);
    IdsKept(lib, cfg, order, db0, db, msgs, at);
    RenamedRowIn(cfg, db0, at, src, i);
  }

  lemma NewMembersDeclared(lib: Lib, cfg: Config, m0: set<(Id, string)>, t: Table<Group>, done: set<string>)
    ensures forall p :: p in MembersFor(lib, cfg, m0, t, done) && p !in m0 ==>
              && p.0 in t && t[p.0].slug in cfg.groups && p.1 in cfg.groups[t[p.0].slug].members
  {
  }

  /** A link with an end that was not there before is one the file declares. */
  ghost predicate NewDeclared<F>(links: set<(Id, Id)>, from: set<Id>, to: set<Id>, monitors: Table<Monitor>,
                                 t: Table<F>, names: map<string, seq<string>>) {
    forall p :: p in links && (p.0 !in from || p.1 !in to) ==>
      && p.0 in monitors && p.1 in t && monitors[p.0].slug in names && t[p.1].slug in names[monitors[p.0].slug]
  }

  lemma NewLinksDeclared<F>(links: set<(Id, Id)>, from: set<Id>, to: set<Id>, monitors: Table<Monitor>, t: Table<F>,
                            some: map<string, seq<string>>, all: map<string, seq<string>>, done: set<string>)
    requires forall s :: s in some ==> s in all && some[s] == all[s]
    ensures NewDeclared(LinksFor(KeptLinks(links, from, to), monitors, t, some, done), from, to, monitors, t, all)
  {
  }

  lemma NewChannelLinks(lib: Lib, cfg: Config, db0: Store, db: Store)
    requires Consistent(lib, db0) && Applied(lib, cfg, db0, db)
    ensures NewDeclared(db.channelLinks, Keep(db0.monitors, cfg.monitors.Keys).Keys,
                        Keep(db0.channels, cfg.channels.Keys).Keys, db.monitors, db.channels, AllChannelNames(cfg))
  {
    NewLinksDeclared(db0.channelLinks, Keep(db0.monitors, cfg.monitors.Keys).Keys,
                     Keep(db0.channels, cfg.channels.Keys).Keys,
                     db.monitors, db.channels, ChannelNames(lib, cfg, Slugs(db.channels), Slugs(db.groups)),
                     AllChannelNames(cfg), cfg.monitors.Keys);
  }

  lemma NewGroupLinks(lib: Lib, cfg: Config, db0: Store, db: Store)
    requires Consistent(lib, db0) && Applied(lib, cfg, db0, db)
    ensures NewDeclared(db.groupLinks, Keep(db0.monitors, cfg.monitors.Keys).Keys,
                        Keep(db0.groups, cfg.groups.Keys).Keys, db.monitors, db.groups, AllGroupNames(cfg))
  {
    NewLinksDeclared(db0.groupLinks, Keep(db0.monitors, cfg.monitors.Keys).Keys, Keep(db0.groups, cfg.groups.Keys).Keys,
                     db.monitors, db.groups, GroupNames(lib, cfg, Slugs(db.channels), Slugs(db.groups)),
                     AllGroupNames(cfg), cfg.monitors.Keys);
  }

  /** Whatever referred to a row that is gone is gone too, so a created row
      inherits nothing, even under an id that was in use before: its logs, alert
      services, members and links are those the file declares for it, or none. */
  lemma NothingInherited(lib: Lib, cfg: Config, db0: Store, db: Store)
    requires Consistent(lib, db0) && Applied(lib, cfg, db0, db)
    ensures forall r :: r in db.monitorLogs ==> db.monitorLogs[r] in Keep(db0.monitors, cfg.monitors.Keys)
    ensures forall r :: r in db.alertServices ==> db.alertServices[r] in Keep(db0.services, cfg.services.Keys)
    ensures forall p :: p in db.members && p.0 !in Keep(db0.groups, cfg.groups.Keys) ==>
              p.0 in db.groups && db.groups[p.0].slug in cfg.groups && p.1 in cfg.groups[db.groups[p.0].slug].members
    ensures NewDeclared(db.channelLinks, Keep(db0.monitors, cfg.monitors.Keys).Keys,
                        Keep(db0.channels, cfg.channels.Keys).Keys, db.monitors, db.channels, AllChannelNames(cfg))
    ensures NewDeclared(db.groupLinks, Keep(db0.monitors, cfg.monitors.Keys).Keys,
                        Keep(db0.groups, cfg.groups.Keys).Keys, db.monitors, db.groups, AllGroupNames(cfg))
  {
    NewMembersDeclared(lib, cfg, LinksFrom(db0.members, Keep(db0.groups, cfg.groups.Keys).Keys), db.groups,
                       cfg.groups.Keys);
    NewChannelLinks(lib, cfg, db0, db);
    NewGroupLinks(lib, cfg, db0, db);
  }
}
