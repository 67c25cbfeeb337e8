/** Every file has a run on every consistent store, so that what is proved about
    runs is proved about something. */
module Runs {
  import opened Prelude
  import opened Tables
  import opened Store
  import opened Config
  import opened Reconciler
  import opened Rename
  import opened References
  import opened Apply

  lemma {:induction false} SomeBound(ids: set<Id>) returns (n: nat)
    ensures forall i :: i in ids ==> i.n < n
  {
    if ids == {} {
      n := 0;
    } else {
      var i :| i in ids;
      n := SomeBound(ids - {i});
      n := if n <= i.n then i.n + 1 else n;
    }
  }

  /** The table that editing and creating one target after the other gives. */
  lemma {:induction false} SomeUpserted<F>(t0: Table<F>, target: map<string, F>, done: set<string>)
    returns (t: Table<F>)
    requires Wf(t0) && done <= target.Keys
    ensures Upserted(t0, t, target, done)
  {
    if done == {} {
      t := t0;
      UpsertStart(t0, target);
    } else {
      var s :| s in done;
      assert done == (done - {s}) + {s};
      t := SomeUpserted(t0, target, done - {s});
      if s in Slugs(t0) {
        var id := IdOf(t0, s);
        EditStep(t0, t, target, done - {s}, id);
        t := EditRow(t, id, target[s]);
      } else {
        var n := SomeBound(t.Keys);
        InsertStep(t0, t, target, done - {s}, s, Id(n + 1));
        t := t[Id(n + 1) := Row(s, target[s])];
      }
    }
  }

  lemma SomeServices(lib: Lib, cfg: Config, db0: Store) returns (db: Store)
    requires Consistent(lib, db0)
    ensures ServicesStep(lib, cfg, db0, db) && Consistent(lib, db)
  {
    var kept, target := Keep(db0.services, cfg.services.Keys), ServiceTargets(lib, cfg);
    KeepWf(db0.services, cfg.services.Keys);
    var t := SomeUpserted(kept, target, target.Keys);
    db := CutServices(db0, kept).(services := t);
    ServicesKeep(lib, cfg, db0, db);
  }

  lemma SomeMonitors(lib: Lib, cfg: Config, db0: Store) returns (db: Store)
    requires Consistent(lib, db0)
    ensures MonitorsStep(lib, cfg, db0, db) && Consistent(lib, db)
  {
    var target := MonitorTargets(lib, cfg);
    var t := SomeUpserted(db0.monitors, target, target.Keys);
    db := db0.(monitors := t);
    MonitorsKeep(lib, cfg, db0, db);
  }

  lemma SomeChannels(lib: Lib, cfg: Config, db0: Store) returns (db: Store)
    requires Consistent(lib, db0)
    ensures ChannelsStep(lib, cfg, db0, db) && Consistent(lib, db)
  {
    var kept := Keep(db0.channels, cfg.channels.Keys);
    KeepWf(db0.channels, cfg.channels.Keys);
    var target := ChannelTargets(lib, cfg, kept);
    var t := SomeUpserted(kept, target, target.Keys);
    db := CutChannels(db0, kept).(channels := t);
    ChannelsKeep(lib, cfg, db0, db);
  }

  lemma SomeGroups(lib: Lib, cfg: Config, db0: Store) returns (db: Store)
    requires Consistent(lib, db0)
    ensures GroupsStep(lib, cfg, db0, db) && Consistent(lib, db)
  {
    var kept, target := Keep(db0.groups, cfg.groups.Keys), GroupTargets(lib, cfg);
    KeepWf(db0.groups, cfg.groups.Keys);
    var t := SomeUpserted(kept, target, target.Keys);
    var cut := CutGroups(db0, kept);
    db := cut.(groups := t, members := MembersFor(lib, cfg, cut.members, t, cfg.groups.Keys));
    GroupsKeep(lib, cfg, db0, db);
  }

  lemma SomeApplied(lib: Lib, cfg: Config, db0: Store) returns (db: Store)
    requires Consistent(lib, db0) && (db0.name == cfg.name || cfg.name == "")
    ensures Applied(lib, cfg, db0, db) && Consistent(lib, db)
  {
    var s := SomeServices(lib, cfg, db0);
    var m := SomeMonitors(lib, cfg, s);
    var c := SomeChannels(lib, cfg, m);
    var g := SomeGroups(lib, cfg, c);
    db := RefsOutcome(lib, cfg, g);
    RefsKeep(lib, cfg, g);
    StagesCompose(lib, cfg, db0, s, m, c, g);
  }

  /** A run of the file on the store exists. */
  lemma SomeRun(lib: Lib, cfg: Config, db0: Store) returns (order: seq<string>, db: Store, msgs: set<Msg>)
    requires Consistent(lib, db0)
    ensures RunVia(lib, cfg, order, db0, db, msgs)
  {
    order := SomeOrder(cfg.rename.Keys);
    FoldKeeps(lib, cfg, db0, order);
    var renamed := Fold(lib, cfg, db0, order).0;
    var named := renamed.(name := if cfg.name != "" then cfg.name else renamed.name);
    db := SomeApplied(lib, cfg, named);
    assert Applied(lib, cfg, renamed, db);
    msgs := RunMsgs(lib, cfg, order, db0, db);
  }
}
