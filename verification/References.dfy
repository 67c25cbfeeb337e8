/** The last stage of applyConfig: monitors the file stopped naming go, links are
    rewritten from slugs to ids, alert settings follow. */
module References {
  import opened Prelude
  import opened SlugGrammar
  import opened Tables
  import opened Store
  import opened Config
  import opened Reconciler

  /** The links once the monitors with slugs in `done` were relinked: a relinked
      monitor points at exactly the rows it names, the others are as in `links`. */
  ghost function LinksFor<F>(links: set<(Id, Id)>, monitors: Table<Monitor>, t: Table<F>,
                             names: map<string, seq<string>>, done: set<string>): set<(Id, Id)> {
    (set p | p in links && p.0 in monitors && !(monitors[p.0].slug in done && monitors[p.0].slug in names))
    + (set m, i | m in monitors && i in t && monitors[m].slug in done && monitors[m].slug in names
                  && t[i].slug in names[monitors[m].slug] :: (m, i))
  }

  /** The channel list of every monitor the stage relinks. */
  function ChannelNames(lib: Lib, cfg: Config, channels: set<string>, groups: set<string>): map<string, seq<string>> {
    map s | s in cfg.monitors && Relinks(lib, cfg, s, channels, groups) :: cfg.monitors[s].channels
  }

  function GroupNames(lib: Lib, cfg: Config, channels: set<string>, groups: set<string>): map<string, seq<string>> {
    map s | s in cfg.monitors && Relinks(lib, cfg, s, channels, groups) :: cfg.monitors[s].groups
  }

  ghost function SmtpFor(cfg: Config, t: Table<Channel>): Option<Id> {
    if cfg.alerts.emailChannel in Slugs(t) then Some(IdOf(t, cfg.alerts.emailChannel)) else None
  }

  /** The store after the stage: a function of the store before it. */
  ghost function RefsOutcome(lib: Lib, cfg: Config, db0: Store): Store {
    var cut := CutMonitors(db0, Keep(db0.monitors, cfg.monitors.Keys));
    var c, g := Slugs(db0.channels), Slugs(db0.groups);
    cut.(channelLinks := LinksFor(cut.channelLinks, cut.monitors, db0.channels, ChannelNames(lib, cfg, c, g),
                                  cfg.monitors.Keys),
         groupLinks := LinksFor(cut.groupLinks, cut.monitors, db0.groups, GroupNames(lib, cfg, c, g),
                                cfg.monitors.Keys),
         settings := cfg.alerts.settings,
         smtpChannel := SmtpFor(cfg, db0.channels))
  }

  method DropMonitors(tx: Tx, lib: Lib, keys: set<string>) returns (existing: map<string, Id>)
    requires Consistent(lib, tx.db)
    modifies tx
    ensures tx.db == CutMonitors(old(tx.db), Keep(old(tx.db).monitors, keys))
    ensures Indexes(existing, Keep(old(tx.db).monitors, keys))
  {
    ghost var db0 := tx.db;
    var listed := tx.db.monitors;
    existing := map[];
    var todo := listed.Keys;
    CutNothing(lib, db0);
    DropStart(listed, keys);
    while todo != {}
      invariant todo <= listed.Keys
      invariant tx.db == CutMonitors(db0, KeepOrTodo(listed, keys, todo))
      invariant IndexesSeen(existing, listed, keys, todo)
      decreases todo
    {
      var i :| i in todo;
      DropStep(listed, keys, todo, existing, i);
      if listed[i].slug !in keys {
        CutMonitorsTwice(db0, tx.db.monitors, tx.db.monitors - {i});
        tx.db := DeleteMonitor(tx.db, i);
      } else {
        existing := existing[listed[i].slug := i];
      }
      todo := todo - {i};
    }
    DropDone(listed, keys, existing);
  }

  // ---- one list of names ----

  lemma NameMsgsStep(slug: string, field: string, names: seq<string>, known: set<string>, n: nat)
    requires n < |names|
    ensures NameMsgs(slug, field, names[..n + 1], known) ==
            NameMsgs(slug, field, names[..n], known)
            + Need(names[n] in known, Bad(Monitors, slug, field, UnknownRef(names[n])))
            + Need(!(names[n] in known && names[n] in names[..n]), Bad(Monitors, slug, field, Duplicated(names[n])))
  {
  }

  /** Resolve names to ids. Unless something is reported, the ids are distinct and
      are those of the named rows. */
  method ResolveNames<F>(slug: string, field: string, names: seq<string>, index: map<string, Id>, ghost t: Table<F>)
    returns (ids: seq<Id>, msgs: seq<Msg>)
    requires Indexes(index, t)
    ensures Elems(msgs) == NameMsgs(slug, field, names, Slugs(t))
    ensures Distinct(ids) && forall i :: i in ids ==> i in t
    ensures msgs == [] ==>
              |ids| == |names| && forall k :: 0 <= k < |names| ==> names[k] in index && ids[k] == index[names[k]]
  {
    ids, msgs := [], [];
    var unique: set<string> := {};
    for n := 0 to |names|
      invariant Elems(msgs) == NameMsgs(slug, field, names[..n], Slugs(t))
      invariant unique == set k | 0 <= k < n && names[k] in index :: names[k]
      invariant forall i :: i in ids ==> i in t && t[i].slug in unique
      invariant Distinct(ids)
      invariant msgs == [] ==> |ids| == n && forall k :: 0 <= k < n ==> names[k] in index && ids[k] == index[names[k]]
    {
      NameMsgsStep(slug, field, names, Slugs(t), n);
      var name := names[n];
      assert name in index <==> name in Slugs(t);
      assert name in unique <==> name in index && name in names[..n];
      if name !in index {
        msgs := msgs + [Bad(Monitors, slug, field, UnknownRef(name))];
      } else if name in unique {
        msgs := msgs + [Bad(Monitors, slug, field, Duplicated(name))];
      } else {
        unique := unique + {name};
        ids := ids + [index[name]];
      }
    }
    assert names[..|names|] == names;
  }

  // ---- replace-all link writes ----

  function WithLinks(links: set<(Id, Id)>, monitor: Id, ids: set<Id>): set<(Id, Id)> {
    (set p | p in links && p.0 != monitor) + (set i | i in ids :: (monitor, i))
  }

  lemma WithLinksStep(links: set<(Id, Id)>, monitor: Id, ids: seq<Id>, n: nat)
    requires n < |ids| && Distinct(ids)
    ensures (monitor, ids[n]) !in WithLinks(links, monitor, Elems(ids[..n]))
    ensures WithLinks(links, monitor, Elems(ids[..n])) + {(monitor, ids[n])} ==
              WithLinks(links, monitor, Elems(ids[..n + 1]))
  {
  }

  method ReplaceChannelLinks(db: Store, monitor: Id, ids: seq<Id>) returns (err: Option<SqlError>, db': Store)
    requires Distinct(ids)
    ensures monitor in db.monitors && Elems(ids) <= db.channels.Keys ==>
              err == None && db' == db.(channelLinks := WithLinks(db.channelLinks, monitor, Elems(ids)))
  {
    err, db' := None, db.(channelLinks := WithLinks(db.channelLinks, monitor, {}));
    var n := 0;
    while n < |ids| && err == None
      invariant 0 <= n <= |ids|
      invariant monitor in db.monitors && Elems(ids) <= db.channels.Keys ==>
                  err == None && db' == db.(channelLinks := WithLinks(db.channelLinks, monitor, Elems(ids[..n])))
    {
      WithLinksStep(db.channelLinks, monitor, ids, n);
      assert ids[n] in Elems(ids);
      var r := AddChannelLink(db', monitor, ids[n]);
      err, db', n := r.0, r.1, n + 1;
    }
    assert n == |ids| ==> ids[..n] == ids;
  }

  method ReplaceGroupLinks(db: Store, monitor: Id, ids: seq<Id>) returns (err: Option<SqlError>, db': Store)
    requires Distinct(ids)
    ensures monitor in db.monitors && Elems(ids) <= db.groups.Keys ==>
              err == None && db' == db.(groupLinks := WithLinks(db.groupLinks, monitor, Elems(ids)))
  {
    err, db' := None, db.(groupLinks := WithLinks(db.groupLinks, monitor, {}));
    var n := 0;
    while n < |ids| && err == None
      invariant 0 <= n <= |ids|
      invariant monitor in db.monitors && Elems(ids) <= db.groups.Keys ==>
                  err == None && db' == db.(groupLinks := WithLinks(db.groupLinks, monitor, Elems(ids[..n])))
    {
      WithLinksStep(db.groupLinks, monitor, ids, n);
      assert ids[n] in Elems(ids);
      var r := AddGroupLink(db', monitor, ids[n]);
      err, db', n := r.0, r.1, n + 1;
    }
    assert n == |ids| ==> ids[..n] == ids;
  }

  /** Rewriting one monitor's links moves LinksFor on by its slug. */
  lemma LinksForStep<F>(links: set<(Id, Id)>, monitors: Table<Monitor>, t: Table<F>, names: map<string, seq<string>>,
                        done: set<string>, m: Id, ids: set<Id>)
    requires Wf(monitors) && m in monitors && monitors[m].slug in names && monitors[m].slug !in done
    requires forall i :: i in ids <==> i in t && t[i].slug in names[monitors[m].slug]
    ensures WithLinks(LinksFor(links, monitors, t, names, done), m, ids) ==
            LinksFor(links, monitors, t, names, done + {monitors[m].slug})
  {
  }

  lemma LinksForSkip<F>(links: set<(Id, Id)>, monitors: Table<Monitor>, t: Table<F>, names: map<string, seq<string>>,
                        done: set<string>, slug: string)
    requires slug !in names
    ensures LinksFor(links, monitors, t, names, done) == LinksFor(links, monitors, t, names, done + {slug})
  {
  }

  lemma NamedIds<F>(t: Table<F>, index: map<string, Id>, names: seq<string>, ids: seq<Id>)
    requires Wf(t) && Indexes(index, t)
    requires |ids| == |names| && forall k :: 0 <= k < |names| ==> names[k] in index && ids[k] == index[names[k]]
    ensures forall i :: i in Elems(ids) <==> i in t && t[i].slug in names
  {
  }

  /** The store in the middle of the relinking loop. */
  ghost function Relinked(lib: Lib, cfg: Config, cut: Store, done: set<string>): Store {
    var c, g := Slugs(cut.channels), Slugs(cut.groups);
    cut.(channelLinks := LinksFor(cut.channelLinks, cut.monitors, cut.channels, ChannelNames(lib, cfg, c, g), done),
         groupLinks := LinksFor(cut.groupLinks, cut.monitors, cut.groups, GroupNames(lib, cfg, c, g), done))
  }

  /** One entry of cfg.Monitors. */
  method Relink(lib: Lib, cfg: Config, slug: string, db: Store, existing: map<string, Id>,
                channelIds: map<string, Id>, groupIds: map<string, Id>, ghost cut: Store, ghost done: set<string>)
    returns (err: Option<SqlError>, db': Store, msgs: seq<Msg>)
    requires slug in cfg.monitors && slug !in done
    requires Wf(cut.monitors) && Wf(cut.channels) && Wf(cut.groups)
    requires Indexes(existing, cut.monitors) && Indexes(channelIds, cut.channels) && Indexes(groupIds, cut.groups)
    requires Legal(lib, slug) ==> slug in Slugs(cut.monitors)
    requires db == Relinked(lib, cfg, cut, done)
    ensures err == None && db' == Relinked(lib, cfg, cut, done + {slug})
    ensures Elems(msgs) == RefsMsgs(lib, cfg, Slugs(cut.channels), Slugs(cut.groups))[slug]
  {
    ghost var c, g := Slugs(cut.channels), Slugs(cut.groups);
    var v := cfg.monitors[slug];
    err, db' := None, db;
    if !Legal(lib, slug) {
      msgs := [BadSlug(Monitors, slug)];
      LinksForSkip(cut.channelLinks, cut.monitors, cut.channels, ChannelNames(lib, cfg, c, g), done, slug);
      LinksForSkip(cut.groupLinks, cut.monitors, cut.groups, GroupNames(lib, cfg, c, g), done, slug);
      return;
    }
    var channels, a := ResolveNames(slug, "notification-channels", v.channels, channelIds, cut.channels);
    var groups, b := ResolveNames(slug, "mail-groups", v.groups, groupIds, cut.groups);
    ElemsAppend(a, b);
    msgs := a + b;
    if msgs != [] {
      assert msgs[0] in Elems(msgs);
      LinksForSkip(cut.channelLinks, cut.monitors, cut.channels, ChannelNames(lib, cfg, c, g), done, slug);
      LinksForSkip(cut.groupLinks, cut.monitors, cut.groups, GroupNames(lib, cfg, c, g), done, slug);
      return;
    }
    assert a == [] && b == [];
    err, db' := WriteLinks(lib, cfg, slug, db, existing, channels, groups, channelIds, groupIds, cut, done);
  }

  method WriteLinks(lib: Lib, cfg: Config, slug: string, db: Store, existing: map<string, Id>,
                    channels: seq<Id>, groups: seq<Id>,
                    ghost channelIds: map<string, Id>, ghost groupIds: map<string, Id>, ghost cut: Store,
                    ghost done: set<string>)
    returns (err: Option<SqlError>, db': Store)
    requires slug !in done && Relinks(lib, cfg, slug, Slugs(cut.channels), Slugs(cut.groups))
    requires Wf(cut.monitors) && Wf(cut.channels) && Wf(cut.groups)
    requires Indexes(existing, cut.monitors) && Indexes(channelIds, cut.channels) && Indexes(groupIds, cut.groups)
    requires slug in Slugs(cut.monitors)
    requires Distinct(channels) && |channels| == |cfg.monitors[slug].channels|
    requires forall k :: 0 <= k < |channels| ==>
               cfg.monitors[slug].channels[k] in channelIds && channels[k] == channelIds[cfg.monitors[slug].channels[k]]
    requires Distinct(groups) && |groups| == |cfg.monitors[slug].groups|
    requires forall k :: 0 <= k < |groups| ==>
               cfg.monitors[slug].groups[k] in groupIds && groups[k] == groupIds[cfg.monitors[slug].groups[k]]
    requires db == Relinked(lib, cfg, cut, done)
    ensures err == None && db' == Relinked(lib, cfg, cut, done + {slug})
  {
    ghost var c, g := Slugs(cut.channels), Slugs(cut.groups);
    NamedIds(cut.channels, channelIds, cfg.monitors[slug].channels, channels);
    NamedIds(cut.groups, groupIds, cfg.monitors[slug].groups, groups);
    // A lookup that misses would give id 0 and a foreign-key error.
    var m := if slug in existing then existing[slug] else Id(0);
    assert m in cut.monitors && cut.monitors[m].slug == slug;
    LinksForStep(cut.channelLinks, cut.monitors, cut.channels, ChannelNames(lib, cfg, c, g), done, m, Elems(channels));
    LinksForStep(cut.groupLinks, cut.monitors, cut.groups, GroupNames(lib, cfg, c, g), done, m, Elems(groups));
    err, db' := ReplaceChannelLinks(db, m, channels);
    if err == None {
      err, db' := ReplaceGroupLinks(db', m, groups);
    }
  }

  lemma RelinkedStart(lib: Lib, cfg: Config, cut: Store)
    requires forall p :: p in cut.channelLinks ==> p.0 in cut.monitors
    requires forall p :: p in cut.groupLinks ==> p.0 in cut.monitors
    ensures Relinked(lib, cfg, cut, {}) == cut
  {
    assert Relinked(lib, cfg, cut, {}).channelLinks == cut.channelLinks;
    assert Relinked(lib, cfg, cut, {}).groupLinks == cut.groupLinks;
  }

  method RelinkMonitors(tx: Tx, lib: Lib, cfg: Config, existing: map<string, Id>,
                        channelIds: map<string, Id>, groupIds: map<string, Id>, msgs0: seq<Msg>)
    returns (msgs: seq<Msg>, err: Option<SqlError>)
    requires Wf(tx.db.monitors) && Wf(tx.db.channels) && Wf(tx.db.groups)
    requires Indexes(existing, tx.db.monitors) && Indexes(channelIds, tx.db.channels) && Indexes(groupIds, tx.db.groups)
    requires forall s :: s in cfg.monitors && Legal(lib, s) ==> s in Slugs(tx.db.monitors)
    requires forall p :: p in tx.db.channelLinks ==> p.0 in tx.db.monitors
    requires forall p :: p in tx.db.groupLinks ==> p.0 in tx.db.monitors
    modifies tx
    ensures err == None
    ensures tx.db == Relinked(lib, cfg, old(tx.db), cfg.monitors.Keys)
    ensures Elems(msgs) == Elems(msgs0) +
                           Gather(RefsMsgs(lib, cfg, Slugs(old(tx.db).channels), Slugs(old(tx.db).groups)),
                                  cfg.monitors.Keys)
  {
    msgs, err := msgs0, None;
    ghost var cut := tx.db;
    ghost var per := RefsMsgs(lib, cfg, Slugs(cut.channels), Slugs(cut.groups));
    var done: set<string> := {};
    RelinkedStart(lib, cfg, cut);
    while done != cfg.monitors.Keys && err == None
      invariant done <= cfg.monitors.Keys && err == None
      invariant tx.db == Relinked(lib, cfg, cut, done)
      invariant Elems(msgs) == Elems(msgs0) + Gather(per, done)
      decreases cfg.monitors.Keys - done
    {
      SomeLeft(cfg.monitors.Keys, done);
      var slug :| slug in cfg.monitors.Keys - done;
      var db, found;
      err, db, found := Relink(lib, cfg, slug, tx.db, existing, channelIds, groupIds, cut, done);
      tx.db := db;
      ElemsAppend(msgs, found);
      GatherStep(per, done, slug);
      msgs, done := msgs + found, done + {slug};
    }
  }

  method ApplyReferences(tx: Tx, lib: Lib, cfg: Config, msgs0: seq<Msg>)
    returns (msgs: seq<Msg>, err: Option<SqlError>)
    requires Consistent(lib, tx.db)
    requires forall s :: s in cfg.monitors && Legal(lib, s) ==> s in Slugs(tx.db.monitors)
    modifies tx
    ensures err == None
    ensures tx.db == RefsOutcome(lib, cfg, old(tx.db))
    ensures Elems(msgs) == Elems(msgs0)
                           + Gather(RefsMsgs(lib, cfg, Slugs(old(tx.db).channels), Slugs(old(tx.db).groups)),
                                    cfg.monitors.Keys)
                           + EmailChannelMsgs(cfg, Slugs(old(tx.db).channels))
  {
    var channelIds := IndexOf(tx.db.channels);
    var groupIds := IndexOf(tx.db.groups);
    KeepWf(tx.db.monitors, cfg.monitors.Keys);
    var existing := DropMonitors(tx, lib, cfg.monitors.Keys);
    msgs, err := RelinkMonitors(tx, lib, cfg, existing, channelIds, groupIds, msgs0);
    if err == None {
      tx.db := tx.db.(settings := cfg.alerts.settings);
      var email := cfg.alerts.emailChannel;
      assert email in channelIds <==> email in Slugs(tx.db.channels);
      msgs := Report(msgs, email == "" || email in channelIds, UnknownEmailChannel(email));
      var r := SetSmtpChannel(tx.db, if email in channelIds then Some(channelIds[email]) else None);
      err := r.0;
      tx.db := r.1;
    }
  }
}
