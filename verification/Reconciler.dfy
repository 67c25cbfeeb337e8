/** The five stages of applyConfig. Each works on the transaction step by step
    and visits map entries and listed rows in an arbitrary order. */
module Reconciler {
  import opened Prelude
  import opened SlugGrammar
  import opened Tables
  import opened Store
  import opened Config

  /** An open database transaction. */
  class Tx {
    var db: Store

    constructor (db0: Store)
      ensures db == db0
    {
      db := db0;
    }
  }

  // ---- services ----

  ghost predicate ServicesStep(lib: Lib, cfg: Config, db0: Store, db: Store) {
    var kept := Keep(db0.services, cfg.services.Keys);
    && Settled(kept, db.services, ServiceTargets(lib, cfg))
    && db == CutServices(db0, kept).(services := db.services)
  }

  method DropServices(tx: Tx, lib: Lib, keys: set<string>) returns (existing: map<string, Id>)
    requires Consistent(lib, tx.db)
    modifies tx
    ensures tx.db == CutServices(old(tx.db), Keep(old(tx.db).services, keys))
    ensures Indexes(existing, Keep(old(tx.db).services, keys))
  {
    ghost var db0 := tx.db;
    var listed := tx.db.services;
    existing := map[];
    var todo := listed.Keys;
    CutNothing(lib, db0);
    DropStart(listed, keys);
    while todo != {}
      invariant todo <= listed.Keys
      invariant tx.db == CutServices(db0, KeepOrTodo(listed, keys, todo))
      invariant IndexesSeen(existing, listed, keys, todo)
      decreases todo
    {
      var i :| i in todo;
      DropStep(listed, keys, todo, existing, i);
      if listed[i].slug !in keys {
        CutServicesTwice(db0, tx.db.services, tx.db.services - {i});
        tx.db := DeleteService(tx.db, i);
      } else {
        existing := existing[listed[i].slug := i];
      }
      todo := todo - {i};
    }
    DropDone(listed, keys, existing);
  }

  method CheckService(lib: Lib, slug: string, v: ServiceCfg) returns (msgs: seq<Msg>)
    ensures Elems(msgs) == ServiceMsgs(lib, slug, v)
  {
    msgs := [];
    if !Legal(lib, slug) {
      msgs := msgs + [BadSlug(Services, slug)];
      return;
    }
    if v.name == "" {
      msgs := msgs + [Bad(Services, slug, "name", Required)];
    }
  }

  /** One entry of cfg.Services. */
  method PutService(lib: Lib, cfg: Config, slug: string, existing: map<string, Id>, t: Table<Service>,
                    ghost kept: Table<Service>, ghost done: set<string>)
    returns (err: Option<SqlError>, t': Table<Service>, msgs: seq<Msg>)
    requires slug in cfg.services && slug !in done
    requires Wf(kept) && Indexes(existing, kept) && Upserted(kept, t, ServiceTargets(lib, cfg), done)
    ensures err == None && Upserted(kept, t', ServiceTargets(lib, cfg), done + {slug})
    ensures Elems(msgs) == ServicesMsgs(lib, cfg)[slug]
  {
    var v := cfg.services[slug];
    err, t' := None, t;
    msgs := CheckService(lib, slug, v);
    if Legal(lib, slug) {
      var row := Service(v.name, v.description);
      var id;
      err, t', id := Upsert(kept, t, existing, slug, row, row, ServiceTargets(lib, cfg), done);
    } else {
      SkipStep(kept, t, ServiceTargets(lib, cfg), done, slug);
    }
  }

  method PutServices(tx: Tx, lib: Lib, cfg: Config, existing: map<string, Id>, msgs0: seq<Msg>)
    returns (msgs: seq<Msg>, err: Option<SqlError>)
    requires Wf(tx.db.services) && Indexes(existing, tx.db.services)
    modifies tx
    ensures err == None
    ensures Settled(old(tx.db).services, tx.db.services, ServiceTargets(lib, cfg))
    ensures tx.db == old(tx.db).(services := tx.db.services)
    ensures Elems(msgs) == Elems(msgs0) + Gather(ServicesMsgs(lib, cfg), cfg.services.Keys)
  {
    msgs, err := msgs0, None;
    ghost var db0, target := tx.db, ServiceTargets(lib, cfg);
    UpsertStart(tx.db.services, target);
    var done: set<string> := {};
    while done != cfg.services.Keys && err == None
      invariant done <= cfg.services.Keys && err == None
      invariant tx.db == db0.(services := tx.db.services)
      invariant Upserted(db0.services, tx.db.services, target, done)
      invariant Elems(msgs) == Elems(msgs0) + Gather(ServicesMsgs(lib, cfg), done)
      decreases cfg.services.Keys - done
    {
      SomeLeft(cfg.services.Keys, done);
      var slug :| slug in cfg.services.Keys - done;
      var t, found;
      err, t, found := PutService(lib, cfg, slug, existing, tx.db.services, db0.services, done);
      tx.db := tx.db.(services := t);
      ElemsAppend(msgs, found);
      GatherStep(ServicesMsgs(lib, cfg), done, slug);
      msgs, done := msgs + found, done + {slug};
    }
    UpsertDone(db0.services, tx.db.services, target, done);
  }

  method ApplyServices(tx: Tx, lib: Lib, cfg: Config, msgs0: seq<Msg>)
    returns (msgs: seq<Msg>, err: Option<SqlError>)
    requires Consistent(lib, tx.db)
    modifies tx
    ensures err == None
    ensures ServicesStep(lib, cfg, old(tx.db), tx.db)
    ensures Elems(msgs) == Elems(msgs0) + Gather(ServicesMsgs(lib, cfg), cfg.services.Keys)
  {
    KeepWf(tx.db.services, cfg.services.Keys);
    var existing := DropServices(tx, lib, cfg.services.Keys);
    msgs, err := PutServices(tx, lib, cfg, existing, msgs0);
  }

  // ---- monitors ----

  ghost predicate MonitorsStep(lib: Lib, cfg: Config, db0: Store, db: Store) {
    && Settled(db0.monitors, db.monitors, MonitorTargets(lib, cfg))
    && db == db0.(monitors := db.monitors)
  }

  /** Loop over a YAML map whose values must be strings or integers. */
  method ReadScalars(at: Section, slug: string, field: string, m: map<string, Yaml>)
    returns (values: map<string, string>, msgs: seq<Msg>)
    ensures values == Scalars(m)
    ensures Elems(msgs) == BadScalars(at, slug, field, m)
  {
    values, msgs := map[], [];
    var done: set<string> := {};
    while done != m.Keys
      invariant done <= m.Keys
      invariant values == map k | k in m && k in done && Scalar(m[k]) :: ScalarText(m[k])
      invariant Elems(msgs) == BadScalarsIn(at, slug, field, m, done)
      decreases m.Keys - done
    {
      SomeLeft(m.Keys, done);
      var k :| k in m.Keys - done;
      assert BadScalarsIn(at, slug, field, m, done + {k}) ==
             BadScalarsIn(at, slug, field, m, done) + Need(Scalar(m[k]), Bad(at, slug, field, BadValue(k)));
      if Scalar(m[k]) {
        values := values[k := ScalarText(m[k])];
      } else {
        msgs := msgs + [Bad(at, slug, field, BadValue(k))];
      }
      done := done + {k};
    }
  }

  method ReadBody(lib: Lib, slug: string, body: Yaml)
    returns (format: Option<string>, text: Option<string>, msgs: seq<Msg>)
    ensures format == BodyFormat(body) && text == BodyText(lib, body)
    ensures Elems(msgs) == BodyMsgs(slug, body)
  {
    format, text, msgs := None, None, [];
    match body
    case Null =>
    case Map(m) =>
      var values;
      values, msgs := ReadScalars(Monitors, slug, "body", m);
      format, text := Some("form"), Some(lib.encodeForm(Singles(values)));
    case Str(t) =>
      format, text := Some("text"), Some(t);
    case _ =>
      msgs := [Bad(Monitors, slug, "body", Invalid)];
  }

  method Report(msgs: seq<Msg>, ok: bool, m: Msg) returns (msgs': seq<Msg>)
    ensures Elems(msgs') == Elems(msgs) + Need(ok, m)
  {
    msgs' := if ok then msgs else msgs + [m];
  }

  method CheckMonitor(lib: Lib, slug: string, v: MonitorCfg) returns (msgs: seq<Msg>)
    ensures Elems(msgs) == MonitorFieldMsgs(lib, slug, v)
  {
    msgs := if v.name == "" then [Bad(Monitors, slug, "name", Required)] else [];
    assert Elems(msgs) == Need(v.name != "", Bad(Monitors, slug, "name", Required));
    msgs := Report(msgs, v.url != "", Bad(Monitors, slug, "url", Required));
    msgs := Report(msgs, lib.validURL(v.url), Bad(Monitors, slug, "url", Invalid));
    msgs := Report(msgs, KnownMethod(lib, v.verb), Bad(Monitors, slug, "method", NotOneOf));
    msgs := Report(msgs, v.frequency == 10 || v.frequency == 30 || v.frequency == 60,
                   Bad(Monitors, slug, "frequency", NotOneOf));
    msgs := Report(msgs, v.timeout == 5 || v.timeout == 10 || v.timeout == 15,
                   Bad(Monitors, slug, "timeout", NotOneOf));
    msgs := Report(msgs, v.attempts == 1 || v.attempts == 2 || v.attempts == 3,
                   Bad(Monitors, slug, "attempts", NotOneOf));
  }

  method PutMonitor(lib: Lib, cfg: Config, slug: string, existing: map<string, Id>, t: Table<Monitor>,
                    ghost t0: Table<Monitor>, ghost done: set<string>)
    returns (err: Option<SqlError>, t': Table<Monitor>, msgs: seq<Msg>)
    requires slug in cfg.monitors && slug !in done
    requires Wf(t0) && Indexes(existing, t0) && Upserted(t0, t, MonitorTargets(lib, cfg), done)
    ensures err == None && Upserted(t0, t', MonitorTargets(lib, cfg), done + {slug})
    ensures Elems(msgs) == MonitorsMsgs(lib, cfg)[slug]
  {
    var v := cfg.monitors[slug];
    err, t' := None, t;
    if !Legal(lib, slug) {
      msgs := [BadSlug(Monitors, slug)];
      SkipStep(t0, t, MonitorTargets(lib, cfg), done, slug);
      return;
    }
    msgs := CheckMonitor(lib, slug, v);
    var format, text, found := ReadBody(lib, slug, v.body);
    ElemsAppend(msgs, found);
    msgs := msgs + found;
    var row := Monitor(v.name, v.url, lib.upper(v.verb), v.frequency, v.timeout, v.attempts, v.headers, format, text);
    var id;
    err, t', id := Upsert(t0, t, existing, slug, row, row, MonitorTargets(lib, cfg), done);
  }

  method ApplyMonitors(tx: Tx, lib: Lib, cfg: Config, msgs0: seq<Msg>)
    returns (msgs: seq<Msg>, err: Option<SqlError>)
    requires Wf(tx.db.monitors)
    modifies tx
    ensures err == None
    ensures MonitorsStep(lib, cfg, old(tx.db), tx.db)
    ensures Elems(msgs) == Elems(msgs0) + Gather(MonitorsMsgs(lib, cfg), cfg.monitors.Keys)
  {
    msgs, err := msgs0, None;
    ghost var db0, target := tx.db, MonitorTargets(lib, cfg);
    UpsertStart(tx.db.monitors, target);
    var existing := IndexOf(tx.db.monitors);
    var done: set<string> := {};
    while done != cfg.monitors.Keys && err == None
      invariant done <= cfg.monitors.Keys && err == None
      invariant tx.db == db0.(monitors := tx.db.monitors)
      invariant Upserted(db0.monitors, tx.db.monitors, target, done)
      invariant Elems(msgs) == Elems(msgs0) + Gather(MonitorsMsgs(lib, cfg), done)
      decreases cfg.monitors.Keys - done
    {
      SomeLeft(cfg.monitors.Keys, done);
      var slug :| slug in cfg.monitors.Keys - done;
      var t, found;
      err, t, found := PutMonitor(lib, cfg, slug, existing, tx.db.monitors, db0.monitors, done);
      tx.db := tx.db.(monitors := t);
      ElemsAppend(msgs, found);
      GatherStep(MonitorsMsgs(lib, cfg), done, slug);
      msgs, done := msgs + found, done + {slug};
    }
    UpsertDone(db0.monitors, tx.db.monitors, target, done);
  }

  // ---- notification channels ----

  ghost predicate ChannelsStep(lib: Lib, cfg: Config, db0: Store, db: Store)
    requires Wf(db0.channels)
  {
    var kept := Keep(db0.channels, cfg.channels.Keys);
    KeepWf(db0.channels, cfg.channels.Keys);
    && Settled(kept, db.channels, ChannelTargets(lib, cfg, kept))
    && db == CutChannels(db0, kept).(channels := db.channels)
  }

  method DropChannels(tx: Tx, lib: Lib, keys: set<string>) returns (existing: map<string, Id>)
    requires Consistent(lib, tx.db)
    modifies tx
    ensures tx.db == CutChannels(old(tx.db), Keep(old(tx.db).channels, keys))
    ensures Indexes(existing, Keep(old(tx.db).channels, keys))
  {
    ghost var db0 := tx.db;
    var listed := tx.db.channels;
    existing := map[];
    var todo := listed.Keys;
    CutNothing(lib, db0);
    DropStart(listed, keys);
    while todo != {}
      invariant todo <= listed.Keys
      invariant tx.db == CutChannels(db0, KeepOrTodo(listed, keys, todo))
      invariant IndexesSeen(existing, listed, keys, todo)
      decreases todo
    {
      var i :| i in todo;
      DropStep(listed, keys, todo, existing, i);
      if listed[i].slug !in keys {
        CutChannelsTwice(db0, tx.db.channels, tx.db.channels - {i});
        tx.db := DeleteChannel(tx.db, i);
      } else {
        existing := existing[listed[i].slug := i];
      }
      todo := todo - {i};
    }
    DropDone(listed, keys, existing);
  }

  method ReadText(slug: string, v: map<string, Yaml>, key: string, msgs0: seq<Msg>)
    returns (text: string, msgs: seq<Msg>)
    ensures text == TextAt(v, key)
    ensures Elems(msgs) == Elems(msgs0) + TextMsgs(slug, v, key)
  {
    text, msgs := "", msgs0;
    if key !in v {
      msgs := msgs + [Bad(Channels, slug, key, Required)];
    }
    if !(key in v && v[key].Str?) {
      msgs := msgs + [Bad(Channels, slug, key, Invalid)];
    } else {
      text := v[key].s;
      if text == "" {
        msgs := msgs + [Bad(Channels, slug, key, Required)];
      }
    }
  }

  method ReadPort(slug: string, v: map<string, Yaml>, msgs0: seq<Msg>) returns (port: int, msgs: seq<Msg>)
    ensures port == NumAt(v, "port")
    ensures Elems(msgs) == Elems(msgs0) + PortMsgs(slug, v)
  {
    port, msgs := 0, msgs0;
    if "port" !in v {
      msgs := msgs + [Bad(Channels, slug, "port", Required)];
    }
    if !("port" in v && v["port"].Num?) {
      msgs := msgs + [Bad(Channels, slug, "port", Invalid)];
    } else {
      port := v["port"].n;
      if port == 0 {
        msgs := msgs + [Bad(Channels, slug, "port", Required)];
      }
    }
  }

  method ReadMap(slug: string, v: map<string, Yaml>, key: string, msgs0: seq<Msg>)
    returns (values: map<string, string>, msgs: seq<Msg>)
    ensures values == Scalars(MapAt(v, key))
    ensures Elems(msgs) == Elems(msgs0) + MapMsgs(slug, v, key)
  {
    msgs := Report(msgs0, key in v ==> v[key].Map?, Bad(Channels, slug, key, Invalid));
    var found;
    values, found := ReadScalars(Channels, slug, key, MapAt(v, key));
    ElemsAppend(msgs, found);
    msgs := msgs + found;
  }

  method CheckProps(slug: string, v: map<string, Yaml>, known: set<string>) returns (msgs: seq<Msg>)
    ensures Elems(msgs) == UnknownProps(slug, v.Keys, known)
  {
    msgs := [];
    var done: set<string> := {};
    while done != v.Keys
      invariant done <= v.Keys
      invariant Elems(msgs) == UnknownProps(slug, done, known)
      decreases v.Keys - done
    {
      SomeLeft(v.Keys, done);
      var k :| k in v.Keys - done;
      assert UnknownProps(slug, done + {k}, known) ==
             UnknownProps(slug, done, known) + Need(k in known, Bad(Channels, slug, k, UnknownProperty(k)));
      if k !in known {
        msgs := msgs + [Bad(Channels, slug, k, UnknownProperty(k))];
      }
      done := done + {k};
    }
  }

  method ReadSlack(lib: Lib, slug: string, v: map<string, Yaml>) returns (details: Details, msgs: seq<Msg>)
    ensures details == SlackDetails(TextAt(v, "webhook-url"))
    ensures Elems(msgs) == SlackMsgs(lib, slug, v)
  {
    msgs := CheckProps(slug, v, SLACK_PROPS);
    var url;
    url, msgs := ReadText(slug, v, "webhook-url", msgs);
    msgs := Report(msgs, lib.validURL(url), Bad(Channels, slug, "webhook-url", Invalid));
    details := SlackDetails(url);
  }

  method CheckPostmark(lib: Lib, slug: string, v: map<string, Yaml>, misc: map<string, string>, msgs0: seq<Msg>)
    returns (msgs: seq<Msg>)
    requires misc == Scalars(MapAt(v, "misc"))
    ensures Elems(msgs) == Elems(msgs0) + PostmarkMsgs(lib, slug, v)
  {
    msgs := msgs0;
    if lib.equalFold(TextAt(v, "host"), "smtp.postmarkapp.com") {
      msgs := Report(msgs, "pm-transactional" in misc && misc["pm-transactional"] != "",
                     Bad(Channels, slug, "misc.pm-transactional", Required));
      msgs := Report(msgs, "pm-broadcast" in misc && misc["pm-broadcast"] != "",
                     Bad(Channels, slug, "misc.pm-broadcast", Required));
    }
  }

  method ReadSmtp(lib: Lib, slug: string, v: map<string, Yaml>) returns (details: Details, msgs: seq<Msg>)
    ensures details == SmtpDetails(TextAt(v, "host"), NumAt(v, "port"), TextAt(v, "username"), TextAt(v, "password"),
                                   TextAt(v, "from"), Scalars(MapAt(v, "headers")), Scalars(MapAt(v, "misc")))
    ensures Elems(msgs) == SmtpMsgs(lib, slug, v)
  {
    var host, port, username, password, from, headers, misc;
    msgs := CheckProps(slug, v, SMTP_PROPS);
    host, msgs := ReadText(slug, v, "host", msgs);
    port, msgs := ReadPort(slug, v, msgs);
    username, msgs := ReadText(slug, v, "username", msgs);
    password, msgs := ReadText(slug, v, "password", msgs);
    from, msgs := ReadText(slug, v, "from", msgs);
    msgs := Report(msgs, lib.address(from).Some?, Bad(Channels, slug, "from", BadAddress));
    headers, msgs := ReadMap(slug, v, "headers", msgs);
    misc, msgs := ReadMap(slug, v, "misc", msgs);
    msgs := CheckPostmark(lib, slug, v, misc, msgs);
    details := SmtpDetails(host, port, username, password, from, headers, misc);
  }

  /** The type switch, for a known type. */
  method ReadDetails(lib: Lib, slug: string, v: map<string, Yaml>, kind: string, msgs0: seq<Msg>)
    returns (details: Details, msgs: seq<Msg>)
    requires kind == TextAt(v, "type")
    ensures details == DetailsOf(v)
    ensures Elems(msgs) == Elems(msgs0) + if kind == SLACK then SlackMsgs(lib, slug, v) else SmtpMsgs(lib, slug, v)
  {
    var found;
    if kind == SLACK {
      details, found := ReadSlack(lib, slug, v);
    } else {
      details, found := ReadSmtp(lib, slug, v);
    }
    ElemsAppend(msgs0, found);
    msgs := msgs0 + found;
  }

  /** Everything between the slug check and the write; `write` is false when the
      unknown type makes the code skip the entry. */
  method ReadChannel(lib: Lib, slug: string, v: map<string, Yaml>)
    returns (channel: Channel, write: bool, msgs: seq<Msg>)
    requires Legal(lib, slug)
    ensures write == KindOk(v) && (write ==> channel == ChannelOf(v))
    ensures Elems(msgs) == ChannelMsgs(lib, slug, v)
  {
    var kind, name, details;
    kind, msgs := ReadText(slug, v, "type", []);
    write := KnownKind(kind);
    if !write {
      msgs := msgs + [Bad(Channels, slug, "type", NotOneOf)];
      channel := Channel("", kind, NoDetails);
      return;
    }
    name, msgs := ReadText(slug, v, "name", msgs);
    details, msgs := ReadDetails(lib, slug, v, kind, msgs);
    channel := Channel(name, kind, details);
  }

  method PutChannel(lib: Lib, cfg: Config, slug: string, existing: map<string, Id>, t: Table<Channel>,
                    ghost kept: Table<Channel>, ghost done: set<string>)
    returns (err: Option<SqlError>, t': Table<Channel>, msgs: seq<Msg>)
    requires slug in cfg.channels && slug !in done
    requires Wf(kept) && Indexes(existing, kept) && Upserted(kept, t, ChannelTargets(lib, cfg, kept), done)
    ensures err == None && Upserted(kept, t', ChannelTargets(lib, cfg, kept), done + {slug})
    ensures Elems(msgs) == ChannelsMsgs(lib, cfg)[slug]
  {
    ghost var target := ChannelTargets(lib, cfg, kept);
    err, t' := None, t;
    if !Legal(lib, slug) {
      msgs := [BadSlug(Channels, slug)];
      SkipStep(kept, t, target, done, slug);
      return;
    }
    var channel, write;
    channel, write, msgs := ReadChannel(lib, slug, cfg.channels[slug]);
    if !write {
      SkipStep(kept, t, target, done, slug);
      return;
    }
    // The edit statement leaves the type column alone.
    var edited := channel;
    if slug in existing {
      assert kept[existing[slug]].slug == slug;
      assert existing[slug] in t && t[existing[slug]].f.kind == View(kept)[slug].kind;
      edited := channel.(kind := t[existing[slug]].f.kind);
    }
    err := if KnownKind(channel.kind) then None else Some(Check);
    if err == None {
      var id;
      err, t', id := Upsert(kept, t, existing, slug, edited, channel, target, done);
    }
  }

  method PutChannels(tx: Tx, lib: Lib, cfg: Config, existing: map<string, Id>, msgs0: seq<Msg>)
    returns (msgs: seq<Msg>, err: Option<SqlError>)
    requires Wf(tx.db.channels) && Indexes(existing, tx.db.channels)
    modifies tx
    ensures err == None
    ensures Settled(old(tx.db).channels, tx.db.channels, ChannelTargets(lib, cfg, old(tx.db).channels))
    ensures tx.db == old(tx.db).(channels := tx.db.channels)
    ensures Elems(msgs) == Elems(msgs0) + Gather(ChannelsMsgs(lib, cfg), cfg.channels.Keys)
  {
    msgs, err := msgs0, None;
    ghost var db0, target := tx.db, ChannelTargets(lib, cfg, tx.db.channels);
    UpsertStart(tx.db.channels, target);
    var done: set<string> := {};
    while done != cfg.channels.Keys && err == None
      invariant done <= cfg.channels.Keys && err == None
      invariant tx.db == db0.(channels := tx.db.channels)
      invariant Upserted(db0.channels, tx.db.channels, target, done)
      invariant Elems(msgs) == Elems(msgs0) + Gather(ChannelsMsgs(lib, cfg), done)
      decreases cfg.channels.Keys - done
    {
      SomeLeft(cfg.channels.Keys, done);
      var slug :| slug in cfg.channels.Keys - done;
      var t, found;
      err, t, found := PutChannel(lib, cfg, slug, existing, tx.db.channels, db0.channels, done);
      tx.db := tx.db.(channels := t);
      ElemsAppend(msgs, found);
      GatherStep(ChannelsMsgs(lib, cfg), done, slug);
      msgs, done := msgs + found, done + {slug};
    }
    UpsertDone(db0.channels, tx.db.channels, target, done);
  }

  method ApplyNotificationChannels(tx: Tx, lib: Lib, cfg: Config, msgs0: seq<Msg>)
    returns (msgs: seq<Msg>, err: Option<SqlError>)
    requires Consistent(lib, tx.db)
    modifies tx
    ensures err == None
    ensures ChannelsStep(lib, cfg, old(tx.db), tx.db)
    ensures Elems(msgs) == Elems(msgs0) + Gather(ChannelsMsgs(lib, cfg), cfg.channels.Keys)
  {
    KeepWf(tx.db.channels, cfg.channels.Keys);
    var existing := DropChannels(tx, lib, cfg.channels.Keys);
    msgs, err := PutChannels(tx, lib, cfg, existing, msgs0);
  }

  // ---- mail groups ----

  /** The member rows once the groups with slugs in `done` were written: theirs are
      the first spellings of the declared list, the others are those of `m0`. */
  ghost function MembersFor(lib: Lib, cfg: Config, m0: set<(Id, string)>, t: Table<Group>, done: set<string>)
    : set<(Id, string)>
  {
    (set p | p in m0 && p.0 in t && !Rewritten(lib, cfg, t[p.0].slug, done))
    + (set i, e | i in t && Rewritten(lib, cfg, t[i].slug, done)
                  && e in FirstSpellings(lib, cfg.groups[t[i].slug].members) :: (i, e))
  }

  predicate Rewritten(lib: Lib, cfg: Config, slug: string, done: set<string>) {
    slug in done && slug in cfg.groups && Legal(lib, slug)
  }

  ghost predicate GroupsStep(lib: Lib, cfg: Config, db0: Store, db: Store) {
    var kept := Keep(db0.groups, cfg.groups.Keys);
    && Settled(kept, db.groups, GroupTargets(lib, cfg))
    && db == CutGroups(db0, kept).(groups := db.groups, members := db.members)
    && db.members == MembersFor(lib, cfg, CutGroups(db0, kept).members, db.groups, cfg.groups.Keys)
  }

  method DropGroups(tx: Tx, lib: Lib, keys: set<string>) returns (existing: map<string, Id>)
    requires Consistent(lib, tx.db)
    modifies tx
    ensures tx.db == CutGroups(old(tx.db), Keep(old(tx.db).groups, keys))
    ensures Indexes(existing, Keep(old(tx.db).groups, keys))
  {
    ghost var db0 := tx.db;
    var listed := tx.db.groups;
    existing := map[];
    var todo := listed.Keys;
    CutNothing(lib, db0);
    DropStart(listed, keys);
    while todo != {}
      invariant todo <= listed.Keys
      invariant tx.db == CutGroups(db0, KeepOrTodo(listed, keys, todo))
      invariant IndexesSeen(existing, listed, keys, todo)
      decreases todo
    {
      var i :| i in todo;
      DropStep(listed, keys, todo, existing, i);
      if listed[i].slug !in keys {
        CutGroupsTwice(db0, tx.db.groups, tx.db.groups - {i});
        tx.db := DeleteGroup(tx.db, i);
      } else {
        existing := existing[listed[i].slug := i];
      }
      todo := todo - {i};
    }
    DropDone(listed, keys, existing);
  }

  lemma MemberMsgsStep(lib: Lib, slug: string, members: seq<string>, n: nat)
    requires n < |members|
    ensures MemberMsgs(lib, slug, members[..n + 1]) ==
            MemberMsgs(lib, slug, members[..n])
            + Need(MemberKey(lib, members[n]).Some?, Bad(Groups, slug, "members", BadEmail(members[n])))
            + Need(!Repeats(lib, members, n), Bad(Groups, slug, "members", Duplicated(members[n])))
  {
  }

  function SeenKeys(lib: Lib, members: seq<string>, n: nat): set<string>
    requires n <= |members|
  {
    set j | 0 <= j < n && MemberKey(lib, members[j]).Some? :: MemberKey(lib, members[j]).value
  }

  method CheckMember(lib: Lib, slug: string, members: seq<string>, n: nat, unique: set<string>)
    returns (msgs: seq<Msg>, unique': set<string>)
    requires n < |members|
    requires unique == SeenKeys(lib, members, n)
    ensures Elems(msgs) == Need(MemberKey(lib, members[n]).Some?, Bad(Groups, slug, "members", BadEmail(members[n])))
                           + Need(!Repeats(lib, members, n), Bad(Groups, slug, "members", Duplicated(members[n])))
    ensures unique' == SeenKeys(lib, members, n + 1)
  {
    var key := MemberKey(lib, members[n]);
    msgs, unique' := [], unique;
    assert SeenKeys(lib, members, n + 1) == SeenKeys(lib, members, n) + if key.Some? then {key.value} else {};
    if key.None? {
      msgs := [Bad(Groups, slug, "members", BadEmail(members[n]))];
    } else {
      if key.value in unique {
        msgs := [Bad(Groups, slug, "members", Duplicated(members[n]))];
      }
      unique' := unique + {key.value};
    }
  }

  /** The member loop: addresses already seen are kept in a set. */
  method CheckMembers(lib: Lib, slug: string, members: seq<string>) returns (msgs: seq<Msg>)
    ensures Elems(msgs) == MemberMsgs(lib, slug, members)
  {
    msgs := [];
    var unique: set<string> := {};
    for n := 0 to |members|
      invariant Elems(msgs) == MemberMsgs(lib, slug, members[..n])
      invariant unique == SeenKeys(lib, members, n)
    {
      MemberMsgsStep(lib, slug, members, n);
      var found;
      found, unique := CheckMember(lib, slug, members, n, unique);
      ElemsAppend(msgs, found);
      msgs := msgs + found;
    }
    assert members[..|members|] == members;
  }

  method CheckGroup(lib: Lib, slug: string, v: GroupCfg) returns (msgs: seq<Msg>)
    ensures Elems(msgs) == GroupMsgs(lib, slug, v)
  {
    if !Legal(lib, slug) {
      msgs := [BadSlug(Groups, slug)];
      return;
    }
    msgs := Report([], v.name != "", Bad(Groups, slug, "name", Required));
    var found := CheckMembers(lib, slug, v.members);
    ElemsAppend(msgs, found);
    msgs := msgs + found;
  }

  predicate SpeltIn(lib: Lib, emails: set<string>, email: string) {
    exists e :: e in emails && lib.nocase(e) == lib.nocase(email)
  }

  lemma FirstSpellingsStep(lib: Lib, members: seq<string>, n: nat)
    requires n < |members|
    ensures FirstSpellings(lib, members[..n + 1]) ==
            FirstSpellings(lib, members[..n])
            + if SpeltIn(lib, FirstSpellings(lib, members[..n]), members[n])
              then {} else {members[n]}
  {
    var a, b := members[..n], members[..n + 1];
    forall i | 0 <= i < n ensures a[i] == b[i] {}
    FirstSpellingsCover(lib, a);
    var isNew := forall j :: 0 <= j < n ==> lib.nocase(b[j]) != lib.nocase(b[n]);
    assert isNew <==> !SpeltIn(lib, FirstSpellings(lib, a), members[n]);
    assert FirstSpellings(lib, b) == FirstSpellings(lib, a) + if isNew then {b[n]} else {};
  }

  lemma {:induction false} FirstSpellingsCover(lib: Lib, members: seq<string>)
    ensures forall j :: 0 <= j < |members| ==> SpeltIn(lib, FirstSpellings(lib, members), members[j])
  {
    forall j | 0 <= j < |members| ensures SpeltIn(lib, FirstSpellings(lib, members), members[j]) {
      var i := FirstLike(lib, members, j);
      assert members[i] in FirstSpellings(lib, members);
    }
  }

  lemma {:induction false} FirstLike(lib: Lib, members: seq<string>, j: nat) returns (i: nat)
    requires j < |members|
    ensures i <= j && lib.nocase(members[i]) == lib.nocase(members[j])
    ensures forall k :: 0 <= k < i ==> lib.nocase(members[k]) != lib.nocase(members[i])
  {
    if k: nat :| k < j && lib.nocase(members[k]) == lib.nocase(members[j]) {
      i := FirstLike(lib, members, k);
    } else {
      i := j;
    }
  }

  function WithMembers(members: set<(Id, string)>, group: Id, emails: set<string>): set<(Id, string)> {
    (set p | p in members && p.0 != group) + (set e | e in emails :: (group, e))
  }

  /** updateMailGroupMembers: delete all, then insert one by one. */
  method ReplaceMembers(lib: Lib, db: Store, group: Id, members: seq<string>)
    returns (err: Option<SqlError>, db': Store)
    ensures group in db.groups ==>
              err == None && db' == db.(members := WithMembers(db.members, group, FirstSpellings(lib, members)))
  {
    err := None;
    db' := db.(members := WithMembers(db.members, group, {}));
    var n := 0;
    while n < |members| && err == None
      invariant 0 <= n <= |members|
      invariant group in db.groups ==>
                  && err == None
                  && db' == db.(members := WithMembers(db.members, group, FirstSpellings(lib, members[..n])))
    {
      FirstSpellingsStep(lib, members, n);
      ghost var first := FirstSpellings(lib, members[..n]);
      if group in db.groups {
        MemberTaken(lib, db, group, first, members[n]);
      }
      var r := AddMember(lib, db', group, members[n]);
      err, db' := r.0, r.1;
      n := n + 1;
    }
    assert group in db.groups ==> members[..n] == members;
  }

  lemma MemberTaken(lib: Lib, db: Store, group: Id, first: set<string>, email: string)
    ensures var m := WithMembers(db.members, group, first);
            && ((exists p :: p in m && p.0 == group && lib.nocase(p.1) == lib.nocase(email)) <==>
                SpeltIn(lib, first, email))
            && m + {(group, email)} == WithMembers(db.members, group, first + {email})
  {
    var m := WithMembers(db.members, group, first);
    if e :| e in first && lib.nocase(e) == lib.nocase(email) {
      assert (group, e) in m;
    }
  }

  /** Writing one group moves MembersFor on by its slug. */
  lemma MembersForStep(lib: Lib, cfg: Config, m0: set<(Id, string)>, t: Table<Group>, t': Table<Group>,
                       done: set<string>, slug: string, id: Id)
    requires slug in cfg.groups && Legal(lib, slug) && slug !in done
    requires Wf(t') && id in t' && t'[id].slug == slug && (id in t ==> t[id].slug == slug)
    requires t' == t[id := t'[id]]
    requires forall p :: p in m0 ==> p.0 in t
    ensures WithMembers(MembersFor(lib, cfg, m0, t, done), id, FirstSpellings(lib, cfg.groups[slug].members)) ==
            MembersFor(lib, cfg, m0, t', done + {slug})
  {
  }

  lemma MembersForSkip(lib: Lib, cfg: Config, m0: set<(Id, string)>, t: Table<Group>, done: set<string>, slug: string)
    requires !Legal(lib, slug)
    ensures MembersFor(lib, cfg, m0, t, done + {slug}) == MembersFor(lib, cfg, m0, t, done)
  {
  }

  method PutGroup(lib: Lib, cfg: Config, slug: string, existing: map<string, Id>, db: Store,
                  ghost kept: Table<Group>, ghost m0: set<(Id, string)>, ghost done: set<string>)
    returns (err: Option<SqlError>, db': Store, msgs: seq<Msg>)
    requires slug in cfg.groups && slug !in done
    requires Wf(kept) && Indexes(existing, kept) && Upserted(kept, db.groups, GroupTargets(lib, cfg), done)
    requires forall p :: p in m0 ==> p.0 in kept
    requires db.members == MembersFor(lib, cfg, m0, db.groups, done)
    ensures err == None
    ensures db' == db.(groups := db'.groups, members := db'.members)
    ensures Upserted(kept, db'.groups, GroupTargets(lib, cfg), done + {slug})
    ensures db'.members == MembersFor(lib, cfg, m0, db'.groups, done + {slug})
    ensures Elems(msgs) == GroupsMsgs(lib, cfg)[slug]
  {
    var v := cfg.groups[slug];
    err, db' := None, db;
    msgs := CheckGroup(lib, slug, v);
    if !Legal(lib, slug) {
      SkipStep(kept, db.groups, GroupTargets(lib, cfg), done, slug);
      MembersForSkip(lib, cfg, m0, db.groups, done, slug);
      return;
    }
    var row := Group(v.name, v.description);
    var t, id;
    err, t, id := Upsert(kept, db.groups, existing, slug, row, row, GroupTargets(lib, cfg), done);
    if err == None {
      err, db' := ReplaceMembers(lib, db.(groups := t), id, v.members);
      MembersForStep(lib, cfg, m0, db.groups, t, done, slug, id);
    }
  }

  method PutGroups(tx: Tx, lib: Lib, cfg: Config, existing: map<string, Id>, msgs0: seq<Msg>)
    returns (msgs: seq<Msg>, err: Option<SqlError>)
    requires Wf(tx.db.groups) && Indexes(existing, tx.db.groups)
    requires forall p :: p in tx.db.members ==> p.0 in tx.db.groups
    modifies tx
    ensures err == None
    ensures Settled(old(tx.db).groups, tx.db.groups, GroupTargets(lib, cfg))
    ensures tx.db == old(tx.db).(groups := tx.db.groups, members := tx.db.members)
    ensures tx.db.members == MembersFor(lib, cfg, old(tx.db).members, tx.db.groups, cfg.groups.Keys)
    ensures Elems(msgs) == Elems(msgs0) + Gather(GroupsMsgs(lib, cfg), cfg.groups.Keys)
  {
    msgs, err := msgs0, None;
    ghost var db0, target := tx.db, GroupTargets(lib, cfg);
    UpsertStart(tx.db.groups, target);
    assert MembersFor(lib, cfg, db0.members, db0.groups, {}) == db0.members;
    var done: set<string> := {};
    while done != cfg.groups.Keys && err == None
      invariant done <= cfg.groups.Keys && err == None
      invariant tx.db == db0.(groups := tx.db.groups, members := tx.db.members)
      invariant Upserted(db0.groups, tx.db.groups, target, done)
      invariant tx.db.members == MembersFor(lib, cfg, db0.members, tx.db.groups, done)
      invariant Elems(msgs) == Elems(msgs0) + Gather(GroupsMsgs(lib, cfg), done)
      decreases cfg.groups.Keys - done
    {
      SomeLeft(cfg.groups.Keys, done);
      var slug :| slug in cfg.groups.Keys - done;
      var db, found;
      err, db, found := PutGroup(lib, cfg, slug, existing, tx.db, db0.groups, db0.members, done);
      tx.db := db;
      ElemsAppend(msgs, found);
      GatherStep(GroupsMsgs(lib, cfg), done, slug);
      msgs, done := msgs + found, done + {slug};
    }
    UpsertDone(db0.groups, tx.db.groups, target, done);
  }

  method ApplyMailGroups(tx: Tx, lib: Lib, cfg: Config, msgs0: seq<Msg>)
    returns (msgs: seq<Msg>, err: Option<SqlError>)
    requires Consistent(lib, tx.db)
    modifies tx
    ensures err == None
    ensures GroupsStep(lib, cfg, old(tx.db), tx.db)
    ensures Elems(msgs) == Elems(msgs0) + Gather(GroupsMsgs(lib, cfg), cfg.groups.Keys)
  {
    KeepWf(tx.db.groups, cfg.groups.Keys);
    var existing := DropGroups(tx, lib, cfg.groups.Keys);
    msgs, err := PutGroups(tx, lib, cfg, existing, msgs0);
  }
}
