/** Exporting a store and applying the export to that store. */
module RoundTrip {
  import opened Prelude
  import opened SlugGrammar
  import opened Tables
  import opened Store
  import opened Config
  import opened Acceptance
  import opened Reconciler
  import opened References
  import opened Apply
  import opened Convergence
  import opened Generate

  // ---- stores whose export is accepted ----

  predicate ExportableMonitor(lib: Lib, m: Monitor) {
    && m.name != "" && m.url != "" && lib.validURL(m.url) && KnownMethod(lib, m.verb)
    && m.frequency in {10, 30, 60} && m.timeout in {5, 10, 15} && m.attempts in {1, 2, 3}
  }

  predicate ExportableSmtp(lib: Lib, d: Details)
    requires d.SmtpDetails?
  {
    && d.host != "" && d.port != 0 && d.username != "" && d.password != ""
    && d.sender != "" && lib.address(d.sender).Some?
    && (lib.equalFold(d.host, "smtp.postmarkapp.com") ==>
          && "pm-transactional" in d.misc && d.misc["pm-transactional"] != ""
          && "pm-broadcast" in d.misc && d.misc["pm-broadcast"] != "")
  }

  predicate ExportableChannel(lib: Lib, c: Channel) {
    && c.name != ""
    && if c.kind == SMTP then ExportableSmtp(lib, SmtpOf(c.details))
       else WebhookOf(c.details) != "" && lib.validURL(WebhookOf(c.details))
  }

  ghost predicate ExportableEmails(lib: Lib, emails: set<string>) {
    && (forall e :: e in emails ==> lib.address(e).Some?)
    && (forall e, f :: e in emails && f in emails && MemberKey(lib, e) == MemberKey(lib, f) ==> e == f)
  }

  ghost predicate ExportableServices(lib: Lib, db: Store) {
    forall i :: i in db.services ==> Legal(lib, db.services[i].slug) && db.services[i].f.name != ""
  }

  ghost predicate ExportableMonitors(lib: Lib, db: Store) {
    forall i :: i in db.monitors ==> Legal(lib, db.monitors[i].slug) && ExportableMonitor(lib, db.monitors[i].f)
  }

  ghost predicate ExportableChannels(lib: Lib, db: Store) {
    forall i :: i in db.channels ==> Legal(lib, db.channels[i].slug) && ExportableChannel(lib, db.channels[i].f)
  }

  ghost predicate ExportableGroups(lib: Lib, db: Store) {
    forall i :: i in db.groups ==>
      Legal(lib, db.groups[i].slug) && db.groups[i].f.name != "" && ExportableEmails(lib, EmailsOf(db, i))
  }

  /** A condition on the store alone: names present, slugs legal, every field as
      the config file requires it. */
  ghost predicate Exportable(lib: Lib, db: Store, name: string) {
    && name != ""
    && ExportableServices(lib, db) && ExportableMonitors(lib, db)
    && ExportableChannels(lib, db) && ExportableGroups(lib, db)
  }

  // ---- the export is clean exactly when the store is exportable ----

  lemma KeyedKeys<F, V>(t: Table<F>, m: map<string, V>)
    requires KeyedBy(t, {}, m)
    ensures m.Keys == Slugs(t)
    ensures forall s :: s in m ==> exists i :: i in t && t[i].slug == s
  {
  }

  lemma ServicesExport(lib: Lib, db: Store, cfg: Config)
    requires ServicesListed(db, {}, cfg.services)
    ensures GoodServices(lib, cfg) <==> ExportableServices(lib, db)
  {
  }

  lemma MonitorExport(lib: Lib, m: Monitor, v: MonitorCfg)
    requires BodyYaml(lib, m).Some?
    requires v == MonitorCfg(m.name, m.url, m.verb, m.frequency, m.timeout, m.attempts, m.headers,
                             BodyYaml(lib, m).value, v.channels, v.groups)
    ensures GoodMonitor(lib, v) <==> ExportableMonitor(lib, m)
  {
  }

  lemma MonitorsExport(lib: Lib, db: Store, cfg: Config)
    requires MonitorsListed(lib, db, {}, cfg.monitors)
    ensures GoodMonitors(lib, cfg) <==> ExportableMonitors(lib, db)
  {
    KeyedKeys(db.monitors, cfg.monitors);
    forall i | i in db.monitors
      ensures db.monitors[i].slug in cfg.monitors
      ensures GoodMonitor(lib, cfg.monitors[db.monitors[i].slug]) <==> ExportableMonitor(lib, db.monitors[i].f)
    {
      MonitorExport(lib, db.monitors[i].f, cfg.monitors[db.monitors[i].slug]);
    }
  }

  lemma TextsScalar(m: map<string, string>)
    ensures Scalars(Texts(m)) == m && forall k :: k in Texts(m) ==> Scalar(Texts(m)[k])
  {
  }

  lemma WithMapAt(v: map<string, Yaml>, key: string, m: map<string, string>)
    requires key !in v
    ensures Scalars(MapAt(WithMap(v, key, m), key)) == m && ScalarMapIfPresent(WithMap(v, key, m), key)
    ensures WithMap(v, key, m).Keys <= v.Keys + {key} && v.Keys <= WithMap(v, key, m).Keys
    ensures forall k :: k != key ==> (k in WithMap(v, key, m) <==> k in v)
    ensures forall k :: k in v ==> k in WithMap(v, key, m) && WithMap(v, key, m)[k] == v[k]
  {
  }

  lemma SmtpFields(name: string, d: Details)
    requires d.SmtpDetails?
    ensures var v := SmtpYaml(name, d);
            && v.Keys <= SMTP_PROPS && TextAt(v, "type") == SMTP && TextAt(v, "name") == name
            && "type" in v && v["type"] == Str(SMTP) && "name" in v && v["name"] == Str(name)
            && "host" in v && v["host"] == Str(d.host) && "port" in v && v["port"] == Num(d.port)
            && "username" in v && v["username"] == Str(d.username)
            && "password" in v && v["password"] == Str(d.password)
            && "from" in v && v["from"] == Str(d.sender)
            && Scalars(MapAt(v, "headers")) == d.headers && ScalarMapIfPresent(v, "headers")
            && Scalars(MapAt(v, "misc")) == d.misc && ScalarMapIfPresent(v, "misc")
  {
    var base := map["type" := Str(SMTP), "name" := Str(name), "host" := Str(d.host), "port" := Num(d.port),
                    "username" := Str(d.username), "password" := Str(d.password), "from" := Str(d.sender)];
    var h := WithMap(base, "headers", d.headers);
    WithMapAt(base, "headers", d.headers);
    WithMapAt(h, "misc", d.misc);
  }

  lemma SlackFields(name: string, url: string)
    ensures var v := SlackYaml(name, url);
            && v.Keys <= SLACK_PROPS && TextAt(v, "type") == SLACK && TextAt(v, "name") == name
            && "type" in v && v["type"] == Str(SLACK) && "name" in v && v["name"] == Str(name)
            && "webhook-url" in v && v["webhook-url"] == Str(url)
  {
  }

  lemma ChannelExport(lib: Lib, c: Channel)
    requires KnownKind(c.kind)
    ensures GoodChannel(lib, ChannelYaml(c)) <==> ExportableChannel(lib, c)
    ensures ExportableChannel(lib, c) ==> ChannelOf(ChannelYaml(c)) == c && KindOk(ChannelYaml(c))
  {
    assert SMTP != SLACK && SMTP != "" && SLACK != "";
    if c.kind == SMTP {
      SmtpFields(c.name, SmtpOf(c.details));
      SmtpGood(lib, c.name, SmtpOf(c.details));
    } else {
      SlackFields(c.name, WebhookOf(c.details));
    }
  }

  lemma SmtpGood(lib: Lib, name: string, d: Details)
    requires d.SmtpDetails?
    ensures GoodSmtp(lib, SmtpYaml(name, d)) <==> ExportableSmtp(lib, d)
  {
    SmtpFields(name, d);
  }

  lemma ChannelsExport(lib: Lib, db: Store, cfg: Config)
    requires ChannelsListed(db, {}, cfg.channels) && forall i :: i in db.channels ==> KnownKind(db.channels[i].f.kind)
    ensures GoodChannels(lib, cfg) <==> ExportableChannels(lib, db)
  {
    KeyedKeys(db.channels, cfg.channels);
    forall i | i in db.channels
      ensures db.channels[i].slug in cfg.channels
      ensures GoodChannel(lib, cfg.channels[db.channels[i].slug]) <==> ExportableChannel(lib, db.channels[i].f)
    {
      ChannelExport(lib, db.channels[i].f);
    }
  }

  lemma EmailsExport(lib: Lib, members: seq<string>, emails: set<string>)
    requires IsOrder(members, emails)
    ensures GoodMembers(lib, members) <==> ExportableEmails(lib, emails)
  {
  }

  lemma GroupsExport(lib: Lib, db: Store, cfg: Config)
    requires GroupsListed(db, {}, cfg.groups)
    ensures GoodGroups(lib, cfg) <==> ExportableGroups(lib, db)
  {
    KeyedKeys(db.groups, cfg.groups);
    forall i | i in db.groups
      ensures db.groups[i].slug in cfg.groups && cfg.groups[db.groups[i].slug].name == db.groups[i].f.name
      ensures GoodMembers(lib, cfg.groups[db.groups[i].slug].members) <==> ExportableEmails(lib, EmailsOf(db, i))
    {
      EmailsExport(lib, cfg.groups[db.groups[i].slug].members, EmailsOf(db, i));
    }
  }

  lemma NamesGood(names: seq<string>, slugs: set<string>, known: set<string>)
    requires IsOrder(names, slugs) && slugs <= known
    ensures GoodNames(names, known)
  {
  }

  lemma LinksExport(lib: Lib, db: Store, cfg: Config, i: Id)
    requires MonitorsListed(lib, db, {}, cfg.monitors) && i in db.monitors
    ensures db.monitors[i].slug in cfg.monitors
    ensures GoodNames(cfg.monitors[db.monitors[i].slug].channels, Slugs(db.channels))
    ensures GoodNames(cfg.monitors[db.monitors[i].slug].groups, Slugs(db.groups))
  {
    var v := cfg.monitors[db.monitors[i].slug];
    NamesGood(v.channels, LinkedSlugs(db.channelLinks, db.channels, i), Slugs(db.channels));
    NamesGood(v.groups, LinkedSlugs(db.groupLinks, db.groups, i), Slugs(db.groups));
  }

  lemma RefsExport(lib: Lib, db: Store, name: string, cfg: Config)
    requires Generated(lib, db, name, cfg)
    ensures GoodLinks(cfg, cfg.channels.Keys, cfg.groups.Keys) && GoodEmailChannel(cfg, cfg.channels.Keys)
  {
    KeyedKeys(db.monitors, cfg.monitors);
    KeyedKeys(db.channels, cfg.channels);
    KeyedKeys(db.groups, cfg.groups);
    forall s | s in cfg.monitors
      ensures GoodNames(cfg.monitors[s].channels, Slugs(db.channels))
      ensures GoodNames(cfg.monitors[s].groups, Slugs(db.groups))
    {
      var i :| i in db.monitors && db.monitors[i].slug == s;
      LinksExport(lib, db, cfg, i);
    }
  }

  lemma ExportClean(lib: Lib, db: Store, name: string, cfg: Config)
    requires Consistent(lib, db) && Generated(lib, db, name, cfg)
    ensures CleanConfig(lib, cfg) <==> Exportable(lib, db, name)
  {
    ServicesExport(lib, db, cfg);
    MonitorsExport(lib, db, cfg);
    ChannelsExport(lib, db, cfg);
    GroupsExport(lib, db, cfg);
    RefsExport(lib, db, name, cfg);
  }

  // ---- what applying the export does ----

  /** A monitor after its export is applied: the method in upper case, and the
      body as the file carries it. */
  function NormalMonitor(lib: Lib, m: Monitor): Monitor {
    if BodyYaml(lib, m).None? then m
    else m.(verb := lib.upper(m.verb), bodyFormat := BodyFormat(BodyYaml(lib, m).value),
            body := BodyText(lib, BodyYaml(lib, m).value))
  }

  function NormalMonitors(lib: Lib, t: Table<Monitor>): Table<Monitor> {
    map i | i in t :: Row(t[i].slug, NormalMonitor(lib, t[i].f))
  }

  function Normal(lib: Lib, db: Store, name: string): Store {
    db.(name := name, monitors := NormalMonitors(lib, db.monitors))
  }

  lemma KeepAll<F>(t: Table<F>)
    ensures Keep(t, Slugs(t)) == t
  {
  }

  /** When the targets name exactly the slugs of a table, settling rewrites each
      row in place and creates none. */
  lemma SettledInPlace<F>(t0: Table<F>, t: Table<F>, target: map<string, F>)
    requires Wf(t0) && Settled(Keep(t0, target.Keys), t, target) && target.Keys == Slugs(t0)
    ensures Keep(t0, target.Keys) == t0
    ensures t == map i | i in t0 :: Row(t0[i].slug, target[t0[i].slug])
  {
    forall i | i in t0 ensures t0[i].slug in target {
      assert t0[i].slug in Slugs(t0);
    }
    assert Keep(t0, target.Keys) == t0;
    SettledSlugs(t0, t, target);
    forall i | i in t ensures i in t0 {
      assert t[i].slug in Slugs(t);
    }
  }

  lemma SettledUnchanged<F>(t0: Table<F>, t: Table<F>, target: map<string, F>)
    requires Wf(t0) && Settled(t0, t, target) && target.Keys == Slugs(t0)
    requires forall i :: i in t0 ==> target[t0[i].slug] == t0[i].f
    ensures t == t0
  {
  }

  lemma SameServices(lib: Lib, db: Store, cfg: Config, t: Table<Service>)
    requires Wf(db.services) && ServicesListed(db, {}, cfg.services)
    requires forall s :: s in cfg.services ==> Legal(lib, s)
    requires Settled(Keep(db.services, cfg.services.Keys), t, ServiceTargets(lib, cfg))
    ensures Keep(db.services, cfg.services.Keys) == db.services == t
  {
    KeyedKeys(db.services, cfg.services);
    assert ServiceTargets(lib, cfg).Keys == cfg.services.Keys;
    SettledInPlace(db.services, t, ServiceTargets(lib, cfg));
  }

  lemma SameGroups(lib: Lib, db: Store, cfg: Config, t: Table<Group>)
    requires Wf(db.groups) && GroupsListed(db, {}, cfg.groups)
    requires forall s :: s in cfg.groups ==> Legal(lib, s)
    requires Settled(Keep(db.groups, cfg.groups.Keys), t, GroupTargets(lib, cfg))
    ensures Keep(db.groups, cfg.groups.Keys) == db.groups == t
  {
    KeyedKeys(db.groups, cfg.groups);
    assert GroupTargets(lib, cfg).Keys == cfg.groups.Keys;
    SettledInPlace(db.groups, t, GroupTargets(lib, cfg));
  }

  /** The export asks a channel for what it already is. */
  lemma ChannelTargetSame(lib: Lib, db: Store, cfg: Config, i: Id)
    requires Wf(db.channels) && ChannelsListed(db, {}, cfg.channels) && i in db.channels
    requires Legal(lib, db.channels[i].slug) && KnownKind(db.channels[i].f.kind)
    requires ExportableChannel(lib, db.channels[i].f)
    ensures db.channels[i].slug in ChannelTargets(lib, cfg, db.channels)
    ensures ChannelTargets(lib, cfg, db.channels)[db.channels[i].slug] == db.channels[i].f
  {
    ChannelExport(lib, db.channels[i].f);
    assert View(db.channels)[db.channels[i].slug] == db.channels[i].f;
  }

  lemma ChannelTargetsSame(lib: Lib, db: Store, cfg: Config)
    requires Wf(db.channels) && ChannelsListed(db, {}, cfg.channels) && ExportableChannels(lib, db)
    requires forall i :: i in db.channels ==> KnownKind(db.channels[i].f.kind)
    ensures var target := ChannelTargets(lib, cfg, db.channels);
            && target.Keys == cfg.channels.Keys == Slugs(db.channels)
            && forall i :: i in db.channels ==> target[db.channels[i].slug] == db.channels[i].f
  {
    KeyedKeys(db.channels, cfg.channels);
    var target := ChannelTargets(lib, cfg, db.channels);
    forall i | i in db.channels
      ensures db.channels[i].slug in target && target[db.channels[i].slug] == db.channels[i].f
    {
      ChannelTargetSame(lib, db, cfg, i);
    }
    forall s | s in cfg.channels ensures s in target {
      var i :| i in db.channels && db.channels[i].slug == s;
    }
  }

  lemma SameChannels(lib: Lib, db: Store, cfg: Config, t: Table<Channel>)
    requires Wf(db.channels) && ChannelsListed(db, {}, cfg.channels) && Wf(Keep(db.channels, cfg.channels.Keys))
    requires ExportableChannels(lib, db) && forall i :: i in db.channels ==> KnownKind(db.channels[i].f.kind)
    requires Settled(Keep(db.channels, cfg.channels.Keys), t,
                     ChannelTargets(lib, cfg, Keep(db.channels, cfg.channels.Keys)))
    ensures Keep(db.channels, cfg.channels.Keys) == db.channels == t
  {
    ChannelTargetsSame(lib, db, cfg);
    KeepAll(db.channels);
    SettledUnchanged(db.channels, t, ChannelTargets(lib, cfg, db.channels));
  }

  lemma MonitorTargetsNormal(lib: Lib, db: Store, cfg: Config)
    requires MonitorsListed(lib, db, {}, cfg.monitors) && forall s :: s in cfg.monitors ==> Legal(lib, s)
    ensures MonitorTargets(lib, cfg).Keys == cfg.monitors.Keys == Slugs(db.monitors)
    ensures forall i :: i in db.monitors ==>
              && db.monitors[i].slug in MonitorTargets(lib, cfg)
              && MonitorTargets(lib, cfg)[db.monitors[i].slug] == NormalMonitor(lib, db.monitors[i].f)
  {
  }

  lemma SameMonitors(lib: Lib, db: Store, cfg: Config, t: Table<Monitor>)
    requires Wf(db.monitors) && MonitorsListed(lib, db, {}, cfg.monitors)
    requires forall s :: s in cfg.monitors ==> Legal(lib, s)
    requires Settled(Keep(db.monitors, cfg.monitors.Keys), t, MonitorTargets(lib, cfg))
    ensures Keep(db.monitors, cfg.monitors.Keys) == db.monitors
    ensures t == NormalMonitors(lib, db.monitors)
  {
    MonitorTargetsNormal(lib, db, cfg);
    SettledInPlace(db.monitors, t, MonitorTargets(lib, cfg));
  }

  lemma AllSpellings(lib: Lib, members: seq<string>, emails: set<string>)
    requires IsOrder(members, emails)
    requires forall e, f :: e in emails && f in emails && lib.nocase(e) == lib.nocase(f) ==> e == f
    ensures FirstSpellings(lib, members) == emails
  {
  }

  lemma SameMembers(lib: Lib, db: Store, cfg: Config)
    requires MembersOk(lib, db.groups, db.members) && GroupsListed(db, {}, cfg.groups)
    requires forall s :: s in cfg.groups ==> Legal(lib, s)
    ensures MembersFor(lib, cfg, LinksFrom(db.members, db.groups.Keys), db.groups, cfg.groups.Keys) == db.members
  {
    var m := MembersFor(lib, cfg, LinksFrom(db.members, db.groups.Keys), db.groups, cfg.groups.Keys);
    forall i | i in db.groups
      ensures Rewritten(lib, cfg, db.groups[i].slug, cfg.groups.Keys)
      ensures FirstSpellings(lib, cfg.groups[db.groups[i].slug].members) == EmailsOf(db, i)
    {
      forall e, f | e in EmailsOf(db, i) && f in EmailsOf(db, i) && lib.nocase(e) == lib.nocase(f) ensures e == f {
        assert (i, e) in db.members && (i, f) in db.members;
      }
      AllSpellings(lib, cfg.groups[db.groups[i].slug].members, EmailsOf(db, i));
    }
    forall p | p in m ensures p in db.members {
      assert p.1 in EmailsOf(db, p.0);
    }
    forall p | p in db.members ensures p in m {
      assert p.1 in EmailsOf(db, p.0);
    }
  }

  ghost predicate SameSlugs<F>(a: Table<F>, b: Table<F>) {
    b.Keys == a.Keys && forall i :: i in a ==> b[i].slug == a[i].slug
  }

  lemma SameLinks<F>(links: set<(Id, Id)>, monitors: Table<Monitor>, after: Table<Monitor>, t: Table<F>,
                     names: map<string, seq<string>>)
    requires Wf(t) && forall p :: p in links ==> p.0 in monitors && p.1 in t
    requires SameSlugs(monitors, after)
    requires forall i :: i in monitors ==>
               monitors[i].slug in names && Elems(names[monitors[i].slug]) == LinkedSlugs(links, t, i)
    ensures LinksFor(KeptLinks(links, monitors.Keys, t.Keys), after, t, names, names.Keys) == links
  {
    var l := LinksFor(KeptLinks(links, monitors.Keys, t.Keys), after, t, names, names.Keys);
    forall p | p in l ensures p in links {
      assert t[p.1].slug in Elems(names[monitors[p.0].slug]);
    }
    forall p | p in links ensures p in l {
      assert t[p.1].slug in LinkedSlugs(links, t, p.0);
      assert t[p.1].slug in Elems(names[monitors[p.0].slug]);
    }
  }

  lemma SameEmailChannel(lib: Lib, db: Store, cfg: Config)
    requires Wf(db.channels) && (db.smtpChannel.Some? ==> db.smtpChannel.value in db.channels)
    requires forall i :: i in db.channels ==> db.channels[i].slug != ""
    requires cfg.alerts.emailChannel == EmailSlug(db)
    ensures SmtpFor(cfg, db.channels) == db.smtpChannel
  {
  }

  lemma SameTables(lib: Lib, db: Store, name: string, cfg: Config, db': Store)
    requires Consistent(lib, db) && Generated(lib, db, name, cfg) && Exportable(lib, db, name)
    requires Applied(lib, cfg, db, db')
    ensures Keep(db.services, cfg.services.Keys) == db.services == db'.services
    ensures Keep(db.monitors, cfg.monitors.Keys) == db.monitors && db'.monitors == Normal(lib, db, name).monitors
    ensures Keep(db.channels, cfg.channels.Keys) == db.channels == db'.channels
    ensures Keep(db.groups, cfg.groups.Keys) == db.groups == db'.groups
    ensures CleanConfig(lib, cfg)
  {
    ExportClean(lib, db, name, cfg);
    KeepWf(db.channels, cfg.channels.Keys);
    SameServices(lib, db, cfg, db'.services);
    SameMonitors(lib, db, cfg, db'.monitors);
    SameChannels(lib, db, cfg, db'.channels);
    SameGroups(lib, db, cfg, db'.groups);
  }

  lemma ListedNames(lib: Lib, db: Store, cfg: Config)
    requires MonitorsListed(lib, db, {}, cfg.monitors)
    ensures AllChannelNames(cfg).Keys == AllGroupNames(cfg).Keys == cfg.monitors.Keys
    ensures forall i :: i in db.monitors ==>
              && db.monitors[i].slug in cfg.monitors
              && Elems(AllChannelNames(cfg)[db.monitors[i].slug]) == LinkedSlugs(db.channelLinks, db.channels, i)
              && Elems(AllGroupNames(cfg)[db.monitors[i].slug]) == LinkedSlugs(db.groupLinks, db.groups, i)
  {
  }

  /** The links that the export declares, on the monitors it leaves. */
  lemma DeclaredChannelLinks(lib: Lib, db: Store, cfg: Config, after: Table<Monitor>)
    requires MonitorsListed(lib, db, {}, cfg.monitors) && Wf(db.channels) && SameSlugs(db.monitors, after)
    requires forall p :: p in db.channelLinks ==> p.0 in db.monitors && p.1 in db.channels
    ensures LinksFor(KeptLinks(db.channelLinks, db.monitors.Keys, db.channels.Keys), after, db.channels,
                     AllChannelNames(cfg), cfg.monitors.Keys) == db.channelLinks
  {
    ListedNames(lib, db, cfg);
    SameLinks(db.channelLinks, db.monitors, after, db.channels, AllChannelNames(cfg));
  }

  lemma DeclaredGroupLinks(lib: Lib, db: Store, cfg: Config, after: Table<Monitor>)
    requires MonitorsListed(lib, db, {}, cfg.monitors) && Wf(db.groups) && SameSlugs(db.monitors, after)
    requires forall p :: p in db.groupLinks ==> p.0 in db.monitors && p.1 in db.groups
    ensures LinksFor(KeptLinks(db.groupLinks, db.monitors.Keys, db.groups.Keys), after, db.groups,
                     AllGroupNames(cfg), cfg.monitors.Keys) == db.groupLinks
  {
    ListedNames(lib, db, cfg);
    SameLinks(db.groupLinks, db.monitors, after, db.groups, AllGroupNames(cfg));
  }

  lemma LinksAfter(lib: Lib, db: Store, name: string, cfg: Config, db': Store)
    requires Consistent(lib, db) && Generated(lib, db, name, cfg) && Exportable(lib, db, name)
    requires Applied(lib, cfg, db, db')
    ensures db'.channelLinks == LinksFor(KeptLinks(db.channelLinks, db.monitors.Keys, db.channels.Keys),
                                         NormalMonitors(lib, db.monitors), db.channels, AllChannelNames(cfg),
                                         cfg.monitors.Keys)
    ensures db'.groupLinks == LinksFor(KeptLinks(db.groupLinks, db.monitors.Keys, db.groups.Keys),
                                       NormalMonitors(lib, db.monitors), db.groups, AllGroupNames(cfg),
                                       cfg.monitors.Keys)
  {
    SameTables(lib, db, name, cfg, db');
    LinksOfClean(lib, cfg, db, db');
  }

  lemma LinksDeclared(lib: Lib, db: Store, name: string, cfg: Config)
    requires Consistent(lib, db) && Generated(lib, db, name, cfg)
    ensures LinksFor(KeptLinks(db.channelLinks, db.monitors.Keys, db.channels.Keys), NormalMonitors(lib, db.monitors),
                     db.channels, AllChannelNames(cfg), cfg.monitors.Keys) == db.channelLinks
    ensures LinksFor(KeptLinks(db.groupLinks, db.monitors.Keys, db.groups.Keys), NormalMonitors(lib, db.monitors),
                     db.groups, AllGroupNames(cfg), cfg.monitors.Keys) == db.groupLinks
  {
    assert SameSlugs(db.monitors, NormalMonitors(lib, db.monitors));
    DeclaredChannelLinks(lib, db, cfg, NormalMonitors(lib, db.monitors));
    DeclaredGroupLinks(lib, db, cfg, NormalMonitors(lib, db.monitors));
  }

  lemma ExportApplied(lib: Lib, db: Store, name: string, cfg: Config, db': Store)
    requires Consistent(lib, db) && Generated(lib, db, name, cfg) && Exportable(lib, db, name)
    requires Applied(lib, cfg, db, db')
    ensures db' == Normal(lib, db, name)
  {
    SameTables(lib, db, name, cfg, db');
    LinksAfter(lib, db, name, cfg, db');
    LinksDeclared(lib, db, name, cfg);
    SameMembers(lib, db, cfg);
    CutNothing(lib, db);
    SameEmailChannel(lib, db, cfg);
  }

  /** The round trip. The export of a store is accepted by that store exactly when
      the store is exportable, and then nothing changes but the spelling of the
      method and the body columns: no id, no other field, no link, no member. */
  lemma RoundTrip(lib: Lib, db: Store, name: string, cfg: Config, order: seq<string>, db': Store, msgs: set<Msg>)
    requires Consistent(lib, db) && Generated(lib, db, name, cfg) && RunVia(lib, cfg, order, db, db', msgs)
    ensures msgs == {} <==> Exportable(lib, db, name)
    ensures msgs == {} ==> db' == Normal(lib, db, name)
  {
    NothingToRename(lib, cfg, db, order);
    Verdict(lib, cfg, order, db, db', msgs);
    ExportClean(lib, db, name, cfg);
    if Exportable(lib, db, name) {
      ExportApplied(lib, db, name, cfg, db');
    }
  }

  // ---- what is normalised ----

  predicate NoEmptyList(v: map<string, seq<string>>) {
    forall k :: k in v ==> v[k] != []
  }

  predicate OneEach(v: map<string, seq<string>>) {
    forall k :: k in v ==> |v[k]| == 1
  }

  /** Encoded forms parse back to what was encoded. */
  ghost predicate FormLaw(lib: Lib) {
    forall v: map<string, seq<string>> {:trigger lib.encodeForm(v)} ::
      NoEmptyList(v) ==> lib.parseForm(lib.encodeForm(v)) == Some(v)
  }

  /** The bytes of a form body after a round trip. */
  lemma FormBytes(lib: Lib, m: Monitor)
    requires FormBody(m) && FirstValues(lib, BodyTextOf(m)).Some?
    ensures BodyTextOf(NormalMonitor(lib, m)) == lib.encodeForm(Singles(FirstValues(lib, BodyTextOf(m)).value))
  {
    TextsScalar(FirstValues(lib, BodyTextOf(m)).value);
  }

  lemma FirstOfEncoded(lib: Lib, v: map<string, seq<string>>)
    requires FormLaw(lib) && NoEmptyList(v)
    ensures FirstValues(lib, lib.encodeForm(v)) == Some(map k | k in v :: v[k][0])
  {
    assert lib.parseForm(lib.encodeForm(v)) == Some(v);
    assert (map k | k in v && v[k] != [] :: v[k][0]) == map k | k in v :: v[k][0];
  }

  lemma EncodeInjective(lib: Lib, v: map<string, seq<string>>, w: map<string, seq<string>>)
    requires FormLaw(lib) && NoEmptyList(v) && NoEmptyList(w)
    ensures lib.encodeForm(v) == lib.encodeForm(w) <==> v == w
  {
    assert lib.parseForm(lib.encodeForm(v)) == Some(v) && lib.parseForm(lib.encodeForm(w)) == Some(w);
  }

  /** A body that a form wrote survives to the byte if and only if no key was
      given twice. */
  lemma WrittenBodySurvives(lib: Lib, m: Monitor, v: map<string, seq<string>>)
    requires FormLaw(lib) && FormBody(m) && NoEmptyList(v) && BodyTextOf(m) == lib.encodeForm(v)
    ensures BodyTextOf(NormalMonitor(lib, m)) == BodyTextOf(m) <==> OneEach(v)
  {
    var first := map k | k in v :: v[k][0];
    FirstOfEncoded(lib, v);
    FormBytes(lib, m);
    EncodeInjective(lib, Singles(first), v);
    if OneEach(v) {
      forall k | k in v ensures Singles(first)[k] == v[k] {}
      assert Singles(first) == v;
    } else {
      var k :| k in v && |v[k]| != 1;
      assert |Singles(first)[k]| == 1;
    }
  }

  /** A body survives to the byte if and only if it is not a form, or is what the
      encoder writes for one value per key. */
  lemma BodyBytes(lib: Lib, m: Monitor)
    requires FormLaw(lib) && BodyYaml(lib, m).Some?
    ensures BodyTextOf(NormalMonitor(lib, m)) == BodyTextOf(m) <==>
            (FormBody(m) ==> exists v :: NoEmptyList(v) && OneEach(v) && lib.encodeForm(v) == BodyTextOf(m))
  {
    if FormBody(m) {
      FormBytes(lib, m);
      var w := Singles(FirstValues(lib, BodyTextOf(m)).value);
      assert NoEmptyList(w) && OneEach(w);
      if v :| NoEmptyList(v) && OneEach(v) && lib.encodeForm(v) == BodyTextOf(m) {
        WrittenBodySurvives(lib, m, v);
      }
    }
  }

  /** A body that repeats a key never survives. */
  lemma RepeatedKeyLost(lib: Lib, m: Monitor, values: map<string, seq<string>>, k: string)
    requires FormLaw(lib) && FormBody(m)
    requires lib.parseForm(BodyTextOf(m)) == Some(values) && k in values && |values[k]| >= 2
    ensures BodyTextOf(NormalMonitor(lib, m)) != BodyTextOf(m)
  {
    BodyBytes(lib, m);
    forall v | NoEmptyList(v) && OneEach(v) ensures lib.encodeForm(v) != BodyTextOf(m) {
      assert lib.parseForm(lib.encodeForm(v)) == Some(v);
    }
  }

  /** Every form body was written by the program: by the admin form or by an apply,
      both of which store an encoding. */
  ghost predicate FormsWritten(lib: Lib, db: Store) {
    forall i :: i in db.monitors && FormBody(db.monitors[i].f) ==> Written(lib, BodyTextOf(db.monitors[i].f))
  }

  ghost predicate Written(lib: Lib, body: string) {
    exists v :: NoEmptyList(v) && lib.encodeForm(v) == body
  }

  /** No form body of the store repeats a key. */
  predicate NoRepeatedKey(lib: Lib, db: Store) {
    forall i :: i in db.monitors && FormBody(db.monitors[i].f) ==>
      var v := lib.parseForm(BodyTextOf(db.monitors[i].f));
      v.Some? ==> OneEach(v.value)
  }

  predicate SameBytes(a: Store, b: Store) {
    forall i :: i in a.monitors ==> i in b.monitors && BodyTextOf(b.monitors[i].f) == BodyTextOf(a.monitors[i].f)
  }

  lemma BodySurvives(lib: Lib, m: Monitor)
    requires FormLaw(lib) && (FormBody(m) ==> Written(lib, BodyTextOf(m)))
    ensures BodyTextOf(NormalMonitor(lib, m)) == BodyTextOf(m) <==>
            (FormBody(m) ==>
               var v := lib.parseForm(BodyTextOf(m));
               v.Some? ==> OneEach(v.value))
  {
    if FormBody(m) {
      var v :| NoEmptyList(v) && lib.encodeForm(v) == BodyTextOf(m);
      assert lib.parseForm(lib.encodeForm(v)) == Some(v);
      WrittenBodySurvives(lib, m, v);
    }
  }

  /** On a store whose forms the program wrote, an accepted round trip keeps every
      byte of every body if and only if no form repeats a key. */
  lemma RoundTripBytes(lib: Lib, db: Store, name: string, cfg: Config, order: seq<string>, db': Store)
    requires Consistent(lib, db) && Generated(lib, db, name, cfg) && RunVia(lib, cfg, order, db, db', {})
    requires FormLaw(lib) && FormsWritten(lib, db)
    ensures SameBytes(db, db') <==> NoRepeatedKey(lib, db)
  {
    RoundTrip(lib, db, name, cfg, order, db', {});
    NormalBytes(lib, db, name);
  }

  lemma NormalBytes(lib: Lib, db: Store, name: string)
    requires FormLaw(lib) && FormsWritten(lib, db)
    ensures SameBytes(db, Normal(lib, db, name)) <==> NoRepeatedKey(lib, db)
  {
    forall i | i in db.monitors
      ensures BodyTextOf(Normal(lib, db, name).monitors[i].f) == BodyTextOf(db.monitors[i].f) <==>
              (FormBody(db.monitors[i].f) ==>
                 var v := lib.parseForm(BodyTextOf(db.monitors[i].f));
                 v.Some? ==> OneEach(v.value))
    {
      BodySurvives(lib, db.monitors[i].f);
    }
  }

  /** A form body with one value per key comes back as the encoder writes it, so one
      with its keys out of order, "b=1&a=2", comes back sorted. No form of the
      program stores such a body; a request that posts a raw body together with the
      format "form" does. */
  lemma RawFormRewritten(lib: Lib, m: Monitor, v: map<string, seq<string>>)
    requires FormBody(m) && lib.parseForm(BodyTextOf(m)) == Some(v) && OneEach(v)
    ensures BodyTextOf(NormalMonitor(lib, m)) == lib.encodeForm(v)
  {
    var first := map k | k in v && v[k] != [] :: v[k][0];
    forall k | k in v ensures v[k] != [] && Singles(first)[k] == v[k] {}
    assert Singles(first) == v;
    FormBytes(lib, m);
  }

  /** One round trip is enough: a second one leaves the method and the bytes of
      the body as the first one did. */
  lemma SecondTrip(lib: Lib, m: Monitor)
    requires FormLaw(lib) && BodyYaml(lib, m).Some? && lib.upper(lib.upper(m.verb)) == lib.upper(m.verb)
    ensures var once := NormalMonitor(lib, m);
            && BodyYaml(lib, once).Some?
            && var twice := NormalMonitor(lib, once);
               BodyTextOf(twice) == BodyTextOf(once)
               && twice == once.(bodyFormat := twice.bodyFormat, body := twice.body)
  {
    if FormBody(m) {
      var w := Singles(FirstValues(lib, BodyTextOf(m)).value);
      var once := NormalMonitor(lib, m);
      FormBytes(lib, m);
      if FormBody(once) {
        FirstOfEncoded(lib, w);
        WrittenBodySurvives(lib, once, w);
      }
    }
  }
}
