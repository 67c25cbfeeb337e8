/** generateConfig: the file that describes a store. */
module Generate {
  import opened Prelude
  import opened Tables
  import opened Store
  import opened Config

  // ---- one row ----

  function Texts(m: map<string, string>): map<string, Yaml> {
    map k | k in m :: Str(m[k])
  }

  /** Details are decoded as the row's type says; JSON written for the other
      type has none of its fields. */
  function SmtpOf(d: Details): Details {
    if d.SmtpDetails? then d else SmtpDetails("", 0, "", "", "", map[], map[])
  }

  function WebhookOf(d: Details): string {
    if d.SlackDetails? then d.webhookURL else ""
  }

  function WithMap(v: map<string, Yaml>, key: string, m: map<string, string>): map<string, Yaml> {
    if m == map[] then v else v[key := Map(Texts(m))]
  }

  function SmtpYaml(name: string, d: Details): map<string, Yaml>
    requires d.SmtpDetails?
  {
    WithMap(WithMap(
      map["type" := Str(SMTP), "name" := Str(name), "host" := Str(d.host), "port" := Num(d.port),
          "username" := Str(d.username), "password" := Str(d.password), "from" := Str(d.sender)],
      "headers", d.headers), "misc", d.misc)
  }

  function SlackYaml(name: string, url: string): map<string, Yaml> {
    map["type" := Str(SLACK), "name" := Str(name), "webhook-url" := Str(url)]
  }

  function ChannelYaml(c: Channel): map<string, Yaml> {
    if c.kind == SMTP then SmtpYaml(c.name, SmtpOf(c.details)) else SlackYaml(c.name, WebhookOf(c.details))
  }

  function BodyTextOf(m: Monitor): string {
    if m.body.Some? then m.body.value else ""
  }

  predicate FormBody(m: Monitor) {
    BodyTextOf(m) != "" && m.bodyFormat == Some("form")
  }

  /** url.ParseQuery, then the first value of each key. */
  function FirstValues(lib: Lib, body: string): Option<map<string, string>> {
    match lib.parseForm(body)
    case None => None
    case Some(values) => Some(map k | k in values && values[k] != [] :: values[k][0])
  }

  function BodyYaml(lib: Lib, m: Monitor): Option<Yaml> {
    if BodyTextOf(m) == "" then Some(Null)
    else if FormBody(m) then
      match FirstValues(lib, BodyTextOf(m))
      case None => None
      case Some(values) => Some(Map(Texts(values)))
    else Some(Str(BodyTextOf(m)))
  }

  /** What the export says of a body: nothing, the first value of each key of a form,
      or its text. */
  lemma BodyExport(lib: Lib, m: Monitor)
    ensures m.body == None || m.body == Some("") ==> BodyYaml(lib, m) == Some(Null)
    ensures m.body.Some? && m.body.value != "" && m.bodyFormat != Some("form") ==>
              BodyYaml(lib, m) == Some(Str(m.body.value))
    ensures m.body.Some? && m.body.value != "" && m.bodyFormat == Some("form") ==>
              match lib.parseForm(m.body.value)
              case None => BodyYaml(lib, m) == None
              case Some(values) =>
                && BodyYaml(lib, m).Some? && BodyYaml(lib, m).value.Map?
                && (forall k :: k in BodyYaml(lib, m).value.m <==> k in values && values[k] != [])
                && (forall k :: k in BodyYaml(lib, m).value.m ==> BodyYaml(lib, m).value.m[k] == Str(values[k][0]))
  {
  }

  /** Every form body parses. */
  ghost predicate Parses(lib: Lib, db: Store) {
    forall i :: i in db.monitors ==> BodyYaml(lib, db.monitors[i].f).Some?
  }

  // ---- the whole file ----

  function EmailsOf(db: Store, group: Id): set<string> {
    set p | p in db.members && p.0 == group :: p.1
  }

  function LinkedSlugs<F>(links: set<(Id, Id)>, t: Table<F>, monitor: Id): set<string> {
    set p | p in links && p.0 == monitor && p.1 in t :: t[p.1].slug
  }

  function EmailSlug(db: Store): string {
    if db.smtpChannel.Some? && db.smtpChannel.value in db.channels then db.channels[db.smtpChannel.value].slug else ""
  }

  ghost predicate DescribesMonitor(lib: Lib, db: Store, i: Id, v: MonitorCfg)
    requires i in db.monitors
  {
    var m := db.monitors[i].f;
    && BodyYaml(lib, m).Some?
    && v == MonitorCfg(m.name, m.url, m.verb, m.frequency, m.timeout, m.attempts, m.headers,
                       BodyYaml(lib, m).value, v.channels, v.groups)
    && IsOrder(v.channels, LinkedSlugs(db.channelLinks, db.channels, i))
    && IsOrder(v.groups, LinkedSlugs(db.groupLinks, db.groups, i))
  }

  ghost predicate DescribesGroup(db: Store, i: Id, v: GroupCfg)
    requires i in db.groups
  {
    && v == GroupCfg(db.groups[i].f.name, v.members, db.groups[i].f.description)
    && IsOrder(v.members, EmailsOf(db, i))
  }

  /** `m` holds one entry for each row of `t` not in `todo`. */
  ghost predicate KeyedBy<F, V>(t: Table<F>, todo: set<Id>, m: map<string, V>) {
    && (forall i :: i in t && i !in todo ==> t[i].slug in m)
    && (forall s :: s in m ==> exists i :: i in t && i !in todo && t[i].slug == s)
  }

  ghost predicate ServicesListed(db: Store, todo: set<Id>, m: map<string, ServiceCfg>) {
    && KeyedBy(db.services, todo, m)
    && forall i :: i in db.services && i !in todo ==>
         m[db.services[i].slug] == ServiceCfg(db.services[i].f.name, db.services[i].f.helperText)
  }

  ghost predicate ChannelsListed(db: Store, todo: set<Id>, m: map<string, map<string, Yaml>>) {
    && KeyedBy(db.channels, todo, m)
    && forall i :: i in db.channels && i !in todo ==> m[db.channels[i].slug] == ChannelYaml(db.channels[i].f)
  }

  ghost predicate GroupsListed(db: Store, todo: set<Id>, m: map<string, GroupCfg>) {
    && KeyedBy(db.groups, todo, m)
    && forall i :: i in db.groups && i !in todo ==> DescribesGroup(db, i, m[db.groups[i].slug])
  }

  ghost predicate MonitorsListed(lib: Lib, db: Store, todo: set<Id>, m: map<string, MonitorCfg>) {
    && KeyedBy(db.monitors, todo, m)
    && forall i :: i in db.monitors && i !in todo ==> DescribesMonitor(lib, db, i, m[db.monitors[i].slug])
  }

  /** `cfg` is an export of `db` under the instance name `name`. */
  ghost predicate Generated(lib: Lib, db: Store, name: string, cfg: Config) {
    && ServicesListed(db, {}, cfg.services)
    && MonitorsListed(lib, db, {}, cfg.monitors)
    && ChannelsListed(db, {}, cfg.channels)
    && GroupsListed(db, {}, cfg.groups)
    && cfg.name == name && cfg.rename == map[]
    && cfg.alerts == AlertCfg(EmailSlug(db), db.settings)
  }

  // ---- the method ----

  /** A listing of rows in whatever order the table yields them. */
  method Listing(rows: set<string>) returns (list: seq<string>)
    ensures IsOrder(list, rows)
  {
    list := [];
    var todo := rows;
    assert Elems(list) == {};
    while todo != {}
      invariant todo <= rows && IsOrder(list, rows - todo)
      decreases todo
    {
      var x :| x in todo;
      ElemsAppend(list, [x]);
      assert x !in Elems(list);
      list, todo := list + [x], todo - {x};
    }
  }

  lemma KeyedStep<F, V>(t: Table<F>, todo: set<Id>, m: map<string, V>, i: Id, v: V)
    requires Wf(t) && KeyedBy(t, todo, m) && i in t && i in todo
    ensures KeyedBy(t, todo - {i}, m[t[i].slug := v])
    ensures forall j :: j in t && j !in todo ==> t[j].slug != t[i].slug
  {
  }

  method ListServices(db: Store) returns (m: map<string, ServiceCfg>)
    requires Wf(db.services)
    ensures ServicesListed(db, {}, m)
  {
    m := map[];
    var todo := db.services.Keys;
    while todo != {}
      invariant todo <= db.services.Keys && ServicesListed(db, todo, m)
      decreases todo
    {
      var i :| i in todo;
      var v := ServiceCfg(db.services[i].f.name, db.services[i].f.helperText);
      KeyedStep(db.services, todo, m, i, v);
      m, todo := m[db.services[i].slug := v], todo - {i};
    }
  }

  method ListChannels(db: Store) returns (m: map<string, map<string, Yaml>>)
    requires Wf(db.channels)
    ensures ChannelsListed(db, {}, m)
  {
    m := map[];
    var todo := db.channels.Keys;
    while todo != {}
      invariant todo <= db.channels.Keys && ChannelsListed(db, todo, m)
      decreases todo
    {
      var i :| i in todo;
      var v := ChannelYaml(db.channels[i].f);
      KeyedStep(db.channels, todo, m, i, v);
      m, todo := m[db.channels[i].slug := v], todo - {i};
    }
  }

  method ListGroups(db: Store) returns (m: map<string, GroupCfg>)
    requires Wf(db.groups)
    ensures GroupsListed(db, {}, m)
  {
    m := map[];
    var todo := db.groups.Keys;
    while todo != {}
      invariant todo <= db.groups.Keys && GroupsListed(db, todo, m)
      decreases todo
    {
      var i :| i in todo;
      var emails := Listing(EmailsOf(db, i));
      var v := GroupCfg(db.groups[i].f.name, emails, db.groups[i].f.description);
      KeyedStep(db.groups, todo, m, i, v);
      m, todo := m[db.groups[i].slug := v], todo - {i};
    }
  }

  /** None when a form body does not parse. */
  method ListMonitors(lib: Lib, db: Store) returns (r: Option<map<string, MonitorCfg>>)
    requires Wf(db.monitors)
    ensures r.Some? <==> Parses(lib, db)
    ensures r.Some? ==> MonitorsListed(lib, db, {}, r.value)
  {
    var m: map<string, MonitorCfg> := map[];
    var todo := db.monitors.Keys;
    while todo != {}
      invariant todo <= db.monitors.Keys && MonitorsListed(lib, db, todo, m)
      decreases todo
    {
      var i :| i in todo;
      var row := db.monitors[i].f;
      var channels := Listing(LinkedSlugs(db.channelLinks, db.channels, i));
      var groups := Listing(LinkedSlugs(db.groupLinks, db.groups, i));
      var body := BodyYaml(lib, row);
      if body.None? {
        return None;
      }
      var v := MonitorCfg(row.name, row.url, row.verb, row.frequency, row.timeout, row.attempts, row.headers,
                          body.value, channels, groups);
      KeyedStep(db.monitors, todo, m, i, v);
      m, todo := m[db.monitors[i].slug := v], todo - {i};
    }
    r := Some(m);
  }

  /** The export fails exactly when some form body does not parse. */
  method GenerateConfig(lib: Lib, db: Store, name: string) returns (cfg: Option<Config>)
    requires Consistent(lib, db)
    ensures cfg.Some? <==> Parses(lib, db)
    ensures cfg.Some? ==> Generated(lib, db, name, cfg.value)
  {
    var groups := ListGroups(db);
    var channels := ListChannels(db);
    var monitors := ListMonitors(lib, db);
    if monitors.None? {
      return None;
    }
    var services := ListServices(db);
    cfg := Some(Config(name, groups, channels, monitors.value, services, AlertCfg(EmailSlug(db), db.settings), map[]));
  }
}
