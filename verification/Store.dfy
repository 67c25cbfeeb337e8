/** The tables the reconciler reads and writes, with the foreign keys, checks
    and cascades of schema.sql. */
module Store {
  import opened Prelude
  import opened Tables

  datatype Service = Service(name: string, helperText: string)

  /** `headers` is the decoded request_headers column. */
  datatype Monitor = Monitor(
    name: string, url: string, verb: string, frequency: int, timeout: int, attempts: int,
    headers: map<string, string>, bodyFormat: Option<string>, body: Option<string>)

  /** The JSON object in notification_channel.details. */
  datatype Details =
    | NoDetails
    | SlackDetails(webhookURL: string)
    | SmtpDetails(host: string, port: int, username: string, password: string, sender: string,
                  headers: map<string, string>, misc: map<string, string>)

  datatype Channel = Channel(name: string, kind: string, details: Details)

  datatype Group = Group(name: string, description: string)

  datatype AlertSettings = AlertSettings(
    slackInstallURL: string, slackClientSecret: string, managedSubscriptions: bool)

  datatype Store = Store(
    name: string,                      // meta row "name"
    services: Table<Service>,
    alertServices: map<Id, Id>,        // alert_service row -> service_id
    monitors: Table<Monitor>,
    monitorLogs: map<Id, Id>,          // monitor_log row -> monitor_id
    channels: Table<Channel>,
    groups: Table<Group>,
    members: set<(Id, string)>,        // mail_group_member: (group, email)
    channelLinks: set<(Id, Id)>,       // monitor_notification_channel: (monitor, channel)
    groupLinks: set<(Id, Id)>,         // mail_group_monitor: (monitor, group)
    smtpChannel: Option<Id>,           // alert_setting_smtp_notification
    settings: AlertSettings)           // alert_setting

  const SMTP := "smtp"
  const SLACK := "slack"

  predicate KnownKind(kind: string) {
    kind == SMTP || kind == SLACK
  }

  /** Every UNIQUE, CHECK and foreign-key constraint. A set of pairs holds no
      pair twice; member addresses are unique per group ignoring case. */
  ghost predicate Consistent(lib: Lib, db: Store) {
    && Wf(db.services) && Wf(db.monitors) && Wf(db.channels) && Wf(db.groups)
    && (forall i :: i in db.channels ==> KnownKind(db.channels[i].f.kind))
    && (forall r :: r in db.alertServices ==> db.alertServices[r] in db.services)
    && (forall r :: r in db.monitorLogs ==> db.monitorLogs[r] in db.monitors)
    && MembersOk(lib, db.groups, db.members)
    && (forall p :: p in db.channelLinks ==> p.0 in db.monitors && p.1 in db.channels)
    && (forall p :: p in db.groupLinks ==> p.0 in db.monitors && p.1 in db.groups)
    && (db.smtpChannel.Some? ==> db.smtpChannel.value in db.channels)
  }

  ghost predicate MembersOk(lib: Lib, groups: Table<Group>, members: set<(Id, string)>) {
    && (forall p :: p in members ==> p.0 in groups)
    && (forall p, q :: p in members && q in members && p.0 == q.0 && lib.nocase(p.1) == lib.nocase(q.1) ==> p == q)
  }

  // ---- deletes, with their cascades ----

  function RowsInto(rows: map<Id, Id>, ids: set<Id>): map<Id, Id> {
    map r | r in rows && rows[r] in ids :: rows[r]
  }

  function LinksFrom<T(==)>(links: set<(Id, T)>, ids: set<Id>): set<(Id, T)> {
    set p | p in links && p.0 in ids
  }

  function LinksTo(links: set<(Id, Id)>, ids: set<Id>): set<(Id, Id)> {
    set p | p in links && p.1 in ids
  }

  /** `db` left with the services of `t` and the rows that refer to them. */
  function CutServices(db: Store, t: Table<Service>): Store {
    db.(services := t, alertServices := RowsInto(db.alertServices, t.Keys))
  }

  function CutMonitors(db: Store, t: Table<Monitor>): Store {
    db.(monitors := t, monitorLogs := RowsInto(db.monitorLogs, t.Keys),
        channelLinks := LinksFrom(db.channelLinks, t.Keys), groupLinks := LinksFrom(db.groupLinks, t.Keys))
  }

  function CutChannels(db: Store, t: Table<Channel>): Store {
    db.(channels := t, channelLinks := LinksTo(db.channelLinks, t.Keys),
        smtpChannel := if db.smtpChannel.Some? && db.smtpChannel.value in t then db.smtpChannel else None)
  }

  function CutGroups(db: Store, t: Table<Group>): Store {
    db.(groups := t, members := LinksFrom(db.members, t.Keys), groupLinks := LinksTo(db.groupLinks, t.Keys))
  }

  function DeleteService(db: Store, id: Id): Store {
    CutServices(db, db.services - {id})
  }

  function DeleteMonitor(db: Store, id: Id): Store {
    CutMonitors(db, db.monitors - {id})
  }

  function DeleteChannel(db: Store, id: Id): Store {
    CutChannels(db, db.channels - {id})
  }

  function DeleteGroup(db: Store, id: Id): Store {
    CutGroups(db, db.groups - {id})
  }

  // ---- inserts into the link tables ----

  function AddChannelLink(db: Store, monitor: Id, channel: Id): (Option<SqlError>, Store) {
    if monitor !in db.monitors || channel !in db.channels then (Some(ForeignKey), db)
    else if (monitor, channel) in db.channelLinks then (Some(Unique), db)
    else (None, db.(channelLinks := db.channelLinks + {(monitor, channel)}))
  }

  function AddGroupLink(db: Store, monitor: Id, group: Id): (Option<SqlError>, Store) {
    if monitor !in db.monitors || group !in db.groups then (Some(ForeignKey), db)
    else if (monitor, group) in db.groupLinks then (Some(Unique), db)
    else (None, db.(groupLinks := db.groupLinks + {(monitor, group)}))
  }

  /** insert ... on conflict (mail_group_id, email_address) do nothing */
  function AddMember(lib: Lib, db: Store, group: Id, email: string): (Option<SqlError>, Store) {
    if group !in db.groups then (Some(ForeignKey), db)
    else if exists p :: p in db.members && p.0 == group && lib.nocase(p.1) == lib.nocase(email) then (None, db)
    else (None, db.(members := db.members + {(group, email)}))
  }

  function SetSmtpChannel(db: Store, id: Option<Id>): (Option<SqlError>, Store) {
    if id.Some? && id.value !in db.channels then (Some(ForeignKey), db.(smtpChannel := None))
    else (None, db.(smtpChannel := id))
  }

  // ---- deletes add up ----

  lemma CutServicesTwice(db: Store, a: Table<Service>, b: Table<Service>)
    requires b.Keys <= a.Keys
    ensures CutServices(CutServices(db, a), b) == CutServices(db, b)
  {
  }

  lemma CutMonitorsTwice(db: Store, a: Table<Monitor>, b: Table<Monitor>)
    requires b.Keys <= a.Keys
    ensures CutMonitors(CutMonitors(db, a), b) == CutMonitors(db, b)
  {
  }

  lemma CutChannelsTwice(db: Store, a: Table<Channel>, b: Table<Channel>)
    requires b.Keys <= a.Keys
    ensures CutChannels(CutChannels(db, a), b) == CutChannels(db, b)
  {
  }

  lemma CutGroupsTwice(db: Store, a: Table<Group>, b: Table<Group>)
    requires b.Keys <= a.Keys
    ensures CutGroups(CutGroups(db, a), b) == CutGroups(db, b)
  {
  }

  lemma CutNothing(lib: Lib, db: Store)
    requires Consistent(lib, db)
    ensures CutServices(db, db.services) == db
    ensures CutMonitors(db, db.monitors) == db
    ensures CutChannels(db, db.channels) == db
    ensures CutGroups(db, db.groups) == db
  {
    assert RowsInto(db.alertServices, db.services.Keys) == db.alertServices;
    assert RowsInto(db.monitorLogs, db.monitors.Keys) == db.monitorLogs;
    assert LinksFrom(db.channelLinks, db.monitors.Keys) == db.channelLinks ==
             LinksTo(db.channelLinks, db.channels.Keys);
    assert LinksFrom(db.groupLinks, db.monitors.Keys) == db.groupLinks == LinksTo(db.groupLinks, db.groups.Keys);
    assert LinksFrom(db.members, db.groups.Keys) == db.members;
  }
}
