/** The decoded config file, the checks every stage makes on it, and the rows it
    asks for. */
module Config {
  import opened Prelude
  import opened SlugGrammar
  import opened Tables
  import opened Store

  datatype ServiceCfg = ServiceCfg(name: string, description: string)

  datatype MonitorCfg = MonitorCfg(
    name: string, url: string, verb: string, frequency: int, timeout: int, attempts: int,
    headers: map<string, string>, body: Yaml, channels: seq<string>, groups: seq<string>)

  datatype GroupCfg = GroupCfg(name: string, members: seq<string>, description: string)

  datatype AlertCfg = AlertCfg(emailChannel: string, settings: AlertSettings)

  /** A notification channel stays a bare map: its fields have whatever type the
      YAML gave them. */
  datatype Config = Config(
    name: string,
    groups: map<string, GroupCfg>,
    channels: map<string, map<string, Yaml>>,
    monitors: map<string, MonitorCfg>,
    services: map<string, ServiceCfg>,
    alerts: AlertCfg,
    rename: map<string, string>)

  // ---- messages ----

  datatype Section = Services | Monitors | Channels | Groups

  datatype Problem =
    | Required | Invalid | NotOneOf | BadAddress
    | UnknownProperty(prop: string) | BadValue(key: string)
    | BadEmail(text: string) | Duplicated(text: string) | UnknownRef(text: string)

  datatype Msg =
    | RenameMalformed(key: string)
    | RenameUnknownEntity(key: string)
    | RenameToItself(src: string, dst: string)
    | RenameBadTarget(dst: string)
    | RenameNoSource(key: string)
    | RenameTaken(dst: string)
    | RenameUndeclared(section: Section, src: string, dst: string)
    | NameRequired
    | BadSlug(at: Section, slug: string)
    | Bad(where: Section, slug: string, field: string, problem: Problem)
    | UnknownEmailChannel(slug: string)

  function Need(ok: bool, m: Msg): set<Msg> {
    if ok then {} else {m}
  }

  /** The messages of the entries in `done`, where `per` lists them per entry. */
  function Gather(per: map<string, set<Msg>>, done: set<string>): set<Msg> {
    set s, m | s in done && s in per && m in per[s] :: m
  }

  lemma GatherStep(per: map<string, set<Msg>>, done: set<string>, s: string)
    requires s in per
    ensures Gather(per, done + {s}) == Gather(per, done) + per[s]
  {
  }

  lemma GatherClean(per: map<string, set<Msg>>)
    ensures Gather(per, per.Keys) == {} <==> forall s :: s in per ==> per[s] == {}
  {
  }

  // ---- services ----

  function ServiceMsgs(lib: Lib, s: string, v: ServiceCfg): set<Msg> {
    if !Legal(lib, s) then {BadSlug(Services, s)}
    else Need(v.name != "", Bad(Services, s, "name", Required))
  }

  function ServicesMsgs(lib: Lib, cfg: Config): map<string, set<Msg>> {
    map s | s in cfg.services :: ServiceMsgs(lib, s, cfg.services[s])
  }

  function ServiceTargets(lib: Lib, cfg: Config): map<string, Service> {
    map s | s in cfg.services && Legal(lib, s) :: Service(cfg.services[s].name, cfg.services[s].description)
  }

  // ---- monitors ----

  predicate KnownMethod(lib: Lib, verb: string) {
    || lib.equalFold(verb, "get") || lib.equalFold(verb, "post") || lib.equalFold(verb, "patch")
    || lib.equalFold(verb, "put") || lib.equalFold(verb, "delete")
  }

  predicate Scalar(v: Yaml) {
    v.Str? || v.Num?
  }

  function ScalarText(v: Yaml): string
    requires Scalar(v)
  {
    if v.Str? then v.s else ItoaInt(v.n)
  }

  function Scalars(m: map<string, Yaml>): map<string, string> {
    map k | k in m && Scalar(m[k]) :: ScalarText(m[k])
  }

  function BadScalars(at: Section, s: string, field: string, m: map<string, Yaml>): set<Msg> {
    BadScalarsIn(at, s, field, m, m.Keys)
  }

  function BadScalarsIn(at: Section, s: string, field: string, m: map<string, Yaml>, keys: set<string>): set<Msg> {
    set k | k in keys && k in m && !Scalar(m[k]) :: Bad(at, s, field, BadValue(k))
  }

  function BodyMsgs(s: string, body: Yaml): set<Msg> {
    match body
    case Null => {}
    case Str(_) => {}
    case Map(m) => BadScalars(Monitors, s, "body", m)
    case _ => {Bad(Monitors, s, "body", Invalid)}
  }

  function BodyFormat(body: Yaml): Option<string> {
    match body
    case Map(_) => Some("form")
    case Str(_) => Some("text")
    case _ => None
  }

  function BodyText(lib: Lib, body: Yaml): Option<string> {
    match body
    case Map(m) => Some(lib.encodeForm(Singles(Scalars(m))))
    case Str(t) => Some(t)
    case _ => None
  }

  function MonitorMsgs(lib: Lib, s: string, v: MonitorCfg): set<Msg> {
    if !Legal(lib, s) then {BadSlug(Monitors, s)} else MonitorFieldMsgs(lib, s, v) + BodyMsgs(s, v.body)
  }

  function MonitorFieldMsgs(lib: Lib, s: string, v: MonitorCfg): set<Msg> {
    Need(v.name != "", Bad(Monitors, s, "name", Required))
    + Need(v.url != "", Bad(Monitors, s, "url", Required))
    + Need(lib.validURL(v.url), Bad(Monitors, s, "url", Invalid))
    + Need(KnownMethod(lib, v.verb), Bad(Monitors, s, "method", NotOneOf))
    + Need(v.frequency == 10 || v.frequency == 30 || v.frequency == 60, Bad(Monitors, s, "frequency", NotOneOf))
    + Need(v.timeout == 5 || v.timeout == 10 || v.timeout == 15, Bad(Monitors, s, "timeout", NotOneOf))
    + Need(v.attempts == 1 || v.attempts == 2 || v.attempts == 3, Bad(Monitors, s, "attempts", NotOneOf))
  }

  function MonitorsMsgs(lib: Lib, cfg: Config): map<string, set<Msg>> {
    map s | s in cfg.monitors :: MonitorMsgs(lib, s, cfg.monitors[s])
  }

  function MonitorOf(lib: Lib, v: MonitorCfg): Monitor {
    Monitor(v.name, v.url, lib.upper(v.verb), v.frequency, v.timeout, v.attempts, v.headers,
            BodyFormat(v.body), BodyText(lib, v.body))
  }

  function MonitorTargets(lib: Lib, cfg: Config): map<string, Monitor> {
    map s | s in cfg.monitors && Legal(lib, s) :: MonitorOf(lib, cfg.monitors[s])
  }

  // ---- notification channels ----

  function TextAt(v: map<string, Yaml>, key: string): string {
    if key in v && v[key].Str? then v[key].s else ""
  }

  function NumAt(v: map<string, Yaml>, key: string): int {
    if key in v && v[key].Num? then v[key].n else 0
  }

  function MapAt(v: map<string, Yaml>, key: string): map<string, Yaml> {
    if key in v && v[key].Map? then v[key].m else map[]
  }

  /** A required text field: absent, wrongly typed and empty are all reported,
      and an absent one is reported twice. */
  function TextMsgs(s: string, v: map<string, Yaml>, key: string): set<Msg> {
    Need(key in v, Bad(Channels, s, key, Required))
    + Need(key in v && v[key].Str?, Bad(Channels, s, key, Invalid))
    + Need(key in v && v[key].Str? ==> v[key].s != "", Bad(Channels, s, key, Required))
  }

  function PortMsgs(s: string, v: map<string, Yaml>): set<Msg> {
    Need("port" in v, Bad(Channels, s, "port", Required))
    + Need("port" in v && v["port"].Num?, Bad(Channels, s, "port", Invalid))
    + Need("port" in v && v["port"].Num? ==> v["port"].n != 0, Bad(Channels, s, "port", Required))
  }

  function MapMsgs(s: string, v: map<string, Yaml>, key: string): set<Msg> {
    Need(key in v ==> v[key].Map?, Bad(Channels, s, key, Invalid))
    + BadScalars(Channels, s, key, MapAt(v, key))
  }

  const SLACK_PROPS: set<string> := {"type", "name", "webhook-url"}
  const SMTP_PROPS: set<string> :=
    {"type", "name", "headers", "host", "port", "username", "password", "from", "misc"}

  function UnknownProps(s: string, props: set<string>, known: set<string>): set<Msg> {
    set k | k in props && k !in known :: Bad(Channels, s, k, UnknownProperty(k))
  }

  function SlackMsgs(lib: Lib, s: string, v: map<string, Yaml>): set<Msg> {
    UnknownProps(s, v.Keys, SLACK_PROPS)
    + TextMsgs(s, v, "webhook-url")
    + Need(lib.validURL(TextAt(v, "webhook-url")), Bad(Channels, s, "webhook-url", Invalid))
  }

  function PostmarkMsgs(lib: Lib, s: string, v: map<string, Yaml>): set<Msg> {
    var misc := Scalars(MapAt(v, "misc"));
    if lib.equalFold(TextAt(v, "host"), "smtp.postmarkapp.com") then
      Need("pm-transactional" in misc && misc["pm-transactional"] != "",
           Bad(Channels, s, "misc.pm-transactional", Required))
      + Need("pm-broadcast" in misc && misc["pm-broadcast"] != "",
             Bad(Channels, s, "misc.pm-broadcast", Required))
    else {}
  }

  function SmtpMsgs(lib: Lib, s: string, v: map<string, Yaml>): set<Msg> {
    UnknownProps(s, v.Keys, SMTP_PROPS)
    + TextMsgs(s, v, "host") + PortMsgs(s, v)
    + TextMsgs(s, v, "username") + TextMsgs(s, v, "password") + TextMsgs(s, v, "from")
    + Need(lib.address(TextAt(v, "from")).Some?, Bad(Channels, s, "from", BadAddress))
    + MapMsgs(s, v, "headers") + MapMsgs(s, v, "misc")
    + PostmarkMsgs(lib, s, v)
  }

  predicate KindOk(v: map<string, Yaml>) {
    KnownKind(TextAt(v, "type"))
  }

  function ChannelMsgs(lib: Lib, s: string, v: map<string, Yaml>): set<Msg> {
    if !Legal(lib, s) then {BadSlug(Channels, s)}
    else
      TextMsgs(s, v, "type")
      + if !KindOk(v) then {Bad(Channels, s, "type", NotOneOf)}
        else TextMsgs(s, v, "name")
             + if TextAt(v, "type") == SLACK then SlackMsgs(lib, s, v) else SmtpMsgs(lib, s, v)
  }

  function ChannelsMsgs(lib: Lib, cfg: Config): map<string, set<Msg>> {
    map s | s in cfg.channels :: ChannelMsgs(lib, s, cfg.channels[s])
  }

  function DetailsOf(v: map<string, Yaml>): Details {
    if TextAt(v, "type") == SLACK then SlackDetails(TextAt(v, "webhook-url"))
    else SmtpDetails(TextAt(v, "host"), NumAt(v, "port"), TextAt(v, "username"), TextAt(v, "password"),
                     TextAt(v, "from"), Scalars(MapAt(v, "headers")), Scalars(MapAt(v, "misc")))
  }

  function ChannelOf(v: map<string, Yaml>): Channel {
    Channel(TextAt(v, "name"), TextAt(v, "type"), DetailsOf(v))
  }

  /** The type an existing row keeps: the edit statement never writes it. */
  ghost function KindIn(t: Table<Channel>, s: string, kind: string): string
    requires Wf(t)
  {
    if s in Slugs(t) then View(t)[s].kind else kind
  }

  ghost function ChannelTargets(lib: Lib, cfg: Config, t: Table<Channel>): map<string, Channel>
    requires Wf(t)
  {
    map s | s in cfg.channels && Legal(lib, s) && KindOk(cfg.channels[s]) ::
      ChannelOf(cfg.channels[s]).(kind := KindIn(t, s, TextAt(cfg.channels[s], "type")))
  }

  // ---- mail groups ----

  /** The key by which the member check finds duplicates. */
  function MemberKey(lib: Lib, text: string): Option<string> {
    var a := lib.address(text);
    if a.Some? then Some(lib.lower(a.value)) else None
  }

  predicate Repeats(lib: Lib, members: seq<string>, i: nat)
    requires i < |members|
  {
    && MemberKey(lib, members[i]).Some?
    && exists j :: 0 <= j < i && MemberKey(lib, members[j]) == MemberKey(lib, members[i])
  }

  function BadMembers(lib: Lib, s: string, members: seq<string>): set<Msg> {
    set i | 0 <= i < |members| && MemberKey(lib, members[i]).None? :: Bad(Groups, s, "members", BadEmail(members[i]))
  }

  function RepeatedMembers(lib: Lib, s: string, members: seq<string>): set<Msg> {
    set i | 0 <= i < |members| && Repeats(lib, members, i) :: Bad(Groups, s, "members", Duplicated(members[i]))
  }

  function MemberMsgs(lib: Lib, s: string, members: seq<string>): set<Msg> {
    BadMembers(lib, s, members) + RepeatedMembers(lib, s, members)
  }

  function GroupMsgs(lib: Lib, s: string, v: GroupCfg): set<Msg> {
    if !Legal(lib, s) then {BadSlug(Groups, s)}
    else Need(v.name != "", Bad(Groups, s, "name", Required)) + MemberMsgs(lib, s, v.members)
  }

  function GroupsMsgs(lib: Lib, cfg: Config): map<string, set<Msg>> {
    map s | s in cfg.groups :: GroupMsgs(lib, s, cfg.groups[s])
  }

  function GroupTargets(lib: Lib, cfg: Config): map<string, Group> {
    map s | s in cfg.groups && Legal(lib, s) :: Group(cfg.groups[s].name, cfg.groups[s].description)
  }

  /** The addresses a member list leaves in the table: of two that differ only in
      case, the first. */
  function FirstSpellings(lib: Lib, members: seq<string>): set<string> {
    set i | 0 <= i < |members| && (forall j :: 0 <= j < i ==> lib.nocase(members[j]) != lib.nocase(members[i])) ::
      members[i]
  }

  // ---- references ----

  function UnknownNames(s: string, field: string, names: seq<string>, known: set<string>): set<Msg> {
    set i | 0 <= i < |names| && names[i] !in known :: Bad(Monitors, s, field, UnknownRef(names[i]))
  }

  function RepeatedNames(s: string, field: string, names: seq<string>, known: set<string>): set<Msg> {
    set i | 0 <= i < |names| && names[i] in known && names[i] in names[..i] ::
      Bad(Monitors, s, field, Duplicated(names[i]))
  }

  function NameMsgs(s: string, field: string, names: seq<string>, known: set<string>): set<Msg> {
    UnknownNames(s, field, names, known) + RepeatedNames(s, field, names, known)
  }

  function LinkMsgs(s: string, v: MonitorCfg, channels: set<string>, groups: set<string>): set<Msg> {
    NameMsgs(s, "notification-channels", v.channels, channels) + NameMsgs(s, "mail-groups", v.groups, groups)
  }

  function RefMsgs(lib: Lib, s: string, v: MonitorCfg, channels: set<string>, groups: set<string>): set<Msg> {
    if !Legal(lib, s) then {BadSlug(Monitors, s)} else LinkMsgs(s, v, channels, groups)
  }

  function RefsMsgs(lib: Lib, cfg: Config, channels: set<string>, groups: set<string>): map<string, set<Msg>> {
    map s | s in cfg.monitors :: RefMsgs(lib, s, cfg.monitors[s], channels, groups)
  }

  function EmailChannelMsgs(cfg: Config, channels: set<string>): set<Msg> {
    Need(cfg.alerts.emailChannel == "" || cfg.alerts.emailChannel in channels,
         UnknownEmailChannel(cfg.alerts.emailChannel))
  }

  /** Monitors whose links the reference stage rewrites. */
  predicate Relinks(lib: Lib, cfg: Config, s: string, channels: set<string>, groups: set<string>) {
    s in cfg.monitors && Legal(lib, s) && LinkMsgs(s, cfg.monitors[s], channels, groups) == {}
  }

  // ---- all stages together ----

  /** What the five stages report. Only the reference checks look at tables, and
      only at the slugs the earlier stages left there. */
  function StageMsgs(lib: Lib, cfg: Config, channels: set<string>, groups: set<string>): set<Msg> {
    Gather(ServicesMsgs(lib, cfg), cfg.services.Keys)
    + Gather(MonitorsMsgs(lib, cfg), cfg.monitors.Keys)
    + Gather(ChannelsMsgs(lib, cfg), cfg.channels.Keys)
    + Gather(GroupsMsgs(lib, cfg), cfg.groups.Keys)
    + Gather(RefsMsgs(lib, cfg, channels, groups), cfg.monitors.Keys)
    + EmailChannelMsgs(cfg, channels)
  }
}
