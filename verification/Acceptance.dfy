/** When a config draws no message: the constraints of docs/configuration.md as
    one predicate on the config alone. */
module Acceptance {
  import opened Prelude
  import opened SlugGrammar
  import opened Store
  import opened Config

  predicate GoodMonitor(lib: Lib, v: MonitorCfg) {
    && v.name != "" && v.url != "" && lib.validURL(v.url)
    && KnownMethod(lib, v.verb)
    && v.frequency in {10, 30, 60} && v.timeout in {5, 10, 15} && v.attempts in {1, 2, 3}
    && match v.body {
      case Null => true
      case Str(_) => true
      case Map(m) => forall k :: k in m ==> Scalar(m[k])
      case _ => false
    }
  }

  predicate HasText(v: map<string, Yaml>, key: string) {
    key in v && v[key].Str? && v[key].s != ""
  }

  predicate ScalarMapIfPresent(v: map<string, Yaml>, key: string) {
    key in v ==> v[key].Map? && forall k :: k in v[key].m ==> Scalar(v[key].m[k])
  }

  predicate GoodSlack(lib: Lib, v: map<string, Yaml>) {
    && v.Keys <= SLACK_PROPS
    && HasText(v, "webhook-url") && lib.validURL(v["webhook-url"].s)
  }

  predicate GoodSmtp(lib: Lib, v: map<string, Yaml>) {
    && v.Keys <= SMTP_PROPS
    && HasText(v, "host") && HasText(v, "username") && HasText(v, "password") && HasText(v, "from")
    && "port" in v && v["port"].Num? && v["port"].n != 0
    && lib.address(v["from"].s).Some?
    && ScalarMapIfPresent(v, "headers") && ScalarMapIfPresent(v, "misc")
    && (lib.equalFold(v["host"].s, "smtp.postmarkapp.com") ==>
          var misc := Scalars(MapAt(v, "misc"));
          && "pm-transactional" in misc && misc["pm-transactional"] != ""
          && "pm-broadcast" in misc && misc["pm-broadcast"] != "")
  }

  predicate GoodChannel(lib: Lib, v: map<string, Yaml>) {
    && HasText(v, "type") && HasText(v, "name")
    && ((v["type"].s == SLACK && GoodSlack(lib, v)) || (v["type"].s == SMTP && GoodSmtp(lib, v)))
  }

  ghost predicate GoodMembers(lib: Lib, members: seq<string>) {
    && (forall m :: m in members ==> lib.address(m).Some?)
    && (forall i, j :: 0 <= i < j < |members| ==> MemberKey(lib, members[i]) != MemberKey(lib, members[j]))
  }

  ghost predicate GoodNames(names: seq<string>, known: set<string>) {
    Distinct(names) && forall n :: n in names ==> n in known
  }

  ghost predicate GoodServices(lib: Lib, cfg: Config) {
    forall s :: s in cfg.services ==> Legal(lib, s) && cfg.services[s].name != ""
  }

  ghost predicate GoodMonitors(lib: Lib, cfg: Config) {
    forall s :: s in cfg.monitors ==> Legal(lib, s) && GoodMonitor(lib, cfg.monitors[s])
  }

  ghost predicate GoodChannels(lib: Lib, cfg: Config) {
    forall s :: s in cfg.channels ==> Legal(lib, s) && GoodChannel(lib, cfg.channels[s])
  }

  ghost predicate GoodGroups(lib: Lib, cfg: Config) {
    forall s :: s in cfg.groups ==>
      Legal(lib, s) && cfg.groups[s].name != "" && GoodMembers(lib, cfg.groups[s].members)
  }

  ghost predicate GoodLinks(cfg: Config, channels: set<string>, groups: set<string>) {
    forall s :: s in cfg.monitors ==>
      GoodNames(cfg.monitors[s].channels, channels) && GoodNames(cfg.monitors[s].groups, groups)
  }

  predicate GoodEmailChannel(cfg: Config, channels: set<string>) {
    cfg.alerts.emailChannel == "" || cfg.alerts.emailChannel in channels
  }

  ghost predicate CleanStages(lib: Lib, cfg: Config, channels: set<string>, groups: set<string>) {
    && GoodServices(lib, cfg) && GoodMonitors(lib, cfg) && GoodChannels(lib, cfg) && GoodGroups(lib, cfg)
    && GoodLinks(cfg, channels, groups) && GoodEmailChannel(cfg, channels)
  }

  /** A config that every check accepts, whatever the instance holds. */
  ghost predicate CleanConfig(lib: Lib, cfg: Config) {
    cfg.name != "" && CleanStages(lib, cfg, cfg.channels.Keys, cfg.groups.Keys)
  }

  lemma ScalarsClean(at: Section, s: string, field: string, m: map<string, Yaml>)
    ensures BadScalars(at, s, field, m) == {} <==> forall k :: k in m ==> Scalar(m[k])
  {
    if BadScalars(at, s, field, m) == {} {
      forall k | k in m ensures Scalar(m[k]) {
        assert !Scalar(m[k]) ==> Bad(at, s, field, BadValue(k)) in BadScalars(at, s, field, m);
      }
    }
  }

  lemma MonitorClean(lib: Lib, s: string, v: MonitorCfg)
    ensures MonitorMsgs(lib, s, v) == {} <==> Legal(lib, s) && GoodMonitor(lib, v)
  {
    if v.body.Map? {
      ScalarsClean(Monitors, s, "body", v.body.m);
    }
    assert BodyMsgs(s, v.body) == {} <==>
           match v.body { case Null => true case Str(_) => true
                          case Map(m) => (forall k :: k in m ==> Scalar(m[k])) case _ => false };
    UnionEmpty8(
      Need(v.name != "", Bad(Monitors, s, "name", Required)), Need(v.url != "", Bad(Monitors, s, "url", Required)),
      Need(lib.validURL(v.url), Bad(Monitors, s, "url", Invalid)),
      Need(KnownMethod(lib, v.verb), Bad(Monitors, s, "method", NotOneOf)),
      Need(v.frequency == 10 || v.frequency == 30 || v.frequency == 60, Bad(Monitors, s, "frequency", NotOneOf)),
      Need(v.timeout == 5 || v.timeout == 10 || v.timeout == 15, Bad(Monitors, s, "timeout", NotOneOf)),
      Need(v.attempts == 1 || v.attempts == 2 || v.attempts == 3, Bad(Monitors, s, "attempts", NotOneOf)),
      {});
    assert MonitorFieldMsgs(lib, s, v) + {} == MonitorFieldMsgs(lib, s, v);
    UnionEmpty(MonitorFieldMsgs(lib, s, v), BodyMsgs(s, v.body));
  }

  lemma UnionEmpty<T>(a: set<T>, b: set<T>)
    ensures a + b == {} <==> a == {} && b == {}
  {
  }

  lemma UnionEmpty8<T>(a: set<T>, b: set<T>, c: set<T>, d: set<T>, e: set<T>, f: set<T>, g: set<T>, h: set<T>)
    ensures a + b + c + d + e + f + g + h == {} <==>
            a == {} && b == {} && c == {} && d == {} && e == {} && f == {} && g == {} && h == {}
  {
  }

  lemma TextClean(s: string, v: map<string, Yaml>, key: string)
    ensures TextMsgs(s, v, key) == {} <==> HasText(v, key)
  {
  }

  lemma PortClean(s: string, v: map<string, Yaml>)
    ensures PortMsgs(s, v) == {} <==> "port" in v && v["port"].Num? && v["port"].n != 0
  {
  }

  lemma PropsClean(s: string, v: map<string, Yaml>, known: set<string>)
    ensures UnknownProps(s, v.Keys, known) == {} <==> v.Keys <= known
  {
    if UnknownProps(s, v.Keys, known) == {} {
      forall k | k in v ensures k in known {
        assert k !in known ==> Bad(Channels, s, k, UnknownProperty(k)) in UnknownProps(s, v.Keys, known);
      }
    }
  }

  lemma MapClean(s: string, v: map<string, Yaml>, key: string)
    ensures MapMsgs(s, v, key) == {} <==> ScalarMapIfPresent(v, key)
  {
    ScalarsClean(Channels, s, key, MapAt(v, key));
    UnionEmpty(Need(key in v ==> v[key].Map?, Bad(Channels, s, key, Invalid)),
               BadScalars(Channels, s, key, MapAt(v, key)));
  }

  lemma SlackClean(lib: Lib, s: string, v: map<string, Yaml>)
    ensures SlackMsgs(lib, s, v) == {} <==> GoodSlack(lib, v)
  {
    PropsClean(s, v, SLACK_PROPS);
    TextClean(s, v, "webhook-url");
    UnionEmpty(UnknownProps(s, v.Keys, SLACK_PROPS), TextMsgs(s, v, "webhook-url"));
    UnionEmpty(UnknownProps(s, v.Keys, SLACK_PROPS) + TextMsgs(s, v, "webhook-url"),
               Need(lib.validURL(TextAt(v, "webhook-url")), Bad(Channels, s, "webhook-url", Invalid)));
  }

  lemma SmtpClean(lib: Lib, s: string, v: map<string, Yaml>)
    ensures SmtpMsgs(lib, s, v) == {} <==> GoodSmtp(lib, v)
  {
    PropsClean(s, v, SMTP_PROPS);
    TextClean(s, v, "host");
    PortClean(s, v);
    TextClean(s, v, "username");
    TextClean(s, v, "password");
    TextClean(s, v, "from");
    MapClean(s, v, "headers");
    MapClean(s, v, "misc");
    var from := Need(lib.address(TextAt(v, "from")).Some?, Bad(Channels, s, "from", BadAddress));
    var first := UnknownProps(s, v.Keys, SMTP_PROPS) + TextMsgs(s, v, "host") + PortMsgs(s, v)
                 + TextMsgs(s, v, "username") + TextMsgs(s, v, "password") + TextMsgs(s, v, "from") + from
                 + MapMsgs(s, v, "headers");
    UnionEmpty8(UnknownProps(s, v.Keys, SMTP_PROPS), TextMsgs(s, v, "host"), PortMsgs(s, v), TextMsgs(s, v, "username"),
                TextMsgs(s, v, "password"), TextMsgs(s, v, "from"), from, MapMsgs(s, v, "headers"));
    UnionEmpty(first, MapMsgs(s, v, "misc"));
    UnionEmpty(first + MapMsgs(s, v, "misc"), PostmarkMsgs(lib, s, v));
  }

  lemma ChannelClean(lib: Lib, s: string, v: map<string, Yaml>)
    ensures ChannelMsgs(lib, s, v) == {} <==> Legal(lib, s) && GoodChannel(lib, v)
  {
    TextClean(s, v, "type");
    TextClean(s, v, "name");
    var kind := TextAt(v, "type");
    assert SLACK != SMTP && SLACK != "" && SMTP != "";
    if Legal(lib, s) && KindOk(v) {
      var rest := if kind == SLACK then SlackMsgs(lib, s, v) else SmtpMsgs(lib, s, v);
      assert HasText(v, "type") && v["type"].s == kind;
      UnionEmpty(TextMsgs(s, v, "name"), rest);
      UnionEmpty(TextMsgs(s, v, "type"), TextMsgs(s, v, "name") + rest);
      if kind == SLACK {
        SlackClean(lib, s, v);
      } else {
        SmtpClean(lib, s, v);
      }
      assert ChannelMsgs(lib, s, v) == TextMsgs(s, v, "type") + (TextMsgs(s, v, "name") + rest);
    } else if Legal(lib, s) {
      assert Bad(Channels, s, "type", NotOneOf) in ChannelMsgs(lib, s, v);
    }
  }

  lemma MembersClean(lib: Lib, s: string, members: seq<string>)
    ensures MemberMsgs(lib, s, members) == {} <==> GoodMembers(lib, members)
  {
    var bad, dup := BadMembers(lib, s, members), RepeatedMembers(lib, s, members);
    UnionEmpty(bad, dup);
    forall i | 0 <= i < |members| && MemberKey(lib, members[i]).None?
      ensures Bad(Groups, s, "members", BadEmail(members[i])) in bad {}
    forall i | 0 <= i < |members| && Repeats(lib, members, i)
      ensures Bad(Groups, s, "members", Duplicated(members[i])) in dup {}
    if bad == {} && dup == {} {
      forall i, j | 0 <= i < j < |members| ensures MemberKey(lib, members[i]) != MemberKey(lib, members[j]) {
        assert !Repeats(lib, members, j);
      }
    }
  }

  lemma GroupClean(lib: Lib, s: string, v: GroupCfg)
    ensures GroupMsgs(lib, s, v) == {} <==> Legal(lib, s) && v.name != "" && GoodMembers(lib, v.members)
  {
    MembersClean(lib, s, v.members);
    UnionEmpty(Need(v.name != "", Bad(Groups, s, "name", Required)), MemberMsgs(lib, s, v.members));
  }

  lemma NamesClean(s: string, field: string, names: seq<string>, known: set<string>)
    ensures NameMsgs(s, field, names, known) == {} <==> GoodNames(names, known)
  {
    var bad, dup := UnknownNames(s, field, names, known), RepeatedNames(s, field, names, known);
    UnionEmpty(bad, dup);
    forall i | 0 <= i < |names| && names[i] !in known ensures Bad(Monitors, s, field, UnknownRef(names[i])) in bad {}
    forall i | 0 <= i < |names| && names[i] in known && names[i] in names[..i]
      ensures Bad(Monitors, s, field, Duplicated(names[i])) in dup {}
    if bad == {} && dup == {} {
      forall i, j | 0 <= i < j < |names| ensures names[i] != names[j] {
        assert names[j] !in names[..j] && names[i] == names[..j][i];
      }
    }
  }

  lemma LinksClean(s: string, v: MonitorCfg, channels: set<string>, groups: set<string>)
    ensures LinkMsgs(s, v, channels, groups) == {} <==> GoodNames(v.channels, channels) && GoodNames(v.groups, groups)
  {
    NamesClean(s, "notification-channels", v.channels, channels);
    NamesClean(s, "mail-groups", v.groups, groups);
    UnionEmpty(NameMsgs(s, "notification-channels", v.channels, channels),
               NameMsgs(s, "mail-groups", v.groups, groups));
  }

  lemma EachStageSilent(lib: Lib, cfg: Config, channels: set<string>, groups: set<string>)
    ensures StageMsgs(lib, cfg, channels, groups) == {} <==>
            && Gather(ServicesMsgs(lib, cfg), cfg.services.Keys) == {}
            && Gather(MonitorsMsgs(lib, cfg), cfg.monitors.Keys) == {}
            && Gather(ChannelsMsgs(lib, cfg), cfg.channels.Keys) == {}
            && Gather(GroupsMsgs(lib, cfg), cfg.groups.Keys) == {}
            && Gather(RefsMsgs(lib, cfg, channels, groups), cfg.monitors.Keys) == {}
            && EmailChannelMsgs(cfg, channels) == {}
  {
  }

  /** The stages are silent exactly on a clean config, given the slugs the
      reference checks find in the channel and group tables. */
  lemma StagesSilent(lib: Lib, cfg: Config, channels: set<string>, groups: set<string>)
    ensures StageMsgs(lib, cfg, channels, groups) == {} <==> CleanStages(lib, cfg, channels, groups)
  {
    EachStageSilent(lib, cfg, channels, groups);
    ServicesSilent(lib, cfg);
    MonitorsSilent(lib, cfg);
    ChannelsSilent(lib, cfg);
    GroupsSilent(lib, cfg);
    RefsSilent(lib, cfg, channels, groups);
  }

  lemma ServicesSilent(lib: Lib, cfg: Config)
    ensures Gather(ServicesMsgs(lib, cfg), cfg.services.Keys) == {} <==> GoodServices(lib, cfg)
  {
    GatherClean(ServicesMsgs(lib, cfg));
    assert ServicesMsgs(lib, cfg).Keys == cfg.services.Keys;
  }

  lemma MonitorsSilent(lib: Lib, cfg: Config)
    ensures Gather(MonitorsMsgs(lib, cfg), cfg.monitors.Keys) == {} <==> GoodMonitors(lib, cfg)
  {
    GatherClean(MonitorsMsgs(lib, cfg));
    assert MonitorsMsgs(lib, cfg).Keys == cfg.monitors.Keys;
    forall s | s in cfg.monitors
      ensures MonitorsMsgs(lib, cfg)[s] == {} <==> Legal(lib, s) && GoodMonitor(lib, cfg.monitors[s])
    {
      MonitorClean(lib, s, cfg.monitors[s]);
    }
  }

  lemma ChannelsSilent(lib: Lib, cfg: Config)
    ensures Gather(ChannelsMsgs(lib, cfg), cfg.channels.Keys) == {} <==> GoodChannels(lib, cfg)
  {
    GatherClean(ChannelsMsgs(lib, cfg));
    assert ChannelsMsgs(lib, cfg).Keys == cfg.channels.Keys;
    forall s | s in cfg.channels
      ensures ChannelsMsgs(lib, cfg)[s] == {} <==> Legal(lib, s) && GoodChannel(lib, cfg.channels[s])
    {
      ChannelClean(lib, s, cfg.channels[s]);
    }
  }

  lemma GroupsSilent(lib: Lib, cfg: Config)
    ensures Gather(GroupsMsgs(lib, cfg), cfg.groups.Keys) == {} <==> GoodGroups(lib, cfg)
  {
    GatherClean(GroupsMsgs(lib, cfg));
    assert GroupsMsgs(lib, cfg).Keys == cfg.groups.Keys;
    forall s | s in cfg.groups
      ensures GroupsMsgs(lib, cfg)[s] == {} <==>
              Legal(lib, s) && cfg.groups[s].name != "" && GoodMembers(lib, cfg.groups[s].members)
    {
      GroupClean(lib, s, cfg.groups[s]);
    }
  }

  lemma RefsSilent(lib: Lib, cfg: Config, channels: set<string>, groups: set<string>)
    ensures Gather(RefsMsgs(lib, cfg, channels, groups), cfg.monitors.Keys) == {} <==>
            (forall s :: s in cfg.monitors ==> Legal(lib, s)) && GoodLinks(cfg, channels, groups)
  {
    var per := RefsMsgs(lib, cfg, channels, groups);
    GatherClean(per);
    assert per.Keys == cfg.monitors.Keys;
    forall s | s in cfg.monitors
      ensures per[s] == {} <==>
              Legal(lib, s) && GoodNames(cfg.monitors[s].channels, channels)
              && GoodNames(cfg.monitors[s].groups, groups)
    {
      LinksClean(s, cfg.monitors[s], channels, groups);
    }
  }
}
