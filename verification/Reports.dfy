/** Which messages a run reports: each names an entry and a field, and is there if
    and only if that field of that entry is bad. */
module Reports {
  import opened Prelude
  import opened SlugGrammar
  import opened Tables
  import opened Store
  import opened Config
  import opened Rename
  import opened Apply

  /** A legal slug: lower-case letters, digits and inner dashes. */
  predicate SlugText(lib: Lib, s: string) {
    && s != "" && s[0] != '-' && s[|s| - 1] != '-'
    && forall c :: c in s ==> lib.isLower(c) || '0' <= c <= '9' || c == '-'
  }

  lemma LegalIsSlugText(lib: Lib, s: string)
    ensures Legal(lib, s) <==> SlugText(lib, s)
  {
  }

  // ---- services ----

  lemma ServiceReports(lib: Lib, s: string, v: ServiceCfg, field: string, p: Problem)
    requires SlugText(lib, s)
    ensures Bad(Services, s, field, p) in ServiceMsgs(lib, s, v) <==> field == "name" && p == Required && v.name == ""
  {
    LegalIsSlugText(lib, s);
  }

  // ---- monitors ----

  predicate AnyFold(lib: Lib, verb: string, names: set<string>) {
    exists n :: n in names && lib.equalFold(verb, n)
  }

  predicate MonitorFieldBad(lib: Lib, v: MonitorCfg, field: string, p: Problem) {
    || (field == "name" && p == Required && v.name == "")
    || (field == "url" && p == Required && v.url == "")
    || (field == "url" && p == Invalid && !lib.validURL(v.url))
    || (field == "method" && p == NotOneOf && !AnyFold(lib, v.verb, {"get", "post", "patch", "put", "delete"}))
    || (field == "frequency" && p == NotOneOf && v.frequency !in {10, 30, 60})
    || (field == "timeout" && p == NotOneOf && v.timeout !in {5, 10, 15})
    || (field == "attempts" && p == NotOneOf && v.attempts !in {1, 2, 3})
    || (field == "body" && BodyBad(v.body, p))
  }

  /** A body is a string, or a map of strings and integers, or absent. */
  predicate BodyBad(body: Yaml, p: Problem) {
    || (p == Invalid && (body.Num? || body.Other?))
    || (p.BadValue? && body.Map? && ValueBad(body.m, p.key))
  }

  predicate ValueBad(m: map<string, Yaml>, k: string) {
    k in m && !m[k].Str? && !m[k].Num?
  }

  lemma BodyReports(s: string, body: Yaml, field: string, p: Problem)
    ensures Bad(Monitors, s, field, p) in BodyMsgs(s, body) <==> field == "body" && BodyBad(body, p)
  {
  }

  lemma KnownMethodIs(lib: Lib, verb: string)
    ensures KnownMethod(lib, verb) <==> AnyFold(lib, verb, {"get", "post", "patch", "put", "delete"})
  {
  }

  lemma MonitorReports(lib: Lib, s: string, v: MonitorCfg, field: string, p: Problem)
    requires SlugText(lib, s)
    ensures Bad(Monitors, s, field, p) in MonitorMsgs(lib, s, v) <==> MonitorFieldBad(lib, v, field, p)
  {
    LegalIsSlugText(lib, s);
    BodyReports(s, v.body, field, p);
    KnownMethodIs(lib, v.verb);
  }

  // ---- channels ----

  predicate TextBad(v: map<string, Yaml>, key: string, p: Problem) {
    || (p == Required && (key !in v || v[key] == Str("")))
    || (p == Invalid && !(key in v && v[key].Str?))
  }

  predicate PortBad(v: map<string, Yaml>, p: Problem) {
    || (p == Required && ("port" !in v || v["port"] == Num(0)))
    || (p == Invalid && !("port" in v && v["port"].Num?))
  }

  predicate MapBad(v: map<string, Yaml>, key: string, p: Problem) {
    || (p == Invalid && key in v && !v[key].Map?)
    || (p.BadValue? && key in v && v[key].Map? && ValueBad(v[key].m, p.key))
  }

  /** The text under `key`, or nothing. */
  function TextOr(v: map<string, Yaml>, key: string): string {
    if key in v && v[key].Str? then v[key].s else ""
  }

  predicate SlackBad(lib: Lib, v: map<string, Yaml>, field: string, p: Problem) {
    || (p == UnknownProperty(field) && field in v && field !in {"type", "name", "webhook-url"})
    || (field == "webhook-url" && TextBad(v, "webhook-url", p))
    || (field == "webhook-url" && p == Invalid && !lib.validURL(TextOr(v, "webhook-url")))
  }

  /** `misc` has no non-empty value under `key`. */
  predicate MiscLacks(v: map<string, Yaml>, key: string) {
    !("misc" in v && v["misc"].Map? && key in v["misc"].m
      && (v["misc"].m[key].Num? || (v["misc"].m[key].Str? && v["misc"].m[key].s != "")))
  }

  predicate SmtpTextBad(lib: Lib, v: map<string, Yaml>, field: string, p: Problem) {
    || (field == "host" && TextBad(v, "host", p)) || (field == "username" && TextBad(v, "username", p))
    || (field == "password" && TextBad(v, "password", p)) || (field == "from" && TextBad(v, "from", p))
    || (field == "from" && p == BadAddress && lib.address(TextOr(v, "from")) == None)
  }

  predicate SmtpMapBad(lib: Lib, v: map<string, Yaml>, field: string, p: Problem) {
    || (field == "headers" && MapBad(v, "headers", p)) || (field == "misc" && MapBad(v, "misc", p))
    || (p == Required && lib.equalFold(TextOr(v, "host"), "smtp.postmarkapp.com")
        && ((field == "misc.pm-transactional" && MiscLacks(v, "pm-transactional"))
            || (field == "misc.pm-broadcast" && MiscLacks(v, "pm-broadcast"))))
  }

  predicate SmtpProperty(field: string) {
    field in {"type", "name", "headers", "host", "port", "username", "password", "from", "misc"}
  }

  lemma SmtpProperties(field: string)
    ensures SmtpProperty(field) <==> field in SMTP_PROPS
  {
  }

  predicate SmtpFieldBad(v: map<string, Yaml>, field: string, p: Problem) {
    || (p == UnknownProperty(field) && field in v && !SmtpProperty(field))
    || (field == "port" && PortBad(v, p))
  }

  predicate SmtpBad(lib: Lib, v: map<string, Yaml>, field: string, p: Problem) {
    SmtpFieldBad(v, field, p) || SmtpTextBad(lib, v, field, p) || SmtpMapBad(lib, v, field, p)
  }

  predicate ChannelFieldBad(lib: Lib, v: map<string, Yaml>, field: string, p: Problem) {
    var kind := TextOr(v, "type");
    || (field == "type" && TextBad(v, "type", p))
    || (field == "type" && p == NotOneOf && kind != "smtp" && kind != "slack")
    || (field == "name" && (kind == "smtp" || kind == "slack") && TextBad(v, "name", p))
    || (kind == "slack" && SlackBad(lib, v, field, p))
    || (kind == "smtp" && SmtpBad(lib, v, field, p))
  }

  lemma TextReports(s: string, v: map<string, Yaml>, key: string, field: string, p: Problem)
    ensures Bad(Channels, s, field, p) in TextMsgs(s, v, key) <==> field == key && TextBad(v, key, p)
  {
  }

  lemma MapReports(s: string, v: map<string, Yaml>, key: string, field: string, p: Problem)
    ensures Bad(Channels, s, field, p) in MapMsgs(s, v, key) <==> field == key && MapBad(v, key, p)
  {
  }

  lemma PropReports(s: string, v: map<string, Yaml>, known: set<string>, field: string, p: Problem)
    ensures Bad(Channels, s, field, p) in UnknownProps(s, v.Keys, known) <==>
            p == UnknownProperty(field) && field in v && field !in known
  {
  }

  lemma SlackReports(lib: Lib, s: string, v: map<string, Yaml>, field: string, p: Problem)
    ensures Bad(Channels, s, field, p) in SlackMsgs(lib, s, v) <==> SlackBad(lib, v, field, p)
  {
    PropReports(s, v, SLACK_PROPS, field, p);
    TextReports(s, v, "webhook-url", field, p);
  }

  lemma MiscReports(v: map<string, Yaml>, key: string)
    ensures var misc := Scalars(MapAt(v, "misc"));
            !(key in misc && misc[key] != "") <==> MiscLacks(v, key)
  {
    if "misc" in v && v["misc"].Map? && key in v["misc"].m && v["misc"].m[key].Num? {
      ItoaDecimal(v["misc"].m[key].n);
    }
  }

  lemma PostmarkReports(lib: Lib, s: string, v: map<string, Yaml>, field: string, p: Problem)
    ensures Bad(Channels, s, field, p) in PostmarkMsgs(lib, s, v) <==>
            p == Required && lib.equalFold(TextOr(v, "host"), "smtp.postmarkapp.com")
            && ((field == "misc.pm-transactional" && MiscLacks(v, "pm-transactional"))
                || (field == "misc.pm-broadcast" && MiscLacks(v, "pm-broadcast")))
  {
    MiscReports(v, "pm-transactional");
    MiscReports(v, "pm-broadcast");
  }

  lemma PortReports(s: string, v: map<string, Yaml>, field: string, p: Problem)
    ensures Bad(Channels, s, field, p) in PortMsgs(s, v) <==> field == "port" && PortBad(v, p)
  {
  }

  lemma InUnion<T>(x: T, a: set<T>, b: set<T>, c: set<T>, d: set<T>, e: set<T>, f: set<T>, g: set<T>, h: set<T>,
                   i: set<T>, j: set<T>)
    ensures x in a + b + c + d + e + f + g + h + i + j <==>
            x in a || x in b || x in c || x in d || x in e || x in f || x in g || x in h || x in i || x in j
  {
  }

  lemma SmtpParts(lib: Lib, s: string, v: map<string, Yaml>, m: Msg)
    ensures m in SmtpMsgs(lib, s, v) <==>
            || m in UnknownProps(s, v.Keys, SMTP_PROPS) || m in TextMsgs(s, v, "host") || m in PortMsgs(s, v)
            || m in TextMsgs(s, v, "username") || m in TextMsgs(s, v, "password") || m in TextMsgs(s, v, "from")
            || m in Need(lib.address(TextAt(v, "from")).Some?, Bad(Channels, s, "from", BadAddress))
            || m in MapMsgs(s, v, "headers") || m in MapMsgs(s, v, "misc") || m in PostmarkMsgs(lib, s, v)
  {
    InUnion(m, UnknownProps(s, v.Keys, SMTP_PROPS), TextMsgs(s, v, "host"), PortMsgs(s, v), TextMsgs(s, v, "username"),
            TextMsgs(s, v, "password"), TextMsgs(s, v, "from"),
            Need(lib.address(TextAt(v, "from")).Some?, Bad(Channels, s, "from", BadAddress)),
            MapMsgs(s, v, "headers"), MapMsgs(s, v, "misc"), PostmarkMsgs(lib, s, v));
  }

  lemma SmtpTextReports(lib: Lib, s: string, v: map<string, Yaml>, field: string, p: Problem)
    ensures var m := Bad(Channels, s, field, p);
            (m in TextMsgs(s, v, "host") || m in TextMsgs(s, v, "username") || m in TextMsgs(s, v, "password")
             || m in TextMsgs(s, v, "from")
             || m in Need(lib.address(TextAt(v, "from")).Some?, Bad(Channels, s, "from", BadAddress))) <==>
            SmtpTextBad(lib, v, field, p)
  {
    TextReports(s, v, "host", field, p);
    TextReports(s, v, "username", field, p);
    TextReports(s, v, "password", field, p);
    TextReports(s, v, "from", field, p);
  }

  lemma SmtpMapReports(lib: Lib, s: string, v: map<string, Yaml>, field: string, p: Problem)
    ensures var m := Bad(Channels, s, field, p);
            (m in MapMsgs(s, v, "headers") || m in MapMsgs(s, v, "misc") || m in PostmarkMsgs(lib, s, v)) <==>
            SmtpMapBad(lib, v, field, p)
  {
    MapReports(s, v, "headers", field, p);
    MapReports(s, v, "misc", field, p);
    PostmarkReports(lib, s, v, field, p);
  }

  lemma SmtpFieldReports(s: string, v: map<string, Yaml>, field: string, p: Problem)
    ensures var m := Bad(Channels, s, field, p);
            (m in UnknownProps(s, v.Keys, SMTP_PROPS) || m in PortMsgs(s, v)) <==> SmtpFieldBad(v, field, p)
  {
    PropReports(s, v, SMTP_PROPS, field, p);
    SmtpProperties(field);
    PortReports(s, v, field, p);
  }

  lemma SmtpReports(lib: Lib, s: string, v: map<string, Yaml>, field: string, p: Problem)
    ensures Bad(Channels, s, field, p) in SmtpMsgs(lib, s, v) <==> SmtpBad(lib, v, field, p)
  {
    SmtpParts(lib, s, v, Bad(Channels, s, field, p));
    SmtpFieldReports(s, v, field, p);
    SmtpTextReports(lib, s, v, field, p);
    SmtpMapReports(lib, s, v, field, p);
  }

  /** What an entry under a legal slug is checked for, by its type. */
  function TypeMsgs(lib: Lib, s: string, v: map<string, Yaml>): set<Msg> {
    if TextOr(v, "type") == "slack" then SlackMsgs(lib, s, v)
    else if TextOr(v, "type") == "smtp" then SmtpMsgs(lib, s, v) else {Bad(Channels, s, "type", NotOneOf)}
  }

  lemma ChannelParts(lib: Lib, s: string, v: map<string, Yaml>, m: Msg)
    requires Legal(lib, s)
    ensures m in ChannelMsgs(lib, s, v) <==>
            || m in TextMsgs(s, v, "type") || m in TypeMsgs(lib, s, v)
            || (KnownKind(TextOr(v, "type")) && m in TextMsgs(s, v, "name"))
  {
  }

  lemma TypeReports(lib: Lib, s: string, v: map<string, Yaml>, field: string, p: Problem)
    ensures Bad(Channels, s, field, p) in TypeMsgs(lib, s, v) <==>
            var kind := TextOr(v, "type");
            || (kind == "slack" && SlackBad(lib, v, field, p))
            || (kind == "smtp" && SmtpBad(lib, v, field, p))
            || (field == "type" && p == NotOneOf && kind != "smtp" && kind != "slack")
  {
    assert "slack" != "smtp";
    SlackReports(lib, s, v, field, p);
    SmtpReports(lib, s, v, field, p);
  }

  lemma ChannelReports(lib: Lib, s: string, v: map<string, Yaml>, field: string, p: Problem)
    requires SlugText(lib, s)
    ensures Bad(Channels, s, field, p) in ChannelMsgs(lib, s, v) <==> ChannelFieldBad(lib, v, field, p)
  {
    LegalIsSlugText(lib, s);
    ChannelParts(lib, s, v, Bad(Channels, s, field, p));
    TextReports(s, v, "type", field, p);
    TextReports(s, v, "name", field, p);
    TypeReports(lib, s, v, field, p);
  }

  // ---- mail groups ----

  /** The same address as an earlier one, but for case. */
  predicate AddressRepeats(lib: Lib, members: seq<string>, i: nat)
    requires i < |members|
  {
    lib.address(members[i]).Some?
    && exists j :: 0 <= j < i && lib.address(members[j]).Some?
                   && lib.lower(lib.address(members[j]).value) == lib.lower(lib.address(members[i]).value)
  }

  predicate GroupFieldBad(lib: Lib, v: GroupCfg, field: string, p: Problem) {
    || (field == "name" && p == Required && v.name == "")
    || (field == "members" && p.BadEmail? && p.text in v.members && lib.address(p.text) == None)
    || (field == "members" && p.Duplicated?
        && exists i :: 0 <= i < |v.members| && v.members[i] == p.text && AddressRepeats(lib, v.members, i))
  }

  lemma GroupReports(lib: Lib, s: string, v: GroupCfg, field: string, p: Problem)
    requires SlugText(lib, s)
    ensures Bad(Groups, s, field, p) in GroupMsgs(lib, s, v) <==> GroupFieldBad(lib, v, field, p)
  {
    LegalIsSlugText(lib, s);
    forall i | 0 <= i < |v.members| ensures Repeats(lib, v.members, i) <==> AddressRepeats(lib, v.members, i) {}
  }

  // ---- references ----

  predicate NamesBad(names: seq<string>, known: set<string>, p: Problem) {
    || (p.UnknownRef? && p.text in names && p.text !in known)
    || (p.Duplicated? && p.text in known
        && exists i, j :: 0 <= i < j < |names| && names[i] == p.text && names[j] == p.text)
  }

  lemma NameReports(s: string, key: string, names: seq<string>, known: set<string>, field: string, p: Problem)
    ensures Bad(Monitors, s, field, p) in NameMsgs(s, key, names, known) <==> field == key && NamesBad(names, known, p)
  {
    forall j | 0 <= j < |names| ensures names[j] in names[..j] <==> exists i :: 0 <= i < j && names[i] == names[j] {
      if i :| 0 <= i < j && names[i] == names[j] {
        assert names[..j][i] == names[j];
      }
    }
  }

  lemma RefReports(lib: Lib, s: string, v: MonitorCfg, channels: set<string>, groups: set<string>,
                   field: string, p: Problem)
    requires SlugText(lib, s)
    ensures Bad(Monitors, s, field, p) in RefMsgs(lib, s, v, channels, groups) <==>
            || (field == "notification-channels" && NamesBad(v.channels, channels, p))
            || (field == "mail-groups" && NamesBad(v.groups, groups, p))
  {
    LegalIsSlugText(lib, s);
    NameReports(s, "notification-channels", v.channels, channels, field, p);
    NameReports(s, "mail-groups", v.groups, groups, field, p);
  }

  // ---- renames ----

  /** The part of a rename key before the dot. */
  predicate Names(at: Section, entity: string) {
    match at
    case Services => entity == "services"
    case Monitors => entity == "monitors"
    case Channels => entity == "notification-channels"
    case Groups => entity == "mail-groups"
  }

  lemma NamesSection(at: Section, entity: string, src: string)
    requires '.' !in src && Names(at, entity)
    ensures Source(entity + "." + src) == Some((at, src))
  {
    KeyHasSource(at, src);
  }

  /** What a rename entry reports, given the slugs its section holds at that time. */
  lemma RenameReports(lib: Lib, cfg: Config, at: Section, entity: string, src: string, dst: string,
                      present: set<string>)
    requires '.' !in src && Names(at, entity)
    ensures var msgs, k := EntryMsgs(lib, cfg, entity + "." + src, dst, present), entity + "." + src;
            var valid := src != dst && (dst == "" || SlugText(lib, dst));
            && (RenameToItself(src, dst) in msgs <==> src == dst)
            && (RenameBadTarget(dst) in msgs <==> dst != "" && !SlugText(lib, dst))
            && (RenameNoSource(k) in msgs <==> valid && src !in present)
            && (RenameTaken(dst) in msgs <==> src in present && src != dst && dst in present)
            && (RenameUndeclared(at, src, dst) in msgs <==> valid && src in present && dst !in Declared(cfg, at))
            && forall m :: m in msgs ==>
                 m in {RenameToItself(src, dst), RenameBadTarget(dst), RenameNoSource(k), RenameTaken(dst),
                       RenameUndeclared(at, src, dst)}
  {
    var k := entity + "." + src;
    NamesSection(at, entity, src);
    LegalIsSlugText(lib, dst);
    SourceIsKey(k);
    JoinSplits(entity, src);
  }

  /** A key that does not split in two, or names no section. */
  lemma OtherKeyReports(lib: Lib, cfg: Config, k: string, dst: string, present: set<string>)
    requires forall at, src :: '.' !in src ==> k != EntityName(at) + "." + src
    ensures RenameMalformed(k) in EntryMsgs(lib, cfg, k, dst, present)
            || RenameUnknownEntity(k) in EntryMsgs(lib, cfg, k, dst, present)
  {
    if SplitKey(k).Some? {
      SplitKeyJoins(k);
    }
  }

  /** A message of the pass comes from one entry, at its turn. */
  lemma {:induction false} FoldReports(lib: Lib, cfg: Config, db: Store, order: seq<string>, m: Msg)
    requires Elems(order) <= cfg.rename.Keys
    ensures m in Fold(lib, cfg, db, order).1 <==> exists i :: 0 <= i < |order| && ReportedAt(lib, cfg, db, order, i, m)
  {
    if order != [] {
      var n := |order| - 1;
      SplitLast(order);
      ElemsAppend(order[..n], [order[n]]);
      FoldReports(lib, cfg, db, order[..n], m);
      FoldStep(lib, cfg, db, order[..n], order[n]);
      forall i | 0 <= i < n
        ensures ReportedAt(lib, cfg, db, order[..n], i, m) == ReportedAt(lib, cfg, db, order, i, m)
      {
        assert order[..n][..i] == order[..i];
      }
      assert m in Fold(lib, cfg, db, order).1 <==>
             m in Fold(lib, cfg, db, order[..n]).1 || ReportedAt(lib, cfg, db, order, n, m);
      if i :| 0 <= i < n && ReportedAt(lib, cfg, db, order[..n], i, m) {
        assert ReportedAt(lib, cfg, db, order, i, m);
      }
    }
  }

  predicate ReportedAt(lib: Lib, cfg: Config, db: Store, order: seq<string>, i: nat, m: Msg)
    requires Elems(order) <= cfg.rename.Keys && i < |order|
  {
    var k := order[i];
    assert k in Elems(order) && Elems(order[..i]) <= Elems(order);
    m in EntryMsgs(lib, cfg, k, cfg.rename[k], Present(Fold(lib, cfg, db, order[..i]).0, k))
  }

  // ---- a whole run ----

  predicate FieldBad(lib: Lib, cfg: Config, channels: set<string>, groups: set<string>,
                     at: Section, s: string, field: string, p: Problem) {
    s in Declared(cfg, at)
    && match at
       case Services => field == "name" && p == Required && cfg.services[s].name == ""
       case Monitors =>
         || MonitorFieldBad(lib, cfg.monitors[s], field, p)
         || (field == "notification-channels" && NamesBad(cfg.monitors[s].channels, channels, p))
         || (field == "mail-groups" && NamesBad(cfg.monitors[s].groups, groups, p))
       case Channels => ChannelFieldBad(lib, cfg.channels[s], field, p)
       case Groups => GroupFieldBad(lib, cfg.groups[s], field, p)
  }

  predicate About(m: Msg, at: Section, s: string) {
    m == BadSlug(at, s) || (m.Bad? && m.where == at && m.slug == s)
  }

  /** All of them name this entry. */
  ghost predicate AllAbout(msgs: set<Msg>, at: Section, s: string) {
    forall m :: m in msgs ==> About(m, at, s)
  }

  /** All of them name a field of this entry. */
  ghost predicate AllFields(msgs: set<Msg>, at: Section, s: string) {
    forall m :: m in msgs ==> m.Bad? && m.where == at && m.slug == s
  }

  lemma PartsAbout(lib: Lib, s: string, v: map<string, Yaml>, key: string, props: set<string>)
    ensures AllFields(TextMsgs(s, v, key), Channels, s) && AllFields(MapMsgs(s, v, key), Channels, s)
    ensures AllFields(UnknownProps(s, v.Keys, props), Channels, s) && AllFields(PortMsgs(s, v), Channels, s)
    ensures AllFields(PostmarkMsgs(lib, s, v), Channels, s)
  {
  }

  lemma SmtpAbout(lib: Lib, s: string, v: map<string, Yaml>)
    ensures AllFields(SmtpMsgs(lib, s, v), Channels, s)
  {
    PartsAbout(lib, s, v, "host", SMTP_PROPS);
    PartsAbout(lib, s, v, "username", SMTP_PROPS);
    PartsAbout(lib, s, v, "password", SMTP_PROPS);
    PartsAbout(lib, s, v, "from", SMTP_PROPS);
    PartsAbout(lib, s, v, "headers", SMTP_PROPS);
    PartsAbout(lib, s, v, "misc", SMTP_PROPS);
    forall m | m in SmtpMsgs(lib, s, v) ensures m.Bad? && m.where == Channels && m.slug == s {
      SmtpParts(lib, s, v, m);
    }
  }

  lemma SlackAbout(lib: Lib, s: string, v: map<string, Yaml>)
    ensures AllFields(SlackMsgs(lib, s, v), Channels, s)
  {
    PartsAbout(lib, s, v, "webhook-url", SLACK_PROPS);
  }

  lemma TypeAbout(lib: Lib, s: string, v: map<string, Yaml>)
    ensures AllFields(TypeMsgs(lib, s, v), Channels, s)
  {
    SlackAbout(lib, s, v);
    SmtpAbout(lib, s, v);
  }

  lemma ChannelAbout(lib: Lib, s: string, v: map<string, Yaml>)
    requires Legal(lib, s)
    ensures AllFields(ChannelMsgs(lib, s, v), Channels, s)
  {
    PartsAbout(lib, s, v, "type", SLACK_PROPS);
    PartsAbout(lib, s, v, "name", SLACK_PROPS);
    TypeAbout(lib, s, v);
    forall m | m in ChannelMsgs(lib, s, v) ensures m.Bad? && m.where == Channels && m.slug == s {
      ChannelParts(lib, s, v, m);
    }
  }

  lemma MonitorAbout(lib: Lib, s: string, v: MonitorCfg)
    requires Legal(lib, s)
    ensures AllFields(MonitorMsgs(lib, s, v), Monitors, s)
  {
    assert AllFields(MonitorFieldMsgs(lib, s, v), Monitors, s);
    assert AllFields(BodyMsgs(s, v.body), Monitors, s);
  }

  lemma GroupAbout(lib: Lib, s: string, v: GroupCfg)
    requires Legal(lib, s)
    ensures AllFields(GroupMsgs(lib, s, v), Groups, s)
  {
  }

  lemma RefAbout(lib: Lib, s: string, v: MonitorCfg, channels: set<string>, groups: set<string>)
    requires Legal(lib, s)
    ensures AllFields(RefMsgs(lib, s, v, channels, groups), Monitors, s)
  {
  }

  /** The messages of a stage about one entry are those of that entry. */
  lemma GatherOne(per: map<string, set<Msg>>, at: Section, s: string, m: Msg)
    requires About(m, at, s) && EachAbout(per, at)
    ensures m in Gather(per, per.Keys) <==> s in per && m in per[s]
  {
  }

  lemma GatherOther(per: map<string, set<Msg>>, at: Section, m: Msg)
    requires EachAbout(per, at)
    requires forall t :: !About(m, at, t)
    ensures m !in Gather(per, per.Keys)
  {
  }

  ghost predicate EachAbout(per: map<string, set<Msg>>, at: Section) {
    forall t :: t in per ==> AllAbout(per[t], at, t)
  }

  lemma EntriesAbout(lib: Lib, cfg: Config, channels: set<string>, groups: set<string>)
    ensures EachAbout(ServicesMsgs(lib, cfg), Services) && EachAbout(MonitorsMsgs(lib, cfg), Monitors)
    ensures EachAbout(ChannelsMsgs(lib, cfg), Channels) && EachAbout(GroupsMsgs(lib, cfg), Groups)
    ensures EachAbout(RefsMsgs(lib, cfg, channels, groups), Monitors)
  {
    forall t | t in cfg.monitors
      ensures AllAbout(MonitorMsgs(lib, t, cfg.monitors[t]), Monitors, t)
      ensures AllAbout(RefMsgs(lib, t, cfg.monitors[t], channels, groups), Monitors, t)
    {
      if Legal(lib, t) {
        MonitorAbout(lib, t, cfg.monitors[t]);
        RefAbout(lib, t, cfg.monitors[t], channels, groups);
      }
    }
    forall t | t in cfg.channels ensures AllAbout(ChannelMsgs(lib, t, cfg.channels[t]), Channels, t) {
      if Legal(lib, t) {
        ChannelAbout(lib, t, cfg.channels[t]);
      }
    }
    forall t | t in cfg.groups ensures AllAbout(GroupMsgs(lib, t, cfg.groups[t]), Groups, t) {
      if Legal(lib, t) {
        GroupAbout(lib, t, cfg.groups[t]);
      }
    }
  }

  /** The stage messages about an entry of a section. */
  lemma StageAbout(lib: Lib, cfg: Config, channels: set<string>, groups: set<string>, at: Section, s: string, m: Msg)
    requires About(m, at, s)
    ensures m in StageMsgs(lib, cfg, channels, groups) <==>
            s in Declared(cfg, at)
            && match at
               case Services => m in ServiceMsgs(lib, s, cfg.services[s])
               case Monitors => m in MonitorMsgs(lib, s, cfg.monitors[s])
                                || m in RefMsgs(lib, s, cfg.monitors[s], channels, groups)
               case Channels => m in ChannelMsgs(lib, s, cfg.channels[s])
               case Groups => m in GroupMsgs(lib, s, cfg.groups[s])
  {
    var a, b := ServicesMsgs(lib, cfg), MonitorsMsgs(lib, cfg);
    var c, d := ChannelsMsgs(lib, cfg), GroupsMsgs(lib, cfg);
    var e := RefsMsgs(lib, cfg, channels, groups);
    EntriesAbout(lib, cfg, channels, groups);
    if at == Services { GatherOne(a, at, s, m); } else { GatherOther(a, Services, m); }
    if at == Monitors { GatherOne(b, at, s, m); } else { GatherOther(b, Monitors, m); }
    if at == Channels { GatherOne(c, at, s, m); } else { GatherOther(c, Channels, m); }
    if at == Groups { GatherOne(d, at, s, m); } else { GatherOther(d, Groups, m); }
    if at == Monitors { GatherOne(e, at, s, m); } else { GatherOther(e, Monitors, m); }
    assert a.Keys == cfg.services.Keys && b.Keys == e.Keys == cfg.monitors.Keys;
    assert c.Keys == cfg.channels.Keys && d.Keys == cfg.groups.Keys;
  }

  predicate AboutRenames(m: Msg) {
    m.RenameMalformed? || m.RenameUnknownEntity? || m.RenameToItself? || m.RenameBadTarget? || m.RenameNoSource?
    || m.RenameTaken? || m.RenameUndeclared?
  }

  lemma EntryIsRename(lib: Lib, cfg: Config, k: string, dst: string, present: set<string>, m: Msg)
    requires m in EntryMsgs(lib, cfg, k, dst, present)
    ensures AboutRenames(m)
  {
  }

  lemma FoldIsRenames(lib: Lib, cfg: Config, db: Store, order: seq<string>, m: Msg)
    requires Elems(order) <= cfg.rename.Keys && m in Fold(lib, cfg, db, order).1
    ensures AboutRenames(m)
  {
    FoldReports(lib, cfg, db, order, m);
    var i :| 0 <= i < |order| && ReportedAt(lib, cfg, db, order, i, m);
    var k := order[i];
    assert k in Elems(order) && Elems(order[..i]) <= Elems(order);
    EntryIsRename(lib, cfg, k, cfg.rename[k], Present(Fold(lib, cfg, db, order[..i]).0, k), m);
  }

  lemma StageIsNoRename(lib: Lib, cfg: Config, channels: set<string>, groups: set<string>, m: Msg)
    requires AboutRenames(m) || m == NameRequired
    ensures m !in StageMsgs(lib, cfg, channels, groups)
  {
    EntriesAbout(lib, cfg, channels, groups);
    GatherOther(ServicesMsgs(lib, cfg), Services, m);
    GatherOther(MonitorsMsgs(lib, cfg), Monitors, m);
    GatherOther(ChannelsMsgs(lib, cfg), Channels, m);
    GatherOther(GroupsMsgs(lib, cfg), Groups, m);
    GatherOther(RefsMsgs(lib, cfg, channels, groups), Monitors, m);
    assert ServicesMsgs(lib, cfg).Keys == cfg.services.Keys && ChannelsMsgs(lib, cfg).Keys == cfg.channels.Keys;
    assert MonitorsMsgs(lib, cfg).Keys == RefsMsgs(lib, cfg, channels, groups).Keys == cfg.monitors.Keys;
    assert GroupsMsgs(lib, cfg).Keys == cfg.groups.Keys;
  }

  lemma EmailReports(lib: Lib, cfg: Config, channels: set<string>, groups: set<string>, e: string)
    ensures UnknownEmailChannel(e) in StageMsgs(lib, cfg, channels, groups) <==>
            e == cfg.alerts.emailChannel != "" && e !in channels
  {
    var m := UnknownEmailChannel(e);
    EntriesAbout(lib, cfg, channels, groups);
    GatherOther(ServicesMsgs(lib, cfg), Services, m);
    GatherOther(MonitorsMsgs(lib, cfg), Monitors, m);
    GatherOther(ChannelsMsgs(lib, cfg), Channels, m);
    GatherOther(GroupsMsgs(lib, cfg), Groups, m);
    GatherOther(RefsMsgs(lib, cfg, channels, groups), Monitors, m);
    assert ServicesMsgs(lib, cfg).Keys == cfg.services.Keys && ChannelsMsgs(lib, cfg).Keys == cfg.channels.Keys;
    assert MonitorsMsgs(lib, cfg).Keys == RefsMsgs(lib, cfg, channels, groups).Keys == cfg.monitors.Keys;
    assert GroupsMsgs(lib, cfg).Keys == cfg.groups.Keys;
  }

  /** A run reports a field of an entry if and only if the slug of the entry is legal
      and the field is bad; references are looked up among the rows the run leaves. */
  lemma RunReportsFields(lib: Lib, cfg: Config, order: seq<string>, db0: Store, db: Store, msgs: set<Msg>,
                         at: Section, s: string, field: string, p: Problem)
    requires Consistent(lib, db0) && RunVia(lib, cfg, order, db0, db, msgs)
    ensures Bad(at, s, field, p) in msgs <==>
            SlugText(lib, s) && FieldBad(lib, cfg, Slugs(db.channels), Slugs(db.groups), at, s, field, p)
    ensures BadSlug(at, s) in msgs <==> s in Declared(cfg, at) && !SlugText(lib, s)
  {
    RunReportsEntry(lib, cfg, order, db0, db, msgs, at, s, Bad(at, s, field, p));
    RunReportsEntry(lib, cfg, order, db0, db, msgs, at, s, BadSlug(at, s));
    EntryReports(lib, cfg, Slugs(db.channels), Slugs(db.groups), at, s, field, p);
    SlugReports(lib, cfg, Slugs(db.channels), Slugs(db.groups), at, s);
  }

  lemma RunReportsEntry(lib: Lib, cfg: Config, order: seq<string>, db0: Store, db: Store, msgs: set<Msg>,
                        at: Section, s: string, m: Msg)
    requires Consistent(lib, db0) && RunVia(lib, cfg, order, db0, db, msgs) && About(m, at, s)
    ensures m in msgs <==> m in StageMsgs(lib, cfg, Slugs(db.channels), Slugs(db.groups))
  {
    if m in Fold(lib, cfg, db0, order).1 {
      FoldIsRenames(lib, cfg, db0, order, m);
    }
  }

  lemma EntryReports(lib: Lib, cfg: Config, channels: set<string>, groups: set<string>,
                     at: Section, s: string, field: string, p: Problem)
    ensures Bad(at, s, field, p) in StageMsgs(lib, cfg, channels, groups) <==>
            SlugText(lib, s) && FieldBad(lib, cfg, channels, groups, at, s, field, p)
  {
    StageAbout(lib, cfg, channels, groups, at, s, Bad(at, s, field, p));
    LegalIsSlugText(lib, s);
    if s in Declared(cfg, at) && SlugText(lib, s) {
      match at
      case Services => ServiceReports(lib, s, cfg.services[s], field, p);
      case Monitors =>
        MonitorReports(lib, s, cfg.monitors[s], field, p);
        RefReports(lib, s, cfg.monitors[s], channels, groups, field, p);
      case Channels => ChannelReports(lib, s, cfg.channels[s], field, p);
      case Groups => GroupReports(lib, s, cfg.groups[s], field, p);
    }
  }

  lemma SlugReports(lib: Lib, cfg: Config, channels: set<string>, groups: set<string>, at: Section, s: string)
    ensures BadSlug(at, s) in StageMsgs(lib, cfg, channels, groups) <==> s in Declared(cfg, at) && !SlugText(lib, s)
  {
    StageAbout(lib, cfg, channels, groups, at, s, BadSlug(at, s));
    LegalIsSlugText(lib, s);
    if s in Declared(cfg, at) && Legal(lib, s) {
      match at
      case Services =>
      case Monitors =>
        MonitorAbout(lib, s, cfg.monitors[s]);
        RefAbout(lib, s, cfg.monitors[s], channels, groups);
      case Channels => ChannelAbout(lib, s, cfg.channels[s]);
      case Groups => GroupAbout(lib, s, cfg.groups[s]);
    }
  }

  /** The other messages of a run. */
  lemma RunReportsRest(lib: Lib, cfg: Config, order: seq<string>, db0: Store, db: Store, msgs: set<Msg>, m: Msg)
    requires Consistent(lib, db0) && RunVia(lib, cfg, order, db0, db, msgs)
    ensures NameRequired in msgs <==> cfg.name == ""
    ensures m.UnknownEmailChannel? ==>
              (m in msgs <==>
                 m.slug == cfg.alerts.emailChannel != ""
                 && forall i :: i in db.channels ==> db.channels[i].slug != m.slug)
    ensures AboutRenames(m) ==> (m in msgs <==> exists i :: 0 <= i < |order| && ReportedAt(lib, cfg, db0, order, i, m))
  {
    FoldReports(lib, cfg, db0, order, m);
    if m in Fold(lib, cfg, db0, order).1 {
      FoldIsRenames(lib, cfg, db0, order, m);
    }
    if NameRequired in Fold(lib, cfg, db0, order).1 {
      FoldIsRenames(lib, cfg, db0, order, NameRequired);
    }
    StageIsNoRename(lib, cfg, Slugs(db.channels), Slugs(db.groups), NameRequired);
    if m.UnknownEmailChannel? {
      EmailReports(lib, cfg, Slugs(db.channels), Slugs(db.groups), m.slug);
    } else if AboutRenames(m) {
      StageIsNoRename(lib, cfg, Slugs(db.channels), Slugs(db.groups), m);
    }
  }
}
