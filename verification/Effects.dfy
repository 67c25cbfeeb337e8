/** What any run of applyConfig, valid file or not, does to every row of the store,
    told row by row and column by column. */
module Effects {
  import opened Prelude
  import opened SlugGrammar
  import opened Tables
  import opened Store
  import opened Config
  import opened Acceptance
  import opened Reconciler
  import opened Rename
  import opened References
  import opened Apply
  import opened Convergence

  // ---- the rename pass moves slugs and nothing else ----

  ghost predicate SameRows<F>(a: Table<F>, b: Table<F>) {
    b.Keys == a.Keys && forall i :: i in a ==> b[i].f == a[i].f
  }

  ghost predicate OnlySlugs(a: Store, b: Store) {
    && SameRows(a.services, b.services) && SameRows(a.monitors, b.monitors)
    && SameRows(a.channels, b.channels) && SameRows(a.groups, b.groups)
    && b.name == a.name && b.alertServices == a.alertServices && b.monitorLogs == a.monitorLogs
    && b.members == a.members && b.channelLinks == a.channelLinks && b.groupLinks == a.groupLinks
    && b.smtpChannel == a.smtpChannel && b.settings == a.settings
  }

  lemma {:induction false} RenamesMoveSlugs(lib: Lib, cfg: Config, db: Store, order: seq<string>)
    requires Consistent(lib, db) && Elems(order) <= cfg.rename.Keys
    ensures OnlySlugs(db, Fold(lib, cfg, db, order).0)
  {
    if order != [] {
      var k, rest := order[|order| - 1], order[..|order| - 1];
      SplitLast(order);
      ElemsAppend(rest, [k]);
      RenamesMoveSlugs(lib, cfg, db, rest);
      FoldKeeps(lib, cfg, db, rest);
      FoldStep(lib, cfg, db, rest, k);
      EntryMovesSlugs(lib, Fold(lib, cfg, db, rest).0, k, cfg.rename[k]);
    }
  }

  lemma MovingSame<F>(t: Table<F>, src: string, dst: string)
    requires Wf(t)
    ensures SameRows(t, Moving(t, src, dst))
  {
    MovingKeeps(t, src, dst);
  }

  lemma EntryMovesSlugs(lib: Lib, db: Store, k: string, dst: string)
    requires Consistent(lib, db)
    ensures OnlySlugs(db, EntryStore(db, k, dst))
  {
    if Source(k).Some? {
      MoveInMovesSlugs(lib, db, Source(k).value.0, Source(k).value.1, dst);
    }
  }

  lemma MoveInMovesSlugs(lib: Lib, db: Store, at: Section, src: string, dst: string)
    requires Consistent(lib, db)
    ensures OnlySlugs(db, MoveIn(db, at, src, dst))
  {
    match at
    case Services => MovingSame(db.services, src, dst);
    case Monitors => MovingSame(db.monitors, src, dst);
    case Channels => MovingSame(db.channels, src, dst);
    case Groups => MovingSame(db.groups, src, dst);
  }

  /** What one rename does: the row with the source slug gets the target, if no row
      of its section has it; no other row changes its slug. */
  lemma RenameMoves(db: Store, at: Section, entity: string, src: string, dst: string, x: Section, i: Id)
    requires '.' !in src && Source(entity + "." + src) == Some((at, src))
    requires i in SlugMap(db, x)
    ensures i in SlugMap(EntryStore(db, entity + "." + src, dst), x)
    ensures SlugMap(EntryStore(db, entity + "." + src, dst), x)[i] ==
            if x == at && SlugMap(db, x)[i] == src && dst !in SlugsOf(db, at) then dst else SlugMap(db, x)[i]
  {
  }

  // ---- which rows stay and which are created ----

  /** The row is there after the renames, under a slug the file declares. */
  predicate Stays<F>(mid: Table<F>, keys: set<string>, i: Id) {
    i in mid && mid[i].slug in keys
  }

  /** Rows with declared slugs stay, under their ids, and keep their fields when the
      stage cannot write the entry; the others go. Whatever else is there is new,
      and every entry that can be written has its row. */
  ghost predicate RowsFollow<F>(mid: Table<F>, t: Table<F>, keys: set<string>, written: set<string>) {
    && (forall i :: Stays(mid, keys, i) ==> i in t && t[i].slug == mid[i].slug)
    && (forall i :: Stays(mid, keys, i) && mid[i].slug !in written ==> t[i].f == mid[i].f)
    && (forall i :: i in t && !Stays(mid, keys, i) ==> t[i].slug in written)
    && (forall i, j :: i in t && !Stays(mid, keys, i) && Stays(mid, keys, j) ==> t[i].slug != mid[j].slug)
    && (forall s :: s in written ==> exists i :: i in t && t[i].slug == s)
  }

  lemma SettledFollows<F>(mid: Table<F>, t: Table<F>, target: map<string, F>, keys: set<string>, written: set<string>)
    requires Wf(mid) && Settled(Keep(mid, keys), t, target) && target.Keys == written <= keys
    ensures RowsFollow(mid, t, keys, written)
    ensures forall i :: i in t && t[i].slug in written ==> t[i].f == target[t[i].slug]
  {
  }

  /** Entries under a legal slug. */
  function LegalKeys(lib: Lib, keys: set<string>): set<string> {
    set s | s in keys && Legal(lib, s)
  }

  /** Channel entries under a legal slug and with one of the two types. */
  function TypedKeys(lib: Lib, cfg: Config): set<string> {
    set s | s in cfg.channels && Legal(lib, s)
            && "type" in cfg.channels[s]
            && (cfg.channels[s]["type"] == Str("smtp") || cfg.channels[s]["type"] == Str("slack"))
  }

  // ---- columns ----

  /** `texts` has the strings and integers of a YAML map, as text. */
  ghost predicate TextsOf(m: map<string, Yaml>, texts: map<string, string>) {
    && (forall k :: k in texts <==> k in m && (m[k].Str? || m[k].Num?))
    && (forall k :: k in texts && m[k].Str? ==> texts[k] == m[k].s)
    && (forall k :: k in texts && m[k].Num? ==> Decimal(texts[k], m[k].n))
  }

  ghost predicate ShowsBody(lib: Lib, body: Yaml, format: Option<string>, text: Option<string>) {
    match body
    case Str(t) => format == Some("text") && text == Some(t)
    case Map(m) =>
      && format == Some("form")
      && exists texts :: TextsOf(m, texts) && text == Some(lib.encodeForm(map k | k in texts :: [texts[k]]))
    case _ => format == None && text == None
  }

  ghost predicate ShowsMonitor(lib: Lib, v: MonitorCfg, f: Monitor) {
    && f.name == v.name && f.url == v.url && f.verb == lib.upper(v.verb) && f.headers == v.headers
    && f.frequency == v.frequency && f.timeout == v.timeout && f.attempts == v.attempts
    && ShowsBody(lib, v.body, f.bodyFormat, f.body)
  }

  /** The text under `key`, or nothing. */
  predicate ShowsText(v: map<string, Yaml>, key: string, text: string) {
    text == if key in v && v[key].Str? then v[key].s else ""
  }

  ghost predicate ShowsMap(v: map<string, Yaml>, key: string, texts: map<string, string>) {
    TextsOf(if key in v && v[key].Map? then v[key].m else map[], texts)
  }

  ghost predicate ShowsDetails(v: map<string, Yaml>, d: Details)
    requires "type" in v
  {
    if v["type"] == Str("slack") then d.SlackDetails? && ShowsText(v, "webhook-url", d.webhookURL)
    else
      && d.SmtpDetails?
      && ShowsText(v, "host", d.host) && d.port == (if "port" in v && v["port"].Num? then v["port"].n else 0)
      && ShowsText(v, "username", d.username) && ShowsText(v, "password", d.password)
      && ShowsText(v, "from", d.sender)
      && ShowsMap(v, "headers", d.headers) && ShowsMap(v, "misc", d.misc)
  }

  lemma ScalarsTexts(m: map<string, Yaml>)
    ensures TextsOf(m, Scalars(m))
  {
    forall k | k in m && m[k].Num? ensures Decimal(Scalars(m)[k], m[k].n) {
      ItoaDecimal(m[k].n);
    }
  }

  lemma MonitorShown(lib: Lib, v: MonitorCfg)
    ensures ShowsMonitor(lib, v, MonitorOf(lib, v))
  {
    if v.body.Map? {
      ScalarsTexts(v.body.m);
      assert Singles(Scalars(v.body.m)) == map k | k in Scalars(v.body.m) :: [Scalars(v.body.m)[k]];
    }
  }

  lemma ChannelShown(v: map<string, Yaml>)
    requires "type" in v && (v["type"] == Str("smtp") || v["type"] == Str("slack"))
    ensures ShowsText(v, "name", ChannelOf(v).name) && ShowsDetails(v, ChannelOf(v).details)
    ensures Str(ChannelOf(v).kind) == v["type"]
  {
    ScalarsTexts(MapAt(v, "headers"));
    ScalarsTexts(MapAt(v, "misc"));
  }

  // ---- the four tables after the stages ----

  lemma ServicesAfter(lib: Lib, cfg: Config, mid: Store, db: Store)
    requires Consistent(lib, mid) && Applied(lib, cfg, mid, db)
    ensures RowsFollow(mid.services, db.services, cfg.services.Keys, LegalKeys(lib, cfg.services.Keys))
    ensures forall i :: i in db.services && db.services[i].slug in LegalKeys(lib, cfg.services.Keys) ==>
              var v := cfg.services[db.services[i].slug];
              db.services[i].f.name == v.name && db.services[i].f.helperText == v.description
  {
    assert ServiceTargets(lib, cfg).Keys == LegalKeys(lib, cfg.services.Keys);
    SettledFollows(mid.services, db.services, ServiceTargets(lib, cfg), cfg.services.Keys,
                   LegalKeys(lib, cfg.services.Keys));
  }

  lemma MonitorsAfter(lib: Lib, cfg: Config, mid: Store, db: Store)
    requires Consistent(lib, mid) && Applied(lib, cfg, mid, db)
    ensures RowsFollow(mid.monitors, db.monitors, cfg.monitors.Keys, LegalKeys(lib, cfg.monitors.Keys))
    ensures forall i :: i in db.monitors && db.monitors[i].slug in LegalKeys(lib, cfg.monitors.Keys) ==>
              ShowsMonitor(lib, cfg.monitors[db.monitors[i].slug], db.monitors[i].f)
  {
    var target, written := MonitorTargets(lib, cfg), LegalKeys(lib, cfg.monitors.Keys);
    assert target.Keys == written;
    SettledFollows(mid.monitors, db.monitors, target, cfg.monitors.Keys, written);
    forall i | i in db.monitors && db.monitors[i].slug in written
      ensures ShowsMonitor(lib, cfg.monitors[db.monitors[i].slug], db.monitors[i].f)
    {
      MonitorShown(lib, cfg.monitors[db.monitors[i].slug]);
    }
  }

  lemma GroupsAfter(lib: Lib, cfg: Config, mid: Store, db: Store)
    requires Consistent(lib, mid) && Applied(lib, cfg, mid, db)
    ensures RowsFollow(mid.groups, db.groups, cfg.groups.Keys, LegalKeys(lib, cfg.groups.Keys))
    ensures forall i :: i in db.groups && db.groups[i].slug in LegalKeys(lib, cfg.groups.Keys) ==>
              var v := cfg.groups[db.groups[i].slug];
              db.groups[i].f.name == v.name && db.groups[i].f.description == v.description
  {
    assert GroupTargets(lib, cfg).Keys == LegalKeys(lib, cfg.groups.Keys);
    SettledFollows(mid.groups, db.groups, GroupTargets(lib, cfg), cfg.groups.Keys, LegalKeys(lib, cfg.groups.Keys));
  }

  ghost predicate ShowsChannel(mid: Table<Channel>, keys: set<string>, v: map<string, Yaml>, i: Id, f: Channel)
    requires "type" in v
  {
    && ShowsText(v, "name", f.name) && ShowsDetails(v, f.details)
    && if Stays(mid, keys, i) then f.kind == mid[i].f.kind else Str(f.kind) == v["type"]
  }

  lemma ChannelTarget(lib: Lib, cfg: Config, mid: Table<Channel>, s: string, i: Id)
    requires Wf(mid) && Wf(Keep(mid, cfg.channels.Keys)) && s in TypedKeys(lib, cfg)
    requires if Stays(mid, cfg.channels.Keys, i) then mid[i].slug == s
             else forall j :: Stays(mid, cfg.channels.Keys, j) ==> mid[j].slug != s
    ensures var target := ChannelTargets(lib, cfg, Keep(mid, cfg.channels.Keys));
            s in target && ShowsChannel(mid, cfg.channels.Keys, cfg.channels[s], i, target[s])
  {
    var kept := Keep(mid, cfg.channels.Keys);
    ChannelShown(cfg.channels[s]);
    if Stays(mid, cfg.channels.Keys, i) {
      assert i in kept && kept[i].slug == s;
      TargetKind(lib, cfg, kept, i);
    } else {
      assert forall j :: j in kept ==> Stays(mid, cfg.channels.Keys, j);
      assert s !in Slugs(kept);
    }
  }

  lemma TypedTargets(lib: Lib, cfg: Config, t: Table<Channel>)
    requires Wf(t)
    ensures ChannelTargets(lib, cfg, t).Keys == TypedKeys(lib, cfg)
  {
  }

  lemma ChannelsSettled(lib: Lib, cfg: Config, mid: Store, db: Store)
    requires Consistent(lib, mid) && Applied(lib, cfg, mid, db)
    ensures Wf(Keep(mid.channels, cfg.channels.Keys))
    ensures var target := ChannelTargets(lib, cfg, Keep(mid.channels, cfg.channels.Keys));
            && target.Keys == TypedKeys(lib, cfg) && Settled(Keep(mid.channels, cfg.channels.Keys), db.channels, target)
  {
    KeepWf(mid.channels, cfg.channels.Keys);
    TypedTargets(lib, cfg, Keep(mid.channels, cfg.channels.Keys));
  }

  lemma ChannelsAfter(lib: Lib, cfg: Config, mid: Store, db: Store)
    requires Consistent(lib, mid) && Applied(lib, cfg, mid, db)
    ensures RowsFollow(mid.channels, db.channels, cfg.channels.Keys, TypedKeys(lib, cfg))
    ensures forall i :: i in db.channels && db.channels[i].slug in TypedKeys(lib, cfg) ==>
              ShowsChannel(mid.channels, cfg.channels.Keys, cfg.channels[db.channels[i].slug], i, db.channels[i].f)
  {
    ChannelsSettled(lib, cfg, mid, db);
    SettledFollows(mid.channels, db.channels, ChannelTargets(lib, cfg, Keep(mid.channels, cfg.channels.Keys)),
                   cfg.channels.Keys, TypedKeys(lib, cfg));
    forall i | i in db.channels && db.channels[i].slug in TypedKeys(lib, cfg)
      ensures ShowsChannel(mid.channels, cfg.channels.Keys, cfg.channels[db.channels[i].slug], i, db.channels[i].f)
    {
      ChannelTarget(lib, cfg, mid.channels, db.channels[i].slug, i);
    }
  }

  // ---- rows that refer to rows ----

  /** Logs and alert services stay with the monitor or service they belong to. */
  ghost predicate DependantsFollow<F>(mid: Table<F>, keys: set<string>, before: map<Id, Id>, after: map<Id, Id>) {
    && (forall r :: r in after <==> r in before && Stays(mid, keys, before[r]))
    && (forall r :: r in after ==> after[r] == before[r])
  }

  lemma DependantsAfter(lib: Lib, cfg: Config, mid: Store, db: Store)
    requires Consistent(lib, mid) && Applied(lib, cfg, mid, db)
    ensures DependantsFollow(mid.monitors, cfg.monitors.Keys, mid.monitorLogs, db.monitorLogs)
    ensures DependantsFollow(mid.services, cfg.services.Keys, mid.alertServices, db.alertServices)
  {
  }

  /** The address is in the list, and no earlier one differs from it only in case. */
  ghost predicate FirstSpelt(lib: Lib, members: seq<string>, email: string) {
    exists i :: 0 <= i < |members| && members[i] == email
                && forall j :: 0 <= j < i ==> lib.nocase(members[j]) != lib.nocase(email)
  }

  /** A group that can be written has the addresses of its entry, another one those
      it had. */
  ghost predicate MembersFollow(lib: Lib, cfg: Config, mid: Store, db: Store) {
    forall g, email ::
      (g, email) in db.members <==>
        g in db.groups
        && if db.groups[g].slug in cfg.groups && Legal(lib, db.groups[g].slug)
           then FirstSpelt(lib, cfg.groups[db.groups[g].slug].members, email)
           else Stays(mid.groups, cfg.groups.Keys, g) && (g, email) in mid.members
  }

  lemma SpellingsFirst(lib: Lib, members: seq<string>, email: string)
    ensures email in FirstSpellings(lib, members) <==> FirstSpelt(lib, members, email)
  {
  }

  lemma MembersFrom(lib: Lib, cfg: Config, mid: Store, db: Store, kept: set<Id>)
    requires db.members == MembersFor(lib, cfg, LinksFrom(mid.members, kept), db.groups, cfg.groups.Keys)
    requires forall g :: g in kept <==> Stays(mid.groups, cfg.groups.Keys, g)
    ensures MembersFollow(lib, cfg, mid, db)
  {
    forall s, email | s in cfg.groups
      ensures email in FirstSpellings(lib, cfg.groups[s].members) <==> FirstSpelt(lib, cfg.groups[s].members, email)
    {
      SpellingsFirst(lib, cfg.groups[s].members, email);
    }
  }

  lemma MembersAfter(lib: Lib, cfg: Config, mid: Store, db: Store)
    requires Consistent(lib, mid) && Applied(lib, cfg, mid, db)
    ensures MembersFollow(lib, cfg, mid, db)
  {
    MembersFrom(lib, cfg, mid, db, Keep(mid.groups, cfg.groups.Keys).Keys);
  }

  /** The stage rewrites the links of the monitor with slug `s`: its slug is legal
      and both its lists name existing rows, each once. */
  ghost predicate Linkable(lib: Lib, cfg: Config, s: string, channels: set<string>, groups: set<string>) {
    && s in cfg.monitors && Legal(lib, s)
    && GoodNames(cfg.monitors[s].channels, channels) && GoodNames(cfg.monitors[s].groups, groups)
  }

  ghost function LinkableKeys(lib: Lib, cfg: Config, db: Store): set<string> {
    set s | s in cfg.monitors && Linkable(lib, cfg, s, Slugs(db.channels), Slugs(db.groups))
  }

  /** Rewritten links are those the lists name; other links are those that were
      there and whose two ends stay. */
  ghost predicate LinksFollow<F>(rewritten: set<string>, names: map<string, seq<string>>, before: set<(Id, Id)>,
                                 keptM: set<Id>, keptT: set<Id>, monitors: Table<Monitor>, t: Table<F>,
                                 after: set<(Id, Id)>)
    requires rewritten <= names.Keys
  {
    forall m, x ::
      (m, x) in after <==>
        && m in monitors && x in t
        && if monitors[m].slug in rewritten then t[x].slug in names[monitors[m].slug]
           else (m, x) in before && m in keptM && x in keptT
  }

  function KeptIds<F>(mid: Table<F>, keys: set<string>): set<Id> {
    set i | i in mid && Stays(mid, keys, i)
  }

  lemma LinksForFollow<F>(rewritten: set<string>, some: map<string, seq<string>>, names: map<string, seq<string>>,
                          before: set<(Id, Id)>, keptM: set<Id>, keptT: set<Id>,
                          monitors: Table<Monitor>, t: Table<F>)
    requires some.Keys == rewritten <= names.Keys && forall s :: s in some ==> some[s] == names[s]
    requires keptM <= monitors.Keys && keptT <= t.Keys
    ensures LinksFollow(rewritten, names, before, keptM, keptT, monitors, t,
                        LinksFor(KeptLinks(before, keptM, keptT), monitors, t, some, names.Keys))
  {
  }

  lemma LinkableNames(lib: Lib, cfg: Config, db: Store)
    ensures ChannelNames(lib, cfg, Slugs(db.channels), Slugs(db.groups)).Keys == LinkableKeys(lib, cfg, db)
    ensures GroupNames(lib, cfg, Slugs(db.channels), Slugs(db.groups)).Keys == LinkableKeys(lib, cfg, db)
  {
    forall s | s in cfg.monitors
      ensures s in LinkableKeys(lib, cfg, db) <==> Relinks(lib, cfg, s, Slugs(db.channels), Slugs(db.groups))
    {
      LinksClean(s, cfg.monitors[s], Slugs(db.channels), Slugs(db.groups));
    }
  }

  lemma KeptAre<F>(mid: Table<F>, keys: set<string>)
    ensures Keep(mid, keys).Keys == KeptIds(mid, keys)
  {
  }

  lemma KeptStay<F>(mid: Table<F>, t: Table<F>, target: map<string, F>, keys: set<string>)
    requires Settled(Keep(mid, keys), t, target)
    ensures KeptIds(mid, keys) <= t.Keys
  {
  }

  lemma ChannelLinksAre(lib: Lib, cfg: Config, mid: Store, db: Store)
    requires Consistent(lib, mid) && Applied(lib, cfg, mid, db)
    ensures db.channelLinks ==
              LinksFor(KeptLinks(mid.channelLinks, KeptIds(mid.monitors, cfg.monitors.Keys),
                                 KeptIds(mid.channels, cfg.channels.Keys)),
                       db.monitors, db.channels, ChannelNames(lib, cfg, Slugs(db.channels), Slugs(db.groups)),
                       cfg.monitors.Keys)
    ensures KeptIds(mid.monitors, cfg.monitors.Keys) <= db.monitors.Keys
    ensures KeptIds(mid.channels, cfg.channels.Keys) <= db.channels.Keys
  {
    KeepWf(mid.channels, cfg.channels.Keys);
    KeptAre(mid.monitors, cfg.monitors.Keys);
    KeptAre(mid.channels, cfg.channels.Keys);
    KeptStay(mid.monitors, db.monitors, MonitorTargets(lib, cfg), cfg.monitors.Keys);
    KeptStay(mid.channels, db.channels, ChannelTargets(lib, cfg, Keep(mid.channels, cfg.channels.Keys)),
             cfg.channels.Keys);
  }

  lemma GroupLinksAre(lib: Lib, cfg: Config, mid: Store, db: Store)
    requires Consistent(lib, mid) && Applied(lib, cfg, mid, db)
    ensures db.groupLinks ==
              LinksFor(KeptLinks(mid.groupLinks, KeptIds(mid.monitors, cfg.monitors.Keys),
                                 KeptIds(mid.groups, cfg.groups.Keys)),
                       db.monitors, db.groups, GroupNames(lib, cfg, Slugs(db.channels), Slugs(db.groups)),
                       cfg.monitors.Keys)
    ensures KeptIds(mid.monitors, cfg.monitors.Keys) <= db.monitors.Keys
    ensures KeptIds(mid.groups, cfg.groups.Keys) <= db.groups.Keys
  {
    KeptAre(mid.monitors, cfg.monitors.Keys);
    KeptAre(mid.groups, cfg.groups.Keys);
    KeptStay(mid.monitors, db.monitors, MonitorTargets(lib, cfg), cfg.monitors.Keys);
    KeptStay(mid.groups, db.groups, GroupTargets(lib, cfg), cfg.groups.Keys);
  }

  lemma ChannelLinksFrom(lib: Lib, cfg: Config, mid: Store, db: Store, keptM: set<Id>, keptT: set<Id>)
    requires db.channelLinks ==
               LinksFor(KeptLinks(mid.channelLinks, keptM, keptT), db.monitors, db.channels,
                        ChannelNames(lib, cfg, Slugs(db.channels), Slugs(db.groups)), cfg.monitors.Keys)
    requires keptM <= db.monitors.Keys && keptT <= db.channels.Keys
    ensures LinksFollow(LinkableKeys(lib, cfg, db), AllChannelNames(cfg), mid.channelLinks, keptM, keptT,
                        db.monitors, db.channels, db.channelLinks)
  {
    LinkableNames(lib, cfg, db);
    assert AllChannelNames(cfg).Keys == cfg.monitors.Keys;
    LinksForFollow(LinkableKeys(lib, cfg, db), ChannelNames(lib, cfg, Slugs(db.channels), Slugs(db.groups)),
                   AllChannelNames(cfg), mid.channelLinks, keptM, keptT, db.monitors, db.channels);
  }

  lemma ChannelLinksAfter(lib: Lib, cfg: Config, mid: Store, db: Store)
    requires Consistent(lib, mid) && Applied(lib, cfg, mid, db)
    ensures LinksFollow(LinkableKeys(lib, cfg, db), AllChannelNames(cfg), mid.channelLinks,
                        KeptIds(mid.monitors, cfg.monitors.Keys), KeptIds(mid.channels, cfg.channels.Keys),
                        db.monitors, db.channels, db.channelLinks)
  {
    ChannelLinksAre(lib, cfg, mid, db);
    ChannelLinksFrom(lib, cfg, mid, db, KeptIds(mid.monitors, cfg.monitors.Keys),
                     KeptIds(mid.channels, cfg.channels.Keys));
  }

  lemma GroupLinksFrom(lib: Lib, cfg: Config, mid: Store, db: Store, keptM: set<Id>, keptT: set<Id>)
    requires db.groupLinks ==
               LinksFor(KeptLinks(mid.groupLinks, keptM, keptT), db.monitors, db.groups,
                        GroupNames(lib, cfg, Slugs(db.channels), Slugs(db.groups)), cfg.monitors.Keys)
    requires keptM <= db.monitors.Keys && keptT <= db.groups.Keys
    ensures LinksFollow(LinkableKeys(lib, cfg, db), AllGroupNames(cfg), mid.groupLinks, keptM, keptT,
                        db.monitors, db.groups, db.groupLinks)
  {
    LinkableNames(lib, cfg, db);
    assert AllGroupNames(cfg).Keys == cfg.monitors.Keys;
    LinksForFollow(LinkableKeys(lib, cfg, db), GroupNames(lib, cfg, Slugs(db.channels), Slugs(db.groups)),
                   AllGroupNames(cfg), mid.groupLinks, keptM, keptT, db.monitors, db.groups);
  }

  lemma GroupLinksAfter(lib: Lib, cfg: Config, mid: Store, db: Store)
    requires Consistent(lib, mid) && Applied(lib, cfg, mid, db)
    ensures LinksFollow(LinkableKeys(lib, cfg, db), AllGroupNames(cfg), mid.groupLinks,
                        KeptIds(mid.monitors, cfg.monitors.Keys), KeptIds(mid.groups, cfg.groups.Keys),
                        db.monitors, db.groups, db.groupLinks)
  {
    GroupLinksAre(lib, cfg, mid, db);
    GroupLinksFrom(lib, cfg, mid, db, KeptIds(mid.monitors, cfg.monitors.Keys), KeptIds(mid.groups, cfg.groups.Keys));
  }

  /** Instance name, alert settings and the channel for alert e-mail. */
  ghost predicate SettingsFollow(cfg: Config, mid: Store, db: Store) {
    && db.name == (if cfg.name != "" then cfg.name else mid.name)
    && db.settings == cfg.alerts.settings
    && (db.smtpChannel.Some? ==>
          db.smtpChannel.value in db.channels && db.channels[db.smtpChannel.value].slug == cfg.alerts.emailChannel)
    && (db.smtpChannel.None? ==> forall i :: i in db.channels ==> db.channels[i].slug != cfg.alerts.emailChannel)
  }

  lemma SettingsAfter(lib: Lib, cfg: Config, mid: Store, db: Store)
    requires Consistent(lib, mid) && Applied(lib, cfg, mid, db)
    ensures SettingsFollow(cfg, mid, db)
  {
  }

  // ---- whole runs ----

  /** What one run does: the renames move slugs only, and then every row, log, alert
      service, address, link and setting follows the file. */
  ghost predicate Follows(lib: Lib, cfg: Config, db0: Store, mid: Store, db: Store) {
    && OnlySlugs(db0, mid)
    && RowsFollow(mid.services, db.services, cfg.services.Keys, LegalKeys(lib, cfg.services.Keys))
    && RowsFollow(mid.monitors, db.monitors, cfg.monitors.Keys, LegalKeys(lib, cfg.monitors.Keys))
    && RowsFollow(mid.channels, db.channels, cfg.channels.Keys, TypedKeys(lib, cfg))
    && RowsFollow(mid.groups, db.groups, cfg.groups.Keys, LegalKeys(lib, cfg.groups.Keys))
    && DependantsFollow(mid.monitors, cfg.monitors.Keys, db0.monitorLogs, db.monitorLogs)
    && DependantsFollow(mid.services, cfg.services.Keys, db0.alertServices, db.alertServices)
    && MembersFollow(lib, cfg, mid, db)
    && LinksFollow(LinkableKeys(lib, cfg, db), AllChannelNames(cfg), db0.channelLinks,
                   KeptIds(mid.monitors, cfg.monitors.Keys), KeptIds(mid.channels, cfg.channels.Keys),
                   db.monitors, db.channels, db.channelLinks)
    && LinksFollow(LinkableKeys(lib, cfg, db), AllGroupNames(cfg), db0.groupLinks,
                   KeptIds(mid.monitors, cfg.monitors.Keys), KeptIds(mid.groups, cfg.groups.Keys),
                   db.monitors, db.groups, db.groupLinks)
    && SettingsFollow(cfg, mid, db)
  }

  lemma StagesFollow(lib: Lib, cfg: Config, db0: Store, mid: Store, db: Store)
    requires Consistent(lib, mid) && OnlySlugs(db0, mid) && Applied(lib, cfg, mid, db)
    ensures Follows(lib, cfg, db0, mid, db)
  {
    ServicesAfter(lib, cfg, mid, db);
    MonitorsAfter(lib, cfg, mid, db);
    ChannelsAfter(lib, cfg, mid, db);
    GroupsAfter(lib, cfg, mid, db);
    DependantsAfter(lib, cfg, mid, db);
    MembersAfter(lib, cfg, mid, db);
    ChannelLinksAfter(lib, cfg, mid, db);
    GroupLinksAfter(lib, cfg, mid, db);
    SettingsAfter(lib, cfg, mid, db);
  }

  lemma RunFollows(lib: Lib, cfg: Config, order: seq<string>, db0: Store, db: Store, msgs: set<Msg>)
    requires Consistent(lib, db0) && RunVia(lib, cfg, order, db0, db, msgs)
    ensures Follows(lib, cfg, db0, Fold(lib, cfg, db0, order).0, db)
  {
    FoldKeeps(lib, cfg, db0, order);
    RenamesMoveSlugs(lib, cfg, db0, order);
    StagesFollow(lib, cfg, db0, Fold(lib, cfg, db0, order).0, db);
  }

  /** The columns that a run writes. */
  lemma RunColumns(lib: Lib, cfg: Config, order: seq<string>, db0: Store, db: Store, msgs: set<Msg>)
    requires Consistent(lib, db0) && RunVia(lib, cfg, order, db0, db, msgs)
    ensures forall i :: i in db.services && db.services[i].slug in LegalKeys(lib, cfg.services.Keys) ==>
              var v := cfg.services[db.services[i].slug];
              db.services[i].f.name == v.name && db.services[i].f.helperText == v.description
    ensures forall i :: i in db.monitors && db.monitors[i].slug in LegalKeys(lib, cfg.monitors.Keys) ==>
              ShowsMonitor(lib, cfg.monitors[db.monitors[i].slug], db.monitors[i].f)
    ensures forall i :: i in db.channels && db.channels[i].slug in TypedKeys(lib, cfg) ==>
              ShowsChannel(Fold(lib, cfg, db0, order).0.channels, cfg.channels.Keys,
                           cfg.channels[db.channels[i].slug], i, db.channels[i].f)
    ensures forall i :: i in db.groups && db.groups[i].slug in LegalKeys(lib, cfg.groups.Keys) ==>
              var v := cfg.groups[db.groups[i].slug];
              db.groups[i].f.name == v.name && db.groups[i].f.description == v.description
  {
    FoldKeeps(lib, cfg, db0, order);
    var mid := Fold(lib, cfg, db0, order).0;
    ServicesAfter(lib, cfg, mid, db);
    MonitorsAfter(lib, cfg, mid, db);
    ChannelsAfter(lib, cfg, mid, db);
    GroupsAfter(lib, cfg, mid, db);
  }
}
