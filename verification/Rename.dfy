/** The rename pass that opens applyConfig. Go visits the rename map in a random
    order, so the pass is a fold over an arbitrary order of its keys. */
module Rename {
  import opened Prelude
  import opened SlugGrammar
  import opened Tables
  import opened Store
  import opened Config
  import opened Reconciler

  // ---- keys of the form entity.slug ----

  function FirstDot(k: string): (i: nat)
    ensures i <= |k| && '.' !in k[..i] && (i < |k| ==> k[i] == '.')
  {
    if k == "" || k[0] == '.' then 0
    else
      var i := FirstDot(k[1..]) + 1;
      assert k[..i] == [k[0]] + k[1..][..i - 1];
      i
  }

  /** strings.Cut(k, ".") */
  function CutKey(k: string): Option<(string, string)> {
    var i := FirstDot(k);
    if i < |k| then Some((k[..i], k[i + 1..])) else None
  }

  /** strings.Split(k, ".") when it gives exactly two parts. */
  function SplitKey(k: string): Option<(string, string)> {
    var c := CutKey(k);
    if c.Some? && '.' !in c.value.1 then c else None
  }

  lemma SplitKeyJoins(k: string)
    requires SplitKey(k).Some?
    ensures k == SplitKey(k).value.0 + "." + SplitKey(k).value.1
    ensures '.' !in SplitKey(k).value.1
  {
  }

  lemma JoinSplits(e: string, s: string)
    requires '.' !in e && '.' !in s
    ensures SplitKey(e + "." + s) == Some((e, s))
  {
    var k := e + "." + s;
    FirstDotIs(k, |e|);
    assert k[..|e|] == e && k[|e| + 1..] == s;
  }

  lemma FirstDotIs(k: string, n: nat)
    requires n < |k| && k[n] == '.' && forall j :: 0 <= j < n ==> k[j] != '.'
    ensures FirstDot(k) == n
  {
  }

  function EntityName(at: Section): string {
    match at
    case Services => "services"
    case Monitors => "monitors"
    case Channels => "notification-channels"
    case Groups => "mail-groups"
  }

  function SectionOf(e: string): Option<Section> {
    if e == EntityName(Services) then Some(Services)
    else if e == EntityName(Channels) then Some(Channels)
    else if e == EntityName(Groups) then Some(Groups)
    else if e == EntityName(Monitors) then Some(Monitors)
    else None
  }

  /** What a key asks for: the section and the slug to move. */
  function Source(k: string): Option<(Section, string)> {
    var p := SplitKey(k);
    if p.Some? && SectionOf(p.value.0).Some? then Some((SectionOf(p.value.0).value, p.value.1)) else None
  }

  lemma SourceIsKey(k: string)
    requires Source(k).Some?
    ensures k == EntityName(Source(k).value.0) + "." + Source(k).value.1
  {
  }

  lemma KeyHasSource(at: Section, s: string)
    requires '.' !in s
    ensures Source(EntityName(at) + "." + s) == Some((at, s))
  {
    JoinSplits(EntityName(at), s);
  }

  // ---- one entry ----

  function SlugsOf(db: Store, at: Section): set<string> {
    match at
    case Services => Slugs(db.services)
    case Monitors => Slugs(db.monitors)
    case Channels => Slugs(db.channels)
    case Groups => Slugs(db.groups)
  }

  function Declared(cfg: Config, at: Section): set<string> {
    match at
    case Services => cfg.services.Keys
    case Monitors => cfg.monitors.Keys
    case Channels => cfg.channels.Keys
    case Groups => cfg.groups.Keys
  }

  function Moving<F>(t: Table<F>, src: string, dst: string): Table<F> {
    match MoveSlug(t, src, dst)
    case Moved(t') => t'
    case _ => t
  }

  function MoveIn(db: Store, at: Section, src: string, dst: string): Store {
    match at
    case Services => db.(services := Moving(db.services, src, dst))
    case Monitors => db.(monitors := Moving(db.monitors, src, dst))
    case Channels => db.(channels := Moving(db.channels, src, dst))
    case Groups => db.(groups := Moving(db.groups, src, dst))
  }

  function EntryStore(db: Store, k: string, dst: string): Store {
    match Source(k)
    case None => db
    case Some((at, src)) => MoveIn(db, at, src, dst)
  }

  predicate ValidMove(lib: Lib, src: string, dst: string) {
    src != dst && !PatternMatches(lib, dst)
  }

  /** The messages of one entry, given the slugs its section holds at that time.
      The update runs even when the entry is already known to be invalid. */
  function EntryMsgs(lib: Lib, cfg: Config, k: string, dst: string, present: set<string>): set<Msg> {
    match SplitKey(k)
    case None => {RenameMalformed(k)}
    case Some((e, src)) =>
      Need(src != dst, RenameToItself(src, dst))
      + Need(!PatternMatches(lib, dst), RenameBadTarget(dst))
      + match SectionOf(e)
        case None => {RenameUnknownEntity(k)}
        case Some(at) =>
          if src !in present then Need(!ValidMove(lib, src, dst), RenameNoSource(k))
          else Need(src == dst || dst !in present, RenameTaken(dst))
               + Need(ValidMove(lib, src, dst) ==> dst in Declared(cfg, at), RenameUndeclared(at, src, dst))
  }

  function Present(db: Store, k: string): set<string> {
    if Source(k).Some? then SlugsOf(db, Source(k).value.0) else {}
  }

  // ---- the pass ----

  /** Store and messages after visiting `order`. */
  function Fold(lib: Lib, cfg: Config, db: Store, order: seq<string>): (Store, set<Msg>)
    requires Elems(order) <= cfg.rename.Keys
  {
    if order == [] then (db, {})
    else
      var k := order[|order| - 1];
      assert k in Elems(order) && Elems(order[..|order| - 1]) <= Elems(order);
      var (d, m) := Fold(lib, cfg, db, order[..|order| - 1]);
      (EntryStore(d, k, cfg.rename[k]), m + EntryMsgs(lib, cfg, k, cfg.rename[k], Present(d, k)))
  }

  lemma FoldStep(lib: Lib, cfg: Config, db: Store, order: seq<string>, k: string)
    requires Elems(order) <= cfg.rename.Keys && k in cfg.rename
    ensures Elems(order + [k]) <= cfg.rename.Keys
    ensures var (d, m) := Fold(lib, cfg, db, order);
            Fold(lib, cfg, db, order + [k]) ==
            (EntryStore(d, k, cfg.rename[k]), m + EntryMsgs(lib, cfg, k, cfg.rename[k], Present(d, k)))
  {
  }

  method MoveOne(tx: Tx, at: Section, src: string, dst: string) returns (missing: bool, taken: bool)
    modifies tx
    ensures tx.db == MoveIn(old(tx.db), at, src, dst)
    ensures missing == (src !in SlugsOf(old(tx.db), at))
    ensures taken == (!missing && src != dst && dst in SlugsOf(old(tx.db), at))
  {
    var present := SlugsOf(tx.db, at);
    missing, taken := src !in present, src in present && src != dst && dst in present;
    tx.db := MoveIn(tx.db, at, src, dst);
  }

  /** One entry of cfg.Rename. */
  method RenameEntry(tx: Tx, lib: Lib, cfg: Config, k: string) returns (msgs: seq<Msg>)
    requires k in cfg.rename
    modifies tx
    ensures tx.db == EntryStore(old(tx.db), k, cfg.rename[k])
    ensures Elems(msgs) == EntryMsgs(lib, cfg, k, cfg.rename[k], Present(old(tx.db), k))
  {
    var dst := cfg.rename[k];
    var split := SplitKey(k);
    if split.None? {
      msgs := [RenameMalformed(k)];
      return;
    }
    var (e, src) := split.value;
    var validSrc, validRename := true, true;
    msgs := [];
    if src == dst {
      validRename := false;
      msgs := msgs + [RenameToItself(src, dst)];
    }
    if PatternMatches(lib, dst) {
      validRename := false;
      msgs := msgs + [RenameBadTarget(dst)];
    }
    var at := SectionOf(e);
    if at.None? {
      msgs := msgs + [RenameUnknownEntity(k)];
    } else {
      var missing, taken := MoveOne(tx, at.value, src, dst);
      if missing {
        validSrc := false;
        if validRename {
          msgs := msgs + [RenameNoSource(k)];
        }
      } else if taken {
        msgs := msgs + [RenameTaken(dst)];
      }
      if validSrc && validRename && dst !in Declared(cfg, at.value) {
        msgs := msgs + [RenameUndeclared(at.value, src, dst)];
      }
    }
  }

  method RenamePass(tx: Tx, lib: Lib, cfg: Config) returns (msgs: seq<Msg>, ghost order: seq<string>)
    modifies tx
    ensures IsOrder(order, cfg.rename.Keys)
    ensures Fold(lib, cfg, old(tx.db), order) == (tx.db, Elems(msgs))
  {
    ghost var db0 := tx.db;
    msgs, order := [], [];
    var done: set<string> := {};
    assert Elems(msgs) == {};
    while done != cfg.rename.Keys
      invariant done <= cfg.rename.Keys && IsOrder(order, done)
      invariant Fold(lib, cfg, db0, order) == (tx.db, Elems(msgs))
      decreases cfg.rename.Keys - done
    {
      SomeLeft(cfg.rename.Keys, done);
      var k :| k in cfg.rename.Keys - done;
      FoldStep(lib, cfg, db0, order, k);
      ElemsAppend(order, [k]);
      var found := RenameEntry(tx, lib, cfg, k);
      ElemsAppend(msgs, found);
      msgs, order, done := msgs + found, order + [k], done + {k};
    }
  }

  // ---- when the order does not matter ----

  /** Two different entries of one section collide: they want the same target, or
      one wants what the other moves away. Entries that move a slug to itself
      change nothing and never collide. */
  ghost predicate Collide(cfg: Config, k: string, l: string) {
    && k in cfg.rename && l in cfg.rename && k != l
    && Source(k).Some? && Source(l).Some? && Source(k).value.0 == Source(l).value.0
    && Source(k).value.1 != cfg.rename[k] && Source(l).value.1 != cfg.rename[l]
    && (cfg.rename[k] == cfg.rename[l] || cfg.rename[k] == Source(l).value.1)
  }

  ghost predicate Independent(cfg: Config) {
    forall k, l :: !Collide(cfg, k, l)
  }

  ghost predicate WfAll(db: Store) {
    Wf(db.services) && Wf(db.monitors) && Wf(db.channels) && Wf(db.groups)
  }

  /** The key that moves `s`, once it is among `done`. */
  predicate Moves(cfg: Config, done: set<string>, at: Section, s: string) {
    '.' !in s && EntityName(at) + "." + s in done && EntityName(at) + "." + s in cfg.rename
  }

  /** Where a slug ends up, decided by the slugs present before the pass. */
  function NewSlug(cfg: Config, done: set<string>, at: Section, present: set<string>, s: string): string {
    if Moves(cfg, done, at, s) && cfg.rename[EntityName(at) + "." + s] !in present
    then cfg.rename[EntityName(at) + "." + s] else s
  }

  function RenamedTable<F>(cfg: Config, done: set<string>, at: Section, t: Table<F>): Table<F> {
    map i | i in t :: Row(NewSlug(cfg, done, at, Slugs(t), t[i].slug), t[i].f)
  }

  /** The store after visiting `done` in any order. Every row keeps its id. */
  function Renamed(cfg: Config, done: set<string>, db: Store): Store {
    db.(services := RenamedTable(cfg, done, Services, db.services),
        monitors := RenamedTable(cfg, done, Monitors, db.monitors),
        channels := RenamedTable(cfg, done, Channels, db.channels),
        groups := RenamedTable(cfg, done, Groups, db.groups))
  }

  /** The move an entry makes in the middle of the pass is the one it would make
      first, and it completes the closed form. */
  lemma TableStep<F>(cfg: Config, done: set<string>, at: Section, t: Table<F>, src: string)
    requires Independent(cfg) && Wf(t) && '.' !in src
    requires var k := EntityName(at) + "." + src; k in cfg.rename && k !in done && cfg.rename[k] != src
    ensures var k := EntityName(at) + "." + src;
            var dst, now := cfg.rename[k], RenamedTable(cfg, done, at, t);
            && (src in Slugs(now) <==> src in Slugs(t))
            && (dst in Slugs(now) <==> dst in Slugs(t))
            && Moving(now, src, dst) == RenamedTable(cfg, done + {k}, at, t)
  {
    var k := EntityName(at) + "." + src;
    var dst, now := cfg.rename[k], RenamedTable(cfg, done, at, t);
    var next := RenamedTable(cfg, done + {k}, at, t);
    KeyHasSource(at, src);
    forall i | i in t
      ensures now[i].slug == src <==> t[i].slug == src
      ensures now[i].slug == dst <==> t[i].slug == dst
      ensures t[i].slug != src ==> next[i] == now[i]
    {
      RowUnaffected(cfg, done, at, Slugs(t), t[i].slug, src);
    }
    SameSlug(t, now, src);
    SameSlug(t, now, dst);
    forall i | i in t && t[i].slug == src
      ensures next[i] == Row(if dst in Slugs(t) then src else dst, t[i].f)
    {
    }
    MovingIs(now, next, src, dst);
  }

  lemma SameSlug<F>(a: Table<F>, b: Table<F>, s: string)
    requires a.Keys == b.Keys && forall i :: i in a ==> (a[i].slug == s <==> b[i].slug == s)
    ensures s in Slugs(a) <==> s in Slugs(b)
  {
  }

  lemma MovingIs<F>(now: Table<F>, next: Table<F>, src: string, dst: string)
    requires now.Keys == next.Keys && src != dst
    requires forall i :: i in now ==>
               next[i] == if now[i].slug == src then Row(if dst in Slugs(now) then src else dst, now[i].f) else now[i]
    ensures Moving(now, src, dst) == next
  {
  }

  lemma RowUnaffected(cfg: Config, done: set<string>, at: Section, present: set<string>, s: string, src: string)
    requires Independent(cfg) && '.' !in src && s in present
    requires var k := EntityName(at) + "." + src; k in cfg.rename && k !in done && cfg.rename[k] != src
    ensures var dst := cfg.rename[EntityName(at) + "." + src];
            var now := NewSlug(cfg, done, at, present, s);
            && (now == src <==> s == src) && (now == dst <==> s == dst)
    ensures s != src ==>
              NewSlug(cfg, done + {EntityName(at) + "." + src}, at, present, s) == NewSlug(cfg, done, at, present, s)
  {
    var k, l := EntityName(at) + "." + src, EntityName(at) + "." + s;
    KeyHasSource(at, src);
    assert k[|EntityName(at)| + 1..] == src && l[|EntityName(at)| + 1..] == s;
    if Moves(cfg, done, at, s) && cfg.rename[l] !in present {
      KeyHasSource(at, s);
      assert !Collide(cfg, l, k) && !Collide(cfg, k, l);
    }
  }

  lemma OtherTable<F>(cfg: Config, done: set<string>, at: Section, t: Table<F>, k: string)
    requires Source(k).Some? ==> Source(k).value.0 != at
    ensures RenamedTable(cfg, done + {k}, at, t) == RenamedTable(cfg, done, at, t)
  {
    forall i | i in t
      ensures NewSlug(cfg, done + {k}, at, Slugs(t), t[i].slug) == NewSlug(cfg, done, at, Slugs(t), t[i].slug)
    {
      if '.' !in t[i].slug {
        KeyHasSource(at, t[i].slug);
      }
    }
  }

  lemma ToItself<F>(cfg: Config, done: set<string>, at: Section, t: Table<F>, src: string)
    requires '.' !in src
    requires var k := EntityName(at) + "." + src; k in cfg.rename && cfg.rename[k] == src
    ensures RenamedTable(cfg, done + {EntityName(at) + "." + src}, at, t) == RenamedTable(cfg, done, at, t)
  {
    var k := EntityName(at) + "." + src;
    forall i | i in t
      ensures NewSlug(cfg, done + {k}, at, Slugs(t), t[i].slug) == NewSlug(cfg, done, at, Slugs(t), t[i].slug)
    {
      if EntityName(at) + "." + t[i].slug == k {
        assert k[|EntityName(at)| + 1..] == src == t[i].slug;
      }
    }
  }

  lemma MovingToItself<F>(t: Table<F>, src: string)
    ensures Moving(t, src, src) == t
  {
  }

  lemma SectionStep<F>(cfg: Config, done: set<string>, at: Section, t: Table<F>, k: string)
    requires Independent(cfg) && Wf(t) && k in cfg.rename && k !in done
    requires Source(k).Some? && Source(k).value.0 == at
    ensures var src, dst, now := Source(k).value.1, cfg.rename[k], RenamedTable(cfg, done, at, t);
            && Moving(now, src, dst) == RenamedTable(cfg, done + {k}, at, t)
            && (src != dst ==> (src in Slugs(now) <==> src in Slugs(t)) && (dst in Slugs(now) <==> dst in Slugs(t)))
  {
    SourceIsKey(k);
    SplitKeyJoins(k);
    var src, dst := Source(k).value.1, cfg.rename[k];
    if src == dst {
      ToItself(cfg, done, at, t, src);
      MovingToItself(RenamedTable(cfg, done, at, t), src);
    } else {
      TableStep(cfg, done, at, t, src);
    }
  }

  /** What an entry reports depends on the present slugs only through its own
      source and target, and not at all when it moves a slug to itself. */
  lemma EntryMsgsAgree(lib: Lib, cfg: Config, k: string, a: set<string>, b: set<string>)
    requires k in cfg.rename
    requires Source(k).Some? && Source(k).value.1 != cfg.rename[k] ==>
               (Source(k).value.1 in a <==> Source(k).value.1 in b) && (cfg.rename[k] in a <==> cfg.rename[k] in b)
    ensures EntryMsgs(lib, cfg, k, cfg.rename[k], a) == EntryMsgs(lib, cfg, k, cfg.rename[k], b)
  {
  }

  lemma StoreStep(lib: Lib, cfg: Config, done: set<string>, db: Store, k: string)
    requires Independent(cfg) && WfAll(db) && k in cfg.rename && k !in done
    ensures EntryStore(Renamed(cfg, done, db), k, cfg.rename[k]) == Renamed(cfg, done + {k}, db)
    ensures EntryMsgs(lib, cfg, k, cfg.rename[k], Present(Renamed(cfg, done, db), k)) ==
            EntryMsgs(lib, cfg, k, cfg.rename[k], Present(db, k))
  {
    if Source(k) == None || Source(k).value.0 != Services { OtherTable(cfg, done, Services, db.services, k); }
    else { SectionStep(cfg, done, Services, db.services, k); }
    if Source(k) == None || Source(k).value.0 != Monitors { OtherTable(cfg, done, Monitors, db.monitors, k); }
    else { SectionStep(cfg, done, Monitors, db.monitors, k); }
    if Source(k) == None || Source(k).value.0 != Channels { OtherTable(cfg, done, Channels, db.channels, k); }
    else { SectionStep(cfg, done, Channels, db.channels, k); }
    if Source(k) == None || Source(k).value.0 != Groups { OtherTable(cfg, done, Groups, db.groups, k); }
    else { SectionStep(cfg, done, Groups, db.groups, k); }
    EntryMsgsAgree(lib, cfg, k, Present(Renamed(cfg, done, db), k), Present(db, k));
  }

  /** Every message of the pass, read off the store before it. */
  function AllMsgs(lib: Lib, cfg: Config, db: Store): map<string, set<Msg>> {
    map k | k in cfg.rename :: EntryMsgs(lib, cfg, k, cfg.rename[k], Present(db, k))
  }

  /** With independent entries, every order gives the same store and the same
      messages, and both can be read off the store before the pass. */
  lemma {:induction false} FoldIsClosed(lib: Lib, cfg: Config, db: Store, order: seq<string>)
    requires Independent(cfg) && WfAll(db) && Distinct(order) && Elems(order) <= cfg.rename.Keys
    ensures Fold(lib, cfg, db, order) == (Renamed(cfg, Elems(order), db), Gather(AllMsgs(lib, cfg, db), Elems(order)))
  {
    if order == [] {
      RenamedNothing(cfg, db);
      assert Elems(order) == {} && Gather(AllMsgs(lib, cfg, db), {}) == {};
    } else {
      var k, rest := order[|order| - 1], order[..|order| - 1];
      assert order == rest + [k];
      ElemsAppend(rest, [k]);
      FoldIsClosed(lib, cfg, db, rest);
      FoldIsClosedStep(lib, cfg, db, rest, k);
    }
  }

  lemma FoldIsClosedStep(lib: Lib, cfg: Config, db: Store, rest: seq<string>, k: string)
    requires Independent(cfg) && WfAll(db) && Elems(rest) <= cfg.rename.Keys && k in cfg.rename && k !in Elems(rest)
    requires Fold(lib, cfg, db, rest) == (Renamed(cfg, Elems(rest), db), Gather(AllMsgs(lib, cfg, db), Elems(rest)))
    ensures Elems(rest + [k]) == Elems(rest) + {k} && Elems(rest + [k]) <= cfg.rename.Keys
    ensures Fold(lib, cfg, db, rest + [k]) ==
            (Renamed(cfg, Elems(rest) + {k}, db), Gather(AllMsgs(lib, cfg, db), Elems(rest) + {k}))
  {
    ElemsAppend(rest, [k]);
    FoldStep(lib, cfg, db, rest, k);
    StoreStep(lib, cfg, Elems(rest), db, k);
    GatherStep(AllMsgs(lib, cfg, db), Elems(rest), k);
    var m := AllMsgs(lib, cfg, db);
    assert m[k] == EntryMsgs(lib, cfg, k, cfg.rename[k], Present(db, k));
  }

  lemma RenamedNothing(cfg: Config, db: Store)
    ensures Renamed(cfg, {}, db) == db
  {
  }

  /** Every iteration order of the map gives the same store and messages. */
  ghost predicate OrderFree(lib: Lib, cfg: Config) {
    forall db, a, b :: WfAll(db) && IsOrder(a, cfg.rename.Keys) && IsOrder(b, cfg.rename.Keys) ==>
      Fold(lib, cfg, db, a) == Fold(lib, cfg, db, b)
  }

  /** Independence is exactly what makes the outcome a function of the file:
      two colliding entries give different stores on some instance. */
  lemma OrderFreeIffIndependent(lib: Lib, cfg: Config)
    ensures OrderFree(lib, cfg) <==> Independent(cfg)
  {
    if Independent(cfg) {
      forall db, a, b | WfAll(db) && IsOrder(a, cfg.rename.Keys) && IsOrder(b, cfg.rename.Keys)
        ensures Fold(lib, cfg, db, a) == Fold(lib, cfg, db, b)
      {
        FoldIsClosed(lib, cfg, db, a);
        FoldIsClosed(lib, cfg, db, b);
      }
    } else {
      var k, l :| Collide(cfg, k, l);
      var db, a, b := OrderMatters(lib, cfg, k, l);
    }
  }

  function SlugById<F>(t: Table<F>): map<Id, string> {
    map i | i in t :: t[i].slug
  }

  function SlugMap(db: Store, at: Section): map<Id, string> {
    match at
    case Services => SlugById(db.services)
    case Monitors => SlugById(db.monitors)
    case Channels => SlugById(db.channels)
    case Groups => SlugById(db.groups)
  }

  function SlugsIn(m: map<Id, string>): set<string> {
    set i | i in m :: m[i]
  }

  function MoveSlugs(m: map<Id, string>, src: string, dst: string): map<Id, string> {
    if src in SlugsIn(m) && (src == dst || dst !in SlugsIn(m))
    then map i | i in m :: if m[i] == src then dst else m[i] else m
  }

  lemma MovingSlugs<F>(t: Table<F>, src: string, dst: string)
    ensures SlugById(Moving(t, src, dst)) == MoveSlugs(SlugById(t), src, dst)
  {
    var m := SlugById(t);
    forall i | i in t ensures t[i].slug in SlugsIn(m) && m[i] in Slugs(t) {
      assert m[i] == t[i].slug;
    }
    assert SlugsIn(m) == Slugs(t);
  }

  lemma MoveInSlugs(db: Store, at: Section, src: string, dst: string)
    ensures SlugMap(MoveIn(db, at, src, dst), at) == MoveSlugs(SlugMap(db, at), src, dst)
    ensures forall o :: o != at ==> SlugMap(MoveIn(db, at, src, dst), o) == SlugMap(db, o)
  {
    match at
    case Services => MovingSlugs(db.services, src, dst);
    case Monitors => MovingSlugs(db.monitors, src, dst);
    case Channels => MovingSlugs(db.channels, src, dst);
    case Groups => MovingSlugs(db.groups, src, dst);
  }

  function Filled<F>(slugs: map<Id, string>, f: F): Table<F> {
    map i | i in slugs :: Row(slugs[i], f)
  }

  /** A store whose only rows are filler rows of one section. */
  function Only(at: Section, slugs: map<Id, string>): Store {
    var none := Store("", map[], map[], map[], map[], map[], map[], {}, {}, {}, None, AlertSettings("", "", false));
    match at
    case Services => none.(services := Filled(slugs, Service("", "")))
    case Monitors => none.(monitors := Filled(slugs, Monitor("", "", "", 0, 0, 0, map[], None, None)))
    case Channels => none.(channels := Filled(slugs, Channel("", SMTP, NoDetails)))
    case Groups => none.(groups := Filled(slugs, Group("", "")))
  }

  lemma OnlyIs(at: Section, slugs: map<Id, string>)
    requires forall i :: i in slugs ==> i.n > 0
    requires forall i, j :: i in slugs && j in slugs && slugs[i] == slugs[j] ==> i == j
    ensures WfAll(Only(at, slugs)) && SlugMap(Only(at, slugs), at) == slugs
    ensures forall o :: o != at ==> SlugMap(Only(at, slugs), o) == map[]
  {
  }

  /** Entries whose sources are all absent change nothing. */
  lemma {:induction false} FoldIdle(lib: Lib, cfg: Config, db: Store, order: seq<string>)
    requires Elems(order) <= cfg.rename.Keys
    requires forall k :: k in order && Source(k).Some? ==> Source(k).value.1 !in SlugsIn(SlugMap(db, Source(k).value.0))
    ensures Elems(order) <= cfg.rename.Keys
    ensures forall o :: SlugMap(Fold(lib, cfg, db, order).0, o) == SlugMap(db, o)
  {
    if order != [] {
      var k, rest := order[|order| - 1], order[..|order| - 1];
      assert order == rest + [k];
      ElemsAppend(rest, [k]);
      FoldStep(lib, cfg, db, rest, k);
      FoldIdle(lib, cfg, db, rest);
      if Source(k).Some? {
        MoveInSlugs(Fold(lib, cfg, db, rest).0, Source(k).value.0, Source(k).value.1, cfg.rename[k]);
      }
    }
  }

  lemma FoldTwo(lib: Lib, cfg: Config, db: Store, rest: seq<string>, k: string, l: string, at: Section)
    requires Elems(rest) <= cfg.rename.Keys && k in cfg.rename && l in cfg.rename
    requires Source(k).Some? && Source(l).Some? && Source(k).value.0 == Source(l).value.0 == at
    requires forall x :: x in rest && Source(x).Some? ==> Source(x).value.1 !in SlugsIn(SlugMap(db, Source(x).value.0))
    ensures Elems(rest + [k] + [l]) <= cfg.rename.Keys
    ensures SlugMap(Fold(lib, cfg, db, rest + [k] + [l]).0, at) ==
            MoveSlugs(MoveSlugs(SlugMap(db, at), Source(k).value.1, cfg.rename[k]), Source(l).value.1, cfg.rename[l])
  {
    FoldIdle(lib, cfg, db, rest);
    FoldStep(lib, cfg, db, rest, k);
    FoldStep(lib, cfg, db, rest + [k], l);
    var d := Fold(lib, cfg, db, rest).0;
    MoveInSlugs(d, at, Source(k).value.1, cfg.rename[k]);
    MoveInSlugs(MoveIn(d, at, Source(k).value.1, cfg.rename[k]), at, Source(l).value.1, cfg.rename[l]);
  }

  lemma {:induction false} SomeOrder(keys: set<string>) returns (order: seq<string>)
    ensures IsOrder(order, keys)
  {
    if keys == {} {
      order := [];
    } else {
      var k :| k in keys;
      var rest := SomeOrder(keys - {k});
      order := rest + [k];
      ElemsAppend(rest, [k]);
      assert Elems([k]) == {k};
      assert k !in Elems(rest);
    }
  }

  lemma OrderWithLast(keys: set<string>, rest: seq<string>, k: string, l: string)
    requires IsOrder(rest, keys - {k, l}) && k in keys && l in keys && k != l
    ensures IsOrder(rest + [k] + [l], keys)
  {
    ElemsAppend(rest, [k]);
    ElemsAppend(rest + [k], [l]);
    assert k !in Elems(rest) && l !in Elems(rest);
  }

  lemma OrderMatters(lib: Lib, cfg: Config, k: string, l: string) returns (db: Store, a: seq<string>, b: seq<string>)
    requires Collide(cfg, k, l)
    ensures WfAll(db) && IsOrder(a, cfg.rename.Keys) && IsOrder(b, cfg.rename.Keys)
    ensures Fold(lib, cfg, db, a) != Fold(lib, cfg, db, b)
  {
    var at, s1, s2 := Source(k).value.0, Source(k).value.1, Source(l).value.1;
    SourceIsKey(k);
    SourceIsKey(l);
    assert s1 != s2;
    var slugs := if cfg.rename[k] == s2 then map[Id(1) := s1] else map[Id(1) := s1, Id(2) := s2];
    db := Only(at, slugs);
    OnlyIs(at, slugs);
    var rest := SomeOrder(cfg.rename.Keys - {k, l});
    forall x | x in rest && Source(x).Some? ensures Source(x).value.1 !in SlugsIn(SlugMap(db, Source(x).value.0)) {
      assert x in Elems(rest);
      SourceIsKey(x);
    }
    a, b := rest + [k] + [l], rest + [l] + [k];
    OrderWithLast(cfg.rename.Keys, rest, k, l);
    OrderWithLast(cfg.rename.Keys, rest, l, k);
    FoldTwo(lib, cfg, db, rest, k, l, at);
    FoldTwo(lib, cfg, db, rest, l, k, at);
    TwoMoves(s1, s2, cfg.rename[k], cfg.rename[l]);
  }

  lemma TwoMoves(s1: string, s2: string, d1: string, d2: string)
    requires s1 != s2 && s1 != d1 && s2 != d2 && (d1 == d2 || d1 == s2)
    ensures var m := if d1 == s2 then map[Id(1) := s1] else map[Id(1) := s1, Id(2) := s2];
            MoveSlugs(MoveSlugs(m, s1, d1), s2, d2) != MoveSlugs(MoveSlugs(m, s2, d2), s1, d1)
  {
    if d1 == s2 {
      var m, n := map[Id(1) := s1], map[Id(1) := s2];
      One(s1);
      One(s2);
      assert MoveSlugs(m, s1, d1) == n;
      assert MoveSlugs(n, s2, d2)[Id(1)] == d2;
      assert MoveSlugs(m, s2, d2) == m;
    } else {
      var m := map[Id(1) := s1, Id(2) := s2];
      var x, y := map[Id(1) := d1, Id(2) := s2], map[Id(1) := s1, Id(2) := d1];
      Two(s1, s2);
      Two(d1, s2);
      Two(s1, d1);
      assert MoveSlugs(m, s1, d1) == x && MoveSlugs(m, s2, d2) == y;
    }
  }

  lemma One(a: string)
    ensures SlugsIn(map[Id(1) := a]) == {a}
  {
    var m := map[Id(1) := a];
    assert m[Id(1)] == a;
  }

  lemma Two(a: string, b: string)
    ensures SlugsIn(map[Id(1) := a, Id(2) := b]) == {a, b}
  {
    var m := map[Id(1) := a, Id(2) := b];
    assert m[Id(1)] == a && m[Id(2)] == b;
  }

  // ---- when the pass is silent ----

  /** The part of a clean rename section that the file alone decides. */
  ghost predicate GoodRenames(lib: Lib, cfg: Config) {
    forall k :: k in cfg.rename ==>
      && Source(k).Some? && ValidMove(lib, Source(k).value.1, cfg.rename[k])
      && cfg.rename[k] in Declared(cfg, Source(k).value.0)
  }

  /** The part that the instance decides. */
  ghost predicate RenamesFit(cfg: Config, db: Store) {
    forall k :: k in cfg.rename && Source(k).Some? ==>
      && Source(k).value.1 in SlugsOf(db, Source(k).value.0)
      && cfg.rename[k] !in SlugsOf(db, Source(k).value.0)
  }

  lemma RenamesSilent(lib: Lib, cfg: Config, db: Store)
    ensures Gather(AllMsgs(lib, cfg, db), cfg.rename.Keys) == {} <==> GoodRenames(lib, cfg) && RenamesFit(cfg, db)
  {
    var per := AllMsgs(lib, cfg, db);
    GatherClean(per);
    assert per.Keys == cfg.rename.Keys;
    forall k | k in cfg.rename
      ensures per[k] == {} <==>
              && Source(k).Some? && ValidMove(lib, Source(k).value.1, cfg.rename[k])
              && cfg.rename[k] in Declared(cfg, Source(k).value.0)
              && Source(k).value.1 in Present(db, k) && cfg.rename[k] !in Present(db, k)
    {
      EntrySilent(lib, cfg, k, Present(db, k));
    }
  }

  lemma EntrySilent(lib: Lib, cfg: Config, k: string, present: set<string>)
    requires k in cfg.rename
    ensures EntryMsgs(lib, cfg, k, cfg.rename[k], present) == {} <==>
            && Source(k).Some? && ValidMove(lib, Source(k).value.1, cfg.rename[k])
            && cfg.rename[k] in Declared(cfg, Source(k).value.0)
            && Source(k).value.1 in present && cfg.rename[k] !in present
  {
  }
}
