/** Inputs on which the reconciler does not do what its documentation promises:
    the limits of the theorems in Convergence and Validate are real. */
module Counterexamples {
  import opened Prelude
  import opened SlugGrammar
  import opened Tables
  import opened Store
  import opened Config
  import opened Acceptance
  import opened Rename
  import opened Apply
  import opened Convergence
  import opened Validate

  /** A library that knows ASCII letters and accepts every address and URL. */
  function PlainLib(): Lib {
    Lib(c => 'a' <= c <= 'z', c => 'a' <= c <= 'z', s => s, s => s, (a, b) => a == b, s => s, s => true,
        s => Some(s), m => "", s => None)
  }

  const NO_ALERTS := AlertCfg("", AlertSettings("", "", false))

  // ---- a channel cannot change its type ----

  function SlackFile(): Config {
    Config("x", map[],
           map["c" := map["type" := Str(SLACK), "name" := Str("n"), "webhook-url" := Str("u")]],
           map[], map[], NO_ALERTS, map[])
  }

  function SmtpInstance(): Store {
    Only(Channels, map[Id(1) := "c"])
  }

  lemma SlackFileClean()
    ensures CleanConfig(PlainLib(), SlackFile())
  {
  }

  /** A clean file, and an instance whose one channel it gives another type. */
  lemma SlackFileOnSmtp()
    ensures CleanConfig(PlainLib(), SlackFile()) && SlackFile().rename == map[]
    ensures Consistent(PlainLib(), SmtpInstance()) && !KindsAgree(SlackFile(), SmtpInstance().channels)
  {
    SlackFileClean();
    var t, v := SmtpInstance().channels, SlackFile().channels["c"];
    assert t[Id(1)].slug == "c" && t[Id(1)].f.kind == SMTP;
    assert v["type"] == Str(SLACK);
  }

  /** On such a pair every run reports nothing, and none leaves what the file
      declares. */
  lemma TypeChangeIgnored(lib: Lib, cfg: Config, order: seq<string>, db0: Store, db: Store, msgs: set<Msg>)
    requires CleanConfig(lib, cfg) && cfg.rename == map[] && Consistent(lib, db0) && !KindsAgree(cfg, db0.channels)
    requires RunVia(lib, cfg, order, db0, db, msgs)
    ensures msgs == {} && PictureOf(db) != DeclaredPicture(lib, cfg)
  {
    NothingToRename(lib, cfg, db0, order);
    Verdict(lib, cfg, order, db0, db, msgs);
    Converges(lib, cfg, order, db0, db);
  }

  // ---- the validator refuses a file the instance accepts ----

  function WebsiteFile(): Config {
    Config("x", map[], map[], map[], map[WEBSITE := ServiceCfg("n", "")], NO_ALERTS, map["services.a" := WEBSITE])
  }

  lemma WebsiteLegal()
    ensures Legal(PlainLib(), WEBSITE) && !PatternMatches(PlainLib(), WEBSITE) && WEBSITE != "a"
  {
  }

  lemma WebsiteFileGood()
    ensures CleanConfig(PlainLib(), WebsiteFile()) && GoodRenames(PlainLib(), WebsiteFile())
    ensures Independent(WebsiteFile()) && TakesWebsite(WebsiteFile())
    ensures Source("services.a") == Some((Services, "a"))
  {
    var cfg := WebsiteFile();
    KeyHasSource(Services, "a");
    assert EntityName(Services) + "." + "a" == "services.a";
    WebsiteLegal();
    assert "services.a" in cfg.rename && cfg.rename["services.a"] == WEBSITE;
  }

  function WebsiteInstance(): Store {
    Only(Services, map[Id(1) := "a"])
  }

  lemma WebsiteInstanceOk()
    ensures Consistent(PlainLib(), WebsiteInstance()) && SlugsOf(WebsiteInstance(), Services) == {"a"}
  {
    var t := WebsiteInstance().services;
    assert t[Id(1)].slug == "a";
  }

  /** A clean file that renames a service to "website", and an instance that has
      the service and no "website". */
  lemma WebsiteFileFits()
    ensures CleanConfig(PlainLib(), WebsiteFile()) && GoodRenames(PlainLib(), WebsiteFile())
    ensures Independent(WebsiteFile()) && TakesWebsite(WebsiteFile())
    ensures Consistent(PlainLib(), WebsiteInstance()) && RenamesFit(WebsiteFile(), WebsiteInstance())
  {
    WebsiteFileGood();
    WebsiteInstanceOk();
  }

  /** On such a pair every run on the instance reports nothing, and every
      validation refuses the file. */
  lemma ValidatorTooStrict(lib: Lib, cfg: Config, orderV: seq<string>, seeded: Store, dbV: Store, msgsV: set<Msg>,
                           order: seq<string>, live: Store, db: Store, msgs: set<Msg>)
    requires CleanConfig(lib, cfg) && GoodRenames(lib, cfg) && Independent(cfg) && TakesWebsite(cfg)
    requires Consistent(lib, live) && RenamesFit(cfg, live)
    requires ValidatedVia(lib, cfg, orderV, seeded, dbV, msgsV) && RunVia(lib, cfg, order, live, db, msgs)
    ensures msgs == {} && msgsV != {}
  {
    IndependentVerdict(lib, cfg, order, live, db, msgs);
    ValidatorExact(lib, cfg, orderV, seeded, dbV, msgsV, order, live, db, msgs);
  }

  // ---- chains of renames ----

  lemma SlugsMoved(db: Store, at: Section, src: string, dst: string)
    requires src in SlugsOf(db, at) && dst !in SlugsOf(db, at)
    ensures dst in SlugsOf(MoveIn(db, at, src, dst), at) && src !in SlugsOf(MoveIn(db, at, src, dst), at)
    ensures forall s :: s != src && s != dst ==> (s in SlugsOf(MoveIn(db, at, src, dst), at) <==> s in SlugsOf(db, at))
  {
    match at
    case Services => TableMoved(db.services, src, dst);
    case Monitors => TableMoved(db.monitors, src, dst);
    case Channels => TableMoved(db.channels, src, dst);
    case Groups => TableMoved(db.groups, src, dst);
  }

  lemma TableMoved<F>(t: Table<F>, src: string, dst: string)
    requires src in Slugs(t) && dst !in Slugs(t)
    ensures Slugs(Moving(t, src, dst)) == Slugs(t) - {src} + {dst}
  {
    var t' := Moving(t, src, dst);
    forall s | s in Slugs(t) - {src} + {dst} ensures s in Slugs(t') {
      var i := IdOf(t, if s == dst then src else s);
      assert t'[i].slug == s;
    }
    forall s | s in Slugs(t') ensures s in Slugs(t) - {src} + {dst} {
      var i := IdOf(t', s);
      assert t[i].slug in Slugs(t);
    }
  }

  /** In a chain a -> b, b -> c whose rows exist and whose end is free, the one
      order completes both renames and the other reports b as taken. Go picks
      the order at random, so the same push passes or fails by chance. */
  lemma ChainVerdictDepends(lib: Lib, cfg: Config, db: Store, k: string, l: string)
    requires Collide(cfg, k, l) && cfg.rename[k] == Source(l).value.1 && GoodRenames(lib, cfg)
    requires Source(k).value.1 in Present(db, k) && Source(l).value.1 in Present(db, l)
    requires cfg.rename[l] !in Present(db, l)
    ensures Elems([l, k]) <= cfg.rename.Keys && Elems([k, l]) <= cfg.rename.Keys
    ensures Fold(lib, cfg, db, [l, k]).1 == {}
    ensures RenameTaken(cfg.rename[k]) in Fold(lib, cfg, db, [k, l]).1
  {
    var at, b := Source(l).value.0, Source(l).value.1;
    assert Fold(lib, cfg, db, []) == (db, {});
    assert [] + [k] == [k] && [] + [l] == [l] && [k] + [l] == [k, l] && [l] + [k] == [l, k];
    FoldStep(lib, cfg, db, [], l);
    FoldStep(lib, cfg, db, [l], k);
    EntrySilent(lib, cfg, l, Present(db, l));
    SlugsMoved(db, at, b, cfg.rename[l]);
    EntrySilent(lib, cfg, k, Present(MoveIn(db, at, b, cfg.rename[l]), k));
    FoldStep(lib, cfg, db, [], k);
    FoldStep(lib, cfg, db, [k], l);
  }
}
