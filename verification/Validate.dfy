/** validateConfig: the real apply, on a throwaway database seeded with the
    sources of the file's renames. */
module Validate {
  import opened Prelude
  import opened Tables
  import opened Store
  import opened Config
  import opened Acceptance
  import opened Reconciler
  import opened Rename
  import opened Apply
  import opened Convergence

  const WEBSITE := "website"

  /** The rows schema.sql inserts into the tables of this model. */
  function SchemaStore(): Store {
    Store("", map[Id(1) := Row(WEBSITE, Service("Website", "Edit or delete this service in the admin area"))],
          map[Id(1) := Id(1)], map[], map[], map[], map[], {}, {}, {}, None, AlertSettings("", "", true))
  }

  const FILL_SERVICE := Service("", "")
  const FILL_MONITOR := Monitor("", "", "GET", 60, 5, 1, map[], None, None)
  const FILL_CHANNEL := Channel("", SMTP, NoDetails)
  const FILL_GROUP := Group("", "")

  predicate Cuts(k: string, at: Section) {
    CutKey(k).Some? && SectionOf(CutKey(k).value.0) == Some(at)
  }

  /** The slugs seeded for the keys in `done`: unlike the rename pass, seeding
      cuts a key at its first dot only. */
  function Seeds(done: set<string>, at: Section): set<string> {
    set k | k in done && Cuts(k, at) :: CutKey(k).value.1
  }

  /** `t` is `t0` plus one filler row for every seed that `t0` lacks. */
  ghost predicate Grown<F>(t0: Table<F>, t: Table<F>, seeds: set<string>, filler: F) {
    && Wf(t) && Slugs(t) == Slugs(t0) + seeds
    && (forall i :: i in t0 ==> i in t && t[i] == t0[i])
    && (forall i :: i in t && i !in t0 ==> t[i].slug in seeds - Slugs(t0) && t[i].f == filler)
  }

  /** insert or ignore */
  method InsertOrIgnore<F>(t: Table<F>, slug: string, f: F, ghost t0: Table<F>, ghost seeds: set<string>)
    returns (t': Table<F>)
    requires Grown(t0, t, seeds, f)
    ensures Grown(t0, t', seeds + {slug}, f)
  {
    var err, id;
    err, t', id := Insert(t, slug, f);
    if slug in Slugs(t) {
      assert Slugs(t0) + seeds == Slugs(t0) + (seeds + {slug});
    } else {
      assert t'[id].slug == slug;
      forall i | i in t ensures t'[i] == t[i] && t[i].slug != slug {
        assert t[i].slug in Slugs(t);
      }
      SlugsAfter(t, t', id, slug);
    }
  }

  lemma SlugsAfter<F>(t: Table<F>, t': Table<F>, id: Id, slug: string)
    requires id !in t && id in t' && t'[id].slug == slug && t'.Keys == t.Keys + {id}
    requires forall i :: i in t ==> t'[i] == t[i]
    ensures Slugs(t') == Slugs(t) + {slug}
  {
  }

  ghost predicate Seeded(db0: Store, db: Store, done: set<string>) {
    && Grown(db0.services, db.services, Seeds(done, Services), FILL_SERVICE)
    && Grown(db0.monitors, db.monitors, Seeds(done, Monitors), FILL_MONITOR)
    && Grown(db0.channels, db.channels, Seeds(done, Channels), FILL_CHANNEL)
    && Grown(db0.groups, db.groups, Seeds(done, Groups), FILL_GROUP)
    && db == db0.(services := db.services, monitors := db.monitors, channels := db.channels, groups := db.groups)
  }

  lemma SeedsStep(done: set<string>, k: string, at: Section)
    ensures Seeds(done + {k}, at) == if Cuts(k, at) then Seeds(done, at) + {CutKey(k).value.1} else Seeds(done, at)
  {
  }

  /** One case of the switch on the entity type. */
  method SeedTable<F>(t: Table<F>, k: string, at: Section, filler: F, ghost t0: Table<F>, ghost done: set<string>)
    returns (t': Table<F>)
    requires Grown(t0, t, Seeds(done, at), filler)
    ensures Grown(t0, t', Seeds(done + {k}, at), filler)
  {
    SeedsStep(done, k, at);
    t' := t;
    if Cuts(k, at) {
      t' := InsertOrIgnore(t, CutKey(k).value.1, filler, t0, Seeds(done, at));
    }
  }

  method SeedOne(db: Store, k: string, ghost db0: Store, ghost done: set<string>) returns (db': Store)
    requires Seeded(db0, db, done)
    ensures Seeded(db0, db', done + {k})
  {
    var services := SeedTable(db.services, k, Services, FILL_SERVICE, db0.services, done);
    var monitors := SeedTable(db.monitors, k, Monitors, FILL_MONITOR, db0.monitors, done);
    var channels := SeedTable(db.channels, k, Channels, FILL_CHANNEL, db0.channels, done);
    var groups := SeedTable(db.groups, k, Groups, FILL_GROUP, db0.groups, done);
    db' := db.(services := services, monitors := monitors, channels := channels, groups := groups);
  }

  method SeedRenameSources(tx: Tx, cfg: Config)
    requires Seeded(tx.db, tx.db, {})
    modifies tx
    ensures Seeded(old(tx.db), tx.db, cfg.rename.Keys)
  {
    ghost var db0 := tx.db;
    var done: set<string> := {};
    while done != cfg.rename.Keys
      invariant done <= cfg.rename.Keys && Seeded(db0, tx.db, done)
      decreases cfg.rename.Keys - done
    {
      SomeLeft(cfg.rename.Keys, done);
      var k :| k in cfg.rename.Keys - done;
      var db := SeedOne(tx.db, k, db0, done);
      tx.db := db;
      done := done + {k};
    }
  }

  lemma SchemaOk(lib: Lib)
    ensures Consistent(lib, SchemaStore()) && Seeded(SchemaStore(), SchemaStore(), {})
    ensures SlugsOf(SchemaStore(), Services) == {WEBSITE}
    ensures forall at :: at != Services ==> SlugsOf(SchemaStore(), at) == {}
  {
    var t := SchemaStore().services;
    assert t[Id(1)].slug == WEBSITE;
    assert Slugs(t) == {WEBSITE};
    forall at ensures Seeds({}, at) == {} {}
  }

  lemma SeededOk(lib: Lib, db: Store, done: set<string>)
    requires Seeded(SchemaStore(), db, done)
    ensures Consistent(lib, db)
    ensures forall at :: SlugsOf(db, at) == SlugsOf(SchemaStore(), at) + Seeds(done, at)
  {
    SchemaOk(lib);
    forall at ensures SlugsOf(db, at) == SlugsOf(SchemaStore(), at) + Seeds(done, at) {
      SeededSlugs(SchemaStore(), db, done, at);
    }
  }

  lemma SeededSlugs(db0: Store, db: Store, done: set<string>, at: Section)
    requires Seeded(db0, db, done)
    ensures SlugsOf(db, at) == SlugsOf(db0, at) + Seeds(done, at)
  {
  }

  /** One validation of the file. */
  ghost predicate ValidatedVia(lib: Lib, cfg: Config, order: seq<string>, seeded: Store, db: Store, msgs: set<Msg>) {
    && Seeded(SchemaStore(), seeded, cfg.rename.Keys)
    && (SeededOk(lib, seeded, cfg.rename.Keys); RunVia(lib, cfg, order, seeded, db, msgs))
  }

  method ValidateConfig(lib: Lib, cfg: Config)
    returns (msgs: seq<Msg>, ghost order: seq<string>, ghost seeded: Store, ghost db: Store)
    ensures ValidatedVia(lib, cfg, order, seeded, db, Elems(msgs)) && Distinct(msgs)
  {
    SchemaOk(lib);
    var tx := new Tx(SchemaStore());
    SeedRenameSources(tx, cfg);
    seeded := tx.db;
    SeededOk(lib, seeded, cfg.rename.Keys);
    var err;
    msgs, err, order := ApplyConfig(tx, lib, cfg);
    db := tx.db;
  }

  // ---- what a verdict means for an instance ----

  /** A rename that takes the slug of the one service the schema comes with. */
  ghost predicate TakesWebsite(cfg: Config) {
    exists k :: k in cfg.rename && Source(k).Some? && Source(k).value.0 == Services && cfg.rename[k] == WEBSITE
  }

  lemma SourceSeeded(cfg: Config, k: string)
    requires k in cfg.rename && Source(k).Some?
    ensures Source(k).value.1 in Seeds(cfg.rename.Keys, Source(k).value.0)
  {
  }

  /** With good, independent renames no target is among the seeds. */
  lemma TargetNotSeeded(lib: Lib, cfg: Config, k: string)
    requires Independent(cfg) && GoodRenames(lib, cfg) && k in cfg.rename
    ensures cfg.rename[k] !in Seeds(cfg.rename.Keys, Source(k).value.0)
  {
    var at, dst := Source(k).value.0, cfg.rename[k];
    forall l | l in cfg.rename && Cuts(l, at) ensures CutKey(l).value.1 != dst {
      assert Source(l).Some? && CutKey(l) == SplitKey(l);
      assert Source(l).value == (at, CutKey(l).value.1);
      assert !Collide(cfg, k, l);
    }
  }

  lemma FitAt(lib: Lib, cfg: Config, seeded: Store, k: string)
    requires Independent(cfg) && GoodRenames(lib, cfg) && k in cfg.rename
    requires SlugsOf(seeded, Source(k).value.0) ==
             SlugsOf(SchemaStore(), Source(k).value.0) + Seeds(cfg.rename.Keys, Source(k).value.0)
    ensures Source(k).value.1 in SlugsOf(seeded, Source(k).value.0)
    ensures cfg.rename[k] in SlugsOf(seeded, Source(k).value.0) <==>
              Source(k).value.0 == Services && cfg.rename[k] == WEBSITE
  {
    SchemaOk(lib);
    SourceSeeded(cfg, k);
    TargetNotSeeded(lib, cfg, k);
  }

  lemma SeededFit(lib: Lib, cfg: Config, seeded: Store)
    requires Independent(cfg) && GoodRenames(lib, cfg)
    requires forall at :: SlugsOf(seeded, at) == SlugsOf(SchemaStore(), at) + Seeds(cfg.rename.Keys, at)
    ensures RenamesFit(cfg, seeded) <==> !TakesWebsite(cfg)
  {
    forall k | k in cfg.rename
      ensures Source(k).value.1 in SlugsOf(seeded, Source(k).value.0)
      ensures cfg.rename[k] in SlugsOf(seeded, Source(k).value.0) <==>
                Source(k).value.0 == Services && cfg.rename[k] == WEBSITE
    {
      FitAt(lib, cfg, seeded, k);
    }
  }

  /** The verdict on a file with independent renames is a function of the file. */
  lemma ValidatorVerdict(lib: Lib, cfg: Config, order: seq<string>, seeded: Store, db: Store, msgs: set<Msg>)
    requires ValidatedVia(lib, cfg, order, seeded, db, msgs) && Independent(cfg)
    ensures msgs == {} <==> GoodRenames(lib, cfg) && CleanConfig(lib, cfg) && !TakesWebsite(cfg)
  {
    SeededOk(lib, seeded, cfg.rename.Keys);
    IndependentVerdict(lib, cfg, order, seeded, db, msgs);
    if GoodRenames(lib, cfg) {
      SeededFit(lib, cfg, seeded);
    }
  }

  /** On an instance where every rename source exists and no target is taken, the
      validator accepts exactly what the instance accepts, except that it
      refuses to rename a service to the slug its own schema row holds. */
  lemma ValidatorExact(lib: Lib, cfg: Config, orderV: seq<string>, seeded: Store, dbV: Store, msgsV: set<Msg>,
                       order: seq<string>, live: Store, db: Store, msgs: set<Msg>)
    requires ValidatedVia(lib, cfg, orderV, seeded, dbV, msgsV) && Independent(cfg)
    requires Consistent(lib, live) && RunVia(lib, cfg, order, live, db, msgs) && RenamesFit(cfg, live)
    ensures msgsV == {} <==> msgs == {} && !TakesWebsite(cfg)
  {
    ValidatorVerdict(lib, cfg, orderV, seeded, dbV, msgsV);
    IndependentVerdict(lib, cfg, order, live, db, msgs);
  }
}
