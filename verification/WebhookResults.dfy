/** What a save and a delivery leave in the tables, in the terms of the file. */
module WebhookResults {
  import opened Prelude
  import opened Tables
  import opened Store
  import opened Rename
  import opened Apply
  import opened Convergence
  import opened Webhook

  /** A save either changes nothing or leaves the tables as a clean apply of what
      was saved does. */
  lemma SavedApplies(lib: Lib, decode: Decoder, content: string, a: Instance, b: Instance)
    requires Consistent(lib, a.db) && Saved(lib, decode, content, a, b) && b != a
    ensures ResultOf(lib, decode, content, b.db) && b == Instance(b.db, a.sha, content, Accepted)
  {
    var cfg := decode(content).cfg;
    var order, db, msgs :| SavedVia(lib, cfg, order, db, msgs, content, a, b);
    assert ResultVia(lib, cfg, order, a.db, db, b.db);
  }

  /** The same of a delivery: it changes nothing, or only records why not, or
      leaves the tables and the SHA of the clean apply. */
  lemma DeliveryApplies(lib: Lib, decode: Decoder, stale: string, sha: string, content: string,
                        a: Instance, b: Instance)
    requires Consistent(lib, a.db) && WriteHalf(lib, decode, stale, sha, content, a, b) && b != a
    ensures sha != stale && b.configFile == content
    ensures if b.errors == Accepted then b.sha == sha && ResultOf(lib, decode, content, b.db)
            else b.sha == a.sha && b.db == a.db
  {
    if decode(content).Parsed? {
      var cfg := decode(content).cfg;
      var order, db, msgs :| WriteVia(lib, cfg, order, db, msgs, sha, content, a, b);
      if msgs == {} {
        assert ResultVia(lib, cfg, order, a.db, db, b.db);
      }
    }
  }

  /** Where the SHA is truthful the picture is that of the clean apply; logs and alert
      services alone may have moved on. */
  lemma ResultPicture(lib: Lib, decode: Decoder, content: string, db: Store)
    returns (order: seq<string>, db0: Store, db1: Store)
    requires WfAll(db) && ResultOf(lib, decode, content, db)
    ensures decode(content).Parsed? && Consistent(lib, db0) && RunVia(lib, decode(content).cfg, order, db0, db1, {})
    ensures SameEntityTables(db, db1) && PictureOf(db) == PictureOf(db1)
  {
    order, db0, db1 :| ResultVia(lib, decode(content).cfg, order, db0, db1, db);
    EntityTables(db, db1);
    SamePictures(db, db1);
  }

  predicate SameEntityTables(a: Store, b: Store) {
    && a.name == b.name && a.services == b.services && a.monitors == b.monitors
    && a.channels == b.channels && a.groups == b.groups && a.members == b.members
    && a.channelLinks == b.channelLinks && a.groupLinks == b.groupLinks
    && a.smtpChannel == b.smtpChannel && a.settings == b.settings
  }

  lemma EntityTables(a: Store, b: Store)
    requires Entities(a) == Entities(b)
    ensures SameEntityTables(a, b)
  {
    var x, y := Entities(a), Entities(b);
    assert x.services == y.services && x.monitors == y.monitors && x.channels == y.channels && x.groups == y.groups;
    assert x.members == y.members && x.channelLinks == y.channelLinks && x.groupLinks == y.groupLinks;
    assert x.name == y.name && x.settings == y.settings && x.smtpChannel == y.smtpChannel;
  }

  lemma SamePictures(a: Store, b: Store)
    requires WfAll(a) && WfAll(b) && SameEntityTables(a, b)
    ensures PictureOf(a) == PictureOf(b)
  {
  }

  /** A save of a clean file shows what the file declares, when the channels that
      survive have the declared types. */
  lemma SavedPicture(lib: Lib, decode: Decoder, content: string, a: Instance, b: Instance) returns (order: seq<string>)
    requires Consistent(lib, a.db) && Saved(lib, decode, content, a, b) && b != a
    ensures decode(content).Parsed? && Elems(order) <= decode(content).cfg.rename.Keys && WfAll(b.db)
    ensures PictureOf(b.db) == DeclaredPicture(lib, decode(content).cfg) <==>
            KindsAgree(decode(content).cfg, Fold(lib, decode(content).cfg, a.db, order).0.channels)
  {
    var cfg := decode(content).cfg;
    var db, msgs;
    order, db, msgs :| SavedVia(lib, cfg, order, db, msgs, content, a, b);
    Converges(lib, cfg, order, a.db, db);
  }

  /** A delivery that brings the SHA the instance had when it began changes
      nothing, whatever happened meanwhile. */
  lemma SeenShaSkipped(lib: Lib, decode: Decoder, blob: string -> string, s: State, d: Id, t: State, u: State, v: State)
    requires Consistent(lib, s.now.db) && Consistent(lib, u.now.db)
    requires Next(lib, decode, blob, s, BeginDelivery(d), t) && d in t.deliveries
    requires d in u.deliveries && u.deliveries[d] == t.deliveries[d]
    requires Next(lib, decode, blob, u, EndDelivery(d, s.now.sha), v)
    ensures v.now == u.now
  {
  }
}
