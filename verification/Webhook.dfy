/** Who may change the store: GitHub deliveries, the admin editor, the admin
    pages and the settings form, as interleaved steps. */
module Webhook {
  import opened Prelude
  import opened Tables
  import opened Store
  import opened Config
  import opened Reconciler
  import opened Apply

  datatype Outcome = Accepted | Undecodable | Refused(msgs: set<Msg>)

  /** What the database holds; `sha` is the meta row githubConfigSHA. */
  datatype Instance = Instance(db: Store, sha: string, configFile: string, errors: Outcome)

  /** What applyConfig finds before it touches a row: the file; an error of the
      YAML library; or another error, as for a malformed secret value or an empty
      document. */
  datatype Decoded = Parsed(cfg: Config) | YamlError | OtherError

  /** The library decodes file bytes, secrets included. */
  type Decoder = string -> Decoded

  // ---- one delivery, one editor save ----

  /** The write half of a delivery that read `stale` as the last SHA and got
      `content` under `sha` from GitHub. */
  ghost predicate WriteHalf(lib: Lib, decode: Decoder, stale: string, sha: string, content: string, a: Instance,
                            b: Instance)
    requires Consistent(lib, a.db)
  {
    if sha == stale then b == a
    else
      match decode(content)
      case OtherError => b == a
      case YamlError => b == a.(configFile := content, errors := Undecodable)
      case Parsed(cfg) => exists order, db, msgs :: WriteVia(lib, cfg, order, db, msgs, sha, content, a, b)
  }

  ghost predicate WriteVia(lib: Lib, cfg: Config, order: seq<string>, db: Store, msgs: set<Msg>,
                           sha: string, content: string, a: Instance, b: Instance)
    requires Consistent(lib, a.db)
  {
    && RunVia(lib, cfg, order, a.db, db, msgs)
    && b == (if msgs == {} then Instance(db, sha, content, Accepted)
             else a.(configFile := content, errors := Refused(msgs)))
  }

  /** A save in the admin editor: only a clean file is committed. */
  ghost predicate Saved(lib: Lib, decode: Decoder, content: string, a: Instance, b: Instance)
    requires Consistent(lib, a.db)
  {
    if !decode(content).Parsed? then b == a
    else exists order, db, msgs :: SavedVia(lib, decode(content).cfg, order, db, msgs, content, a, b)
  }

  ghost predicate SavedVia(lib: Lib, cfg: Config, order: seq<string>, db: Store, msgs: set<Msg>, content: string,
                           a: Instance, b: Instance)
    requires Consistent(lib, a.db)
  {
    && RunVia(lib, cfg, order, a.db, db, msgs)
    && b == if msgs == {} then a.(db := db, configFile := content, errors := Accepted) else a
  }

  /** Apply a file to a transaction on `db`; dropping `db'` is the rollback. */
  method TryApply(lib: Lib, cfg: Config, db: Store) returns (db': Store, msgs: seq<Msg>, ghost order: seq<string>)
    requires Consistent(lib, db)
    ensures RunVia(lib, cfg, order, db, db', Elems(msgs)) && (msgs == [] <==> Elems(msgs) == {})
  {
    var tx := new Tx(db);
    var err;
    msgs, err, order := ApplyConfig(tx, lib, cfg);
    db' := tx.db;
    if msgs != [] {
      assert msgs[0] in Elems(msgs);
    }
  }

  class Server {
    var now: Instance

    constructor (start: Instance)
      ensures now == start
    {
      now := start;
    }

    /** configWebhook from its second transaction on. */
    method FinishDelivery(lib: Lib, decode: Decoder, stale: string, sha: string, content: string)
      returns (status: int, ghost order: seq<string>, ghost tried: Store, ghost found: set<Msg>)
      requires Consistent(lib, now.db)
      modifies this
      ensures WriteHalf(lib, decode, stale, sha, content, old(now), now)
      ensures decode(content).Parsed? && sha != stale ==>
                RunVia(lib, decode(content).cfg, order, old(now).db, tried, found)
      ensures sha == stale || decode(content).OtherError? ==> now == old(now)
      ensures sha != stale && decode(content).YamlError? ==>
                now == old(now).(errors := Undecodable, configFile := content)
      ensures sha != stale && decode(content).Parsed? ==>
                now == if found == {} then Instance(tried, sha, content, Accepted)
                       else Instance(old(now).db, old(now).sha, content, Refused(found))
      ensures status == 500 <==> sha != stale && decode(content).OtherError?
      ensures status == 422 <==> sha != stale && !decode(content).OtherError? && now.errors != Accepted
      ensures Consistent(lib, now.db)
    {
      status, order, tried, found := 200, [], now.db, {};
      if sha == stale {
        return;
      }
      ghost var before := now;
      var decoded := decode(content);
      if decoded.OtherError? {
        status := 500;
        return;
      } else if decoded.YamlError? {
        now := now.(errors := Undecodable, configFile := content);
        status := 422;
        return;
      }
      var db, msgs;
      db, msgs, order := TryApply(lib, decoded.cfg, now.db);
      tried, found := db, Elems(msgs);
      if msgs == [] {
        now := Instance(db, sha, content, Accepted);
      } else {
        now := now.(errors := Refused(Elems(msgs)), configFile := content);
        status := 422;
      }
      assert WriteVia(lib, decoded.cfg, order, db, Elems(msgs), sha, content, before, now);
    }

    /** postConfig after its check that GitHub does not manage the file. */
    method Save(lib: Lib, decode: Decoder, content: string)
      returns (status: int, ghost order: seq<string>, ghost tried: Store, ghost found: set<Msg>)
      requires Consistent(lib, now.db)
      modifies this
      ensures Saved(lib, decode, content, old(now), now)
      ensures Consistent(lib, now.db)
      ensures decode(content).Parsed? ==> RunVia(lib, decode(content).cfg, order, old(now).db, tried, found)
      ensures status == 200 <==> decode(content).Parsed? && found == {}
      ensures status == 200 ==> now.db == tried && now.configFile == content && now.errors == Accepted
      ensures now.sha == old(now).sha
      ensures status != 200 ==> now == old(now)
      ensures status == 500 <==> decode(content).OtherError?
    {
      status, order, tried, found := 400, [], now.db, {};
      ghost var before := now;
      var decoded := decode(content);
      if decoded.OtherError? {
        status := 500;
        return;
      } else if decoded.YamlError? {
        return;
      }
      var db, msgs;
      db, msgs, order := TryApply(lib, decoded.cfg, now.db);
      tried, found := db, Elems(msgs);
      if msgs == [] {
        now := now.(db := db, errors := Accepted, configFile := content);
        status := 200;
      }
      assert SavedVia(lib, decoded.cfg, order, db, Elems(msgs), content, before, now);
    }
  }

  // ---- the whole server ----

  /** `managed` and `enabled` are the meta rows githubManagedConfig and
      configFileEnabled, `gate` the atomic flag that refuses admin edits. A settings
      save commits the rows and stores the flag afterwards; `pending` holds what each
      save that is in between will store. `deliveries` holds the SHA each delivery in
      flight read. `edits` counts admin requests that passed the gate and have not
      committed. */
  datatype State = State(now: Instance, managed: bool, enabled: bool, gate: bool, pending: map<Id, bool>,
                         deliveries: map<Id, string>, edits: nat)

  datatype Step =
    | BeginDelivery(d: Id)
    | DropDelivery(d: Id)
    | EndDelivery(d: Id, sha: string)
    | CommitSettings(r: Id, configFile: bool, github: bool)
    | StoreFlag(r: Id)
    | BeginEdit
    | DropEdit
    | EndEdit
    | EditorSave(content: string)
    | Background
    | Restart

  /** The entity tables: the rest of the store follows checks and alerts. */
  function Entities(db: Store): Store {
    db.(monitorLogs := map[], alertServices := map[])
  }

  /** `blob` is GitHub's content under a SHA. */
  ghost predicate Next(lib: Lib, decode: Decoder, blob: string -> string, s: State, step: Step, t: State)
    requires Consistent(lib, s.now.db)
  {
    match step
    case BeginDelivery(d) => s.managed && d !in s.deliveries && t == s.(deliveries := s.deliveries[d := s.now.sha])
    case DropDelivery(d) => t == s.(deliveries := s.deliveries - {d})
    case EndDelivery(d, sha) =>
      && d in s.deliveries
      && WriteHalf(lib, decode, s.deliveries[d], sha, blob(sha), s.now, t.now)
      && t == s.(now := t.now, deliveries := s.deliveries - {d})
    case CommitSettings(r, configFile, github) =>
      && (github ==> configFile) && r !in s.pending
      && t == s.(managed := github, enabled := configFile, pending := s.pending[r := configFile], now := t.now)
      && t.now == s.now.(sha := if github then s.now.sha else "", configFile := t.now.configFile)
    case StoreFlag(r) => r in s.pending && t == s.(gate := s.pending[r], pending := s.pending - {r})
    case BeginEdit => !s.gate && t == s.(edits := s.edits + 1)
    case DropEdit => s.edits > 0 && t == s.(edits := s.edits - 1)
    case EndEdit =>
      && s.edits > 0 && Consistent(lib, t.now.db)
      && t == s.(edits := s.edits - 1, now := s.now.(db := t.now.db))
    case EditorSave(content) => !s.managed && Saved(lib, decode, content, s.now, t.now) && t == s.(now := t.now)
    case Background =>
      && Consistent(lib, t.now.db) && Entities(t.now.db) == Entities(s.now.db)
      && t == s.(now := s.now.(db := t.now.db))
    case Restart => t == s.(gate := s.enabled, pending := map[], deliveries := map[], edits := 0)
  }

  /** What the requests of a run have to keep apart. */
  datatype Rule =
    | DeliveryAfterFlag      // no delivery begins while a settings save is between commit and flag
    | SettingsAfterDelivery  // no settings save commits while a delivery is in flight
    | EditBeforeGate         // no admin edit is in flight when the gate closes
    | OneSave                // no settings save commits while another is between commit and flag

  predicate Keeps(rule: Rule, s: State, step: Step) {
    match rule
    case DeliveryAfterFlag => step.BeginDelivery? ==> s.pending == map[]
    case SettingsAfterDelivery => step.CommitSettings? ==> s.deliveries == map[]
    case EditBeforeGate => step.StoreFlag? && step.r in s.pending && s.pending[step.r] ==> s.edits == 0
    case OneSave => step.CommitSettings? ==> s.pending == map[]
  }

  /** The runs the consistency property is about. */
  ghost predicate Apart(s: State, step: Step) {
    forall rule :: Keeps(rule, s, step)
  }

  /** The entity tables are what a clean apply of `content` left. */
  ghost predicate ResultOf(lib: Lib, decode: Decoder, content: string, db: Store) {
    decode(content).Parsed? && exists order, db0, db1 :: ResultVia(lib, decode(content).cfg, order, db0, db1, db)
  }

  ghost predicate ResultVia(lib: Lib, cfg: Config, order: seq<string>, db0: Store, db1: Store, db: Store) {
    Consistent(lib, db0) && RunVia(lib, cfg, order, db0, db1, {}) && Entities(db) == Entities(db1)
  }

  ghost predicate Inv(lib: Lib, decode: Decoder, blob: string -> string, s: State) {
    && Consistent(lib, s.now.db)
    && (s.now.sha != "" ==> s.managed && s.gate && ResultOf(lib, decode, blob(s.now.sha), s.now.db))
    && (s.gate ==> s.edits == 0)
    && (s.managed ==> s.enabled)
    && (forall r :: r in s.pending ==> s.pending == map[r := s.enabled])
    && (s.pending == map[] ==> s.gate == s.enabled)
    && (s.deliveries != map[] ==> s.managed && s.pending == map[])
  }

  lemma WriteKeeps(lib: Lib, decode: Decoder, stale: string, sha: string, content: string, a: Instance, b: Instance)
    requires Consistent(lib, a.db) && WriteHalf(lib, decode, stale, sha, content, a, b)
    ensures Consistent(lib, b.db)
    ensures (b.db == a.db && b.sha == a.sha) || (b.sha == sha && ResultOf(lib, decode, content, b.db))
  {
    if sha != stale && decode(content).Parsed? {
      var order, db, msgs :| WriteVia(lib, decode(content).cfg, order, db, msgs, sha, content, a, b);
      if msgs == {} {
        assert ResultVia(lib, decode(content).cfg, order, a.db, db, b.db);
      }
    }
  }

  lemma SaveKeeps(lib: Lib, decode: Decoder, content: string, a: Instance, b: Instance)
    requires Consistent(lib, a.db) && Saved(lib, decode, content, a, b)
    ensures Consistent(lib, b.db) && b.sha == a.sha
  {
  }

  lemma SameEntities(lib: Lib, decode: Decoder, content: string, a: Store, b: Store)
    requires ResultOf(lib, decode, content, a) && Entities(a) == Entities(b)
    ensures ResultOf(lib, decode, content, b)
  {
    var order, db0, db1 :| ResultVia(lib, decode(content).cfg, order, db0, db1, a);
    assert ResultVia(lib, decode(content).cfg, order, db0, db1, b);
  }

  /** The settings form and a restart. */
  lemma SettingsKeepInv(lib: Lib, decode: Decoder, blob: string -> string, s: State, step: Step, t: State)
    requires Inv(lib, decode, blob, s) && Next(lib, decode, blob, s, step, t) && Apart(s, step)
    requires step.CommitSettings? || step.StoreFlag? || step.Restart?
    ensures Inv(lib, decode, blob, t)
  {
    assert Keeps(SettingsAfterDelivery, s, step) && Keeps(EditBeforeGate, s, step) && Keeps(OneSave, s, step);
    if step.StoreFlag? {
      assert s.pending == map[step.r := s.enabled];
      assert t.pending == map[];
    }
  }

  lemma StepKeepsInv(lib: Lib, decode: Decoder, blob: string -> string, s: State, step: Step, t: State)
    requires Inv(lib, decode, blob, s) && Next(lib, decode, blob, s, step, t) && Apart(s, step)
    ensures Inv(lib, decode, blob, t)
  {
    match step
    case EndDelivery(d, sha) => WriteKeeps(lib, decode, s.deliveries[d], sha, blob(sha), s.now, t.now);
    case EditorSave(content) => SaveKeeps(lib, decode, content, s.now, t.now);
    case Background =>
      if s.now.sha != "" {
        SameEntities(lib, decode, blob(s.now.sha), s.now.db, t.now.db);
      }
    case BeginDelivery(_) => assert Keeps(DeliveryAfterFlag, s, step);
    case CommitSettings(_, _, _) => SettingsKeepInv(lib, decode, blob, s, step, t);
    case StoreFlag(_) => SettingsKeepInv(lib, decode, blob, s, step, t);
    case Restart => SettingsKeepInv(lib, decode, blob, s, step, t);
    case _ =>
  }

  ghost predicate StepAt(lib: Lib, decode: Decoder, blob: string -> string, states: seq<State>, steps: seq<Step>,
                         i: nat)
    requires |states| == |steps| + 1 && i < |steps| && Consistent(lib, states[i].now.db)
  {
    Next(lib, decode, blob, states[i], steps[i], states[i + 1])
  }

  /** A run: states and the steps between them. */
  ghost predicate Run(lib: Lib, decode: Decoder, blob: string -> string, states: seq<State>, steps: seq<Step>) {
    && |states| == |steps| + 1
    && (forall i :: 0 <= i < |states| ==> Consistent(lib, states[i].now.db))
    && (forall i :: 0 <= i < |steps| ==> StepAt(lib, decode, blob, states, steps, i))
  }

  /** A server just started on an instance that never took a file from GitHub. */
  ghost predicate Fresh(lib: Lib, s: State) {
    Consistent(lib, s.now.db) && s == Started(s.now, s.enabled) && s.now.sha == ""
  }

  function Started(now: Instance, enabled: bool): State {
    State(now, false, enabled, enabled, map[], map[], 0)
  }

  lemma RunStepKeepsInv(lib: Lib, decode: Decoder, blob: string -> string, states: seq<State>, steps: seq<Step>, n: nat)
    requires Run(lib, decode, blob, states, steps) && 0 < n < |states|
    requires Inv(lib, decode, blob, states[n - 1]) && Apart(states[n - 1], steps[n - 1])
    ensures Inv(lib, decode, blob, states[n])
  {
    var i := n - 1;
    assert StepAt(lib, decode, blob, states, steps, i);
    StepKeepsInv(lib, decode, blob, states[i], steps[i], states[i + 1]);
  }

  /** In every state of a run whose settings changes keep apart from deliveries
      and admin edits: between settings saves the flag is what the database says,
      and a non-empty SHA names the file whose clean apply the entity tables are. */
  lemma {:induction false} ShaConsistent(lib: Lib, decode: Decoder, blob: string -> string, states: seq<State>,
                                         steps: seq<Step>, n: nat)
    requires Run(lib, decode, blob, states, steps) && Fresh(lib, states[0])
    requires forall i :: 0 <= i < |steps| ==> Apart(states[i], steps[i])
    requires n < |states|
    ensures Inv(lib, decode, blob, states[n])
    ensures states[n].pending == map[] ==> states[n].gate == states[n].enabled
    ensures states[n].now.sha != "" ==> ResultOf(lib, decode, blob(states[n].now.sha), states[n].now.db)
  {
    if n > 0 {
      ShaConsistent(lib, decode, blob, states, steps, n - 1);
      RunStepKeepsInv(lib, decode, blob, states, steps, n);
    }
  }

  lemma ViaRefused(lib: Lib, cfg: Config, order: seq<string>, db: Store, msgs: set<Msg>, sha: string, content: string,
                   a: Instance, b: Instance)
    requires Consistent(lib, a.db) && WriteVia(lib, cfg, order, db, msgs, sha, content, a, b)
    ensures b.errors == Accepted || (b.db == a.db && b.sha == a.sha)
  {
  }

  /** A delivery whose file draws messages, or does not decode, leaves the store
      and the SHA exactly as before, so a corrected push is not skipped. */
  lemma RefusedLeavesAll(lib: Lib, decode: Decoder, stale: string, sha: string, content: string, a: Instance,
                         b: Instance)
    requires Consistent(lib, a.db) && WriteHalf(lib, decode, stale, sha, content, a, b) && b.errors != Accepted
    ensures b.db == a.db && b.sha == a.sha
  {
    if sha != stale && decode(content).Parsed? {
      var order, db, msgs :| WriteVia(lib, decode(content).cfg, order, db, msgs, sha, content, a, b);
      ViaRefused(lib, decode(content).cfg, order, db, msgs, sha, content, a, b);
    }
  }
}
