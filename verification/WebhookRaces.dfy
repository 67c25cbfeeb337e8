/** Runs of the server in which one thing overlaps another and the recorded SHA
    becomes a lie: none of the conditions for its consistency can be dropped. */
module WebhookRaces {
  import opened Prelude
  import opened SlugGrammar
  import opened Tables
  import opened Store
  import opened Config
  import opened Acceptance
  import opened Rename
  import opened Apply
  import opened Convergence
  import opened Counterexamples
  import opened Runs
  import opened Webhook

  ghost predicate Lie(lib: Lib, decode: Decoder, blob: string -> string, s: State) {
    s.now.sha != "" && !ResultOf(lib, decode, blob(s.now.sha), s.now.db)
  }

  // ---- what the runs are made of ----

  /** Some run of the file on the store reports nothing. */
  ghost predicate Accepts(lib: Lib, cfg: Config, db: Store)
    requires Consistent(lib, db)
  {
    exists order, db' :: RunVia(lib, cfg, order, db, db', {})
  }

  lemma SomeAccepted(lib: Lib, decode: Decoder, sha: string, content: string, a: Instance) returns (after: Instance)
    requires Consistent(lib, a.db) && sha != "" && decode(content).Parsed? && Accepts(lib, decode(content).cfg, a.db)
    ensures WriteHalf(lib, decode, "", sha, content, a, after)
    ensures after.sha == sha && Consistent(lib, after.db) && ResultOf(lib, decode, content, after.db)
  {
    var cfg := decode(content).cfg;
    var order, db :| RunVia(lib, cfg, order, a.db, db, {});
    after := Instance(db, sha, content, Accepted);
    assert WriteVia(lib, cfg, order, db, {}, sha, content, a, after);
    assert ResultVia(lib, cfg, order, a.db, db, after.db);
  }

  /** A clean file without renames is accepted by every instance. */
  lemma CleanAccepted(lib: Lib, cfg: Config, db: Store)
    requires Consistent(lib, db) && CleanConfig(lib, cfg) && cfg.rename == map[]
    ensures Accepts(lib, cfg, db)
  {
    var order, db', msgs := SomeRun(lib, cfg, db);
    NothingToRename(lib, cfg, db, order);
    Verdict(lib, cfg, order, db, db', msgs);
  }

  /** The services a clean apply leaves are those of the file. */
  lemma ResultSlugs(lib: Lib, decode: Decoder, content: string, db: Store)
    requires ResultOf(lib, decode, content, db)
    ensures decode(content).Parsed? && Slugs(db.services) == decode(content).cfg.services.Keys
  {
    var cfg := decode(content).cfg;
    var order, db0, db1 :| ResultVia(lib, cfg, order, db0, db1, db);
    Verdict(lib, cfg, order, db0, db1, {});
    FoldKeeps(lib, cfg, db0, order);
    AppliedKeys(lib, cfg, Fold(lib, cfg, db0, order).0, db1);
    assert Entities(db).services == Entities(db1).services;
  }

  /** One admin edit: a service is deleted or, when there is none, one is created
      under the slug of its name. */
  ghost predicate OneEdit(lib: Lib, db: Store, edited: Store) {
    || (exists i :: i in db.services && edited == DeleteService(db, i))
    || (db.services == map[] && exists f :: edited == db.(services := map[Id(1) := Named(lib, f)]))
  }

  function Named(lib: Lib, f: Service): Row<Service> {
    Row(Candidate(lib, f.name, 0), f)
  }

  lemma EditedServices(lib: Lib, db: Store) returns (edited: Store)
    requires Consistent(lib, db)
    ensures Consistent(lib, edited) && OneEdit(lib, db, edited) && Slugs(edited.services) != Slugs(db.services)
  {
    if i :| i in db.services {
      edited := DeleteService(db, i);
      assert db.services[i].slug in Slugs(db.services);
      assert db.services[i].slug !in Slugs(edited.services);
    } else {
      assert db.services == map[];
      edited := db.(services := map[Id(1) := Named(lib, Service("n", ""))]);
      assert edited.services[Id(1)].slug in Slugs(edited.services);
    }
  }

  /** After a clean apply some admin edit makes its SHA a lie. */
  lemma SomeLie(lib: Lib, decode: Decoder, content: string, db: Store) returns (edited: Store)
    requires Consistent(lib, db) && ResultOf(lib, decode, content, db)
    ensures Consistent(lib, edited) && OneEdit(lib, db, edited) && !ResultOf(lib, decode, content, edited)
  {
    edited := EditedServices(lib, db);
    ResultSlugs(lib, decode, content, db);
    if ResultOf(lib, decode, content, edited) {
      ResultSlugs(lib, decode, content, edited);
    }
  }

  // ---- runs that break one rule once ----

  /** The step breaks `rule` if it is the bad one, and no other rule. */
  ghost predicate BreaksAt(rule: Rule, bad: bool, s: State, step: Step) {
    forall r :: Keeps(r, s, step) <==> !(bad && r == rule)
  }

  ghost predicate BreaksOnce(states: seq<State>, steps: seq<Step>, rule: Rule, k: nat)
    requires |states| == |steps| + 1
  {
    forall i :: 0 <= i < |steps| ==> BreaksAt(rule, i == k, states[i], steps[i])
  }

  /** A run from `a` to `b` that breaks `rule` at step `k` and no rule otherwise. */
  ghost predicate Reaches(lib: Lib, decode: Decoder, blob: string -> string, rule: Rule, k: nat,
                          states: seq<State>, steps: seq<Step>, a: State, b: State) {
    && Run(lib, decode, blob, states, steps) && states[0] == a && states[|states| - 1] == b
    && BreaksOnce(states, steps, rule, k)
  }

  lemma Stay(lib: Lib, decode: Decoder, blob: string -> string, rule: Rule, k: nat, a: State)
    requires Consistent(lib, a.now.db)
    ensures Reaches(lib, decode, blob, rule, k, [a], [], a, a)
  {
  }

  lemma StepStays(lib: Lib, decode: Decoder, blob: string -> string, states: seq<State>, steps: seq<Step>, step: Step,
                  c: State, i: nat)
    requires Run(lib, decode, blob, states, steps) && i < |steps|
    ensures (states + [c])[i] == states[i] && (steps + [step])[i] == steps[i]
    ensures StepAt(lib, decode, blob, states + [c], steps + [step], i)
  {
    assert (states + [c])[i + 1] == states[i + 1];
    assert StepAt(lib, decode, blob, states, steps, i);
  }

  lemma StepAdded(lib: Lib, decode: Decoder, blob: string -> string, states: seq<State>, steps: seq<Step>, step: Step,
                  c: State)
    requires |states| == |steps| + 1 && Consistent(lib, states[|steps|].now.db)
    requires Next(lib, decode, blob, states[|steps|], step, c)
    ensures (states + [c])[|steps|] == states[|steps|]
    ensures StepAt(lib, decode, blob, states + [c], steps + [step], |steps|)
  {
    assert (states + [c])[|steps| + 1] == c && (steps + [step])[|steps|] == step;
  }

  lemma RunGrows(lib: Lib, decode: Decoder, blob: string -> string, states: seq<State>, steps: seq<Step>, step: Step,
                 c: State)
    requires Run(lib, decode, blob, states, steps) && Consistent(lib, c.now.db)
    requires Next(lib, decode, blob, states[|steps|], step, c)
    ensures Run(lib, decode, blob, states + [c], steps + [step])
  {
    StepAdded(lib, decode, blob, states, steps, step, c);
    forall i | 0 <= i < |steps| ensures StepAt(lib, decode, blob, states + [c], steps + [step], i) {
      StepStays(lib, decode, blob, states, steps, step, c, i);
    }
  }

  lemma BreaksGrows(states: seq<State>, steps: seq<Step>, rule: Rule, k: nat, step: Step, c: State)
    requires |states| == |steps| + 1 && BreaksOnce(states, steps, rule, k)
    requires BreaksAt(rule, |steps| == k, states[|steps|], step)
    ensures BreaksOnce(states + [c], steps + [step], rule, k)
  {
    forall i | 0 <= i < |steps| + 1 ensures BreaksAt(rule, i == k, (states + [c])[i], (steps + [step])[i]) {
      assert i < |steps| ==> BreaksAt(rule, i == k, states[i], steps[i]);
    }
  }

  lemma Go(lib: Lib, decode: Decoder, blob: string -> string, rule: Rule, k: nat,
           states0: seq<State>, steps0: seq<Step>, a: State, b: State, step: Step, c: State)
    returns (states: seq<State>, steps: seq<Step>)
    requires Reaches(lib, decode, blob, rule, k, states0, steps0, a, b)
    requires Next(lib, decode, blob, b, step, c) && Consistent(lib, c.now.db)
    requires BreaksAt(rule, |steps0| == k, b, step)
    ensures Reaches(lib, decode, blob, rule, k, states, steps, a, c) && |steps| == |steps0| + 1
  {
    states, steps := states0 + [c], steps0 + [step];
    RunGrows(lib, decode, blob, states0, steps0, step, c);
    BreaksGrows(states0, steps0, rule, k, step, c);
  }

  const ONE := Id(1)
  const TWO := Id(2)

  /** The server while delivery ONE, which read no SHA, is in flight. */
  predicate InFlight(s: State) {
    s.deliveries == map[ONE := ""]
  }

  lemma DeliveryEnds(lib: Lib, decode: Decoder, blob: string -> string, sha: string, after: Instance, b: State)
    requires Consistent(lib, b.now.db) && InFlight(b) && WriteHalf(lib, decode, "", sha, blob(sha), b.now, after)
    ensures Next(lib, decode, blob, b, EndDelivery(ONE, sha), b.(now := after, deliveries := map[]))
  {
    assert b.deliveries[ONE] == "" && b.deliveries - {ONE} == map[];
  }

  lemma Delivered(lib: Lib, decode: Decoder, blob: string -> string, rule: Rule, k: nat, sha: string, after: Instance,
                  states0: seq<State>, steps0: seq<Step>, a: State, b: State)
    returns (states: seq<State>, steps: seq<Step>)
    requires Reaches(lib, decode, blob, rule, k, states0, steps0, a, b) && |steps0| > k && InFlight(b)
    requires Consistent(lib, b.now.db) && Consistent(lib, after.db)
    requires WriteHalf(lib, decode, "", sha, blob(sha), b.now, after)
    ensures Reaches(lib, decode, blob, rule, k, states, steps, a, b.(now := after, deliveries := map[]))
    ensures |steps| == |steps0| + 1
  {
    DeliveryEnds(lib, decode, blob, sha, after, b);
    states, steps := Go(lib, decode, blob, rule, k, states0, steps0, a, b, EndDelivery(ONE, sha),
                        b.(now := after, deliveries := map[]));
  }

  /** Some admin edit can still commit. */
  predicate EditPossible(s: State) {
    !s.gate || s.edits > 0
  }

  /** An admin edit that is in flight, or else one that passes the open gate. */
  lemma Edited(lib: Lib, decode: Decoder, blob: string -> string, rule: Rule, k: nat, edited: Store,
               states0: seq<State>, steps0: seq<Step>, a: State, b: State)
    returns (states: seq<State>, steps: seq<Step>, c: State)
    requires Reaches(lib, decode, blob, rule, k, states0, steps0, a, b) && |steps0| > k && EditPossible(b)
    requires Consistent(lib, b.now.db) && Consistent(lib, edited)
    ensures Reaches(lib, decode, blob, rule, k, states, steps, a, c) && |steps| > k
    ensures c.now == b.now.(db := edited)
  {
    states, steps, c := states0, steps0, b;
    if b.edits == 0 {
      c := b.(edits := 1);
      states, steps := Go(lib, decode, blob, rule, k, states0, steps0, a, b, BeginEdit, c);
    }
    var d := c.(edits := c.edits - 1, now := b.now.(db := edited));
    states, steps := Go(lib, decode, blob, rule, k, states, steps, a, c, EndEdit, d);
    c := d;
  }

  // ---- the parts of the runs before the delivery is applied ----

  /** A delivery begins after the settings are committed and before the flag is
      stored. */
  lemma BeginsEarly(lib: Lib, decode: Decoder, blob: string -> string, a: Instance)
    returns (states: seq<State>, steps: seq<Step>)
    requires Consistent(lib, a.db) && a.sha == ""
    ensures Reaches(lib, decode, blob, DeliveryAfterFlag, 1, states, steps, Started(a, false),
                    State(a, true, true, false, map[ONE := true], map[ONE := ""], 0))
    ensures |steps| == 2
  {
    var rule, s0 := DeliveryAfterFlag, Started(a, false);
    var s1 := State(a, true, true, false, map[ONE := true], map[], 0);
    var s2 := s1.(deliveries := map[ONE := ""]);
    Stay(lib, decode, blob, rule, 1, s0);
    states, steps := Go(lib, decode, blob, rule, 1, [s0], [], s0, s0, CommitSettings(ONE, true, true), s1);
    states, steps := Go(lib, decode, blob, rule, 1, states, steps, s0, s1, BeginDelivery(ONE), s2);
  }

  /** A delivery begins, and management and the config file are switched off before
      it ends. */
  lemma SwitchedOff(lib: Lib, decode: Decoder, blob: string -> string, a: Instance)
    returns (states: seq<State>, steps: seq<Step>)
    requires Consistent(lib, a.db) && a.sha == ""
    ensures Reaches(lib, decode, blob, SettingsAfterDelivery, 3, states, steps, Started(a, false),
                    State(a, false, false, false, map[], map[ONE := ""], 0))
    ensures |steps| == 5
  {
    var rule, s0 := SettingsAfterDelivery, Started(a, false);
    var s1 := State(a, true, true, false, map[ONE := true], map[], 0);
    var s2 := State(a, true, true, true, map[], map[], 0);
    var s3 := State(a, true, true, true, map[], map[ONE := ""], 0);
    var s4 := State(a, false, false, true, map[ONE := false], map[ONE := ""], 0);
    assert s1.pending - {ONE} == map[] && s4.pending - {ONE} == map[];
    Stay(lib, decode, blob, rule, 3, s0);
    states, steps := Go(lib, decode, blob, rule, 3, [s0], [], s0, s0, CommitSettings(ONE, true, true), s1);
    states, steps := Go(lib, decode, blob, rule, 3, states, steps, s0, s1, StoreFlag(ONE), s2);
    states, steps := Go(lib, decode, blob, rule, 3, states, steps, s0, s2, BeginDelivery(ONE), s3);
    states, steps := Go(lib, decode, blob, rule, 3, states, steps, s0, s3, CommitSettings(ONE, false, false), s4);
    states, steps := Go(lib, decode, blob, rule, 3, states, steps, s0, s4, StoreFlag(ONE),
                        s4.(gate := false, pending := map[]));
  }

  /** An edit passes the gate, the gate closes, and a delivery begins. */
  lemma LateEdit(lib: Lib, decode: Decoder, blob: string -> string, a: Instance)
    returns (states: seq<State>, steps: seq<Step>)
    requires Consistent(lib, a.db) && a.sha == ""
    ensures Reaches(lib, decode, blob, EditBeforeGate, 2, states, steps, Started(a, false),
                    State(a, true, true, true, map[], map[ONE := ""], 1))
    ensures |steps| == 4
  {
    var rule, s0 := EditBeforeGate, Started(a, false);
    var s1 := State(a, false, false, false, map[], map[], 1);
    var s2 := State(a, true, true, false, map[ONE := true], map[], 1);
    var s3 := State(a, true, true, true, map[], map[], 1);
    assert s2.pending - {ONE} == map[];
    Stay(lib, decode, blob, rule, 2, s0);
    states, steps := Go(lib, decode, blob, rule, 2, [s0], [], s0, s0, BeginEdit, s1);
    states, steps := Go(lib, decode, blob, rule, 2, states, steps, s0, s1, CommitSettings(ONE, true, true), s2);
    states, steps := Go(lib, decode, blob, rule, 2, states, steps, s0, s2, StoreFlag(ONE), s3);
    states, steps := Go(lib, decode, blob, rule, 2, states, steps, s0, s3, BeginDelivery(ONE),
                        s3.(deliveries := map[ONE := ""]));
  }

  /** Two saves, the first all off and the second all on, commit in this order and
      store their flags in the other; a delivery begins afterwards. The instance is
      managed and the gate is open. */
  lemma FlagsCross(lib: Lib, decode: Decoder, blob: string -> string, a: Instance)
    returns (states: seq<State>, steps: seq<Step>)
    requires Consistent(lib, a.db) && a.sha == ""
    ensures Reaches(lib, decode, blob, OneSave, 1, states, steps, Started(a, false),
                    State(a, true, true, false, map[], map[ONE := ""], 0))
    ensures |steps| == 5
  {
    var rule, s0 := OneSave, Started(a, false);
    var s1 := State(a, false, false, false, map[ONE := false], map[], 0);
    var s2 := State(a, true, true, false, map[ONE := false, TWO := true], map[], 0);
    var s3 := State(a, true, true, true, map[ONE := false], map[], 0);
    var s4 := State(a, true, true, false, map[], map[], 0);
    assert s2.pending - {TWO} == s3.pending && s3.pending - {ONE} == map[];
    Stay(lib, decode, blob, rule, 1, s0);
    states, steps := Go(lib, decode, blob, rule, 1, [s0], [], s0, s0, CommitSettings(ONE, false, false), s1);
    states, steps := Go(lib, decode, blob, rule, 1, states, steps, s0, s1, CommitSettings(TWO, true, true), s2);
    states, steps := Go(lib, decode, blob, rule, 1, states, steps, s0, s2, StoreFlag(TWO), s3);
    states, steps := Go(lib, decode, blob, rule, 1, states, steps, s0, s3, StoreFlag(ONE), s4);
    states, steps := Go(lib, decode, blob, rule, 1, states, steps, s0, s4, BeginDelivery(ONE),
                        s4.(deliveries := map[ONE := ""]));
  }

  // ---- each rule is needed ----

  /** A run of a fresh server that breaks one rule in one step, keeps all rules
      otherwise, and ends with a SHA that is a lie. */
  ghost predicate Breaks(lib: Lib, decode: Decoder, blob: string -> string, rule: Rule,
                         states: seq<State>, steps: seq<Step>) {
    && Run(lib, decode, blob, states, steps) && Fresh(lib, states[0])
    && Lie(lib, decode, blob, states[|states| - 1])
    && exists k: nat :: k < |steps| && BreaksOnce(states, steps, rule, k)
  }

  /** An instance and a file that it accepts. */
  ghost predicate Raceable(lib: Lib, decode: Decoder, blob: string -> string, sha: string, a: Instance) {
    && Consistent(lib, a.db) && a.sha == "" && sha != ""
    && decode(blob(sha)).Parsed? && Accepts(lib, decode(blob(sha)).cfg, a.db)
  }

  /** The delivery is applied and the edit commits after it. */
  lemma DeliveredAndEdited(lib: Lib, decode: Decoder, blob: string -> string, rule: Rule, k: nat, sha: string,
                           after: Instance, edited: Store, states0: seq<State>, steps0: seq<Step>, a: State, b: State)
    returns (states: seq<State>, steps: seq<Step>, c: State)
    requires Reaches(lib, decode, blob, rule, k, states0, steps0, a, b) && |steps0| > k
    requires InFlight(b) && EditPossible(b) && Consistent(lib, b.now.db)
    requires WriteHalf(lib, decode, "", sha, blob(sha), b.now, after)
    requires Consistent(lib, after.db) && Consistent(lib, edited)
    ensures Reaches(lib, decode, blob, rule, k, states, steps, a, c) && |steps| > k && c.now == after.(db := edited)
  {
    states, steps := Delivered(lib, decode, blob, rule, k, sha, after, states0, steps0, a, b);
    states, steps, c := Edited(lib, decode, blob, rule, k, edited, states, steps, a,
                               b.(now := after, deliveries := map[]));
  }

  /** A run of the part above, to the point where the delivery is in flight. */
  lemma Prepared(lib: Lib, decode: Decoder, blob: string -> string, rule: Rule, a: Instance)
    returns (k: nat, states: seq<State>, steps: seq<Step>, b: State)
    requires Consistent(lib, a.db) && a.sha == ""
    ensures Reaches(lib, decode, blob, rule, k, states, steps, Started(a, false), b) && |steps| > k
    ensures b.now == a && InFlight(b) && EditPossible(b)
  {
    match rule
    case DeliveryAfterFlag =>
      states, steps := BeginsEarly(lib, decode, blob, a);
      k, b := 1, states[|states| - 1];
    case SettingsAfterDelivery =>
      states, steps := SwitchedOff(lib, decode, blob, a);
      k, b := 3, states[|states| - 1];
    case EditBeforeGate =>
      states, steps := LateEdit(lib, decode, blob, a);
      k, b := 2, states[|states| - 1];
    case OneSave =>
      states, steps := FlagsCross(lib, decode, blob, a);
      k, b := 1, states[|states| - 1];
  }

  /** No rule can be dropped: whatever the instance and the file it accepts, some
      run breaks this rule in one step, keeps every rule otherwise, and ends with a
      SHA that is a lie. */
  lemma EachRuleMatters(lib: Lib, decode: Decoder, blob: string -> string, rule: Rule, sha: string, a: Instance)
    returns (states: seq<State>, steps: seq<Step>)
    requires Raceable(lib, decode, blob, sha, a)
    ensures Breaks(lib, decode, blob, rule, states, steps)
  {
    var after := SomeAccepted(lib, decode, sha, blob(sha), a);
    var edited := SomeLie(lib, decode, blob(sha), after.db);
    var k, states0, steps0, b := Prepared(lib, decode, blob, rule, a);
    var c;
    states, steps, c := DeliveredAndEdited(lib, decode, blob, rule, k, sha, after, edited, states0, steps0,
                                           Started(a, false), b);
    assert k < |steps| && BreaksOnce(states, steps, rule, k);
  }

  /** A clean file without renames, which every instance accepts. */
  ghost predicate CleanCase(lib: Lib, decode: Decoder, blob: string -> string, sha: string, a: Instance) {
    && Consistent(lib, a.db) && a.sha == "" && sha != ""
    && decode(blob(sha)).Parsed?
    && CleanConfig(lib, decode(blob(sha)).cfg) && decode(blob(sha)).cfg.rename == map[]
  }

  /** So every rule matters on every instance. */
  lemma CleanFileBreaks(lib: Lib, decode: Decoder, blob: string -> string, rule: Rule, sha: string, a: Instance)
    returns (states: seq<State>, steps: seq<Step>)
    requires CleanCase(lib, decode, blob, sha, a)
    ensures Breaks(lib, decode, blob, rule, states, steps)
  {
    CleanAccepted(lib, decode(blob(sha)).cfg, a.db);
    states, steps := EachRuleMatters(lib, decode, blob, rule, sha, a);
  }

  function SlackDecoder(): Decoder {
    content => Parsed(SlackFile())
  }

  function SlackStart(): Instance {
    Instance(SmtpInstance(), "", "", Accepted)
  }

  function Verbatim(): string -> string {
    sha => sha
  }

  /** Such a file and instance: the Slack file of Counterexamples, on the instance
      that has one SMTP channel. */
  lemma SlackFileCase()
    ensures CleanCase(PlainLib(), SlackDecoder(), Verbatim(), "1", SlackStart())
  {
    SlackFileOnSmtp();
  }
}
