/** Checks of many monitors over the two log tables, with monitors created and
    deleted and logs pruned between them: what the alert rule announces along a
    whole history. */
module CheckHistory {
  import opened Prelude
  import opened Tables
  import opened Checks

  /** A row of monitor_log; `of` is the serial of the monitor that was checked. */
  datatype Entry = Entry(monitor: Id, of: nat, log: Log)

  /** The ids of the table monitor, monitor_log, and monitor_log_last_checked by
      monitor. SQLite reuses ids, so each monitor has a serial as well: the number
      of monitors created before it. */
  datatype CheckTables = CheckTables(monitors: map<Id, nat>, created: nat, logs: map<Id, Entry>, last: map<Id, Id>)

  /** What a check meets: `outcomes` has one entry for each allowed attempt. */
  datatype Probe = Probe(built: bool, outcomes: seq<Outcome>)

  function LogOf(p: Probe): Log {
    Logged(p.built, |p.outcomes|, p.outcomes)
  }

  predicate ZeroEnd(p: Probe) {
    EndsOnZero(p.built, |p.outcomes|, p.outcomes)
  }

  /** getMonitorLogLastChecked: no reference, or one without its log, reads as no
      previous check at all. */
  function Previous(t: CheckTables, monitor: Id): Option<Log> {
    if monitor in t.last && t.last[monitor] in t.logs then Some(t.logs[t.last[monitor]].log) else None
  }

  datatype Step =
    | Create(monitor: Id)
    | Delete(monitor: Id)
    | Commit(monitor: Id, of: nat, id: Id, probe: Probe)
    | Prune(ids: set<Id>)
    | Other

  function Orphans(last: map<Id, Id>, ids: set<Id>): set<Id> {
    set m | m in last && last[m] in ids
  }

  function LogsOf(logs: map<Id, Entry>, monitor: Id): set<Id> {
    set i | i in logs && logs[i].monitor == monitor
  }

  /** Delete logs, with the cascade to the references. */
  function WithoutLogs(t: CheckTables, ids: set<Id>): CheckTables {
    t.(logs := t.logs - ids, last := t.last - Orphans(t.last, ids))
  }

  function Created(t: CheckTables, monitor: Id): CheckTables {
    t.(monitors := t.monitors[monitor := t.created], created := t.created + 1)
  }

  /** Delete a monitor, with the cascade to its logs and its reference. */
  function Deleted(t: CheckTables, monitor: Id): CheckTables {
    var cut := WithoutLogs(t, LogsOf(t.logs, monitor));
    cut.(monitors := t.monitors - {monitor}, last := cut.last - {monitor})
  }

  function Checked(t: CheckTables, monitor: Id, of: nat, id: Id, probe: Probe): CheckTables {
    t.(logs := t.logs[id := Entry(monitor, of, LogOf(probe))], last := t.last[monitor := id])
  }

  /** A new monitor gets an id above all in use. A check can commit whenever its id
      is that of some monitor. */
  ghost predicate Next(s: CheckTables, step: Step, t: CheckTables) {
    match step
    case Create(m) => (forall k :: k in s.monitors ==> k.n < m.n) && t == Created(s, m)
    case Delete(m) => m in s.monitors && t == Deleted(s, m)
    case Commit(m, of, id, probe) => m in s.monitors && id !in s.logs && t == Checked(s, m, of, id, probe)
    case Prune(ids) => t == WithoutLogs(s, ids)
    case Other => t == s
  }

  /** The foreign keys, and what serials are. */
  ghost predicate Valid(t: CheckTables) {
    && (forall m :: m in t.last ==> m in t.monitors && t.last[m] in t.logs)
    && (forall i :: i in t.logs ==> t.logs[i].monitor in t.monitors)
    && (forall m :: m in t.monitors ==> t.monitors[m] < t.created)
    && (forall m, k :: m in t.monitors && k in t.monitors && t.monitors[m] == t.monitors[k] ==> m == k)
  }

  lemma StepKeepsValid(s: CheckTables, step: Step, t: CheckTables)
    requires Valid(s) && Next(s, step, t)
    ensures Valid(t)
  {
  }

  class CheckStore {
    var now: CheckTables

    /** The goroutine of one check, started for the monitor with serial `of`: probe,
        then in one transaction insert the log, read the previous check and make
        this one the last. Without the monitor the insert fails, and the check ends
        without a trace. */
    method RunCheck(monitor: Id, of: nat, probe: Probe) returns (decision: Option<Status>, id: Option<Id>)
      requires Valid(now)
      modifies this
      ensures Valid(now) && (id.Some? <==> monitor in old(now).monitors)
      ensures id.Some? ==> Next(old(now), Commit(monitor, of, id.value, probe), now)
      ensures id.Some? ==> decision == Decide(Previous(old(now), monitor), LogOf(probe))
      ensures id.None? ==> decision == None && now == old(now)
    {
      var log, requests := Checks.Check(probe.built, |probe.outcomes|, probe.outcomes);
      if monitor !in now.monitors {
        return None, None;
      }
      var row := NextRowId(now.logs.Keys);
      ghost var before := now;
      now := now.(logs := now.logs[row := Entry(monitor, of, log)]);
      var previous := Previous(now, monitor);
      now := now.(last := now.last[monitor := row]);
      decision, id := Decide(previous, log), Some(row);
      StepKeepsValid(before, Commit(monitor, of, row, probe), now);
    }

    /** A batch of PruneMonitorLogs, with its cascade. */
    method PruneLogs(ids: set<Id>)
      requires Valid(now)
      modifies this
      ensures Valid(now) && Next(old(now), Prune(ids), now)
    {
      ghost var before := now;
      now := WithoutLogs(now, ids);
      StepKeepsValid(before, Prune(ids), now);
    }

    method CreateMonitor() returns (monitor: Id)
      requires Valid(now)
      modifies this
      ensures Valid(now) && Next(old(now), Create(monitor), now)
    {
      ghost var before := now;
      monitor := NextRowId(now.monitors.Keys);
      now := Created(now, monitor);
      StepKeepsValid(before, Create(monitor), now);
    }

    method DeleteMonitor(monitor: Id)
      requires Valid(now)
      modifies this
      ensures Valid(now)
      ensures if monitor in old(now).monitors then Next(old(now), Delete(monitor), now) else now == old(now)
    {
      if monitor in now.monitors {
        ghost var before := now;
        now := Deleted(now, monitor);
        StepKeepsValid(before, Delete(monitor), now);
      }
    }
  }

  // ---- histories ----

  function Empty(): CheckTables {
    CheckTables(map[], 0, map[], map[])
  }

  ghost predicate StepAt(states: seq<CheckTables>, steps: seq<Step>, i: nat)
    requires |states| == |steps| + 1 && i < |steps|
  {
    Next(states[i], steps[i], states[i + 1])
  }

  ghost predicate Run(states: seq<CheckTables>, steps: seq<Step>) {
    && |states| == |steps| + 1 && states[0] == Empty()
    && forall i :: 0 <= i < |steps| ==> StepAt(states, steps, i)
  }

  predicate IsCheck(step: Step, m: Id) {
    step.Commit? && step.monitor == m
  }

  /** The last check that committed under the id `m` before step `n`. */
  function LastCommit(steps: seq<Step>, n: nat, m: Id): (r: Option<nat>)
    requires n <= |steps|
    ensures r.Some? ==> r.value < n && IsCheck(steps[r.value], m)
    ensures forall l :: (if r.Some? then r.value + 1 else 0) <= l < n ==> !IsCheck(steps[l], m)
  {
    if n == 0 then None
    else if IsCheck(steps[n - 1], m) then Some(n - 1)
    else LastCommit(steps, n - 1, m)
  }

  /** The last one since the monitor that has this id was created. */
  function LastOwn(steps: seq<Step>, n: nat, m: Id): (r: Option<nat>)
    requires n <= |steps|
    ensures r.Some? ==> r.value < n && IsCheck(steps[r.value], m)
  {
    if n == 0 || steps[n - 1] == Delete(m) then None
    else if IsCheck(steps[n - 1], m) then Some(n - 1)
    else LastOwn(steps, n - 1, m)
  }

  /** The log of check `i` was pruned before step `n`. */
  ghost predicate Pruned(steps: seq<Step>, i: nat, n: nat)
    requires i < n <= |steps| && steps[i].Commit?
  {
    exists l :: i < l < n && steps[l].Prune? && steps[i].id in steps[l].ids
  }

  /** The reference of a monitor is the last check under its id since its creation,
      until that log is pruned. */
  ghost predicate Tracked(t: CheckTables, steps: seq<Step>, n: nat, m: Id)
    requires n <= |steps|
  {
    match LastOwn(steps, n, m)
    case None => m !in t.last
    case Some(i) =>
      if Pruned(steps, i, n) then m !in t.last
      else m in t.last && t.last[m] == steps[i].id && steps[i].id in t.logs
           && t.logs[steps[i].id] == Entry(m, steps[i].of, LogOf(steps[i].probe))
  }

  lemma {:induction false} RunTracked(states: seq<CheckTables>, steps: seq<Step>, n: nat, m: Id)
    requires Run(states, steps) && n <= |steps|
    ensures Tracked(states[n], steps, n, m)
  {
    if n > 0 {
      RunTracked(states, steps, n - 1, m);
      assert StepAt(states, steps, n - 1);
      TrackedStep(states[n - 1], states[n], steps, n, m);
    }
  }

  lemma TrackedStep(s: CheckTables, t: CheckTables, steps: seq<Step>, n: nat, m: Id)
    requires 0 < n <= |steps| && Tracked(s, steps, n - 1, m) && Next(s, steps[n - 1], t)
    ensures Tracked(t, steps, n, m)
  {
    var before := LastOwn(steps, n - 1, m);
    if !IsCheck(steps[n - 1], m) && before.Some? {
      var i := before.value;
      assert Pruned(steps, i, n) <==>
             Pruned(steps, i, n - 1) || (steps[n - 1].Prune? && steps[i].id in steps[n - 1].ids);
    }
  }

  // ---- which monitors and logs there are ----

  /** The last creation or deletion under the id `m` before step `n`. */
  function LastChange(steps: seq<Step>, n: nat, m: Id): (r: Option<nat>)
    requires n <= |steps|
    ensures r.Some? ==> r.value < n && (steps[r.value] == Create(m) || steps[r.value] == Delete(m))
    ensures forall l :: (if r.Some? then r.value + 1 else 0) <= l < n ==> steps[l] != Create(m) && steps[l] != Delete(m)
  {
    if n == 0 then None
    else if steps[n - 1] == Create(m) || steps[n - 1] == Delete(m) then Some(n - 1)
    else LastChange(steps, n - 1, m)
  }

  /** A monitor is there exactly if it was created and not deleted since. */
  lemma {:induction false} MonitorThere(states: seq<CheckTables>, steps: seq<Step>, n: nat, m: Id)
    requires Run(states, steps) && n <= |steps|
    ensures m in states[n].monitors <==>
            LastChange(steps, n, m).Some? && steps[LastChange(steps, n, m).value] == Create(m)
  {
    if n > 0 {
      MonitorThere(states, steps, n - 1, m);
      assert StepAt(states, steps, n - 1);
    }
  }

  /** The log that step `i` wrote is gone before step `n`. */
  ghost predicate LogGone(steps: seq<Step>, i: nat, n: nat)
    requires i < n <= |steps| && steps[i].Commit?
  {
    Pruned(steps, i, n) || exists l :: i < l < n && steps[l] == Delete(steps[i].monitor)
  }

  /** Every log stays as it was written, until it is pruned or its monitor is
      deleted. */
  lemma {:induction false} LogStays(states: seq<CheckTables>, steps: seq<Step>, i: nat, n: nat)
    requires Run(states, steps) && i < n <= |steps| && steps[i].Commit?
    ensures !LogGone(steps, i, n) ==>
              && steps[i].id in states[n].logs
              && states[n].logs[steps[i].id] == Entry(steps[i].monitor, steps[i].of, LogOf(steps[i].probe))
  {
    assert StepAt(states, steps, n - 1);
    if n > i + 1 && !LogGone(steps, i, n) {
      assert !LogGone(steps, i, n - 1);
      LogStays(states, steps, i, n - 1);
    }
  }

  /** And every log there is was written by a check that is not gone. */
  lemma {:induction false} LogWritten(states: seq<CheckTables>, steps: seq<Step>, n: nat, id: Id) returns (i: nat)
    requires Run(states, steps) && n <= |steps| && id in states[n].logs
    ensures i < n && steps[i].Commit? && steps[i].id == id && !LogGone(steps, i, n)
    ensures states[n].logs[id] == Entry(steps[i].monitor, steps[i].of, LogOf(steps[i].probe))
  {
    assert n > 0;
    assert StepAt(states, steps, n - 1);
    if steps[n - 1].Commit? && steps[n - 1].id == id {
      i := n - 1;
    } else {
      i := LogWritten(states, steps, n - 1, id);
      if steps[n - 1] == Delete(steps[i].monitor) {
        assert states[n - 1].logs[id].monitor == steps[i].monitor;
      }
    }
  }

  // ---- decisions and changes ----

  function OkBefore(steps: seq<Step>, n: nat, m: Id): bool
    requires n <= |steps|
  {
    var i := LastOwn(steps, n, m);
    i.None? || Ok(LogOf(steps[i.value].probe))
  }

  /** What check `k` announces. */
  function DecisionAt(states: seq<CheckTables>, steps: seq<Step>, k: nat): Option<Status>
    requires k < |steps| && k < |states| && steps[k].Commit?
  {
    Decide(Previous(states[k], steps[k].monitor), LogOf(steps[k].probe))
  }

  /** The change of the success bit at check `k`; a new monitor counts as up. */
  function ChangeAt(steps: seq<Step>, k: nat): Option<Status>
    requires k < |steps| && steps[k].Commit?
  {
    var ok := Ok(LogOf(steps[k].probe));
    if ok == OkBefore(steps, k, steps[k].monitor) then None else Some(if ok then Up else Down)
  }

  /** What check `k` reads back tells how the one before it went: its log is there
      and the check did not end on a code of 0, or the log was pruned and the check
      had succeeded. */
  ghost predicate Told(steps: seq<Step>, k: nat)
    requires k < |steps| && steps[k].Commit?
  {
    match LastOwn(steps, k, steps[k].monitor)
    case None => true
    case Some(i) => if Pruned(steps, i, k) then Ok(LogOf(steps[i].probe)) else !ZeroEnd(steps[i].probe)
  }

  lemma DecisionExact(states: seq<CheckTables>, steps: seq<Step>, k: nat)
    requires Run(states, steps) && k < |steps| && steps[k].Commit?
    ensures DecisionAt(states, steps, k) == ChangeAt(steps, k) <==> Told(steps, k)
  {
    var m := steps[k].monitor;
    RunTracked(states, steps, k, m);
    var before := LastOwn(steps, k, m);
    if before.Some? {
      var p := steps[before.value].probe;
      LoggedEncodes(p.built, |p.outcomes|, p.outcomes);
    }
  }

  /** Along any history of checks and prunings, the decisions for a monitor are the
      changes of its success bit, starting from up, if and only if every check that
      another follows is told to that one. */
  lemma DecisionsAreChanges(states: seq<CheckTables>, steps: seq<Step>, m: Id)
    requires Run(states, steps)
    ensures (forall k :: 0 <= k < |steps| && IsCheck(steps[k], m) ==>
               DecisionAt(states, steps, k) == ChangeAt(steps, k)) <==>
            (forall k :: 0 <= k < |steps| && IsCheck(steps[k], m) ==> Told(steps, k))
  {
    forall k | 0 <= k < |steps| && IsCheck(steps[k], m)
      ensures DecisionAt(states, steps, k) == ChangeAt(steps, k) <==> Told(steps, k)
    {
      DecisionExact(states, steps, k);
    }
  }

  /** What was announced under the id `m` from step `from` to before step `n`. */
  function Announced(states: seq<CheckTables>, steps: seq<Step>, from: nat, n: nat, m: Id): seq<Status>
    requires from <= n <= |steps| <= |states|
  {
    if n == from then []
    else
      var before := Announced(states, steps, from, n - 1, m);
      if IsCheck(steps[n - 1], m) && DecisionAt(states, steps, n - 1).Some?
      then before + [DecisionAt(states, steps, n - 1).value] else before
  }

  /** Down, up, down, ... */
  predicate Alternating(a: seq<Status>) {
    forall k :: 0 <= k < |a| ==> a[k] == if k % 2 == 0 then Down else Up
  }

  /** From step `from` to step `n` no monitor with the id `m` is deleted, no check
      of one committed before, and every check is told about the one before it. */
  ghost predicate Life(steps: seq<Step>, from: nat, n: nat, m: Id)
    requires from <= n <= |steps|
  {
    && LastOwn(steps, from, m).None?
    && (forall k :: from <= k < n ==> steps[k] != Delete(m))
    && (forall k :: from <= k < n && IsCheck(steps[k], m) ==> Told(steps, k))
  }

  /** In the life of a monitor announcements alternate and never start with up. */
  lemma {:induction false} Alternates(states: seq<CheckTables>, steps: seq<Step>, from: nat, n: nat, m: Id)
    requires Run(states, steps) && from <= n <= |steps| && Life(steps, from, n, m)
    ensures Alternating(Announced(states, steps, from, n, m))
    ensures |Announced(states, steps, from, n, m)| % 2 == 0 <==> OkBefore(steps, n, m)
  {
    if n > from {
      Alternates(states, steps, from, n - 1, m);
      if IsCheck(steps[n - 1], m) {
        DecisionExact(states, steps, n - 1);
        OneMore(Announced(states, steps, from, n - 1, m), OkBefore(steps, n - 1, m), Ok(LogOf(steps[n - 1].probe)));
      }
    }
  }

  lemma OneMore(a: seq<Status>, okBefore: bool, ok: bool)
    requires Alternating(a) && (|a| % 2 == 0 <==> okBefore)
    ensures ok != okBefore ==>
              var b := a + [if ok then Up else Down];
              Alternating(b) && (|b| % 2 == 0 <==> ok)
  {
  }

  /** The last check before `n`, if it announced something, announced last. */
  lemma {:induction false} AnnouncedLast(states: seq<CheckTables>, steps: seq<Step>, n: nat, m: Id)
    requires n <= |steps| <= |states| && LastCommit(steps, n, m).Some?
    requires DecisionAt(states, steps, LastCommit(steps, n, m).value).Some?
    ensures var a := Announced(states, steps, 0, n, m);
            a != [] && Some(a[|a| - 1]) == DecisionAt(states, steps, LastCommit(steps, n, m).value)
  {
    if !IsCheck(steps[n - 1], m) {
      AnnouncedLast(states, steps, n - 1, m);
    }
  }

  lemma {:induction false} AnnouncedSplits(states: seq<CheckTables>, steps: seq<Step>, n: nat, k: nat, m: Id)
    requires n <= k <= |steps| <= |states|
    ensures Announced(states, steps, 0, k, m) == Announced(states, steps, 0, n, m) + Announced(states, steps, n, k, m)
  {
    if n < k {
      AnnouncedSplits(states, steps, n, k - 1, m);
    }
  }

  // ---- whose checks the logs are ----

  /** Every log is of a check of the monitor it is filed under. */
  ghost predicate Truthful(t: CheckTables) {
    forall i :: i in t.logs ==> t.logs[i].monitor in t.monitors && t.logs[i].of == t.monitors[t.logs[i].monitor]
  }

  /** A check commits under the monitor it was started for. */
  predicate OwnCheck(s: CheckTables, step: Step) {
    step.Commit? ==> step.monitor in s.monitors && step.of == s.monitors[step.monitor]
  }

  lemma CheckedTruthful(s: CheckTables, m: Id, of: nat, id: Id, probe: Probe)
    requires Truthful(s) && m in s.monitors && id !in s.logs
    ensures Truthful(Checked(s, m, of, id, probe)) <==> of == s.monitors[m]
  {
    var t := Checked(s, m, of, id, probe);
    assert t.logs[id] == Entry(m, of, LogOf(probe));
    assert forall i :: i in s.logs ==> t.logs[i] == s.logs[i];
  }

  lemma DeletedTruthful(s: CheckTables, m: Id)
    requires Truthful(s)
    ensures Truthful(Deleted(s, m))
  {
  }

  lemma TruthfulStep(s: CheckTables, step: Step, t: CheckTables)
    requires Valid(s) && Truthful(s) && Next(s, step, t)
    ensures Truthful(t) <==> OwnCheck(s, step)
  {
    match step
    case Commit(m, of, id, probe) => CheckedTruthful(s, m, of, id, probe);
    case Delete(m) => DeletedTruthful(s, m);
    case Create(m) => assert m !in s.monitors;
    case _ =>
  }

  lemma {:induction false} RunValid(states: seq<CheckTables>, steps: seq<Step>, n: nat)
    requires Run(states, steps) && n <= |steps|
    ensures Valid(states[n])
  {
    if n > 0 {
      RunValid(states, steps, n - 1);
      assert StepAt(states, steps, n - 1);
      StepKeepsValid(states[n - 1], steps[n - 1], states[n]);
    }
  }

  lemma {:induction false} TruthfulUpTo(states: seq<CheckTables>, steps: seq<Step>, n: nat)
    requires Run(states, steps) && n <= |steps|
    requires forall i :: 0 <= i < |steps| ==> OwnCheck(states[i], steps[i])
    ensures Truthful(states[n])
  {
    if n > 0 {
      TruthfulUpTo(states, steps, n - 1);
      RunValid(states, steps, n - 1);
      assert StepAt(states, steps, n - 1);
      TruthfulStep(states[n - 1], steps[n - 1], states[n]);
    }
  }

  /** In every state of a history every log is of its own monitor, if and only if
      every check commits under the monitor it was started for. */
  lemma TruthfulRun(states: seq<CheckTables>, steps: seq<Step>)
    requires Run(states, steps)
    ensures (forall n :: 0 <= n < |states| ==> Truthful(states[n])) <==>
            (forall i :: 0 <= i < |steps| ==> OwnCheck(states[i], steps[i]))
  {
    if forall n :: 0 <= n < |states| ==> Truthful(states[n]) {
      forall i | 0 <= i < |steps| ensures OwnCheck(states[i], steps[i]) {
        RunValid(states, steps, i);
        assert StepAt(states, steps, i);
        TruthfulStep(states[i], steps[i], states[i + 1]);
      }
    }
    if forall i :: 0 <= i < |steps| ==> OwnCheck(states[i], steps[i]) {
      forall n | 0 <= n < |states| ensures Truthful(states[n]) {
        TruthfulUpTo(states, steps, n);
      }
    }
  }

  /** Some monitor with an id of `m` or above is there. */
  ghost predicate Topped(t: CheckTables, m: Id) {
    exists k :: k in t.monitors && m.n <= k.n
  }

  /** While one is, the id `m` does not change hands: only the newest monitors can
      be deleted from under a check and replaced. */
  lemma {:induction false} OwnerStays(states: seq<CheckTables>, steps: seq<Step>, i: nat, j: nat, m: Id)
    requires Run(states, steps) && i <= j <= |steps| && m in states[i].monitors
    requires forall k :: i <= k < j ==> Topped(states[k], m)
    ensures m in states[j].monitors ==> states[j].monitors[m] == states[i].monitors[m]
  {
    if i < j {
      OwnerStays(states, steps, i, j - 1, m);
      assert StepAt(states, steps, j - 1) && Topped(states[j - 1], m);
    }
  }

  // ---- histories that are told wrong ----

  const ONE := Id(1)
  const TWO := Id(2)
  const DOWN := Probe(true, [Failed(false)])
  const UP := Probe(true, [Response(200)])
  const ZERO := Probe(true, [Response(0)])

  function New(): CheckTables {
    Empty().(monitors := map[ONE := 0], created := 1)
  }

  function After(p: Probe): CheckTables {
    New().(logs := map[ONE := Entry(ONE, 0, LogOf(p))], last := map[ONE := ONE])
  }

  lemma NewStep()
    ensures Next(Empty(), Create(ONE), New())
  {
  }

  /** A monitor goes down, its log is pruned while the server is off, and the
      monitor is checked again. */
  function PrunedStates(p: Probe): seq<CheckTables> {
    [Empty(), New(), After(DOWN), New(), After(p)]
  }

  function PrunedSteps(p: Probe): seq<Step> {
    [Create(ONE), Commit(ONE, 0, ONE, DOWN), Prune({ONE}), Commit(ONE, 0, ONE, p)]
  }

  lemma PrunedRun(p: Probe)
    ensures Run(PrunedStates(p), PrunedSteps(p))
  {
    var t := After(DOWN);
    NewStep();
    assert t.last[ONE] == ONE && t.logs[ONE] == Entry(ONE, 0, LogOf(DOWN));
    assert t.logs - {ONE} == map[] && t.last - Orphans(t.last, {ONE}) == map[];
  }

  lemma PrunedAnnounced(p: Probe)
    ensures Announced(PrunedStates(p), PrunedSteps(p), 0, 4, ONE) == if Ok(LogOf(p)) then [Down] else [Down, Down]
  {
    var states, steps := PrunedStates(p), PrunedSteps(p);
    assert Announced(states, steps, 0, 1, ONE) == [];
    assert !Ok(LogOf(DOWN)) && Announced(states, steps, 0, 2, ONE) == [Down];
    assert Announced(states, steps, 0, 3, ONE) == [Down];
  }

  /** Still down: the outage is announced a second time. */
  lemma DownTwice()
    ensures Run(PrunedStates(DOWN), PrunedSteps(DOWN))
    ensures Announced(PrunedStates(DOWN), PrunedSteps(DOWN), 0, 4, ONE) == [Down, Down]
  {
    PrunedRun(DOWN);
    PrunedAnnounced(DOWN);
  }

  /** Up again: the recovery is never announced. */
  lemma RecoveryUnheard()
    ensures Run(PrunedStates(UP), PrunedSteps(UP))
    ensures Announced(PrunedStates(UP), PrunedSteps(UP), 0, 4, ONE) == [Down]
  {
    PrunedRun(UP);
    PrunedAnnounced(UP);
  }

  function ZeroStates(): seq<CheckTables> {
    [Empty(), New(), After(ZERO),
     New().(logs := map[ONE := Entry(ONE, 0, LogOf(ZERO)), TWO := Entry(ONE, 0, LogOf(DOWN))], last := map[ONE := TWO])]
  }

  function ZeroSteps(): seq<Step> {
    [Create(ONE), Commit(ONE, 0, ONE, ZERO), Commit(ONE, 0, TWO, DOWN)]
  }

  /** A check that succeeds with the code 000, then an outage that is never
      announced. */
  lemma OutageUnheard()
    ensures Run(ZeroStates(), ZeroSteps()) && Ok(LogOf(ZERO)) && !Ok(LogOf(DOWN))
    ensures Announced(ZeroStates(), ZeroSteps(), 0, 3, ONE) == []
  {
    var t := After(ZERO);
    NewStep();
    assert t.last[ONE] == ONE && t.logs[ONE] == Entry(ONE, 0, LogOf(ZERO));
    assert Announced(ZeroStates(), ZeroSteps(), 0, 1, ONE) == [];
  }
}
