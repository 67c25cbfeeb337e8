/** The monitor loop and its check goroutines as interleaved steps, one per lock
    section, WaitGroup call, commit or send. */
module Scheduler {
  import opened Prelude
  import opened Tables
  import opened Checks
  import H = CheckHistory

  /** A monitor of the listing: the copy of the row keeps its id, and `serial`
      tells which of the monitors that have had this id it was. */
  datatype Listed = Listed(id: Id, serial: nat)

  /** Where the loop goroutine stands in checkDueMonitors; `rest` is what is left
      of the listing. */
  datatype Loop =
    | Waiting                                  // in the select
    | Scanning(rest: seq<Listed>)
    | Due(m: Listed, rest: seq<Listed>)        // lastChecked was old enough
    | Free(m: Listed, rest: seq<Listed>)       // the monitor was not checked out
    | Inserted(m: Listed, rest: seq<Listed>)   // checkout holds it
    | Added(m: Listed, rest: seq<Listed>)      // wg.Add(1) was called
    | Gone                                     // wg.Done() was called

  datatype Phase =
    | Checking                         // requests, up to the commit
    | Committed                        // the log row is in; alerts go out
    | Leaving                          // the deferred cleanup is next
    | Released                         // checkout no longer holds the monitor
    | Stamped                          // lastChecked is set; wg.Done() is next

  /** `decision` is what the goroutine's commit decided to announce. */
  datatype Goroutine = Goroutine(monitor: Id, serial: nat, phase: Phase, decision: Option<Status>)

  /** `others` counts the other goroutines registered with the WaitGroup. */
  datatype State = State(loop: Loop, checkout: set<Id>, running: map<Id, Goroutine>, wg: int, others: nat,
                         tables: H.CheckTables, canceled: bool, waited: bool)

  datatype Step =
    | Tick(listing: seq<Listed>)
    | EndScan
    | TestDue(due: bool)
    | TestFree
    | Insert
    | Add
    | Spawn(g: Id)
    | ExitLoop
    | Commit(g: Id, id: Id, probe: H.Probe)
    | PruneLogs(ids: set<Id>)
    | CreateMonitor(m: Id)
    | DeleteMonitor(m: Id)
    | Fail(g: Id)
    | Send(g: Id)
    | FinishSends(g: Id)
    | Release(g: Id)
    | Stamp(g: Id)
    | Done(g: Id)
    | StartOther
    | EndOther
    | Cancel
    | WaitReturns

  predicate At(s: State, g: Id, phase: Phase) {
    g in s.running && s.running[g].phase == phase
  }

  function Move(s: State, g: Id, phase: Phase): State
    requires g in s.running
  {
    s.(running := s.running[g := s.running[g].(phase := phase)])
  }

  /** listMonitors: every monitor once. */
  ghost predicate Lists(tables: H.CheckTables, listing: seq<Listed>) {
    && Distinct(listing)
    && (forall x :: x in listing ==> x.id in tables.monitors && x.serial == tables.monitors[x.id])
    && (forall m :: m in tables.monitors ==> Listed(m, tables.monitors[m]) in listing)
  }

  ghost predicate Next(s: State, step: Step, t: State) {
    match step
    case Tick(listing) => s.loop.Waiting? && Lists(s.tables, listing) && t == s.(loop := Scanning(listing))
    case EndScan => s.loop == Scanning([]) && t == s.(loop := Waiting)
    case TestDue(due) =>
      && s.loop.Scanning? && s.loop.rest != []
      && t == s.(loop := if due then Due(s.loop.rest[0], s.loop.rest[1..]) else Scanning(s.loop.rest[1..]))
    case TestFree =>
      && s.loop.Due?
      && t == s.(loop := if s.loop.m.id in s.checkout then Scanning(s.loop.rest) else Free(s.loop.m, s.loop.rest))
    case Insert =>
      s.loop.Free? && t == s.(loop := Inserted(s.loop.m, s.loop.rest), checkout := s.checkout + {s.loop.m.id})
    case Add => s.loop.Inserted? && t == s.(loop := Added(s.loop.m, s.loop.rest), wg := s.wg + 1)
    case Spawn(g) =>
      && s.loop.Added? && g !in s.running
      && t == s.(loop := Scanning(s.loop.rest),
                 running := s.running[g := Goroutine(s.loop.m.id, s.loop.m.serial, Checking, None)])
    case ExitLoop => s.loop.Waiting? && s.canceled && t == s.(loop := Gone, wg := s.wg - 1)
    case Commit(g, id, probe) =>
      && At(s, g, Checking)
      && var r := s.running[g];
         var decided := r.(phase := Committed, decision := Decide(H.Previous(s.tables, r.monitor), H.LogOf(probe)));
         H.Next(s.tables, H.Commit(r.monitor, r.serial, id, probe), t.tables)
         && t == s.(running := s.running[g := decided], tables := t.tables)
    case PruneLogs(ids) => H.Next(s.tables, H.Prune(ids), t.tables) && t == s.(tables := t.tables)
    case CreateMonitor(m) => H.Next(s.tables, H.Create(m), t.tables) && t == s.(tables := t.tables)
    case DeleteMonitor(m) => H.Next(s.tables, H.Delete(m), t.tables) && t == s.(tables := t.tables)
    case Fail(g) => At(s, g, Checking) && t == Move(s, g, Leaving)
    case Send(g) => At(s, g, Committed) && s.running[g].decision.Some? && t == s
    case FinishSends(g) => At(s, g, Committed) && t == Move(s, g, Leaving)
    case Release(g) =>
      At(s, g, Leaving) && t == Move(s, g, Released).(checkout := s.checkout - {s.running[g].monitor})
    case Stamp(g) => At(s, g, Released) && t == Move(s, g, Stamped)
    case Done(g) => At(s, g, Stamped) && t == s.(running := s.running - {g}, wg := s.wg - 1)
    case StartOther => t == s.(others := s.others + 1, wg := s.wg + 1)
    case EndOther => s.others > 0 && t == s.(others := s.others - 1, wg := s.wg - 1)
    case Cancel => t == s.(canceled := true)
    case WaitReturns => s.canceled && s.wg == 0 && t == s.(waited := true)
  }

  /** After main has started the loop and `others` further goroutines. */
  predicate Start(s: State) {
    s == State(Waiting, {}, map[], 1 + s.others, s.others, H.Empty(), false, false)
  }

  // ---- the invariant ----

  /** Between its checkout insert and its checkout delete. */
  predicate Holds(s: State, g: Id) {
    g in s.running && s.running[g].phase in {Checking, Committed, Leaving}
  }

  predicate LoopHolds(s: State, m: Id) {
    (s.loop.Inserted? || s.loop.Added?) && s.loop.m.id == m
  }

  /** Checkout holds exactly the monitors being held, each by one holder. */
  ghost predicate Held(s: State) {
    && (forall g :: Holds(s, g) ==> s.running[g].monitor in s.checkout)
    && (forall m :: LoopHolds(s, m) ==> m in s.checkout)
    && (forall g, h :: Holds(s, g) && Holds(s, h) && s.running[g].monitor == s.running[h].monitor ==> g == h)
    && (forall g :: Holds(s, g) ==> !LoopHolds(s, s.running[g].monitor))
    && (s.loop.Free? ==> s.loop.m.id !in s.checkout)
    && (forall m :: m in s.checkout ==> LoopHolds(s, m) || exists g :: Holds(s, g) && s.running[g].monitor == m)
  }

  predicate Balanced(s: State) {
    && s.wg == (if s.loop.Gone? then 0 else 1) + (if s.loop.Added? then 1 else 0) + |s.running| + s.others
    && (s.waited ==> s.loop.Gone? && s.running == map[])
  }

  ghost predicate Inv(s: State) {
    Held(s) && Balanced(s)
  }

  /** No holder comes or goes. */
  lemma HeldStays(s: State, t: State)
    requires Held(s) && t.checkout == s.checkout
    requires forall g :: Holds(t, g) == Holds(s, g) && (Holds(s, g) ==> t.running[g].monitor == s.running[g].monitor)
    requires forall m :: LoopHolds(t, m) == LoopHolds(s, m)
    requires t.loop.Free? ==> t.loop.m.id !in t.checkout
    ensures Held(t)
  {
  }

  lemma InsertHeld(s: State, t: State)
    requires Held(s) && Next(s, Insert, t)
    ensures Held(t)
  {
  }

  lemma SpawnHeld(s: State, g: Id, t: State)
    requires Held(s) && Next(s, Spawn(g), t)
    ensures Held(t)
  {
    assert LoopHolds(s, s.loop.m.id);
    forall h ensures Holds(t, h) == (Holds(s, h) || h == g) {}
    forall m | m in t.checkout ensures exists h :: Holds(t, h) && t.running[h].monitor == m {
      if LoopHolds(s, m) {
        assert Holds(t, g) && t.running[g].monitor == m;
      } else {
        var h :| Holds(s, h) && s.running[h].monitor == m;
        assert Holds(t, h) && t.running[h].monitor == m;
      }
    }
  }

  lemma ReleaseHeld(s: State, g: Id, t: State)
    requires Held(s) && Next(s, Release(g), t)
    ensures Held(t)
  {
    assert Holds(s, g);
    forall h ensures Holds(t, h) == (Holds(s, h) && h != g) {}
    forall m | m in t.checkout && !LoopHolds(t, m) ensures exists h :: Holds(t, h) && t.running[h].monitor == m {
      assert !LoopHolds(s, m);
      var h :| Holds(s, h) && s.running[h].monitor == m;
      assert Holds(t, h) && t.running[h].monitor == m;
    }
  }

  lemma MoveHeld(s: State, g: Id, phase: Phase)
    requires Held(s) && g in s.running && Holds(s, g) == (phase in {Checking, Committed, Leaving})
    ensures Held(Move(s, g, phase))
  {
    HeldStays(s, Move(s, g, phase));
  }

  lemma CommitHeld(s: State, step: Step, t: State)
    requires Held(s) && Next(s, step, t) && step.Commit?
    ensures Held(t)
  {
    HeldStays(s, t);
  }

  lemma DoneHeld(s: State, g: Id, t: State)
    requires Held(s) && Next(s, Done(g), t)
    ensures Held(t)
  {
    HeldStays(s, t);
  }

  lemma LoopHeld(s: State, step: Step, t: State)
    requires Held(s) && Next(s, step, t) && t.running == s.running && !step.Insert? && !step.Release?
    ensures Held(t)
  {
    HeldStays(s, t);
  }

  lemma StepKeepsHeld(s: State, step: Step, t: State)
    requires Held(s) && Next(s, step, t)
    ensures Held(t)
  {
    match step
    case Insert => InsertHeld(s, t);
    case Spawn(g) => SpawnHeld(s, g, t);
    case Commit(_, _, _) => CommitHeld(s, step, t);
    case Fail(g) => MoveHeld(s, g, Leaving);
    case FinishSends(g) => MoveHeld(s, g, Leaving);
    case Release(g) => ReleaseHeld(s, g, t);
    case Stamp(g) => MoveHeld(s, g, Stamped);
    case Done(g) => DoneHeld(s, g, t);
    case _ => LoopHeld(s, step, t);
  }

  lemma Sizes<T>(m: map<Id, T>, g: Id, v: T)
    ensures |m[g := v]| == if g in m then |m| else |m| + 1
    ensures g in m ==> |m - {g}| == |m| - 1
  {
  }

  lemma SizeAfter(s: State, step: Step, t: State)
    requires Next(s, step, t)
    ensures |t.running| == |s.running| + (if step.Spawn? then 1 else 0) - (if step.Done? then 1 else 0)
  {
    match step
    case Spawn(g) => Sizes(s.running, g, t.running[g]);
    case Commit(g, _, _) => Sizes(s.running, g, t.running[g]);
    case Fail(g) => Sizes(s.running, g, t.running[g]);
    case FinishSends(g) => Sizes(s.running, g, t.running[g]);
    case Release(g) => Sizes(s.running, g, t.running[g]);
    case Stamp(g) => Sizes(s.running, g, t.running[g]);
    case Done(g) => Sizes(s.running, g, s.running[g]);
    case _ =>
  }

  lemma StepKeepsBalanced(s: State, step: Step, t: State)
    requires Balanced(s) && Next(s, step, t)
    ensures Balanced(t)
  {
    SizeAfter(s, step, t);
    assert |s.running| == 0 <==> s.running == map[];
    assert |t.running| == 0 <==> t.running == map[];
  }

  lemma StepKeepsInv(s: State, step: Step, t: State)
    requires Inv(s) && Next(s, step, t)
    ensures Inv(t)
  {
    StepKeepsHeld(s, step, t);
    StepKeepsBalanced(s, step, t);
  }

  // ---- whole runs ----

  ghost predicate StepAt(states: seq<State>, steps: seq<Step>, i: nat)
    requires |states| == |steps| + 1 && i < |steps|
  {
    Next(states[i], steps[i], states[i + 1])
  }

  ghost predicate Run(states: seq<State>, steps: seq<Step>) {
    && |states| == |steps| + 1 && Start(states[0])
    && forall i :: 0 <= i < |steps| ==> StepAt(states, steps, i)
  }

  lemma {:induction false} RunKeepsInv(states: seq<State>, steps: seq<Step>, n: nat)
    requires Run(states, steps) && n < |states|
    ensures Inv(states[n])
  {
    if n > 0 {
      RunKeepsInv(states, steps, n - 1);
      assert StepAt(states, steps, n - 1);
      StepKeepsInv(states[n - 1], steps[n - 1], states[n]);
    } else {
      assert |states[0].running| == 0;
    }
  }

  /** In every interleaving: a monitor has at most one goroutine between its
      checkout insert and delete, and a log row is written and an alert is sent
      only inside that interval. */
  lemma Exclusion(states: seq<State>, steps: seq<Step>, i: nat)
    requires Run(states, steps) && i < |steps|
    ensures var s := states[i];
            forall g, h :: Holds(s, g) && Holds(s, h) && s.running[g].monitor == s.running[h].monitor ==> g == h
    ensures steps[i].Commit? || steps[i].Send? ==>
              Holds(states[i], steps[i].g) && states[i].running[steps[i].g].monitor in states[i].checkout
  {
    RunKeepsInv(states, steps, i);
    assert StepAt(states, steps, i);
  }

  /** The WaitGroup counts exactly the live goroutines, and the scheduler never
      adds to it when it is zero. */
  lemma Counted(states: seq<State>, steps: seq<Step>, i: nat)
    requires Run(states, steps) && i < |steps|
    ensures states[i].wg == (if states[i].loop.Gone? then 0 else 1) + (if states[i].loop.Added? then 1 else 0)
                            + |states[i].running| + states[i].others
    ensures states[i].wg >= 0 && (steps[i].Add? ==> states[i].wg > 0)
  {
    RunKeepsInv(states, steps, i);
    assert StepAt(states, steps, i);
  }

  lemma {:induction false} StaysWaited(states: seq<State>, steps: seq<Step>, i: nat, j: nat)
    requires Run(states, steps) && i <= j < |states| && states[i].waited
    ensures states[j].waited
  {
    if i < j {
      StaysWaited(states, steps, i, j - 1);
      assert StepAt(states, steps, j - 1);
    }
  }

  /** Once Wait has returned, the loop is gone and no check runs, writes or sends
      ever again: the database can be closed. */
  lemma NothingAfterWait(states: seq<State>, steps: seq<Step>, i: nat, j: nat)
    requires Run(states, steps) && i <= j < |steps| && states[i].waited
    ensures states[j].loop.Gone? && states[j].running == map[]
    ensures !(steps[j].Tick? || steps[j].Add? || steps[j].Spawn? || steps[j].Commit? || steps[j].Send?)
  {
    StaysWaited(states, steps, i, j);
    RunKeepsInv(states, steps, j);
    assert StepAt(states, steps, j);
  }

  // ---- what a tick does ----

  /** `x` is still to come in the scan. */
  predicate Ahead(loop: Loop, x: Listed) {
    !loop.Waiting? && !loop.Gone? && x in loop.rest
  }

  ghost predicate TestedAt(states: seq<State>, steps: seq<Step>, k: nat, x: Listed)
    requires k < |steps| && k < |states|
  {
    steps[k].TestDue? && states[k].loop.Scanning? && states[k].loop.rest != [] && states[k].loop.rest[0] == x
  }

  ghost predicate Tested(states: seq<State>, steps: seq<Step>, i: nat, n: nat, x: Listed)
    requires |states| == |steps| + 1 && n <= |steps|
  {
    exists k :: i < k < n && TestedAt(states, steps, k, x)
  }

  lemma AheadStep(s: State, step: Step, t: State, x: Listed)
    requires Next(s, step, t) && Ahead(s.loop, x) && !step.Tick?
    ensures Ahead(t.loop, x) || (step.TestDue? && s.loop.Scanning? && s.loop.rest != [] && s.loop.rest[0] == x)
  {
    if step.TestDue? && s.loop.rest[0] != x {
      assert s.loop.rest == [s.loop.rest[0]] + s.loop.rest[1..];
    }
  }

  lemma {:induction false} ScanAhead(states: seq<State>, steps: seq<Step>, i: nat, n: nat, x: Listed)
    requires Run(states, steps) && i < n <= |steps| && steps[i].Tick? && x in steps[i].listing
    requires forall k :: i < k < n ==> !steps[k].Tick?
    ensures Tested(states, steps, i, n, x) || Ahead(states[n].loop, x)
  {
    assert StepAt(states, steps, n - 1);
    if n > i + 1 {
      ScanAhead(states, steps, i, n - 1, x);
      if Tested(states, steps, i, n - 1, x) {
        var k :| i < k < n - 1 && TestedAt(states, steps, k, x);
        assert TestedAt(states, steps, k, x);
      } else {
        AheadStep(states[n - 1], steps[n - 1], states[n], x);
        assert !Ahead(states[n].loop, x) ==> TestedAt(states, steps, n - 1, x);
      }
    }
  }

  /** The loop looked `x` up in checkout at step `k`. */
  ghost predicate LookedUpAt(states: seq<State>, steps: seq<Step>, k: nat, x: Listed)
    requires k < |steps| && k < |states|
  {
    steps[k].TestFree? && states[k].loop.Due? && states[k].loop.m == x
  }

  lemma {:induction false} DueLookedUp(states: seq<State>, steps: seq<Step>, i: nat, n: nat, x: Listed)
    requires Run(states, steps) && i < n <= |steps| && TestedAt(states, steps, i, x) && steps[i].due
    ensures (exists k :: i < k < n && LookedUpAt(states, steps, k, x)) || (states[n].loop.Due? && states[n].loop.m == x)
  {
    assert StepAt(states, steps, n - 1);
    if n > i + 1 {
      DueLookedUp(states, steps, i, n - 1, x);
      if k :| i < k < n - 1 && LookedUpAt(states, steps, k, x) {
        assert LookedUpAt(states, steps, k, x);
      } else {
        assert steps[n - 1].TestFree? ==> LookedUpAt(states, steps, n - 1, x);
      }
    }
  }

  /** A goroutine for `x` started at step `k`. */
  ghost predicate StartedAt(states: seq<State>, steps: seq<Step>, k: nat, x: Listed)
    requires |states| == |steps| + 1 && k < |steps|
  {
    && steps[k].Spawn? && steps[k].g !in states[k].running && steps[k].g in states[k + 1].running
    && states[k + 1].running[steps[k].g] == Goroutine(x.id, x.serial, Checking, None)
  }

  predicate Starting(loop: Loop, x: Listed) {
    (loop.Free? || loop.Inserted? || loop.Added?) && loop.m == x
  }

  lemma {:induction false} FreeStarted(states: seq<State>, steps: seq<Step>, i: nat, n: nat, x: Listed)
    requires Run(states, steps) && i < n <= |steps|
    requires LookedUpAt(states, steps, i, x) && x.id !in states[i].checkout
    ensures (exists k :: i < k < n && StartedAt(states, steps, k, x)) || Starting(states[n].loop, x)
  {
    assert StepAt(states, steps, n - 1);
    if n > i + 1 {
      FreeStarted(states, steps, i, n - 1, x);
      if k :| i < k < n - 1 && StartedAt(states, steps, k, x) {
        assert StartedAt(states, steps, k, x);
      } else {
        assert steps[n - 1].Spawn? ==> StartedAt(states, steps, n - 1, x);
      }
    }
  }

  /** Every monitor that is there when a tick lists them is tested before the scan
      ends, whatever happens to the ones before it; if it is due it is looked up in
      checkout, and if it is not there a check of it starts. */
  lemma TickCovers(states: seq<State>, steps: seq<Step>, i: nat, j: nat, m: Id) returns (k: nat)
    requires Run(states, steps) && i < j < |steps| && steps[i].Tick? && steps[j].EndScan?
    requires forall l :: i < l < j ==> !steps[l].Tick?
    requires m in states[i].tables.monitors
    ensures i < k < j && TestedAt(states, steps, k, Listed(m, states[i].tables.monitors[m]))
    ensures steps[k].due ==>
              exists l :: k < l < j && LookedUpAt(states, steps, l, Listed(m, states[i].tables.monitors[m]))
    ensures forall l :: k < l < j && LookedUpAt(states, steps, l, Listed(m, states[i].tables.monitors[m]))
                        && m !in states[l].checkout ==>
              exists p :: l < p < j && StartedAt(states, steps, p, Listed(m, states[i].tables.monitors[m]))
  {
    var x := Listed(m, states[i].tables.monitors[m]);
    assert StepAt(states, steps, i) && StepAt(states, steps, j);
    ScanAhead(states, steps, i, j, x);
    k :| i < k < j && TestedAt(states, steps, k, x);
    if steps[k].due {
      DueLookedUp(states, steps, k, j, x);
    }
    forall l | k < l < j && LookedUpAt(states, steps, l, x) && m !in states[l].checkout
      ensures exists p :: l < p < j && StartedAt(states, steps, p, x)
    {
      FreeStarted(states, steps, l, j, x);
    }
  }

  // ---- the alerts of a run ----

  /** What a step is to the log tables. */
  function LogStep(s: State, step: Step): H.Step {
    match step
    case Commit(g, id, probe) =>
      if g in s.running then H.Commit(s.running[g].monitor, s.running[g].serial, id, probe) else H.Other
    case PruneLogs(ids) => H.Prune(ids)
    case CreateMonitor(m) => H.Create(m)
    case DeleteMonitor(m) => H.Delete(m)
    case _ => H.Other
  }

  function LogSteps(states: seq<State>, steps: seq<Step>): (r: seq<H.Step>)
    requires |states| == |steps| + 1
    ensures |r| == |steps| && forall i :: 0 <= i < |steps| ==> r[i] == LogStep(states[i], steps[i])
  {
    seq(|steps|, i requires 0 <= i < |steps| => LogStep(states[i], steps[i]))
  }

  function LogStates(states: seq<State>): (r: seq<H.CheckTables>)
    ensures |r| == |states| && forall i :: 0 <= i < |states| ==> r[i] == states[i].tables
  {
    seq(|states|, i requires 0 <= i < |states| => states[i].tables)
  }

  /** What a run does to the log tables is a history of them. */
  lemma LogsRun(states: seq<State>, steps: seq<Step>)
    requires Run(states, steps)
    ensures H.Run(LogStates(states), LogSteps(states, steps))
  {
    forall i | 0 <= i < |steps| ensures H.Next(states[i].tables, LogStep(states[i], steps[i]), states[i + 1].tables) {
      assert StepAt(states, steps, i);
    }
  }

  /** Goroutine `g` wrote the last log of its monitor, and decided on it. */
  ghost predicate Reports(states: seq<State>, steps: seq<Step>, n: nat, g: Id)
    requires Run(states, steps) && n < |states| && g in states[n].running
  {
    var i := H.LastCommit(LogSteps(states, steps), n, states[n].running[g].monitor);
    && i.Some? && steps[i.value].Commit? && steps[i.value].g == g
    && states[n].running[g].decision == H.DecisionAt(LogStates(states), LogSteps(states, steps), i.value)
  }

  lemma ReportsStay(states: seq<State>, steps: seq<Step>, n: nat, g: Id)
    requires Run(states, steps) && 0 < n < |states| && g in states[n - 1].running && g in states[n].running
    requires states[n].running[g] == states[n - 1].running[g] && Reports(states, steps, n - 1, g)
    requires !H.IsCheck(LogStep(states[n - 1], steps[n - 1]), states[n].running[g].monitor)
    ensures Reports(states, steps, n, g)
  {
    var hist, m := LogSteps(states, steps), states[n].running[g].monitor;
    assert hist[n - 1] == LogStep(states[n - 1], steps[n - 1]);
    assert H.LastCommit(hist, n, m) == H.LastCommit(hist, n - 1, m);
  }

  lemma ReportsStart(states: seq<State>, steps: seq<Step>, n: nat, g: Id)
    requires Run(states, steps) && 0 < n < |states| && steps[n - 1].Commit? && steps[n - 1].g == g
    ensures g in states[n].running && Reports(states, steps, n, g)
  {
    var s, step := states[n - 1], steps[n - 1];
    assert StepAt(states, steps, n - 1);
    var tables, hist, m := LogStates(states), LogSteps(states, steps), s.running[g].monitor;
    assert hist[n - 1] == H.Commit(m, s.running[g].serial, step.id, step.probe) && tables[n - 1] == s.tables;
    assert H.LastCommit(hist, n, m) == Some(n - 1);
  }

  /** No step but its own commit is a commit for the monitor of a goroutine that is
      past its commit: checkout keeps the others out. */
  lemma NoOtherCommit(s: State, step: Step, t: State, g: Id)
    requires Held(s) && Next(s, step, t) && At(t, g, Committed) && !(step.Commit? && step.g == g)
    ensures At(s, g, Committed) && t.running[g] == s.running[g]
    ensures !H.IsCheck(LogStep(s, step), s.running[g].monitor)
  {
    assert At(s, g, Committed);
    assert step.Commit? ==> Holds(s, step.g) && Holds(s, g);
  }

  lemma {:induction false} CommittedReports(states: seq<State>, steps: seq<Step>, n: nat, g: Id)
    requires Run(states, steps) && n < |states| && At(states[n], g, Committed)
    ensures Reports(states, steps, n, g)
  {
    if n > 0 {
      if steps[n - 1].Commit? && steps[n - 1].g == g {
        ReportsStart(states, steps, n, g);
      } else {
        RunKeepsInv(states, steps, n - 1);
        assert StepAt(states, steps, n - 1);
        NoOtherCommit(states[n - 1], steps[n - 1], states[n], g);
        CommittedReports(states, steps, n - 1, g);
        ReportsStay(states, steps, n, g);
      }
    }
  }

  /** The alerts about `m` up to step `n`, as decided by its commits. */
  function AlertsUpTo(states: seq<State>, steps: seq<Step>, n: nat, m: Id): seq<Status>
    requires |states| == |steps| + 1 && n <= |steps|
  {
    H.Announced(LogStates(states), LogSteps(states, steps), 0, n, m)
  }

  /** The monitor and the status of a send. */
  function MonitorOf(s: State, step: Step): Option<Id> {
    if step.Send? && step.g in s.running then Some(s.running[step.g].monitor) else None
  }

  function StatusOf(s: State, step: Step): Option<Status> {
    if step.Send? && step.g in s.running then s.running[step.g].decision else None
  }

  /** In every interleaving an alert that is sent carries the newest announcement
      about its monitor. */
  lemma SendIsNewest(states: seq<State>, steps: seq<Step>, j: nat)
    requires Run(states, steps) && j < |steps| && steps[j].Send?
    ensures MonitorOf(states[j], steps[j]).Some?
    ensures var a := AlertsUpTo(states, steps, j, MonitorOf(states[j], steps[j]).value);
            a != [] && StatusOf(states[j], steps[j]) == Some(a[|a| - 1])
  {
    assert StepAt(states, steps, j);
    CommittedReports(states, steps, j, steps[j].g);
    H.AnnouncedLast(LogStates(states), LogSteps(states, steps), j, states[j].running[steps[j].g].monitor);
  }

  /** The same from step `from` on, as in the life of one monitor. */
  function AlertsSince(states: seq<State>, steps: seq<Step>, from: nat, n: nat, m: Id): seq<Status>
    requires |states| == |steps| + 1 && from <= n <= |steps|
  {
    H.Announced(LogStates(states), LogSteps(states, steps), from, n, m)
  }

  ghost predicate Life(states: seq<State>, steps: seq<Step>, from: nat, n: nat, m: Id)
    requires |states| == |steps| + 1 && from <= n <= |steps|
  {
    H.Life(LogSteps(states, steps), from, n, m)
  }

  /** In the life of a monitor the announcements are its changes: down and up take
      turns. */
  lemma AlertsAlternate(states: seq<State>, steps: seq<Step>, from: nat, n: nat, m: Id)
    requires Run(states, steps) && from <= n <= |steps| && Life(states, steps, from, n, m)
    ensures H.Alternating(AlertsSince(states, steps, from, n, m))
    ensures AlertsUpTo(states, steps, n, m) ==
              AlertsUpTo(states, steps, from, m) + AlertsSince(states, steps, from, n, m)
  {
    LogsRun(states, steps);
    H.Alternates(LogStates(states), LogSteps(states, steps), from, n, m);
    H.AnnouncedSplits(LogStates(states), LogSteps(states, steps), from, n, m);
  }

  /** Alerts about one monitor id go out in the order of the commits that decided on
      them: a later one never carries an earlier announcement. */
  lemma AlertsInOrder(states: seq<State>, steps: seq<Step>, i: nat, j: nat, m: Id)
    requires Run(states, steps) && i <= j < |steps|
    requires MonitorOf(states[i], steps[i]) == Some(m) && MonitorOf(states[j], steps[j]) == Some(m)
    ensures var a, b := AlertsUpTo(states, steps, i, m), AlertsUpTo(states, steps, j, m);
            && a != [] && a <= b
            && StatusOf(states[i], steps[i]) == Some(a[|a| - 1]) && StatusOf(states[j], steps[j]) == Some(b[|b| - 1])
  {
    SendIsNewest(states, steps, i);
    SendIsNewest(states, steps, j);
    H.AnnouncedSplits(LogStates(states), LogSteps(states, steps), i, j, m);
  }

  // ---- a check that outlives its monitor ----

  /** The commit is that of a check started for another monitor. */
  predicate Strange(s: State, step: Step) {
    && step.Commit? && step.g in s.running && s.running[step.g].monitor in s.tables.monitors
    && s.tables.monitors[s.running[step.g].monitor] != s.running[step.g].serial
  }

  /** In every state of a run every log is of a check of the monitor it is filed
      under, if and only if no commit is that of a check started for another. */
  lemma LogsTruthful(states: seq<State>, steps: seq<Step>)
    requires Run(states, steps)
    ensures (forall n :: 0 <= n < |states| ==> H.Truthful(states[n].tables)) <==>
            (forall i :: 0 <= i < |steps| ==> !Strange(states[i], steps[i]))
  {
    LogsRun(states, steps);
    var tables, hist := LogStates(states), LogSteps(states, steps);
    H.TruthfulRun(tables, hist);
    forall i | 0 <= i < |steps| ensures H.OwnCheck(tables[i], hist[i]) <==> !Strange(states[i], steps[i]) {
      assert StepAt(states, steps, i);
    }
    assert forall n :: 0 <= n < |states| ==> tables[n] == states[n].tables;
  }

  /** A state in which the newest monitor is being checked. */
  ghost predicate NewestChecked(s: State, g: Id) {
    && At(s, g, Checking) && H.Valid(s.tables)
    && var m := s.running[g].monitor;
       m in s.tables.monitors && s.tables.monitors[m] == s.running[g].serial
       && forall k :: k in s.tables.monitors ==> k.n <= m.n
  }

  /** What the deletion of the monitor and the creation of the next one make of it. */
  function Replaced(s: State, g: Id): State
    requires g in s.running
  {
    var m := s.running[g].monitor;
    s.(tables := H.Created(H.Deleted(s.tables, m), m))
  }

  lemma ReplacedSteps(s: State, g: Id)
    requires NewestChecked(s, g)
    ensures var m := s.running[g].monitor;
            var gone := s.(tables := H.Deleted(s.tables, m));
            && Next(s, DeleteMonitor(m), gone) && Next(gone, CreateMonitor(m), Replaced(s, g))
            && m !in Replaced(s, g).tables.last && m in Replaced(s, g).tables.monitors
            && Replaced(s, g).tables.monitors[m] != s.running[g].serial
            && Replaced(s, g).tables.logs.Keys <= s.tables.logs.Keys
  {
  }

  /** From every such state: the monitor is deleted, a new one is created and gets
      its id, the check fails and commits as the new monitor's first, and the
      new monitor's channels are told that it is down. */
  lemma StrangeAlert(s: State, g: Id, id: Id, probe: H.Probe) returns (t: State)
    requires NewestChecked(s, g) && id !in s.tables.logs && !Ok(H.LogOf(probe))
    ensures var m := s.running[g].monitor;
            var gone := s.(tables := H.Deleted(s.tables, m));
            && Next(s, DeleteMonitor(m), gone)
            && Next(gone, CreateMonitor(m), Replaced(s, g))
            && Strange(Replaced(s, g), Commit(g, id, probe))
            && Next(Replaced(s, g), Commit(g, id, probe), t)
            && Next(t, Send(g), t) && StatusOf(t, Send(g)) == Some(Down)
  {
    var r := s.running[g];
    var u := Replaced(s, g);
    ReplacedSteps(s, g);
    var decided := r.(phase := Committed, decision := Some(Down));
    t := u.(running := u.running[g := decided], tables := H.Checked(u.tables, r.monitor, r.serial, id, probe));
  }

  /** Its precondition is met: the first check of the first monitor. */
  function FirstStates(): seq<State> {
    var m, tables := Listed(Id(1), 0), H.New();
    var s := State(Waiting, {}, map[], 1, 0, tables, false, false);
    [ s.(tables := H.Empty()), s, s.(loop := Scanning([m])), s.(loop := Due(m, [])), s.(loop := Free(m, [])),
      s.(loop := Inserted(m, []), checkout := {m.id}), s.(loop := Added(m, []), checkout := {m.id}, wg := 2),
      s.(loop := Scanning([]), checkout := {m.id}, wg := 2,
         running := map[Id(1) := Goroutine(m.id, 0, Checking, None)]) ]
  }

  function FirstSteps(): seq<Step> {
    [ CreateMonitor(Id(1)), Tick([Listed(Id(1), 0)]), TestDue(true), TestFree, Insert, Add, Spawn(Id(1)) ]
  }

  lemma FirstStep(i: nat)
    requires i < 7
    ensures StepAt(FirstStates(), FirstSteps(), i)
  {
    if i == 0 {
      H.NewStep();
    } else if i == 1 {
      var listing := [Listed(Id(1), 0)];
      assert listing[0] in listing && Lists(H.New(), listing);
    } else if i == 2 {
      assert [Listed(Id(1), 0)][1..] == [];
    }
  }

  lemma FirstCheck()
    ensures Run(FirstStates(), FirstSteps()) && NewestChecked(FirstStates()[7], Id(1))
  {
    forall i | 0 <= i < 7 ensures StepAt(FirstStates(), FirstSteps(), i) {
      FirstStep(i);
    }
    assert FirstStates()[7].running[Id(1)] == Goroutine(Id(1), 0, Checking, None);
  }
}
