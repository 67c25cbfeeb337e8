/** The login limiter, with handlers running concurrently between its locked
    sections. */
module Limiter {
  const MAX_FAILURES := 10
  const WINDOW := 15 * 60

  datatype Bucket = Bucket(count: nat, first: int)

  predicate Expired(b: Bucket, now: int) {
    now - b.first > WINDOW
  }

  function Swept(buckets: map<string, Bucket>, now: int): map<string, Bucket> {
    map k | k in buckets && !Expired(buckets[k], now) :: buckets[k]
  }

  function Recorded(buckets: map<string, Bucket>, key: string, now: int): map<string, Bucket> {
    if key !in buckets || Expired(buckets[key], now) then buckets[key := Bucket(1, now)]
    else buckets[key := Bucket(buckets[key].count + 1, buckets[key].first)]
  }

  predicate Limited(buckets: map<string, Bucket>, key: string) {
    key in buckets && buckets[key].count >= MAX_FAILURES
  }

  /** The mutex-guarded map; each method is one locked section. */
  class LoginLimiter {
    var buckets: map<string, Bucket>

    method RateLimited(key: string, now: int) returns (limited: bool)
      modifies this
      ensures buckets == Swept(old(buckets), now) && limited == Limited(buckets, key)
      ensures forall k :: k in buckets <==> k in old(buckets) && now - old(buckets)[k].first <= 15 * 60
      ensures forall k :: k in buckets ==> buckets[k] == old(buckets)[k]
      ensures limited <==>
                key in old(buckets) && now - old(buckets)[key].first <= 15 * 60 && old(buckets)[key].count >= 10
    {
      ghost var before := buckets;
      var todo := buckets.Keys;
      while todo != {}
        invariant todo <= before.Keys
        invariant buckets == map k | k in before && (k in todo || !Expired(before[k], now)) :: before[k]
        decreases todo
      {
        var k :| k in todo;
        if Expired(buckets[k], now) {
          buckets := buckets - {k};
        }
        todo := todo - {k};
      }
      limited := key in buckets && buckets[key].count >= MAX_FAILURES;
    }

    method RecordFailure(key: string, now: int)
      modifies this
      ensures buckets == Recorded(old(buckets), key, now)
      ensures forall k :: k in buckets <==> k in old(buckets) || k == key
      ensures forall k :: k in buckets && k != key ==> buckets[k] == old(buckets)[k]
      ensures buckets[key] == if key in old(buckets) && now - old(buckets)[key].first <= 15 * 60
                              then Bucket(old(buckets)[key].count + 1, old(buckets)[key].first) else Bucket(1, now)
    {
      if key !in buckets || Expired(buckets[key], now) {
        buckets := buckets[key := Bucket(1, now)];
        return;
      }
      buckets := buckets[key := buckets[key].(count := buckets[key].count + 1)];
    }

    method Clear(key: string)
      modifies this
      ensures buckets == old(buckets) - {key}
    {
      buckets := buckets - {key};
    }
  }

  // ---- concurrent handlers ----

  /** `pending` counts, by key, the handlers that passed the check and have
      neither recorded a failure nor cleared nor given up. */
  datatype State = State(buckets: map<string, Bucket>, pending: map<string, nat>)

  datatype Step =
    | Enter(key: string, now: int)
    | Fail(key: string, now: int)
    | Succeed(key: string)
    | GiveUp(key: string)

  function Pending(s: State, key: string): nat {
    if key in s.pending then s.pending[key] else 0
  }

  function Count(s: State, key: string): nat {
    if key in s.buckets then s.buckets[key].count else 0
  }

  /** At most `c` handlers of one key run at a time. Any clock is allowed, also one
      that goes back. */
  ghost predicate Next(c: nat, s: State, step: Step, t: State) {
    match step
    case Enter(key, now) =>
      var swept := Swept(s.buckets, now);
      if Limited(swept, key) then t == s.(buckets := swept)
      else Pending(s, key) < c && t == State(swept, s.pending[key := Pending(s, key) + 1])
    case Fail(key, now) =>
      Pending(s, key) > 0 && t == State(Recorded(s.buckets, key, now), s.pending[key := Pending(s, key) - 1])
    case Succeed(key) => Pending(s, key) > 0 && t == State(s.buckets - {key}, s.pending[key := Pending(s, key) - 1])
    case GiveUp(key) => Pending(s, key) > 0 && t == s.(pending := s.pending[key := Pending(s, key) - 1])
  }

  ghost predicate Run(c: nat, states: seq<State>, steps: seq<Step>) {
    && |states| == |steps| + 1 && states[0] == State(map[], map[])
    && forall i :: 0 <= i < |steps| ==> Next(c, states[i], steps[i], states[i + 1])
  }

  /** In every interleaving, failures plus handlers on their way stay within the
      bound, so a key never counts more than MAX_FAILURES - 1 + c failures. */
  lemma {:induction false} Bounded(c: nat, states: seq<State>, steps: seq<Step>, n: nat, key: string)
    requires Run(c, states, steps) && n < |states|
    ensures Pending(states[n], key) <= c
    ensures Count(states[n], key) + Pending(states[n], key) <= MAX_FAILURES - 1 + c
  {
    if n > 0 {
      Bounded(c, states, steps, n - 1, key);
      assert Next(c, states[n - 1], steps[n - 1], states[n]);
    }
  }

  // ---- the bound is reached ----

  function One(key: string, count: nat, pending: nat): State {
    State(if count == 0 then map[] else map[key := Bucket(count, 0)], map[key := pending])
  }

  ghost predicate Reaches(c: nat, states: seq<State>, steps: seq<Step>, t: State) {
    Run(c, states, steps) && states[|states| - 1] == t
  }

  lemma Extend(c: nat, states: seq<State>, steps: seq<Step>, s: State, step: Step, t: State)
    requires Reaches(c, states, steps, s) && Next(c, s, step, t)
    ensures Reaches(c, states + [t], steps + [step], t)
  {
  }

  lemma EnterStep(c: nat, key: string, count: nat, pending: nat)
    requires count < MAX_FAILURES && pending < c
    ensures Next(c, One(key, count, pending), Enter(key, 0), One(key, count, pending + 1))
  {
  }

  lemma FailStep(c: nat, key: string, count: nat, pending: nat)
    requires pending > 0
    ensures Next(c, One(key, count, pending), Fail(key, 0), One(key, count + 1, pending - 1))
  {
  }

  /** Failures one after the other, up to `n`. */
  lemma {:induction false} Sequential(c: nat, key: string, n: nat) returns (states: seq<State>, steps: seq<Step>)
    requires c >= 1 && 1 <= n < MAX_FAILURES
    ensures Reaches(c, states, steps, One(key, n, 0))
  {
    if n == 1 {
      var s0 := State(map[], map[]);
      states, steps := [s0], [];
      assert Swept(s0.buckets, 0) == map[];
      assert Next(c, s0, Enter(key, 0), One(key, 0, 1));
      Extend(c, states, steps, s0, Enter(key, 0), One(key, 0, 1));
      states, steps := states + [One(key, 0, 1)], steps + [Enter(key, 0)];
    } else {
      states, steps := Sequential(c, key, n - 1);
      EnterStep(c, key, n - 1, 0);
      Extend(c, states, steps, One(key, n - 1, 0), Enter(key, 0), One(key, n - 1, 1));
      states, steps := states + [One(key, n - 1, 1)], steps + [Enter(key, 0)];
    }
    FailStep(c, key, n - 1, 1);
    Extend(c, states, steps, One(key, n - 1, 1), Fail(key, 0), One(key, n, 0));
    states, steps := states + [One(key, n, 0)], steps + [Fail(key, 0)];
  }

  lemma {:induction false} EnterTogether(c: nat, key: string, p: nat) returns (states: seq<State>, steps: seq<Step>)
    requires 1 <= c && p <= c
    ensures Reaches(c, states, steps, One(key, MAX_FAILURES - 1, p))
  {
    if p == 0 {
      states, steps := Sequential(c, key, MAX_FAILURES - 1);
    } else {
      states, steps := EnterTogether(c, key, p - 1);
      EnterStep(c, key, MAX_FAILURES - 1, p - 1);
      Extend(c, states, steps, One(key, MAX_FAILURES - 1, p - 1), Enter(key, 0), One(key, MAX_FAILURES - 1, p));
      states, steps := states + [One(key, MAX_FAILURES - 1, p)], steps + [Enter(key, 0)];
    }
  }

  lemma {:induction false} FailTogether(c: nat, key: string, f: nat) returns (states: seq<State>, steps: seq<Step>)
    requires 1 <= c && f <= c
    ensures Reaches(c, states, steps, One(key, MAX_FAILURES - 1 + f, c - f))
  {
    if f == 0 {
      states, steps := EnterTogether(c, key, c);
    } else {
      states, steps := FailTogether(c, key, f - 1);
      FailStep(c, key, MAX_FAILURES - 2 + f, c - f + 1);
      Extend(c, states, steps, One(key, MAX_FAILURES - 2 + f, c - f + 1), Fail(key, 0),
             One(key, MAX_FAILURES - 1 + f, c - f));
      states, steps := states + [One(key, MAX_FAILURES - 1 + f, c - f)], steps + [Fail(key, 0)];
    }
  }

  /** The bound is tight for every number of concurrent handlers. */
  lemma Tight(c: nat, key: string) returns (states: seq<State>, steps: seq<Step>)
    requires c >= 1
    ensures Run(c, states, steps) && Count(states[|states| - 1], key) == MAX_FAILURES - 1 + c
  {
    states, steps := FailTogether(c, key, c);
  }
}
