/** One monitor check: the retry loop, the log row it writes, and the rule that
    decides from the previous row whether the monitor went down or came up. */
module Checks {
  import opened Prelude

  // ---- the retry loop ----

  /** What one request comes to. `net/http` accepts any three digits as a status
      code, "000" included. */
  datatype Outcome =
    | Failed(timeout: bool)     // no response
    | Unread                    // the body could not be read to its end
    | Response(code: nat)

  /** The columns of monitor_log that a check fills in; a code of 0 is NULL. */
  datatype Log = Log(code: Option<nat>, attempts: nat, result: string)

  predicate Stops(o: Outcome) {
    o.Unread? || (o.Response? && o.code < 400)
  }

  /** The attempt that ends the loop early, or `n`. */
  function StopAt(outcomes: seq<Outcome>, n: nat): (k: nat)
    requires n <= |outcomes|
    ensures k <= n && (k < n ==> Stops(outcomes[k])) && forall j :: 0 <= j < k ==> !Stops(outcomes[j])
  {
    if n == 0 then 0
    else
      var k := StopAt(outcomes, n - 1);
      if k < n - 1 || Stops(outcomes[k]) then k else n
  }

  /** Some attempt before `k` was answered with an error status. */
  predicate AnsweredBefore(outcomes: seq<Outcome>, k: nat)
    requires k <= |outcomes|
  {
    exists j :: 0 <= j < k && outcomes[j].Response? && outcomes[j].code >= 400
  }

  function Column(code: nat): Option<nat> {
    if code != 0 then Some(code) else None
  }

  /** The row for `n` allowed attempts. `built` says whether a request can be made
      from the monitor's method and URL at all, which no retry changes. */
  function Logged(built: bool, n: nat, outcomes: seq<Outcome>): Log
    requires n <= |outcomes|
  {
    var k := StopAt(outcomes, n);
    if !built || n == 0 then Log(None, 0, "")
    else if k < n then
      match outcomes[k]
      case Response(code) => Log(Column(code), k + 1, "success")
      case _ => Log(None, k, if AnsweredBefore(outcomes, k) then "error" else "")
    else
      match outcomes[n - 1]
      case Failed(timeout) => Log(None, n, if timeout then "timeout" else "error")
      case Response(code) => Log(Column(code), n, "error")
      case Unread => Log(None, n, "")
  }

  /** Requests the loop sends. */
  function Requests(built: bool, n: nat, outcomes: seq<Outcome>): nat
    requires n <= |outcomes|
  {
    if !built then 0 else if StopAt(outcomes, n) < n then StopAt(outcomes, n) + 1 else n
  }

  method Check(built: bool, attempts: nat, outcomes: seq<Outcome>) returns (log: Log, requests: nat)
    requires attempts <= |outcomes|
    ensures log == Logged(built, attempts, outcomes) && requests == Requests(built, attempts, outcomes)
  {
    var result, statusCode, reqErr := "", None, None;
    var attempt: nat := 0;
    requests := 0;
    while attempt < attempts
      invariant attempt <= attempts && requests == attempt
      invariant built || attempt == 0
      invariant forall j :: 0 <= j < attempt ==> !Stops(outcomes[j])
      invariant result == if AnsweredBefore(outcomes, attempt) then "error" else ""
      invariant attempt == 0 ==> statusCode == None && reqErr == None
      invariant attempt > 0 ==>
                  && reqErr == (if outcomes[attempt - 1].Failed? then Some(outcomes[attempt - 1].timeout) else None)
                  && statusCode == (if outcomes[attempt - 1].Response? then Some(outcomes[attempt - 1].code) else None)
    {
      if !built {
        break;
      }
      statusCode := None;
      var o := outcomes[attempt];
      requests := requests + 1;
      reqErr := if o.Failed? then Some(o.timeout) else None;
      if o.Failed? {
        attempt := attempt + 1;
        continue;
      }
      if o.Unread? {
        break;
      }
      statusCode := Some(o.code);
      if o.code >= 400 {
        result := "error";
        attempt := attempt + 1;
        continue;
      }
      result := "success";
      break;
    }
    assert attempt <= StopAt(outcomes, attempts);
    if result != "success" && reqErr.Some? {
      result := if reqErr.value then "timeout" else "error";
    }
    var made := if result == "success" then attempt + 1 else attempt;
    log := Log(if statusCode.Some? then Column(statusCode.value) else None, made, result);
  }

  // ---- what the last request decides ----

  /** Requests go out until one is answered below 400, or with a body that cannot
      be read, or the attempts are used up. */
  lemma SentUntil(built: bool, n: nat, outcomes: seq<Outcome>)
    requires n <= |outcomes|
    ensures var sent := Requests(built, n, outcomes);
            && sent <= n && (sent == 0 <==> !built || n == 0)
            && (forall j :: 0 <= j < sent - 1 ==>
                  outcomes[j].Failed? || (outcomes[j].Response? && outcomes[j].code >= 400))
            && (0 < sent < n ==>
                  outcomes[sent - 1].Unread? || (outcomes[sent - 1].Response? && outcomes[sent - 1].code < 400))
  {
  }

  /** The row tells the last request: its status code, unless that is 000, and
      whether it succeeded, timed out or failed. Only when its body could not be
      read, the result is that of the answers before it. */
  lemma LastDecides(built: bool, n: nat, outcomes: seq<Outcome>)
    requires n <= |outcomes|
    ensures var log, sent := Logged(built, n, outcomes), Requests(built, n, outcomes);
            if sent == 0 then log == Log(None, 0, "")
            else
              match outcomes[sent - 1]
              case Response(code) =>
                && log.code == (if code == 0 then None else Some(code))
                && log.result == (if code < 400 then "success" else "error")
              case Failed(timeout) => log.code == None && log.result == if timeout then "timeout" else "error"
              case Unread =>
                && log.code == None
                && (log.result == "error" || log.result == "")
                && (log.result == "error" <==> exists j :: 0 <= j < sent - 1 && outcomes[j].Response?)
  {
    var sent := Requests(built, n, outcomes);
    SentUntil(built, n, outcomes);
    if sent > 0 && outcomes[sent - 1].Unread? {
      assert StopAt(outcomes, n) == sent - 1;
      if j :| 0 <= j < sent - 1 && outcomes[j].Response? {
        assert outcomes[j].code >= 400;
      }
    }
  }

  /** The loop ended on a response whose code is 0. */
  predicate EndsOnZero(built: bool, n: nat, outcomes: seq<Outcome>)
    requires n <= |outcomes|
  {
    var k := StopAt(outcomes, n);
    built && k < n && outcomes[k] == Response(0)
  }

  /** The stored code tells success from failure exactly when the check did not
      end on a code of 0, which is a success stored as NULL. */
  lemma CodeTellsSuccess(built: bool, n: nat, outcomes: seq<Outcome>)
    requires n <= |outcomes|
    ensures var log := Logged(built, n, outcomes);
            (log.result == "success" <==> log.code.Some? && log.code.value < 400) <==> !EndsOnZero(built, n, outcomes)
  {
  }

  /** A logged code is that of the last request sent, never an earlier one. */
  lemma CodeIsLast(built: bool, n: nat, outcomes: seq<Outcome>)
    requires n <= |outcomes|
    ensures var log, sent := Logged(built, n, outcomes), Requests(built, n, outcomes);
            log.code.Some? ==> sent > 0 && outcomes[sent - 1] == Response(log.code.value)
  {
  }

  /** The attempt count never exceeds the setting and is the number of requests,
      one less when reading a body failed. */
  lemma AttemptsCounted(built: bool, n: nat, outcomes: seq<Outcome>)
    requires n <= |outcomes|
    ensures var log, sent := Logged(built, n, outcomes), Requests(built, n, outcomes);
            && log.attempts <= sent <= n
            && (log.attempts == sent || (sent > 0 && outcomes[sent - 1].Unread? && log.attempts == sent - 1))
            && (sent > 0 && outcomes[sent - 1].Unread? ==> log.attempts == sent - 1)
  {
  }

  // ---- the alert rule ----

  datatype Status = Up | Down

  predicate Ok(log: Log) {
    log.result == "success"
  }

  predicate Happy(log: Log) {
    log.code.Some? && log.code.value != 0 && log.code.value < 400
  }

  /** The decision, from the row of the previous check if it can be read back. */
  function Decide(previous: Option<Log>, log: Log): Option<Status> {
    var firstCheck, lastHappy := previous.None?, previous.Some? && Happy(previous.value);
    if (firstCheck && !Ok(log)) || (lastHappy && !Ok(log)) || (!firstCheck && !lastHappy && Ok(log))
    then Some(if Ok(log) then Up else Down) else None
  }

  /** Whatever the previous row says, an announcement tells how this check went. */
  lemma DecisionIsResult(previous: Option<Log>, log: Log)
    ensures Decide(previous, log) != None ==>
              Decide(previous, log) == Some(if log.result == "success" then Up else Down)
    ensures previous == None ==> (Decide(previous, log) != None <==> log.result != "success")
  {
  }

  predicate Encodes(log: Log) {
    Ok(log) <==> Happy(log)
  }

  /** What the retry loop logs tells its result unless it ended on a code of 0. */
  lemma LoggedEncodes(built: bool, n: nat, outcomes: seq<Outcome>)
    requires n <= |outcomes|
    ensures Encodes(Logged(built, n, outcomes)) <==> !EndsOnZero(built, n, outcomes)
  {
  }
}
