/** attachAlertDetails: flat message and service rows grouped into their alerts. */
module Grouping {
  import opened Prelude
  import opened Tables

  datatype MessageRow = MessageRow(id: Id, content: string, alert: Id)

  datatype ServiceRow = ServiceRow(id: Id, name: string, alert: Id)

  datatype AlertDetail = AlertDetail(id: Id, title: string, messages: seq<MessageRow>, services: seq<ServiceRow>)

  /** The rows of one alert, in the order of the flat list. */
  function For<R>(id: Id, rows: seq<R>, alertOf: R -> Id): seq<R> {
    if rows == [] then []
    else
      var n := |rows| - 1;
      For(id, rows[..n], alertOf) + if alertOf(rows[n]) == id then [rows[n]] else []
  }

  lemma {:induction false} NoRows<R>(id: Id, rows: seq<R>, alertOf: R -> Id)
    ensures For(id, rows, alertOf) == [] <==> forall r :: r in rows ==> alertOf(r) != id
  {
    if rows != [] {
      var n := |rows| - 1;
      NoRows(id, rows[..n], alertOf);
      assert rows == rows[..n] + [rows[n]];
    }
  }

  /** A map from alert to its rows, without empty lists. */
  ghost predicate Groups<R>(groups: map<Id, seq<R>>, rows: seq<R>, alertOf: R -> Id) {
    && (forall id :: id in groups <==> For(id, rows, alertOf) != [])
    && (forall id :: id in groups ==> groups[id] == For(id, rows, alertOf))
  }

  /** The map-building loop. */
  method GroupRows<R>(rows: seq<R>, alertOf: R -> Id) returns (groups: map<Id, seq<R>>)
    ensures Groups(groups, rows, alertOf)
  {
    groups := map[];
    for n := 0 to |rows|
      invariant Groups(groups, rows[..n], alertOf)
    {
      assert rows[..n + 1][..n] == rows[..n] && rows[..n + 1][n] == rows[n];
      var id := alertOf(rows[n]);
      groups := groups[id := (if id in groups then groups[id] else []) + [rows[n]]];
    }
    assert rows[..|rows|] == rows;
  }

  function MessageAlert(r: MessageRow): Id {
    r.alert
  }

  function ServiceAlert(r: ServiceRow): Id {
    r.alert
  }

  /** `list` holds the rows of alert `id`, each as often as `rows` does and in the
      same order; an alert without rows keeps the list it had. */
  ghost predicate Picked<R>(id: Id, rows: seq<R>, alertOf: R -> Id, before: seq<R>, list: seq<R>) {
    if exists j :: 0 <= j < |rows| && alertOf(rows[j]) == id
    then exists at: seq<nat> :: PicksAt(id, rows, alertOf, list, at)
    else list == before
  }

  /** `at` lists the positions of the rows of `id` in ascending order. */
  ghost predicate PicksAt<R>(id: Id, rows: seq<R>, alertOf: R -> Id, list: seq<R>, at: seq<nat>) {
    && |at| == |list|
    && (forall k :: 0 <= k < |at| ==> at[k] < |rows| && list[k] == rows[at[k]] && alertOf(list[k]) == id)
    && (forall k, l :: 0 <= k < l < |at| ==> at[k] < at[l])
    && (forall j :: 0 <= j < |rows| && alertOf(rows[j]) == id ==> j in at)
  }

  lemma PicksAdd<R>(id: Id, rows: seq<R>, alertOf: R -> Id, list: seq<R>, at: seq<nat>, r: R)
    requires PicksAt(id, rows, alertOf, list, at)
    ensures alertOf(r) == id ==> PicksAt(id, rows + [r], alertOf, list + [r], at + [|rows|])
    ensures alertOf(r) != id ==> PicksAt(id, rows + [r], alertOf, list, at)
  {
    forall j | 0 <= j < |rows| + 1 && alertOf((rows + [r])[j]) == id ensures j in at + [|rows|] {
      if j < |rows| {
        assert j in at;
      } else {
        assert (at + [|rows|])[|at|] == j;
      }
    }
  }

  lemma {:induction false} ForPicks<R>(id: Id, rows: seq<R>, alertOf: R -> Id) returns (at: seq<nat>)
    ensures PicksAt(id, rows, alertOf, For(id, rows, alertOf), at)
  {
    if rows == [] {
      at := [];
    } else {
      var n := |rows| - 1;
      at := ForPicks(id, rows[..n], alertOf);
      SplitLast(rows);
      PicksAdd(id, rows[..n], alertOf, For(id, rows[..n], alertOf), at, rows[n]);
      at := if alertOf(rows[n]) == id then at + [n] else at;
    }
  }

  lemma ForPicked<R>(id: Id, rows: seq<R>, alertOf: R -> Id, before: seq<R>)
    ensures Picked(id, rows, alertOf, before,
                   if For(id, rows, alertOf) == [] then before else For(id, rows, alertOf))
  {
    NoRows(id, rows, alertOf);
    var at := ForPicks(id, rows, alertOf);
    if j :| 0 <= j < |rows| && alertOf(rows[j]) == id {
      assert j in at;
    }
  }

  /** What attaching makes of one alert. */
  ghost predicate Filled(before: AlertDetail, after: AlertDetail,
                         messageRows: seq<MessageRow>, serviceRows: seq<ServiceRow>) {
    && after.id == before.id && after.title == before.title
    && Picked(before.id, messageRows, MessageAlert, before.messages, after.messages)
    && Picked(before.id, serviceRows, ServiceAlert, before.services, after.services)
  }

  method FillIn(alert: AlertDetail, messages: map<Id, seq<MessageRow>>, services: map<Id, seq<ServiceRow>>,
                ghost messageRows: seq<MessageRow>, ghost serviceRows: seq<ServiceRow>)
    returns (filled: AlertDetail)
    requires Groups(messages, messageRows, MessageAlert) && Groups(services, serviceRows, ServiceAlert)
    ensures Filled(alert, filled, messageRows, serviceRows)
  {
    ForPicked(alert.id, messageRows, MessageAlert, alert.messages);
    ForPicked(alert.id, serviceRows, ServiceAlert, alert.services);
    filled := alert;
    if alert.id in messages {
      filled := filled.(messages := messages[alert.id]);
    }
    if alert.id in services {
      filled := filled.(services := services[alert.id]);
    }
  }

  /** Build both maps, then write the lists into the slice in place. */
  method AttachDetails(alerts: array<AlertDetail>, messageRows: seq<MessageRow>, serviceRows: seq<ServiceRow>)
    modifies alerts
    ensures forall i :: 0 <= i < alerts.Length ==> Filled(old(alerts[i]), alerts[i], messageRows, serviceRows)
  {
    var messages := GroupRows(messageRows, MessageAlert);
    var services := GroupRows(serviceRows, ServiceAlert);
    ghost var before := alerts[..];
    for i := 0 to alerts.Length
      invariant alerts[i..] == before[i..]
      invariant forall k :: 0 <= k < i ==> Filled(before[k], alerts[k], messageRows, serviceRows)
    {
      assert alerts[i] == alerts[i..][0] == before[i];
      var filled := FillIn(alerts[i], messages, services, messageRows, serviceRows);
      alerts[i] := filled;
      assert alerts[i + 1..] == before[i..][1..];
    }
  }

  // ---- every row of a listed alert, once ----

  /** One list after the other. */
  function Flat<R>(lists: seq<seq<R>>): seq<R> {
    if lists == [] then [] else Flat(lists[..|lists| - 1]) + lists[|lists| - 1]
  }

  lemma PicksDrop<R>(id: Id, rows: seq<R>, alertOf: R -> Id, list: seq<R>, at: seq<nat>)
    requires rows != [] && PicksAt(id, rows, alertOf, list, at) && alertOf(rows[|rows| - 1]) == id
    ensures list != [] && list[|list| - 1] == rows[|rows| - 1]
    ensures PicksAt(id, rows[..|rows| - 1], alertOf, list[..|list| - 1], at[..|at| - 1])
  {
    var n, m := |rows| - 1, |at| - 1;
    assert n in at;
    var k :| 0 <= k < |at| && at[k] == n;
    assert k == m;
    forall j | 0 <= j < n && alertOf(rows[j]) == id ensures j in at[..m] {
      assert j in at;
      var l :| 0 <= l < |at| && at[l] == j;
      assert at[..m][l] == j;
    }
  }

  lemma PicksSkip<R>(id: Id, rows: seq<R>, alertOf: R -> Id, list: seq<R>, at: seq<nat>)
    requires rows != [] && PicksAt(id, rows, alertOf, list, at) && alertOf(rows[|rows| - 1]) != id
    ensures PicksAt(id, rows[..|rows| - 1], alertOf, list, at)
  {
    var n := |rows| - 1;
    forall k | 0 <= k < |at| ensures at[k] < n && list[k] == rows[..n][at[k]] {
      assert at[k] != n;
    }
    forall j | 0 <= j < n && alertOf(rows[..n][j]) == id ensures j in at {
      assert rows[j] == rows[..n][j];
    }
  }

  /** The rows at `at` are all the rows of `id`: counted by value, so a row that
      is in the flat list twice is attached twice. */
  lemma {:induction false} PicksCount<R>(id: Id, rows: seq<R>, alertOf: R -> Id, list: seq<R>, at: seq<nat>, r: R)
    requires PicksAt(id, rows, alertOf, list, at)
    ensures multiset(list)[r] == if alertOf(r) == id then multiset(rows)[r] else 0
  {
    if rows == [] {
      assert list == [];
    } else {
      var n := |rows| - 1;
      SplitLast(rows);
      if alertOf(rows[n]) == id {
        PicksDrop(id, rows, alertOf, list, at);
        SplitLast(list);
        PicksCount(id, rows[..n], alertOf, list[..|list| - 1], at[..|at| - 1], r);
      } else {
        PicksSkip(id, rows, alertOf, list, at);
        PicksCount(id, rows[..n], alertOf, list, at, r);
      }
    }
  }

  lemma PickedCount<R>(id: Id, rows: seq<R>, alertOf: R -> Id, list: seq<R>, r: R)
    requires Picked(id, rows, alertOf, [], list)
    ensures multiset(list)[r] == if alertOf(r) == id then multiset(rows)[r] else 0
  {
    if exists j :: 0 <= j < |rows| && alertOf(rows[j]) == id {
      var at: seq<nat> :| PicksAt(id, rows, alertOf, list, at);
      PicksCount(id, rows, alertOf, list, at, r);
    } else {
      assert alertOf(r) == id ==> r !in rows;
    }
  }

  /** With unique alert ids and no lists before, the lists of all alerts together
      hold each row of a listed alert exactly as often as the flat list does, and
      no other row. */
  lemma {:induction false} AttachedOnce<R>(ids: seq<Id>, rows: seq<R>, alertOf: R -> Id, lists: seq<seq<R>>, r: R)
    requires Distinct(ids) && |lists| == |ids|
    requires forall i :: 0 <= i < |ids| ==> Picked(ids[i], rows, alertOf, [], lists[i])
    ensures multiset(Flat(lists))[r] == if alertOf(r) in ids then multiset(rows)[r] else 0
  {
    if ids != [] {
      var n := |ids| - 1;
      SplitLast(ids);
      AttachedOnce(ids[..n], rows, alertOf, lists[..n], r);
      PickedCount(ids[n], rows, alertOf, lists[n], r);
    }
  }

  /** The same of the alerts that attaching leaves. */
  lemma AlertsAttachedOnce(before: seq<AlertDetail>, after: seq<AlertDetail>, messageRows: seq<MessageRow>,
                           serviceRows: seq<ServiceRow>, m: MessageRow, s: ServiceRow)
    requires |before| == |after|
    requires forall i :: 0 <= i < |before| ==> Filled(before[i], after[i], messageRows, serviceRows)
    requires forall i, j :: 0 <= i < j < |before| ==> before[i].id != before[j].id
    requires forall i :: 0 <= i < |before| ==> before[i].messages == [] && before[i].services == []
    ensures var messages := Flat(seq(|after|, i requires 0 <= i < |after| => after[i].messages));
            multiset(messages)[m] == if exists a :: a in before && a.id == m.alert then multiset(messageRows)[m] else 0
    ensures var services := Flat(seq(|after|, i requires 0 <= i < |after| => after[i].services));
            multiset(services)[s] == if exists a :: a in before && a.id == s.alert then multiset(serviceRows)[s] else 0
  {
    var ids := seq(|before|, i requires 0 <= i < |before| => before[i].id);
    AttachedOnce(ids, messageRows, MessageAlert, seq(|after|, i requires 0 <= i < |after| => after[i].messages), m);
    AttachedOnce(ids, serviceRows, ServiceAlert, seq(|after|, i requires 0 <= i < |after| => after[i].services), s);
    forall id ensures id in ids <==> exists a :: a in before && a.id == id {
      if a :| a in before && a.id == id {
        var i :| 0 <= i < |before| && before[i] == a;
        assert ids[i] == id;
      }
    }
  }
}
