/** The stored severity of the status page and the handlers that recompute it. */
module Severity {
  import opened Tables

  datatype Alert = Alert(severity: string, ended: bool)

  ghost predicate SomeOngoing(alerts: map<Id, Alert>, severity: string) {
    exists i :: i in alerts && !alerts[i].ended && alerts[i].severity == severity
  }

  /** Red if an ongoing alert is red, else amber if one is amber, else blue. */
  ghost function Worst(alerts: map<Id, Alert>): string {
    if SomeOngoing(alerts, "red") then "red" else if SomeOngoing(alerts, "amber") then "amber" else "blue"
  }

  /** How bad a severity is. */
  function Rank(severity: string): nat {
    if severity == "red" then 2 else if severity == "amber" then 1 else 0
  }

  /** No ongoing alert is worse than what is shown, and what is shown is the
      severity of one of them, or blue. */
  lemma WorstIsMaximum(alerts: map<Id, Alert>)
    ensures forall i :: i in alerts && !alerts[i].ended ==> Rank(alerts[i].severity) <= Rank(Worst(alerts))
    ensures Worst(alerts) == "blue"
            || exists i :: i in alerts && !alerts[i].ended && alerts[i].severity == Worst(alerts)
  {
    forall i | i in alerts && !alerts[i].ended ensures SomeOngoing(alerts, alerts[i].severity) {}
  }

  /** The loop, on the ongoing alerts in whatever order they are listed. */
  method Recompute(alerts: map<Id, Alert>) returns (severity: string)
    ensures severity == Worst(alerts)
  {
    severity := "blue";
    var todo := set i | i in alerts && !alerts[i].ended;
    while todo != {}
      invariant forall i :: i in todo ==> i in alerts && !alerts[i].ended
      invariant forall i :: i in alerts && !alerts[i].ended && i !in todo ==> alerts[i].severity != "red"
      invariant severity == "blue" || (severity == "amber" && SomeOngoing(alerts, "amber"))
      invariant severity == "blue" ==>
                  forall i :: i in alerts && !alerts[i].ended && i !in todo ==> alerts[i].severity != "amber"
      decreases todo
    {
      var i :| i in todo;
      todo := todo - {i};
      if alerts[i].severity == "amber" {
        severity := "amber";
        continue;
      }
      if alerts[i].severity == "red" {
        severity := "red";
        break;
      }
    }
  }

  class Board {
    var alerts: map<Id, Alert>
    var severity: string

    method Create(severity: string) returns (id: Id)
      modifies this
      ensures id !in old(alerts) && alerts == old(alerts)[id := Alert(severity, false)]
      ensures this.severity == Worst(alerts)
    {
      id := NextRowId(alerts.Keys);
      alerts := alerts[id := Alert(severity, false)];
      this.severity := Recompute(alerts);
    }

    method Edit(id: Id, severity: string)
      modifies this
      ensures alerts ==
                if id in old(alerts) then old(alerts)[id := old(alerts)[id].(severity := severity)] else old(alerts)
      ensures this.severity == Worst(alerts)
    {
      if id in alerts {
        alerts := alerts[id := alerts[id].(severity := severity)];
      }
      this.severity := Recompute(alerts);
    }

    method Resolve(id: Id)
      modifies this
      ensures alerts == if id in old(alerts) then old(alerts)[id := old(alerts)[id].(ended := true)] else old(alerts)
      ensures severity == Worst(alerts)
    {
      if id in alerts {
        alerts := alerts[id := alerts[id].(ended := true)];
      }
      severity := Recompute(alerts);
    }

    method Unresolve(id: Id)
      modifies this
      ensures alerts == if id in old(alerts) then old(alerts)[id := old(alerts)[id].(ended := false)] else old(alerts)
      ensures severity == Worst(alerts)
    {
      if id in alerts {
        alerts := alerts[id := alerts[id].(ended := false)];
      }
      severity := Recompute(alerts);
    }

    /** deleteAlert does not recompute. */
    method Delete(id: Id)
      modifies this
      ensures alerts == old(alerts) - {id} && severity == old(severity)
    {
      alerts := alerts - {id};
    }
  }

  /** `id` is the only ongoing alert at the level that is shown. */
  ghost predicate Decides(alerts: map<Id, Alert>, id: Id) {
    && id in alerts && !alerts[id].ended && alerts[id].severity == Worst(alerts) != "blue"
    && forall i :: i in alerts && !alerts[i].ended && alerts[i].severity == Worst(alerts) ==> i == id
  }

  /** Deleting an alert leaves the stored severity right exactly when that alert
      did not decide it alone. */
  lemma DeleteStale(alerts: map<Id, Alert>, id: Id)
    ensures Worst(alerts - {id}) == Worst(alerts) <==> !Decides(alerts, id)
  {
    var rest := alerts - {id};
    assert SomeOngoing(rest, "red") ==> SomeOngoing(alerts, "red");
    assert SomeOngoing(rest, "amber") ==> SomeOngoing(alerts, "amber");
    if !Decides(alerts, id) && Worst(alerts) != "blue" {
      var j :| j in alerts && !alerts[j].ended && alerts[j].severity == Worst(alerts);
      var k :| k in alerts && !alerts[k].ended && alerts[k].severity == Worst(alerts)
               && (j != id ==> k == j) && k != id;
      assert k in rest && SomeOngoing(rest, Worst(alerts));
    }
  }

  /** One red alert, deleted: the page stays red with nothing ongoing. */
  lemma DeletedButRed()
    ensures var alerts := map[Id(1) := Alert("red", false)];
            Worst(alerts) == "red" && Worst(alerts - {Id(1)}) == "blue"
  {
  }
}
