/** The admin SOS page (van-rakshak-admin/src/pages/SOS.jsx): the list of
    distress alerts with acknowledge, dispatch and confirmed resolve, and
    the counters and colours shown for them. */
module AdminSos {
  import opened Common
  import Lists

  datatype AlertCard = AlertCard(
    id: string, officer: string, location: string, coordinates: string, timestamp: string,
    status: string, priority: string, kind: string, description: string, duration: string,
    respondersDispatched: int, contact: string)

  /** The page's component state (the flashing timer is not part of it). */
  class SosPage {
    var alerts: seq<AlertCard>
    var resolvedCount: int
    var selectedAlert: Option<string>

    constructor (initial: seq<AlertCard>, resolved: int)
      ensures alerts == initial && resolvedCount == resolved && selectedAlert == None
    {
      alerts, resolvedCount, selectedAlert := initial, resolved, None;
    }

    /** `handleAcknowledge`. */
    method Acknowledge(id: string)
      modifies this
      ensures alerts == Acknowledged(old(alerts), id)
      ensures resolvedCount == old(resolvedCount) && selectedAlert == old(selectedAlert)
    {
      alerts := Acknowledged(alerts, id);
    }

    /** `handleResolve`; `confirmed` is the answer to the dialog. */
    method Resolve(id: string, confirmed: bool)
      modifies this
      ensures confirmed ==>
        && alerts == Lists.Keep(old(alerts), (a: AlertCard) => a.id != id)
        && resolvedCount == old(resolvedCount) + 1
        && selectedAlert == None
      ensures !confirmed ==>
        alerts == old(alerts) && resolvedCount == old(resolvedCount) && selectedAlert == old(selectedAlert)
    {
      if confirmed {
        alerts := Lists.Keep(alerts, (a: AlertCard) => a.id != id);
        resolvedCount := resolvedCount + 1;
        selectedAlert := None;
      }
    }

    /** `handleDispatchUnit` (the notice it pops up is left out). */
    method Dispatch(id: string)
      modifies this
      ensures alerts == Dispatched(old(alerts), id)
      ensures resolvedCount == old(resolvedCount) && selectedAlert == old(selectedAlert)
    {
      alerts := Dispatched(alerts, id);
    }
  }

  function Acknowledged(alerts: seq<AlertCard>, id: string): (r: seq<AlertCard>)
    ensures |r| == |alerts|
    ensures forall i :: 0 <= i < |alerts| ==>
      r[i] == if alerts[i].id == id then alerts[i].(status := "Responding") else alerts[i]
  {
    seq(|alerts|, i requires 0 <= i < |alerts| =>
      if alerts[i].id == id then alerts[i].(status := "Responding") else alerts[i])
  }

  function Dispatched(alerts: seq<AlertCard>, id: string): (r: seq<AlertCard>)
    ensures |r| == |alerts|
    ensures forall i :: 0 <= i < |alerts| ==>
      r[i] == if alerts[i].id == id then alerts[i].(respondersDispatched := alerts[i].respondersDispatched + 1)
              else alerts[i]
  {
    seq(|alerts|, i requires 0 <= i < |alerts| =>
      if alerts[i].id == id then alerts[i].(respondersDispatched := alerts[i].respondersDispatched + 1)
      else alerts[i])
  }

  /** `activeAlertsCount`. */
  function ActiveCount(alerts: seq<AlertCard>): nat {
    |Lists.Keep(alerts, (a: AlertCard) => a.status == "Active")|
  }

  /** `respondingCount`. */
  function RespondingCount(alerts: seq<AlertCard>): nat {
    |Lists.Keep(alerts, (a: AlertCard) => a.status == "Responding")|
  }

  /** The two header counters never add up to more than the alerts listed. */
  lemma CountsBounded(alerts: seq<AlertCard>)
    ensures ActiveCount(alerts) + RespondingCount(alerts) <= |alerts|
  {
    Lists.KeepDisjointBound(alerts, (a: AlertCard) => a.status == "Active", (a: AlertCard) => a.status == "Responding");
  }

  /** The acknowledge button is shown for an active alert only. */
  predicate OffersAcknowledge(alert: AlertCard) { alert.status == "Active" }

  /** Acknowledging touches the matching alerts only, and only their
      status: they are then responding and no longer offer acknowledge. */
  lemma AcknowledgeProperties(alerts: seq<AlertCard>, id: string)
    ensures forall i :: 0 <= i < |alerts| && alerts[i].id == id ==>
      Acknowledged(alerts, id)[i].status == "Responding" && !OffersAcknowledge(Acknowledged(alerts, id)[i])
    ensures forall i :: 0 <= i < |alerts| ==>
      Acknowledged(alerts, id)[i].(status := alerts[i].status) == alerts[i]
  {
  }

  /** Dispatching adds exactly one responder to the matching alerts and
      leaves both counters as they were. */
  lemma DispatchProperties(alerts: seq<AlertCard>, id: string)
    ensures forall i :: 0 <= i < |alerts| && alerts[i].id == id ==>
      Dispatched(alerts, id)[i].respondersDispatched == alerts[i].respondersDispatched + 1
    ensures forall i :: 0 <= i < |alerts| ==>
      Dispatched(alerts, id)[i].(respondersDispatched := alerts[i].respondersDispatched) == alerts[i]
    ensures ActiveCount(Dispatched(alerts, id)) == ActiveCount(alerts)
    ensures RespondingCount(Dispatched(alerts, id)) == RespondingCount(alerts)
  {
    var d := Dispatched(alerts, id);
    Lists.KeepSameCount(d, alerts, (a: AlertCard) => a.status == "Active");
    Lists.KeepSameCount(d, alerts, (a: AlertCard) => a.status == "Responding");
  }

  /** A resolve removes every alert with that id and keeps the others in
      order. */
  lemma ResolveProperties(alerts: seq<AlertCard>, id: string)
    ensures forall x :: x in Lists.Keep(alerts, (a: AlertCard) => a.id != id) <==> x in alerts && x.id != id
    ensures Lists.IsSubsequence(Lists.Keep(alerts, (a: AlertCard) => a.id != id), alerts)
  {
    var p := (a: AlertCard) => a.id != id;
    Lists.KeepIsSubsequence(alerts, p);
    forall x ensures x in Lists.Keep(alerts, p) <==> x in alerts && p(x) {
      Lists.KeepMembers(alerts, p, x);
    }
  }

  datatype Style = Style(bg: string, border: string, text: string)

  /** `getPriorityStyle`: exact names; anything else is styled green. */
  function PriorityStyle(priority: string): (r: Style)
    ensures r.border == r.text
    ensures r.text == "#16a34a" <==> priority !in {"Critical", "High", "Medium"}
  {
    match priority
    case "Critical" => Style("#fef2f2", "#dc2626", "#dc2626")
    case "High" => Style("#fff7ed", "#ea580c", "#ea580c")
    case "Medium" => Style("#fffbeb", "#f59e0b", "#f59e0b")
    case _ => Style("#f0fdf4", "#16a34a", "#16a34a")
  }

  /** `getStatusColor`: exact names, `#666` otherwise. */
  function StatusColor(status: string): (c: string)
    ensures c != "#666" <==> status in {"Active", "Responding", "Resolved"}
  {
    match status
    case "Active" => "#dc2626"
    case "Responding" => "#f59e0b"
    case "Resolved" => "#16a34a"
    case _ => "#666"
  }
}
