/** The application-wide alert queue: alerts are appended, removed by id and cleared. An
    alert's id is the decimal rendering of the clock at the moment it is added. */
module Alerts {
  import opened Collections
  import opened Text

  datatype AlertType = Success | Error | Warning | Info

  datatype Alert = Alert(id: string, kind: AlertType, message: string, autoClose: bool)

  /** The alert `addAlert` creates at clock reading `now`. */
  function NewAlert(kind: AlertType, message: string, autoClose: bool, now: nat): Alert
  {
    Alert(NatToString(now), kind, message, autoClose)
  }

  /** `alert => alert.id !== id`. */
  function IdIsNot(id: string): Alert -> bool
  {
    (a: Alert) => a.id != id
  }

  /** The list after `removeAlert(id)`. */
  function Removed(alerts: seq<Alert>, id: string): (r: seq<Alert>)
    ensures SubsequenceOf(r, alerts)
    ensures forall a :: a in r <==> a in alerts && a.id != id
  {
    Filter(alerts, IdIsNot(id))
  }

  /** Removing an id no alert carries changes nothing. */
  lemma RemoveUnknownId(alerts: seq<Alert>, id: string)
    requires forall i :: 0 <= i < |alerts| ==> alerts[i].id != id
    ensures Removed(alerts, id) == alerts
  {
    FilterAll(alerts, IdIsNot(id));
  }

  /** Adding an alert and removing it by its id gives back the earlier list, provided no
      earlier alert shares the id. */
  lemma RemoveAfterAdd(alerts: seq<Alert>, a: Alert)
    requires forall i :: 0 <= i < |alerts| ==> alerts[i].id != a.id
    ensures Removed(alerts + [a], a.id) == alerts
  {
    FilterAppend(alerts, [a], IdIsNot(a.id));
    RemoveUnknownId(alerts, a.id);
    assert Filter([a], IdIsNot(a.id)) == [];
  }

  /** Two alerts added at the same clock reading share an id, so removing one removes both. */
  lemma SameMillisecondRemovedTogether(alerts: seq<Alert>, k1: AlertType, m1: string, k2: AlertType, m2: string, now: nat)
    ensures var a1, a2 := NewAlert(k1, m1, true, now), NewAlert(k2, m2, true, now);
            Removed(alerts + [a1, a2], a1.id) == Removed(alerts, a1.id)
  {
    var a1, a2 := NewAlert(k1, m1, true, now), NewAlert(k2, m2, true, now);
    FilterAppend(alerts, [a1, a2], IdIsNot(a1.id));
    assert Filter([a1, a2], IdIsNot(a1.id)) == [] by {
      assert [a1, a2][1..] == [a2];
    }
  }

  class AlertService {
    var alerts: seq<Alert>

    constructor ()
      ensures alerts == []
    {
      alerts := [];
    }

    /** `addAlert`: appends one alert; the result says whether its removal is scheduled. */
    method AddAlert(kind: AlertType, message: string, autoClose: bool, now: nat) returns (scheduled: bool)
      modifies this
      ensures alerts == old(alerts) + [NewAlert(kind, message, autoClose, now)]
      ensures scheduled == autoClose
    {
      alerts := alerts + [NewAlert(kind, message, autoClose, now)];
      scheduled := autoClose;
    }

    method Success(message: string, now: nat, autoClose: bool := true) returns (scheduled: bool)
      modifies this
      ensures alerts == old(alerts) + [Alert(NatToString(now), AlertType.Success, message, autoClose)]
      ensures scheduled == autoClose
    {
      scheduled := AddAlert(AlertType.Success, message, autoClose, now);
    }

    /** Errors stay until dismissed unless the caller asks otherwise. */
    method Error(message: string, now: nat, autoClose: bool := false) returns (scheduled: bool)
      modifies this
      ensures alerts == old(alerts) + [Alert(NatToString(now), AlertType.Error, message, autoClose)]
      ensures scheduled == autoClose
    {
      scheduled := AddAlert(AlertType.Error, message, autoClose, now);
    }

    method Warning(message: string, now: nat, autoClose: bool := true) returns (scheduled: bool)
      modifies this
      ensures alerts == old(alerts) + [Alert(NatToString(now), AlertType.Warning, message, autoClose)]
      ensures scheduled == autoClose
    {
      scheduled := AddAlert(AlertType.Warning, message, autoClose, now);
    }

    method Info(message: string, now: nat, autoClose: bool := true) returns (scheduled: bool)
      modifies this
      ensures alerts == old(alerts) + [Alert(NatToString(now), AlertType.Info, message, autoClose)]
      ensures scheduled == autoClose
    {
      scheduled := AddAlert(AlertType.Info, message, autoClose, now);
    }

    method RemoveAlert(id: string)
      modifies this
      ensures alerts == Removed(old(alerts), id)
    {
      alerts := Filter(alerts, IdIsNot(id));
    }

    method Clear()
      modifies this
      ensures alerts == []
    {
      alerts := [];
    }
  }
}
