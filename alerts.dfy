/** src/components/alerts/AlertsManager.tsx: the alert list, keyed by id, and the
    draft the creation dialog edits. Each handler replaces the list with a new
    one; the replacement is a pure function and the component is a class. */
module AlertsManager {
  import opened Wrappers
  import opened JsBuiltins

  datatype AlertKind = Price | Technical | Whale

  /** `value` is None where the form's parseFloat produced NaN. */
  datatype Alert = Alert(
    id: string, symbol: string, kind: AlertKind, condition: string, value: Option<real>,
    active: bool, triggered: bool, createdAt: int, message: string)

  /** The fields of a new alert the dialog lets the user choose. */
  datatype Draft = Draft(symbol: string, kind: AlertKind, condition: string, value: Option<real>, message: string)

  const DefaultDraft := Draft("NAS100", Price, "above", Some(0.0), "")

  /** toggleAlert's map: `active` flipped on every alert with the id. */
  function Toggled(alerts: seq<Alert>, id: string): (r: seq<Alert>)
    ensures |r| == |alerts|
    ensures forall i :: 0 <= i < |r| ==> r[i].active == (alerts[i].active != (alerts[i].id == id))
    ensures forall i :: 0 <= i < |r| ==> r[i] == alerts[i].(active := r[i].active)
  {
    if alerts == [] then []
    else
      var a := alerts[0];
      [if a.id == id then a.(active := !a.active) else a] + Toggled(alerts[1..], id)
  }

  /** deleteAlert's filter: the alerts whose id differs, in their order. */
  function Deleted(alerts: seq<Alert>, id: string): (r: seq<Alert>)
    ensures |r| <= |alerts|
    ensures forall a :: a in r <==> a in alerts && a.id != id
  {
    if alerts == [] then []
    else if alerts[0].id == id then Deleted(alerts[1..], id)
    else [alerts[0]] + Deleted(alerts[1..], id)
  }

  /** The alert createAlert builds: its id is the creation time's decimal text. */
  function FromDraft(d: Draft, now: nat): (a: Alert)
    ensures a.id == NatToString(now) && a.createdAt == now
    ensures a.active && !a.triggered
    ensures Draft(a.symbol, a.kind, a.condition, a.value, a.message) == d
  {
    Alert(NatToString(now), d.symbol, d.kind, d.condition, d.value, true, false, now, d.message)
  }

  /** `alerts.filter(a => a.active).length`. */
  function ActiveCount(alerts: seq<Alert>): (n: nat)
    ensures n <= |alerts|
    ensures n == |alerts| <==> forall i :: 0 <= i < |alerts| ==> alerts[i].active
  {
    if alerts == [] then 0
    else (if alerts[0].active then 1 else 0) + ActiveCount(alerts[1..])
  }

  /** `alerts.filter(a => a.triggered).length`. */
  function TriggeredCount(alerts: seq<Alert>): (n: nat)
    ensures n <= |alerts|
    ensures n == 0 <==> forall i :: 0 <= i < |alerts| ==> !alerts[i].triggered
  {
    if alerts == [] then 0
    else (if alerts[0].triggered then 1 else 0) + TriggeredCount(alerts[1..])
  }

  /** Toggling the same id twice gives back the original list. */
  lemma {:induction false} ToggleTwice(alerts: seq<Alert>, id: string)
    ensures Toggled(Toggled(alerts, id), id) == alerts
  {
    if alerts != [] {
      ToggleTwice(alerts[1..], id);
    }
  }

  /** Toggling never changes which alerts have fired. */
  lemma {:induction false} ToggleKeepsTriggeredCount(alerts: seq<Alert>, id: string)
    ensures TriggeredCount(Toggled(alerts, id)) == TriggeredCount(alerts)
  {
    if alerts != [] {
      ToggleKeepsTriggeredCount(alerts[1..], id);
      assert Toggled(alerts, id)[1..] == Toggled(alerts[1..], id);
    }
  }

  /** Deleting distributes over concatenation, so what is kept stays in order. */
  lemma {:induction false} DeletedAppend(a: seq<Alert>, b: seq<Alert>, id: string)
    ensures Deleted(a + b, id) == Deleted(a, id) + Deleted(b, id)
  {
    if a == [] {
      assert a + b == b;
    } else {
      assert (a + b)[0] == a[0];
      assert (a + b)[1..] == a[1..] + b;
      DeletedAppend(a[1..], b, id);
    }
  }

  /** An alert with another id survives the delete; one with the id does not. */
  lemma DeletedSingleton(a: Alert, id: string)
    ensures Deleted([a], id) == if a.id == id then [] else [a]
  {
    assert [a][1..] == [];
  }

  /** Deleting an id that is already gone changes nothing. */
  lemma {:induction false} DeleteAbsent(alerts: seq<Alert>, id: string)
    requires forall i :: 0 <= i < |alerts| ==> alerts[i].id != id
    ensures Deleted(alerts, id) == alerts
  {
    if alerts != [] {
      DeleteAbsent(alerts[1..], id);
    }
  }

  /** deleteAlert is idempotent. */
  lemma DeleteIdempotent(alerts: seq<Alert>, id: string)
    ensures Deleted(Deleted(alerts, id), id) == Deleted(alerts, id)
  {
    var r := Deleted(alerts, id);
    forall i | 0 <= i < |r| ensures r[i].id != id {
      assert r[i] in r;
    }
    DeleteAbsent(r, id);
  }

  class AlertsBoard {
    var alerts: seq<Alert>
    var newAlertOpen: bool
    var newAlert: Draft

    /** The component's mount state: the three sample alerts of the module-level
        list, whose dates are taken once when the module loads; `now` is that
        load time, and the samples are dated `now`, one hour and two hours
        earlier. */
    constructor (now: int)
      ensures |alerts| == 3 && ActiveCount(alerts) == 3 && TriggeredCount(alerts) == 1
      ensures !newAlertOpen && newAlert == DefaultDraft
    {
      alerts := [
        Alert("1", "NAS100", Price, "above", Some(13600.0), true, false, now,
          "قیمت NAS100 از 13,600 عبور کرد"),
        Alert("2", "NAS100", Technical, "rsi_overbought", Some(80.0), true, true, now - 3600000, "RSI در منطقه اشباع خرید"),
        Alert("3", "NAS100", Whale, "large_buy", Some(1000000.0), true, false, now - 7200000,
          "تراکنش نهنگ بزرگ شناسایی شد")];
      newAlertOpen := false;
      newAlert := DefaultDraft;
    }

    method ToggleAlert(id: string)
      modifies this`alerts
      ensures alerts == Toggled(old(alerts), id)
    {
      alerts := Toggled(alerts, id);
    }

    method DeleteAlert(id: string)
      modifies this`alerts
      ensures alerts == Deleted(old(alerts), id)
    {
      alerts := Deleted(alerts, id);
    }

    /** The dialog's field editors replace the draft. */
    method EditDraft(d: Draft)
      modifies this`newAlert
      ensures newAlert == d
    {
      newAlert := d;
    }

    /** createAlert: the draft appended as an active, not yet triggered alert,
        then the dialog closed and the draft reset. */
    method CreateAlert(now: nat)
      modifies this
      ensures alerts == old(alerts) + [FromDraft(old(newAlert), now)]
      ensures ActiveCount(alerts) == ActiveCount(old(alerts)) + 1
      ensures TriggeredCount(alerts) == TriggeredCount(old(alerts))
      ensures !newAlertOpen && newAlert == DefaultDraft
    {
      var a := FromDraft(newAlert, now);
      CountsAppend(alerts, a);
      alerts := alerts + [a];
      newAlertOpen := false;
      newAlert := DefaultDraft;
    }
  }

  /** The counts of an appended list: the old counts plus the new alert's flags. */
  lemma {:induction false} CountsAppend(alerts: seq<Alert>, a: Alert)
    ensures ActiveCount(alerts + [a]) == ActiveCount(alerts) + (if a.active then 1 else 0)
    ensures TriggeredCount(alerts + [a]) == TriggeredCount(alerts) + (if a.triggered then 1 else 0)
  {
    if alerts != [] {
      assert (alerts + [a])[1..] == alerts[1..] + [a];
      CountsAppend(alerts[1..], a);
    } else {
      assert [a][1..] == [];
    }
  }
}
