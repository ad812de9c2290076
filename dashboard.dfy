/**
 * The alert list of `Dashboard.tsx`: a new service alert goes first and the
 * list keeps at most five; receiving one opens the alert panel; an `info`
 * alert is scheduled for removal by id; dismissing removes by id.
 */
module Dashboard {
  import opened Common

  datatype Alert = Alert(id: string, alertType: string, message: string, severity: string, timestamp: int)

  datatype AlertPanel = AlertPanel(alerts: seq<Alert>, showAlerts: bool)

  /** The outcome of `handleServiceAlert`: the new panel, and the id a timer will remove later, if any. */
  datatype Received = Received(panel: AlertPanel, scheduledRemoval: Option<string>)

  function Min(a: int, b: int): int { if a <= b then a else b }

  /**
   * `handleServiceAlert`: `[alert, ...prev.slice(0, 4)]`, the panel shown, and
   * a removal of this id scheduled only for severity `info`.
   */
  function ReceiveAlert(prev: AlertPanel, alert: Alert): (r: Received)
    ensures |r.panel.alerts| <= 5 && |r.panel.alerts| == Min(|prev.alerts|, 4) + 1
    ensures r.panel.alerts[0] == alert
    ensures forall i :: 1 <= i < |r.panel.alerts| ==> r.panel.alerts[i] == prev.alerts[i - 1]
    ensures r.panel.showAlerts
    ensures r.scheduledRemoval.Some? <==> alert.severity == "info"
    ensures r.scheduledRemoval.Some? ==> r.scheduledRemoval.value == alert.id
  {
    var kept := prev.alerts[..Min(|prev.alerts|, 4)];
    Received(AlertPanel([alert] + kept, true),
             if alert.severity == "info" then Some(alert.id) else None)
  }

  predicate NotId(id: string, a: Alert) { a.id != id }

  /** `dismissAlert`, and the timer callback of an `info` alert: every alert with this id goes; the panel's visibility stays. */
  function DismissAlert(panel: AlertPanel, id: string): (r: AlertPanel)
    ensures r.showAlerts == panel.showAlerts
    ensures forall i :: 0 <= i < |r.alerts| ==> r.alerts[i].id != id
    ensures forall i :: 0 <= i < |panel.alerts| && panel.alerts[i].id != id ==> panel.alerts[i] in r.alerts
  {
    AlertPanel(Filter(panel.alerts, a => NotId(id, a)), panel.showAlerts)
  }

  /** Dismissal keeps the other alerts in their order, and an absent id changes nothing. */
  lemma DismissKeepsOrder(panel: AlertPanel, id: string)
    ensures IsSubsequence(DismissAlert(panel, id).alerts, panel.alerts)
    ensures (forall i :: 0 <= i < |panel.alerts| ==> panel.alerts[i].id != id) ==> DismissAlert(panel, id) == panel
  {
    FilterIsSubsequence(panel.alerts, a => NotId(id, a));
    if forall i :: 0 <= i < |panel.alerts| ==> panel.alerts[i].id != id {
      FilterAll(panel.alerts, a => NotId(id, a));
    }
  }

  /**
   * When an alert's id is new, removing it again (by hand or by its timer)
   * leaves the four newest earlier alerts, in order.
   */
  lemma ReceiveThenDismiss(prev: AlertPanel, alert: Alert)
    requires forall i :: 0 <= i < |prev.alerts| ==> prev.alerts[i].id != alert.id
    ensures DismissAlert(ReceiveAlert(prev, alert).panel, alert.id).alerts == prev.alerts[..Min(|prev.alerts|, 4)]
  {
    var kept := prev.alerts[..Min(|prev.alerts|, 4)];
    var all := [alert] + kept;
    assert all[1..] == kept;
    FilterAll(kept, a => NotId(alert.id, a));
  }

  /** A sixth alert pushes out the oldest of five. */
  lemma SixthAlertDropsOldest(prev: AlertPanel, alert: Alert)
    requires |prev.alerts| == 5
    ensures ReceiveAlert(prev, alert).panel.alerts == [alert] + prev.alerts[..4]
  {
  }
}
