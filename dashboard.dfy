/** The overview page (src/pages/Dashboard.tsx): alert counts by severity,
    the five most recent alerts, and a refresh counter driven by a timer that
    runs while the page is live. */
module Dashboard {
  import opened Types
  import opened Seqs

  /** `alerts.filter(a => a.severity === severity).length`. */
  function SeverityCount(alerts: seq<Alert>, severity: Severity): nat
  {
    |Filter(alerts, (a: Alert) => a.severity == severity)|
  }

  /** The number of alerts with the given severity, counted one by one. */
  function CountOf(alerts: seq<Alert>, severity: Severity): (n: nat)
    ensures n <= |alerts|
    decreases |alerts|
  {
    if alerts == [] then 0
    else (if alerts[0].severity == severity then 1 else 0) + CountOf(alerts[1..], severity)
  }

  function CriticalAlerts(alerts: seq<Alert>): nat
  {
    SeverityCount(alerts, Critical)
  }

  function HighAlerts(alerts: seq<Alert>): nat
  {
    SeverityCount(alerts, High)
  }

  /** The filter-and-length count is the number of alerts with that severity. */
  lemma {:induction false} SeverityCountIsCount(alerts: seq<Alert>, severity: Severity)
    ensures SeverityCount(alerts, severity) == CountOf(alerts, severity)
    decreases |alerts|
  {
    if alerts != [] {
      SeverityCountIsCount(alerts[1..], severity);
    }
  }

  /** Every alert has exactly one of the four severities. */
  lemma {:induction false} SeverityCountsPartition(alerts: seq<Alert>)
    ensures CountOf(alerts, Critical) + CountOf(alerts, High) + CountOf(alerts, Medium) + CountOf(alerts, Low)
            == |alerts|
    decreases |alerts|
  {
    if alerts != [] {
      SeverityCountsPartition(alerts[1..]);
    }
  }

  /** The critical and high counts never exceed the number of alerts. */
  lemma CriticalAndHighBounded(alerts: seq<Alert>)
    ensures CriticalAlerts(alerts) + HighAlerts(alerts) <= |alerts|
  {
    SeverityCountIsCount(alerts, Critical);
    SeverityCountIsCount(alerts, High);
    SeverityCountsPartition(alerts);
  }

  /** `alerts.slice(0, 5)`: the alerts listed as recent. */
  function RecentAlerts(alerts: seq<Alert>): (r: seq<Alert>)
    ensures |r| == Min(5, |alerts|)
    ensures r == alerts[..|r|]
  {
    Take(alerts, 5)
  }

  /** The alert fixtures the page counts and lists. */
  const MockAlerts: seq<Alert> := [
    Alert("ALERT-001", "Critical: Ransomware Encryption Detected", Critical, "EDR System", 0, 98, New),
    Alert("ALERT-002", "High: Suspicious Network Traffic", High, "Network Monitor", 0, 85, Acknowledged),
    Alert("ALERT-003", "Medium: Unusual Login Pattern", Medium, "SIEM", 0, 72, New)
  ]

  /** On the fixtures the page shows one critical and one high alert, and
      lists all three as recent. */
  lemma MockAlertFigures()
    ensures CriticalAlerts(MockAlerts) == 1 && HighAlerts(MockAlerts) == 1
    ensures RecentAlerts(MockAlerts) == MockAlerts
  {
    SeverityCountIsCount(MockAlerts, Critical);
    SeverityCountIsCount(MockAlerts, High);
    assert MockAlerts[1..][1..][1..] == [];
  }

  /** The overview page's timer state. */
  class DashboardPage {
    var refreshKey: nat
    var isLive: bool

    constructor ()
      ensures refreshKey == 0 && isLive
    {
      refreshKey := 0;
      isLive := true;
    }

    /** One firing of the five-second interval, which is registered only
        while the page is live. */
    method Tick()
      modifies this`refreshKey
      ensures refreshKey == if isLive then old(refreshKey) + 1 else old(refreshKey)
    {
      if isLive {
        refreshKey := refreshKey + 1;
      }
    }

    /** The Pause / Resume button. */
    method ToggleLive()
      modifies this`isLive
      ensures isLive == !old(isLive)
    {
      isLive := !isLive;
    }
  }

  /** Pausing and resuming restores the live state, and a tick that arrives
      while the page is paused does not refresh it. */
  method TickWhilePaused(page: DashboardPage)
    requires page.isLive
    modifies page
    ensures page.isLive && page.refreshKey == old(page.refreshKey)
  {
    page.ToggleLive();
    page.Tick();
    page.ToggleLive();
  }
}
