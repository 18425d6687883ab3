/** The alert feed of the alerts panel: a list of alert records, the
    resolve update, the all / unresolved filter and the counts derived
    from the list. */
module Alerts {
  import opened Common

  datatype Severity = Critical | Warning | Info

  /** One alert. `timestamp` is in milliseconds since the epoch;
      `resource` is the optional name of the affected resource. */
  datatype Alert = Alert(
    id: string,
    title: string,
    description: string,
    severity: Severity,
    timestamp: int,
    resource: Option<string>,
    resolved: bool)

  /** The filter drop-down: every alert, or only the unresolved ones. */
  datatype Filter = All | UnresolvedOnly

  /** The resolve update `prev.map(a => a.id === id ? { ...a, resolved: true } : a)`:
      every alert carrying `id` becomes resolved, every other alert is kept as it is. */
  function Resolve(alerts: seq<Alert>, id: string): (r: seq<Alert>)
    ensures |r| == |alerts|
    ensures forall i :: 0 <= i < |alerts| && alerts[i].id == id ==> r[i] == alerts[i].(resolved := true)
    ensures forall i :: 0 <= i < |alerts| && alerts[i].id != id ==> r[i] == alerts[i]
  {
    if alerts == [] then []
    else
      var a := alerts[0];
      [if a.id == id then a.(resolved := true) else a] + Resolve(alerts[1..], id)
  }

  /** `alerts.filter(alert => !alert.resolved)`. */
  function Unresolved(alerts: seq<Alert>): (r: seq<Alert>)
    ensures |r| <= |alerts|
    ensures forall a <- r :: a in alerts && !a.resolved
    ensures forall a <- alerts :: !a.resolved ==> a in r
  {
    if alerts == [] then []
    else if alerts[0].resolved then Unresolved(alerts[1..])
    else [alerts[0]] + Unresolved(alerts[1..])
  }

  /** `alerts.filter(a => a.severity === 'critical' && !a.resolved)`. */
  function CriticalUnresolved(alerts: seq<Alert>): (r: seq<Alert>)
    ensures forall a <- r :: a in alerts && a.severity == Critical && !a.resolved
    ensures forall a <- alerts :: a.severity == Critical && !a.resolved ==> a in r
    ensures Subsequence(r, alerts)
  {
    if alerts == [] then []
    else
      var rest := CriticalUnresolved(alerts[1..]);
      if alerts[0].severity == Critical && !alerts[0].resolved then [alerts[0]] + rest
      else
        assert rest != [] ==> rest[0] in rest;
        rest
  }

  /** The unresolved view holds every unresolved alert exactly as often as
      the list does, and nothing else: its length is the "active" count. */
  lemma {:induction false} UnresolvedCounts(alerts: seq<Alert>)
    ensures forall a ::
      multiset(Unresolved(alerts))[a] == if !a.resolved then multiset(alerts)[a] else 0
  {
    if alerts != [] {
      assert alerts == [alerts[0]] + alerts[1..];
      UnresolvedCounts(alerts[1..]);
    }
  }

  /** The critical view holds every critical unresolved alert exactly as often
      as the list does, and nothing else: its length is the footer's count. */
  lemma {:induction false} CriticalUnresolvedCounts(alerts: seq<Alert>)
    ensures forall a ::
      multiset(CriticalUnresolved(alerts))[a] == if a.severity == Critical && !a.resolved then multiset(alerts)[a] else 0
  {
    if alerts != [] {
      assert alerts == [alerts[0]] + alerts[1..];
      CriticalUnresolvedCounts(alerts[1..]);
    }
  }

  /** `alerts.filter(alert => filter === 'all' || !alert.resolved)`. */
  function Filtered(alerts: seq<Alert>, filter: Filter): (r: seq<Alert>)
    ensures filter == All ==> r == alerts
    ensures filter == UnresolvedOnly ==> forall a :: a in r <==> a in alerts && !a.resolved
    ensures filter == UnresolvedOnly ==> r == Unresolved(alerts)
    ensures Subsequence(r, alerts)
  {
    if filter == All then
      SubsequenceReflexive(alerts);
      alerts
    else
      UnresolvedIsSubsequence(alerts);
      Unresolved(alerts)
  }

  /** `xs` is `ys` with some elements left out, the rest in their order. */
  predicate Subsequence<T(==)>(xs: seq<T>, ys: seq<T>)
  {
    if xs == [] then true
    else if ys == [] then false
    else if xs[0] == ys[0] then Subsequence(xs[1..], ys[1..])
    else Subsequence(xs, ys[1..])
  }

  lemma {:induction false} SubsequenceReflexive<T>(xs: seq<T>)
    ensures Subsequence(xs, xs)
  {
    if xs != [] {
      SubsequenceReflexive(xs[1..]);
    }
  }

  /** The unresolved view keeps the order of the full list. */
  lemma {:induction false} UnresolvedIsSubsequence(alerts: seq<Alert>)
    ensures Subsequence(Unresolved(alerts), alerts)
  {
    if alerts != [] {
      UnresolvedIsSubsequence(alerts[1..]);
      var rest := Unresolved(alerts[1..]);
      if alerts[0].resolved && rest != [] {
        assert rest[0] in rest;
      }
    }
  }

  /** The critical count never exceeds the unresolved count, which never
      exceeds the total. */
  lemma {:induction false} CountsBounded(alerts: seq<Alert>)
    ensures |CriticalUnresolved(alerts)| <= |Unresolved(alerts)| <= |alerts|
  {
    if alerts != [] {
      CountsBounded(alerts[1..]);
    }
  }

  /** Resolving an id that no alert carries leaves the list unchanged, with no error. */
  lemma ResolveUnknownId(alerts: seq<Alert>, id: string)
    requires forall a <- alerts :: a.id != id
    ensures Resolve(alerts, id) == alerts
  {
  }

  /** Resolving twice with the same id is resolving once. */
  lemma ResolveIdempotent(alerts: seq<Alert>, id: string)
    ensures Resolve(Resolve(alerts, id), id) == Resolve(alerts, id)
  {
  }

  /** Resolution is monotonic: no alert goes back to unresolved. */
  lemma ResolveMonotonic(alerts: seq<Alert>, id: string)
    ensures forall i :: 0 <= i < |alerts| && alerts[i].resolved ==> Resolve(alerts, id)[i].resolved
  {
  }

  /** After resolving `id`, the unresolved view holds no alert with that id and
      loses no alert with another id. */
  lemma ResolveClearsIdFromView(alerts: seq<Alert>, id: string)
    ensures forall a <- Unresolved(Resolve(alerts, id)) :: a.id != id
    ensures forall a <- Unresolved(alerts) :: a.id != id ==> a in Unresolved(Resolve(alerts, id))
  {
    var r := Resolve(alerts, id);
    forall a | a in Unresolved(alerts) && a.id != id ensures a in r {
      var i :| 0 <= i < |alerts| && alerts[i] == a;
      assert r[i] == a;
    }
  }

  /** How many unresolved alerts carry `id`. */
  function PendingWithId(alerts: seq<Alert>, id: string): (n: nat)
    ensures n <= |alerts|
  {
    if alerts == [] then 0
    else (if alerts[0].id == id && !alerts[0].resolved then 1 else 0) + PendingWithId(alerts[1..], id)
  }

  /** Resolving `id` lowers the unresolved count by the number of unresolved alerts carrying `id`. */
  lemma {:induction false} ResolveLowersUnresolvedCount(alerts: seq<Alert>, id: string)
    ensures |Unresolved(Resolve(alerts, id))| == |Unresolved(alerts)| - PendingWithId(alerts, id)
  {
    if alerts != [] {
      ResolveLowersUnresolvedCount(alerts[1..], id);
      assert Resolve(alerts, id)[1..] == Resolve(alerts[1..], id);
    }
  }

  /** No two alerts share an id. */
  predicate UniqueIds(alerts: seq<Alert>)
  {
    forall i, j :: 0 <= i < j < |alerts| ==> alerts[i].id != alerts[j].id
  }

  /** With unique ids, at most one unresolved alert carries `id`, and exactly one
      when the list holds an unresolved alert with that id. */
  lemma {:induction false} PendingWithUniqueId(alerts: seq<Alert>, id: string)
    requires UniqueIds(alerts)
    ensures PendingWithId(alerts, id) == if exists a <- alerts :: a.id == id && !a.resolved then 1 else 0
  {
    if alerts != [] {
      assert UniqueIds(alerts[1..]) by {
        forall i, j | 0 <= i < j < |alerts[1..]| ensures alerts[1..][i].id != alerts[1..][j].id {
          assert alerts[1..][i] == alerts[i + 1] && alerts[1..][j] == alerts[j + 1];
        }
      }
      PendingWithUniqueId(alerts[1..], id);
      if alerts[0].id == id {
        forall a | a in alerts[1..] ensures a.id != id {
          var j :| 0 <= j < |alerts[1..]| && alerts[1..][j] == a;
          assert alerts[j + 1] == a;
        }
      }
      assert forall a :: a in alerts <==> a == alerts[0] || a in alerts[1..];
    }
  }

  /** When ids are unique, resolving an unresolved alert lowers the unresolved count by exactly one. */
  lemma ResolveOneLowersCountByOne(alerts: seq<Alert>, id: string)
    requires UniqueIds(alerts)
    requires exists a <- alerts :: a.id == id && !a.resolved
    ensures |Unresolved(Resolve(alerts, id))| == |Unresolved(alerts)| - 1
  {
    ResolveLowersUnresolvedCount(alerts, id);
    PendingWithUniqueId(alerts, id);
  }

  /** The four alerts loaded when a subscription is selected, stamped relative to `now`. */
  function MockAlerts(now: int): (r: seq<Alert>)
    ensures |r| == 4 && UniqueIds(r)
  {
    [ Alert("1", "High CPU Usage", "CPU usage has exceeded 85% for the last 15 minutes",
            Warning, now - 10 * 60 * 1000, Some("Production Database"), false),
      Alert("2", "Connection Timeout", "Multiple connection timeouts detected on Application Gateway",
            Critical, now - 25 * 60 * 1000, Some("Production Gateway"), false),
      Alert("3", "Storage Quota Warning", "Storage account usage is at 90% capacity",
            Warning, now - 2 * 60 * 60 * 1000, Some("Storage Account"), true),
      Alert("4", "Network Latency Spike", "Unusual network latency detected between regions",
            Info, now - 30 * 60 * 1000, Some("Virtual Network"), false) ]
  }

  /** The loaded feed shows 4 alerts, 3 unresolved, 1 critical; resolving the
      critical one leaves 4, 2 and 0. */
  lemma MockAlertsScenario(now: int)
    ensures var before := MockAlerts(now);
      |before| == 4 && |Unresolved(before)| == 3 && |CriticalUnresolved(before)| == 1
    ensures var after := Resolve(MockAlerts(now), "2");
      |after| == 4 && |Unresolved(after)| == 2 && |CriticalUnresolved(after)| == 0
  {
    var before := MockAlerts(now);
    assert before == [before[0], before[1], before[2], before[3]];
    ResolveSecondOfFour(before[0], before[1], before[2], before[3]);
  }

  /** A four-alert feed shaped like the sample one: only the second alert is
      critical, only the third is resolved, and only the second carries id "2". */
  lemma ResolveSecondOfFour(a0: Alert, a1: Alert, a2: Alert, a3: Alert)
    requires a1.id == "2" && a0.id != "2" && a2.id != "2" && a3.id != "2"
    requires !a0.resolved && !a1.resolved && a2.resolved && !a3.resolved
    requires a0.severity != Critical && a1.severity == Critical && a3.severity != Critical
    ensures |Unresolved([a0, a1, a2, a3])| == 3 && |CriticalUnresolved([a0, a1, a2, a3])| == 1
    ensures var after := Resolve([a0, a1, a2, a3], "2");
      |after| == 4 && |Unresolved(after)| == 2 && |CriticalUnresolved(after)| == 0
  {
    FeedCounts(a0, a1, a2, a3);
    var after := Resolve([a0, a1, a2, a3], "2");
    ResolveOfFour(a0, a1, a2, a3, "2");
    FeedCounts(a0, a1.(resolved := true), a2, a3);
  }

  lemma ResolveOfFour(a0: Alert, a1: Alert, a2: Alert, a3: Alert, id: string)
    requires a1.id == id && a0.id != id && a2.id != id && a3.id != id
    ensures Resolve([a0, a1, a2, a3], id) == [a0, a1.(resolved := true), a2, a3]
  {
    var r := Resolve([a0, a1, a2, a3], id);
    assert r[0] == a0 && r[1] == a1.(resolved := true) && r[2] == a2 && r[3] == a3;
  }

  /** The counts of a four-alert feed, alert by alert. */
  lemma FeedCounts(a0: Alert, a1: Alert, a2: Alert, a3: Alert)
    ensures var feed := [a0, a1, a2, a3];
      |Unresolved(feed)| == CountIf(!a0.resolved) + CountIf(!a1.resolved) + CountIf(!a2.resolved) + CountIf(!a3.resolved)
    ensures var feed := [a0, a1, a2, a3];
      |CriticalUnresolved(feed)| == CountIf(a0.severity == Critical && !a0.resolved) + CountIf(a1.severity == Critical && !a1.resolved)
        + CountIf(a2.severity == Critical && !a2.resolved) + CountIf(a3.severity == Critical && !a3.resolved)
  {
    CountsCons(a3, []);
    CountsCons(a2, [a3]);
    CountsCons(a1, [a2, a3]);
    CountsCons(a0, [a1, a2, a3]);
  }

  lemma CountsCons(a: Alert, rest: seq<Alert>)
    ensures |Unresolved([a] + rest)| == CountIf(!a.resolved) + |Unresolved(rest)|
    ensures |CriticalUnresolved([a] + rest)| == CountIf(a.severity == Critical && !a.resolved) + |CriticalUnresolved(rest)|
  {
    assert ([a] + rest)[1..] == rest;
  }

  function CountIf(b: bool): nat { if b then 1 else 0 }

  /** The alerts panel's state: the alert list and the chosen filter. */
  class AlertsPanel {
    var alerts: seq<Alert>
    var filter: Filter

    /** The panel starts with no alerts, filtering to unresolved ones. */
    constructor ()
      ensures alerts == [] && filter == UnresolvedOnly
    {
      alerts := [];
      filter := UnresolvedOnly;
    }

    /** The effect run when the subscription changes: a selected subscription loads the mock feed. */
    method LoadAlerts(subscriptionId: Option<string>, now: int)
      modifies this
      ensures alerts == if Truthy(subscriptionId) then MockAlerts(now) else old(alerts)
      ensures filter == old(filter)
    {
      if Truthy(subscriptionId) {
        alerts := MockAlerts(now);
      }
    }

    /** The drop-down's `setFilter`. */
    method SetFilter(f: Filter)
      modifies this
      ensures filter == f && alerts == old(alerts)
    {
      filter := f;
    }

    /** The Resolve button's handler for the alert `id`. */
    method ResolveAlert(id: string)
      modifies this
      ensures alerts == Resolve(old(alerts), id) && filter == old(filter)
      ensures |Unresolved(alerts)| <= |Unresolved(old(alerts))|
    {
      ResolveLowersUnresolvedCount(alerts, id);
      alerts := Resolve(alerts, id);
    }

    /** The alerts shown under the current filter. */
    function FilteredAlerts(): (r: seq<Alert>)
      reads this
      ensures Subsequence(r, alerts)
      ensures filter == All ==> r == alerts
      ensures filter == UnresolvedOnly ==> forall a :: a in r <==> a in alerts && !a.resolved
      ensures filter == UnresolvedOnly ==> forall a :: multiset(r)[a] == if !a.resolved then multiset(alerts)[a] else 0
    {
      UnresolvedCounts(alerts);
      Filtered(alerts, filter)
    }

    /** The "active" badge: how many alerts are unresolved, at most the total. */
    function UnresolvedCount(): (n: nat)
      reads this
      ensures n <= |alerts|
      ensures n == |Filtered(alerts, UnresolvedOnly)|
      ensures forall a <- alerts :: !a.resolved ==> n >= multiset(alerts)[a]
    {
      CountsBounded(alerts);
      UnresolvedCounts(alerts);
      |Unresolved(alerts)|
    }

    /** The "Critical" footer count: critical alerts not yet resolved. */
    function CriticalCount(): (n: nat)
      reads this
      ensures n <= UnresolvedCount()
      ensures n == |CriticalUnresolved(alerts)|
      ensures forall a <- alerts :: a.severity == Critical && !a.resolved ==> n >= multiset(alerts)[a]
    {
      CountsBounded(alerts);
      CriticalUnresolvedCounts(alerts);
      |CriticalUnresolved(alerts)|
    }
  }
}
