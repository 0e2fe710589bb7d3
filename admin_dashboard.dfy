/**
 * The administrator's screen: the bins and reports it holds, the live alert
 * feed fed by comparing two successive bin snapshots, the collection route
 * builder, and the dashboard counters and filters.
 *
 * The screen's state (bins, reports, the alert list and the alert counter)
 * lives in `AdminScreen`; the rules it applies are functions beside it.
 */
module AdminDashboard {

  import opened Wrappers
  import opened Text
  import opened Seqs

  /**
   * A bin as the admin screen holds it (one element of its `bins` state).
   * `address` is `bin.location.address`, absent when the bin has no
   * `location` (a bin the sensor upsert created); `area` may be absent too.
   */
  datatype AdminBin = AdminBin(
    binId: string,
    level: int,
    distance: Option<int>,
    address: Option<string>,
    area: Option<string>,
    wasteType: string,
    sensorStatus: string,
    lastUpdated: int,
    markedForCollection: bool,
    collectionScheduled: Option<int>)

  /**
   * A report as the admin screen holds it. `id` is absent on the reports the
   * server returns (they carry `_id`), and present on the built-in demo reports.
   */
  datatype AdminReport = AdminReport(
    id: Option<string>,
    reportType: string,
    status: string,
    resolvedAt: Option<int>)

  // ---------------------------------------------------------------------
  // Live alerts
  // ---------------------------------------------------------------------

  datatype AlertType = CriticalFull | Emergency | SensorWarning

  datatype AlertSeverity = CriticalSeverity | HighSeverity

  /** `${binId}_${Date.now()}`: the bin and the millisecond of the alert. */
  datatype AlertId = AlertId(binId: string, timestamp: int)

  datatype Alert = Alert(
    id: AlertId,
    binId: string,
    alertType: AlertType,
    level: int,
    location: string,
    timestamp: int,
    severity: AlertSeverity)

  /** The most alerts the feed keeps. */
  const MaxAlerts := 10

  /** An alert is 'critical' exactly when it is an EMERGENCY, otherwise 'high'. */
  function SeverityFor(t: AlertType): (s: AlertSeverity)
    ensures s == CriticalSeverity <==> t == Emergency
  {
    if t == Emergency then CriticalSeverity else HighSeverity
  }

  /**
   * The alert `triggerCriticalAlert(bin, t)` builds at time `now`. Reading
   * `bin.location.address` throws for a bin without a location, so only a
   * located bin gets an alert.
   */
  function MakeAlert(bin: AdminBin, t: AlertType, now: int): (a: Alert)
    requires bin.address.Some?
    ensures a.id == AlertId(bin.binId, now) && a.binId == bin.binId && a.alertType == t
    ensures a.level == bin.level && a.location == bin.address.value && a.timestamp == now
    ensures a.severity == SeverityFor(t)
  {
    Alert(AlertId(bin.binId, now), bin.binId, t, bin.level, bin.address.value, now, SeverityFor(t))
  }

  /** `[alert, ...prev.slice(0, 9)]`: the new alert first, then at most nine older ones. */
  function Push(prev: seq<Alert>, a: Alert): (r: seq<Alert>)
    ensures |r| == if |prev| < MaxAlerts then |prev| + 1 else MaxAlerts
    ensures r == ([a] + prev)[..|r|]
  {
    var kept := if |prev| < MaxAlerts - 1 then prev else prev[..MaxAlerts - 1];
    assert [a] + kept == ([a] + prev)[..|kept| + 1];
    [a] + kept
  }

  /** Pushes `xs` in order, each one onto the result of the previous pushes. */
  function PushAll(prev: seq<Alert>, xs: seq<Alert>): seq<Alert> {
    if xs == [] then prev
    else Push(PushAll(prev, xs[..|xs| - 1]), xs[|xs| - 1])
  }

  function Reverse<T>(s: seq<T>): (r: seq<T>)
    ensures |r| == |s|
    ensures forall i :: 0 <= i < |s| ==> r[i] == s[|s| - 1 - i]
  {
    if s == [] then [] else [s[|s| - 1]] + Reverse(s[..|s| - 1])
  }

  /**
   * After a run of pushes the feed holds the newest alerts first, then the
   * older feed, cut to ten entries (or fewer when there are fewer).
   */
  lemma {:induction false} PushAllNewestFirst(prev: seq<Alert>, xs: seq<Alert>)
    requires |prev| <= MaxAlerts
    ensures |PushAll(prev, xs)| == Min(MaxAlerts, |xs| + |prev|)
    ensures PushAll(prev, xs) == (Reverse(xs) + prev)[..Min(MaxAlerts, |xs| + |prev|)]
  {
    if xs != [] {
      var init, x := xs[..|xs| - 1], xs[|xs| - 1];
      PushAllNewestFirst(prev, init);
      var m := Min(MaxAlerts, |init| + |prev|);
      var inner := PushAll(prev, init);
      assert inner == (Reverse(init) + prev)[..m];
      assert Reverse(xs) == [x] + Reverse(init) by {
        assert xs[..|xs| - 1] == init;
      }
      var n := Min(MaxAlerts, |xs| + |prev|);
      calc {
        PushAll(prev, xs);
        Push(inner, x);
        ([x] + inner)[..n];
        ([x] + (Reverse(init) + prev)[..m])[..n];
        { assert [x] + (Reverse(init) + prev)[..m] == ([x] + Reverse(init) + prev)[..m + 1]; }
        ([x] + Reverse(init) + prev)[..m + 1][..n];
        (Reverse(xs) + prev)[..n];
      }
    }
  }

  function Min(a: int, b: int): int {
    if a < b then a else b
  }

  lemma {:induction false} PushAllSnoc(prev: seq<Alert>, xs: seq<Alert>, x: Alert)
    ensures PushAll(prev, xs + [x]) == Push(PushAll(prev, xs), x)
  {
    assert (xs + [x])[..|xs|] == xs;
  }

  /** Pushing two runs one after the other is pushing their concatenation. */
  lemma {:induction false} PushAllAppend(prev: seq<Alert>, xs: seq<Alert>, ys: seq<Alert>)
    ensures PushAll(prev, xs + ys) == PushAll(PushAll(prev, xs), ys)
  {
    if ys == [] {
      assert xs + ys == xs;
    } else {
      var init, y := ys[..|ys| - 1], ys[|ys| - 1];
      assert xs + ys == (xs + init) + [y];
      assert ys == init + [y];
      PushAllAppend(prev, xs, init);
      PushAllSnoc(prev, xs + init, y);
      PushAllSnoc(PushAll(prev, xs), init, y);
    }
  }

  /** `oldBins.find(b => b.binId === id)`: the first bin with that id. */
  function FindBin(bins: seq<AdminBin>, id: string): (r: Option<AdminBin>)
    ensures r.None? <==> forall b :: b in bins ==> b.binId != id
    ensures r.Some? ==> exists i :: 0 <= i < |bins| && bins[i] == r.value && r.value.binId == id
                                    && forall j :: 0 <= j < i ==> bins[j].binId != id
  {
    if bins == [] then None
    else if bins[0].binId == id then
      Some(bins[0])
    else
      var r := FindBin(bins[1..], id);
      assert forall b :: b in bins <==> b == bins[0] || b in bins[1..];
      if r.Some? then
        var i :| 0 <= i < |bins[1..]| && bins[1..][i] == r.value && r.value.binId == id
                 && forall j :: 0 <= j < i ==> bins[1..][j].binId != id;
        assert bins[i + 1] == r.value;
        assert forall j :: 0 <= j < i + 1 ==> bins[j].binId != id by {
          forall j | 0 <= j < i + 1 ensures bins[j].binId != id {
            if j > 0 { assert bins[j] == bins[1..][j - 1]; }
          }
        }
        r
      else
        r
  }

  /** The bin was below 90 in the old snapshot and is at or above 90 now. */
  predicate FiresCriticalFull(oldBins: seq<AdminBin>, nb: AdminBin) {
    var o := FindBin(oldBins, nb.binId);
    o.Some? && o.value.level < 90 && nb.level >= 90
  }

  /** The bin was below 95 in the old snapshot and is at or above 95 now. */
  predicate FiresEmergency(oldBins: seq<AdminBin>, nb: AdminBin) {
    var o := FindBin(oldBins, nb.binId);
    o.Some? && o.value.level < 95 && nb.level >= 95
  }

  predicate FiresSensorWarning(nb: AdminBin) {
    nb.sensorStatus == "warning"
  }

  function TypeRank(t: AlertType): int {
    match t
    case CriticalFull => 0
    case Emergency => 1
    case SensorWarning => 2
  }

  /**
   * The alert types `checkForCriticalAlerts` triggers for one new bin, in
   * trigger order: each fires exactly when its condition holds, none twice.
   */
  function Triggers(oldBins: seq<AdminBin>, nb: AdminBin): (r: seq<AlertType>)
    ensures CriticalFull in r <==> FiresCriticalFull(oldBins, nb)
    ensures Emergency in r <==> FiresEmergency(oldBins, nb)
    ensures SensorWarning in r <==> FiresSensorWarning(nb)
    ensures forall i, j :: 0 <= i < j < |r| ==> TypeRank(r[i]) < TypeRank(r[j])
  {
    (if FiresCriticalFull(oldBins, nb) then [CriticalFull] else [])
    + (if FiresEmergency(oldBins, nb) then [Emergency] else [])
    + (if FiresSensorWarning(nb) then [SensorWarning] else [])
  }

  /** The alerts built for the triggered types of one located bin, in trigger order. */
  function AlertsFor(nb: AdminBin, ts: seq<AlertType>, now: int): (r: seq<Alert>)
    requires ts == [] || nb.address.Some?
    ensures |r| == |ts|
    ensures forall i :: 0 <= i < |ts| ==> r[i] == MakeAlert(nb, ts[i], now)
  {
    if ts == [] then [] else AlertsFor(nb, ts[..|ts| - 1], now) + [MakeAlert(nb, ts[|ts| - 1], now)]
  }

  lemma {:induction false} AlertsForSnoc(nb: AdminBin, ts: seq<AlertType>, t: AlertType, now: int)
    requires nb.address.Some?
    ensures AlertsFor(nb, ts + [t], now) == AlertsFor(nb, ts, now) + [MakeAlert(nb, t, now)]
  {
    assert (ts + [t])[..|ts|] == ts;
  }

  /**
   * The callback for `nb` throws: one of its checks fires, and building
   * that alert reads the location the bin does not have.
   */
  predicate ThrowsOn(oldBins: seq<AdminBin>, nb: AdminBin) {
    Triggers(oldBins, nb) != [] && nb.address.None?
  }

  /** The alerts of one bin's callback when it does not throw. */
  function BinAlerts(oldBins: seq<AdminBin>, nb: AdminBin, now: int): seq<Alert> {
    if nb.address.Some? then AlertsFor(nb, Triggers(oldBins, nb), now) else []
  }

  /** What the callback for one new bin does: the alerts it pushes, and whether it throws. */
  datatype Callback = Callback(alerts: seq<Alert>, throws: bool)

  function CallbackFor(oldBins: seq<AdminBin>, nb: AdminBin, now: int): Callback {
    Callback(BinAlerts(oldBins, nb, now), ThrowsOn(oldBins, nb))
  }

  /** The callbacks of a pass, one per new bin, in order. */
  function Callbacks(oldBins: seq<AdminBin>, newBins: seq<AdminBin>, now: int): (cs: seq<Callback>)
    ensures |cs| == |newBins|
    ensures forall i :: 0 <= i < |newBins| ==> cs[i] == CallbackFor(oldBins, newBins[i], now)
  {
    seq(|newBins|, i requires 0 <= i < |newBins| => CallbackFor(oldBins, newBins[i], now))
  }

  /**
   * Where an evaluation pass stands: the alerts triggered so far, in
   * order, and whether a callback has thrown, which ends the `forEach`.
   */
  datatype PassOutcome = PassOutcome(alerts: seq<Alert>, threw: bool)

  /** The pass after one more callback: none runs once one has thrown. */
  function Step(p: PassOutcome, c: Callback): PassOutcome {
    if p.threw then p
    else if c.throws then PassOutcome(p.alerts, true)
    else PassOutcome(p.alerts + c.alerts, false)
  }

  /** The callbacks `cs` run in order. */
  function Run(cs: seq<Callback>): PassOutcome {
    if cs == [] then PassOutcome([], false) else Step(Run(cs[..|cs| - 1]), cs[|cs| - 1])
  }

  /** One evaluation pass of `checkForCriticalAlerts(oldBins, newBins)`. */
  function PassRun(oldBins: seq<AdminBin>, newBins: seq<AdminBin>, now: int): PassOutcome {
    Run(Callbacks(oldBins, newBins, now))
  }

  /** Running one more callback is one more step. */
  lemma {:induction false} RunSnoc(cs: seq<Callback>, i: int)
    requires 0 <= i < |cs|
    ensures Run(cs[..i + 1]) == Step(Run(cs[..i]), cs[i])
  {
    assert cs[..i + 1][..i] == cs[..i];
  }

  /**
   * One more callback of a pass that has not thrown: the pass throws when
   * the callback does, and otherwise the callback's alerts are pushed after
   * those of the pass so far.
   */
  lemma PassStep(oldBins: seq<AdminBin>, newBins: seq<AdminBin>, cs: seq<Callback>, i: int, now: int,
                 prev: seq<Alert>)
    requires cs == Callbacks(oldBins, newBins, now) && 0 <= i < |cs| && !Run(cs[..i]).threw
    ensures Run(cs[..i + 1]).threw == ThrowsOn(oldBins, newBins[i])
    ensures PushAll(prev, Run(cs[..i + 1]).alerts)
            == PushAll(PushAll(prev, Run(cs[..i]).alerts), BinAlerts(oldBins, newBins[i], now))
    ensures |Run(cs[..i + 1]).alerts| == |Run(cs[..i]).alerts| + |BinAlerts(oldBins, newBins[i], now)|
  {
    assert cs[i] == CallbackFor(oldBins, newBins[i], now);
    RunSnoc(cs, i);
    PushAllAppend(prev, Run(cs[..i]).alerts, cs[i].alerts);
  }

  /** A run throws exactly when one of its callbacks throws. */
  lemma {:induction false} RunThrowsIff(cs: seq<Callback>)
    ensures Run(cs).threw <==> exists i :: 0 <= i < |cs| && cs[i].throws
  {
    if cs != [] {
      var init := cs[..|cs| - 1];
      RunThrowsIff(init);
      assert forall i :: 0 <= i < |init| ==> init[i] == cs[i];
    }
  }

  /** Once a callback has thrown, the callbacks after it change nothing. */
  lemma {:induction false} RunThrewStays(front: seq<Callback>, back: seq<Callback>)
    requires Run(front).threw
    ensures Run(front + back) == Run(front)
  {
    if back != [] {
      var init := back[..|back| - 1];
      RunThrewStays(front, init);
      var all := front + back;
      assert all[..|all| - 1] == front + init;
    } else {
      assert front + back == front;
    }
  }

  /** A run that got to its end, or threw part-way, is over: the rest changes nothing. */
  lemma RunStopped(cs: seq<Callback>, i: int)
    requires 0 <= i <= |cs| && (i == |cs| || Run(cs[..i]).threw)
    ensures Run(cs) == Run(cs[..i])
  {
    if i < |cs| {
      RunThrewStays(cs[..i], cs[i..]);
      assert cs[..i] + cs[i..] == cs;
    } else {
      assert cs[..i] == cs;
    }
  }

  /** In a run that does not throw, every callback's alerts are there. */
  lemma {:induction false} RunComplete(cs: seq<Callback>, i: int, a: Alert)
    requires !Run(cs).threw && 0 <= i < |cs| && a in cs[i].alerts
    ensures a in Run(cs).alerts
  {
    var init := cs[..|cs| - 1];
    if i < |cs| - 1 {
      RunComplete(init, i, a);
    }
  }

  /** Every alert of a run comes from a callback that did not throw. */
  lemma {:induction false} RunSound(cs: seq<Callback>, a: Alert)
    requires a in Run(cs).alerts
    ensures exists i :: 0 <= i < |cs| && !cs[i].throws && a in cs[i].alerts
  {
    var init := cs[..|cs| - 1];
    if a in Run(init).alerts {
      RunSound(init, a);
      var i :| 0 <= i < |init| && !init[i].throws && a in init[i].alerts;
      assert cs[i] == init[i];
    }
  }

  /** A pass throws exactly when the callback of some new bin throws. */
  lemma {:induction false} PassRunThrowsIff(oldBins: seq<AdminBin>, newBins: seq<AdminBin>, now: int)
    ensures PassRun(oldBins, newBins, now).threw <==> exists i :: 0 <= i < |newBins| && ThrowsOn(oldBins, newBins[i])
  {
    var cs := Callbacks(oldBins, newBins, now);
    RunThrowsIff(cs);
    assert forall i :: 0 <= i < |newBins| ==> cs[i].throws == ThrowsOn(oldBins, newBins[i]);
  }

  /**
   * A bin without a location that crosses 90 ends the pass: it raises no
   * alert, and neither does any bin after it.
   */
  lemma {:induction false} UnlocatedCrossingEndsPass(oldBins: seq<AdminBin>, newBins: seq<AdminBin>, i: int, now: int)
    requires 0 <= i < |newBins| && newBins[i].address.None? && FiresCriticalFull(oldBins, newBins[i])
    ensures var p := PassRun(oldBins, newBins, now);
            p.threw && p.alerts == PassRun(oldBins, newBins[..i], now).alerts
  {
    var cs := Callbacks(oldBins, newBins, now);
    CrossingThrows(oldBins, newBins[i], now);
    assert cs[i] == CallbackFor(oldBins, newBins[i], now);
    CallbacksPrefix(oldBins, newBins, i, now);
    RunSnoc(cs, i);
    RunStopped(cs, i + 1);
  }

  /** The callback of an unlocated bin whose first check fires throws and pushes nothing. */
  lemma CrossingThrows(oldBins: seq<AdminBin>, nb: AdminBin, now: int)
    requires nb.address.None? && FiresCriticalFull(oldBins, nb)
    ensures CallbackFor(oldBins, nb, now).throws
  {
  }

  /** The callbacks of a prefix of the snapshot are the prefix of its callbacks. */
  lemma CallbacksPrefix(oldBins: seq<AdminBin>, newBins: seq<AdminBin>, i: int, now: int)
    requires 0 <= i <= |newBins|
    ensures Callbacks(oldBins, newBins[..i], now) == Callbacks(oldBins, newBins, now)[..i]
  {
  }

  /** Every alert of a pass is built from a located bin of the new snapshot whose condition fired. */
  lemma {:induction false} PassRunSound(oldBins: seq<AdminBin>, newBins: seq<AdminBin>, now: int, a: Alert)
    requires a in PassRun(oldBins, newBins, now).alerts
    ensures exists nb :: nb in newBins && nb.address.Some? && a == MakeAlert(nb, a.alertType, now)
                         && a.alertType in Triggers(oldBins, nb)
  {
    var cs := Callbacks(oldBins, newBins, now);
    RunSound(cs, a);
    var i :| 0 <= i < |cs| && !cs[i].throws && a in cs[i].alerts;
    assert cs[i] == CallbackFor(oldBins, newBins[i], now);
    BinAlertsSound(oldBins, newBins[i], now, a);
  }

  lemma {:induction false} BinAlertsSound(oldBins: seq<AdminBin>, nb: AdminBin, now: int, a: Alert)
    requires a in BinAlerts(oldBins, nb, now)
    ensures nb.address.Some? && a == MakeAlert(nb, a.alertType, now) && a.alertType in Triggers(oldBins, nb)
  {
    var mine := BinAlerts(oldBins, nb, now);
    var k :| 0 <= k < |mine| && mine[k] == a;
  }

  /**
   * In a pass that does not throw, every located new bin raises the alert
   * of each of its conditions that fired.
   */
  lemma {:induction false} PassRunComplete(oldBins: seq<AdminBin>, newBins: seq<AdminBin>, now: int,
                                           nb: AdminBin, t: AlertType)
    requires !PassRun(oldBins, newBins, now).threw
    requires nb in newBins && nb.address.Some? && t in Triggers(oldBins, nb)
    ensures MakeAlert(nb, t, now) in PassRun(oldBins, newBins, now).alerts
  {
    var cs := Callbacks(oldBins, newBins, now);
    var i :| 0 <= i < |newBins| && newBins[i] == nb;
    var ts := Triggers(oldBins, nb);
    var k :| 0 <= k < |ts| && ts[k] == t;
    assert cs[i].alerts[k] == MakeAlert(nb, t, now);
    RunComplete(cs, i, MakeAlert(nb, t, now));
  }

  /** 85 then 92: CRITICAL_FULL only. */
  lemma {:induction false} CrossingNinetyOnly(old85: AdminBin, new92: AdminBin)
    requires old85.level == 85 && new92.level == 92 && old85.binId == new92.binId
    requires new92.sensorStatus != "warning"
    ensures Triggers([old85], new92) == [CriticalFull]
  {
    assert FindBin([old85], new92.binId) == Some(old85);
  }

  /** 85 then 96: CRITICAL_FULL, then EMERGENCY. */
  lemma {:induction false} CrossingBothThresholds(old85: AdminBin, new96: AdminBin)
    requires old85.level == 85 && new96.level == 96 && old85.binId == new96.binId
    requires new96.sensorStatus != "warning"
    ensures Triggers([old85], new96) == [CriticalFull, Emergency]
  {
    assert FindBin([old85], new96.binId) == Some(old85);
  }

  /** 92 then 93: already critical, so no level alert. */
  lemma {:induction false} AlreadyCriticalNoAlert(old92: AdminBin, new93: AdminBin)
    requires old92.level == 92 && new93.level == 93 && old92.binId == new93.binId
    ensures CriticalFull !in Triggers([old92], new93) && Emergency !in Triggers([old92], new93)
  {
    assert FindBin([old92], new93.binId) == Some(old92);
  }

  /** A sensor warning fires even for a bin the old snapshot does not hold. */
  lemma {:induction false} WarningWithoutHistory(oldBins: seq<AdminBin>, nb: AdminBin)
    requires forall b :: b in oldBins ==> b.binId != nb.binId
    requires nb.sensorStatus == "warning"
    ensures Triggers(oldBins, nb) == [SensorWarning]
  {
  }

  /**
   * With one clock reading per pass, the two level alerts of one bin carry
   * the same id, so dismissing either removes both. (The program reads the
   * clock once per alert; its ids agree when both reads fall in the same
   * millisecond.)
   */
  lemma {:induction false} SamePassSameId(oldBins: seq<AdminBin>, nb: AdminBin, now: int)
    requires nb.address.Some?
    requires FiresCriticalFull(oldBins, nb) && FiresEmergency(oldBins, nb)
    ensures var alerts := AlertsFor(nb, Triggers(oldBins, nb), now);
            |alerts| >= 2 && alerts[0].id == alerts[1].id
            && WithoutAlert(alerts, alerts[0].id) == WithoutAlert(alerts[2..], alerts[0].id)
  {
    var ts := Triggers(oldBins, nb);
    assert ts[0] == CriticalFull && ts[1] == Emergency;
    var alerts := AlertsFor(nb, ts, now);
    var id := AlertId(nb.binId, now);
    assert alerts[0].id == id && alerts[1].id == id;
    assert alerts == [alerts[0], alerts[1]] + alerts[2..];
    WithoutAlertKeepsOrder([alerts[0], alerts[1]], alerts[2..], id);
    FilterNone([alerts[0], alerts[1]], KeepsAllBut(id));
  }

  /** The filter callback `a => a.id !== id`. */
  function KeepsAllBut(id: AlertId): Alert -> bool {
    (a: Alert) => a.id != id
  }

  /** `prev.filter(a => a.id !== id)`: dismissing, and the 30-second expiry. */
  function WithoutAlert(alerts: seq<Alert>, id: AlertId): (r: seq<Alert>)
    ensures forall a :: a in r <==> a in alerts && a.id != id
    ensures |r| <= |alerts|
  {
    Filter(alerts, KeepsAllBut(id))
  }

  /** Removing an alert keeps the others in their order, piece by piece. */
  lemma {:induction false} WithoutAlertKeepsOrder(front: seq<Alert>, back: seq<Alert>, id: AlertId)
    ensures WithoutAlert(front + back, id) == WithoutAlert(front, id) + WithoutAlert(back, id)
  {
    FilterAppend(front, back, KeepsAllBut(id));
  }

  /** Dismissing an id the feed does not hold changes nothing. */
  lemma {:induction false} WithoutAbsentAlert(alerts: seq<Alert>, id: AlertId)
    requires forall a :: a in alerts ==> a.id != id
    ensures WithoutAlert(alerts, id) == alerts
  {
    FilterAll(alerts, KeepsAllBut(id));
  }

  // ---------------------------------------------------------------------
  // Collection route
  // ---------------------------------------------------------------------

  datatype RoutePriority = RouteCritical | RouteHigh

  datatype RouteStop = RouteStop(bin: AdminBin, order: int, estimatedTime: int, priority: RoutePriority)

  /** Medical waste counts as 20 points fuller when ranking the route. */
  function Urgency(b: AdminBin): int {
    b.level + (if b.wasteType == "Medical Waste" then 20 else 0)
  }

  function UrgencyKey(b: AdminBin): Key {
    Key(Urgency(b), 0)
  }

  predicate NeedsCollection(b: AdminBin) {
    b.level >= 80
  }

  function StopBins(route: seq<RouteStop>): (r: seq<AdminBin>)
    ensures |r| == |route| && forall i :: 0 <= i < |route| ==> r[i] == route[i].bin
  {
    if route == [] then [] else [route[0].bin] + StopBins(route[1..])
  }

  /** Numbers the stops from `first`, 15 minutes each, CRITICAL at 90 or more. */
  function NumberStops(bins: seq<AdminBin>, first: int): (r: seq<RouteStop>)
    ensures |r| == |bins|
    ensures forall i :: 0 <= i < |bins| ==>
              r[i] == RouteStop(bins[i], first + i, (first + i) * 15,
                                if bins[i].level >= 90 then RouteCritical else RouteHigh)
  {
    if bins == [] then []
    else
      [RouteStop(bins[0], first, first * 15, if bins[0].level >= 90 then RouteCritical else RouteHigh)]
      + NumberStops(bins[1..], first + 1)
  }

  lemma {:induction false} StopsKeepBins(bins: seq<AdminBin>, first: int)
    ensures StopBins(NumberStops(bins, first)) == bins
  {
  }

  /** Two lists that are permutations of each other hold the same elements. */
  lemma {:induction false} SameMembers<T>(a: seq<T>, b: seq<T>)
    requires multiset(a) == multiset(b)
    ensures forall x :: x in a <==> x in b
  {
    forall x ensures x in a <==> x in b {
      assert x in a <==> x in multiset(a);
      assert x in b <==> x in multiset(b);
    }
  }

  /**
   * `generateOptimalRoute`: the bins at 80 or more, most urgent first (ties
   * in screen order), numbered from 1 with 15 minutes per stop.
   */
  function GenerateOptimalRoute(bins: seq<AdminBin>): (route: seq<RouteStop>)
    ensures forall b :: b in StopBins(route) <==> b in bins && NeedsCollection(b)
    ensures multiset(StopBins(route)) == multiset(Filter(bins, NeedsCollection))
    ensures SortedDesc(StopBins(route), UrgencyKey)
    ensures forall k :: WithKey(StopBins(route), UrgencyKey, k) == WithKey(Filter(bins, NeedsCollection), UrgencyKey, k)
    ensures forall i :: 0 <= i < |route| ==>
              && route[i].order == i + 1
              && route[i].estimatedTime == 15 * route[i].order
              && (route[i].priority == RouteCritical <==> route[i].bin.level >= 90)
    ensures route == [] <==> forall b :: b in bins ==> !NeedsCollection(b)
  {
    var route := NumberStops(SortDesc(Filter(bins, NeedsCollection), UrgencyKey), 1);
    RouteOrder(bins, route);
    RouteNumbering(bins, route);
    RouteEmptiness(bins, route);
    route
  }

  /** The route's bins: the full ones, in urgency order, ties in screen order. */
  lemma {:induction false} RouteOrder(bins: seq<AdminBin>, route: seq<RouteStop>)
    requires route == NumberStops(SortDesc(Filter(bins, NeedsCollection), UrgencyKey), 1)
    ensures forall b :: b in StopBins(route) <==> b in bins && NeedsCollection(b)
    ensures multiset(StopBins(route)) == multiset(Filter(bins, NeedsCollection))
    ensures SortedDesc(StopBins(route), UrgencyKey)
    ensures forall k :: WithKey(StopBins(route), UrgencyKey, k) == WithKey(Filter(bins, NeedsCollection), UrgencyKey, k)
  {
    var full := Filter(bins, NeedsCollection);
    var sorted := SortDesc(full, UrgencyKey);
    StopsKeepBins(sorted, 1);
    SameMembers(sorted, full);
  }

  /** Stops are numbered from 1, 15 minutes apart, CRITICAL at 90 or more. */
  lemma {:induction false} RouteNumbering(bins: seq<AdminBin>, route: seq<RouteStop>)
    requires route == NumberStops(SortDesc(Filter(bins, NeedsCollection), UrgencyKey), 1)
    ensures forall i :: 0 <= i < |route| ==>
              && route[i].order == i + 1
              && route[i].estimatedTime == 15 * route[i].order
              && (route[i].priority == RouteCritical <==> route[i].bin.level >= 90)
  {
  }

  /** The route is empty exactly when no bin needs collecting. */
  lemma {:induction false} RouteEmptiness(bins: seq<AdminBin>, route: seq<RouteStop>)
    requires route == NumberStops(SortDesc(Filter(bins, NeedsCollection), UrgencyKey), 1)
    ensures route == [] <==> forall b :: b in bins ==> !NeedsCollection(b)
  {
    var full := Filter(bins, NeedsCollection);
    if route == [] {
      assert full == [];
    } else {
      assert full != [];
      assert full[0] in full;
    }
  }

  /**
   * A medical-waste bin at 80 is on the route, and ahead of every general
   * bin at 95 on it.
   */
  lemma {:induction false} MedicalWasteFirst(bins: seq<AdminBin>, med: AdminBin, gen: AdminBin)
    requires med in bins && med.level == 80 && med.wasteType == "Medical Waste"
    requires gen.level == 95 && gen.wasteType == "General Waste"
    ensures var r := StopBins(GenerateOptimalRoute(bins));
            med in r && forall i, j :: 0 <= i < |r| && 0 <= j < |r| && r[i] == med && r[j] == gen ==> i < j
  {
    var r := StopBins(GenerateOptimalRoute(bins));
    assert Urgency(med) > Urgency(gen) by {
      assert "General Waste"[0] != "Medical Waste"[0];
    }
    MoreUrgentFirst(r, med, gen);
  }

  /** In a list sorted by urgency, a more urgent bin stands before a less urgent one. */
  lemma {:induction false} MoreUrgentFirst(r: seq<AdminBin>, x: AdminBin, y: AdminBin)
    requires SortedDesc(r, UrgencyKey) && Urgency(x) > Urgency(y)
    ensures forall i, j :: 0 <= i < |r| && 0 <= j < |r| && r[i] == x && r[j] == y ==> i < j
  {
    forall i, j | 0 <= i < |r| && 0 <= j < |r| && r[i] == x && r[j] == y ensures i < j {
      assert j < i ==> AtLeast(UrgencyKey(r[j]), UrgencyKey(r[i]));
    }
  }

  // ---------------------------------------------------------------------
  // Dashboard counters and filters
  // ---------------------------------------------------------------------

  datatype Stats = Stats(total: int, critical: int, full: int, available: int, pendingReports: int)

  predicate IsCriticalBin(b: AdminBin) { b.level >= 90 }
  predicate IsFullBin(b: AdminBin) { b.level >= 80 }
  predicate IsAvailableBin(b: AdminBin) { b.level < 50 }
  predicate IsPending(r: AdminReport) { r.status == "pending" }

  /** The dashboard tiles: totals and the bins at or past each threshold. */
  function DashboardStats(bins: seq<AdminBin>, reports: seq<AdminReport>): (s: Stats)
    ensures s.total == |bins|
    ensures s.critical == |Filter(bins, IsCriticalBin)| && s.full == |Filter(bins, IsFullBin)|
    ensures s.available == |Filter(bins, IsAvailableBin)|
    ensures s.pendingReports == |Filter(reports, IsPending)|
  {
    Stats(|bins|, |Filter(bins, IsCriticalBin)|, |Filter(bins, IsFullBin)|,
          |Filter(bins, IsAvailableBin)|, |Filter(reports, IsPending)|)
  }

  /** Every critical bin is also counted full, and full and available bins never overlap. */
  lemma {:induction false} StatsBounds(bins: seq<AdminBin>, reports: seq<AdminReport>)
    ensures var s := DashboardStats(bins, reports);
            0 <= s.critical <= s.full && s.full + s.available <= s.total
            && 0 <= s.pendingReports <= |reports|
  {
    FilterMonotoneCount(bins, IsCriticalBin, IsFullBin);
    FilterDisjointCount(bins, IsFullBin, IsAvailableBin);
  }

  /**
   * One call of the search callback with the lower-cased query `q`: the id
   * is tested first, then `bin.location.address`, then `bin.area`. Reading
   * a missing location or area throws (`None`).
   */
  function MatchOutcome(b: AdminBin, q: string): Option<bool> {
    if Includes(ToLower(b.binId), q) then Some(true)
    else if b.address.None? then None
    else if Includes(ToLower(b.address.value), q) then Some(true)
    else if b.area.None? then None
    else Some(Includes(ToLower(b.area.value), q))
  }

  predicate MatchesQuery(b: AdminBin, query: string) {
    MatchOutcome(b, ToLower(query)) == Some(true)
  }

  function Matching(query: string): AdminBin -> bool {
    (b: AdminBin) => MatchesQuery(b, query)
  }

  /**
   * The map tab's `bins.filter(...)`: the bins whose lower-cased id, address
   * or area contains the lower-cased query, or a failure (`None`) when the
   * callback throws for some bin.
   */
  function SearchBins(bins: seq<AdminBin>, query: string): (r: Option<seq<AdminBin>>)
    ensures var q := ToLower(query);
            r.None? <==> exists b :: b in bins && !Includes(ToLower(b.binId), q)
                                   && (b.address.None? || (!Includes(ToLower(b.address.value), q) && b.area.None?))
    ensures var q := ToLower(query);
            r.Some? ==> forall b :: b in r.value <==>
                          b in bins && (Includes(ToLower(b.binId), q)
                                        || (b.address.Some? && Includes(ToLower(b.address.value), q))
                                        || (b.area.Some? && Includes(ToLower(b.area.value), q)))
  {
    if exists b :: b in bins && MatchOutcome(b, ToLower(query)).None? then None
    else Some(Filter(bins, Matching(query)))
  }

  /** An empty search box shows every bin, whatever their locations. */
  lemma {:induction false} EmptySearchShowsAll(bins: seq<AdminBin>)
    ensures SearchBins(bins, "") == Some(bins)
  {
    forall b | b in bins ensures MatchOutcome(b, ToLower("")) == Some(true) {
      assert OccursAt(ToLower(b.binId), "", 0);
    }
    FilterAll(bins, Matching(""));
  }

  lemma {:induction false} LowerUpperChar(c: char)
    ensures LowerChar(UpperChar(c)) == LowerChar(c)
  {
  }

  /** The search ignores the case of the query's letters. */
  lemma {:induction false} SearchIgnoresCase(bins: seq<AdminBin>, query: string)
    ensures SearchBins(bins, ToUpper(query)) == SearchBins(bins, query)
  {
    var u := ToUpper(query);
    forall i | 0 <= i < |query| ensures ToLower(u)[i] == ToLower(query)[i] {
      LowerUpperChar(query[i]);
    }
    assert ToLower(u) == ToLower(query);
    FilterCongruent(bins, Matching(u), Matching(query));
  }

  /**
   * A bin without a location whose id does not contain the query makes the
   * whole search fail, whatever the other bins hold.
   */
  lemma {:induction false} UnlocatedBinBreaksSearch(bins: seq<AdminBin>, b: AdminBin, query: string)
    requires b in bins && b.address.None? && !Includes(ToLower(b.binId), ToLower(query))
    ensures SearchBins(bins, query).None?
  {
  }

  /** The reports tab filter: 'all' keeps every report, any other value keeps that status. */
  function FilterReports(reports: seq<AdminReport>, status: string): (r: seq<AdminReport>)
    ensures status == "all" ==> r == reports
    ensures status != "all" ==> forall x :: x in r <==> x in reports && x.status == status
  {
    if status == "all" then reports else Filter(reports, (x: AdminReport) => x.status == status)
  }

  // ---------------------------------------------------------------------
  // Element-wise updates of the bins and reports
  // ---------------------------------------------------------------------

  /** `bins.map(bin => bin.binId === binId ? {...bin, markedForCollection, collectionScheduled} : bin)`. */
  function MarkBins(bins: seq<AdminBin>, binId: string, now: int): (r: seq<AdminBin>)
    ensures |r| == |bins|
    ensures forall i :: 0 <= i < |bins| ==>
              if bins[i].binId == binId
              then r[i] == bins[i].(markedForCollection := true, collectionScheduled := Some(now))
              else r[i] == bins[i]
  {
    seq(|bins|, i requires 0 <= i < |bins| =>
      if bins[i].binId == binId
      then bins[i].(markedForCollection := true, collectionScheduled := Some(now))
      else bins[i])
  }

  /** Marking twice at the same moment is marking once. */
  lemma {:induction false} MarkBinsIdempotent(bins: seq<AdminBin>, binId: string, now: int)
    ensures MarkBins(MarkBins(bins, binId, now), binId, now) == MarkBins(bins, binId, now)
  {
  }

  /** `reports.map(r => r.id === reportId ? {...r, status: 'resolved', resolvedAt} : r)`. */
  function ResolveReports(reports: seq<AdminReport>, reportId: Option<string>, now: int)
    : (r: seq<AdminReport>)
    ensures |r| == |reports|
    ensures forall i :: 0 <= i < |reports| ==>
              if reports[i].id == reportId
              then r[i] == reports[i].(status := "resolved", resolvedAt := Some(now))
              else r[i] == reports[i]
  {
    seq(|reports|, i requires 0 <= i < |reports| =>
      if reports[i].id == reportId
      then reports[i].(status := "resolved", resolvedAt := Some(now))
      else reports[i])
  }

  /**
   * Reports loaded from the server carry no `id`, so resolving one of them
   * (whose `id` is undefined) resolves every report without an `id`.
   */
  lemma {:induction false} ResolveWithoutIdResolvesAllWithoutId(reports: seq<AdminReport>, now: int, i: int)
    requires 0 <= i < |reports| && reports[i].id.None?
    ensures ResolveReports(reports, None, now)[i].status == "resolved"
  {
  }

  /** Resolving leaves the number of pending reports no larger. */
  lemma {:induction false} ResolveNeverAddsPending(reports: seq<AdminReport>, reportId: Option<string>, now: int)
    ensures |Filter(ResolveReports(reports, reportId, now), IsPending)| <= |Filter(reports, IsPending)|
  {
    if reports != [] {
      var r := ResolveReports(reports, reportId, now);
      ResolveNeverAddsPending(reports[1..], reportId, now);
      assert r[1..] == ResolveReports(reports[1..], reportId, now);
      assert r == [r[0]] + r[1..];
    }
  }

  // ---------------------------------------------------------------------
  // The demo simulation step
  // ---------------------------------------------------------------------

  /**
   * One bin of `generateLiveSimulationData`, with the random draws as
   * parameters: a level change of -1, 0 or +1 clamped to 0..100, the
   * distance recomputed from the level, and the sensor state.
   */
  function SimulateBin(b: AdminBin, change: int, warning: bool, now: int): (r: AdminBin)
    requires -1 <= change <= 1
    ensures 0 <= r.level <= 100
    ensures 0 <= b.level <= 100 ==> -1 <= r.level - b.level <= 1
    ensures r.distance == Some(100 - r.level) || (r.level == 0 && r.distance == Some(100))
    ensures r.sensorStatus == (if warning then "warning" else "active")
    ensures r.binId == b.binId && r.address == b.address && r.lastUpdated == now
  {
    var level := if b.level + change < 0 then 0 else if b.level + change > 100 then 100 else b.level + change;
    b.(level := level, lastUpdated := now,
       distance := Some(if level > 0 then 100 - level else 100),
       sensorStatus := if warning then "warning" else "active")
  }

  /** `generateLiveSimulationData`: every bin of `bins` stepped with its own draws. */
  function SimulateBins(bins: seq<AdminBin>, changes: seq<int>, warnings: seq<bool>, now: int): (r: seq<AdminBin>)
    requires |changes| == |bins| && |warnings| == |bins|
    requires forall i :: 0 <= i < |changes| ==> -1 <= changes[i] <= 1
    ensures |r| == |bins|
    ensures forall i :: 0 <= i < |bins| ==> r[i] == SimulateBin(bins[i], changes[i], warnings[i], now)
  {
    seq(|bins|, i requires 0 <= i < |bins| => SimulateBin(bins[i], changes[i], warnings[i], now))
  }

  /**
   * What one tick of the live interval does: the alerts it triggers, in
   * order, and the bins it stores (`None`: `setBins` is not reached).
   */
  datatype TickOutcome = TickOutcome(alerts: seq<Alert>, stored: Option<seq<AdminBin>>)

  /**
   * One tick, `loadBinsDataWithAlerts`, whose closure holds the bins `snap`
   * of the render where LIVE was switched on. A fetched list (`fetched`)
   * is checked against `snap` and stored unless the check throws. A failed
   * fetch, or a throw, falls into the catch path: the simulation `sim` of
   * `snap` is checked against `snap` and stored unless that check throws
   * too, which ends the tick.
   */
  function Tick(snap: seq<AdminBin>, fetched: Option<seq<AdminBin>>, sim: seq<AdminBin>, now: int): TickOutcome {
    var first := if fetched.Some? then PassRun(snap, fetched.value, now) else PassOutcome([], true);
    if !first.threw then TickOutcome(first.alerts, fetched)
    else
      var second := PassRun(snap, sim, now);
      TickOutcome(first.alerts + second.alerts, if second.threw then None else Some(sim))
  }

  /**
   * Every tick compares with the snapshot, not with the previous tick's
   * bins: a bin below 90 in the snapshot and fetched at 90 or more raises
   * CRITICAL_FULL on every tick whose check does not throw.
   */
  lemma {:induction false} TickRefiresAgainstSnapshot(snap: seq<AdminBin>, fetched: seq<AdminBin>, sim: seq<AdminBin>,
                                                      now: int, nb: AdminBin)
    requires !PassRun(snap, fetched, now).threw
    requires nb in fetched && nb.address.Some? && nb.level >= 90
    requires FindBin(snap, nb.binId).Some? && FindBin(snap, nb.binId).value.level < 90
    ensures var t := Tick(snap, Some(fetched), sim, now);
            MakeAlert(nb, CriticalFull, now) in t.alerts && t.stored == Some(fetched)
  {
    PassRunComplete(snap, fetched, now, nb, CriticalFull);
  }

  /**
   * A fetched list holding an unlocated bin that crosses 90 is never
   * stored: the tick stores the simulation of the snapshot instead, or
   * nothing.
   */
  lemma {:induction false} UnlocatedCrossingFallsBack(snap: seq<AdminBin>, fetched: seq<AdminBin>, sim: seq<AdminBin>,
                                                      now: int, i: int)
    requires 0 <= i < |fetched| && fetched[i].address.None? && FiresCriticalFull(snap, fetched[i])
    ensures var t := Tick(snap, Some(fetched), sim, now);
            t.stored != Some(fetched) && (t.stored == Some(sim) <==> !PassRun(snap, sim, now).threw)
  {
    PassRunThrowsIff(snap, fetched, now);
  }

  // ---------------------------------------------------------------------
  // The screen's state
  // ---------------------------------------------------------------------

  class AdminScreen {
    var bins: seq<AdminBin>
    var reports: seq<AdminReport>
    var realTimeAlerts: seq<Alert>
    var criticalAlertCount: int
    /**
     * The `bins` of the render in which LIVE monitoring was switched on: the
     * interval callback, and every function it reaches, keeps that value.
     */
    var monitorSnapshot: seq<AdminBin>

    /** The feed never holds more than ten alerts. */
    predicate Valid()
      reads this
    {
      |realTimeAlerts| <= MaxAlerts
    }

    constructor ()
      ensures Valid()
      ensures bins == [] && reports == [] && realTimeAlerts == [] && criticalAlertCount == 0
      ensures monitorSnapshot == []
    {
      bins := [];
      reports := [];
      realTimeAlerts := [];
      criticalAlertCount := 0;
      monitorSnapshot := [];
    }

    /** `triggerCriticalAlert` for a located bin: push the alert and count it. */
    method TriggerCriticalAlert(bin: AdminBin, t: AlertType, now: int)
      requires Valid() && bin.address.Some?
      modifies this
      ensures Valid()
      ensures realTimeAlerts == Push(old(realTimeAlerts), MakeAlert(bin, t, now))
      ensures realTimeAlerts[0] == MakeAlert(bin, t, now)
      ensures criticalAlertCount == old(criticalAlertCount) + 1
      ensures bins == old(bins) && reports == old(reports) && monitorSnapshot == old(monitorSnapshot)
    {
      realTimeAlerts := Push(realTimeAlerts, MakeAlert(bin, t, now));
      criticalAlertCount := criticalAlertCount + 1;
    }

    /**
     * `checkForCriticalAlerts(oldBins, newBins)`: for each new bin in turn,
     * trigger its alerts, until a callback throws. The feed ends as the
     * pass's alerts pushed in order, the counter grows by their number, and
     * `threw` reports the exception.
     */
    method CheckForCriticalAlerts(oldBins: seq<AdminBin>, newBins: seq<AdminBin>, now: int) returns (threw: bool)
      requires Valid()
      modifies this
      ensures Valid()
      ensures realTimeAlerts == PushAll(old(realTimeAlerts), PassRun(oldBins, newBins, now).alerts)
      ensures criticalAlertCount == old(criticalAlertCount) + |PassRun(oldBins, newBins, now).alerts|
      ensures threw == PassRun(oldBins, newBins, now).threw
      ensures bins == old(bins) && reports == old(reports) && monitorSnapshot == old(monitorSnapshot)
    {
      ghost var cs := Callbacks(oldBins, newBins, now);
      var i := 0;
      threw := false;
      while i < |newBins| && !threw
        invariant 0 <= i <= |newBins|
        invariant Valid()
        invariant threw == Run(cs[..i]).threw
        invariant realTimeAlerts == PushAll(old(realTimeAlerts), Run(cs[..i]).alerts)
        invariant criticalAlertCount == old(criticalAlertCount) + |Run(cs[..i]).alerts|
        invariant bins == old(bins) && reports == old(reports) && monitorSnapshot == old(monitorSnapshot)
      {
        PassStep(oldBins, newBins, cs, i, now, old(realTimeAlerts));
        threw := CheckBin(oldBins, newBins[i], now);
        i := i + 1;
      }
      RunStopped(cs, i);
    }

    /**
     * The `forEach` callback of `checkForCriticalAlerts`: the three checks
     * for one new bin. `threw` when a check fires for a bin without a
     * location; the alerts of a located bin are pushed and counted.
     */
    method CheckBin(oldBins: seq<AdminBin>, nb: AdminBin, now: int) returns (threw: bool)
      requires Valid()
      modifies this
      ensures Valid()
      ensures threw == ThrowsOn(oldBins, nb)
      ensures realTimeAlerts == PushAll(old(realTimeAlerts), BinAlerts(oldBins, nb, now))
      ensures criticalAlertCount == old(criticalAlertCount) + |BinAlerts(oldBins, nb, now)|
      ensures bins == old(bins) && reports == old(reports) && monitorSnapshot == old(monitorSnapshot)
    {
      ghost var before, count := realTimeAlerts, criticalAlertCount;
      ghost var full: seq<AlertType> := if FiresCriticalFull(oldBins, nb) then [CriticalFull] else [];
      assert [] + full == full;
      threw := CheckTrigger(nb, CriticalFull, FiresCriticalFull(oldBins, nb), now, before, count, []);
      if !threw {
        threw := CheckSecondTrigger(oldBins, nb, now, before, count, full);
      }
    }

    /** The second check of the callback, once the first has not thrown. */
    method CheckSecondTrigger(oldBins: seq<AdminBin>, nb: AdminBin, now: int,
                              ghost before: seq<Alert>, ghost count: int, ghost full: seq<AlertType>)
      returns (threw: bool)
      requires Valid() && full == (if FiresCriticalFull(oldBins, nb) then [CriticalFull] else [])
      requires full == [] || nb.address.Some?
      requires realTimeAlerts == PushAll(before, AlertsFor(nb, full, now))
      requires criticalAlertCount == count + |full|
      modifies this
      ensures Valid()
      ensures threw == ThrowsOn(oldBins, nb)
      ensures realTimeAlerts == PushAll(before, BinAlerts(oldBins, nb, now))
      ensures criticalAlertCount == count + |BinAlerts(oldBins, nb, now)|
      ensures bins == old(bins) && reports == old(reports) && monitorSnapshot == old(monitorSnapshot)
    {
      ghost var emergency: seq<AlertType> := if FiresEmergency(oldBins, nb) then [Emergency] else [];
      assert Triggers(oldBins, nb) == full + emergency + (if FiresSensorWarning(nb) then [SensorWarning] else []);
      threw := CheckTrigger(nb, Emergency, FiresEmergency(oldBins, nb), now, before, count, full);
      if threw {
        assert BinAlerts(oldBins, nb, now) == [] == AlertsFor(nb, full, now);
      } else {
        threw := CheckLastTrigger(oldBins, nb, now, before, count, full + emergency);
      }
    }

    /** The third check of the callback, once the first two have not thrown. */
    method CheckLastTrigger(oldBins: seq<AdminBin>, nb: AdminBin, now: int,
                            ghost before: seq<Alert>, ghost count: int, ghost fired: seq<AlertType>)
      returns (threw: bool)
      requires Valid() && fired + (if FiresSensorWarning(nb) then [SensorWarning] else []) == Triggers(oldBins, nb)
      requires fired == [] || nb.address.Some?
      requires realTimeAlerts == PushAll(before, AlertsFor(nb, fired, now))
      requires criticalAlertCount == count + |fired|
      modifies this
      ensures Valid()
      ensures threw == ThrowsOn(oldBins, nb)
      ensures realTimeAlerts == PushAll(before, BinAlerts(oldBins, nb, now))
      ensures criticalAlertCount == count + |BinAlerts(oldBins, nb, now)|
      ensures bins == old(bins) && reports == old(reports) && monitorSnapshot == old(monitorSnapshot)
    {
      threw := CheckTrigger(nb, SensorWarning, FiresSensorWarning(nb), now, before, count, fired);
      if threw {
        assert BinAlerts(oldBins, nb, now) == [] == AlertsFor(nb, fired, now);
      }
    }

    /**
     * One `if` of the callback: when its condition holds, trigger the alert,
     * which throws for a bin without a location. Stated against the alerts
     * the callback has triggered so far.
     */
    method CheckTrigger(nb: AdminBin, t: AlertType, fires: bool, now: int,
                        ghost before: seq<Alert>, ghost count: int, ghost fired: seq<AlertType>)
      returns (threw: bool)
      requires Valid() && (fired == [] || nb.address.Some?)
      requires realTimeAlerts == PushAll(before, AlertsFor(nb, fired, now))
      requires criticalAlertCount == count + |fired|
      modifies this
      ensures Valid()
      ensures threw <==> fires && nb.address.None?
      ensures threw ==> realTimeAlerts == old(realTimeAlerts) && criticalAlertCount == old(criticalAlertCount)
      ensures !threw ==> realTimeAlerts == PushAll(before, AlertsFor(nb, fired + (if fires then [t] else []), now))
      ensures !threw ==> criticalAlertCount == count + |fired + (if fires then [t] else [])|
      ensures bins == old(bins) && reports == old(reports) && monitorSnapshot == old(monitorSnapshot)
    {
      threw := false;
      if fires {
        if nb.address.None? {
          threw := true;
        } else {
          PushAllSnoc(before, AlertsFor(nb, fired, now), MakeAlert(nb, t, now));
          AlertsForSnoc(nb, fired, t, now);
          TriggerCriticalAlert(nb, t, now);
        }
      } else {
        assert fired + [] == fired;
      }
    }

    /** Switching LIVE on: the interval set up now keeps the bins of this render. */
    method StartMonitoring()
      requires Valid()
      modifies this
      ensures Valid()
      ensures monitorSnapshot == old(bins)
      ensures bins == old(bins) && reports == old(reports)
      ensures realTimeAlerts == old(realTimeAlerts) && criticalAlertCount == old(criticalAlertCount)
    {
      monitorSnapshot := bins;
    }

    /**
     * One tick of the live interval, `loadBinsDataWithAlerts`. `fetched` is
     * the list the server returned (`None` when the fetch failed); `changes`
     * and `warnings` are the simulation's random draws, one per bin of the
     * snapshot. Both checks compare with the snapshot, and the simulation
     * steps the snapshot.
     */
    method LoadBinsWithAlerts(fetched: Option<seq<AdminBin>>, changes: seq<int>, warnings: seq<bool>, now: int)
      requires Valid()
      requires |changes| == |monitorSnapshot| && |warnings| == |monitorSnapshot|
      requires forall i :: 0 <= i < |changes| ==> -1 <= changes[i] <= 1
      modifies this
      ensures Valid()
      ensures var t := Tick(old(monitorSnapshot), fetched, SimulateBins(old(monitorSnapshot), changes, warnings, now), now);
              && realTimeAlerts == PushAll(old(realTimeAlerts), t.alerts)
              && criticalAlertCount == old(criticalAlertCount) + |t.alerts|
              && bins == (if t.stored.Some? then t.stored.value else old(bins))
      ensures reports == old(reports) && monitorSnapshot == old(monitorSnapshot)
    {
      var threw := true;
      if fetched.Some? {
        threw := CheckForCriticalAlerts(monitorSnapshot, fetched.value, now);
        if !threw {
          bins := fetched.value;
          return;
        }
      }
      ghost var first := if fetched.Some? then PassRun(monitorSnapshot, fetched.value, now).alerts else [];
      ghost var mid := realTimeAlerts;
      assert mid == PushAll(old(realTimeAlerts), first);
      var sim := SimulateBins(monitorSnapshot, changes, warnings, now);
      threw := CheckForCriticalAlerts(monitorSnapshot, sim, now);
      PushAllAppend(old(realTimeAlerts), first, PassRun(monitorSnapshot, sim, now).alerts);
      if !threw {
        bins := sim;
      }
    }

    /**
     * "Take Action" on a level alert: the `markForCollection` of the
     * interval's render, which maps the snapshot's bins, not the held ones.
     */
    method MarkFromAlert(binId: string, now: int)
      requires Valid()
      modifies this
      ensures Valid()
      ensures bins == MarkBins(old(monitorSnapshot), binId, now)
      ensures reports == old(reports) && monitorSnapshot == old(monitorSnapshot)
      ensures realTimeAlerts == old(realTimeAlerts) && criticalAlertCount == old(criticalAlertCount)
    {
      bins := MarkBins(monitorSnapshot, binId, now);
    }

    /** `dismissAlert(id)`. */
    method DismissAlert(id: AlertId)
      requires Valid()
      modifies this
      ensures Valid()
      ensures realTimeAlerts == WithoutAlert(old(realTimeAlerts), id)
      ensures criticalAlertCount == old(criticalAlertCount)
      ensures bins == old(bins) && reports == old(reports) && monitorSnapshot == old(monitorSnapshot)
    {
      realTimeAlerts := WithoutAlert(realTimeAlerts, id);
    }

    /** The 30-second timer of an alert: the same removal as a dismissal. */
    method ExpireAlert(id: AlertId)
      requires Valid()
      modifies this
      ensures Valid()
      ensures realTimeAlerts == WithoutAlert(old(realTimeAlerts), id)
      ensures criticalAlertCount == old(criticalAlertCount)
      ensures bins == old(bins) && reports == old(reports) && monitorSnapshot == old(monitorSnapshot)
    {
      realTimeAlerts := WithoutAlert(realTimeAlerts, id);
    }

    /** The settings tab's "Clear All Alerts". */
    method ClearAlerts()
      modifies this
      ensures Valid()
      ensures realTimeAlerts == [] && criticalAlertCount == 0
      ensures bins == old(bins) && reports == old(reports) && monitorSnapshot == old(monitorSnapshot)
    {
      realTimeAlerts := [];
      criticalAlertCount := 0;
    }

    /** `markForCollection(binId)` once confirmed. */
    method MarkForCollection(binId: string, now: int)
      requires Valid()
      modifies this
      ensures Valid()
      ensures bins == MarkBins(old(bins), binId, now)
      ensures reports == old(reports) && realTimeAlerts == old(realTimeAlerts)
      ensures criticalAlertCount == old(criticalAlertCount) && monitorSnapshot == old(monitorSnapshot)
    {
      bins := MarkBins(bins, binId, now);
    }

    /** `resolveReport(reportId)` once confirmed. */
    method ResolveReport(reportId: Option<string>, now: int)
      requires Valid()
      modifies this
      ensures Valid()
      ensures reports == ResolveReports(old(reports), reportId, now)
      ensures bins == old(bins) && realTimeAlerts == old(realTimeAlerts)
      ensures criticalAlertCount == old(criticalAlertCount) && monitorSnapshot == old(monitorSnapshot)
    {
      reports := ResolveReports(reports, reportId, now);
    }
  }
}
