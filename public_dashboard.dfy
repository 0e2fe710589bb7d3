/**
 * The public screen: fetching the bins from the first data source that
 * answers, turning whatever shape each source sends into one bin record,
 * deriving a fill level from the ultrasonic distance, and the counters,
 * alert list and "last updated" text it shows.
 */
module PublicDashboard {

  import opened Wrappers
  import opened Text
  import opened Seqs

  // ---------------------------------------------------------------------
  // Fetching
  // ---------------------------------------------------------------------

  datatype RawLocation = RawLocation(address: Option<string>)

  /**
   * One bin as a source sends it, in any of the field spellings the screen
   * accepts. An absent field, `null` and `undefined` are all `None`.
   */
  datatype RawBin = RawBin(
    id: Option<string>, binId: Option<string>, mongoId: Option<string>,
    locationName: Option<string>, locationNameCamel: Option<string>, location: Option<RawLocation>,
    fillLevel: Option<int>, fillLevelCamel: Option<int>, level: Option<int>, distance: Option<int>,
    binType: Option<string>, binTypeCamel: Option<string>, wasteType: Option<string>,
    lastUpdated: Option<int>, lastUpdatedCamel: Option<int>, updatedAt: Option<int>,
    sensorDistance: Option<int>, sensorDistanceCamel: Option<int>,
    batteryLevel: Option<int>, batteryLevelCamel: Option<int>,
    status: Option<string>)

  /** The parsed JSON body of a successful response. */
  datatype Payload =
    | ArrayPayload(items: seq<RawBin>)
    | ObjectPayload(bins: Option<seq<RawBin>>, asBin: RawBin)
    | NullPayload

  /** A data source and what its fetch produced (`None`: it threw or answered non-OK). */
  datatype Source = Source(name: string, outcome: Option<Payload>)

  datatype Fetched = Fetched(data: seq<RawBin>, source: string)

  const AdminApi := "Admin API"
  const Esp32Direct := "ESP32 Direct"
  const AllSourcesFailed := "All data sources failed"

  /**
   * `Array.isArray(data) ? data : (data.bins || [data])`. An array passes
   * through, an object gives its `bins` (any array is truthy, even an empty
   * one) or else itself as the only bin; `null` makes `data.bins` throw,
   * which counts as that source failing.
   */
  function Normalize(p: Payload): (r: Option<seq<RawBin>>)
    ensures p.ArrayPayload? ==> r == Some(p.items)
    ensures p.ObjectPayload? && p.bins.Some? ==> r == Some(p.bins.value)
    ensures p.ObjectPayload? && p.bins.None? ==> r == Some([p.asBin])
    ensures r.None? <==> p.NullPayload?
  {
    match p
    case ArrayPayload(items) => Some(items)
    case ObjectPayload(bins, asBin) => if bins.Some? then Some(bins.value) else Some([asBin])
    case NullPayload => None
  }

  /** A source succeeds when its fetch answered and its body normalises. */
  predicate Succeeds(s: Source) {
    s.outcome.Some? && Normalize(s.outcome.value).Some?
  }

  /** The answer of the first source, in order, that succeeds; an error when none does. */
  function FirstSuccess(sources: seq<Source>): (r: Result<Fetched, string>)
    ensures r.Err? <==> forall i :: 0 <= i < |sources| ==> !Succeeds(sources[i])
    ensures r.Err? ==> r.error == AllSourcesFailed
    ensures r.Ok? ==> exists i :: && 0 <= i < |sources| && Succeeds(sources[i])
                                 && (forall j :: 0 <= j < i ==> !Succeeds(sources[j]))
                                 && r.value == Fetched(Normalize(sources[i].outcome.value).value, sources[i].name)
  {
    if sources == [] then Err(AllSourcesFailed)
    else if Succeeds(sources[0]) then
      Ok(Fetched(Normalize(sources[0].outcome.value).value, sources[0].name))
    else
      var r := FirstSuccess(sources[1..]);
      assert forall i :: 1 <= i < |sources| ==> sources[i] == sources[1..][i - 1];
      if r.Ok? then
        var i :| && 0 <= i < |sources[1..]| && Succeeds(sources[1..][i])
                 && (forall j :: 0 <= j < i ==> !Succeeds(sources[1..][j]))
                 && r.value == Fetched(Normalize(sources[1..][i].outcome.value).value, sources[1..][i].name);
        assert forall j :: 0 <= j < i + 1 ==> !Succeeds(sources[j]) by {
          forall j | 0 <= j < i + 1 ensures !Succeeds(sources[j]) {
            if j > 0 { assert sources[j] == sources[1..][j - 1]; }
          }
        }
        r
      else
        r
  }

  /**
   * `binsAPI.getAll`: try the admin API, then the sensor directly; return
   * the first answer with its source's name, or fail when both fail.
   */
  method GetAll(adminApi: Option<Payload>, esp32Direct: Option<Payload>) returns (r: Result<Fetched, string>)
    ensures r == FirstSuccess([Source(AdminApi, adminApi), Source(Esp32Direct, esp32Direct)])
  {
    var sources := [Source(AdminApi, adminApi), Source(Esp32Direct, esp32Direct)];
    var i := 0;
    while i < |sources|
      invariant 0 <= i <= |sources|
      invariant forall j :: 0 <= j < i ==> !Succeeds(sources[j])
    {
      var source := sources[i];
      if source.outcome.Some? {
        var bins := Normalize(source.outcome.value);
        if bins.Some? {
          return Ok(Fetched(bins.value, source.name));
        }
      }
      i := i + 1;
    }
    return Err(AllSourcesFailed);
  }

  /** When the admin API answers, the sensor is never asked. */
  lemma {:induction false} AdminApiPreferred(adminApi: Payload, esp32Direct: Option<Payload>)
    requires !adminApi.NullPayload?
    ensures var r := FirstSuccess([Source(AdminApi, Some(adminApi)), Source(Esp32Direct, esp32Direct)]);
            r.Ok? && r.value.source == AdminApi && Some(r.value.data) == Normalize(adminApi)
  {
    assert Succeeds(Source(AdminApi, Some(adminApi)));
  }

  // ---------------------------------------------------------------------
  // Fill level from the ultrasonic distance
  // ---------------------------------------------------------------------

  const BinHeight := 100
  const MaxDistance := 100

  /**
   * `calculateFillFromDistance` over whole centimetres: 0 for a missing,
   * zero, negative or out-of-range distance, otherwise the part of the
   * 100 cm bin the sensor does not see.
   */
  function FillFromDistance(distance: Option<int>): (r: int)
    ensures 0 <= r < 100
    ensures !TruthyNum(distance) || distance.value <= 0 || distance.value >= MaxDistance ==> r == 0
    ensures TruthyNum(distance) && 0 < distance.value < MaxDistance ==> r + distance.value == BinHeight
  {
    if !TruthyNum(distance) || distance.value <= 0 then 0
    else if distance.value >= MaxDistance then 0
    else 100 - distance.value
  }

  /** A closer echo never means a less full bin, inside the sensor's range. */
  lemma {:induction false} FillFromDistanceAntitone(d1: int, d2: int)
    requires 0 < d1 <= d2 < MaxDistance
    ensures FillFromDistance(Some(d1)) >= FillFromDistance(Some(d2))
  {
  }

  /**
   * The distance the simulated sensor reports for a level (100 - level,
   * or 100 for an empty bin) reads back as that level for 0..99.
   */
  lemma {:induction false} DistanceRoundTrip(level: int)
    requires 0 <= level < 100
    ensures FillFromDistance(Some(if level > 0 then 100 - level else 100)) == level
  {
  }

  /** A bin filled to the brim echoes at 0 cm, which reads as an empty bin. */
  lemma {:induction false} BrimFullReadsEmpty()
    ensures FillFromDistance(Some(100 - 100)) == 0
  {
  }

  // ---------------------------------------------------------------------
  // Mapping a source's bin to the screen's bin
  // ---------------------------------------------------------------------

  datatype PublicBin = PublicBin(
    id: string,
    locationName: string,
    fillLevel: int,
    binType: string,
    lastUpdated: int,
    sensorDistance: Option<int>,
    batteryLevel: int,
    status: string,
    dataSource: string)

  /** `a || b || ... || fallback` over optional strings: the first truthy one, else the fallback. */
  function FirstStr(xs: seq<Option<string>>, fallback: string): (r: string)
    ensures (forall i :: 0 <= i < |xs| ==> !TruthyStr(xs[i])) ==> r == fallback
    ensures forall i :: FirstTruthyStrAt(xs, i) ==> r == xs[i].value
  {
    if xs == [] then fallback
    else if TruthyStr(xs[0]) then xs[0].value
    else
      FirstTruthyStrTail(xs);
      FirstStr(xs[1..], fallback)
  }

  /** `xs[i]` is the first truthy entry of `xs`. */
  predicate FirstTruthyStrAt(xs: seq<Option<string>>, i: int) {
    0 <= i < |xs| && TruthyStr(xs[i]) && forall j :: 0 <= j < i ==> !TruthyStr(xs[j])
  }

  lemma {:induction false} FirstTruthyStrTail(xs: seq<Option<string>>)
    requires xs != [] && !TruthyStr(xs[0])
    ensures forall i :: 1 <= i < |xs| ==> xs[i] == xs[1..][i - 1]
    ensures forall i :: FirstTruthyStrAt(xs, i) ==> FirstTruthyStrAt(xs[1..], i - 1)
    ensures (forall i :: 0 <= i < |xs| ==> !TruthyStr(xs[i])) ==> forall i :: 0 <= i < |xs[1..]| ==> !TruthyStr(xs[1..][i])
  {
    forall i | FirstTruthyStrAt(xs, i) ensures FirstTruthyStrAt(xs[1..], i - 1) {
      assert forall j :: 0 <= j < i - 1 ==> xs[1..][j] == xs[j + 1];
    }
  }

  /** `a || b || ... || fallback` over optional numbers (0 is falsy too). */
  function FirstNum(xs: seq<Option<int>>, fallback: Option<int>): (r: Option<int>)
    ensures (forall i :: 0 <= i < |xs| ==> !TruthyNum(xs[i])) ==> r == fallback
    ensures forall i :: FirstTruthyNumAt(xs, i) ==> r == xs[i]
  {
    if xs == [] then fallback
    else if TruthyNum(xs[0]) then xs[0]
    else
      FirstTruthyNumTail(xs);
      FirstNum(xs[1..], fallback)
  }

  /** `xs[i]` is the first truthy entry of `xs`. */
  predicate FirstTruthyNumAt(xs: seq<Option<int>>, i: int) {
    0 <= i < |xs| && TruthyNum(xs[i]) && forall j :: 0 <= j < i ==> !TruthyNum(xs[j])
  }

  lemma {:induction false} FirstTruthyNumTail(xs: seq<Option<int>>)
    requires xs != [] && !TruthyNum(xs[0])
    ensures forall i :: 1 <= i < |xs| ==> xs[i] == xs[1..][i - 1]
    ensures forall i :: FirstTruthyNumAt(xs, i) ==> FirstTruthyNumAt(xs[1..], i - 1)
    ensures (forall i :: 0 <= i < |xs| ==> !TruthyNum(xs[i])) ==> forall i :: 0 <= i < |xs[1..]| ==> !TruthyNum(xs[1..][i])
  {
    forall i | FirstTruthyNumAt(xs, i) ensures FirstTruthyNumAt(xs[1..], i - 1) {
      assert forall j :: 0 <= j < i - 1 ==> xs[1..][j] == xs[j + 1];
    }
  }

  function AddressOf(b: RawBin): Option<string> {
    if b.location.Some? then b.location.value.address else None
  }

  /**
   * The `fill_level` line as written:
   * `parseInt(bin.fill_level || bin.fillLevel || bin.level || bin.distance ? calculateFillFromDistance(bin.distance) : 0)`.
   * The conditional operator binds loosest, so the `||` chain is only the
   * condition and the distance alone decides the value.
   */
  function MappedFillLevel(b: RawBin): int {
    if TruthyNum(b.fillLevel) || TruthyNum(b.fillLevelCamel) || TruthyNum(b.level) || TruthyNum(b.distance)
    then FillFromDistance(b.distance)
    else 0
  }

  /** The level a source reports is never shown: the mapped level is the distance's level. */
  lemma {:induction false} MappedFillIgnoresReportedLevel(b: RawBin)
    ensures MappedFillLevel(b) == FillFromDistance(b.distance)
    ensures 0 <= MappedFillLevel(b) < 100
  {
  }

  /** A bin that reports level 95 and no distance shows as empty. */
  lemma {:induction false} ReportedLevelWithoutDistance(b: RawBin)
    requires b.fillLevel == Some(95) && b.distance.None?
    ensures MappedFillLevel(b) == 0
  {
  }

  /** The placeholder id `BIN_${Date.now()}`. */
  function PlaceholderId(now: nat): string {
    "BIN_" + NatToString(now)
  }

  /** The `response.data.map(bin => ...)` callback of `loadBins`. */
  function ToPublicBin(b: RawBin, source: string, now: nat): (r: PublicBin)
    ensures r.id == FirstStr([b.id, b.binId, b.mongoId], PlaceholderId(now))
    ensures r.id != ""
    ensures r.locationName == FirstStr([b.locationName, b.locationNameCamel, AddressOf(b)], "ESP32 Sensor Location")
    ensures r.fillLevel == FillFromDistance(b.distance)
    ensures r.binType == FirstStr([b.binType, b.binTypeCamel, b.wasteType], "General Waste")
    ensures r.lastUpdated == FirstNum([b.lastUpdated, b.lastUpdatedCamel, b.updatedAt], Some(now)).value
    ensures r.sensorDistance == FirstNum([b.sensorDistance, b.sensorDistanceCamel, b.distance], None)
    ensures r.batteryLevel == FirstNum([b.batteryLevel, b.batteryLevelCamel], Some(85)).value
    ensures r.status == FirstStr([b.status], "active") && r.status != ""
    ensures r.dataSource == FirstStr([Some(source)], "unknown")
  {
    MappedFillIgnoresReportedLevel(b);
    PublicBin(
      FirstStr([b.id, b.binId, b.mongoId], PlaceholderId(now)),
      FirstStr([b.locationName, b.locationNameCamel, AddressOf(b)], "ESP32 Sensor Location"),
      MappedFillLevel(b),
      FirstStr([b.binType, b.binTypeCamel, b.wasteType], "General Waste"),
      FirstNum([b.lastUpdated, b.lastUpdatedCamel, b.updatedAt], Some(now)).value,
      FirstNum([b.sensorDistance, b.sensorDistanceCamel, b.distance], None),
      FirstNum([b.batteryLevel, b.batteryLevelCamel], Some(85)).value,
      FirstStr([b.status], "active"),
      FirstStr([Some(source)], "unknown"))
  }

  /** What `loadBins` does with the fetch: show the mapped bins, or fall back. */
  datatype LoadOutcome =
    | Loaded(bins: seq<PublicBin>, source: string)
    | UseFallback(rethrown: bool)

  function LoadBins(fetched: Result<Fetched, string>, now: nat): (r: LoadOutcome)
    ensures r.Loaded? <==> fetched.Ok? && |fetched.value.data| > 0
    ensures r.UseFallback? ==> (r.rethrown <==> fetched.Err?)
    ensures r.Loaded? ==> && r.source == fetched.value.source
                          && |r.bins| == |fetched.value.data|
                          && forall i :: 0 <= i < |r.bins| ==>
                               r.bins[i] == ToPublicBin(fetched.value.data[i], fetched.value.source, now)
  {
    if fetched.Err? then UseFallback(true)
    else if |fetched.value.data| == 0 then UseFallback(false)
    else
      var data := fetched.value.data;
      Loaded(seq(|data|, i requires 0 <= i < |data| => ToPublicBin(data[i], fetched.value.source, now)),
             fetched.value.source)
  }

  // ---------------------------------------------------------------------
  // Counters, alerts, "last updated", report check
  // ---------------------------------------------------------------------

  datatype QuickStats = QuickStats(totalBins: int, fullBins: int, nearFullBins: int, availableBins: int)

  predicate IsFull(b: PublicBin) { b.fillLevel >= 90 }
  predicate IsNearFull(b: PublicBin) { 70 <= b.fillLevel < 90 }
  predicate IsAvailable(b: PublicBin) { b.fillLevel < 50 }
  predicate AtLeastSeventy(b: PublicBin) { b.fillLevel >= 70 }

  /** `getQuickStats`. */
  function GetQuickStats(bins: seq<PublicBin>): (s: QuickStats)
    ensures s.totalBins == |bins|
    ensures s.fullBins == |Filter(bins, IsFull)| && s.nearFullBins == |Filter(bins, IsNearFull)|
    ensures s.availableBins == |Filter(bins, IsAvailable)|
  {
    QuickStats(|bins|, |Filter(bins, IsFull)|, |Filter(bins, IsNearFull)|, |Filter(bins, IsAvailable)|)
  }

  /** The three counts never overlap, so together they never exceed the total. */
  lemma {:induction false} QuickStatsDisjoint(bins: seq<PublicBin>)
    ensures var s := GetQuickStats(bins);
            s.fullBins + s.nearFullBins + s.availableBins <= s.totalBins
  {
    FilterDisjointUnion(bins, IsFull, IsNearFull, AtLeastSeventy);
    FilterDisjointCount(bins, AtLeastSeventy, IsAvailable);
  }

  function FillKey(b: PublicBin): Key {
    Key(b.fillLevel, 0)
  }

  predicate NeedsAttention(b: PublicBin) { b.fillLevel >= 80 }

  /** `getAlerts`: the bins at 80 or more, fullest first, ties in screen order. */
  function GetAlerts(bins: seq<PublicBin>): (r: seq<PublicBin>)
    ensures forall b :: b in r <==> b in bins && NeedsAttention(b)
    ensures multiset(r) == multiset(Filter(bins, NeedsAttention))
    ensures forall i, j :: 0 <= i < j < |r| ==> r[i].fillLevel >= r[j].fillLevel
    ensures forall k :: WithKey(r, FillKey, k) == WithKey(Filter(bins, NeedsAttention), FillKey, k)
  {
    var kept := Filter(bins, NeedsAttention);
    var r := SortDesc(kept, FillKey);
    assert forall b :: b in r <==> b in kept by {
      forall b ensures b in r <==> b in kept {
        assert b in r <==> b in multiset(r);
        assert b in kept <==> b in multiset(kept);
      }
    }
    assert forall i, j :: 0 <= i < j < |r| ==> AtLeast(FillKey(r[i]), FillKey(r[j]));
    r
  }

  /** How long ago the last update was, in the unit `formatLastUpdate` picks. */
  datatype Elapsed = Never | SecondsAgo(n: int) | MinutesAgo(n: int) | HoursAgo(n: int)

  /**
   * `formatLastUpdate` with the clock as a parameter: whole seconds since
   * the update (rounded down), shown in seconds below a minute, in whole
   * minutes below an hour, and in whole hours otherwise.
   */
  function FormatLastUpdate(lastUpdate: Option<int>, nowMs: int): (r: Elapsed)
    ensures r.Never? <==> lastUpdate.None?
    ensures lastUpdate.Some? ==>
              var diff := (nowMs - lastUpdate.value) / 1000;
              && diff * 1000 <= nowMs - lastUpdate.value < diff * 1000 + 1000
              && (r.SecondsAgo? <==> diff < 60) && (r.SecondsAgo? ==> r.n == diff)
              && (r.MinutesAgo? <==> 60 <= diff < 3600)
              && (r.MinutesAgo? ==> 1 <= r.n < 60 && r.n * 60 <= diff < r.n * 60 + 60)
              && (r.HoursAgo? <==> diff >= 3600)
              && (r.HoursAgo? ==> r.n >= 1 && r.n * 3600 <= diff < r.n * 3600 + 3600)
  {
    if lastUpdate.None? then Never
    else
      var diff := (nowMs - lastUpdate.value) / 1000;
      if diff < 60 then SecondsAgo(diff)
      else if diff < 3600 then MinutesAgo(diff / 60)
      else HoursAgo(diff / 3600)
  }

  /** The text shown: 'Never', or "<n> seconds|minutes|hours ago". */
  function ElapsedText(e: Elapsed): string {
    match e
    case Never => "Never"
    case SecondsAgo(n) => IntToString(n) + " seconds ago"
    case MinutesAgo(n) => IntToString(n) + " minutes ago"
    case HoursAgo(n) => IntToString(n) + " hours ago"
  }

  /** 59.999 s is still seconds, 60 s is one minute, 3600 s is one hour. */
  lemma {:induction false} FormatBoundaries(t: int)
    ensures FormatLastUpdate(Some(t), t + 59999) == SecondsAgo(59)
    ensures FormatLastUpdate(Some(t), t + 60000) == MinutesAgo(1)
    ensures FormatLastUpdate(Some(t), t + 3599999) == MinutesAgo(59)
    ensures FormatLastUpdate(Some(t), t + 3600000) == HoursAgo(1)
  {
  }

  /** `submitReport`'s check: the text must not be blank once trimmed. */
  function CanSubmitReport(reportText: string): (ok: bool)
    ensures ok <==> !AllWhitespace(reportText)
  {
    TrimEmptyIffBlank(reportText);
    Trim(reportText) != ""
  }

  // ---------------------------------------------------------------------
  // The screen's bins
  // ---------------------------------------------------------------------

  class PublicScreen {
    var bins: seq<PublicBin>
    var dataSource: string

    /** The initial state: no bins, and the source 'unknown'. */
    constructor ()
      ensures bins == [] && dataSource == "unknown"
    {
      bins := [];
      dataSource := "unknown";
    }

    /**
     * The state updates of `loadBins`: the mapped bins and their source, or
     * the fallback bins (generated at random by the screen; a parameter
     * here) with the source 'fallback'.
     */
    method ApplyLoad(fetched: Result<Fetched, string>, fallback: seq<PublicBin>, now: nat)
      returns (rethrown: bool)
      modifies this
      ensures var o := LoadBins(fetched, now);
              && (o.Loaded? ==> bins == o.bins && dataSource == o.source && !rethrown)
              && (o.UseFallback? ==> bins == fallback && dataSource == "fallback" && rethrown == o.rethrown)
    {
      var o := LoadBins(fetched, now);
      if o.Loaded? {
        bins := o.bins;
        dataSource := o.source;
        rethrown := false;
      } else {
        bins := fallback;
        dataSource := "fallback";
        rethrown := o.rethrown;
      }
    }

    /** `bins.sort((a, b) => b.fill_level - a.fill_level)` in the bins tab, which reorders the state itself. */
    method SortBinsForDisplay()
      modifies this
      ensures multiset(bins) == multiset(old(bins))
      ensures forall i, j :: 0 <= i < j < |bins| ==> bins[i].fillLevel >= bins[j].fillLevel
      ensures forall k :: WithKey(bins, FillKey, k) == WithKey(old(bins), FillKey, k)
      ensures dataSource == old(dataSource)
    {
      bins := SortDesc(bins, FillKey);
      assert forall i, j :: 0 <= i < j < |bins| ==> AtLeast(FillKey(bins[i]), FillKey(bins[j]));
    }
  }
}
