/**
 * The Bin document: one physical bin, its location, last reported fill
 * level and sensor sample. The Mongoose schema normalises the identifier
 * (trimmed, upper-cased), bounds the coordinates and the level, and fills in
 * defaults; `ValidBin` is what a document that passed the schema satisfies.
 */
module BinSchema {

  import opened Wrappers
  import opened Text

  datatype WasteType = GeneralWaste | Recyclable | MedicalWaste | Organic

  function WasteTypeName(t: WasteType): string {
    match t
    case GeneralWaste => "General Waste"
    case Recyclable => "Recyclable"
    case MedicalWaste => "Medical Waste"
    case Organic => "Organic"
  }

  /** The schema's enum check on `type`: only the four listed names are accepted. */
  function ParseWasteType(s: string): (r: Option<WasteType>)
    ensures r.Some? ==> WasteTypeName(r.value) == s
    ensures forall t :: s == WasteTypeName(t) ==> r == Some(t)
  {
    if s == "General Waste" then Some(GeneralWaste)
    else if s == "Recyclable" then Some(Recyclable)
    else if s == "Medical Waste" then Some(MedicalWaste)
    else if s == "Organic" then Some(Organic)
    else None
  }

  datatype BinStatus = Active | Inactive | Maintenance


  datatype Location = Location(latitude: real, longitude: real, address: string)

  /** The embedded last sensor sample; every field is optional. */
  datatype SensorData = SensorData(
    rawDistance: Option<int>,
    calculatedLevel: Option<int>,
    timestamp: Option<int>,
    batteryLevel: Option<int>,
    signalStrength: Option<int>)

  /**
   * A stored bin. `location` and `area` are required by the schema but are
   * absent from a document created by the sensor upsert, which does not run
   * the schema's validators; hence `Option`.
   */
  datatype BinDoc = BinDoc(
    binId: string,
    location: Option<Location>,
    level: int,
    distance: Option<int>,
    area: Option<string>,
    capacity: int,
    wasteType: WasteType,
    status: BinStatus,
    lastUpdated: int,
    lastCollected: Option<int>,
    sensorData: Option<SensorData>,
    collectionSchedule: string)

  /**
   * The `trim` and `uppercase` setters on `binId`: the part of `raw` between
   * its leading and trailing white space, letter by letter upper-cased.
   */
  function NormalizeBinId(raw: string): (r: string)
    ensures var i := LeadingWhitespace(raw);
            && i + |r| <= |raw|
            && (forall k :: 0 <= k < |r| ==> r[k] == UpperChar(raw[i + k]))
            && forall k :: 0 <= k < |raw| && !(i <= k < i + |r|) ==> IsWhitespace(raw[k])
    ensures r == [] || (!IsWhitespace(r[0]) && !IsWhitespace(r[|r| - 1]))
    ensures forall i :: 0 <= i < |r| ==> !('a' <= r[i] <= 'z')
  {
    NormalizeBinIdShape(raw);
    NormalizeBinIdContent(raw);
    ToUpper(Trim(raw))
  }

  lemma {:induction false} NormalizeBinIdContent(raw: string)
    ensures var i, r := LeadingWhitespace(raw), ToUpper(Trim(raw));
            && i + |r| <= |raw|
            && (forall k :: 0 <= k < |r| ==> r[k] == UpperChar(raw[i + k]))
            && forall k :: 0 <= k < |raw| && !(i <= k < i + |r|) ==> IsWhitespace(raw[k])
  {
    var i, t := LeadingWhitespace(raw), Trim(raw);
    assert forall k :: 0 <= k < |t| ==> t[k] == raw[i + k];
  }

  lemma {:induction false} NormalizeBinIdShape(raw: string)
    ensures var r := ToUpper(Trim(raw));
            (r == [] || (!IsWhitespace(r[0]) && !IsWhitespace(r[|r| - 1])))
            && forall i :: 0 <= i < |r| ==> !('a' <= r[i] <= 'z')
  {
    var t := Trim(raw);
    var r := ToUpper(t);
    if t != [] {
      UpperCharKeepsWhitespace(t[0]);
      UpperCharKeepsWhitespace(t[|t| - 1]);
    }
    forall i | 0 <= i < |r| ensures !('a' <= r[i] <= 'z') {
      UpperCharNotLower(t[i]);
    }
  }

  lemma {:induction false} UpperCharNotLower(c: char)
    ensures !('a' <= UpperChar(c) <= 'z')
  {
  }

  /** Normalising an identifier that is already normalised changes nothing. */
  lemma {:induction false} NormalizeBinIdIdempotent(raw: string)
    ensures NormalizeBinId(NormalizeBinId(raw)) == NormalizeBinId(raw)
  {
    var t := Trim(raw);
    TrimToUpper(t);
    TrimIdempotent(raw);
    ToUpperIdempotent(t);
  }

  /** A string field with `trim: true, required: true`: stored trimmed and not empty. */
  predicate TrimmedNonEmpty(s: string) {
    s != "" && IsTrimmed(s)
  }

  /** What the `binId` setters leave: no white space at either end and no lower-case letter. */
  predicate IsNormalBinId(s: string) {
    IsTrimmed(s) && forall i :: 0 <= i < |s| ==> !('a' <= s[i] <= 'z')
  }

  /** The setters leave an identifier unchanged exactly when it is already in normal form. */
  lemma {:induction false} NormalBinIdIsFixpoint(s: string)
    ensures NormalizeBinId(s) == s <==> IsNormalBinId(s)
  {
    if IsNormalBinId(s) {
      NormalBinIdIsKept(s);
    }
  }

  lemma NormalBinIdIsKept(s: string)
    requires IsNormalBinId(s)
    ensures ToUpper(Trim(s)) == s
  {
    TrimFixesExactlyTrimmed(s);
    assert forall i :: 0 <= i < |s| ==> UpperChar(s[i]) == s[i];
  }

  predicate ValidLocation(l: Location) {
    -90.0 <= l.latitude <= 90.0 && -180.0 <= l.longitude <= 180.0 && TrimmedNonEmpty(l.address)
  }

  /** What a bin document that passed the schema's validators satisfies. */
  predicate ValidBin(b: BinDoc) {
    && b.binId != "" && IsNormalBinId(b.binId)
    && b.location.Some? && ValidLocation(b.location.value)
    && 0 <= b.level <= 100
    && (b.distance.Some? ==> b.distance.value >= 0)
    && b.area.Some? && TrimmedNonEmpty(b.area.value)
    && b.capacity >= 50
  }

  /**
   * `new Bin({binId, location, area})` with every other field at its default:
   * level 0, no distance, 240 litres, general waste, active, collected never,
   * collection schedule "Daily 6:00 AM". The `trim` setters apply to the
   * address and the area as well.
   */
  function NewBin(rawId: string, location: Location, area: string, now: int): (b: BinDoc)
    ensures b.binId == NormalizeBinId(rawId)
    ensures b.location == Some(location.(address := Trim(location.address))) && b.area == Some(Trim(area))
    ensures b.level == 0 && b.distance == None && b.capacity == 240
    ensures b.wasteType == GeneralWaste && b.status == Active
    ensures b.lastUpdated == now && b.lastCollected == None && b.sensorData == None
  {
    BinDoc(NormalizeBinId(rawId), Some(location.(address := Trim(location.address))), 0, None,
           Some(Trim(area)), 240, GeneralWaste, Active, now, None, None, "Daily 6:00 AM")
  }

  /**
   * The defaults make a valid document exactly when the identifier, the
   * address and the area are not blank and the coordinates are in range.
   */
  lemma {:induction false} NewBinIsValid(rawId: string, location: Location, area: string, now: int)
    ensures ValidBin(NewBin(rawId, location, area, now)) <==>
            && NormalizeBinId(rawId) != "" && Trim(location.address) != "" && Trim(area) != ""
            && -90.0 <= location.latitude <= 90.0 && -180.0 <= location.longitude <= 180.0
  {
  }
}
