/**
 * The Report document: a citizen's complaint about a bin or a place. The
 * Mongoose schema restricts the kind, status and priority to fixed lists,
 * trims the description and bounds its length, normalises an attached bin
 * identifier the way the Bin schema does, and leaves every reference to a
 * user null until it is set.
 */
module ReportSchema {

  import opened Wrappers
  import opened Text
  import BinSchema

  datatype ReportType =
    | BinFull | BinDamaged | UnsanitaryCondition | MissingBin
    | CollectionMissed | IllegalDumping | Other

  function ReportTypeName(t: ReportType): string {
    match t
    case BinFull => "bin_full"
    case BinDamaged => "bin_damaged"
    case UnsanitaryCondition => "unsanitary_condition"
    case MissingBin => "missing_bin"
    case CollectionMissed => "collection_missed"
    case IllegalDumping => "illegal_dumping"
    case Other => "other"
  }

  /** The enum validator on `reportType`: exactly the seven listed names pass. */
  function ParseReportType(s: string): (r: Option<ReportType>)
    ensures r.Some? ==> ReportTypeName(r.value) == s
    ensures forall t :: s == ReportTypeName(t) ==> r == Some(t)
  {
    if s == "bin_full" then Some(BinFull)
    else if s == "bin_damaged" then Some(BinDamaged)
    else if s == "unsanitary_condition" then Some(UnsanitaryCondition)
    else if s == "missing_bin" then Some(MissingBin)
    else if s == "collection_missed" then Some(CollectionMissed)
    else if s == "illegal_dumping" then Some(IllegalDumping)
    else if s == "other" then Some(Other)
    else None
  }

  datatype ReportStatus = Pending | InProgress | Resolved | Rejected

  datatype ReportPriority = Low | Medium | High | Critical

  /** The unvalidated `location` sub-document: every part optional. */
  datatype Place = Place(latitude: Option<real>, longitude: Option<real>, address: Option<string>)

  datatype Report = Report(
    reportType: ReportType,
    description: string,
    location: Option<Place>,
    binId: Option<string>,
    reportedBy: Option<string>,
    status: ReportStatus,
    priority: ReportPriority,
    resolvedBy: Option<string>,
    resolvedAt: Option<int>,
    assignedTo: Option<string>,
    createdAt: int)

  const MaxDescription := 500

  /** The paths Mongoose names in a validation error. */
  const ReportTypePath := "reportType"
  const DescriptionPath := "description"

  /** What a stored report satisfies. */
  predicate ValidReport(r: Report) {
    && r.description != "" && IsTrimmed(r.description)
    && Utf16Length(r.description) <= MaxDescription
    && (r.binId.Some? ==> BinSchema.IsNormalBinId(r.binId.value))
  }

  /**
   * `new Report({reportType, description, location, binId, reportedBy}).save()`.
   * The setters trim the description and trim and upper-case the bin id; the
   * validators then reject an unknown kind, an empty (after trimming) or
   * over-long description, naming every failing path. Status starts
   * pending, priority medium, and the resolver, resolution time and assignee
   * null.
   */
  function NewReport(reportType: string, description: string, location: Option<Place>,
                     binId: Option<string>, reportedBy: Option<string>, now: int)
    : (r: Result<Report, set<string>>)
    ensures r.Ok? <==> ParseReportType(reportType).Some?
                       && Trim(description) != "" && Utf16Length(Trim(description)) <= MaxDescription
    ensures r.Err? ==> (ReportTypePath in r.error <==> ParseReportType(reportType).None?)
    ensures r.Err? ==> (DescriptionPath in r.error <==>
                          Trim(description) == "" || Utf16Length(Trim(description)) > MaxDescription)
    ensures r.Ok? ==> && ReportTypeName(r.value.reportType) == reportType
                      && r.value.description == Trim(description)
                      && r.value.binId == (if binId.Some? then Some(BinSchema.NormalizeBinId(binId.value)) else None)
                      && r.value.location == location && r.value.reportedBy == reportedBy
                      && r.value.status == Pending && r.value.priority == Medium
                      && r.value.resolvedBy == None && r.value.resolvedAt == None
                      && r.value.assignedTo == None && r.value.createdAt == now
  {
    var kind := ParseReportType(reportType);
    var text := Trim(description);
    var textOk := text != "" && Utf16Length(text) <= MaxDescription;
    if kind.Some? && textOk then
      Ok(Report(kind.value, text, location,
                if binId.Some? then Some(BinSchema.NormalizeBinId(binId.value)) else None,
                reportedBy, Pending, Medium, None, None, None, now))
    else
      Err((if kind.None? then {ReportTypePath} else {}) + (if textOk then {} else {DescriptionPath}))
  }

  /** Every report that `save` accepts is a valid stored report. */
  lemma {:induction false} NewReportIsValid(reportType: string, description: string, location: Option<Place>,
                         binId: Option<string>, reportedBy: Option<string>, now: int)
    requires NewReport(reportType, description, location, binId, reportedBy, now).Ok?
    ensures ValidReport(NewReport(reportType, description, location, binId, reportedBy, now).value)
  {
  }

  /** A whitespace-only description is always refused, whatever else is sent. */
  lemma {:induction false} BlankDescriptionRefused(reportType: string, description: string, location: Option<Place>,
                                binId: Option<string>, reportedBy: Option<string>, now: int)
    requires AllWhitespace(description)
    ensures NewReport(reportType, description, location, binId, reportedBy, now).Err?
  {
    TrimEmptyIffBlank(description);
  }

  /**
   * The limit counts UTF-16 code units: a description of 300 emoji is 600
   * units long, and is refused although it has only 300 characters.
   */
  lemma {:induction false} EmojiDescriptionTooLong()
    ensures var d := seq(300, _ => '\U{1F600}');
            && |d| == 300
            && NewReport("other", d, None, None, None, 0).Err?
            && DescriptionPath in NewReport("other", d, None, None, None, 0).error
  {
    var d := seq(300, _ => '\U{1F600}');
    TrimFixesExactlyTrimmed(d);
    Utf16LengthAllAstral(d);
  }
}
