/** The IBIS report action: the request it is bound from, the area the
    report is about, the three report kinds and the JSON envelope `query`
    answers with. What the datastores return for the report's queries is
    given as a `Store`. */
module Reports {
  import opened Wrappers
  import opened Calendar
  import opened StringOrder
  import opened Features
  import opened Aggregation
  import opened FieldSums
  import opened Serialization

  datatype ReportType = Individual | Aggregated | Issue

  /** The levels an area can be given and aggregated at. */
  datatype QueryArea = Regio | Gemeente | Terrein

  /** Whether the issue report splits each area by month (MONTH) or not
      (NONE). */
  datatype AggregationLevelDate = NoDateLevel | MonthLevel

  /** Attributes of the base (terrein) view. */
  const TerreinIdField := "id"
  const GemeenteField := "naam"
  const RegioField := "vvr_naam"
  const TerreinField := "a_plannaam"

  /** Attributes of the related (kavel) view naming the area of a kavel. */
  const GemeenteRelatedField := "gemeentenaam"
  const RegioRelatedField := "regionaam"
  const TerreinRelatedField := "terreinnaam"

  const InvalidParameters := "Invalid parameters."
  const NotAuthorized := "Not authorized."
  const ReportTypeRequired := "Report type is required."
  const NoAreaGiven := "Geen gebied opgegeven voor rapport."
  const DatesRequired := "Datum vanaf en datum tot zijn verplicht voor uitgifte."
  const OkMessage := "OK"

  /** The bound request parameters; `None` is a parameter that is absent
      (null). `appLayer` says whether an application layer was bound and
      `unauthorized` is what the authorization check decided. Dates are
      known by their month only. */
  datatype Request = Request(
    appLayer: bool,
    unauthorized: bool,
    reportType: Option<ReportType>,
    regio: Option<string>,
    gemeente: Option<string>,
    terrein: Option<string>,
    fromDate: Option<Month>,
    toDate: Option<Month>,
    aggregationLevel: Option<QueryArea>,
    aggregationLevelDate: Option<AggregationLevelDate>,
    attrNames: Option<seq<string>>)

  /** What the layer and its datastores answer: the layer's attribute
      descriptors; the features of the layer's query for the requested area;
      the features of the related feature type (`None` when the layer has no
      RELATE relation); and the feature template of the aggregate report's
      sub type, or the exception building that sub type raises. */
  datatype Store = Store(
    layerDescs: seq<Descriptor>,
    baseRows: seq<Row>,
    relatedRows: Option<seq<Row>>,
    subType: Result<Row, Fault>)

  /** The fixed part of "metaData": where the reader finds the rows, the
      total, the success flag and the message. */
  datatype MetaData = MetaData(root: string, totalProperty: string, successProperty: string, messageProperty: string)

  const ReplyMetaData := MetaData("data", "total", "success", "message")

  /** The JSON reply of `query`: "success", "message" (absent when `None`),
      "metaData" and, once a report was written, its fields, columns, data
      and total. */
  datatype Reply = Reply(success: bool, message: Option<string>, metaData: MetaData, table: Option<Table>)

  // ---------------------------------------------------------------------
  // The area of the report

  /** How fine an area level is: a terrein lies in a gemeente, a gemeente in
      a regio. */
  function Rank(a: QueryArea): nat
  {
    match a
    case Regio => 0
    case Gemeente => 1
    case Terrein => 2
  }

  /** The requested area name at level `a`. */
  function AreaValue(req: Request, a: QueryArea): Option<string>
  {
    match a
    case Regio => req.regio
    case Gemeente => req.gemeente
    case Terrein => req.terrein
  }

  /** The base-view attribute holding the area name at level `a`. */
  function AreaField(a: QueryArea): string
  {
    match a
    case Regio => RegioField
    case Gemeente => GemeenteField
    case Terrein => TerreinField
  }

  /** The related-view attribute holding the area name at level `a`. */
  function RelatedField(a: QueryArea): string
  {
    match a
    case Regio => RegioRelatedField
    case Gemeente => GemeenteRelatedField
    case Terrein => TerreinRelatedField
  }

  /** The CQL filter selecting area `value` at level `a`. */
  function AreaFilter(a: QueryArea, value: string): string
  {
    AreaField(a) + "='" + value + "'"
  }

  /** The area the report is about: the finest level at which an area was
      given, with the filter that selects it; none when no area was given. */
  function AreaSelection(req: Request): (r: Option<(QueryArea, string)>)
    ensures r.None? <==> forall a :: AreaValue(req, a).None?
    ensures r.Some? ==> AreaValue(req, r.value.0).Some?
    ensures r.Some? ==> forall a :: Rank(a) > Rank(r.value.0) ==> AreaValue(req, a).None?
    ensures r.Some? ==> r.value.1 == AreaFilter(r.value.0, AreaValue(req, r.value.0).value)
  {
    if req.terrein.Some? then
      assert AreaValue(req, Terrein).Some?;
      Some((Terrein, AreaFilter(Terrein, req.terrein.value)))
    else if req.gemeente.Some? then
      assert AreaValue(req, Gemeente).Some?;
      Some((Gemeente, AreaFilter(Gemeente, req.gemeente.value)))
    else if req.regio.Some? then
      assert AreaValue(req, Regio).Some?;
      Some((Regio, AreaFilter(Regio, req.regio.value)))
    else None
  }

  // ---------------------------------------------------------------------
  // The issue (uitgifte) report

  /** The area names found in the base features, per level. */
  datatype AreaNames = AreaNames(terrein: set<string>, regio: set<string>, gemeente: set<string>)

  function NamesAt(names: AreaNames, a: QueryArea): set<string>
  {
    match a
    case Regio => names.regio
    case Gemeente => names.gemeente
    case Terrein => names.terrein
  }

  /** The terrein, regio and gemeente name of one base feature, cast to
      String in that order and added to a TreeSet, which refuses null. */
  function RowNames(row: Row): (r: Result<(string, string, string), Fault>)
    ensures r.Success? <==> Get(row, TerreinField).Text? && Get(row, RegioField).Text? && Get(row, GemeenteField).Text?
    ensures r.Success? ==> r.value == (Get(row, TerreinField).s, Get(row, RegioField).s, Get(row, GemeenteField).s)
  {
    match AsText(Get(row, TerreinField))
    case Failure(e) => Failure(e)
    case Success(t) =>
      match AsText(Get(row, RegioField))
      case Failure(e) => Failure(e)
      case Success(r) =>
        match AsText(Get(row, GemeenteField))
        case Failure(e) => Failure(e)
        case Success(g) => Success((t, r, g))
  }

  /** The name sets built over the base features, in order; the first
      exception ends the loop. */
  function CollectedNames(rows: seq<Row>): Result<AreaNames, Fault>
  {
    if rows == [] then Success(AreaNames({}, {}, {}))
    else
      match CollectedNames(rows[..|rows| - 1])
      case Failure(e) => Failure(e)
      case Success(n) =>
        match RowNames(rows[|rows| - 1])
        case Failure(e) => Failure(e)
        case Success(t) => Success(AreaNames(n.terrein + {t.0}, n.regio + {t.1}, n.gemeente + {t.2}))
  }

  /** The attribute descriptors of the issue report's AGGREGATE features. */
  const IssueDescriptors := [
    Descriptor("maand", Some("maand"), DateType),
    Descriptor("oppervlakte", Some("oppervlakte"), DoubleType),
    Descriptor("gebied", Some("gebiedsnaam"), StringType)]

  /** The attributes the issue report shows. */
  function IssueProps(dateLevel: AggregationLevelDate): seq<string>
  {
    match dateLevel
    case MonthLevel => ["maand", "oppervlakte", "gebied"]
    case NoDateLevel => ["oppervlakte", "gebied"]
  }

  /** The aggregate features as rows of attributes. */
  function FeatureRows(bs: seq<AggregateFeature>): (rows: seq<Row>)
    ensures |rows| == |bs| && forall i :: 0 <= i < |bs| ==> rows[i] == AsRow(bs[i])
  {
    seq(|bs|, i requires 0 <= i < |bs| => AsRow(bs[i]))
  }

  /** The second half of `reportIssued`: the related features aggregated
      over the area names `names` at `level`, by month from `from` to `to`
      or over the whole range, and written out. */
  ghost function IssueTable(rows: seq<Row>, names: set<string>, level: QueryArea, dateLevel: AggregationLevelDate,
                            from: Month, to: Month): Result<Table, Fault>
  {
    var ns := Sorted(names);
    var buckets :=
      if dateLevel == MonthLevel then MonthAggregation(rows, ns, RelatedField(level), from, to)
      else AreaAggregation(rows, ns, RelatedField(level));
    match buckets
    case Failure(e) => Failure(e)
    case Success(bs) => ToJson(FeatureRows(bs), IssueDescriptors, Some(IssueProps(dateLevel)), true)
  }

  /** `reportIssued`: both dates are required; a layer without a related
      feature type is dereferenced as null; the area names are collected
      from the base features; an empty base leaves nothing to cut the last
      comma from; a missing aggregation level (or date level) is switched on
      as null; then the related features are aggregated at the requested
      level, by month or over the whole range, and written out. */
  ghost function IssueReport(req: Request, store: Store): Result<Table, Fault>
  {
    if req.fromDate.None? || req.toDate.None? then Failure(IllegalArgument(DatesRequired))
    else if store.relatedRows.None? then Failure(NullPointer)
    else
      match CollectedNames(store.baseRows)
      case Failure(e) => Failure(e)
      case Success(names) =>
        if store.baseRows == [] then Failure(StringIndexOutOfBounds(-1))
        else if req.aggregationLevel.None? || req.aggregationLevelDate.None? then Failure(NullPointer)
        else
          IssueTable(store.relatedRows.value, NamesAt(names, req.aggregationLevel.value), req.aggregationLevel.value,
                     req.aggregationLevelDate.value, req.fromDate.value, req.toDate.value)
  }

  // ---------------------------------------------------------------------
  // The individual and the aggregate report

  /** `reportIndividualData`: the layer's features for the area, with the
      layer's descriptors, showing the requested attributes. */
  function IndividualReport(req: Request, store: Store): Result<Table, Fault>
  {
    ToJson(store.baseRows, store.layerDescs, req.attrNames, false)
  }

  /** The descriptor of the aggregate report's area attribute. */
  const GebiedDescriptor := Descriptor(AreaAttribute, Some("gebiedsnaam"), StringType)

  /** `reportAggregateData`: copying a null attribute list raises; then the
      sub type is built; a missing aggregation level is switched on as
      null; the one area of the requested level is the only bucket, and a
      null area name cannot be put in the TreeMap; then the requested
      attributes are summed per area and written out, the area descriptor
      first. */
  ghost function AggregateReport(req: Request, store: Store): Result<Table, Fault>
  {
    if req.attrNames.None? then Failure(NullPointer)
    else if store.subType.Failure? then Failure(store.subType.error)
    else if req.aggregationLevel.None? then Failure(NullPointer)
    else
      match AreaValue(req, req.aggregationLevel.value)
      case None => Failure(NullPointer)
      case Some(name) =>
        match AggregatedFields(store.baseRows, store.subType.value, [name], req.attrNames.value, AreaAttribute)
        case Failure(e) => Failure(e)
        case Success(bs) => ToJson(bs, [GebiedDescriptor] + Shown(store.layerDescs, req.attrNames.value), req.attrNames, false)
  }

  // ---------------------------------------------------------------------
  // `query`

  /** The try block of `query`: select the area, then write the report of
      the requested kind. */
  ghost function Generated(kind: ReportType, req: Request, store: Store): Result<Table, Fault>
  {
    if AreaSelection(req).None? then Failure(IllegalArgument(NoAreaGiven))
    else
      match kind
      case Issue => IssueReport(req, store)
      case Individual => IndividualReport(req, store)
      case Aggregated => AggregateReport(req, store)
  }

  /** The reply of `query`: the request checks in order, then the report;
      "OK" and success on a report, otherwise the error's message. A Java 8
      NullPointerException has no message, so then the reply says nothing
      but that it failed. */
  ghost function Outcome(req: Request, store: Store): (r: Reply)
    ensures r.metaData == ReplyMetaData
    ensures r.success <==> r.table.Some?
    ensures r.success ==> r.message == Some(OkMessage)
    ensures req.appLayer && !req.unauthorized && req.reportType.Some? ==>
      var g := Generated(req.reportType.value, req, store);
      (r.success <==> g.Success?) && (g.Success? ==> r.table == Some(g.value)) && (g.Failure? ==> r.message == Message(g.error))
  {
    if !req.appLayer then Reply(false, Some(InvalidParameters), ReplyMetaData, None)
    else if req.unauthorized then Reply(false, Some(NotAuthorized), ReplyMetaData, None)
    else if req.reportType.None? then Reply(false, Some(ReportTypeRequired), ReplyMetaData, None)
    else
      match Generated(req.reportType.value, req, store)
      case Success(t) => Reply(true, Some(OkMessage), ReplyMetaData, Some(t))
      case Failure(e) => Reply(false, Message(e), ReplyMetaData, None)
  }

  // ---------------------------------------------------------------------
  // Properties

  /** The name loop raises nothing exactly when every base feature has a
      String terrein, regio and gemeente name. */
  lemma {:induction false} CollectedNamesSucceed(rows: seq<Row>)
    ensures CollectedNames(rows).Success? <==> forall i :: 0 <= i < |rows| ==> RowNames(rows[i]).Success?
  {
    if rows != [] {
      var prefix := rows[..|rows| - 1];
      CollectedNamesSucceed(prefix);
      assert forall i :: 0 <= i < |prefix| ==> prefix[i] == rows[i];
    }
  }

  /** Some base feature has the String `t` as its area name at `field`. */
  ghost predicate NamedIn(rows: seq<Row>, field: string, t: string)
  {
    exists i :: 0 <= i < |rows| && Get(rows[i], field) == Text(t)
  }

  /** After the name loop, the set of each level holds exactly the names the
      base features have at that level. */
  lemma {:induction false} CollectedNamesAt(rows: seq<Row>, a: QueryArea)
    requires CollectedNames(rows).Success?
    ensures forall t :: t in NamesAt(CollectedNames(rows).value, a) <==> NamedIn(rows, AreaField(a), t)
  {
    if rows != [] {
      var prefix := rows[..|rows| - 1];
      var last := rows[|rows| - 1];
      var f := AreaField(a);
      CollectedNamesAt(prefix, a);
      assert NamesAt(CollectedNames(rows).value, a) == NamesAt(CollectedNames(prefix).value, a) + {Get(last, f).s};
      forall t ensures t in NamesAt(CollectedNames(rows).value, a) <==> NamedIn(rows, f, t) {
        if NamedIn(rows, f, t) {
          var i :| 0 <= i < |rows| && Get(rows[i], f) == Text(t);
          if i < |prefix| {
            assert prefix[i] == rows[i];
          }
        }
        if NamedIn(prefix, f, t) {
          var i :| 0 <= i < |prefix| && Get(prefix[i], f) == Text(t);
          assert rows[i] == prefix[i];
        }
      }
    }
  }

  /** The exception of the name loop is that of the first base feature
      lacking a String name. */
  lemma {:induction false} CollectedNamesFault(rows: seq<Row>)
    requires CollectedNames(rows).Failure?
    ensures exists i :: 0 <= i < |rows| && RowNames(rows[i]) == Failure(CollectedNames(rows).error)
                        && forall j :: 0 <= j < i ==> RowNames(rows[j]).Success?
  {
    var prefix := rows[..|rows| - 1];
    if CollectedNames(prefix).Failure? {
      CollectedNamesFault(prefix);
      var i :| 0 <= i < |prefix| && RowNames(prefix[i]) == Failure(CollectedNames(prefix).error)
        && forall j :: 0 <= j < i ==> RowNames(prefix[j]).Success?;
      assert rows[i] == prefix[i];
      assert forall j :: 0 <= j < i ==> rows[j] == prefix[j];
    } else {
      CollectedNamesSucceed(prefix);
      assert forall j :: 0 <= j < |prefix| ==> rows[j] == prefix[j];
    }
  }

  /** Once a prefix of the base features raises, the whole loop raises the
      same. */
  lemma {:induction false} CollectedNamesFailurePersists(rows: seq<Row>, i: nat)
    requires i <= |rows| && CollectedNames(rows[..i]).Failure?
    ensures CollectedNames(rows) == CollectedNames(rows[..i])
  {
    if i < |rows| {
      var prefix := rows[..|rows| - 1];
      assert prefix[..i] == rows[..i];
      CollectedNamesFailurePersists(prefix, i);
    } else {
      assert rows[..i] == rows;
    }
  }

  /** The request checks answer in a fixed order: a missing layer first,
      then a refused authorization, then a missing report type, and each
      with its own message and no report. */
  lemma CheckOrder(req: Request, store: Store)
    ensures !req.appLayer ==> Outcome(req, store) == Reply(false, Some(InvalidParameters), ReplyMetaData, None)
    ensures req.appLayer && req.unauthorized ==> Outcome(req, store) == Reply(false, Some(NotAuthorized), ReplyMetaData, None)
    ensures req.appLayer && !req.unauthorized && req.reportType.None? ==>
      Outcome(req, store) == Reply(false, Some(ReportTypeRequired), ReplyMetaData, None)
    ensures req.appLayer && !req.unauthorized && req.reportType.Some? && AreaSelection(req).None? ==>
      Outcome(req, store) == Reply(false, Some(NoAreaGiven), ReplyMetaData, None)
  {
  }

  /** A report is only written for an authorized request with a layer, a
      report type and an area. */
  lemma SuccessNeedsValidRequest(req: Request, store: Store)
    ensures Outcome(req, store).success ==>
      req.appLayer && !req.unauthorized && req.reportType.Some? && AreaSelection(req).Some?
  {
  }

  /** A report that fails on a null pointer answers with success false and
      no message at all. */
  lemma NullPointerIsSilent(req: Request, store: Store)
    requires req.appLayer && !req.unauthorized && req.reportType.Some?
    requires Generated(req.reportType.value, req, store) == Failure(NullPointer)
    ensures !Outcome(req, store).success && Outcome(req, store).message.None?
  {
  }

  /** Without both dates the issue report is refused with its own message,
      whatever the datastores hold. */
  lemma IssueNeedsDates(req: Request, store: Store)
    requires req.appLayer && !req.unauthorized && req.reportType == Some(Issue) && AreaSelection(req).Some?
    requires req.fromDate.None? || req.toDate.None?
    ensures Outcome(req, store) == Reply(false, Some(DatesRequired), ReplyMetaData, None)
  {
  }

  /** The grid metadata of the issue report: by month, a month column shown
      as a "Y-m" date, then surface and area; otherwise surface and area. */
  lemma IssueMetadata(dateLevel: AggregationLevelDate)
    ensures FieldsFor(IssueDescriptors, IssueProps(dateLevel), true) ==
      (if dateLevel == MonthLevel then [Field("maand", DateType, Some(MonthFormat))] else [])
      + [Field("oppervlakte", DoubleType, None), Field("gebied", StringType, None)]
    ensures ColumnsFor(IssueDescriptors, IssueProps(dateLevel)) ==
      (if dateLevel == MonthLevel then [Column("maand", "maand")] else [])
      + [Column("oppervlakte", "oppervlakte"), Column("gebiedsnaam", "gebied")]
  {
    var ds := IssueDescriptors;
    var p := IssueProps(dateLevel);
    assert ds[..2] == [ds[0], ds[1]] && [ds[0], ds[1]][..1] == [ds[0]] && [ds[0]][..0] == [];
    assert ("maand" in p <==> dateLevel == MonthLevel) && "oppervlakte" in p && "gebied" in p;
    assert FieldsFor([ds[0]], p, true) == if "maand" in p then [FieldOf(ds[0], true)] else [];
    assert ColumnsFor([ds[0]], p) == if "maand" in p then [ColumnOf(ds[0])] else [];
  }

  /** The issue report without a month split has one row per area name of
      the requested level found in the base features. */
  lemma IssueOneRowPerArea(req: Request, store: Store)
    requires req.aggregationLevelDate == Some(NoDateLevel)
    ensures IssueReport(req, store).Success? ==> CollectedNames(store.baseRows).Success? && req.aggregationLevel.Some?
    ensures IssueReport(req, store).Success? ==>
      IssueReport(req, store).value.total == |NamesAt(CollectedNames(store.baseRows).value, req.aggregationLevel.value)|
  {
    if IssueReport(req, store).Success? {
      var names := CollectedNames(store.baseRows).value;
      var ns := Sorted(NamesAt(names, req.aggregationLevel.value));
      assert (set n | n in ns) == NamesAt(names, req.aggregationLevel.value);
    }
  }

  /** Whether the fold over the rows raises, and what, is decided by the
      first row when that one raises against the zero buckets. */
  lemma {:induction false} FirstRowFaultAtStart(zero: map<string, Row>, rows: seq<Row>, areaField: string, fields: seq<string>)
    requires rows != [] && RowFault(zero, rows[0], areaField, fields).Some?
    ensures FirstRowFault(zero, rows, areaField, fields) == RowFault(zero, rows[0], areaField, fields)
  {
    if |rows| > 1 {
      FirstRowFaultAtStart(zero, rows[..|rows| - 1], areaField, fields);
    }
  }

  /** The aggregate report over features that lack the area attribute (the
      layer's query does not select it) fails on a null pointer as soon as
      there is a feature and the sub type could be built. */
  lemma AggregateNeedsAreaAttribute(req: Request, store: Store)
    requires store.subType.Success? && store.baseRows != []
    requires Get(store.baseRows[0], AreaAttribute) == Null
    ensures AggregateReport(req, store) == Failure(NullPointer)
  {
    if req.attrNames.Some? && req.aggregationLevel.Some? && AreaValue(req, req.aggregationLevel.value).Some? {
      var zero := ZeroBuckets(store.subType.value, [AreaValue(req, req.aggregationLevel.value).value]);
      FieldsFoldFault(zero, store.baseRows, AreaAttribute, req.attrNames.value);
      FirstRowFaultAtStart(zero, store.baseRows, AreaAttribute, req.attrNames.value);
    }
  }
}

module ReportActions {
  import opened Wrappers
  import opened Calendar
  import opened StringOrder
  import opened Features
  import opened SortedMaps
  import opened Aggregation
  import opened Aggregators
  import opened FieldSums
  import opened FieldAggregators
  import opened Serialization
  import opened Serializer
  import opened Reports

  /** The loop over the base features of the issue report: each feature's
      id is appended to the id list, and its terrein, regio and gemeente
      names are added to three TreeSets (maps to nothing). */
  method CollectAreaNames(rows: seq<Row>)
    returns (fault: Option<Fault>, ids: seq<Value>,
             terreinNames: TreeMap<()>, regioNames: TreeMap<()>, gemeenteNames: TreeMap<()>)
    ensures fresh(terreinNames) && fresh(regioNames) && fresh(gemeenteNames)
    ensures fault.Some? <==> CollectedNames(rows).Failure?
    ensures fault.Some? ==> fault.value == CollectedNames(rows).error
    ensures fault.None? ==> |ids| == |rows|
    ensures fault.None? ==> terreinNames.Valid() && regioNames.Valid() && gemeenteNames.Valid()
    ensures fault.None? ==> var n := CollectedNames(rows).value;
      terreinNames.entries.Keys == n.terrein && regioNames.entries.Keys == n.regio && gemeenteNames.entries.Keys == n.gemeente
  {
    ids := [];
    terreinNames := new TreeMap<()>();
    regioNames := new TreeMap<()>();
    gemeenteNames := new TreeMap<()>();
    for i := 0 to |rows|
      invariant |ids| == i
      invariant terreinNames.Valid() && regioNames.Valid() && gemeenteNames.Valid()
      invariant CollectedNames(rows[..i]).Success?
      invariant var n := CollectedNames(rows[..i]).value;
        terreinNames.entries.Keys == n.terrein && regioNames.entries.Keys == n.regio && gemeenteNames.entries.Keys == n.gemeente
    {
      ids := ids + [Get(rows[i], TerreinIdField)];
      fault := AddAreaNames(rows[i], terreinNames, regioNames, gemeenteNames, rows, i);
      if fault.Some? {
        return;
      }
    }
    assert rows[..|rows|] == rows;
    fault := None;
  }

  /** One pass of the name loop, at base feature `i`: its names are cast
      and added in the order terrein, regio, gemeente. */
  method AddAreaNames(f: Row, terreinNames: TreeMap<()>, regioNames: TreeMap<()>, gemeenteNames: TreeMap<()>,
                      ghost rows: seq<Row>, i: nat) returns (fault: Option<Fault>)
    requires i < |rows| && rows[i] == f
    requires terreinNames != regioNames && regioNames != gemeenteNames && terreinNames != gemeenteNames
    requires terreinNames.Valid() && regioNames.Valid() && gemeenteNames.Valid()
    requires CollectedNames(rows[..i]).Success?
    requires var n := CollectedNames(rows[..i]).value;
      terreinNames.entries.Keys == n.terrein && regioNames.entries.Keys == n.regio && gemeenteNames.entries.Keys == n.gemeente
    modifies terreinNames, regioNames, gemeenteNames
    ensures fault.Some? ==> CollectedNames(rows) == Failure(fault.value)
    ensures fault.None? ==> terreinNames.Valid() && regioNames.Valid() && gemeenteNames.Valid()
    ensures fault.None? ==> CollectedNames(rows[..i + 1]).Success? && var n := CollectedNames(rows[..i + 1]).value;
      terreinNames.entries.Keys == n.terrein && regioNames.entries.Keys == n.regio && gemeenteNames.entries.Keys == n.gemeente
  {
    assert rows[..i + 1][..i] == rows[..i];
    var t := AddName(terreinNames, Get(f, TerreinField));
    if t.Some? {
      CollectedNamesFailurePersists(rows, i + 1);
      return t;
    }
    var r := AddName(regioNames, Get(f, RegioField));
    if r.Some? {
      CollectedNamesFailurePersists(rows, i + 1);
      return r;
    }
    var g := AddName(gemeenteNames, Get(f, GemeenteField));
    if g.Some? {
      CollectedNamesFailurePersists(rows, i + 1);
      return g;
    }
    fault := None;
  }

  /** `names.add((String) v)`: the cast, then the insertion. */
  method AddName(names: TreeMap<()>, v: Value) returns (fault: Option<Fault>)
    requires names.Valid()
    modifies names
    ensures fault.Some? <==> AsText(v).Failure?
    ensures fault.Some? ==> fault.value == AsText(v).error
    ensures fault.None? ==> names.Valid() && names.entries.Keys == old(names.entries.Keys) + {v.s}
  {
    var t := AsText(v);
    if t.Failure? {
      return Some(t.error);
    }
    names.Put(t.value, ());
    fault := None;
  }

  /** The descriptors of the layer whose name is requested, in order. */
  method ShownDescriptors(descs: seq<Descriptor>, names: seq<string>) returns (shown: seq<Descriptor>)
    ensures shown == Shown(descs, names)
  {
    shown := [];
    for i := 0 to |descs|
      invariant shown == Shown(descs[..i], names)
    {
      assert descs[..i + 1][..i] == descs[..i];
      if descs[i].name in names {
        shown := shown + [descs[i]];
      }
    }
    assert descs[..|descs|] == descs;
  }

  /** The report action for one bound request. `query` records the area
      it selected in `areaType` and `gebiedsNaamQuery`. */
  class ReportBean {
    const request: Request
    var areaType: Option<QueryArea>
    var gebiedsNaamQuery: Option<string>

    constructor (request: Request)
      ensures this.request == request && areaType.None? && gebiedsNaamQuery.None?
    {
      this.request := request;
      areaType := None;
      gebiedsNaamQuery := None;
    }

    /** `query`: check the request, then select the area and write the
        report, and answer with the envelope. */
    method Query(store: Store) returns (reply: Reply)
      modifies this
      ensures reply == Outcome(request, store)
      ensures request.appLayer && !request.unauthorized && request.reportType.Some? && AreaSelection(request).Some? ==>
        areaType == Some(AreaSelection(request).value.0) && gebiedsNaamQuery == Some(AreaSelection(request).value.1)
      ensures !(request.appLayer && !request.unauthorized && request.reportType.Some? && AreaSelection(request).Some?) ==>
        areaType == old(areaType) && gebiedsNaamQuery == old(gebiedsNaamQuery)
    {
      var success := false;
      var message: Option<string> := None;
      var table: Option<Table> := None;
      var error: Option<string> := None;
      if !request.appLayer {
        error := Some(InvalidParameters);
      } else if request.unauthorized {
        error := Some(NotAuthorized);
      } else if request.reportType.None? {
        error := Some(ReportTypeRequired);
      } else {
        var result := Generate(request.reportType.value, store);
        if result.Success? {
          table := Some(result.value);
          message := Some(OkMessage);
          success := true;
        } else {
          error := Message(result.error);
        }
      }
      if error.Some? {
        success := false;
        message := error;
      }
      reply := Reply(success, message, ReplyMetaData, table);
    }

    /** The try block of `query`: the finest area given selects the filter,
        then the report of type `kind` is written. */
    method Generate(kind: ReportType, store: Store) returns (r: Result<Table, Fault>)
      modifies this
      ensures r == Generated(kind, request, store)
      ensures AreaSelection(request).Some? ==>
        areaType == Some(AreaSelection(request).value.0) && gebiedsNaamQuery == Some(AreaSelection(request).value.1)
      ensures AreaSelection(request).None? ==> areaType == old(areaType) && gebiedsNaamQuery == old(gebiedsNaamQuery)
    {
      if request.terrein.Some? {
        areaType := Some(Terrein);
        gebiedsNaamQuery := Some(TerreinField + "='" + request.terrein.value + "'");
      } else if request.gemeente.Some? {
        areaType := Some(Gemeente);
        gebiedsNaamQuery := Some(GemeenteField + "='" + request.gemeente.value + "'");
      } else if request.regio.Some? {
        areaType := Some(Regio);
        gebiedsNaamQuery := Some(RegioField + "='" + request.regio.value + "'");
      } else {
        return Failure(IllegalArgument(NoAreaGiven));
      }
      match kind
      case Issue =>
        r := ReportIssued(store);
      case Individual =>
        r := ReportIndividualData(store);
      case Aggregated =>
        r := ReportAggregateData(store);
    }

    /** `reportIssued`. The related query's filter (the id list and the
        date range) is the datastore's business; only whether the id list
        has a last comma to cut matters here. */
    method ReportIssued(store: Store) returns (r: Result<Table, Fault>)
      ensures r == IssueReport(request, store)
    {
      if request.fromDate.None? || request.toDate.None? {
        return Failure(IllegalArgument(DatesRequired));
      }
      if store.relatedRows.None? {
        return Failure(NullPointer);
      }
      var fault, ids, terreinNames, regioNames, gemeenteNames := CollectAreaNames(store.baseRows);
      if fault.Some? {
        return Failure(fault.value);
      }
      if |ids| == 0 {
        return Failure(StringIndexOutOfBounds(-1));
      }
      var sfc := store.relatedRows.value;
      if request.aggregationLevel.None? {
        return Failure(NullPointer);
      }
      var level := request.aggregationLevel.value;
      var names: TreeMap<()>;
      match level {
        case Regio => names := regioNames;
        case Gemeente => names := gemeenteNames;
        case Terrein => names := terreinNames;
      }
      if request.aggregationLevelDate.None? {
        return Failure(NullPointer);
      }
      r := AggregateIssue(sfc, names, level, request.aggregationLevelDate.value, request.fromDate.value, request.toDate.value);
    }

    /** The aggregation switch of `reportIssued` and the output. */
    method AggregateIssue(sfc: seq<Row>, names: TreeMap<()>, level: QueryArea, dateLevel: AggregationLevelDate,
                          from: Month, to: Month) returns (r: Result<Table, Fault>)
      requires names.Valid()
      ensures r == IssueTable(sfc, names.entries.Keys, level, dateLevel, from, to)
    {
      KeysSorted(names);
      var buckets: Result<seq<AggregateFeature>, Fault>;
      if dateLevel == MonthLevel {
        buckets := AggregateByMonthAndArea(sfc, names.keys, RelatedField(level), from, to);
      } else {
        buckets := AggregateByArea(sfc, names.keys, RelatedField(level));
      }
      if buckets.Failure? {
        return Failure(buckets.error);
      }
      r := FeaturesToJson(FeatureRows(buckets.value), IssueDescriptors, Some(IssueProps(dateLevel)), true);
    }

    /** `reportIndividualData`. */
    method ReportIndividualData(store: Store) returns (r: Result<Table, Fault>)
      ensures r == IndividualReport(request, store)
    {
      r := FeaturesToJson(store.baseRows, store.layerDescs, request.attrNames, false);
    }

    /** `reportAggregateData`. The layer's query also selects the gemeente,
        regio and terrein names; the query itself is the datastore's
        business. */
    method ReportAggregateData(store: Store) returns (r: Result<Table, Fault>)
      ensures r == AggregateReport(request, store)
    {
      if request.attrNames.None? {
        return Failure(NullPointer);
      }
      var attrNames := request.attrNames.value;
      var sfc := store.baseRows;
      if store.subType.Failure? {
        return Failure(store.subType.error);
      }
      var template := store.subType.value;
      var shown := ShownDescriptors(store.layerDescs, attrNames);
      var newFeatureTypeAttributes := [GebiedDescriptor] + shown;
      if request.aggregationLevel.None? {
        return Failure(NullPointer);
      }
      // the one area name of the level, null when that level was not given
      var name := AreaValue(request, request.aggregationLevel.value);
      if name.None? {
        return Failure(NullPointer);
      }
      var buckets := AggregateFields(sfc, template, [name.value], attrNames, AreaAttribute);
      if buckets.Failure? {
        return Failure(buckets.error);
      }
      r := FeaturesToJson(buckets.value, newFeatureTypeAttributes, request.attrNames, false);
    }
  }
}
