/** `featuresToJson`: the grid metadata (fields and columns, taken while the
    first feature is written) and one JSON object per feature. */
module Serialization {
  import opened Wrappers
  import opened Features

  /** The attribute types of a descriptor; only the date type is told
      apart by the serializer. */
  datatype AttributeType = DateType | DoubleType | StringType | OtherType(name: string)

  /** A flamingo attribute descriptor: its name, its alias (null when
      absent) and its type. */
  datatype Descriptor = Descriptor(name: string, alias: Option<string>, kind: AttributeType)

  /** A grid field: {"name", "type"} and, for a date in the issue report,
      "dateFormat". The "type" is the ExtJS name of the attribute type,
      written here as the type itself. */
  datatype Field = Field(name: string, kind: AttributeType, dateFormat: Option<string>)

  /** A grid column: {"text", "dataIndex"}. */
  datatype Column = Column(text: string, dataIndex: string)

  /** One feature as a JSON object: attribute name to value. */
  type DataRow = map<string, Value>

  /** What the serializer puts in the reply: metaData.fields,
      metaData.columns, data and total. */
  datatype Table = Table(fields: seq<Field>, columns: seq<Column>, data: seq<DataRow>, total: nat)

  /** The ExtJS date format of the month attribute in the issue report. */
  const MonthFormat := "Y-m"

  /** The field of a shown descriptor. */
  function FieldOf(d: Descriptor, issue: bool): (f: Field)
    ensures f.name == d.name && f.kind == d.kind
    ensures f.dateFormat == (if issue && d.kind == DateType then Some(MonthFormat) else None)
  {
    Field(d.name, d.kind, if issue && d.kind == DateType then Some(MonthFormat) else None)
  }

  /** The column of a shown descriptor: headed by the alias, or by the
      name when there is no alias. */
  function ColumnOf(d: Descriptor): (c: Column)
    ensures c.dataIndex == d.name
    ensures c.text == (if d.alias.Some? then d.alias.value else d.name)
  {
    Column(if d.alias.Some? then d.alias.value else d.name, d.name)
  }

  /** The fields of the descriptors whose name is an output property, in
      descriptor order. */
  function FieldsFor(descs: seq<Descriptor>, props: seq<string>, issue: bool): seq<Field>
  {
    if descs == [] then []
    else
      var d := descs[|descs| - 1];
      FieldsFor(descs[..|descs| - 1], props, issue) + (if d.name in props then [FieldOf(d, issue)] else [])
  }

  /** The columns of the descriptors whose name is an output property, in
      descriptor order. */
  function ColumnsFor(descs: seq<Descriptor>, props: seq<string>): seq<Column>
  {
    if descs == [] then []
    else
      var d := descs[|descs| - 1];
      ColumnsFor(descs[..|descs| - 1], props) + (if d.name in props then [ColumnOf(d)] else [])
  }

  /** The descriptors among `descs` whose name is requested (an output property), in order. */
  function Shown(descs: seq<Descriptor>, names: seq<string>): seq<Descriptor>
  {
    if descs == [] then []
    else Shown(descs[..|descs| - 1], names) + (if descs[|descs| - 1].name in names then [descs[|descs| - 1]] else [])
  }

  /** The JSON object of one feature: each descriptor's attribute in turn,
      where putting a null value removes the key. */
  function DataRowOf(descs: seq<Descriptor>, row: Row): DataRow
  {
    if descs == [] then map[]
    else
      var name := descs[|descs| - 1].name;
      var m := DataRowOf(descs[..|descs| - 1], row);
      if Get(row, name) == Null then m - {name} else m[name := Get(row, name)]
  }

  /** The names of the descriptors. */
  function Names(descs: seq<Descriptor>): set<string>
  {
    set d | d in descs :: d.name
  }

  /** What the serializer produces: nothing at all without features; a
      null list of output properties is dereferenced at the first
      descriptor of the first feature; otherwise the metadata of the shown
      descriptors and one object per feature. */
  function ToJson(rows: seq<Row>, descs: seq<Descriptor>, props: Option<seq<string>>, issue: bool): (r: Result<Table, Fault>)
    ensures r.Failure? <==> props.None? && rows != [] && descs != []
    ensures r.Failure? ==> r.error == NullPointer
    ensures r.Success? ==> r.value.total == |r.value.data| == |rows|
    ensures r.Success? && rows == [] ==> r.value.fields == [] && r.value.columns == []
  {
    if rows == [] then Success(Table([], [], [], 0))
    else if props.None? && descs != [] then Failure(NullPointer)
    else
      var shown := if props.Some? then props.value else [];
      Success(Table(FieldsFor(descs, shown, issue), ColumnsFor(descs, shown),
                    seq(|rows|, i requires 0 <= i < |rows| => DataRowOf(descs, rows[i])), |rows|))
  }

  // ---------------------------------------------------------------------
  // Properties

  /** Field i and column i describe the same attribute. */
  lemma {:induction false} FieldsMatchColumns(descs: seq<Descriptor>, props: seq<string>, issue: bool)
    ensures |FieldsFor(descs, props, issue)| == |ColumnsFor(descs, props)|
    ensures forall i :: 0 <= i < |FieldsFor(descs, props, issue)| ==>
      FieldsFor(descs, props, issue)[i].name == ColumnsFor(descs, props)[i].dataIndex
  {
    if descs != [] {
      FieldsMatchColumns(descs[..|descs| - 1], props, issue);
    }
  }

  /** The fields are exactly one per shown descriptor, in descriptor order. */
  lemma {:induction false} FieldsForShown(descs: seq<Descriptor>, props: seq<string>, issue: bool)
    ensures var shown := Shown(descs, props);
      FieldsFor(descs, props, issue) == seq(|shown|, i requires 0 <= i < |shown| => FieldOf(shown[i], issue))
  {
    if descs != [] {
      var prefix := descs[..|descs| - 1];
      FieldsForShown(prefix, props, issue);
    }
  }

  /** The columns are exactly one per shown descriptor, in descriptor order. */
  lemma {:induction false} ColumnsForShown(descs: seq<Descriptor>, props: seq<string>)
    ensures var shown := Shown(descs, props);
      ColumnsFor(descs, props) == seq(|shown|, i requires 0 <= i < |shown| => ColumnOf(shown[i]))
  {
    if descs != [] {
      var prefix := descs[..|descs| - 1];
      ColumnsForShown(prefix, props);
    }
  }

  /** A feature's object holds exactly its non-null attributes among the
      descriptors, with their values. */
  lemma {:induction false} DataRowContents(descs: seq<Descriptor>, row: Row)
    ensures forall k :: k in DataRowOf(descs, row) <==> k in Names(descs) && Get(row, k) != Null
    ensures forall k :: k in DataRowOf(descs, row) ==> DataRowOf(descs, row)[k] == Get(row, k)
  {
    if descs != [] {
      var prefix := descs[..|descs| - 1];
      DataRowContents(prefix, row);
      assert Names(descs) == Names(prefix) + {descs[|descs| - 1].name} by {
        assert forall d :: d in descs <==> d in prefix || d == descs[|descs| - 1];
      }
    }
  }
}

module Serializer {
  import opened Wrappers
  import opened Features
  import opened Serialization

  /** The descriptor loop for one feature: its object, and, for the first
      feature, the field and column of every descriptor whose name is an
      output property. */
  method FeatureToJson(feature: Row, descs: seq<Descriptor>, outputPropNames: Option<seq<string>>, issue: bool,
                       getMetadata: bool)
    returns (fault: Option<Fault>, fData: DataRow, fields: seq<Field>, columns: seq<Column>)
    ensures fault.Some? <==> getMetadata && outputPropNames.None? && descs != []
    ensures fault.Some? ==> fault.value == NullPointer
    ensures fault.None? ==> fData == DataRowOf(descs, feature)
    ensures fault.None? && getMetadata ==> var props := if outputPropNames.Some? then outputPropNames.value else [];
      fields == FieldsFor(descs, props, issue) && columns == ColumnsFor(descs, props)
    ensures fault.None? && !getMetadata ==> fields == [] && columns == []
  {
    fData := map[];
    fields := [];
    columns := [];
    ghost var props := if outputPropNames.Some? then outputPropNames.value else [];
    for k := 0 to |descs|
      invariant fData == DataRowOf(descs[..k], feature)
      invariant getMetadata && k > 0 ==> outputPropNames.Some?
      invariant getMetadata ==> fields == FieldsFor(descs[..k], props, issue) && columns == ColumnsFor(descs[..k], props)
      invariant !getMetadata ==> fields == [] && columns == []
    {
      var attr := descs[k];
      var name := attr.name;
      assert descs[..k + 1][..k] == descs[..k];
      if getMetadata {
        if outputPropNames.None? {
          return Some(NullPointer), fData, fields, columns;
        }
        if name in outputPropNames.value {
          var field := Field(name, attr.kind, None);
          if issue && attr.kind == DateType {
            field := field.(dateFormat := Some(MonthFormat));
          }
          fields := fields + [field];
          columns := columns + [Column(if attr.alias.Some? then attr.alias.value else name, name)];
        }
      }
      var value := Get(feature, name);
      if value == Null {
        fData := fData - {name};
      } else {
        fData := fData[name := value];
      }
    }
    assert descs[..|descs|] == descs;
    fault := None;
  }

  /** `featuresToJson`: every feature in order; the metadata from the first
      one only. */
  method FeaturesToJson(rows: seq<Row>, descs: seq<Descriptor>, outputPropNames: Option<seq<string>>, issue: bool)
    returns (r: Result<Table, Fault>)
    ensures r == ToJson(rows, descs, outputPropNames, issue)
  {
    var fields: seq<Field> := [];
    var columns: seq<Column> := [];
    var datas: seq<DataRow> := [];
    ghost var props := if outputPropNames.Some? then outputPropNames.value else [];
    var getMetadataFromFirstFeature := true;
    var i := 0;
    while i < |rows|
      invariant 0 <= i <= |rows|
      invariant getMetadataFromFirstFeature <==> i == 0
      invariant i == 0 ==> fields == [] && columns == []
      invariant i > 0 ==> (outputPropNames.Some? || descs == [])
      invariant i > 0 ==> fields == FieldsFor(descs, props, issue) && columns == ColumnsFor(descs, props)
      invariant |datas| == i && forall j :: 0 <= j < i ==> datas[j] == DataRowOf(descs, rows[j])
    {
      var fault, fData, newFields, newColumns := FeatureToJson(rows[i], descs, outputPropNames, issue, getMetadataFromFirstFeature);
      if fault.Some? {
        return Failure(fault.value);
      }
      fields := fields + newFields;
      columns := columns + newColumns;
      datas := datas + [fData];
      getMetadataFromFirstFeature := false;
      i := i + 1;
    }
    assert datas == seq(|rows|, j requires 0 <= j < |rows| => DataRowOf(descs, rows[j]));
    return Success(Table(fields, columns, datas, |datas|));
  }
}
