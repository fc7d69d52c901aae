/** `aggregateFields`, the aggregator of the aggregate report: a bucket per
    area name made from a feature template, then, for every source row, each
    summed field of the row added to the same field of the bucket the row's
    area value names. The template's default values come from outside the
    model and are a parameter. */
module FieldSums {
  import opened Wrappers
  import opened StringOrder
  import opened Features

  /** The attribute at index 0 of the aggregate feature type: the area. */
  const AreaAttribute := "gebied"

  /** The zero bucket of area `name`: the template with the area name as its
      first attribute. */
  function ZeroBucket(template: Row, name: string): (b: Row)
    ensures Get(b, AreaAttribute) == Text(name)
    ensures forall a :: a != AreaAttribute ==> Get(b, a) == Get(template, a)
  {
    template[AreaAttribute := Text(name)]
  }

  /** The buckets before any row is read: one per area name. */
  function ZeroBuckets(template: Row, names: seq<string>): (m: map<string, Row>)
    ensures m.Keys == set n | n in names
    ensures forall n :: n in m ==> m[n] == ZeroBucket(template, n)
  {
    map n | n in names :: ZeroBucket(template, n)
  }

  // ---------------------------------------------------------------------
  // One row

  /** One field of one row: the bucket's Double plus the row's BigDecimal,
      stored back as a Double. */
  function AddField(b: Row, row: Row, f: string): Result<Row, Fault>
  {
    match AsDouble(Get(b, f))
    case Failure(e) => Failure(e)
    case Success(x) =>
      match AsDecimal(Get(row, f))
      case Failure(e) => Failure(e)
      case Success(y) => Success(b[f := Double(x + y)])
  }

  /** The summed fields of one row added to bucket `b`, in list order; the
      first exception ends the row. */
  function AddFields(b: Row, row: Row, fields: seq<string>): Result<Row, Fault>
  {
    if fields == [] then Success(b)
    else
      match AddFields(b, row, fields[..|fields| - 1])
      case Failure(e) => Failure(e)
      case Success(c) => AddField(c, row, fields[|fields| - 1])
  }

  /** The exception field `f` raises against bucket `b`, if any. */
  function FieldFault(b: Row, row: Row, f: string): (r: Option<Fault>)
    ensures r.None? <==> Get(b, f).Double? && Get(row, f).Decimal?
  {
    match AddField(b, row, f)
    case Failure(e) => Some(e)
    case Success(_) => None
  }

  /** The exception of the first field that raises one against `b`. */
  function FirstFieldFault(b: Row, row: Row, fields: seq<string>): Option<Fault>
  {
    if fields == [] then None
    else if FirstFieldFault(b, row, fields[..|fields| - 1]).Some? then FirstFieldFault(b, row, fields[..|fields| - 1])
    else FieldFault(b, row, fields[|fields| - 1])
  }

  /** What an addition can observe of a value: whether it is a Double, and
      the value itself when it is not. */
  function Shape(v: Value): Value
  {
    if v.Double? then Double(0.0) else v
  }

  /** `c` has the attributes of `b`, with Doubles where `b` has Doubles
      and the same value everywhere else. */
  ghost predicate SameShape(b: Row, c: Row)
  {
    b.Keys == c.Keys && forall a :: Shape(Get(b, a)) == Shape(Get(c, a))
  }

  /** Adding fields only ever changes a Double into a Double. */
  lemma {:induction false} AddFieldsKeepsShape(b: Row, row: Row, fields: seq<string>)
    ensures AddFields(b, row, fields).Success? ==> SameShape(b, AddFields(b, row, fields).value)
  {
    if fields != [] {
      AddFieldsKeepsShape(b, row, fields[..|fields| - 1]);
    }
  }

  /** Whether adding fields raises, and what, depends only on the shape of
      the bucket. */
  lemma {:induction false} AddFieldsFaultByShape(b: Row, c: Row, row: Row, fields: seq<string>)
    requires SameShape(b, c)
    ensures AddFields(b, row, fields).Failure? <==> AddFields(c, row, fields).Failure?
    ensures AddFields(b, row, fields).Failure? ==> AddFields(b, row, fields).error == AddFields(c, row, fields).error
    ensures AddFields(c, row, fields).Success? ==> SameShape(b, AddFields(c, row, fields).value)
  {
    if fields != [] {
      var prefix := fields[..|fields| - 1];
      var f := fields[|fields| - 1];
      AddFieldsFaultByShape(b, c, row, prefix);
      AddFieldsKeepsShape(b, row, prefix);
      if AddFields(b, row, prefix).Success? {
        var b1, c1 := AddFields(b, row, prefix).value, AddFields(c, row, prefix).value;
        assert Shape(Get(b1, f)) == Shape(Get(c1, f));
      }
    }
  }

  /** With each field listed once, a row adds its value of every summed
      field to the bucket's, and raises the exception of the first field
      whose bucket value is not a Double or whose row value is not a
      BigDecimal. */
  lemma {:induction false} AddFieldsSums(b: Row, row: Row, fields: seq<string>)
    requires forall i, j :: 0 <= i < j < |fields| ==> fields[i] != fields[j]
    ensures AddFields(b, row, fields).Failure? <==> FirstFieldFault(b, row, fields).Some?
    ensures AddFields(b, row, fields).Failure? ==> AddFields(b, row, fields).error == FirstFieldFault(b, row, fields).value
    ensures AddFields(b, row, fields).Success? ==>
      forall f :: f in fields ==> Get(b, f).Double? && Get(row, f).Decimal?
    ensures AddFields(b, row, fields).Success? ==> var c := AddFields(b, row, fields).value;
      c.Keys == b.Keys &&
      forall a :: Get(c, a) == if a in fields then Double(Get(b, a).d + Get(row, a).x) else Get(b, a)
  {
    if fields != [] {
      var prefix := fields[..|fields| - 1];
      var f := fields[|fields| - 1];
      AddFieldsSums(b, row, prefix);
      assert f !in prefix;
      assert forall a :: a in fields <==> a in prefix || a == f;
    }
  }

  /** One row: its area value names the bucket; a key without a bucket is a
      null feature, dereferenced as soon as there is a field to add. */
  function AddRow(m: map<string, Row>, row: Row, areaField: string, fields: seq<string>): Result<map<string, Row>, Fault>
  {
    match AsText(Get(row, areaField))
    case Failure(e) => Failure(e)
    case Success(k) =>
      if k !in m then (if fields == [] then Success(m) else Failure(NullPointer))
      else
        match AddFields(m[k], row, fields)
        case Failure(e) => Failure(e)
        case Success(b) => Success(m[k := b])
  }

  /** All rows in order; the first exception ends the aggregation. */
  function FieldsFold(m: map<string, Row>, rows: seq<Row>, areaField: string, fields: seq<string>): Result<map<string, Row>, Fault>
  {
    if rows == [] then Success(m)
    else
      match FieldsFold(m, rows[..|rows| - 1], areaField, fields)
      case Failure(e) => Failure(e)
      case Success(m1) => AddRow(m1, rows[|rows| - 1], areaField, fields)
  }

  // ---------------------------------------------------------------------
  // Which row raises

  /** The exception row `row` raises against the zero buckets, if any. */
  function RowFault(zero: map<string, Row>, row: Row, areaField: string, fields: seq<string>): Option<Fault>
  {
    match AddRow(zero, row, areaField, fields)
    case Failure(e) => Some(e)
    case Success(_) => None
  }

  /** The exception of the first row that raises one against the zero
      buckets. */
  function FirstRowFault(zero: map<string, Row>, rows: seq<Row>, areaField: string, fields: seq<string>): Option<Fault>
  {
    if rows == [] then None
    else if FirstRowFault(zero, rows[..|rows| - 1], areaField, fields).Some? then FirstRowFault(zero, rows[..|rows| - 1], areaField, fields)
    else RowFault(zero, rows[|rows| - 1], areaField, fields)
  }

  ghost predicate SameShapes(m: map<string, Row>, n: map<string, Row>)
  {
    m.Keys == n.Keys && forall k :: k in m ==> SameShape(m[k], n[k])
  }

  lemma AddRowByShape(zero: map<string, Row>, m: map<string, Row>, row: Row, areaField: string, fields: seq<string>)
    requires SameShapes(zero, m)
    ensures AddRow(m, row, areaField, fields).Failure? <==> RowFault(zero, row, areaField, fields).Some?
    ensures AddRow(m, row, areaField, fields).Failure? ==> AddRow(m, row, areaField, fields).error == RowFault(zero, row, areaField, fields).value
    ensures AddRow(m, row, areaField, fields).Success? ==> SameShapes(zero, AddRow(m, row, areaField, fields).value)
  {
    var key := AsText(Get(row, areaField));
    if key.Success? && key.value in m {
      AddFieldsFaultByShape(zero[key.value], m[key.value], row, fields);
    }
  }

  /** The aggregation raises exactly when some row raises against the zero
      buckets, and then the first such row's exception: every earlier row
      only turned Doubles into Doubles. */
  lemma {:induction false} FieldsFoldFault(zero: map<string, Row>, rows: seq<Row>, areaField: string, fields: seq<string>)
    ensures FieldsFold(zero, rows, areaField, fields).Failure? <==> FirstRowFault(zero, rows, areaField, fields).Some?
    ensures FieldsFold(zero, rows, areaField, fields).Failure? ==>
      FieldsFold(zero, rows, areaField, fields).error == FirstRowFault(zero, rows, areaField, fields).value
    ensures FieldsFold(zero, rows, areaField, fields).Success? ==> SameShapes(zero, FieldsFold(zero, rows, areaField, fields).value)
  {
    if rows != [] {
      var prefix := rows[..|rows| - 1];
      FieldsFoldFault(zero, prefix, areaField, fields);
      if FieldsFold(zero, prefix, areaField, fields).Success? {
        AddRowByShape(zero, FieldsFold(zero, prefix, areaField, fields).value, rows[|rows| - 1], areaField, fields);
      }
    }
  }

  // ---------------------------------------------------------------------
  // What the buckets hold

  /** The sum of field `f` over the rows whose area value is `k`. */
  function FieldTotal(rows: seq<Row>, areaField: string, k: string, f: string): real
  {
    if rows == [] then 0.0
    else
      var row := rows[|rows| - 1];
      FieldTotal(rows[..|rows| - 1], areaField, k, f)
        + (if Get(row, areaField) == Text(k) && Get(row, f).Decimal? then Get(row, f).x else 0.0)
  }

  /** The value a bucket attribute ends with: a summed Double attribute
      gains the total of its field; any other attribute is left as it was
      (a summed attribute that is not a Double can only be left alone when
      no row reached it). */
  function Summed(zero: Value, summed: bool, total: real): Value
  {
    if summed && zero.Double? then Double(zero.d + total) else zero
  }

  /** One more row keeps the buckets equal to the template plus the totals. */
  lemma AddRowSums(zero: map<string, Row>, m1: map<string, Row>, rows: seq<Row>, areaField: string, fields: seq<string>)
    requires rows != []
    requires forall i, j :: 0 <= i < j < |fields| ==> fields[i] != fields[j]
    requires m1.Keys == zero.Keys
    requires forall k, a :: k in zero ==> Get(m1[k], a) == Summed(Get(zero[k], a), a in fields, FieldTotal(rows[..|rows| - 1], areaField, k, a))
    ensures AddRow(m1, rows[|rows| - 1], areaField, fields).Success? ==> var m := AddRow(m1, rows[|rows| - 1], areaField, fields).value;
      m.Keys == zero.Keys &&
      forall k, a :: k in zero ==> Get(m[k], a) == Summed(Get(zero[k], a), a in fields, FieldTotal(rows, areaField, k, a))
  {
    if AddRow(m1, rows[|rows| - 1], areaField, fields).Success? {
      forall k, a | k in zero
        ensures Get(AddRow(m1, rows[|rows| - 1], areaField, fields).value[k], a)
             == Summed(Get(zero[k], a), a in fields, FieldTotal(rows, areaField, k, a))
      {
        AddRowSumsAt(zero, m1, rows, areaField, fields, k, a);
      }
    }
  }

  /** `AddRowSums` for one bucket `k` and one attribute `a`. */
  lemma AddRowSumsAt(zero: map<string, Row>, m1: map<string, Row>, rows: seq<Row>, areaField: string, fields: seq<string>,
                     k: string, a: string)
    requires rows != []
    requires forall i, j :: 0 <= i < j < |fields| ==> fields[i] != fields[j]
    requires m1.Keys == zero.Keys && k in zero
    requires Get(m1[k], a) == Summed(Get(zero[k], a), a in fields, FieldTotal(rows[..|rows| - 1], areaField, k, a))
    requires AddRow(m1, rows[|rows| - 1], areaField, fields).Success?
    ensures Get(AddRow(m1, rows[|rows| - 1], areaField, fields).value[k], a)
         == Summed(Get(zero[k], a), a in fields, FieldTotal(rows, areaField, k, a))
  {
    var row := rows[|rows| - 1];
    var m := AddRow(m1, row, areaField, fields).value;
    var key := AsText(Get(row, areaField));
    if key.value == k && fields != [] {
      AddFieldsSums(m1[k], row, fields);
      if a in fields {
        assert Get(m1[k], a).Double?;
      }
    }
  }

  /** With each field listed once, every bucket ends with the template's
      value of each summed field plus the total of that field over the rows
      of its area, and every other attribute as the template had it. */
  lemma {:induction false} FieldsFoldSums(zero: map<string, Row>, rows: seq<Row>, areaField: string, fields: seq<string>)
    requires forall i, j :: 0 <= i < j < |fields| ==> fields[i] != fields[j]
    ensures FieldsFold(zero, rows, areaField, fields).Success? ==> var m := FieldsFold(zero, rows, areaField, fields).value;
      m.Keys == zero.Keys &&
      forall k, a :: k in zero ==> Get(m[k], a) == Summed(Get(zero[k], a), a in fields, FieldTotal(rows, areaField, k, a))
  {
    if rows != [] {
      var prefix := rows[..|rows| - 1];
      FieldsFoldSums(zero, prefix, areaField, fields);
      if FieldsFold(zero, prefix, areaField, fields).Success? {
        AddRowSums(zero, FieldsFold(zero, prefix, areaField, fields).value, rows, areaField, fields);
      }
    }
  }

  // ---------------------------------------------------------------------
  // What the aggregator returns

  /** The buckets of `m` in ascending key order. */
  ghost function FieldsReport(m: map<string, Row>): (out: seq<Row>)
    ensures |out| == |m|
  {
    var ks := Sorted(m.Keys);
    seq(|ks|, i requires 0 <= i < |ks| => m[ks[i]])
  }

  /** What `aggregateFields` returns: the first exception of the fold, or the
      buckets after it in ascending area order. */
  ghost function AggregatedFields(rows: seq<Row>, template: Row, names: seq<string>, fields: seq<string>, areaField: string): Result<seq<Row>, Fault>
  {
    match FieldsFold(ZeroBuckets(template, names), rows, areaField, fields)
    case Failure(e) => Failure(e)
    case Success(m) => Success(FieldsReport(m))
  }

  /** Buckets that carry their own key as area, read out in key order,
      carry ascending areas, one per key. */
  lemma FieldReadOut(m: map<string, Row>, ks: seq<string>, out: seq<Row>)
    requires forall k :: k in m ==> Get(m[k], AreaAttribute) == Text(k)
    requires Ascending(ks) && forall k :: k in m <==> k in ks
    requires |out| == |ks| && forall i :: 0 <= i < |ks| ==> out[i] == m[ks[i]]
    ensures forall b :: b in out ==> Get(b, AreaAttribute).Text? && Get(b, AreaAttribute).s in m && b == m[Get(b, AreaAttribute).s]
    ensures forall i, j :: 0 <= i < j < |out| ==> Less(Get(out[i], AreaAttribute).s, Get(out[j], AreaAttribute).s)
    ensures (set b | b in out :: Get(b, AreaAttribute).s) == m.Keys
  {
    forall k | k in m ensures k in (set b | b in out :: Get(b, AreaAttribute).s) {
      var i :| 0 <= i < |ks| && ks[i] == k;
      assert out[i] in out;
    }
  }

  /** `aggregateFields` raises exactly the exception of the first row that
      raises against the zero buckets. */
  lemma AggregatedFieldsFault(rows: seq<Row>, template: Row, names: seq<string>, fields: seq<string>, areaField: string)
    ensures var r := AggregatedFields(rows, template, names, fields, areaField);
      var first := FirstRowFault(ZeroBuckets(template, names), rows, areaField, fields);
      && (r.Failure? <==> first.Some?)
      && (r.Failure? ==> r.error == first.value)
  {
    FieldsFoldFault(ZeroBuckets(template, names), rows, areaField, fields);
  }

  /** Without an exception, `aggregateFields` returns one bucket per area
      name, in ascending area order. */
  lemma AggregatedFieldsAreas(rows: seq<Row>, template: Row, names: seq<string>, fields: seq<string>, areaField: string)
    ensures var r := AggregatedFields(rows, template, names, fields, areaField);
      r.Success? ==>
        && (forall b :: b in r.value ==> Get(b, AreaAttribute).Text?)
        && (forall i, j :: 0 <= i < j < |r.value| ==> Less(Get(r.value[i], AreaAttribute).s, Get(r.value[j], AreaAttribute).s))
        && (set b | b in r.value :: Get(b, AreaAttribute).s) == (set n | n in names)
  {
    var zero := ZeroBuckets(template, names);
    FieldsFoldFault(zero, rows, areaField, fields);
    var res := FieldsFold(zero, rows, areaField, fields);
    if res.Success? {
      AreaKept(zero, res.value);
      FieldReadOut(res.value, Sorted(res.value.Keys), FieldsReport(res.value));
    }
  }

  /** With each summed field listed once, every bucket `aggregateFields`
      returns holds, for every attribute, the template's value plus (for a
      summed Double attribute) the total of that field over the rows of its
      area. */
  lemma AggregatedFieldsSums(rows: seq<Row>, template: Row, names: seq<string>, fields: seq<string>, areaField: string)
    requires forall i, j :: 0 <= i < j < |fields| ==> fields[i] != fields[j]
    ensures var r := AggregatedFields(rows, template, names, fields, areaField);
      r.Success? ==>
        && (forall b :: b in r.value ==> Get(b, AreaAttribute).Text?)
        && forall b, a :: b in r.value && Get(b, AreaAttribute).Text? ==> var area := Get(b, AreaAttribute).s;
          Get(b, a) == Summed(Get(ZeroBucket(template, area), a), a in fields, FieldTotal(rows, areaField, area, a))
  {
    var zero := ZeroBuckets(template, names);
    FieldsFoldFault(zero, rows, areaField, fields);
    var res := FieldsFold(zero, rows, areaField, fields);
    if res.Success? {
      var m := res.value;
      FieldsFoldSums(zero, rows, areaField, fields);
      AreaKept(zero, m);
      FieldReadOut(m, Sorted(m.Keys), FieldsReport(m));
    }
  }

  // ---------------------------------------------------------------------
  // What the loops need

  lemma ZeroBucketsSnoc(template: Row, names: seq<string>, i: nat)
    requires i < |names|
    ensures ZeroBuckets(template, names[..i + 1]) == ZeroBuckets(template, names[..i])[names[i] := ZeroBucket(template, names[i])]
  {
    assert names[..i + 1] == names[..i] + [names[i]];
  }

  /** Once the fields up to `i` raise, the whole row raises the same. */
  lemma {:induction false} AddFieldsFailurePersists(b: Row, row: Row, fields: seq<string>, i: nat)
    requires i <= |fields| && AddFields(b, row, fields[..i]).Failure?
    ensures AddFields(b, row, fields) == AddFields(b, row, fields[..i])
  {
    if i < |fields| {
      var prefix := fields[..|fields| - 1];
      assert prefix[..i] == fields[..i];
      AddFieldsFailurePersists(b, row, prefix, i);
    } else {
      assert fields[..i] == fields;
    }
  }

  /** Once the rows up to `i` raise, the whole aggregation raises the same. */
  lemma {:induction false} FieldsFoldFailurePersists(m: map<string, Row>, rows: seq<Row>, areaField: string, fields: seq<string>, i: nat)
    requires i <= |rows| && FieldsFold(m, rows[..i], areaField, fields).Failure?
    ensures FieldsFold(m, rows, areaField, fields) == FieldsFold(m, rows[..i], areaField, fields)
  {
    if i < |rows| {
      var prefix := rows[..|rows| - 1];
      assert prefix[..i] == rows[..i];
      FieldsFoldFailurePersists(m, prefix, areaField, fields, i);
    } else {
      assert rows[..i] == rows;
    }
  }

  /** Buckets of the shape of the zero buckets still carry their own key as
      their area. */
  lemma AreaKept(zero: map<string, Row>, m: map<string, Row>)
    requires SameShapes(zero, m)
    requires forall k :: k in zero ==> Get(zero[k], AreaAttribute) == Text(k)
    ensures forall k :: k in m ==> Get(m[k], AreaAttribute) == Text(k)
  {
    forall k | k in m ensures Get(m[k], AreaAttribute) == Text(k) {
      assert Shape(Get(zero[k], AreaAttribute)) == Shape(Get(m[k], AreaAttribute));
    }
  }
}

module FieldAggregators {
  import opened Wrappers
  import opened StringOrder
  import opened Features
  import opened SortedMaps
  import opened FieldSums

  /** The inner loop: each summed field of `row` added to the bucket. */
  method AddFieldsTo(b: Row, row: Row, fields: seq<string>) returns (r: Result<Row, Fault>)
    ensures r == AddFields(b, row, fields)
  {
    var newFeat := b;
    for i := 0 to |fields|
      invariant AddFields(b, row, fields[..i]) == Success(newFeat)
    {
      var aggrFieldName := fields[i];
      assert fields[..i + 1][..i] == fields[..i];
      var x := AsDouble(Get(newFeat, aggrFieldName));
      if x.Failure? {
        AddFieldsFailurePersists(b, row, fields, i + 1);
        return Failure(x.error);
      }
      var y := AsDecimal(Get(row, aggrFieldName));
      if y.Failure? {
        AddFieldsFailurePersists(b, row, fields, i + 1);
        return Failure(y.error);
      }
      newFeat := newFeat[aggrFieldName := Double(x.value + y.value)];
    }
    assert fields[..|fields|] == fields;
    return Success(newFeat);
  }

  /** The body of the row loop: look the bucket up by the row's area value,
      then add the row's fields to it. */
  method AddRowTo(tm: TreeMap<Row>, row: Row, areaField: string, fields: seq<string>) returns (fault: Option<Fault>)
    requires tm.Valid()
    modifies tm
    ensures AddRow(old(tm.entries), row, areaField, fields).Failure? ==>
      fault == Some(AddRow(old(tm.entries), row, areaField, fields).error)
    ensures AddRow(old(tm.entries), row, areaField, fields).Success? ==>
      fault.None? && tm.Valid() && tm.keys == old(tm.keys) && tm.entries == AddRow(old(tm.entries), row, areaField, fields).value
  {
    var key := AsText(Get(row, areaField));
    if key.Failure? {
      return Some(key.error);
    }
    var newFeat := tm.Get(key.value);
    if newFeat.None? {
      if fields == [] {
        return None;
      }
      return Some(NullPointer);
    }
    var b := AddFieldsTo(newFeat.value, row, fields);
    if b.Failure? {
      return Some(b.error);
    }
    tm.Put(key.value, b.value);
    return None;
  }

  /** One pass of the row loop, at row `i`. */
  method FoldFieldsRow(tm: TreeMap<Row>, row: Row, areaField: string, fields: seq<string>, i: nat,
                       ghost zero: map<string, Row>, ghost rows: seq<Row>)
    returns (fault: Option<Fault>)
    requires i < |rows| && rows[i] == row && tm.Valid()
    requires FieldsFold(zero, rows[..i], areaField, fields) == Success(tm.entries)
    modifies tm
    ensures fault.Some? ==> FieldsFold(zero, rows, areaField, fields) == Failure(fault.value)
    ensures fault.None? ==> tm.Valid() && tm.keys == old(tm.keys)
    ensures fault.None? ==> FieldsFold(zero, rows[..i + 1], areaField, fields) == Success(tm.entries)
  {
    assert rows[..i + 1][..i] == rows[..i];
    fault := AddRowTo(tm, row, areaField, fields);
    if fault.Some? {
      FieldsFoldFailurePersists(zero, rows, areaField, fields, i + 1);
    }
  }

  /** The buckets before any row is read: for each area name the template
      with the name as its area. */
  method ZeroFieldBuckets(template: Row, names: seq<string>) returns (newfeats: TreeMap<Row>)
    ensures fresh(newfeats) && newfeats.Valid()
    ensures newfeats.entries == ZeroBuckets(template, names)
  {
    newfeats := new TreeMap<Row>();
    for i := 0 to |names|
      invariant fresh(newfeats) && newfeats.Valid()
      invariant newfeats.entries == ZeroBuckets(template, names[..i])
    {
      var fName := names[i];
      var newfeat := template[AreaAttribute := Text(fName)];
      ZeroBucketsSnoc(template, names, i);
      newfeats.Put(fName, newfeat);
    }
    assert names[..|names|] == names;
  }

  /** `aggregateFields`: a bucket per area name, the rows' summed fields
      added to the bucket their area value names, the buckets in ascending
      area order. */
  method AggregateFields(rows: seq<Row>, template: Row, names: seq<string>, fields: seq<string>, areaField: string)
    returns (r: Result<seq<Row>, Fault>)
    ensures r == AggregatedFields(rows, template, names, fields, areaField)
  {
    var newfeats := ZeroFieldBuckets(template, names);
    ghost var zero := newfeats.entries;
    var i := 0;
    while i < |rows|
      invariant 0 <= i <= |rows|
      invariant newfeats.Valid()
      invariant FieldsFold(zero, rows[..i], areaField, fields) == Success(newfeats.entries)
    {
      var fault := FoldFieldsRow(newfeats, rows[i], areaField, fields, i, zero, rows);
      if fault.Some? {
        return Failure(fault.value);
      }
      i := i + 1;
    }
    assert rows[..i] == rows;
    KeysSorted(newfeats);
    var feats := newfeats.Values();
    assert feats == FieldsReport(newfeats.entries);
    return Success(feats);
  }
}
