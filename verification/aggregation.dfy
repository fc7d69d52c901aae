/** The buckets of the uitgifte (issue) reports and what each source row adds
    to them. Both uitgifte aggregators build a zero bucket per key before any
    source row is read, then fold over the rows: each row yields a step (the
    bucket it selects and the amount it adds) or an exception, and the first
    exception ends the report. */
module Aggregation {
  import opened Wrappers
  import opened Calendar
  import opened StringOrder
  import opened Features
  import opened ArrayLists

  /** Issue date of a related row. */
  const DateField := "datumuitgifte"
  /** Surface of a related row, the summed measure. */
  const MeasureField := "opp_geometrie"

  /** A feature of the AGGREGATE type (id, geom, maand, oppervlakte, gebied);
      its geometry is always null and is not represented. */
  datatype AggregateFeature = AggregateFeature(id: string, maand: Option<string>, oppervlakte: real, gebied: string)

  /** The attributes of an aggregate feature, as `getAttribute` reads them. */
  function AsRow(b: AggregateFeature): (row: Row)
    ensures Get(row, "id") == Text(b.id) && Get(row, "gebied") == Text(b.gebied)
    ensures Get(row, "oppervlakte") == Double(b.oppervlakte) && Get(row, "geom") == Null
    ensures Get(row, "maand") == if b.maand.Some? then Text(b.maand.value) else Null
  {
    map["id" := Text(b.id), "geom" := Null,
        "maand" := (if b.maand.Some? then Text(b.maand.value) else Null),
        "oppervlakte" := Double(b.oppervlakte), "gebied" := Text(b.gebied)]
  }

  // ---------------------------------------------------------------------
  // Buckets and their keys

  /** The key of the month bucket of area `name`: the name followed by the
      month's "YYYY.MM" label. */
  function MonthKey(name: string, d: Month): string
  {
    name + Label(d)
  }

  /** The month bucket of area `name` and month `d` holding `total`. */
  function MonthBucket(name: string, d: Month, total: real): AggregateFeature
  {
    AggregateFeature(MonthKey(name, d), Some(Label(d)), total, name)
  }

  /** The area bucket of area `name` holding `total`: no month. */
  function AreaBucket(name: string, total: real): AggregateFeature
  {
    AggregateFeature(name, None, total, name)
  }

  /** The keys of the month buckets of area `name`: one for each of the
      first `months` months from `from` on. */
  ghost function AreaMonthKeys(name: string, from: Month, months: int): set<string>
    decreases months
  {
    if months <= 0 then {} else AreaMonthKeys(name, from, months - 1) + {MonthKey(name, AddMonths(from, months - 1))}
  }

  /** All month keys: every area name paired with every month in
      [from, from + months). Empty when `months <= 0`. */
  ghost function MonthKeys(names: seq<string>, from: Month, months: int): set<string>
  {
    if names == [] then {}
    else MonthKeys(names[..|names| - 1], from, months) + AreaMonthKeys(names[|names| - 1], from, months)
  }

  /** An empty or inverted date range gives no month buckets at all. */
  lemma {:induction false} NoMonthsNoKeys(names: seq<string>, from: Month, months: int)
    requires months <= 0
    ensures MonthKeys(names, from, months) == {}
  {
    if names != [] {
      NoMonthsNoKeys(names[..|names| - 1], from, months);
    }
  }

  /** Every key of `AreaMonthKeys` is the key of one of the months of the range. */
  lemma {:induction false} AreaMonthKeyOf(name: string, from: Month, months: int, k: string) returns (m: nat)
    requires k in AreaMonthKeys(name, from, months)
    ensures m < months && k == MonthKey(name, AddMonths(from, m))
    decreases months
  {
    if k == MonthKey(name, AddMonths(from, months - 1)) {
      m := months - 1;
    } else {
      m := AreaMonthKeyOf(name, from, months - 1, k);
    }
  }

  /** The key of every month of the range is in `AreaMonthKeys`. */
  lemma {:induction false} AreaMonthKeyIn(name: string, from: Month, months: int, m: nat)
    requires m < months
    ensures MonthKey(name, AddMonths(from, m)) in AreaMonthKeys(name, from, months)
    decreases months
  {
    if m < months - 1 {
      AreaMonthKeyIn(name, from, months - 1, m);
    }
  }

  lemma AreaMonthKeysNext(name: string, from: Month, m: nat)
    ensures AreaMonthKeys(name, from, m + 1) == AreaMonthKeys(name, from, m) + {MonthKey(name, AddMonths(from, m))}
  {
  }

  /** Every month key is the key of an area name and a month of the range. */
  lemma {:induction false} MonthKeyOf(names: seq<string>, from: Month, months: int, k: string) returns (n: string, m: nat)
    requires k in MonthKeys(names, from, months)
    ensures n in names && m < months && k == MonthKey(n, AddMonths(from, m))
  {
    var prefix := names[..|names| - 1];
    n := names[|names| - 1];
    if k in AreaMonthKeys(n, from, months) {
      m := AreaMonthKeyOf(n, from, months, k);
    } else {
      n, m := MonthKeyOf(prefix, from, months, k);
      assert n in names by {
        var i :| 0 <= i < |prefix| && prefix[i] == n;
        assert names[i] == n;
      }
    }
  }

  /** Every area name and month of the range give a month key. */
  lemma {:induction false} MonthKeyIn(names: seq<string>, from: Month, months: int, n: string, m: nat)
    requires n in names && m < months
    ensures MonthKey(n, AddMonths(from, m)) in MonthKeys(names, from, months)
  {
    var last := names[|names| - 1];
    if n == last {
      AreaMonthKeyIn(n, from, months, m);
    } else {
      var prefix := names[..|names| - 1];
      var i :| 0 <= i < |names| && names[i] == n;
      assert prefix[i] == n;
      MonthKeyIn(prefix, from, months, n, m);
    }
  }

  /** The month bucket for a key, read back from the key itself: the last
      seven characters are the label, the rest is the area name. */
  function BucketOfKey(k: string, total: real): AggregateFeature
  {
    if |k| >= 7 then AggregateFeature(k, Some(k[|k| - 7..]), total, k[..|k| - 7])
    else AggregateFeature(k, None, total, k)
  }

  /** Every bucket of `m` is the zero month bucket its key describes. */
  ghost predicate ZeroFilled(m: map<string, AggregateFeature>)
  {
    forall k :: k in m ==> m[k] == BucketOfKey(k, 0.0)
  }

  lemma ZeroFilledPut(m: map<string, AggregateFeature>, name: string, d: Month)
    requires ZeroFilled(m)
    ensures ZeroFilled(m[MonthKey(name, d) := MonthBucket(name, d, 0.0)])
  {
    MonthBucketOfKey(name, d, 0.0);
  }

  /** Every bucket of `m` is the zero area bucket of its key. */
  ghost predicate AreaZeroFilled(m: map<string, AggregateFeature>)
  {
    forall k :: k in m ==> m[k] == AreaBucket(k, 0.0)
  }

  /** Reading a month key back gives the bucket it was built from. */
  lemma MonthBucketOfKey(name: string, d: Month, total: real)
    ensures BucketOfKey(MonthKey(name, d), total) == MonthBucket(name, d, total)
  {
    var k := MonthKey(name, d);
    assert k[|k| - 7..] == Label(d);
    assert k[..|k| - 7] == name;
  }

  /** Because every label has the same length, a month key determines its
      area name and its month. */
  lemma MonthKeyDistinct(n1: string, d1: Month, n2: string, d2: Month)
    requires FourDigitYear(d1) && FourDigitYear(d2)
    requires MonthKey(n1, d1) == MonthKey(n2, d2)
    ensures n1 == n2 && d1 == d2
  {
    MonthBucketOfKey(n1, d1, 0.0);
    MonthBucketOfKey(n2, d2, 0.0);
    LabelInjective(d1, d2);
  }

  // ---------------------------------------------------------------------
  // What a source row contributes

  /** How a related row selects its bucket: by its area attribute and the
      month of its issue date, or by its area attribute alone. */
  datatype KeyRule = ByMonth(areaField: string) | ByArea(areaField: string)

  /** The bucket a row selects and the amount it adds to it. */
  datatype Step = Step(key: string, amount: real)

  /** The bucket key a row computes. By month: the date is cast to a Date
      (a null date fails when it is formatted) and the area value is put in
      front of its label, a null area as "null". By area: the area value is
      cast to a String, and a null key fails in the TreeMap lookup. */
  function RowKey(rule: KeyRule, row: Row): (r: Result<string, Fault>)
    ensures rule.ByArea? ==> (r.Success? <==> Get(row, rule.areaField).Text?)
    ensures rule.ByArea? && r.Success? ==> r.value == Get(row, rule.areaField).s
    ensures rule.ByMonth? ==> (r.Success? <==> Get(row, DateField).Date? && (Get(row, rule.areaField).Null? || Get(row, rule.areaField).Text?))
    ensures rule.ByMonth? && r.Success? ==>
      r.value == (if Get(row, rule.areaField).Null? then "null" else Get(row, rule.areaField).s) + Label(Get(row, DateField).m)
  {
    match rule
    case ByArea(areaField) => AsText(Get(row, areaField))
    case ByMonth(areaField) =>
      match Get(row, DateField)
      case Date(d) =>
        (match Get(row, areaField)
         case Text(s) => Success(s + Label(d))
         case Null => Success("null" + Label(d))
         case v => Failure(ClassCast(ClassName(v), "java.lang.String")))
      case Null => Failure(NullPointer)
      case v => Failure(ClassCast(ClassName(v), "java.util.Date"))
  }

  /** One row of the fold: a key with no bucket dereferences null, and the
      measure must be a BigDecimal. */
  function StepOf(rule: KeyRule, row: Row, keys: set<string>): (r: Result<Step, Fault>)
    ensures r.Success? <==> RowKey(rule, row).Success? && RowKey(rule, row).value in keys && Get(row, MeasureField).Decimal?
    ensures r.Success? ==> r.value == Step(RowKey(rule, row).value, Get(row, MeasureField).x)
    ensures RowKey(rule, row).Failure? ==> r == Failure(RowKey(rule, row).error)
    ensures RowKey(rule, row).Success? && RowKey(rule, row).value !in keys ==> r == Failure(NullPointer)
  {
    match RowKey(rule, row)
    case Failure(e) => Failure(e)
    case Success(k) =>
      if k !in keys then Failure(NullPointer)
      else match AsDecimal(Get(row, MeasureField))
        case Failure(e) => Failure(e)
        case Success(x) => Success(Step(k, x))
  }

  /** The step of each row, in row order. */
  function Steps(rule: KeyRule, rows: seq<Row>, keys: set<string>): (r: seq<Result<Step, Fault>>)
    ensures |r| == |rows|
    ensures forall i :: 0 <= i < |rows| ==> r[i] == StepOf(rule, rows[i], keys)
    ensures forall i :: 0 <= i < |rows| && r[i].Success? ==> r[i].value.key in keys
  {
    seq(|rows|, i requires 0 <= i < |rows| => StepOf(rule, rows[i], keys))
  }

  // ---------------------------------------------------------------------
  // The fold over the steps

  /** The exception of the first step that raises one, if any. */
  function FirstFault(steps: seq<Result<Step, Fault>>): Option<Fault>
  {
    if steps == [] then None
    else
      var earlier := FirstFault(steps[..|steps| - 1]);
      if earlier.Some? then earlier
      else match steps[|steps| - 1]
        case Failure(e) => Some(e)
        case Success(_) => None
  }

  /** The fold raises nothing exactly when every step succeeds. */
  lemma {:induction false} NoFaultIffAllSucceed(steps: seq<Result<Step, Fault>>)
    ensures FirstFault(steps).None? <==> forall i :: 0 <= i < |steps| ==> steps[i].Success?
  {
    if steps != [] {
      var prefix := steps[..|steps| - 1];
      NoFaultIffAllSucceed(prefix);
      assert forall i :: 0 <= i < |prefix| ==> prefix[i] == steps[i];
    }
  }

  /** The exception reported is that of the first failing step: every step
      before it succeeded. */
  lemma {:induction false} FaultIsFirstFailure(steps: seq<Result<Step, Fault>>)
    requires FirstFault(steps).Some?
    ensures exists i :: 0 <= i < |steps| && steps[i] == Failure(FirstFault(steps).value)
                        && forall j :: 0 <= j < i ==> steps[j].Success?
  {
    var prefix := steps[..|steps| - 1];
    if FirstFault(prefix).Some? {
      FaultIsFirstFailure(prefix);
      var i :| 0 <= i < |prefix| && prefix[i] == Failure(FirstFault(prefix).value)
        && forall j :: 0 <= j < i ==> prefix[j].Success?;
      assert steps[i] == prefix[i];
    } else {
      NoFaultIffAllSucceed(prefix);
      assert forall j :: 0 <= j < |prefix| ==> steps[j] == prefix[j];
    }
  }

  /** Once a prefix of the steps has raised an exception, later steps change
      nothing. */
  lemma {:induction false} FaultPersists(steps: seq<Result<Step, Fault>>, j: nat)
    requires j <= |steps| && FirstFault(steps[..j]).Some?
    ensures FirstFault(steps) == FirstFault(steps[..j])
  {
    if j < |steps| {
      var prefix := steps[..|steps| - 1];
      assert prefix[..j] == steps[..j];
      FaultPersists(prefix, j);
    } else {
      assert steps[..j] == steps;
    }
  }

  /** The amount a step adds to bucket `k`. */
  function Contribution(s: Result<Step, Fault>, k: string): real
  {
    if s.Success? && s.value.key == k then s.value.amount else 0.0
  }

  /** The sum of the amounts of the steps that select bucket `k`. */
  function Total(steps: seq<Result<Step, Fault>>, k: string): real
  {
    if steps == [] then 0.0
    else Total(steps[..|steps| - 1], k) + Contribution(steps[|steps| - 1], k)
  }

  /** A bucket that no step selects keeps its zero. */
  lemma {:induction false} TotalUnselected(steps: seq<Result<Step, Fault>>, k: string)
    requires forall i :: 0 <= i < |steps| && steps[i].Success? ==> steps[i].value.key != k
    ensures Total(steps, k) == 0.0
  {
    if steps != [] {
      TotalUnselected(steps[..|steps| - 1], k);
    }
  }

  /** A bucket that no row selects keeps its zero. */
  lemma UnselectedBucketStaysZero(rule: KeyRule, rows: seq<Row>, keys: set<string>, k: string)
    requires forall i :: 0 <= i < |rows| ==> RowKey(rule, rows[i]) != Success(k)
    ensures Total(Steps(rule, rows, keys), k) == 0.0
  {
    TotalUnselected(Steps(rule, rows, keys), k);
  }

  /** The buckets `start` after the amounts of `steps` have been added, step
      by step, each to the bucket it selects. */
  ghost function AddedUp(start: map<string, AggregateFeature>, steps: seq<Result<Step, Fault>>): (r: map<string, AggregateFeature>)
    ensures r.Keys == start.Keys
  {
    if steps == [] then start
    else
      var m := AddedUp(start, steps[..|steps| - 1]);
      match steps[|steps| - 1]
      case Success(s) =>
        if s.key in m then m[s.key := m[s.key].(oppervlakte := m[s.key].oppervlakte + s.amount)] else m
      case Failure(_) => m
  }

  /** After the fold, every bucket holds its start value plus the total of
      the steps that select it; nothing else of the bucket changes. */
  lemma {:induction false} AddedUpTotals(start: map<string, AggregateFeature>, steps: seq<Result<Step, Fault>>, k: string)
    requires k in start
    ensures AddedUp(start, steps)[k] == start[k].(oppervlakte := start[k].oppervlakte + Total(steps, k))
  {
    if steps != [] {
      AddedUpTotals(start, steps[..|steps| - 1], k);
    }
  }

  /** A failing step after a prefix that raised nothing is the fold's first
      exception. */
  lemma FoldFault(steps: seq<Result<Step, Fault>>, i: nat)
    requires i < |steps| && FirstFault(steps[..i]).None? && steps[i].Failure?
    ensures FirstFault(steps) == Some(steps[i].error)
  {
    assert steps[..i + 1][..i] == steps[..i];
    FaultPersists(steps, i + 1);
  }

  /** A succeeding step extends the fold by one bucket update. */
  lemma FoldAdvance(start: map<string, AggregateFeature>, steps: seq<Result<Step, Fault>>, i: nat, s: Step,
                    before: map<string, AggregateFeature>, after: map<string, AggregateFeature>)
    requires i < |steps| && FirstFault(steps[..i]).None? && steps[i] == Success(s) && s.key in start
    requires before == AddedUp(start, steps[..i])
    requires after == before[s.key := before[s.key].(oppervlakte := before[s.key].oppervlakte + s.amount)]
    ensures FirstFault(steps[..i + 1]).None?
    ensures after == AddedUp(start, steps[..i + 1])
  {
    assert steps[..i + 1][..i] == steps[..i];
  }

  // ---------------------------------------------------------------------
  // No measure is lost

  /** The sum of all amounts the fold adds. */
  function AddedAmount(steps: seq<Result<Step, Fault>>): real
  {
    if steps == [] then 0.0
    else
      var s := steps[|steps| - 1];
      AddedAmount(steps[..|steps| - 1]) + (if s.Success? then s.value.amount else 0.0)
  }

  function SumOfTotals(steps: seq<Result<Step, Fault>>, ks: seq<string>): real
  {
    if ks == [] then 0.0
    else SumOfTotals(steps, ks[..|ks| - 1]) + Total(steps, ks[|ks| - 1])
  }

  function SumOfContributions(s: Result<Step, Fault>, ks: seq<string>): real
  {
    if ks == [] then 0.0
    else SumOfContributions(s, ks[..|ks| - 1]) + Contribution(s, ks[|ks| - 1])
  }

  lemma {:induction false} SumOfTotalsSnoc(steps: seq<Result<Step, Fault>>, ks: seq<string>)
    requires steps != []
    ensures SumOfTotals(steps, ks)
         == SumOfTotals(steps[..|steps| - 1], ks) + SumOfContributions(steps[|steps| - 1], ks)
  {
    if ks != [] {
      SumOfTotalsSnoc(steps, ks[..|ks| - 1]);
    }
  }

  lemma {:induction false} SumOfContributionsOnce(s: Result<Step, Fault>, ks: seq<string>)
    requires forall i, j :: 0 <= i < j < |ks| ==> ks[i] != ks[j]
    ensures s.Success? && s.value.key in ks ==> SumOfContributions(s, ks) == s.value.amount
    ensures !(s.Success? && s.value.key in ks) ==> SumOfContributions(s, ks) == 0.0
  {
    if ks != [] {
      SumOfContributionsOnce(s, ks[..|ks| - 1]);
      if s.Success? && s.value.key == ks[|ks| - 1] {
        assert s.value.key !in ks[..|ks| - 1];
      }
    }
  }

  lemma {:induction false} ZeroTotals(ks: seq<string>)
    ensures SumOfTotals([], ks) == 0.0
  {
    if ks != [] {
      ZeroTotals(ks[..|ks| - 1]);
    }
  }

  /** Over a key sequence that lists every selected bucket exactly once, the
      bucket totals add up to the sum of all amounts. */
  lemma {:induction false} TotalsConserveAmount(steps: seq<Result<Step, Fault>>, ks: seq<string>)
    requires forall i, j :: 0 <= i < j < |ks| ==> ks[i] != ks[j]
    requires forall i :: 0 <= i < |steps| && steps[i].Success? ==> steps[i].value.key in ks
    ensures SumOfTotals(steps, ks) == AddedAmount(steps)
  {
    if steps == [] {
      ZeroTotals(ks);
    } else {
      var prefix := steps[..|steps| - 1];
      SumOfTotalsSnoc(steps, ks);
      assert forall i :: 0 <= i < |prefix| ==> prefix[i] == steps[i];
      TotalsConserveAmount(prefix, ks);
      SumOfContributionsOnce(steps[|steps| - 1], ks);
    }
  }

  function Ids(out: seq<AggregateFeature>): (ks: seq<string>)
    ensures |ks| == |out| && forall i :: 0 <= i < |out| ==> ks[i] == out[i].id
  {
    if out == [] then [] else Ids(out[..|out| - 1]) + [out[|out| - 1].id]
  }

  /** The sum of the `oppervlakte` of the output buckets. */
  function SumOfMeasures(out: seq<AggregateFeature>): real
  {
    if out == [] then 0.0 else SumOfMeasures(out[..|out| - 1]) + out[|out| - 1].oppervlakte
  }

  lemma {:induction false} SumOfMeasuresIsSumOfTotals(steps: seq<Result<Step, Fault>>, out: seq<AggregateFeature>)
    requires forall b :: b in out ==> b.oppervlakte == Total(steps, b.id)
    ensures SumOfMeasures(out) == SumOfTotals(steps, Ids(out))
  {
    if out != [] {
      var prefix := out[..|out| - 1];
      SumOfMeasuresIsSumOfTotals(steps, prefix);
      assert Ids(out)[..|out| - 1] == Ids(prefix);
      assert out[|out| - 1] in out;
    }
  }

  /** The aggregators' output conserves the measure: when every bucket a
      step can select appears exactly once and holds its total, the bucket
      measures add up to the sum of the measures of all rows. */
  lemma OutputConservesAmount(steps: seq<Result<Step, Fault>>, keys: set<string>, out: seq<AggregateFeature>)
    requires forall i, j :: 0 <= i < j < |out| ==> out[i].id != out[j].id
    requires forall i :: 0 <= i < |steps| && steps[i].Success? ==> steps[i].value.key in keys
    requires keys <= set b | b in out :: b.id
    requires forall b :: b in out ==> b.oppervlakte == Total(steps, b.id)
    ensures SumOfMeasures(out) == AddedAmount(steps)
  {
    var ks := Ids(out);
    forall k | k in keys ensures k in ks {
      var b :| b in out && b.id == k;
      var i :| 0 <= i < |out| && out[i] == b;
      assert ks[i] == k;
    }
    SumOfMeasuresIsSumOfTotals(steps, out);
    TotalsConserveAmount(steps, ks);
  }

  /** What `aggregateUitgifteByMonthAndArea` returns: a bucket for each key
      in ascending key order, holding the total of the steps that select it. */
  ghost function MonthReport(keys: set<string>, steps: seq<Result<Step, Fault>>): (out: seq<AggregateFeature>)
    ensures |out| == |keys|
  {
    var ks := Sorted(keys);
    seq(|ks|, i requires 0 <= i < |ks| => BucketOfKey(ks[i], Total(steps, ks[i])))
  }

  /** The area buckets in ascending key order, each holding its total. */
  ghost function AreaBuckets(keys: set<string>, steps: seq<Result<Step, Fault>>): (out: seq<AggregateFeature>)
    ensures |out| == |keys|
  {
    var ks := Sorted(keys);
    seq(|ks|, i requires 0 <= i < |ks| => AreaBucket(ks[i], Total(steps, ks[i])))
  }

  /** What `aggregateUitgifteByArea` returns: the area buckets turned
      around, so in descending key order. */
  ghost function AreaReport(keys: set<string>, steps: seq<Result<Step, Fault>>): (out: seq<AggregateFeature>)
    ensures |out| == |keys|
  {
    Reversed(AreaBuckets(keys, steps))
  }

  /** What `aggregateUitgifteByMonthAndArea` computes: the first exception
      of the fold, or the month report. */
  ghost function MonthAggregation(rows: seq<Row>, names: seq<string>, areaField: string, from: Month, to: Month)
    : Result<seq<AggregateFeature>, Fault>
  {
    var keys := MonthKeys(names, from, DifferenceInMonths(from, to));
    var steps := Steps(ByMonth(areaField), rows, keys);
    if FirstFault(steps).Some? then Failure(FirstFault(steps).value) else Success(MonthReport(keys, steps))
  }

  /** What `aggregateUitgifteByArea` computes: the first exception of the
      fold, or the area report. */
  ghost function AreaAggregation(rows: seq<Row>, names: seq<string>, areaField: string): Result<seq<AggregateFeature>, Fault>
  {
    var keys := set n | n in names;
    var steps := Steps(ByArea(areaField), rows, keys);
    if FirstFault(steps).Some? then Failure(FirstFault(steps).value) else Success(AreaReport(keys, steps))
  }

  /** The zero month buckets read out of the map in key order after the fold
      are the month report. */
  lemma MonthReadOut(zero: map<string, AggregateFeature>, steps: seq<Result<Step, Fault>>, ks: seq<string>, out: seq<AggregateFeature>)
    requires ZeroFilled(zero) && ks == Sorted(zero.Keys)
    requires |out| == |ks| && forall i :: 0 <= i < |ks| ==> out[i] == AddedUp(zero, steps)[ks[i]]
    ensures out == MonthReport(zero.Keys, steps)
  {
    forall i | 0 <= i < |out| ensures out[i] == BucketOfKey(ks[i], Total(steps, ks[i])) {
      AddedUpTotals(zero, steps, ks[i]);
    }
  }

  /** The zero area buckets read out of the map in key order after the fold
      are the area buckets with their totals. */
  lemma AreaReadOut(zero: map<string, AggregateFeature>, steps: seq<Result<Step, Fault>>, ks: seq<string>, out: seq<AggregateFeature>)
    requires AreaZeroFilled(zero) && ks == Sorted(zero.Keys)
    requires |out| == |ks| && forall i :: 0 <= i < |ks| ==> out[i] == AddedUp(zero, steps)[ks[i]]
    ensures out == AreaBuckets(zero.Keys, steps)
  {
    forall i | 0 <= i < |out| ensures out[i] == AreaBucket(ks[i], Total(steps, ks[i])) {
      AddedUpTotals(zero, steps, ks[i]);
    }
  }

  /** Buckets whose ids are the keys in ascending order have ascending,
      distinct ids, and exactly the keys as ids. */
  lemma SortedIds(keys: set<string>, out: seq<AggregateFeature>)
    requires |out| == |Sorted(keys)| && forall i :: 0 <= i < |out| ==> out[i].id == Sorted(keys)[i]
    ensures forall i, j :: 0 <= i < j < |out| ==> Less(out[i].id, out[j].id) && out[i].id != out[j].id
    ensures (set b | b in out :: b.id) == keys
  {
    var ks := Sorted(keys);
    forall k | k in keys ensures k in (set b | b in out :: b.id) {
      var i :| 0 <= i < |ks| && ks[i] == k;
      assert out[i].id == k;
    }
    forall i, j | 0 <= i < j < |out| ensures out[i].id != out[j].id {
      LessIrreflexive(out[i].id);
    }
  }

  /** The month report holds one bucket per key, in ascending key order;
      each is the bucket its key describes, holding the key's total; and,
      when every step selects one of the keys, no measure is lost. */
  lemma MonthReportProperties(keys: set<string>, steps: seq<Result<Step, Fault>>)
    ensures var out := MonthReport(keys, steps);
      forall i, j :: 0 <= i < j < |out| ==> Less(out[i].id, out[j].id)
    ensures (set b | b in MonthReport(keys, steps) :: b.id) == keys
    ensures forall b :: b in MonthReport(keys, steps) ==> b == BucketOfKey(b.id, Total(steps, b.id))
    ensures (forall i :: 0 <= i < |steps| && steps[i].Success? ==> steps[i].value.key in keys) ==>
      SumOfMeasures(MonthReport(keys, steps)) == AddedAmount(steps)
  {
    var out := MonthReport(keys, steps);
    SortedIds(keys, out);
    forall b | b in out ensures b == BucketOfKey(b.id, Total(steps, b.id)) {
      var i :| 0 <= i < |out| && out[i] == b;
    }
    if forall i :: 0 <= i < |steps| && steps[i].Success? ==> steps[i].value.key in keys {
      OutputConservesAmount(steps, keys, out);
    }
  }

  /** The area report holds one bucket per area name, in descending name
      order, each holding the name's total; and, when every step selects
      one of the names, no measure is lost. */
  lemma AreaReportProperties(keys: set<string>, steps: seq<Result<Step, Fault>>)
    ensures var out := AreaReport(keys, steps);
      forall i, j :: 0 <= i < j < |out| ==> Less(out[j].id, out[i].id)
    ensures (set b | b in AreaReport(keys, steps) :: b.id) == keys
    ensures forall b :: b in AreaReport(keys, steps) ==> b == AreaBucket(b.id, Total(steps, b.id))
    ensures (forall i :: 0 <= i < |steps| && steps[i].Success? ==> steps[i].value.key in keys) ==>
      SumOfMeasures(AreaReport(keys, steps)) == AddedAmount(steps)
  {
    var values := AreaBuckets(keys, steps);
    var out := AreaReport(keys, steps);
    SortedIds(keys, values);
    forall b | b in values ensures b == AreaBucket(b.id, Total(steps, b.id)) {
      var i :| 0 <= i < |values| && values[i] == b;
    }
    AreaReversed(steps, keys, values, out);
  }

  /** Ascending ids turned around are descending, and still distinct. */
  lemma ReversedDescending(values: seq<AggregateFeature>, out: seq<AggregateFeature>)
    requires out == Reversed(values)
    requires forall i, j :: 0 <= i < j < |values| ==> Less(values[i].id, values[j].id)
    ensures forall i, j :: 0 <= i < j < |out| ==> Less(out[j].id, out[i].id) && out[i].id != out[j].id
  {
    forall i, j | 0 <= i < j < |out| ensures Less(out[j].id, out[i].id) && out[i].id != out[j].id {
      assert out[j] == values[|values| - 1 - j] && out[i] == values[|values| - 1 - i];
      LessIrreflexive(out[i].id);
    }
  }

  /** The area buckets turned around: descending ids, the same buckets,
      the same sum. */
  lemma AreaReversed(steps: seq<Result<Step, Fault>>, keys: set<string>, values: seq<AggregateFeature>, out: seq<AggregateFeature>)
    requires out == Reversed(values)
    requires forall i, j :: 0 <= i < j < |values| ==> Less(values[i].id, values[j].id)
    requires (set b | b in values :: b.id) == keys
    requires forall b :: b in values ==> b == AreaBucket(b.id, Total(steps, b.id))
    ensures forall i, j :: 0 <= i < j < |out| ==> Less(out[j].id, out[i].id)
    ensures (set b | b in out :: b.id) == keys
    ensures forall b :: b in out ==> b == AreaBucket(b.id, Total(steps, b.id))
    ensures (forall i :: 0 <= i < |steps| && steps[i].Success? ==> steps[i].value.key in keys) ==>
      SumOfMeasures(out) == AddedAmount(steps)
  {
    ReversedMembers(values);
    assert (set b | b in out :: b.id) == (set b | b in values :: b.id);
    ReversedDescending(values, out);
    if forall i :: 0 <= i < |steps| && steps[i].Success? ==> steps[i].value.key in keys {
      OutputConservesAmount(steps, keys, out);
    }
  }
}

module Aggregators {
  import opened Wrappers
  import opened Calendar
  import opened StringOrder
  import opened Features
  import opened SortedMaps
  import opened ArrayLists
  import opened Aggregation

  /** The body of the fold loop for one row: the row's key, its bucket, its
      measure; on success the bucket gains the measure. */
  method AddUpRow(tm: TreeMap<AggregateFeature>, rule: KeyRule, f: Row) returns (step: Result<Step, Fault>)
    requires tm.Valid()
    modifies tm
    ensures step == StepOf(rule, f, old(tm.entries).Keys)
    ensures step.Success? ==> tm.Valid() && tm.keys == old(tm.keys)
    ensures step.Success? ==> var k := step.value.key; var b := old(tm.entries)[k];
      tm.entries == old(tm.entries)[k := b.(oppervlakte := b.oppervlakte + step.value.amount)]
  {
    var key := RowKey(rule, f);
    if key.Failure? {
      return Failure(key.error);
    }
    var newFeat := tm.Get(key.value);
    if newFeat.None? {
      return Failure(NullPointer);
    }
    var measure := AsDecimal(Get(f, MeasureField));
    if measure.Failure? {
      return Failure(measure.error);
    }
    var b := newFeat.value;
    tm.Put(key.value, b.(oppervlakte := b.oppervlakte + measure.value));
    return Success(Step(key.value, measure.value));
  }

  /** One pass of the fold loop, at row `i` whose step is `steps[i]`:
      either the fold has still raised nothing and the buckets hold the
      totals of the first i + 1 rows, or the row's exception is the fold's
      first. */
  method FoldRow(tm: TreeMap<AggregateFeature>, rule: KeyRule, row: Row, i: nat,
                 ghost start: map<string, AggregateFeature>, ghost steps: seq<Result<Step, Fault>>)
    returns (step: Result<Step, Fault>)
    requires i < |steps| && steps[i] == StepOf(rule, row, start.Keys) && tm.Valid()
    requires FirstFault(steps[..i]).None? && tm.entries == AddedUp(start, steps[..i])
    modifies tm
    ensures step.Failure? ==> FirstFault(steps) == Some(step.error)
    ensures step.Success? ==> tm.Valid() && tm.keys == old(tm.keys)
    ensures step.Success? ==> FirstFault(steps[..i + 1]).None? && tm.entries == AddedUp(start, steps[..i + 1])
  {
    step := AddUpRow(tm, rule, row);
    if step.Failure? {
      FoldFault(steps, i);
    } else {
      FoldAdvance(start, steps, i, step.value, old(tm.entries), tm.entries);
    }
  }

  /** The fold loop shared by both uitgifte aggregators: add each row's
      measure to the bucket its key selects, stopping at the first row that
      raises an exception. No bucket is added or removed. */
  method AddUpMeasures(tm: TreeMap<AggregateFeature>, rule: KeyRule, rows: seq<Row>) returns (fault: Option<Fault>)
    requires tm.Valid()
    modifies tm
    ensures fault == FirstFault(Steps(rule, rows, old(tm.entries).Keys))
    ensures fault.None? ==> tm.Valid() && tm.keys == old(tm.keys)
    ensures fault.None? ==> tm.entries == AddedUp(old(tm.entries), Steps(rule, rows, old(tm.entries).Keys))
  {
    ghost var start := tm.entries;
    ghost var steps := Steps(rule, rows, start.Keys);
    var i := 0;
    while i < |rows|
      invariant 0 <= i <= |rows|
      invariant tm.Valid() && tm.keys == old(tm.keys)
      invariant FirstFault(steps[..i]).None?
      invariant tm.entries == AddedUp(start, steps[..i])
    {
      var step := FoldRow(tm, rule, rows[i], i, start, steps);
      if step.Failure? {
        return Some(step.error);
      }
      i := i + 1;
    }
    assert steps[..i] == steps;
    return None;
  }

  /** After `m` months of the inner zero-fill loop: `t` is valid and holds
      the zero buckets present before (`done`) and those of the first `m`
      months of area `name`. */
  ghost predicate FilledMonths(t: TreeMap<AggregateFeature>, done: set<string>, name: string, from: Month, m: int)
    reads t
  {
    t.Valid() && ZeroFilled(t.entries) && t.entries.Keys == done + AreaMonthKeys(name, from, m)
  }

  /** The zero month bucket of area `fName` for the `m`-th month from
      `from`, which is `d`; returns the month after `d`. */
  method PutZeroMonth(newfeats: TreeMap<AggregateFeature>, fName: string, from: Month, m: nat, d: Month,
                      ghost done: set<string>) returns (next: Month)
    requires d == AddMonths(from, m)
    requires FilledMonths(newfeats, done, fName, from, m)
    modifies newfeats
    ensures next == AddMonths(from, m + 1)
    ensures FilledMonths(newfeats, done, fName, from, m + 1)
  {
    var key := fName + Label(d);
    ZeroFilledPut(newfeats.entries, fName, d);
    newfeats.Put(key, AggregateFeature(key, Some(Label(d)), 0.0, fName));
    AreaMonthKeysNext(fName, from, m);
    next := AddMonth(d);
  }

  /** The inner zero-fill loop: a zero bucket for area `fName` and each of
      the `months` months from `from` on. */
  method ZeroMonthBucketsOf(newfeats: TreeMap<AggregateFeature>, fName: string, from: Month, months: int)
    requires newfeats.Valid() && ZeroFilled(newfeats.entries)
    modifies newfeats
    ensures newfeats.Valid() && ZeroFilled(newfeats.entries)
    ensures newfeats.entries.Keys == old(newfeats.entries.Keys) + AreaMonthKeys(fName, from, months)
  {
    ghost var done := newfeats.entries.Keys;
    FilledNoMonths(newfeats, fName, from);
    var newDate := from;
    var m := 0;
    while m < months
      invariant 0 <= m && (m <= months || m == 0)
      invariant newDate == AddMonths(from, m)
      invariant FilledMonths(newfeats, done, fName, from, m)
    {
      newDate := PutZeroMonth(newfeats, fName, from, m, newDate, done);
      m := m + 1;
    }
    FilledAllMonths(newfeats, done, fName, from, months, m);
  }

  /** Before the loop no month has been filled in. */
  lemma FilledNoMonths(t: TreeMap<AggregateFeature>, name: string, from: Month)
    requires t.Valid() && ZeroFilled(t.entries)
    ensures FilledMonths(t, t.entries.Keys, name, from, 0)
  {
  }

  /** The loop is done after `m` months when `m` is the whole range, or when
      the range is empty. */
  lemma FilledAllMonths(t: TreeMap<AggregateFeature>, done: set<string>, name: string, from: Month, months: int, m: nat)
    requires FilledMonths(t, done, name, from, m)
    requires m == months || (months <= 0 && m == 0)
    ensures t.Valid() && ZeroFilled(t.entries) && t.entries.Keys == done + AreaMonthKeys(name, from, months)
  {
  }

  /** The zero-filled month buckets: for every area name and each of the
      `months` months from `from` on, a bucket keyed name + "YYYY.MM". */
  method ZeroMonthBuckets(names: seq<string>, from: Month, months: int) returns (newfeats: TreeMap<AggregateFeature>)
    ensures fresh(newfeats) && newfeats.Valid() && ZeroFilled(newfeats.entries)
    ensures newfeats.entries.Keys == MonthKeys(names, from, months)
  {
    newfeats := new TreeMap<AggregateFeature>();
    for i := 0 to |names|
      invariant fresh(newfeats) && newfeats.Valid() && ZeroFilled(newfeats.entries)
      invariant newfeats.entries.Keys == MonthKeys(names[..i], from, months)
    {
      ZeroMonthBucketsOf(newfeats, names[i], from, months);
      assert names[..i + 1][..i] == names[..i];
    }
    assert names[..|names|] == names;
  }

  /** `aggregateUitgifteByMonthAndArea`: a zero bucket for every area name
      and every month from `from` on, `DifferenceInMonths(from, to)` months
      in all; then each related row's opp_geometrie is added to the bucket of
      its area and issue month. The buckets come out in ascending key order
      (the reversal is commented out in this aggregator). */
  method AggregateByMonthAndArea(rows: seq<Row>, names: seq<string>, areaField: string, from: Month, to: Month)
    returns (r: Result<seq<AggregateFeature>, Fault>)
    ensures r == MonthAggregation(rows, names, areaField, from, to)
  {
    var months := DifferenceInMonths(from, to);
    // a feature for each month for each area name, with 0 area
    var newfeats := ZeroMonthBuckets(names, from, months);
    r := AddUpMonths(newfeats, rows, areaField);
  }

  /** The fold over the related rows into zero-filled month buckets, and
      their read-out in ascending key order. */
  method AddUpMonths(newfeats: TreeMap<AggregateFeature>, rows: seq<Row>, areaField: string)
    returns (r: Result<seq<AggregateFeature>, Fault>)
    requires newfeats.Valid() && ZeroFilled(newfeats.entries)
    modifies newfeats
    ensures var keys := old(newfeats.entries).Keys;
      var steps := Steps(ByMonth(areaField), rows, keys);
      r == if FirstFault(steps).Some? then Failure(FirstFault(steps).value) else Success(MonthReport(keys, steps))
  {
    ghost var zero := newfeats.entries;
    ghost var steps := Steps(ByMonth(areaField), rows, zero.Keys);
    // for each month add up opp_geometrie
    var fault := AddUpMeasures(newfeats, ByMonth(areaField), rows);
    if fault.Some? {
      return Failure(fault.value);
    }
    var feats := MonthValues(newfeats, zero, steps);
    return Success(feats);
  }

  /** `new ArrayList(newfeats.values())` after the fold: the month report. */
  method MonthValues(newfeats: TreeMap<AggregateFeature>, ghost zero: map<string, AggregateFeature>,
                     ghost steps: seq<Result<Step, Fault>>) returns (feats: seq<AggregateFeature>)
    requires newfeats.Valid() && ZeroFilled(zero) && newfeats.entries == AddedUp(zero, steps)
    ensures feats == MonthReport(zero.Keys, steps)
  {
    KeysSorted(newfeats);
    feats := newfeats.Values();
    MonthReadOut(zero, steps, newfeats.keys, feats);
  }

  /** The zero-filled area buckets: one per area name, keyed by the name. */
  method ZeroAreaBuckets(names: seq<string>) returns (newfeats: TreeMap<AggregateFeature>)
    ensures fresh(newfeats) && newfeats.Valid() && AreaZeroFilled(newfeats.entries)
    ensures newfeats.entries.Keys == set n | n in names
  {
    newfeats := new TreeMap<AggregateFeature>();
    for i := 0 to |names|
      invariant fresh(newfeats) && newfeats.Valid() && AreaZeroFilled(newfeats.entries)
      invariant newfeats.entries.Keys == set n | n in names[..i]
    {
      var fName := names[i];
      newfeats.Put(fName, AggregateFeature(fName, None, 0.0, fName));
      assert names[..i + 1] == names[..i] + [fName];
    }
    assert names[..|names|] == names;
  }

  /** `aggregateUitgifteByArea`: a zero bucket for every area name, then
      each related row's opp_geometrie is added to the bucket its area value
      names. The buckets come out in descending key order. */
  method AggregateByArea(rows: seq<Row>, names: seq<string>, areaField: string)
    returns (r: Result<seq<AggregateFeature>, Fault>)
    ensures r == AreaAggregation(rows, names, areaField)
  {
    ghost var keys := set n | n in names;
    var newfeats := ZeroAreaBuckets(names);
    ghost var zero := newfeats.entries;
    ghost var steps := Steps(ByArea(areaField), rows, keys);
    var fault := AddUpMeasures(newfeats, ByArea(areaField), rows);
    if fault.Some? {
      return Failure(fault.value);
    }
    KeysSorted(newfeats);
    var values := newfeats.Values();
    AreaReadOut(zero, steps, newfeats.keys, values);
    var feats := FromSeq(values);
    Reverse(feats);
    return Success(feats[..]);
  }
}
