# IBIS report action — a Dafny model

This project models the report action of the IBIS viewer
(`IbisAttributeListActionBean`). The action answers a grid request with a
JSON envelope.

- `query` checks the request: a bound application layer, authorization and a
  report type.
- It selects the area the report is about. The finest area given wins: a
  terrein over a gemeente over a regio. The selection sets the action's
  `areaType` and its CQL filter `gebiedsNaamQuery`.
- It writes one of three reports: the issue report (uitgifte), the
  individual report or the aggregate report.
- It answers with `success`, `message` and `metaData`, plus the report's
  fields, columns, data and total.

The issue report works in three steps.

1. It collects the terrein, regio and gemeente names of the base features
   into three TreeSets.
2. It adds up the surface (`opp_geometrie`) of the related kavel features
   into zero-filled buckets. There is one bucket per area and month
   (`aggregateUitgifteByMonthAndArea`), or one per area
   (`aggregateUitgifteByArea`, listed in reverse key order).
3. It writes the buckets out through `featuresToJson`.

The aggregate report sums the requested attributes of the base features into
one bucket for the requested area (`aggregateFields`).

The model is imperative where the Java is:

- a `TreeMap` class (a sorted key sequence over a map) whose `Put` keeps the
  keys in `String.compareTo` order;
- loops with invariants for the bucket fills, the folds and the serializer;
- an in-place array reversal;
- the action as a class `ReportBean` whose `Query` updates `areaType` and
  `gebiedsNaamQuery`.

Each method is proved equal to a specification function. The properties of
the reports are lemmas about those functions: ordering, one bucket per key,
each bucket holding exactly the total of its rows, conservation of the summed
surface, the first exception deciding the error, and the envelope's check
order.

Java exceptions are the datatype `Fault`. On Java 8, the runtime this code
targets, an implicit `NullPointerException` carries no message, so a report failing on a null pointer answers with success false
and no message. The datastores are inputs (`Store`), and so are the outcomes
of the layer and authorization hooks (`Request`).

In these places the code behaves in ways a reader may not expect; the model
follows the code:

- In the issue report, an area with no base features does not give an empty
  report. `in.substring(0, in.length() - 1)` then throws
  `StringIndexOutOfBoundsException` (-1).
- A data row omits attributes whose value is null, because
  `JSONObject.put(name, null)` removes the key.
- The aggregate report queries features without a `gebied` attribute, so
  the bucket lookup with a null name fails on a null pointer as soon as
  there is a base feature (`Reports.AggregateNeedsAreaAttribute`).

## Model

| member | source | states |
|---|---|---|
| Reports.AreaSelection | viewer/src/main/java/nl/b3p/viewer/stripes/IbisAttributeListActionBean.java:258-268 | no area is selected exactly when none of terrein, gemeente and regio is given; the selected level is given and every finer level is absent; the filter is `field='value'` of that level |
| Reports.Outcome | viewer/src/main/java/nl/b3p/viewer/stripes/IbisAttributeListActionBean.java:238-300 | the reply always carries the fixed metaData (data, total, success, message); success holds exactly when a report table is present, and a success says "OK". Once the layer, authorization and report-type checks pass, success holds exactly when the report is generated, the table is that report, and a failure carries the exception's message (`Features.Message`) |
| Reports.CheckOrder | viewer/src/main/java/nl/b3p/viewer/stripes/IbisAttributeListActionBean.java:248-268 | a missing layer, a refused authorization, a missing report type and a missing area are answered in that order, each with its own message, success false and no table |
| Reports.SuccessNeedsValidRequest | viewer/src/main/java/nl/b3p/viewer/stripes/IbisAttributeListActionBean.java:248-285 | a successful reply implies a layer, authorization, a report type and a selected area |
| Reports.NullPointerIsSilent | viewer/src/main/java/nl/b3p/viewer/stripes/IbisAttributeListActionBean.java:286-295 | a report failing on a null pointer gives success false and no message |
| Features.Message | viewer/src/main/java/nl/b3p/viewer/stripes/IbisAttributeListActionBean.java:288 | an exception has no message exactly when it is a null pointer |
| Reports.IssueNeedsDates | viewer/src/main/java/nl/b3p/viewer/stripes/IbisAttributeListActionBean.java:309-311 | an issue request without both dates is refused with the dates-required message, whatever the datastores hold |
| ReportActions.ReportBean.Query | viewer/src/main/java/nl/b3p/viewer/stripes/IbisAttributeListActionBean.java:238-300 | the reply equals `Outcome`; when the checks pass and an area is given, `areaType` and `gebiedsNaamQuery` hold the selected level and filter; otherwise both are unchanged |
| ReportActions.ReportBean.Generate | viewer/src/main/java/nl/b3p/viewer/stripes/IbisAttributeListActionBean.java:256-281 | the area precedence chain followed by the report switch equals `Generated`, and the area fields are set exactly when an area was given |
| Reports.RowNames | viewer/src/main/java/nl/b3p/viewer/stripes/IbisAttributeListActionBean.java:368-370 | a base feature's names are taken exactly when its terrein, regio and gemeente attributes are all Strings, and they are those Strings |
| ReportActions.CollectAreaNames | viewer/src/main/java/nl/b3p/viewer/stripes/IbisAttributeListActionBean.java:341-372 | the name loop fails exactly when `CollectedNames` does, with the same exception; otherwise one id per feature, and the three TreeSets hold the collected names |
| ReportActions.AddAreaNames | viewer/src/main/java/nl/b3p/viewer/stripes/IbisAttributeListActionBean.java:366-370 | one base feature: the three `(String)` casts and TreeSet adds fail exactly as `CollectedNames` does over the features so far; otherwise the three sets hold the names collected up to and including this feature |
| ReportActions.AddName | viewer/src/main/java/nl/b3p/viewer/stripes/IbisAttributeListActionBean.java:368 | one `(String)` cast and TreeSet add: it fails exactly when the value is not a String, with the cast's exception; otherwise the set gains exactly that name |
| Reports.CollectedNamesSucceed | viewer/src/main/java/nl/b3p/viewer/stripes/IbisAttributeListActionBean.java:365-371 | the name loop raises nothing exactly when every base feature has String names |
| Reports.CollectedNamesAt | viewer/src/main/java/nl/b3p/viewer/stripes/IbisAttributeListActionBean.java:365-371 | after the loop, each level's set holds exactly the names some base feature has at that level |
| Reports.CollectedNamesFault | viewer/src/main/java/nl/b3p/viewer/stripes/IbisAttributeListActionBean.java:365-371 | the loop's exception is that of the first base feature whose names do not cast |
| Reports.CollectedNamesFailurePersists | viewer/src/main/java/nl/b3p/viewer/stripes/IbisAttributeListActionBean.java:365-371 | once a prefix of the base features raises, the whole loop raises the same exception |
| ReportActions.ReportBean.ReportIssued | viewer/src/main/java/nl/b3p/viewer/stripes/IbisAttributeListActionBean.java:308-472 | equals `IssueReport`: the dates check, then a missing relation, the name casts, an empty base (index -1), a null aggregation level or date level, then aggregation and output |
| ReportActions.ReportBean.AggregateIssue | viewer/src/main/java/nl/b3p/viewer/stripes/IbisAttributeListActionBean.java:422-467 | the switch on level and date level with the chosen name set, then the output, equals `IssueTable` over the ascending names of the set |
| Reports.IssueMetadata | viewer/src/main/java/nl/b3p/viewer/stripes/IbisAttributeListActionBean.java:398-466 | the issue descriptors yield, by month, a "maand" field with date format "Y-m" and then oppervlakte and gebied (column "gebiedsnaam"); without months, only oppervlakte and gebied. The reply carries them only when there is at least one bucket (`Reports.IssueOneRowPerArea`) |
| Reports.IssueOneRowPerArea | viewer/src/main/java/nl/b3p/viewer/stripes/IbisAttributeListActionBean.java:422-467 | a successful issue report without a month split has as many rows as there are area names at the requested level |
| Reports.AggregateNeedsAreaAttribute | viewer/src/main/java/nl/b3p/viewer/stripes/IbisAttributeListActionBean.java:666-757 | when the sub type builds and the first base feature has no `gebied` value, the aggregate report fails on a null pointer |
| Reports.FirstRowFaultAtStart | viewer/src/main/java/nl/b3p/viewer/stripes/IbisAttributeListActionBean.java:748-757 | when the first feature raises against the zero buckets, that exception is the fold's first |
| ReportActions.ReportBean.ReportIndividualData | viewer/src/main/java/nl/b3p/viewer/stripes/IbisAttributeListActionBean.java:616-636 | equals `IndividualReport`: the layer's features written with the layer's descriptors and the requested attributes |
| ReportActions.ReportBean.ReportAggregateData | viewer/src/main/java/nl/b3p/viewer/stripes/IbisAttributeListActionBean.java:656-731 | equals `AggregateReport`: a null attribute list, a failing sub type, a null level and a null area name each raise; otherwise the summed buckets are written with the area descriptor first |
| ReportActions.ShownDescriptors | viewer/src/main/java/nl/b3p/viewer/stripes/IbisAttributeListActionBean.java:694-699 | keeps exactly the layer descriptors whose name is requested, in order |
| Calendar.AddMonth | viewer/src/main/java/nl/b3p/viewer/stripes/IbisAttributeListActionBean.java:501 | the next calendar month is one month index further |
| Calendar.AddMonths | viewer/src/main/java/nl/b3p/viewer/stripes/IbisAttributeListActionBean.java:495-502 | advancing by m months adds m to the month index |
| Calendar.DifferenceInMonths | viewer/src/main/java/nl/b3p/viewer/stripes/IbisAttributeListActionBean.java:489 | the difference is non-negative exactly when the range is ordered; advancing the start by it reaches the end, and advancing the end by its negation reaches the start |
| Calendar.DifferenceInMonthsReachesTo | viewer/src/main/java/nl/b3p/viewer/stripes/IbisAttributeListActionBean.java:489 | for an ordered range, the difference is non-negative and advancing the start by it reaches the end month |
| Calendar.AddMonthsInjective | viewer/src/main/java/nl/b3p/viewer/stripes/IbisAttributeListActionBean.java:495-502 | distinct month steps give distinct months |
| Calendar.Label | viewer/src/main/java/nl/b3p/viewer/stripes/IbisAttributeListActionBean.java:490 | the label is seven characters: the year modulo 10000 in four digits, a '.', the month in two digits |
| Calendar.LabelInjective | viewer/src/main/java/nl/b3p/viewer/stripes/IbisAttributeListActionBean.java:490-497 | months with four-digit years have distinct labels |
| Calendar.DigitsInjective | viewer/src/main/java/nl/b3p/viewer/stripes/IbisAttributeListActionBean.java:490 | zero-padded digit strings of one width determine their number |
| StringOrder.LessIrreflexive | viewer/src/main/java/nl/b3p/viewer/stripes/IbisAttributeListActionBean.java:344-362 | no string comes before itself in `compareTo` order |
| StringOrder.LessTransitive | viewer/src/main/java/nl/b3p/viewer/stripes/IbisAttributeListActionBean.java:344-362 | `compareTo` order is transitive |
| StringOrder.LessTotal | viewer/src/main/java/nl/b3p/viewer/stripes/IbisAttributeListActionBean.java:344-362 | two different strings are ordered one way or the other |
| StringOrder.LessAsymmetric | viewer/src/main/java/nl/b3p/viewer/stripes/IbisAttributeListActionBean.java:344-362 | `compareTo` order is asymmetric |
| StringOrder.Sorted | viewer/src/main/java/nl/b3p/viewer/stripes/IbisAttributeListActionBean.java:365-370 | the iteration order of a TreeSet: strictly ascending, with the set's elements and its size |
| StringOrder.AscendingUnique | viewer/src/main/java/nl/b3p/viewer/stripes/IbisAttributeListActionBean.java:518 | two strictly ascending sequences with the same elements are equal |
| SortedMaps.TreeMap.Get | viewer/src/main/java/nl/b3p/viewer/stripes/IbisAttributeListActionBean.java:510 | the lookup finds a value exactly for a present key, and it is that key's value |
| SortedMaps.TreeMap.Put | viewer/src/main/java/nl/b3p/viewer/stripes/IbisAttributeListActionBean.java:500 | the entry is set, the keys stay strictly ascending, and the key order is unchanged when the key was present |
| SortedMaps.TreeMap.Values | viewer/src/main/java/nl/b3p/viewer/stripes/IbisAttributeListActionBean.java:518 | the values listed in key order |
| SortedMaps.KeysSorted | viewer/src/main/java/nl/b3p/viewer/stripes/IbisAttributeListActionBean.java:518 | a TreeMap's key order is the ascending order of its key set |
| ArrayLists.Reversed | viewer/src/main/java/nl/b3p/viewer/stripes/IbisAttributeListActionBean.java:558 | position i holds the element at position n-1-i |
| ArrayLists.ReversedSameElements | viewer/src/main/java/nl/b3p/viewer/stripes/IbisAttributeListActionBean.java:558 | reversing is a permutation |
| ArrayLists.Reverse | viewer/src/main/java/nl/b3p/viewer/stripes/IbisAttributeListActionBean.java:558 | the list reversed in place |
| ArrayLists.FromSeq | viewer/src/main/java/nl/b3p/viewer/stripes/IbisAttributeListActionBean.java:557 | a new list holding the values in order |
| Features.AsText | viewer/src/main/java/nl/b3p/viewer/stripes/IbisAttributeListActionBean.java:550 | a String cast succeeds exactly on a String, giving it |
| Features.AsDecimal | viewer/src/main/java/nl/b3p/viewer/stripes/IbisAttributeListActionBean.java:513 | a BigDecimal cast succeeds exactly on a BigDecimal, giving its value |
| Features.AsDouble | viewer/src/main/java/nl/b3p/viewer/stripes/IbisAttributeListActionBean.java:754 | a Double cast succeeds exactly on a Double, giving its value |
| Aggregation.AsRow | viewer/src/main/java/nl/b3p/viewer/stripes/IbisAttributeListActionBean.java:394-396 | an AGGREGATE feature reads back its id, area, surface and month, and a null geometry |
| Aggregation.NoMonthsNoKeys | viewer/src/main/java/nl/b3p/viewer/stripes/IbisAttributeListActionBean.java:489-503 | an empty or inverted date range creates no month buckets |
| Aggregation.MonthKeyOf | viewer/src/main/java/nl/b3p/viewer/stripes/IbisAttributeListActionBean.java:494-503 | every month bucket key is an area name followed by the label of a month in the range |
| Aggregation.MonthKeyIn | viewer/src/main/java/nl/b3p/viewer/stripes/IbisAttributeListActionBean.java:494-503 | every area name and month of the range has a bucket |
| Aggregation.MonthKeyDistinct | viewer/src/main/java/nl/b3p/viewer/stripes/IbisAttributeListActionBean.java:497 | a month key determines its area name and month (four-digit years) |
| Aggregation.MonthBucketOfKey | viewer/src/main/java/nl/b3p/viewer/stripes/IbisAttributeListActionBean.java:497-499 | the bucket created under a key is the one its key describes |
| Aggregation.RowKey | viewer/src/main/java/nl/b3p/viewer/stripes/IbisAttributeListActionBean.java:509-510 | by area, the key is the String area value and fails otherwise; by month, it needs a date and is the area (or "null") followed by the month label |
| Aggregation.StepOf | viewer/src/main/java/nl/b3p/viewer/stripes/IbisAttributeListActionBean.java:509-513 | a row adds its BigDecimal surface to the bucket of its key; a key without a bucket is a null pointer, and a key failure is passed on |
| Aggregation.Steps | viewer/src/main/java/nl/b3p/viewer/stripes/IbisAttributeListActionBean.java:506-515 | one step per row, and every successful step has a bucket |
| Aggregation.NoFaultIffAllSucceed | viewer/src/main/java/nl/b3p/viewer/stripes/IbisAttributeListActionBean.java:506-515 | the fold raises nothing exactly when every row succeeds |
| Aggregation.FaultIsFirstFailure | viewer/src/main/java/nl/b3p/viewer/stripes/IbisAttributeListActionBean.java:506-515 | the fold's exception is that of the first failing row, every earlier row having succeeded |
| Aggregation.FaultPersists | viewer/src/main/java/nl/b3p/viewer/stripes/IbisAttributeListActionBean.java:506-515 | once a prefix of the rows raises, the whole fold raises the same |
| Aggregation.UnselectedBucketStaysZero | viewer/src/main/java/nl/b3p/viewer/stripes/IbisAttributeListActionBean.java:506-515 | a bucket no row keys to keeps total zero |
| Aggregation.AddedUpTotals | viewer/src/main/java/nl/b3p/viewer/stripes/IbisAttributeListActionBean.java:506-515 | after the fold each bucket holds its start value plus the total of its rows, and nothing else changes |
| Aggregation.TotalsConserveAmount | viewer/src/main/java/nl/b3p/viewer/stripes/IbisAttributeListActionBean.java:506-515 | over distinct keys covering every step, the bucket totals sum to the surface added |
| Aggregation.OutputConservesAmount | viewer/src/main/java/nl/b3p/viewer/stripes/IbisAttributeListActionBean.java:518-520 | the surfaces in a listing of distinct buckets that covers every key sum to the surface added |
| Aggregation.SumOfMeasuresIsSumOfTotals | viewer/src/main/java/nl/b3p/viewer/stripes/IbisAttributeListActionBean.java:518-520 | the surfaces listed are the totals of the listed keys |
| Aggregation.MonthReadOut | viewer/src/main/java/nl/b3p/viewer/stripes/IbisAttributeListActionBean.java:518 | reading the filled month buckets in key order gives the month report |
| Aggregation.AreaReadOut | viewer/src/main/java/nl/b3p/viewer/stripes/IbisAttributeListActionBean.java:557 | reading the filled area buckets in key order gives the area buckets |
| Aggregation.SortedIds | viewer/src/main/java/nl/b3p/viewer/stripes/IbisAttributeListActionBean.java:518 | buckets listed in key order have strictly ascending, distinct ids covering the key set |
| Aggregation.MonthReportProperties | viewer/src/main/java/nl/b3p/viewer/stripes/IbisAttributeListActionBean.java:485-521 | the month report lists one bucket per key, ascending by id, each holding exactly its rows' total, and conserves the surface added |
| Aggregation.AreaReportProperties | viewer/src/main/java/nl/b3p/viewer/stripes/IbisAttributeListActionBean.java:534-560 | the area report lists one bucket per area, descending by id, each holding exactly its rows' total, and conserves the surface added |
| Aggregation.ReversedDescending | viewer/src/main/java/nl/b3p/viewer/stripes/IbisAttributeListActionBean.java:557-558 | reversing an ascending listing gives a strictly descending one |
| Aggregation.AreaReversed | viewer/src/main/java/nl/b3p/viewer/stripes/IbisAttributeListActionBean.java:557-558 | reversal keeps the id set, the bucket contents and the conservation of the surface |
| Aggregators.AddUpRow | viewer/src/main/java/nl/b3p/viewer/stripes/IbisAttributeListActionBean.java:508-514 | one row: its step is `StepOf`, and on success only its bucket changes, by the row's surface |
| Aggregators.FoldRow | viewer/src/main/java/nl/b3p/viewer/stripes/IbisAttributeListActionBean.java:506-515 | one pass of the fold (also 547-555): a failing row makes its exception the fold's first exception; otherwise the map is the start map with the steps so far added up, and its keys keep their order |
| Aggregators.AddUpMeasures | viewer/src/main/java/nl/b3p/viewer/stripes/IbisAttributeListActionBean.java:506-516 | the fold raises the first row exception; otherwise the map is the start map with every step added up, and its keys keep their order |
| Aggregators.ZeroMonthBucketsOf | viewer/src/main/java/nl/b3p/viewer/stripes/IbisAttributeListActionBean.java:495-502 | one area's loop adds a zero bucket for every month of the range |
| Aggregators.PutZeroMonth | viewer/src/main/java/nl/b3p/viewer/stripes/IbisAttributeListActionBean.java:496-501 | one month of the inner loop: the zero bucket of that area and month is added under its key, the buckets stay zero buckets, and the next month is the calendar successor |
| Aggregators.ZeroMonthBuckets | viewer/src/main/java/nl/b3p/viewer/stripes/IbisAttributeListActionBean.java:494-503 | a fresh TreeMap holding exactly the zero bucket of every area and month of the range |
| Aggregators.AddUpMonths | viewer/src/main/java/nl/b3p/viewer/stripes/IbisAttributeListActionBean.java:505-521 | the fold over the related rows into the zero month buckets raises the first row exception; otherwise the buckets read out in key order are the month report |
| Aggregators.MonthValues | viewer/src/main/java/nl/b3p/viewer/stripes/IbisAttributeListActionBean.java:519 | after the fold, the values of the TreeMap in key order are the month report over the zero buckets' keys |
| Aggregators.AggregateByMonthAndArea | viewer/src/main/java/nl/b3p/viewer/stripes/IbisAttributeListActionBean.java:485-521 | equals `MonthAggregation`: the first row exception, or the filled month buckets in ascending key order |
| Aggregators.ZeroAreaBuckets | viewer/src/main/java/nl/b3p/viewer/stripes/IbisAttributeListActionBean.java:538-544 | a fresh TreeMap holding exactly the zero bucket of every area |
| Aggregators.AggregateByArea | viewer/src/main/java/nl/b3p/viewer/stripes/IbisAttributeListActionBean.java:534-560 | equals `AreaAggregation`: the first row exception, or the filled area buckets in descending key order |
| FieldSums.ZeroBucket | viewer/src/main/java/nl/b3p/viewer/stripes/IbisAttributeListActionBean.java:743-744 | a bucket is the template with its area attribute set to the area name |
| FieldSums.ZeroBuckets | viewer/src/main/java/nl/b3p/viewer/stripes/IbisAttributeListActionBean.java:741-746 | one bucket per area name, each that area's zero bucket |
| FieldSums.FieldFault | viewer/src/main/java/nl/b3p/viewer/stripes/IbisAttributeListActionBean.java:753-755 | adding a field fails exactly unless the bucket holds a Double and the row a BigDecimal |
| FieldSums.AddFieldsKeepsShape | viewer/src/main/java/nl/b3p/viewer/stripes/IbisAttributeListActionBean.java:752-756 | adding up fields changes no attribute's kind |
| FieldSums.AddFieldsFaultByShape | viewer/src/main/java/nl/b3p/viewer/stripes/IbisAttributeListActionBean.java:752-756 | whether adding fields fails, and how, depends only on the kinds of the bucket's attributes |
| FieldSums.AddFieldsSums | viewer/src/main/java/nl/b3p/viewer/stripes/IbisAttributeListActionBean.java:752-756 | adding distinct fields fails with the first field's exception, or adds the row's value to each field and changes nothing else |
| FieldSums.AddRowByShape | viewer/src/main/java/nl/b3p/viewer/stripes/IbisAttributeListActionBean.java:750-756 | a row fails against the filled buckets exactly as against the zero buckets |
| FieldSums.FieldsFoldFault | viewer/src/main/java/nl/b3p/viewer/stripes/IbisAttributeListActionBean.java:748-757 | the fold fails exactly when some row fails against the zero buckets, with the first such exception |
| FieldSums.AddRowSums | viewer/src/main/java/nl/b3p/viewer/stripes/IbisAttributeListActionBean.java:750-756 | one more row adds its values to its area's bucket for the summed fields |
| FieldSums.FieldsFoldSums | viewer/src/main/java/nl/b3p/viewer/stripes/IbisAttributeListActionBean.java:748-757 | after the fold each summed attribute of a bucket is its zero value plus the total of its area's rows; the other attributes keep their value |
| FieldSums.FieldsFoldFailurePersists | viewer/src/main/java/nl/b3p/viewer/stripes/IbisAttributeListActionBean.java:748-757 | once a prefix of the rows fails, the whole fold fails the same |
| FieldSums.AreaKept | viewer/src/main/java/nl/b3p/viewer/stripes/IbisAttributeListActionBean.java:744 | each bucket keeps its area name |
| FieldSums.FieldReadOut | viewer/src/main/java/nl/b3p/viewer/stripes/IbisAttributeListActionBean.java:759 | the buckets read in key order are ascending by area, one per area name |
| FieldSums.AggregatedFieldsFault | viewer/src/main/java/nl/b3p/viewer/stripes/IbisAttributeListActionBean.java:748-757 | `aggregateFields` fails exactly when some row raises against the zero buckets, with the first such exception |
| FieldSums.AggregatedFieldsAreas | viewer/src/main/java/nl/b3p/viewer/stripes/IbisAttributeListActionBean.java:741-759 | without an exception, one bucket per area name, in ascending area order |
| FieldSums.AggregatedFieldsSums | viewer/src/main/java/nl/b3p/viewer/stripes/IbisAttributeListActionBean.java:733-761 | with distinct summed fields, each returned bucket's summed attribute is its template value plus its area's total; the other attributes keep the template's value |
| FieldAggregators.AddFieldsTo | viewer/src/main/java/nl/b3p/viewer/stripes/IbisAttributeListActionBean.java:752-756 | the field loop of one row equals `AddFields` |
| FieldAggregators.AddRowTo | viewer/src/main/java/nl/b3p/viewer/stripes/IbisAttributeListActionBean.java:750-756 | one row: a failure leaves its exception, a success stores the updated bucket under the row's area |
| FieldAggregators.FoldFieldsRow | viewer/src/main/java/nl/b3p/viewer/stripes/IbisAttributeListActionBean.java:750-756 | one pass of the field fold: a failure is the whole fold's exception; otherwise the map is the fold over the rows so far, and its keys keep their order |
| FieldAggregators.ZeroFieldBuckets | viewer/src/main/java/nl/b3p/viewer/stripes/IbisAttributeListActionBean.java:741-746 | a fresh TreeMap holding exactly the zero buckets |
| FieldAggregators.AggregateFields | viewer/src/main/java/nl/b3p/viewer/stripes/IbisAttributeListActionBean.java:733-761 | equals `AggregatedFields`: the first row exception, or the summed buckets in ascending area order |
| Serialization.FieldOf | viewer/src/main/java/nl/b3p/viewer/stripes/IbisAttributeListActionBean.java:594-597 | a field has the descriptor's name and type, and the "Y-m" date format exactly for a date in the issue report |
| Serialization.ColumnOf | viewer/src/main/java/nl/b3p/viewer/stripes/IbisAttributeListActionBean.java:599 | a column is headed by the alias when there is one, else by the name, and indexes the name |
| Serialization.ToJson | viewer/src/main/java/nl/b3p/viewer/stripes/IbisAttributeListActionBean.java:572-614 | fails (null pointer) exactly when there are features and descriptors but no property list; otherwise the total is the number of data rows, one per feature, and no features give no fields or columns |
| Serialization.FieldsMatchColumns | viewer/src/main/java/nl/b3p/viewer/stripes/IbisAttributeListActionBean.java:592-600 | fields and columns pair up: field i and column i name the same attribute |
| Serialization.FieldsForShown | viewer/src/main/java/nl/b3p/viewer/stripes/IbisAttributeListActionBean.java:589-600 | the grid fields are one field per descriptor whose name is an output property, in descriptor order |
| Serialization.ColumnsForShown | viewer/src/main/java/nl/b3p/viewer/stripes/IbisAttributeListActionBean.java:589-600 | the grid columns are one column per descriptor whose name is an output property, in descriptor order |
| Serialization.DataRowContents | viewer/src/main/java/nl/b3p/viewer/stripes/IbisAttributeListActionBean.java:602 | a data row holds exactly the non-null attributes of the descriptors, with their values |
| Serializer.FeatureToJson | viewer/src/main/java/nl/b3p/viewer/stripes/IbisAttributeListActionBean.java:589-603 | the descriptor loop of one feature: its data row, and for the first feature its fields and columns; the null property list raises there |
| Serializer.FeaturesToJson | viewer/src/main/java/nl/b3p/viewer/stripes/IbisAttributeListActionBean.java:572-614 | equals `ToJson` |

## Left out

- Stripes binding, `loadLayer`, `checkAuthorization` and `download`: whether a layer was bound and whether the user is authorized are inputs of `Request`.
- The datastore queries, ECQL parsing and `dispose`: what each query returns is an input of `Store`. The filter texts are not built, apart from the area filter that `query` stores. A CQL parse error in an area value is not modelled.
- The related-feature filter (the id list and the date range): the ids are kept as values, and only whether the id list is empty matters.
- The `maxFeatures` cap on the queries is not modelled. The datastore applies it before the rows reach the model.
- `DateUtils` is not part of this model. `differenceInMonths` and `addMonth` are modelled as whole calendar-month arithmetic, without days or times.
- Calendar.Label: `SimpleDateFormat("YYYY.MM")` writes the week-based year in the default time zone. The model writes the calendar year modulo 10000 as four digits. The two differ in the last days of December and the first days of January, and for years outside 0..9999.
- Doubles and BigDecimals are reals: rounding in `doubleValue()` and in the double sums is not modelled.
- Aggregation.RowKey: a month-key area value that is neither a String nor null is modelled as a ClassCastException. Java would concatenate its `toString()` text, and that key would then normally have no bucket.
- StringOrder.Less compares characters by code point. Java compares UTF-16 code units, which differs only for characters outside the Basic Multilingual Plane.
- `DataUtilities.createType`, `createFeature`, `createSubType` and `template`: the AGGREGATE type is written out as `AggregateFeature`. The sub type's template, or the exception building it raises, is an input of `Store`. The text "null" in the date position of `fName + "|null|null|0d|" + fName` (line 542) is read as a null `maand`, which is why by-area data rows carry no `maand`.
- The ExtJS type name of a descriptor is written as the attribute type itself.
- `DataUtilities.collection`: the collection returned is taken to iterate in the order of the list it is built from. The ascending and descending bucket orders stated for `Aggregation.MonthReportProperties`, `Aggregation.AreaReportProperties`, `Aggregators.AggregateByArea` and `FieldSums.AggregatedFieldsAreas` are those of that list.
- FieldSums.AddFieldsSums: states the sums only for distinct attribute names. A name listed twice is added once per occurrence; `FieldSums.AddFields` models that, but no lemma states the doubled sum.
- FieldSums.AddRowSums: states one row's sums only for distinct attribute names, for the same reason as `FieldSums.AddFieldsSums`.
- FieldSums.FieldsFoldSums: states the fold's sums only for distinct attribute names, for the same reason as `FieldSums.AddFieldsSums`.
- FieldSums.AggregatedFieldsSums: states the bucket sums only for distinct summed attribute names, for the same reason as `FieldSums.AddFieldsSums`.
- Attribute values are of five kinds only (`Features.Value`): null, String, BigDecimal, Double and a month date. Other Java values, such as Integer, Long or `java.sql.Timestamp`, cannot be expressed, and neither can the ClassCastException texts that name them.
- Simple features are values: `setAttribute` is a map update, and there is no aliasing between buckets.
- Logging is not modelled.
