/** Feature rows as the report engine sees them: attribute name to value, and
    the Java exceptions reading them can raise. */
module Features {
  import opened Wrappers
  import opened Calendar

  /** An attribute value: Java null, a String, a BigDecimal read from the
      database, a Double computed by the engine, or a date. */
  datatype Value = Null | Text(s: string) | Decimal(x: real) | Double(d: real) | Date(m: Month)

  /** A feature: its attributes by name. */
  type Row = map<string, Value>

  /** `feature.getAttribute(name)`: null for an attribute the feature lacks. */
  function Get(row: Row, name: string): Value
  {
    if name in row then row[name] else Null
  }

  /** The Java class of a non-null value. */
  function ClassName(v: Value): string
  {
    match v
    case Null => "null"
    case Text(_) => "java.lang.String"
    case Decimal(_) => "java.math.BigDecimal"
    case Double(_) => "java.lang.Double"
    case Date(_) => "java.util.Date"
  }

  /** The exceptions the report code can raise. */
  datatype Fault =
    | NullPointer
    | ClassCast(from: string, to: string)
    | IllegalArgument(text: string)
    | StringIndexOutOfBounds(index: int)

  function NatText(n: nat): (s: string)
    ensures |s| > 0
  {
    if n < 10 then [Digit(n)] else NatText(n / 10) + [Digit(n % 10)]
  }

  function IntText(i: int): string
  {
    if i < 0 then "-" + NatText(-i) else NatText(i)
  }

  /** `e.getLocalizedMessage()`, in the Java 8 wording: a null pointer
      exception carries no message at all. */
  function Message(f: Fault): (m: Option<string>)
    ensures m.None? <==> f.NullPointer?
  {
    match f
    case NullPointer => None
    case ClassCast(from, to) => Some(from + " cannot be cast to " + to)
    case IllegalArgument(text) => Some(text)
    case StringIndexOutOfBounds(i) => Some("String index out of range: " + IntText(i))
  }

  /** `(String) v` followed by a use of the string. */
  function AsText(v: Value): (r: Result<string, Fault>)
    ensures r.Success? <==> v.Text?
    ensures r.Success? ==> r.value == v.s
  {
    match v
    case Text(s) => Success(s)
    case Null => Failure(NullPointer)
    case _ => Failure(ClassCast(ClassName(v), "java.lang.String"))
  }

  /** `((BigDecimal) v).doubleValue()`. */
  function AsDecimal(v: Value): (r: Result<real, Fault>)
    ensures r.Success? <==> v.Decimal?
    ensures r.Success? ==> r.value == v.x
  {
    match v
    case Decimal(x) => Success(x)
    case Null => Failure(NullPointer)
    case _ => Failure(ClassCast(ClassName(v), "java.math.BigDecimal"))
  }

  /** `((Double) v)` unboxed for an addition. */
  function AsDouble(v: Value): (r: Result<real, Fault>)
    ensures r.Success? <==> v.Double?
    ensures r.Success? ==> r.value == v.d
  {
    match v
    case Double(d) => Success(d)
    case Null => Failure(NullPointer)
    case _ => Failure(ClassCast(ClassName(v), "java.lang.Double"))
  }
}
