/** Values that cross the subscriber's boundary: PHP values as json_encode and
    json_decode see them, and the scalar settings the configuration store returns. */
module Values {

  datatype Option<+T> = None | Some(value: T)

  /** A PHP value in its JSON shape. Objects (decoded stdClass objects and
      associative arrays alike) are maps from property name to value; floats
      are carried as `real` and never computed with. */
  datatype Json =
    | JNull
    | JBool(b: bool)
    | JInt(i: int)
    | JFloat(x: real)
    | JString(s: string)
    | JArray(items: seq<Json>)
    | JObject(fields: map<string, Json>)

  /** PHP's `isset($object->key)`: the property exists and is not null. */
  predicate IsSet(fields: map<string, Json>, key: string)
  {
    key in fields && fields[key] != JNull
  }

  /** The value reached by following a path of object keys, if there is one. */
  function At(v: Json, path: seq<string>): Option<Json>
    decreases |path|
  {
    if path == [] then Some(v)
    else match v
      case JObject(fields) => if path[0] in fields then At(fields[path[0]], path[1..]) else None
      case _ => None
  }

  /** A setting as the configuration store hands it back. */
  datatype ConfigValue = Unset | Flag(b: bool) | Number(n: int) | Text(s: string)

  /** PHP's `empty()` on such a setting: null, false, 0, '' and '0' are empty. */
  predicate IsEmpty(c: ConfigValue)
  {
    match c
    case Unset => true
    case Flag(b) => !b
    case Number(n) => n == 0
    case Text(s) => s == "" || s == "0"
  }

  /** The string PHP's `.` operator makes of the setting. */
  function PhpString(c: ConfigValue): string
  {
    match c
    case Unset => ""
    case Flag(b) => if b then "1" else ""
    case Number(n) => if n < 0 then "-" + Decimal(-n) else Decimal(n)
    case Text(s) => s
  }

  function DigitChar(d: nat): (c: char)
    requires d < 10
    ensures '0' <= c <= '9' && (c == '0' <==> d == 0)
  {
    "0123456789"[d]
  }

  function DigitValue(c: char): nat
    requires '0' <= c <= '9'
  {
    c as int - '0' as int
  }

  /** Decimal digits of `n` without leading zeros. */
  function Decimal(n: nat): (s: string)
    ensures |s| >= 1 && (s[0] == '0' <==> n == 0)
    ensures n == 0 ==> s == "0"
    ensures forall i :: 0 <= i < |s| ==> '0' <= s[i] <= '9'
  {
    if n < 10 then [DigitChar(n)] else Decimal(n / 10) + [DigitChar(n % 10)]
  }

  /** Reads a string of decimal digits back as a number. */
  function DecimalValue(s: string): nat
    requires forall i :: 0 <= i < |s| ==> '0' <= s[i] <= '9'
  {
    if s == [] then 0 else 10 * DecimalValue(s[..|s| - 1]) + DigitValue(s[|s| - 1])
  }

  lemma {:induction false} DecimalRoundTrip(n: nat)
    ensures DecimalValue(Decimal(n)) == n
  {
    var s := Decimal(n);
    if n >= 10 {
      DecimalRoundTrip(n / 10);
      assert s == Decimal(n / 10) + [DigitChar(n % 10)];
      assert s[..|s| - 1] == Decimal(n / 10);
      assert DigitValue(DigitChar(n % 10)) == n % 10;
    }
  }

  /** The gate `empty($code)` holds exactly when the text the code puts after
      `a=` would be '' or '0'. */
  lemma EmptyIffBlankText(c: ConfigValue)
    ensures IsEmpty(c) <==> PhpString(c) == "" || PhpString(c) == "0"
  {
    match c
    case Number(n) =>
      if n < 0 {
        assert PhpString(c)[0] == '-';
      } else if n > 0 {
        assert PhpString(c)[0] != '0';
      }
    case _ =>
  }
}
