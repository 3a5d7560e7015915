/** Optional values: a missing header, a missing property, an unset secret. */
module Optional {

  datatype Option<+T> = None | Some(value: T)
}

/**
 * The JSON values a request body is parsed into, and the few JavaScript
 * operations the handlers apply to them: truthiness (`!x`, `x || d`),
 * strict equality (`===`) and conversion to a string inside a template
 * literal (`${x}`), which can throw.
 */
module Json {

  import opened Optional

  /** 2^53 - 1: above it a JSON number no longer denotes its own integer. */
  const MaxSafeInteger: int := 0x1F_FFFF_FFFF_FFFF

  /** The integers a JavaScript number represents exactly. */
  type SafeInteger = n: int | -MaxSafeInteger <= n <= MaxSafeInteger

  datatype Value =
    | Null
    | Bool(b: bool)
    | Num(n: SafeInteger)
    | Str(s: string)
    | Arr(items: seq<Value>)
    | Obj(members: map<string, Value>)

  /** A parsed JSON object body: property name to value. */
  type Object = map<string, Value>

  /** The JSON values JavaScript treats as false (`-0` parses to the same as `0`). */
  const Falsy: set<Value> := {Null, Bool(false), Num(0), Str("")}

  /** JavaScript truthiness (`ToBoolean`) of a JSON value. */
  predicate Truthy(v: Value)
    ensures Truthy(v) <==> v !in Falsy
  {
    match v
    case Null => false
    case Bool(b) => b
    case Num(n) => n != 0
    case Str(s) => |s| > 0
    case Arr(_) => true
    case Obj(_) => true
  }

  /** `obj[key]`, `None` for `undefined`. */
  function Property(obj: Object, key: string): Option<Value>
  {
    if key in obj then Some(obj[key]) else None
  }

  /** An optional value that is present and truthy (`if (x)`, `x || default`). */
  predicate TruthySome(x: Option<Value>)
  {
    x.Some? && Truthy(x.value)
  }

  /** `!obj[key]` is false: the property exists (is not `undefined`) and is truthy. */
  predicate Given(obj: Object, key: string)
    ensures !Given(obj, key) <==> key !in obj || obj[key] in Falsy
  {
    TruthySome(Property(obj, key))
  }

  /**
   * `a === b` between values parsed from different request bodies: primitives
   * compare by type and value, while two arrays or two objects are distinct
   * references and never strictly equal.
   */
  predicate StrictEquals(a: Value, b: Value)
    ensures StrictEquals(a, b) ==> a == b
    ensures a == b && (a.Null? || a.Bool? || a.Num? || a.Str?) ==> StrictEquals(a, b)
    ensures a.Arr? || a.Obj? || b.Arr? || b.Obj? ==> !StrictEquals(a, b)
  {
    !a.Arr? && !a.Obj? && a == b
  }

  /** Every character is a decimal digit. */
  predicate IsDigits(s: string)
  {
    forall i :: 0 <= i < |s| ==> '0' <= s[i] <= '9'
  }

  /** The number a string of decimal digits denotes. */
  function DecimalValue(s: string): nat
    requires IsDigits(s)
    decreases |s|
  {
    if |s| == 0 then 0
    else 10 * DecimalValue(s[..|s| - 1]) + (s[|s| - 1] as int - '0' as int)
  }

  function DigitChar(d: nat): char
    requires d < 10
  {
    ('0' as int + d) as char
  }

  /** The decimal digits of `n`, without leading zeros. */
  function NatToString(n: nat): (r: string)
    ensures |r| > 0 && IsDigits(r)
    ensures DecimalValue(r) == n
    ensures |r| > 1 ==> r[0] != '0'
    decreases n
  {
    if n < 10 then [DigitChar(n)]
    else
      var prefix := NatToString(n / 10);
      var r := prefix + [DigitChar(n % 10)];
      assert r[..|r| - 1] == prefix;
      r
  }

  /** `String(n)` for a safe integer: an optional minus sign, then the digits. */
  function IntToString(n: int): (r: string)
    ensures n >= 0 ==> |r| > 0 && IsDigits(r) && DecimalValue(r) == n && (|r| > 1 ==> r[0] != '0')
    ensures n < 0 ==> |r| > 1 && r[0] == '-' && IsDigits(r[1..]) && DecimalValue(r[1..]) == -n
    ensures n < 0 ==> r[1] != '0'
  {
    if n < 0 then
      var digits := NatToString(-n);
      assert ("-" + digits)[1..] == digits;
      "-" + digits
    else NatToString(n)
  }

  /**
   * `String(v)` throws a TypeError: `v` is an object with its own
   * `toString` property, which JSON can only make a non-callable value, so
   * neither `toString` nor `Object.prototype.valueOf` yields a primitive;
   * or `v` is an array holding such a value, at any depth.
   */
  predicate Unprintable(v: Value)
  {
    match v
    case Obj(members) => "toString" in members
    case Arr(items) => exists i :: 0 <= i < |items| && Unprintable(items[i])
    case _ => false
  }

  /** `String(v)`, as a template literal `${v}` converts a JSON value; `None` when it throws. */
  function Render(v: Value): (r: Option<string>)
    ensures r.None? <==> Unprintable(v)
    ensures v.Str? ==> r == Some(v.s)
    ensures v.Num? ==> r == Some(IntToString(v.n))
    ensures v.Obj? && r.Some? ==> r.value == "[object Object]"
    decreases v, 1
  {
    match v
    case Null => Some("null")
    case Bool(b) => Some(if b then "true" else "false")
    case Num(n) => Some(IntToString(n))
    case Str(s) => Some(s)
    case Obj(members) => if "toString" in members then None else Some("[object Object]")
    case Arr(items) => Join(items, v)
  }

  /**
   * `Array.prototype.join(",")`: `null` elements become empty strings, the
   * others are converted with `String`, and the first throwing element throws.
   */
  function Join(items: seq<Value>, ghost whole: Value): (r: Option<string>)
    requires forall i :: 0 <= i < |items| ==> items[i] < whole
    ensures r.None? <==> exists i :: 0 <= i < |items| && Unprintable(items[i])
    decreases whole, 0, |items|
  {
    if |items| == 0 then Some("")
    else
      var head := if items[0].Null? then Some("") else Render(items[0]);
      if head.None? then None
      else if |items| == 1 then head
      else
        var tail := Join(items[1..], whole);
        assert forall i :: 1 <= i < |items| ==> items[1..][i - 1] == items[i];
        if tail.None? then None else Some(head.value + "," + tail.value)
  }
}
