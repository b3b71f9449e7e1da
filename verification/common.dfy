/** Values shared by every part of the model: Java's nullable references, the JSON values the
    Gson codec produces, the SDK's response envelope and the exceptions the request builders throw. */
module Common {

  /** A Java reference that may be null. */
  datatype Option<+T> = None | Some(value: T)

  /** A decoded JSON value, as Gson hands it over: objects become maps, arrays sequences.
      Gson decodes every number as a Double; the model keeps whole numbers only. */
  datatype Value =
    | Null
    | Str(s: string)
    | Num(n: int)
    | Bool(b: bool)
    | Arr(items: seq<Value>)
    | Obj(fields: map<string, Value>)

  /** `map.get(key)`: the stored value, or null when the key is absent. */
  function Get(m: map<string, Value>, key: string): Value
  {
    if key in m then m[key] else Null
  }

  /** `StringUtil.isNullOrEmpty`. */
  predicate NullOrEmpty(s: Option<string>)
  {
    s.None? || |s.value| == 0
  }

  /** `CollectionUtil.isNullOrEmpty`. */
  predicate NullOrEmptyList<T>(l: Option<seq<T>>)
  {
    l.None? || |l.value| == 0
  }

  /** The elements of a list that may be null, none when it is. */
  function OrEmpty<T>(l: Option<seq<T>>): seq<T>
  {
    if l.Some? then l.value else []
  }

  /** A value that a Java `(String)` cast accepts: a string or null. */
  predicate StringOrNull(v: Value)
  {
    v.Null? || v.Str?
  }

  /** The `(String)` cast itself. */
  function AsString(v: Value): Option<string>
    requires StringOrNull(v)
  {
    if v.Str? then Some(v.s) else None
  }

  /** The decimal digits of a natural number, without leading zeros. */
  function Digits(n: nat): (r: string)
    ensures |r| > 0 && forall i :: 0 <= i < |r| ==> '0' <= r[i] <= '9'
    ensures |r| > 1 ==> r[0] != '0'
    decreases n
  {
    if n < 10 then [('0' as int + n) as char] else Digits(n / 10) + [('0' as int + n % 10) as char]
  }

  /** The number a string of decimal digits denotes. */
  function DigitsValue(s: string): nat
    requires forall i :: 0 <= i < |s| ==> '0' <= s[i] <= '9'
  {
    if s == [] then 0 else 10 * DigitsValue(s[..|s| - 1]) + (s[|s| - 1] as int - '0' as int)
  }

  /** Reading the digits back gives the number they were written from. */
  lemma {:induction false} DigitsRoundTrip(n: nat)
    ensures DigitsValue(Digits(n)) == n
    decreases n
  {
    if n >= 10 {
      var d := Digits(n);
      assert d[..|d| - 1] == Digits(n / 10);
      DigitsRoundTrip(n / 10);
    }
  }

  /** `s` with its trailing zeros removed. */
  function TrimZeros(s: string): (r: string)
    ensures |r| <= |s| && r == s[..|r|]
    ensures r == [] || r[|r| - 1] != '0'
    ensures forall i :: |r| <= i < |s| ==> s[i] == '0'
  {
    if s == [] || s[|s| - 1] != '0' then s else TrimZeros(s[..|s| - 1])
  }

  /** `Double.toString` of a whole number: plain notation ending in ".0" below ten million, and
      from there on computerised scientific notation, one digit before the point and the trailing
      zeros of the others dropped (12345678 gives "1.2345678E7", 10000000 gives "1.0E7"). */
  function DoubleString(n: int): string
  {
    var sign := if n < 0 then "-" else "";
    var ds := Digits(if n < 0 then -n else n);
    if -10000000 < n < 10000000 then sign + ds + ".0"
    else
      var frac := TrimZeros(ds[1..]);
      sign + ds[..1] + "." + (if frac == [] then "0" else frac) + "E" + Digits(|ds| - 1)
  }

  /** A value `String.valueOf` renders without depending on the order of a map's keys: anything
      but an object, and lists of such values. */
  predicate Renderable(v: Value)
    decreases v
  {
    match v
    case Obj(_) => false
    case Arr(items) => forall i :: 0 <= i < |items| ==> Renderable(items[i])
    case _ => true
  }

  /** `String.valueOf` of a decoded JSON value: a string as itself, null as "null", a boolean as
      "true" or "false", a number as the Double Gson decoded it to, a list as "[a, b]". */
  function Render(v: Value): (r: string)
    requires Renderable(v)
    ensures v.Str? ==> r == v.s
    ensures v.Null? ==> r == "null"
    ensures v.Arr? ==> |r| >= 2 && r[0] == '[' && r[|r| - 1] == ']'
    decreases v, 1
  {
    match v
    case Null => "null"
    case Str(s) => s
    case Bool(b) => if b then "true" else "false"
    case Num(n) => DoubleString(n)
    case Arr(items) => "[" + RenderItems(v, items) + "]"
  }

  /** The elements of a list rendered and separated by ", ", as `AbstractCollection.toString`. */
  function RenderItems(ghost v: Value, items: seq<Value>): string
    requires forall i :: 0 <= i < |items| ==> items[i] < v && Renderable(items[i])
    decreases v, 0, |items|
  {
    if items == [] then ""
    else if |items| == 1 then Render(items[0])
    else Render(items[0]) + ", " + RenderItems(v, items[1..])
  }

  /** A number below ten million in magnitude renders as its sign, its digits and ".0", and the
      digits read back give the number. */
  lemma NumberRendering(n: int)
    requires -10000000 < n < 10000000
    ensures var r := Render(Num(n));
      && |r| >= 3 && r[|r| - 2..] == ".0"
      && (n >= 0 ==> DigitsValue(r[..|r| - 2]) == n)
      && (n < 0 ==> r[0] == '-' && DigitsValue(r[1..|r| - 2]) == -n)
  {
    var m := if n < 0 then -n else n;
    DigitsRoundTrip(m);
    var r := Render(Num(n));
    if n >= 0 {
      assert r == Digits(m) + ".0";
      assert r[..|r| - 2] == Digits(m);
    } else {
      assert r == "-" + Digits(m) + ".0";
      assert r[1..|r| - 2] == Digits(m);
    }
  }

  /** The error codes of the SDK's failure taxonomy that the modelled core raises. */
  datatype ErrorCode = ExportFailed | NoDataFound

  /** `GenieResponse`: a success carrying a result, or an error code with a message and the
      tag of the component that raised it. */
  datatype Response<+T> =
    | Success(result: T)
    | Failure(code: ErrorCode, message: string, tag: string)

  /** The runtime exceptions the validating builders throw. */
  datatype Exception = IllegalArgument(message: string) | IllegalState(message: string)

  /** The outcome of a builder setter: it returns normally or throws. */
  datatype Outcome = Pass | Throw(error: Exception)

  /** The outcome of `build()`: the immutable request, or the exception it throws. */
  datatype Result<+T> = Built(value: T) | Thrown(error: Exception)
}
