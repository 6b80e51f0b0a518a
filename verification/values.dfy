/** The JavaScript values that request bodies, stored records and session
    data are made of, together with the three language rules the core leans
    on: truthiness (`if (x)`), strict equality (`===`) and the string and
    integer conversions `String(x)` / `parseInt(x, 10)`.

    A record is a map from field name to value. A field holding `undefined`
    is represented by the field being absent: reading it gives `None`, and
    assigning `undefined` removes it. */
module Values {
  import opened Wrappers

  /** The values a JSON body can carry (nested objects and arrays are left
      out), plus the JavaScript `NaN` that `parseInt` produces and the `Date`
      objects the timestamp stage stores (identified by their instant). */
  datatype Value =
    | VNull
    | VBool(b: bool)
    | VNum(n: int)
    | VNaN
    | VStr(s: string)
    | VDate(millis: int)

  type Record = map<string, Value>

  /** `record[k]`: `None` is `undefined`. */
  function Get(r: Record, k: string): Option<Value> {
    if k in r then Some(r[k]) else None
  }

  /** `record[k] = v`; assigning `undefined` leaves the field absent. */
  function Put(r: Record, k: string, v: Option<Value>): (r': Record)
    ensures Get(r', k) == v
    ensures forall j :: j != k ==> Get(r', j) == Get(r, j)
  {
    match v
    case Some(x) => r[k := x]
    case None => r - {k}
  }

  /** `Object.assign(target, source)`: every field of `source` overrides the
      field of the same name, every other field of `target` survives. */
  function Merge(target: Record, source: Record): (r: Record)
    ensures r.Keys == target.Keys + source.Keys
    ensures forall k :: k in source ==> Get(r, k) == Get(source, k)
    ensures forall k :: k !in source ==> Get(r, k) == Get(target, k)
  {
    target + source
  }

  /** `delete record[k]` for every `k` of `ks`. */
  function Strip(r: Record, ks: set<string>): (r': Record)
    ensures r'.Keys == r.Keys - ks
    ensures forall k :: k !in ks ==> Get(r', k) == Get(r, k)
  {
    r - ks
  }

  /** JavaScript `ToBoolean`: `undefined`, `null`, `false`, `0`, `NaN` and
      the empty string are falsy; every object (a `Date`) is truthy. */
  predicate Truthy(v: Option<Value>) {
    match v
    case None => false
    case Some(VNull) => false
    case Some(VBool(b)) => b
    case Some(VNum(n)) => n != 0
    case Some(VNaN) => false
    case Some(VStr(s)) => s != ""
    case Some(VDate(_)) => true
  }

  /** JavaScript `===`. `undefined === undefined` holds, `NaN` equals
      nothing, and two `Date` objects are distinct objects. */
  predicate StrictEquals(a: Option<Value>, b: Option<Value>) {
    match a
    case None => b.None?
    case Some(x) => b == Some(x) && !x.VNaN? && !x.VDate?
  }

  lemma StrictEqualsIsEqualityOnPrimitives(a: Option<Value>, b: Option<Value>)
    requires a.Some? ==> !a.value.VNaN? && !a.value.VDate?
    ensures StrictEquals(a, b) <==> a == b
  {
  }

  // ---------------------------------------------------------------------
  // String(x)

  predicate IsDigit(c: char) {
    '0' <= c <= '9'
  }

  function DigitChar(d: nat): (c: char)
    requires d < 10
    ensures IsDigit(c)
  {
    ['0', '1', '2', '3', '4', '5', '6', '7', '8', '9'][d]
  }

  function DigitValue(c: char): (d: nat)
    requires IsDigit(c)
    ensures d < 10
  {
    (c as int) - ('0' as int)
  }

  /** The decimal digits of `n`, most significant first, no leading zeros. */
  function NatToString(n: nat): (s: string)
    ensures |s| > 0
    ensures forall i :: 0 <= i < |s| ==> IsDigit(s[i])
    decreases n
  {
    if n < 10 then [DigitChar(n)] else NatToString(n / 10) + [DigitChar(n % 10)]
  }

  /** `String(n)` for an integer number. */
  function IntToString(n: int): string {
    if n < 0 then "-" + NatToString(-n) else NatToString(n)
  }

  /** `String(x)` (and template-literal interpolation). A `Date` is rendered
      as `Date(<instant>)`; the runtime's locale-dependent text shares the
      one property the core relies on, that it starts with a letter. */
  function ToText(v: Option<Value>): string {
    match v
    case None => "undefined"
    case Some(VNull) => "null"
    case Some(VBool(b)) => if b then "true" else "false"
    case Some(VNum(n)) => IntToString(n)
    case Some(VNaN) => "NaN"
    case Some(VStr(s)) => s
    case Some(VDate(ms)) => "Date(" + IntToString(ms) + ")"
  }

  // ---------------------------------------------------------------------
  // parseInt(x, 10)

  /** The white-space and line-terminator characters `parseInt` skips. */
  predicate IsSpace(c: char) {
    c in {' ', '\t', '\n', '\r', '\U{000B}', '\U{000C}', '\U{00A0}', '\U{FEFF}', '\U{2028}', '\U{2029}'}
  }

  function TrimStart(s: string): (t: string)
    ensures |t| <= |s| && t == s[|s| - |t|..]
    ensures |t| > 0 ==> !IsSpace(t[0])
    decreases |s|
  {
    if |s| > 0 && IsSpace(s[0]) then TrimStart(s[1..]) else s
  }

  /** The number of leading decimal digits of `s`. */
  function DigitPrefixLength(s: string): (k: nat)
    ensures k <= |s|
    ensures forall i :: 0 <= i < k ==> IsDigit(s[i])
    ensures k < |s| ==> !IsDigit(s[k])
    decreases |s|
  {
    if |s| == 0 || !IsDigit(s[0]) then 0 else 1 + DigitPrefixLength(s[1..])
  }

  /** The number a string of decimal digits denotes. */
  function DigitsValue(s: string): nat
    requires forall i :: 0 <= i < |s| ==> IsDigit(s[i])
    decreases |s|
  {
    if |s| == 0 then 0 else DigitsValue(s[..|s| - 1]) * 10 + DigitValue(s[|s| - 1])
  }

  /** `parseInt(s, 10)` on a string: skip leading white space, take an
      optional sign, then the longest run of digits; no digits gives `NaN`. */
  function ParseIntText(s: string): (v: Value)
    ensures v.VNum? || v.VNaN?
  {
    var t := TrimStart(s);
    var negative := |t| > 0 && t[0] == '-';
    var u := if |t| > 0 && (t[0] == '-' || t[0] == '+') then t[1..] else t;
    var k := DigitPrefixLength(u);
    if k == 0 then VNaN
    else
      var m: int := DigitsValue(u[..k]);
      VNum(if negative then -m else m)
  }

  /** `parseInt(x, 10)`: the argument is first converted with `String`.
      A string is parsed as it is and a number as its decimal text; every
      other value prints as text starting with a letter (`undefined`,
      `null`, `true`, `false`, `NaN`, a date), which parses to `NaN`.
      `ParseIntIsTextual` proves this agrees with parsing `String(x)`. */
  function ParseInt(v: Option<Value>): (r: Value)
    ensures r.VNum? || r.VNaN?
  {
    match v
    case Some(VStr(s)) => ParseIntText(s)
    case Some(VNum(n)) => ParseIntText(IntToString(n))
    case _ => VNaN
  }

  /** Text that starts with neither white space, a sign nor a digit has no
      number at its head. */
  lemma LeadingLetterIsNaN(s: string)
    requires |s| > 0 && !IsSpace(s[0]) && !IsDigit(s[0]) && s[0] != '-' && s[0] != '+'
    ensures ParseIntText(s) == VNaN
  {
    assert TrimStart(s) == s;
  }

  /** `ParseInt` is `parseInt(String(x), 10)` for every value. */
  lemma ParseIntIsTextual(v: Option<Value>)
    ensures ParseInt(v) == ParseIntText(ToText(v))
  {
    match v
    case None => UndefinedIsNaN();
    case Some(x) => PresentIsTextual(x);
  }

  lemma UndefinedIsNaN()
    ensures ParseIntText(ToText(None)) == VNaN
  {
    LeadingLetterIsNaN("undefined");
  }

  lemma PresentIsTextual(x: Value)
    ensures ParseInt(Some(x)) == ParseIntText(ToText(Some(x)))
  {
    match x
    case VNull => LeadingLetterIsNaN("null");
    case VBool(b) => LeadingLetterIsNaN(if b then "true" else "false");
    case VNaN => LeadingLetterIsNaN("NaN");
    case VDate(ms) => DateIsNaN(ms);
    case VNum(n) =>
    case VStr(t) =>
  }

  lemma DateIsNaN(ms: int)
    ensures ParseIntText(ToText(Some(VDate(ms)))) == VNaN
  {
    var t := "Date(" + IntToString(ms) + ")";
    assert t[0] == 'D';
    LeadingLetterIsNaN(t);
  }

  lemma {:induction false} DigitPrefixOfDigits(s: string)
    requires forall i :: 0 <= i < |s| ==> IsDigit(s[i])
    ensures DigitPrefixLength(s) == |s|
    decreases |s|
  {
    if |s| > 0 {
      DigitPrefixOfDigits(s[1..]);
    }
  }

  lemma {:induction false} DigitsValueOfNatToString(n: nat)
    ensures DigitsValue(NatToString(n)) == n
    decreases n
  {
    var s := NatToString(n);
    if n < 10 {
      assert s[..|s| - 1] == [];
    } else {
      assert s[..|s| - 1] == NatToString(n / 10);
      DigitsValueOfNatToString(n / 10);
    }
  }

  lemma NatTextParses(n: nat, u: string)
    requires u == NatToString(n)
    ensures DigitPrefixLength(u) == |u|
    ensures u[..DigitPrefixLength(u)] == u
    ensures DigitsValue(u[..DigitPrefixLength(u)]) == n
  {
    DigitPrefixOfDigits(u);
    assert u[..|u|] == u;
    DigitsValueOfNatToString(n);
  }

  lemma TrimStartKeeps(s: string)
    requires |s| > 0 && !IsSpace(s[0])
    ensures TrimStart(s) == s
  {
  }

  /** Round trip: `parseInt(String(n), 10) === n` for every integer, which
      is what lets an id travel through a URL path and back. */
  lemma ParseIntOfIntToString(n: int)
    ensures ParseIntText(IntToString(n)) == VNum(n)
  {
    var s := IntToString(n);
    if n < 0 {
      var u := NatToString(-n);
      assert s == "-" + u;
      assert s[0] == '-';
      TrimStartKeeps(s);
      assert s[1..] == u;
      NatTextParses(-n, u);
    } else {
      var u := NatToString(n);
      assert IsDigit(s[0]);
      TrimStartKeeps(s);
      assert s[0] != '-' && s[0] != '+';
      NatTextParses(n, u);
    }
  }

  /** `parseInt` of a number is that number, so coercing twice is coercing
      once. */
  lemma ParseIntIdempotent(v: Option<Value>)
    ensures ParseInt(Some(ParseInt(v))) == ParseInt(v)
  {
    var r := ParseInt(v);
    if r.VNum? {
      ParseIntOfIntToString(r.n);
    }
  }
}
