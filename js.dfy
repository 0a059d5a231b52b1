/**
 * The JavaScript values the dashboard code handles (parsed JSON frames, stored
 * items, React state) and the few conversions of the language it relies on:
 * truthiness, `Number(..)`, string conversion and property access.
 *
 * Numbers are integers together with NaN; fractions and the infinities are
 * not part of this model.
 */
module Js {
  import opened Wrappers

  datatype JsValue =
    | Undefined
    | Null
    | Bool(b: bool)
    | Num(n: int)
    | NaN
    | Str(s: string)
    | Arr(items: seq<JsValue>)
    | Obj(fields: map<string, JsValue>)

  /** `!!v` */
  predicate Truthy(v: JsValue) {
    match v
    case Undefined => false
    case Null => false
    case Bool(b) => b
    case Num(n) => n != 0
    case NaN => false
    case Str(s) => s != ""
    case Arr(_) => true
    case Obj(_) => true
  }

  /** `a || b` */
  function Or(a: JsValue, b: JsValue): (r: JsValue)
    ensures Truthy(a) ==> r == a
    ensures !Truthy(a) ==> r == b
  {
    if Truthy(a) then a else b
  }

  // ---------------------------------------------------------------------------
  // Decimal digits

  function DigitChar(d: int): char
    requires 0 <= d < 10
  {
    "0123456789"[d]
  }

  predicate IsDigit(c: char) {
    '0' <= c <= '9'
  }

  function DigitValue(c: char): (d: int)
    requires IsDigit(c)
    ensures 0 <= d < 10
  {
    c as int - '0' as int
  }

  /** The decimal rendering of a natural number, without leading zeros. */
  function NatToString(n: nat): (s: string)
    ensures |s| > 0
    ensures forall i :: 0 <= i < |s| ==> IsDigit(s[i])
    decreases n
  {
    if n < 10 then [DigitChar(n)] else NatToString(n / 10) + [DigitChar(n % 10)]
  }

  /** What `String(n)` gives for an integer number. */
  function IntToString(n: int): (s: string)
    ensures |s| > 0
  {
    if n < 0 then "-" + NatToString(-n) else NatToString(n)
  }

  predicate AllDigits(s: string) {
    forall i :: 0 <= i < |s| ==> IsDigit(s[i])
  }

  /** The value of a non-empty string of decimal digits. */
  function DigitsValue(s: string): (n: nat)
    requires AllDigits(s)
    decreases |s|
  {
    if s == [] then 0 else DigitsValue(s[..|s| - 1]) * 10 + DigitValue(s[|s| - 1])
  }

  // ---------------------------------------------------------------------------
  // ToNumber

  predicate IsSpace(c: char) {
    c == ' ' || c == '\t' || c == '\n' || c == '\r'
  }

  /** Strips leading and trailing white space, as `Number(..)` does before parsing. */
  function Trim(s: string): (t: string)
    ensures |t| <= |s|
    ensures t != [] ==> !IsSpace(t[0]) && !IsSpace(t[|t| - 1])
    decreases |s|
  {
    if s == [] then []
    else if IsSpace(s[0]) then Trim(s[1..])
    else if IsSpace(s[|s| - 1]) then Trim(s[..|s| - 1])
    else s
  }

  /** `Number(s)` for a string: the empty or blank string is 0, an optionally
    * signed run of decimal digits is its value, anything else is NaN. */
  function StringToNumber(s: string): (r: JsValue)
    ensures r.Num? || r.NaN?
  {
    var t := Trim(s);
    if t == [] then Num(0)
    else if t[0] == '-' && |t| > 1 && AllDigits(t[1..]) then Num(0 - DigitsValue(t[1..]))
    else if t[0] == '+' && |t| > 1 && AllDigits(t[1..]) then Num(DigitsValue(t[1..]))
    else if AllDigits(t) then Num(DigitsValue(t))
    else NaN
  }

  /** `String(v)`, the conversion a template literal applies. */
  function ToStr(v: JsValue): string
    decreases v
  {
    match v
    case Undefined => "undefined"
    case Null => "null"
    case Bool(b) => if b then "true" else "false"
    case Num(n) => IntToString(n)
    case NaN => "NaN"
    case Str(s) => s
    case Arr(items) =>
      // `items.join(',')`: missing and null elements render as the empty string
      JoinWithCommas(seq(|items|, i requires 0 <= i < |items| =>
        if items[i].Undefined? || items[i].Null? then "" else ToStr(items[i])))
    case Obj(_) => "[object Object]"
  }

  function JoinWithCommas(parts: seq<string>): string {
    if parts == [] then ""
    else if |parts| == 1 then parts[0]
    else parts[0] + "," + JoinWithCommas(parts[1..])
  }

  /** `v.toString()`: throws (None) on undefined and null. */
  function MethodToString(v: JsValue): (r: Option<string>)
    ensures r.None? <==> v.Undefined? || v.Null?
    ensures r.Some? ==> r.value == ToStr(v)
  {
    if v.Undefined? || v.Null? then None else Some(ToStr(v))
  }

  /** `Number(v)` */
  function ToNumber(v: JsValue): (r: JsValue)
    ensures r.Num? || r.NaN?
  {
    match v
    case Undefined => NaN
    case Null => Num(0)
    case Bool(b) => Num(if b then 1 else 0)
    case Num(n) => v
    case NaN => NaN
    case Str(s) => StringToNumber(s)
    case Arr(_) => StringToNumber(ToStr(v))
    case Obj(_) => NaN
  }

  // ---------------------------------------------------------------------------
  // Property access

  /** `v[k]` for a property name: None when it throws a TypeError (v is
    * undefined or null). Only the own fields of objects are modelled. */
  function Prop(v: JsValue, k: string): (r: Option<JsValue>)
    ensures r.None? <==> v.Undefined? || v.Null?
    ensures v.Obj? && k in v.fields ==> r == Some(v.fields[k])
    ensures v.Obj? && k !in v.fields ==> r == Some(Undefined)
  {
    match v
    case Undefined => None
    case Null => None
    case Obj(f) => Some(if k in f then f[k] else Undefined)
    case _ => Some(Undefined)
  }

  /** `v?.[k]`: optional chaining yields undefined instead of throwing. */
  function OptProp(v: JsValue, k: string): (r: JsValue)
    ensures v.Undefined? || v.Null? ==> r == Undefined
    ensures !(v.Undefined? || v.Null?) ==> Some(r) == Prop(v, k)
  {
    if v.Undefined? || v.Null? then Undefined else Prop(v, k).value
  }

  /** `v[i]` for an array index: None when it throws. */
  function Index(v: JsValue, i: nat): (r: Option<JsValue>)
    ensures r.None? <==> v.Undefined? || v.Null?
    ensures v.Arr? ==> r == Some(if i < |v.items| then v.items[i] else Undefined)
  {
    match v
    case Undefined => None
    case Null => None
    case Arr(items) => Some(if i < |items| then items[i] else Undefined)
    case Str(s) => Some(if i < |s| then Str([s[i]]) else Undefined)
    case Obj(f) => Prop(v, NatToString(i))
    case _ => Some(Undefined)
  }

  /** `v?.[i]` */
  function OptIndex(v: JsValue, i: nat): (r: JsValue)
    ensures v.Undefined? || v.Null? ==> r == Undefined
    ensures !(v.Undefined? || v.Null?) ==> Some(r) == Index(v, i)
  {
    if v.Undefined? || v.Null? then Undefined else Index(v, i).value
  }

  /** The own enumerable fields that object spread `{...v}` copies; a
    * non-object contributes nothing (arrays and strings, whose spread copies
    * their indices, are treated like the other non-objects). */
  function SpreadFields(v: JsValue): (m: map<string, JsValue>)
    ensures v.Obj? ==> m == v.fields
    ensures !v.Obj? ==> m == map[]
  {
    if v.Obj? then v.fields else map[]
  }

  // ---------------------------------------------------------------------------
  // Lemmas

  lemma {:induction false} DigitsOfNat(n: nat)
    ensures AllDigits(NatToString(n))
    ensures DigitsValue(NatToString(n)) == n
    decreases n
  {
    var s := NatToString(n);
    if n >= 10 {
      DigitsOfNat(n / 10);
      var p := NatToString(n / 10);
      assert s == p + [DigitChar(n % 10)];
      assert s[..|s| - 1] == p;
    }
  }

  lemma TrimNoSpace(s: string)
    requires s != [] && !IsSpace(s[0]) && !IsSpace(s[|s| - 1])
    ensures Trim(s) == s
  {
  }

  /** `Number(String(n)) === n` for every integer. */
  lemma {:induction false} NumberOfIntString(n: int)
    ensures ToNumber(Str(IntToString(n))) == Num(n)
  {
    var m: nat := if n < 0 then -n else n;
    DigitsOfNat(m);
    var d := NatToString(m);
    var s := IntToString(n);
    assert IsDigit(d[0]) && IsDigit(d[|d| - 1]);
    if n < 0 {
      assert s == "-" + d;
      assert s[1..] == d;
    }
    TrimNoSpace(s);
  }

  /** Distinct naturals render differently (used when rendered numbers are keys). */
  lemma NatToStringInjective(a: nat, b: nat)
    requires NatToString(a) == NatToString(b)
    ensures a == b
  {
    DigitsOfNat(a);
    DigitsOfNat(b);
  }
}
