/**
 * Dynamic JavaScript values as the services receive them (request bodies,
 * gateway JSON, token payloads), with the coercions the code relies on:
 * truthiness, `String(v)`, `Number(v)`, optional property access and `||`.
 * Numbers are exact rationals; binary floating point is not modelled.
 */
module Js {
  import opened Strings
  import opened Wrappers

  datatype JsValue =
    | Undefined
    | Null
    | Bool(b: bool)
    | Num(n: real)
    | Str(s: string)
    | Arr(items: seq<JsValue>)
    | Obj(fields: map<string, JsValue>)

  /** `Boolean(v)` */
  predicate Truthy(v: JsValue) {
    match v
    case Undefined => false
    case Null => false
    case Bool(b) => b
    case Num(n) => n != 0.0
    case Str(s) => s != ""
    case Arr(_) => true
    case Obj(_) => true
  }

  /** `v == null` */
  predicate IsNullish(v: JsValue) {
    v.Undefined? || v.Null?
  }

  /** `v?.[key]` for a plain property read of a name no object inherits (the
      fixed field names the services read): absent keys and non-objects give
      `undefined`. Reads by a name that comes from the request, which may
      name an inherited member, consult `ObjectPrototypeKeys` where they
      happen. */
  function Get(v: JsValue, key: string): (r: JsValue)
    ensures v.Obj? && key in v.fields ==> r == v.fields[key]
    ensures !(v.Obj? && key in v.fields) ==> r == Undefined
  {
    match v
    case Obj(f) => if key in f then f[key] else Undefined
    case _ => Undefined
  }

  /** `a || b` */
  function Or(a: JsValue, b: JsValue): (r: JsValue)
    ensures Truthy(a) ==> r == a
    ensures !Truthy(a) ==> r == b
  {
    if Truthy(a) then a else b
  }

  /** `a ?? b` */
  function Coalesce(a: JsValue, b: JsValue): (r: JsValue)
    ensures IsNullish(a) ==> r == b
    ensures !IsNullish(a) ==> r == a
  {
    if IsNullish(a) then b else a
  }

  /** The properties every plain object inherits from `Object.prototype`. */
  const ObjectPrototypeKeys: set<string> := {
    "constructor", "__defineGetter__", "__defineSetter__", "hasOwnProperty", "__lookupGetter__",
    "__lookupSetter__", "isPrototypeOf", "propertyIsEnumerable", "toString", "valueOf", "__proto__",
    "toLocaleString"}

  /** `String(o[key])` for a property a plain object inherits: the prototype
      itself under `__proto__`, the `Object` constructor under `constructor`,
      otherwise the built-in method of that name. */
  function InheritedText(key: string): string {
    if key == "__proto__" then "[object Object]"
    else if key == "constructor" then "function Object() { [native code] }"
    else "function " + key + "() { [native code] }"
  }

  /** Digits after the decimal point printed for a non-integral number. */
  const FractionDigits: nat := 6

  function Pow10(k: nat): (p: nat)
    ensures p >= 1
  {
    if k == 0 then 1 else 10 * Pow10(k - 1)
  }

  /** `k` decimal digits of `n` (zero-padded on the left). */
  function PadDigits(n: nat, k: nat): (s: string)
    ensures |s| == k
    ensures forall i :: 0 <= i < k ==> IsDigit(s[i])
  {
    if k == 0 then "" else PadDigits(n / 10, k - 1) + [DigitChar(n % 10)]
  }

  /** Two padded digits of a number below 100 read back as that number. */
  lemma PadTwoDigitsValue(n: nat)
    requires n < 100
    ensures DigitsValue(PadDigits(n, 2)) == n
  {
    var s := PadDigits(n, 2);
    assert PadDigits(n / 10, 1) == PadDigits(n / 100, 0) + [DigitChar(n / 10 % 10)];
    assert s == [DigitChar(n / 10 % 10), DigitChar(n % 10)];
    assert s[..1] == [DigitChar(n / 10 % 10)];
    assert DigitsValue(s[..1]) == n / 10 % 10 by {
      assert s[..1][..0] == [];
    }
  }

  function StripTrailingZeros(s: string): (r: string)
    ensures |r| <= |s|
  {
    if |s| > 0 && s[|s| - 1] == '0' then StripTrailingZeros(s[..|s| - 1]) else s
  }

  /** `String(n)` for a number, in positional digits: an integer prints all
      its digits; a non-integral value prints its integer part, a point, and
      the first `FractionDigits` digits of its fraction without trailing
      zeros (none when those digits are all zero). */
  function NumberToString(n: real): (s: string)
    ensures s != ""
    decreases if n < 0.0 then 1 else 0
  {
    if n == n.Floor as real then IntToString(n.Floor)
    else if n < 0.0 then "-" + NumberToString(-n)
    else
      var scaled := (n * Pow10(FractionDigits) as real).Floor;
      NatToString(n.Floor) + "." + StripTrailingZeros(PadDigits(scaled % Pow10(FractionDigits), FractionDigits))
  }

  /** `String(v)` */
  function ToStr(v: JsValue): string
    decreases v, 0
  {
    match v
    case Undefined => "undefined"
    case Null => "null"
    case Bool(b) => if b then "true" else "false"
    case Num(n) => NumberToString(n)
    case Str(s) => s
    case Arr(items) => Join(seq(|items|, i requires 0 <= i < |items| => ElementText(items[i])), ",")
    case Obj(_) => "[object Object]"
  }

  /** How `Array.prototype.toString` prints one element: `null` and `undefined` print as "". */
  function ElementText(v: JsValue): string
    decreases v, 1
  {
    if IsNullish(v) then "" else ToStr(v)
  }

  /** Mongoose's cast of a value other than `null` and `undefined` to a
      `String` path: an object with a non-empty string `_id` gives that id,
      any other object and every array are a cast error (`None`), and the
      other primitives go through `String`. */
  function CastString(v: JsValue): (r: Option<string>)
    requires !IsNullish(v)
    ensures v.Str? ==> r == Some(v.s)
    ensures r.None? <==> v.Arr? || (v.Obj? && (!Get(v, "_id").Str? || Get(v, "_id").s == ""))
    ensures v.Obj? && r.Some? ==> Get(v, "_id") == Str(r.value)
    ensures v.Num? || v.Bool? ==> r == Some(ToStr(v))
  {
    match v
    case Arr(_) => None
    case Obj(_) => var id := Get(v, "_id"); if id.Str? && id.s != "" then Some(id.s) else None
    case _ => Some(ToStr(v))
  }

  /** Value of a decimal literal `int[.frac]` whose parts are digit strings (either may be empty). */
  function DecimalValue(intPart: string, frac: string): real
    requires forall i :: 0 <= i < |intPart| ==> IsDigit(intPart[i])
    requires forall i :: 0 <= i < |frac| ==> IsDigit(frac[i])
  {
    DigitsValue(intPart) as real + DigitsValue(frac) as real / Pow10(|frac|) as real
  }

  /** Position of the first '.' in `s`, or |s|. */
  function DotIndex(s: string): (k: nat)
    ensures k <= |s|
    ensures forall i :: 0 <= i < k ==> s[i] != '.'
    ensures k < |s| ==> s[k] == '.'
  {
    if |s| == 0 || s[0] == '.' then 0 else 1 + DotIndex(s[1..])
  }

  predicate AllDigits(s: string) {
    forall i :: 0 <= i < |s| ==> IsDigit(s[i])
  }

  /** Unsigned decimal literal: digits, optionally a '.' and more digits, at least one digit in all. */
  function ParseUnsigned(s: string): Option<real> {
    var k := DotIndex(s);
    var intPart := s[..k];
    var frac := if k < |s| then s[k + 1..] else "";
    if AllDigits(intPart) && AllDigits(frac) && |intPart| + |frac| > 0
    then Some(DecimalValue(intPart, frac))
    else None
  }

  /** Position of the first 'e' or 'E' in `s`, or |s|. */
  function ExponentIndex(s: string): (k: nat)
    ensures k <= |s|
    ensures forall i :: 0 <= i < k ==> s[i] != 'e' && s[i] != 'E'
    ensures k < |s| ==> s[k] == 'e' || s[k] == 'E'
  {
    if |s| == 0 || s[0] == 'e' || s[0] == 'E' then 0 else 1 + ExponentIndex(s[1..])
  }

  /** An exponent: optionally signed, at least one digit. */
  function ParseExponent(s: string): (r: Option<int>)
    ensures r.Some? && AllDigits(s) ==> r.value == DigitsValue(s)
  {
    if |s| > 0 && (s[0] == '+' || s[0] == '-') then
      var digits := s[1..];
      var v: int := if |digits| > 0 && AllDigits(digits) then DigitsValue(digits) else 0;
      if |digits| > 0 && AllDigits(digits) then Some(if s[0] == '-' then -v else v)
      else None
    else if |s| > 0 && AllDigits(s) then Some(DigitsValue(s))
    else None
  }

  /** `m` times ten to the power `e`. */
  function Scale(m: real, e: int): real {
    if e >= 0 then m * Pow10(e) as real else m / Pow10(-e) as real
  }

  /** An unsigned decimal literal with an optional exponent part: `m` or
      `m` followed by `e`/`E` and an exponent, worth m·10^exponent. */
  function ParseDecimal(s: string): (r: Option<real>)
    ensures ExponentIndex(s) == |s| ==> r == ParseUnsigned(s)
  {
    var k := ExponentIndex(s);
    if k == |s| then ParseUnsigned(s)
    else
      match (ParseUnsigned(s[..k]), ParseExponent(s[k + 1..]))
      case (Some(m), Some(e)) => Some(Scale(m, e))
      case _ => None
  }

  /** The value of `c` as a digit in base `radix`, if it is one. */
  function RadixDigit(c: char, radix: nat): (d: Option<nat>)
    ensures d.Some? ==> d.value < radix
  {
    var v := if '0' <= c <= '9' then c as int - '0' as int
             else if 'a' <= c <= 'z' then c as int - 'a' as int + 10
             else if 'A' <= c <= 'Z' then c as int - 'A' as int + 10
             else radix;
    if v < radix then Some(v) else None
  }

  /** The value of a non-empty string of base-`radix` digits. */
  function RadixValue(s: string, radix: nat): (r: Option<nat>)
    ensures r.Some? ==> |s| > 0 && forall i :: 0 <= i < |s| ==> RadixDigit(s[i], radix).Some?
  {
    if |s| == 0 then None
    else
      match RadixDigit(s[|s| - 1], radix)
      case None => None
      case Some(d) =>
        if |s| == 1 then Some(d)
        else
          match RadixValue(s[..|s| - 1], radix)
          case None => None
          case Some(v) => Some(radix * v + d)
  }

  /** The base a `0x`, `0b` or `0o` prefix of `t` names, or 0. */
  function RadixPrefix(t: string): (radix: nat)
    ensures radix in {0, 2, 8, 16}
    ensures radix != 0 ==> |t| >= 2 && t[0] == '0'
  {
    if |t| < 2 || t[0] != '0' then 0
    else if t[1] == 'x' || t[1] == 'X' then 16
    else if t[1] == 'b' || t[1] == 'B' then 2
    else if t[1] == 'o' || t[1] == 'O' then 8
    else 0
  }

  /** The value of a number with a minus sign before it. */
  function Negated(x: Option<real>): (r: Option<real>)
    ensures r.Some? <==> x.Some?
    ensures r.Some? ==> r.value == -x.value
  {
    if x.Some? then Some(-x.value) else None
  }

  lemma NegatedSome(x: real)
    ensures Negated(Some(x)) == Some(-x)
  {
  }

  /** `Number(s)` for a string: blank is 0; an unsigned hexadecimal, binary
      or octal literal (`0x1F`, `0b101`, `0o17`) is its value; a signed
      decimal literal with an optional exponent (`-1.5e3`) is its value;
      anything else is NaN (`None`). `Infinity` with either sign is `None`
      as well: it is not a finite number, and every caller treats it as it
      treats NaN (`toMinorUnits` returns null, and a `Date` built from it is
      invalid). */
  function StringToNumber(s: string): (r: Option<real>)
    ensures Trim(s) == "" ==> r == Some(0.0)
    ensures var t := Trim(s); t != "" && RadixPrefix(t) != 0 ==>
              r == (match RadixValue(t[2..], RadixPrefix(t)) case Some(v) => Some(v as real) case None => None)
    ensures var t := Trim(s); t != "" && RadixPrefix(t) == 0 && t[0] != '-' && t[0] != '+' ==> r == ParseDecimal(t)
    ensures var t := Trim(s); t != "" && t[0] == '+' ==> r == ParseDecimal(t[1..])
    ensures var t := Trim(s); t != "" && t[0] == '-' ==> r == Negated(ParseDecimal(t[1..]))
  {
    var t := Trim(s);
    if t == "" then Some(0.0)
    else if RadixPrefix(t) != 0 then
      match RadixValue(t[2..], RadixPrefix(t))
      case Some(v) => Some(v as real)
      case None => None
    else if t[0] == '-' then Negated(ParseDecimal(t[1..]))
    else if t[0] == '+' then ParseDecimal(t[1..])
    else ParseDecimal(t)
  }

  /** A trimmed text that starts with a minus sign is the negated value of the rest. */
  lemma MinusText(s: string)
    requires Trim(s) == s && |s| > 0 && s[0] == '-'
    ensures StringToNumber(s) == Negated(ParseDecimal(s[1..]))
  {
  }

  /** `m` followed by `e` and `n`, for digit strings `m` and `n`, is worth m·10^n. */
  lemma ExponentValue(m: string, n: string)
    requires |m| > 0 && AllDigits(m) && |n| > 0 && AllDigits(n)
    ensures ParseDecimal(m + "e" + n) == Some(Scale(DigitsValue(m) as real, DigitsValue(n)))
  {
    var s := m + "e" + n;
    NoExponent(m);
    ExponentAfter(m, n);
    assert s[..|m|] == m && s[|m| + 1..] == n;
    WholeDigits(m);
    assert !(n[0] == '+' || n[0] == '-') by { assert IsDigit(n[0]); }
    ScaledDecimal(s, DigitsValue(m) as real, DigitsValue(n));
  }

  lemma ScaledDecimal(s: string, x: real, e: int)
    requires ExponentIndex(s) < |s|
    requires ParseUnsigned(s[..ExponentIndex(s)]) == Some(x)
    requires ParseExponent(s[ExponentIndex(s) + 1..]) == Some(e)
    ensures ParseDecimal(s) == Some(Scale(x, e))
  {
  }

  lemma {:induction false} DigitsHaveNoDot(m: string)
    requires AllDigits(m)
    ensures DotIndex(m) == |m|
  {
    if |m| > 0 {
      assert IsDigit(m[0]);
      DigitsHaveNoDot(m[1..]);
    }
  }

  /** A digit string with no dot is worth its digits. */
  lemma WholeDigits(m: string)
    requires |m| > 0 && AllDigits(m)
    ensures ParseUnsigned(m) == Some(DigitsValue(m) as real)
  {
    DigitsHaveNoDot(m);
    assert m[..|m|] == m;
    assert DecimalValue(m, "") == DigitsValue(m) as real by {
      assert DigitsValue("") == 0 && Pow10(0) == 1;
    }
  }

  lemma {:induction false} ExponentAfter(m: string, n: string)
    requires ExponentIndex(m) == |m|
    ensures ExponentIndex(m + "e" + n) == |m|
  {
    if |m| > 0 {
      assert (m + "e" + n)[1..] == m[1..] + "e" + n;
      ExponentAfter(m[1..], n);
    }
  }

  /** A word such as `Infinity`, with or without a sign, is not a number
      here: its first character is a letter. */
  lemma SignedWordIsNaN(s: string, sign: string, word: string)
    requires Trim(s) == sign + word && (sign == "" || sign == "-" || sign == "+")
    requires |word| > 0 && ('a' <= word[0] <= 'z' || 'A' <= word[0] <= 'Z')
    ensures StringToNumber(s).None?
  {
    var t := Trim(s);
    assert sign == "" ==> t == word;
    assert sign != "" ==> t[1..] == word;
    LetterLedIsNaN(word);
  }

  lemma LetterLedIsNaN(u: string)
    requires |u| > 0 && ('a' <= u[0] <= 'z' || 'A' <= u[0] <= 'Z')
    ensures ParseDecimal(u).None?
  {
    var k := ExponentIndex(u);
    if k == |u| {
      assert DotIndex(u) > 0 ==> u[..DotIndex(u)][0] == u[0];
    } else if k > 0 {
      var head := u[..k];
      assert head[0] == u[0];
      assert DotIndex(head) > 0 ==> head[..DotIndex(head)][0] == u[0];
    }
  }

  /** A text of digits and dots has no exponent part. */
  lemma {:induction false} NoExponent(s: string)
    requires forall i :: 0 <= i < |s| ==> IsDigit(s[i]) || s[i] == '.'
    ensures ExponentIndex(s) == |s|
  {
    if |s| > 0 {
      assert IsDigit(s[0]) || s[0] == '.';
      NoExponent(s[1..]);
    }
  }

  /** A text of digits and dots reads as a plain decimal: no base prefix, no exponent. */
  lemma PlainDecimalText(s: string)
    requires forall i :: 0 <= i < |s| ==> IsDigit(s[i]) || s[i] == '.'
    ensures RadixPrefix(s) == 0 && ParseDecimal(s) == ParseUnsigned(s)
  {
    if |s| >= 2 {
      assert IsDigit(s[1]) || s[1] == '.';
    }
    NoExponent(s);
  }

  /** `Number(v)`; NaN is `None`. */
  function ToNumber(v: JsValue): Option<real>
    decreases v
  {
    match v
    case Undefined => None
    case Null => Some(0.0)
    case Bool(b) => Some(if b then 1.0 else 0.0)
    case Num(n) => Some(n)
    case Str(s) => StringToNumber(s)
    case Arr(items) =>
      if |items| == 0 then Some(0.0)
      else if |items| == 1 then StringToNumber(ElementText(items[0]))
      else None
    case Obj(_) => None
  }

  /** `Math.round(x)`: the nearest integer, halves rounded up. */
  function Round(x: real): (r: int)
    ensures x - 0.5 < r as real <= x + 0.5
  {
    (x + 0.5).Floor
  }

  /** `Math.floor(ms / 1000)`: Dafny's integer division already floors for a positive divisor. */
  function SecondsOf(ms: int): (sec: int)
    ensures sec * 1000 <= ms < sec * 1000 + 1000
  {
    ms / 1000
  }
}
