/**
 * The JavaScript value semantics that the broker's decisions depend on:
 * the values an option can hold, truthiness, loose equality with `true`
 * (the debug switch of `Log`) and the conversion to text that `+` applies
 * when an option is joined to a path.
 */
module JsValues {

  /** A value held by a field of the broker's option record. */
  datatype JsValue =
    | Undefined
    | Null
    | Bool(b: bool)
    | Num(n: int)
    | Str(s: string)

  /** Truthiness, as `||` and `if` apply it. */
  predicate Truthy(v: JsValue)
  {
    match v
    case Undefined => false
    case Null => false
    case Bool(b) => b
    case Num(n) => n != 0
    case Str(s) => s != ""
  }

  predicate IsDigit(c: char)
  {
    '0' <= c <= '9'
  }

  /** The decimal spelling of a natural number, as `String(n)` writes it for safe integers (below 2^53). */
  function NatToDecimal(n: nat): (r: string)
    ensures |r| >= 1
    ensures forall i :: 0 <= i < |r| ==> IsDigit(r[i])
    ensures n >= 10 ==> r[0] != '0'
  {
    if n < 10 then [('0' as int + n) as char]
    else NatToDecimal(n / 10) + [('0' as int + n % 10) as char]
  }

  /** The number a string of decimal digits denotes. */
  function DecimalValue(s: string): nat
    requires forall i :: 0 <= i < |s| ==> IsDigit(s[i])
  {
    if s == [] then 0
    else
      assert IsDigit(s[|s| - 1]);
      DecimalValue(s[..|s| - 1]) * 10 + (s[|s| - 1] as int - '0' as int)
  }

  /** Reading back the spelling gives the number that was spelled. */
  lemma {:induction false} DecimalRoundTrip(n: nat)
    ensures DecimalValue(NatToDecimal(n)) == n
  {
    if n >= 10 {
      var r := NatToDecimal(n);
      var d := ('0' as int + n % 10) as char;
      assert r == NatToDecimal(n / 10) + [d];
      assert r[..|r| - 1] == NatToDecimal(n / 10);
      DecimalRoundTrip(n / 10);
    }
  }

  /** The text `+` produces when a value is concatenated with a string. */
  function ToJsString(v: JsValue): string
  {
    match v
    case Undefined => "undefined"
    case Null => "null"
    case Bool(b) => if b then "true" else "false"
    case Num(n) => if n < 0 then "-" + NatToDecimal(-n) else NatToDecimal(n)
    case Str(s) => s
  }

  /** The white space and line terminators that `Number(s)` ignores around a numeral. */
  predicate IsJsSpace(c: char)
  {
    c == ' ' || c == '\t' || c == '\n' || c == '\r' || c == '\U{000B}' || c == '\U{000C}'
    || c == '\U{00A0}' || c == '\U{FEFF}' || c == '\U{1680}' || '\U{2000}' <= c <= '\U{200A}'
    || c == '\U{2028}' || c == '\U{2029}' || c == '\U{202F}' || c == '\U{205F}' || c == '\U{3000}'
  }

  /** `s` without its leading white space: a suffix of `s` that starts with no space. */
  function TrimStart(s: string): (r: string)
    ensures |r| <= |s|
    ensures r == [] || !IsJsSpace(r[0])
  {
    if s != [] && IsJsSpace(s[0]) then TrimStart(s[1..]) else s
  }

  /** `s` without its trailing white space: a prefix of `s` that ends with no space. */
  function TrimEnd(s: string): (r: string)
    ensures |r| <= |s|
    ensures r == [] || !IsJsSpace(r[|r| - 1])
  {
    if s != [] && IsJsSpace(s[|s| - 1]) then TrimEnd(s[..|s| - 1]) else s
  }

  /** `s` without its leading zeros: a suffix of `s`. */
  function DropZeros(s: string): (r: string)
    ensures |r| <= |s|
    ensures r == [] || r[0] != '0'
  {
    if s != [] && s[0] == '0' then DropZeros(s[1..]) else s
  }

  /** Every character left after trimming or dropping zeros was in the text. */
  lemma {:induction false} TrimsKeepCharacters(s: string, c: char)
    ensures c in TrimStart(s) ==> c in s
    ensures c in TrimEnd(s) ==> c in s
    ensures c in DropZeros(s) ==> c in s
  {
    if s != [] {
      TrimsKeepCharacters(s[1..], c);
      TrimsKeepCharacters(s[..|s| - 1], c);
    }
  }

  predicate AllZeros(s: string)
  {
    forall i :: 0 <= i < |s| ==> s[i] == '0'
  }

  /**
   * A plain decimal spelling of one: an optional `+`, any leading zeros,
   * the digit 1, and optionally a point followed only by zeros
   * ("1", "+01", "1.", "001.000").
   */
  predicate SpellsOne(t: string)
  {
    var u := if t != [] && t[0] == '+' then t[1..] else t;
    var v := DropZeros(u);
    v != [] && v[0] == '1' && (|v| == 1 || (v[1] == '.' && AllZeros(v[2..])))
  }

  /**
   * `v == true` under JavaScript's loose equality: `true` becomes the number 1
   * and the other side is compared with it as a number.
   */
  predicate LooselyTrue(v: JsValue): (b: bool)
    ensures b ==> Truthy(v)
    ensures v == Undefined || v == Null ==> !b
    ensures v.Bool? ==> (b <==> v.b)
    ensures v.Num? ==> (b <==> v.n == 1)
  {
    match v
    case Undefined => false
    case Null => false
    case Bool(b) => b
    case Num(n) => n == 1
    case Str(s) => SpellsOne(TrimEnd(TrimStart(s)))
  }

  /**
   * A text written as a plain decimal numeral can equal `true` only when it
   * contains the digit 1: "true", "yes" or "on" never do.
   */
  lemma TextLooselyTrueHasDigitOne(s: string)
    requires LooselyTrue(Str(s))
    ensures '1' in s
  {
    var a := TrimStart(s);
    var t := TrimEnd(a);
    var u := if t != [] && t[0] == '+' then t[1..] else t;
    assert '1' in DropZeros(u);
    TrimsKeepCharacters(u, '1');
    assert '1' in t;
    TrimsKeepCharacters(a, '1');
    TrimsKeepCharacters(s, '1');
  }

  /** The one-character text "1" is loosely equal to `true`. */
  lemma OneTextIsLooselyTrue(t: string)
    requires |t| == 1 && t[0] == '1'
    ensures LooselyTrue(Str(t))
  {
    assert TrimStart(t) == t by {
      assert !IsJsSpace(t[0]);
    }
    assert TrimEnd(t) == t by {
      assert !IsJsSpace(t[|t| - 1]);
    }
    assert DropZeros(t) == t;
    assert SpellsOne(t);
  }

  /** `v == t` for a lower-case word `t`, whose numeric value is NaN, so no number equals it. */
  predicate LooselyEqualsWord(v: JsValue, t: string)
    requires t != [] && forall i :: 0 <= i < |t| ==> 'a' <= t[i] <= 'z'
  {
    match v
    case Str(s) => s == t
    case _ => false
  }
}
