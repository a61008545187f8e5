/**
 * JavaScript numbers as far as the application uses them: integers printed in
 * template strings, and prices read with `parseFloat`. A finite number is kept
 * as the exact decimal literal it was read from, `mantissa / 10^scale`.
 */
module Numbers {
  import opened Wrappers
  import opened Text

  datatype Decimal = Decimal(mantissa: int, scale: nat) {
    predicate IsNegative() { mantissa < 0 }
    ghost function Value(): real { mantissa as real / Pow10(scale) as real }
  }

  /** A JavaScript number: `NaN` or a finite decimal. */
  datatype JsNumber = NaN | Num(n: Decimal)

  function Pow10(k: nat): (p: nat)
    ensures p >= 1
  {
    if k == 0 then 1 else 10 * Pow10(k - 1)
  }

  function DigitChar(d: nat): (c: char)
    requires d < 10
    ensures IsDigit(c) && c as int - '0' as int == d
  {
    (d + '0' as int) as char
  }

  /** The value of a digit character. */
  function DigitValue(c: char): int {
    c as int - '0' as int
  }

  /** The value of a string of decimal digits, most significant first. */
  function DigitsValue(s: string): int {
    if s == [] then 0 else 10 * DigitsValue(s[..|s| - 1]) + DigitValue(s[|s| - 1])
  }

  /** The decimal notation of a natural number, as `${n}` prints it. */
  function NatToString(n: nat): (s: string)
    ensures |s| > 0 && AllDigits(s)
    ensures DigitsValue(s) == n
    ensures |s| > 1 ==> s[0] != '0'
  {
    if n < 10 then [DigitChar(n)]
    else
      var s := NatToString(n / 10) + [DigitChar(n % 10)];
      assert s[..|s| - 1] == NatToString(n / 10);
      s
  }

  /** The decimal notation of an integer, with a leading '-' when negative. */
  function IntToString(i: int): (s: string)
    ensures |s| > 0 && (s[0] == '-' || IsDigit(s[0]))
    ensures s[0] == '-' <==> i < 0
  {
    if i < 0 then "-" + NatToString(-i) else NatToString(i)
  }

  /** The length of the longest run of digits at the front of `s`. */
  function DigitRun(s: string): (n: nat)
    ensures n <= |s|
  {
    if s == [] || !IsDigit(s[0]) then 0 else 1 + DigitRun(s[1..])
  }

  /** The run is all digits and stops at the end or at a non-digit. */
  lemma {:induction false} DigitRunIsMaximal(s: string)
    ensures AllDigits(s[..DigitRun(s)])
    ensures DigitRun(s) == |s| || !IsDigit(s[DigitRun(s)])
  {
    if s != [] && IsDigit(s[0]) {
      DigitRunIsMaximal(s[1..]);
      assert s[..DigitRun(s)] == [s[0]] + s[1..][..DigitRun(s[1..])];
    }
  }

  /** A string of digits is one run. */
  lemma {:induction false} DigitRunOfDigits(s: string)
    requires AllDigits(s)
    ensures DigitRun(s) == |s|
  {
    if s != [] {
      assert AllDigits(s[1..]) by {
        forall i | 0 <= i < |s[1..]| ensures IsDigit(s[1..][i]) {
          assert s[1..][i] == s[i + 1];
        }
      }
      DigitRunOfDigits(s[1..]);
    }
  }

  /**
   * `parseFloat(s)`: leading whitespace is skipped, then an optional sign, then
   * the longest literal `digits[.digits]`; `NaN` (here `None`) when that
   * literal has no digit at all.
   */
  function ParseFloat(s: string): (r: Option<Decimal>)
    ensures s != [] && IsDigit(s[0]) ==> r.Some?
    ensures r.Some? ==> r.value.scale < |s|
  {
    ParseLiteral(TrimStart(s))
  }

  /** The sign and `digits[.digits]` literal at the front of `t`. */
  function ParseLiteral(t: string): (r: Option<Decimal>)
    ensures t == [] ==> r.None?
    ensures t != [] && IsDigit(t[0]) ==> r.Some?
    ensures r.Some? ==> r.value.scale < |t|
  {
    var negative := |t| > 0 && t[0] == '-';
    var body := if |t| > 0 && (t[0] == '-' || t[0] == '+') then t[1..] else t;
    var i := DigitRun(body);
    var rest := body[i..];
    var fraction := if |rest| > 0 && rest[0] == '.' then rest[1..][..DigitRun(rest[1..])] else "";
    if i == 0 && fraction == "" then None
    else
      var m := DigitsValue(body[..i]) * Pow10(|fraction|) + DigitsValue(fraction);
      Some(Decimal(if negative then -m else m, |fraction|))
  }

  /** The number `parseFloat` reads, with `NaN` made explicit. */
  function ToNumber(s: string): (r: JsNumber)
    ensures s != [] && IsDigit(s[0]) ==> r.Num?
  {
    match ParseFloat(s)
    case None => NaN
    case Some(d) => Num(d)
  }

  /** A string that is blank after `trim` has no number in it. */
  lemma {:induction false} ParseFloatBlank(s: string)
    requires Trim(s) == []
    ensures ParseFloat(s) == None
  {
    var t := TrimStart(s);
    TrimEndDropsWhitespace(t);
    assert |TrimEnd(t)| == 0;
    assert t[|TrimEnd(t)|..] == t;
  }

  /** Whitespace in front of a number does not change what `parseFloat` reads. */
  lemma {:induction false} ParseFloatSkipsWhitespace(c: char, s: string)
    requires IsWhitespace(c)
    ensures ParseFloat([c] + s) == ParseFloat(s)
  {
    assert ([c] + s)[1..] == s;
    assert TrimStart([c] + s) == TrimStart(s);
  }

  /** Reading back a printed integer gives that integer: `parseFloat(`${n}`) == n`. */
  lemma {:induction false} ParseIntToString(n: int)
    ensures ParseFloat(IntToString(n)) == Some(Decimal(n, 0))
  {
    var s := IntToString(n);
    assert TrimStart(s) == s;
    var body := if n < 0 then s[1..] else s;
    assert body == NatToString(if n < 0 then -n else n);
    DigitRunOfDigits(body);
    assert body[..|body|] == body;
  }

  /** `Number.prototype.toString` for the numbers of this model (no exponent notation). */
  function NumberToString(x: JsNumber): (s: string)
    ensures |s| > 0
  {
    match x
    case NaN => "NaN"
    case Num(d) =>
      var n := Normalize(d);
      if n.scale == 0 then IntToString(n.mantissa)
      else (if n.mantissa < 0 then "-" else "") + FixedPoint(if n.mantissa < 0 then -n.mantissa else n.mantissa, n.scale)
  }

  /** `a / 10^scale` written with exactly `scale` digits after the point. */
  function FixedPoint(a: nat, scale: nat): string {
    var p := Pow10(scale);
    NatToString(a / p) + "." + ZeroPad(NatToString(a % p), scale)
  }

  /** Left-pads with '0' up to `width` characters. */
  function ZeroPad(s: string, width: nat): (r: string)
    ensures |r| >= width && |r| >= |s|
    decreases width - |s|
  {
    if |s| >= width then s else ZeroPad("0" + s, width)
  }

  /** Drops trailing zero digits of the fraction: 2.50 is printed as 2.5. */
  function Normalize(d: Decimal): (r: Decimal)
    ensures r.scale <= d.scale
    ensures r.scale > 0 ==> r.mantissa % 10 != 0
    decreases d.scale
  {
    if d.scale > 0 && d.mantissa % 10 == 0 then Normalize(Decimal(d.mantissa / 10, d.scale - 1)) else d
  }

  /** Printing a whole number and reading it back gives the same number. */
  lemma {:induction false} WholeNumberRoundTrip(n: int)
    ensures ToNumber(NumberToString(Num(Decimal(n, 0)))) == Num(Decimal(n, 0))
  {
    ParseIntToString(n);
  }
}
