/** Decimal numerals as both converters read them. Python's `Decimal(text)`
    and Go's `decimal.NewFromString(text)` accept far more than this (exponent
    notation, NaN, Infinity, underscores); the model reads the grammar the
    converters document: an optional sign, digits, at most one '.', and at
    least one digit. */
module Numerals {
  import opened Results
  import opened Arith

  /** The amount `mantissa / 10^scale`, where `scale` is the number of
      fractional digits written. Python's `as_tuple().exponent` is `-scale`;
      "1.000" is `Decimal(1000, 3)`, "1" is `Decimal(1, 0)`. */
  datatype Decimal = Decimal(mantissa: int, scale: nat)

  predicate IsDigit(ch: char) {
    '0' <= ch <= '9'
  }

  predicate AllDigits(s: string) {
    forall k :: 0 <= k < |s| ==> IsDigit(s[k])
  }

  /** The value of a run of decimal digits, most significant first. */
  function DigitsValue(s: string): (n: nat)
    requires AllDigits(s)
    ensures n < Pow10(|s|)
  {
    if s == [] then 0
    else DigitsValue(s[..|s| - 1]) * 10 + (s[|s| - 1] as int - '0' as int)
  }

  /** Digits written one after another: the first run's value shifted past
      the second run, plus the second run's value. */
  lemma {:induction false} DigitsValueAppend(a: string, b: string)
    requires AllDigits(a) && AllDigits(b)
    ensures AllDigits(a + b)
    ensures DigitsValue(a + b) == DigitsValue(a) * Pow10(|b|) + DigitsValue(b)
  {
    if b == [] {
      assert a + b == a;
    } else {
      var front := b[..|b| - 1];
      DigitsValueAppend(a, front);
      assert (a + b)[..|a + b| - 1] == a + front;
      assert (a + b)[|a + b| - 1] == b[|b| - 1];
      var x: int, p: int, y: int := DigitsValue(a), Pow10(|front|), DigitsValue(front);
      var c: int := b[|b| - 1] as int - '0' as int;
      assert b[..|b| - 1] == front;
      ShiftDigit(x, p, y, c, Pow10(|b|), DigitsValue(b), DigitsValue(a + b));
    }
  }

  /** One more digit on the right of both runs: the arithmetic step of
      `DigitsValueAppend`. */
  lemma ShiftDigit(x: int, p: int, y: int, c: int, q: int, v: int, w: int)
    requires q == p * 10 && v == y * 10 + c && w == (x * p + y) * 10 + c
    ensures w == x * q + v
  {
    Regroup(x, p, y, 10);
  }

  /** Position of the first `ch` in `s`, or `|s|` when there is none. */
  function IndexOf(s: string, ch: char): (i: nat)
    ensures i <= |s|
    ensures ch !in s[..i]
    ensures i < |s| ==> s[i] == ch
  {
    if s == [] then 0
    else if s[0] == ch then 0
    else
      var j := IndexOf(s[1..], ch);
      assert s[..j + 1] == [s[0]] + s[1..][..j];
      j + 1
  }

  /** `v` with the sign a leading '-' gives it. */
  function Signed(negative: bool, v: nat): int {
    if negative then -(v as int) else v
  }

  /** Reads `digits[.digits]` (at least one digit); `None` otherwise. */
  function ParseUnsigned(body: string): (r: Option<Decimal>)
    ensures r.Some? ==> forall k :: 0 <= k < |body| ==> IsDigit(body[k]) || body[k] == '.'
    ensures r.Some? ==> forall i, j :: 0 <= i < j < |body| && body[i] == '.' ==> body[j] != '.'
    ensures r.Some? ==> r.value.mantissa >= 0 && r.value.scale < |body|
  {
    var dot := IndexOf(body, '.');
    var ip := body[..dot];
    var fp := if dot < |body| then body[dot + 1..] else "";
    if AllDigits(ip) && AllDigits(fp) && |ip| + |fp| >= 1 then
      assert forall k :: 0 <= k < |body| && k != dot ==> IsDigit(body[k]) by {
        forall k | 0 <= k < |body| && k != dot ensures IsDigit(body[k]) {
          if k < dot { assert body[k] == ip[k]; } else { assert body[k] == fp[k - dot - 1]; }
        }
      }
      Some(Decimal(DigitsValue(ip + fp), |fp|))
    else None
  }

  /** Reads `[+-]digits[.digits]`; `None` for any other text. A value is
      produced only for text made of digits and at most one '.', after an
      optional sign. */
  function ParseNumeral(s: string): (r: Option<Decimal>)
    ensures r.Some? ==> forall k :: 0 <= k < |s| ==> IsDigit(s[k]) || s[k] == '.' || (k == 0 && (s[k] == '+' || s[k] == '-'))
    ensures r.Some? ==> forall i, j :: 0 <= i < j < |s| && s[i] == '.' ==> s[j] != '.'
    ensures r.Some? ==> r.value.scale < |s|
    ensures r.Some? ==> (r.value.mantissa < 0 ==> s[0] == '-')
  {
    var signed := |s| > 0 && (s[0] == '-' || s[0] == '+');
    var body := if signed then s[1..] else s;
    match ParseUnsigned(body)
    case None => None
    case Some(d) =>
      assert signed ==> forall k :: 1 <= k < |s| ==> s[k] == body[k - 1];
      Some(Decimal(Signed(signed && s[0] == '-', d.mantissa), d.scale))
  }

  /** The text of a numeral: optional sign, integer digits, optionally a dot
      followed by fractional digits. */
  function NumeralText(sign: string, ip: string, dot: bool, fp: string): string {
    sign + UnsignedText(ip, dot, fp)
  }

  function UnsignedText(ip: string, dot: bool, fp: string): string {
    if dot then ip + "." + fp else ip
  }

  lemma ParseUnsignedText(ip: string, dot: bool, fp: string)
    requires AllDigits(ip) && AllDigits(fp) && |ip| + |fp| >= 1
    requires !dot ==> fp == ""
    ensures ParseUnsigned(UnsignedText(ip, dot, fp)) == Some(Decimal(DigitsValue(ip + fp), |fp|))
  {
    var body := UnsignedText(ip, dot, fp);
    assert '.' !in ip by {
      forall k | 0 <= k < |ip| ensures ip[k] != '.' { assert IsDigit(ip[k]); }
    }
    assert body[..|ip|] == ip;
    if dot {
      assert body[|ip|] == '.';
      assert body[|ip| + 1..] == fp;
    } else {
      assert body == ip;
    }
    assert IndexOf(body, '.') == |ip|;
  }

  /** Every numeral of the grammar is read as the value of its digits, scaled
      by the number of digits after the dot and negated by a '-'. */
  lemma ParseNumeralText(sign: string, ip: string, dot: bool, fp: string)
    requires sign == "" || sign == "+" || sign == "-"
    requires AllDigits(ip) && AllDigits(fp) && |ip| + |fp| >= 1
    requires !dot ==> fp == ""
    ensures ParseNumeral(NumeralText(sign, ip, dot, fp))
         == Some(Decimal(Signed(sign == "-", DigitsValue(ip + fp)), |fp|))
  {
    var body := UnsignedText(ip, dot, fp);
    ParseUnsignedText(ip, dot, fp);
    assert NumeralText(sign, ip, dot, fp) == sign + body;
    if sign == "" {
      assert "" + body == body;
      UnsignedParse(ip, dot, fp);
    } else {
      var s := sign + body;
      assert s[0] == sign[0] && s[1..] == body;
      assert (s[0] == '-') == (sign == "-");
    }
  }

  lemma UnsignedParse(ip: string, dot: bool, fp: string)
    requires AllDigits(ip) && |ip| + |fp| >= 1
    requires !dot ==> fp == ""
    ensures ParseNumeral(UnsignedText(ip, dot, fp)) == ParseUnsigned(UnsignedText(ip, dot, fp))
  {
    var body := UnsignedText(ip, dot, fp);
    assert |body| > 0 && body[0] != '-' && body[0] != '+' by {
      if ip == [] {
        assert dot && body == ['.'] + fp;
      } else {
        assert body[0] == ip[0] && IsDigit(ip[0]);
      }
    }
  }

  /** Text holding a character that is neither a digit, '.' nor a sign is
      not a numeral. */
  lemma ForeignChar(s: string, x: char)
    requires x in s && !IsDigit(x) && x != '.' && x != '+' && x != '-'
    ensures ParseNumeral(s).None?
  {
    var k :| 0 <= k < |s| && s[k] == x;
  }
}
