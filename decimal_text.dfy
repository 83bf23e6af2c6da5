/**
 * The text-to-number conversion that the risk engine applies to every stored
 * strategy value (Python's float() on a string). Only plain decimal notation is
 * modelled: an optional sign, digits, and at most one decimal point with at
 * least one digit overall. Everything else is "not numeric".
 */
module DecimalText {
  import opened Common

  predicate IsDigit(c: char)
  {
    '0' <= c <= '9'
  }

  predicate AllDigits(s: string)
  {
    forall i :: 0 <= i < |s| ==> IsDigit(s[i])
  }

  /** The value of a string of decimal digits, most significant first. */
  function DigitsValue(s: string): nat
    requires AllDigits(s)
    decreases |s|
  {
    if s == [] then 0 else DigitsValue(s[..|s| - 1]) * 10 + (s[|s| - 1] as int - '0' as int)
  }

  function Pow10(n: nat): (r: nat)
    ensures r >= 1
  {
    if n == 0 then 1 else 10 * Pow10(n - 1)
  }

  /** Index of the first '.' in s, or |s| when there is none. */
  function DotIndex(s: string): (k: nat)
    ensures k <= |s|
    ensures k < |s| ==> s[k] == '.'
    ensures forall i :: 0 <= i < k ==> s[i] != '.'
  {
    if s == [] then 0 else if s[0] == '.' then 0 else 1 + DotIndex(s[1..])
  }

  /** The number written as whole "." frac. */
  function PointValue(whole: string, frac: string): (r: real)
    requires AllDigits(whole) && AllDigits(frac)
    ensures r >= 0.0
  {
    DigitsValue(whole) as real + DigitsValue(frac) as real / Pow10(|frac|) as real
  }

  /** Unsigned decimal: digits, optionally followed by '.' and more digits. */
  function ParseUnsigned(s: string): (r: Option<real>)
    ensures r.Some? ==> r.value >= 0.0 && exists i :: 0 <= i < |s| && IsDigit(s[i])
    ensures AllDigits(s) && |s| > 0 ==> r == Some(DigitsValue(s) as real)
  {
    var k := DotIndex(s);
    var whole := s[..k];
    var frac := if k < |s| then s[k + 1..] else [];
    assert k == |s| ==> whole == s;
    if AllDigits(whole) && AllDigits(frac) && |whole| + |frac| > 0 then
      Some(PointValue(whole, frac))
    else
      None
  }

  /** Python float() on a stored value, restricted to plain decimal notation. */
  function ParseDecimal(s: string): (r: Option<real>)
    ensures r.Some? && r.value < 0.0 ==> |s| > 0 && s[0] == '-'
    ensures r.Some? ==> exists i :: 0 <= i < |s| && IsDigit(s[i])
  {
    if |s| > 0 && s[0] == '-' then
      Negated(ParseUnsigned(s[1..]))
    else if |s| > 0 && s[0] == '+' then
      ParseUnsigned(s[1..])
    else
      ParseUnsigned(s)
  }

  /** In whole "." fraction with a digits-only whole, the first point is the one after the whole. */
  lemma DotIndexOfPointForm(whole: string, frac: string)
    requires AllDigits(whole)
    ensures DotIndex(whole + "." + frac) == |whole|
  {
    var s := whole + "." + frac;
    var k := DotIndex(s);
    assert s[|whole|] == '.';
    assert forall i :: 0 <= i < |whole| ==> s[i] == whole[i];
  }

  lemma ParseUnsignedPointForm(whole: string, frac: string)
    requires AllDigits(whole) && AllDigits(frac) && |whole| + |frac| > 0
    ensures ParseUnsigned(whole + "." + frac) == Some(PointValue(whole, frac))
  {
    var s := whole + "." + frac;
    DotIndexOfPointForm(whole, frac);
    assert s[..|whole|] == whole;
    assert s[|whole| + 1..] == frac;
  }

  /**
   * Plain decimal notation: an optional sign, then digits "." digits, or digits
   * alone, with at least one digit in all.
   */
  predicate PlainForm(s: string, sign: string, whole: string, frac: string)
  {
    && (sign == "" || sign == "+" || sign == "-")
    && AllDigits(whole) && AllDigits(frac) && |whole| + |frac| > 0
    && (s == sign + (whole + "." + frac) || (frac == "" && s == sign + whole))
  }

  /** The number that sign whole "." frac denotes. */
  function SignedValue(sign: string, whole: string, frac: string): real
    requires AllDigits(whole) && AllDigits(frac)
  {
    if sign == "-" then -PointValue(whole, frac) else PointValue(whole, frac)
  }

  /** The unsigned part of plain notation reads as whole + fraction / 10^|fraction|. */
  lemma ParseUnsignedPlain(u: string, whole: string, frac: string)
    requires AllDigits(whole) && AllDigits(frac) && |whole| + |frac| > 0
    requires u == whole + "." + frac || (frac == "" && u == whole)
    ensures ParseUnsigned(u) == Some(PointValue(whole, frac))
  {
    if u == whole + "." + frac {
      ParseUnsignedPointForm(whole, frac);
    } else {
      assert AllDigits(u) && |u| > 0;
    }
  }

  function Negated(r: Option<real>): Option<real>
  {
    if r.Some? then Some(-r.value) else None
  }

  /** What the sign in front of an unsigned text does. */
  lemma ParseSigned(sign: string, u: string)
    requires sign == "" || sign == "+" || sign == "-"
    requires sign == "" ==> |u| > 0 && u[0] != '-' && u[0] != '+'
    ensures sign != "-" ==> ParseDecimal(sign + u) == ParseUnsigned(u)
    ensures sign == "-" ==> ParseDecimal(sign + u) == Negated(ParseUnsigned(u))
  {
    if sign == "-" {
      ParseAfterSign('-', u);
    } else if sign == "+" {
      ParseAfterSign('+', u);
    } else {
      assert sign + u == u;
    }
  }

  lemma ParseAfterSign(c: char, u: string)
    requires c == '-' || c == '+'
    ensures c == '-' ==> ParseDecimal([c] + u) == Negated(ParseUnsigned(u))
    ensures c == '+' ==> ParseDecimal([c] + u) == ParseUnsigned(u)
  {
    assert ([c] + u)[1..] == u;
  }

  /** An unsigned text in plain notation starts with a digit or the point, never a sign. */
  lemma UnsignedStartsPlain(u: string, whole: string, frac: string)
    requires AllDigits(whole) && |whole| + |frac| > 0
    requires u == whole + "." + frac || (frac == "" && u == whole)
    ensures |u| > 0 && u[0] != '-' && u[0] != '+'
  {
    if |whole| > 0 {
      assert u[0] == whole[0];
    }
  }

  /** Every text in plain decimal notation is numeric and reads as the number it denotes. */
  lemma ParsePlainForm(s: string, sign: string, whole: string, frac: string)
    requires PlainForm(s, sign, whole, frac)
    ensures ParseDecimal(s) == Some(SignedValue(sign, whole, frac))
  {
    var u := if s == sign + (whole + "." + frac) then whole + "." + frac else whole;
    assert s == sign + u;
    if sign == "" {
      ParseUnsignedPlain(u, whole, frac);
      UnsignedStartsPlain(u, whole, frac);
      assert s == u;
    } else {
      var c := sign[0];
      assert sign == [c];
      ParseUnsignedPlain(u, whole, frac);
      SignedReads(c, u, PointValue(whole, frac));
    }
  }

  /** A signed text whose unsigned part reads as x reads as x or, after a minus, as -x. */
  lemma SignedReads(c: char, u: string, x: real)
    requires c == '-' || c == '+'
    requires ParseUnsigned(u) == Some(x)
    ensures c == '-' ==> ParseDecimal([c] + u) == Some(-x)
    ensures c == '+' ==> ParseDecimal([c] + u) == Some(x)
  {
    if c == '-' {
      ParseAfterSign('-', u);
    } else {
      ParseAfterSign('+', u);
    }
  }

  /** The shape of a text that reads as an unsigned number: whole and frac are its digits. */
  lemma UnsignedIsPlain(u: string) returns (whole: string, frac: string)
    requires ParseUnsigned(u).Some?
    ensures AllDigits(whole) && AllDigits(frac) && |whole| + |frac| > 0
    ensures u == whole + "." + frac || (frac == "" && u == whole)
    ensures ParseUnsigned(u) == Some(PointValue(whole, frac))
  {
    var k := DotIndex(u);
    whole := u[..k];
    frac := if k < |u| then u[k + 1..] else [];
    if k < |u| {
      SplitAtPoint(u, k);
    } else {
      assert u == whole;
    }
  }

  lemma SplitAtPoint(u: string, k: nat)
    requires k < |u| && u[k] == '.'
    ensures u == u[..k] + "." + u[k + 1..]
  {
    assert u == u[..k] + [u[k]] + u[k + 1..];
  }

  /** A text with a sign in front of a numeric unsigned part is in plain notation. */
  lemma SignedIsPlain(s: string) returns (whole: string, frac: string)
    requires |s| > 0 && (s[0] == '-' || s[0] == '+')
    requires ParseUnsigned(s[1..]).Some?
    ensures PlainForm(s, s[..1], whole, frac)
    ensures ParseUnsigned(s[1..]) == Some(PointValue(whole, frac))
  {
    var u := s[1..];
    whole, frac := UnsignedIsPlain(u);
    assert s == s[..1] + u;
  }

  /** Conversely, every numeric text is in plain decimal notation, and its value is the one it denotes. */
  lemma ParsedIsPlain(s: string)
    requires ParseDecimal(s).Some?
    ensures exists sign, whole, frac :: PlainForm(s, sign, whole, frac)
                                        && ParseDecimal(s).value == SignedValue(sign, whole, frac)
  {
    if |s| > 0 && (s[0] == '-' || s[0] == '+') {
      var whole, frac := SignedIsPlain(s);
      var sign := s[..1];
      assert sign == [s[0]];
      assert ParseDecimal(s).value == SignedValue(sign, whole, frac);
    } else {
      var whole, frac := UnsignedIsPlain(s);
      assert s == "" + s;
      assert PlainForm(s, "", whole, frac);
    }
  }

  /** Text of the form whole "." fraction, with at least one digit, reads as whole + fraction / 10^|fraction|. */
  lemma ParsePointForm(whole: string, frac: string)
    requires AllDigits(whole) && AllDigits(frac) && |whole| + |frac| > 0
    ensures ParseDecimal(whole + "." + frac) == Some(PointValue(whole, frac))
  {
    var u := whole + "." + frac;
    assert "" + u == u;
    ParsePlainForm(u, "", whole, frac);
  }

  /** With a sign in front: "+" reads the same, "-" reads as the negation. */
  lemma ParseSignedPointForm(whole: string, frac: string)
    requires AllDigits(whole) && AllDigits(frac) && |whole| + |frac| > 0
    ensures ParseDecimal("+" + (whole + "." + frac)) == Some(PointValue(whole, frac))
    ensures ParseDecimal("-" + (whole + "." + frac)) == Some(-PointValue(whole, frac))
  {
    var u := whole + "." + frac;
    ParsePlainForm("+" + u, "+", whole, frac);
    ParsePlainForm("-" + u, "-", whole, frac);
  }
}
