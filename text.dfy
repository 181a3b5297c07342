/**
 * String helpers shared by the services: substring search (Java's String.contains),
 * decimal rendering of integers (Java's %d and string concatenation of an int) and
 * fixed-point rendering of a real (Java's %.Nf, which rounds HALF_UP).
 */
module Text {

  /** `part` occurs at the start of `s`. */
  predicate StartsWith(s: string, part: string) {
    |part| <= |s| && s[..|part|] == part
  }

  /** `part` occurs somewhere in `s` (Java's String.contains). */
  predicate Contains(s: string, part: string)
    decreases |s|
  {
    StartsWith(s, part) || (|s| > 0 && Contains(s[1..], part))
  }

  /** Whatever is written before and after it, a string contains itself. */
  lemma {:induction false} ContainsMiddle(before: string, part: string, after: string)
    ensures Contains(before + part + after, part)
    decreases |before|
  {
    var s := before + part + after;
    if before == [] {
      assert s[..|part|] == part;
    } else {
      assert s[1..] == before[1..] + part + after;
      ContainsMiddle(before[1..], part, after);
    }
  }

  function DigitChar(d: nat): char
    requires d < 10
  {
    "0123456789"[d]
  }

  /** Decimal digits of `n`, most significant first, without leading zeros. */
  function NatToString(n: nat): (s: string)
    ensures |s| >= 1
    ensures forall k :: 0 <= k < |s| ==> '0' <= s[k] <= '9'
    decreases n
  {
    if n < 10 then [DigitChar(n)] else NatToString(n / 10) + [DigitChar(n % 10)]
  }

  /** Java's rendering of an int: a minus sign for negatives, then the digits. */
  function IntToString(n: int): string {
    if n < 0 then "-" + NatToString(-n) else NatToString(n)
  }

  /** `s` with zeros put in front until it is `width` characters long. */
  function ZeroPad(s: string, width: nat): (r: string)
    ensures |r| == if |s| >= width then |s| else width
    decreases width - |s|
  {
    if |s| >= width then s else ZeroPad("0" + s, width)
  }

  /** Zero-padding only puts zeros in front: the original string is what follows them. */
  lemma {:induction false} ZeroPadShape(s: string, width: nat)
    ensures var r := ZeroPad(s, width);
            && (forall k :: 0 <= k < |r| - |s| ==> r[k] == '0')
            && r[|r| - |s|..] == s
    decreases width - |s|
  {
    if |s| < width {
      ZeroPadShape("0" + s, width);
      var r := ZeroPad(s, width);
      assert r == ZeroPad("0" + s, width);
      assert r[|r| - |s| - 1..] == "0" + s;
      assert r[|r| - |s|..] == ("0" + s)[1..];
      forall k | 0 <= k < |r| - |s| ensures r[k] == '0' {
        if k == |r| - |s| - 1 {
          assert r[k] == r[|r| - |s| - 1..][0];
        }
      }
    }
  }

  /** Zero-padding a string of decimal digits gives a string of decimal digits. */
  lemma ZeroPadDigits(s: string, width: nat)
    requires forall k :: 0 <= k < |s| ==> '0' <= s[k] <= '9'
    ensures forall k :: 0 <= k < |ZeroPad(s, width)| ==> '0' <= ZeroPad(s, width)[k] <= '9'
  {
    var r := ZeroPad(s, width);
    ZeroPadShape(s, width);
    forall k | 0 <= k < |r| ensures '0' <= r[k] <= '9' {
      if k >= |r| - |s| {
        assert r[k] == r[|r| - |s|..][k - (|r| - |s|)];
      }
    }
  }

  /** 10^d as a real. */
  function Pow10(d: nat): (p: real)
    ensures p >= 1.0
  {
    if d == 0 then 1.0 else 10.0 * Pow10(d - 1)
  }

  /** |x| * 10^decimals rounded half up to a whole number. */
  function RoundedUnits(magnitude: real, decimals: nat): int
    decreases decimals
  {
    if decimals == 0 then (magnitude + 0.5).Floor else RoundedUnits(magnitude * 10.0, decimals - 1)
  }

  /**
   * RoundedUnits is HALF_UP rounding of magnitude * 10^d: the whole number nearest to it,
   * with an exact half going up; a magnitude that is not negative gives a count that is not
   * negative.
   */
  lemma {:induction false} RoundedUnitsNearest(magnitude: real, d: nat)
    ensures RoundedUnits(magnitude, d) as real <= magnitude * Pow10(d) + 0.5 < RoundedUnits(magnitude, d) as real + 1.0
    ensures magnitude >= 0.0 ==> RoundedUnits(magnitude, d) >= 0
    decreases d
  {
    if d > 0 {
      RoundedUnitsNearest(magnitude * 10.0, d - 1);
      assert magnitude * 10.0 * Pow10(d - 1) == magnitude * Pow10(d);
    }
    if magnitude >= 0.0 {
      assert magnitude * Pow10(d) >= 0.0;
    }
  }

  /**
   * The digits of a whole number of 10^-decimals units with the point put in: zero-padded
   * to at least one digit before the point, then exactly `decimals` digits after it.
   */
  function PlacePoint(units: string, decimals: nat): string {
    var digits := ZeroPad(units, decimals + 1);
    var point := |digits| - decimals;
    if decimals == 0 then digits else digits[..point] + "." + digits[point..]
  }

  /** Every character of `s` is a decimal digit. */
  predicate AllDigits(s: string) {
    forall k :: 0 <= k < |s| ==> '0' <= s[k] <= '9'
  }

  /** A point put into a digit string after `point` characters leaves digits on both sides. */
  lemma InsertPoint(digits: string, point: nat)
    requires AllDigits(digits) && 1 <= point <= |digits|
    ensures var r := digits[..point] + "." + digits[point..];
            && |r| == |digits| + 1 && r[point] == '.'
            && AllDigits(r[..point]) && AllDigits(r[point + 1..])
  {
    var r := digits[..point] + "." + digits[point..];
    assert r[..point] == digits[..point];
    assert r[point + 1..] == digits[point..];
  }

  /**
   * Placing the point in a string of digits gives digits throughout except for one point,
   * which has at least one digit before it and exactly `decimals` digits after it.
   */
  lemma PlacePointShape(units: string, decimals: nat)
    requires AllDigits(units)
    ensures var r := PlacePoint(units, decimals);
            && |r| >= 1 && '0' <= r[0] <= '9'
            && (decimals == 0 ==> AllDigits(r))
            && (decimals > 0 ==>
                  && |r| >= decimals + 2
                  && r[|r| - decimals - 1] == '.'
                  && AllDigits(r[..|r| - decimals - 1])
                  && AllDigits(r[|r| - decimals..]))
  {
    var digits := ZeroPad(units, decimals + 1);
    ZeroPadDigits(units, decimals + 1);
    assert AllDigits(digits);
    if decimals > 0 {
      InsertPoint(digits, |digits| - decimals);
      var r := PlacePoint(units, decimals);
      assert r[..|r| - decimals - 1][0] == r[0];
    }
  }

  /** |x| printed with `decimals` places: the rounded count of units with the point put in. */
  function FixedDigits(magnitude: real, decimals: nat): string {
    var units := RoundedUnits(magnitude, decimals);
    PlacePoint(NatToString(if units < 0 then 0 else units), decimals)
  }

  /**
   * Java's String.format("%.<decimals>f", x): the sign, then |x| rounded half up to
   * `decimals` places. Reals stand for doubles here, so the digits are those of the exact
   * value, not of its nearest binary double. The point and the digits are those of a
   * locale such as Locale.ROOT or Locale.US ('.' and ASCII digits).
   */
  function FormatFixed(x: real, decimals: nat): string {
    if x < 0.0 then "-" + FixedDigits(-x, decimals) else FixedDigits(x, decimals)
  }

  /** The digits of a magnitude: see PlacePointShape. */
  lemma FixedDigitsShape(magnitude: real, decimals: nat)
    ensures var r := FixedDigits(magnitude, decimals);
            && |r| >= 1 && '0' <= r[0] <= '9'
            && (decimals > 0 ==>
                  && |r| >= decimals + 2
                  && r[|r| - decimals - 1] == '.'
                  && AllDigits(r[|r| - decimals..]))
  {
    var units := RoundedUnits(magnitude, decimals);
    var n := NatToString(if units < 0 then 0 else units);
    assert AllDigits(n);
    PlacePointShape(n, decimals);
  }

  /** A sign in front keeps the point and the digits after it at the end. */
  lemma SignedShape(sign: string, placed: string, decimals: nat)
    requires |placed| >= decimals + 2 && placed[|placed| - decimals - 1] == '.'
    requires AllDigits(placed[|placed| - decimals..])
    ensures var r := sign + placed;
            && |r| >= decimals + 2
            && r[|r| - decimals - 1] == '.'
            && AllDigits(r[|r| - decimals..])
  {
    var r := sign + placed;
    assert r[|r| - decimals..] == placed[|placed| - decimals..];
    assert r[|r| - decimals - 1] == placed[|placed| - decimals - 1];
  }

  /**
   * %.<decimals>f with decimals > 0 prints at least one digit before the point and exactly
   * `decimals` digits after it.
   */
  lemma FormatFixedShape(x: real, decimals: nat)
    requires decimals > 0
    ensures var r := FormatFixed(x, decimals);
            && |r| >= decimals + 2
            && r[|r| - decimals - 1] == '.'
            && AllDigits(r[|r| - decimals..])
  {
    var magnitude := if x < 0.0 then -x else x;
    FixedDigitsShape(magnitude, decimals);
    SignedShape(if x < 0.0 then "-" else "", FixedDigits(magnitude, decimals), decimals);
    assert FormatFixed(x, decimals) == (if x < 0.0 then "-" else "") + FixedDigits(magnitude, decimals);
  }

  /**
   * A negative value prints as "-" followed by its magnitude; any other value starts with a
   * digit. (Java prints a negative value that rounds to zero as "-0.00" too.)
   */
  lemma FormatFixedSign(x: real, decimals: nat)
    ensures x < 0.0 ==> FormatFixed(x, decimals) == "-" + FormatFixed(-x, decimals)
    ensures x >= 0.0 ==> |FormatFixed(x, decimals)| >= 1 && '0' <= FormatFixed(x, decimals)[0] <= '9'
  {
    FixedDigitsShape(x, decimals);
  }

  /**
   * A piece of a String.format result: literal text, a real printed with %.<decimals>f,
   * or a double that is NaN (which Java prints as "NaN").
   */
  datatype Piece = Lit(text: string) | Fixed(value: real, decimals: nat) | NaN

  /**
   * A message as the pieces String.format puts together. Numbers stay numbers so that
   * statements about a message do not depend on how they are printed; Render prints them.
   */
  type Message = seq<Piece>

  /** A message that is only literal text. */
  function Plain(s: string): Message {
    [Lit(s)]
  }

  /** The text one piece prints as. */
  function PieceText(p: Piece): string {
    match p
    case Lit(text) => text
    case Fixed(value, decimals) => FormatFixed(value, decimals)
    case NaN => "NaN"
  }

  /** The text String.format produces: each piece printed in turn. */
  function Render(m: Message): (r: string)
    ensures m == [] ==> r == ""
    ensures |m| > 0 ==> StartsWith(r, PieceText(m[0]))
    decreases |m|
  {
    if m == [] then "" else PieceText(m[0]) + Render(m[1..])
  }

  /** A format string of a value between two literals prints as the three texts in order. */
  lemma RenderBetween(before: string, value: Piece, after: string)
    ensures Render([Lit(before), value, Lit(after)]) == before + PieceText(value) + after
  {
    var m := [Lit(before), value, Lit(after)];
    assert m[1..][1..] == [Lit(after)];
    assert Render(m[1..][1..]) == after + Render([]);
  }
}
