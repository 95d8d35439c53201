/**
 Decimals as text: how the cast kernel writes an unscaled integer with its
 scale, a reader of decimal text, and that reading gives the number back.
 */
module DecimalTexts {
  import opened Wrappers

  function Pow10(k: nat): (r: int)
    ensures r >= 1
  {
    if k == 0 then 1 else 10 * Pow10(k - 1)
  }

  // ---------------------------------------------------------------- writing

  /** A decimal as text: sign, digits and, with a positive scale, a point. */
  function DecimalText(n: int, scale: int): string {
    if n < 0 then "-" + Unsigned(-n, scale) else Unsigned(n, scale)
  }

  function Unsigned(n: nat, scale: int): string {
    if scale <= 0 then NatText(n) + Zeros(-scale)
    else NatText(DropDigits(n, scale)) + "." + LastDigits(n, scale)
  }

  function DropDigits(n: nat, k: nat): nat {
    if k == 0 then n else DropDigits(n / 10, k - 1)
  }

  function Zeros(k: int): string {
    if k <= 0 then "" else Zeros(k - 1) + "0"
  }

  function Digit(d: nat): char
    requires d < 10
  {
    '0' + d as char
  }

  function NatText(n: nat): string {
    if n < 10 then [Digit(n)] else NatText(n / 10) + [Digit(n % 10)]
  }

  function LastDigits(n: nat, k: nat): string {
    if k == 0 then "" else LastDigits(n / 10, k - 1) + [Digit(n % 10)]
  }

  // ---------------------------------------------------------------- reading

  /** The number `mantissa / 10^places`. */
  datatype Decimal = Decimal(mantissa: int, places: nat)

  predicate AllDigits(s: string) {
    forall i | 0 <= i < |s| :: '0' <= s[i] <= '9'
  }

  function DigitsValue(s: string): nat
    requires AllDigits(s)
  {
    if s == [] then 0 else 10 * DigitsValue(s[..|s| - 1]) + (s[|s| - 1] - '0') as nat
  }

  /** The position of the first point, or the length. */
  function PointAt(s: string): (i: nat)
    ensures i <= |s| && (i < |s| ==> s[i] == '.') && forall j | 0 <= j < i :: s[j] != '.'
  {
    if s == [] || s[0] == '.' then 0 else 1 + PointAt(s[1..])
  }

  function Compose(whole: string, part: string): Decimal
    requires AllDigits(whole) && AllDigits(part)
  {
    Decimal(DigitsValue(whole) * Pow10(|part|) + DigitsValue(part), |part|)
  }

  /** Digits, and after a point more digits. */
  function ReadUnsigned(s: string): Option<Decimal> {
    var p := PointAt(s);
    var part := if p < |s| then s[p + 1..] else "";
    if p == 0 || !AllDigits(s[..p]) || !AllDigits(part) || (p < |s| && part == "") then None
    else Some(Compose(s[..p], part))
  }

  function ReadDecimal(s: string): Option<Decimal> {
    if s != [] && s[0] == '-' then
      match ReadUnsigned(s[1..])
      case Some(d) => Some(Decimal(-d.mantissa, d.places))
      case None => None
    else ReadUnsigned(s)
  }

  /** The text is a decimal number, and the number is `n / 10^scale`. */
  predicate Denotes(s: string, n: int, scale: int) {
    var (up, down) := if scale >= 0 then (Pow10(scale), 1) else (1, Pow10(-scale));
    match ReadDecimal(s)
    case Some(d) => d.mantissa * up == n * down * Pow10(d.places)
    case None => false
  }

  // ---------------------------------------------------------------- reading what was written

  lemma {:induction false} NatTextReads(n: nat)
    ensures NatText(n) != [] && AllDigits(NatText(n)) && DigitsValue(NatText(n)) == n
  {
    if n < 10 {
      assert [Digit(n)][..0] == [];
    } else {
      NatTextReads(n / 10);
      Appended(NatText(n / 10), n % 10);
    }
  }

  lemma Appended(s: string, d: nat)
    requires AllDigits(s) && d < 10
    ensures AllDigits(s + [Digit(d)]) && DigitsValue(s + [Digit(d)]) == 10 * DigitsValue(s) + d
  {
    assert (s + [Digit(d)])[..|s|] == s;
  }

  lemma {:induction false} ZerosRead(s: string, k: nat)
    requires AllDigits(s)
    ensures AllDigits(s + Zeros(k)) && DigitsValue(s + Zeros(k)) == DigitsValue(s) * Pow10(k)
  {
    if k == 0 {
      assert s + Zeros(k) == s;
    } else {
      ZerosRead(s, k - 1);
      assert s + Zeros(k) == (s + Zeros(k - 1)) + [Digit(0)];
      Appended(s + Zeros(k - 1), 0);
      Regroup(DigitsValue(s), Pow10(k - 1));
    }
  }

  lemma Regroup(a: int, b: int)
    ensures a * (10 * b) == 10 * (a * b)
  {
  }

  /** The parts `high` and `low` of a number, cut where `high` counts `unit`s. */
  predicate Makes(high: int, unit: int, low: int, n: int) {
    high * unit + low == n
  }

  lemma OneMoreDigit(high: int, unit: int, low: int, m: int, digit: int)
    requires Makes(high, unit, low, m)
    ensures Makes(high, 10 * unit, 10 * low + digit, 10 * m + digit)
  {
    Regroup(high, unit);
  }

  /** Cutting off the last `k` digits and reading both parts loses nothing. */
  lemma {:induction false} CutReads(n: nat, k: nat)
    ensures AllDigits(LastDigits(n, k)) && |LastDigits(n, k)| == k
    ensures Makes(DropDigits(n, k), Pow10(k), DigitsValue(LastDigits(n, k)), n)
  {
    hide *;
    if k == 0 {
      CutNothing(n);
    } else {
      var m := n / 10;
      CutReads(m, k - 1);
      CutStep(n, k);
      Appended(LastDigits(m, k - 1), n % 10);
      OneMoreDigit(DropDigits(m, k - 1), Pow10(k - 1), DigitsValue(LastDigits(m, k - 1)), m, n % 10);
      assert 10 * m + n % 10 == n;
    }
  }

  lemma CutNothing(n: nat)
    ensures AllDigits(LastDigits(n, 0)) && |LastDigits(n, 0)| == 0
    ensures Makes(DropDigits(n, 0), Pow10(0), DigitsValue(LastDigits(n, 0)), n)
  {
    assert Pow10(0) == 1 && LastDigits(n, 0) == "" && DropDigits(n, 0) == n;
  }

  lemma CutStep(n: nat, k: nat)
    requires k > 0
    ensures LastDigits(n, k) == LastDigits(n / 10, k - 1) + [Digit(n % 10)]
    ensures DropDigits(n, k) == DropDigits(n / 10, k - 1) && Pow10(k) == 10 * Pow10(k - 1)
  {
  }

  lemma {:induction false} PointFound(a: string, b: string)
    requires AllDigits(a) && (b == [] || b[0] == '.')
    ensures PointAt(a + b) == |a|
  {
    assert forall j | 0 <= j < |a| :: (a + b)[j] == a[j];
    if b != [] {
      assert (a + b)[|a|] == '.';
    }
  }

  lemma ReadsWhole(s: string)
    requires s != [] && AllDigits(s)
    ensures ReadUnsigned(s) == Some(Decimal(DigitsValue(s), 0)) && s[0] != '-'
  {
    PointFound(s, []);
    assert s + [] == s && s[..|s|] == s;
    assert Compose(s, "") == Decimal(DigitsValue(s), 0);
    hide PointAt, Compose, DigitsValue;
  }

  lemma ReadsParts(whole: string, part: string)
    requires whole != [] && AllDigits(whole) && part != [] && AllDigits(part)
    ensures ReadUnsigned(whole + "." + part) == Some(Compose(whole, part)) && (whole + "." + part)[0] != '-'
  {
    hide PointAt, Compose;
    var s := whole + "." + part;
    PointFound(whole, "." + part);
    assert s == whole + ("." + part);
    assert s[..|whole|] == whole && s[|whole| + 1..] == part && s[0] == whole[0];
  }

  /** What is written of a natural number reads back: with a positive scale digit for digit, else with the zeros it stands for. */
  lemma UnsignedReads(n: nat, scale: int)
    ensures Unsigned(n, scale) != [] && Unsigned(n, scale)[0] != '-'
    ensures ReadUnsigned(Unsigned(n, scale)) == Some(if scale > 0 then Decimal(n, scale) else Decimal(n * Pow10(-scale), 0))
  {
    hide NatText, Zeros, LastDigits, DropDigits, ReadUnsigned, DigitsValue, Pow10, AllDigits;
    if scale <= 0 {
      NatTextReads(n);
      ZerosRead(NatText(n), -scale);
      ReadsWhole(NatText(n) + Zeros(-scale));
    } else {
      NatTextReads(DropDigits(n, scale));
      CutReads(n, scale);
      ReadsParts(NatText(DropDigits(n, scale)), LastDigits(n, scale));
    }
  }

  /** The text of every decimal, of either sign and any scale, denotes it. */
  lemma DecimalTextDenotes(n: int, scale: int)
    ensures Denotes(DecimalText(n, scale), n, scale)
  {
    hide DecimalText, ReadDecimal, Pow10;
    ReadsBack(n, scale);
    assert Pow10(0) == 1 by { PowZero(); }
  }

  lemma PowZero()
    ensures Pow10(0) == 1
  {
  }

  lemma ReadsBack(n: int, scale: int)
    ensures ReadDecimal(DecimalText(n, scale)) == Some(if scale > 0 then Decimal(n, scale) else Decimal(n * Pow10(-scale), 0))
  {
    hide Unsigned, ReadUnsigned, Pow10;
    if n < 0 {
      UnsignedReads(-n, scale);
      assert DecimalText(n, scale)[1..] == Unsigned(-n, scale);
      NegateProduct(-n, if scale > 0 then 1 else Pow10(-scale));
    } else {
      UnsignedReads(n, scale);
    }
  }

  lemma NegateProduct(a: int, b: int)
    ensures -(a * b) == (-a) * b
  {
  }
}
