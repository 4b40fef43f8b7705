/** The human-readable price: human_amount of src/payments/x402.py, with the decimal arithmetic it
    leaves to Python. */
module HumanAmounts {
  import opened Decimals

  function Pow10(n: nat): (p: nat)
    ensures p > 0
  {
    if n == 0 then 1 else 10 * Pow10(n - 1)
  }

  datatype Division = Division(quotient: nat, rest: nat)

  /** Floor division and its remainder. */
  function Divide(n: nat, p: nat): (d: Division)
    requires p > 0
    ensures d.quotient * p + d.rest == n && d.rest < p
  {
    if n < p then Division(0, n) else var d := Divide(n - p, p); Division(d.quotient + 1, d.rest)
  }

  // ---- printing ------------------------------------------------------------

  /** Significant digits a Decimal quotient keeps in the default context. */
  const PRECISION: nat := 28

  function DroppedDigits(atomic: nat): nat {
    if |Digits(atomic)| > PRECISION then |Digits(atomic)| - PRECISION else 0
  }

  function HalfEven(n: nat, unit: nat): nat
    requires unit > 0
  {
    var d := Divide(n, unit);
    if 2 * d.rest < unit || (2 * d.rest == unit && d.quotient % 2 == 0) then d.quotient else d.quotient + 1
  }

  /** Dividing by a power of ten rounds to the precision, half to even: the numerator that is left. */
  function Rounded(atomic: nat): nat {
    var unit := Pow10(DroppedDigits(atomic));
    HalfEven(atomic, unit) * unit
  }

  /** The last n digits, with leading zeros. */
  function Padded(value: nat, n: nat): string {
    if n == 0 then "" else Padded(value / 10, n - 1) + [Digit(value % 10)]
  }

  /** value / 10^places in fixed-point notation with that many places. */
  function FixedPoint(value: nat, places: nat): string {
    if places == 0 then Digits(value)
    else
      var d := Divide(value, Pow10(places));
      Digits(d.quotient) + ("." + Padded(d.rest, places))
  }

  datatype Parts = Parts(whole: string, point: bool, frac: string)

  /** str.partition(".") */
  function Partition(s: string): Parts {
    if s == "" then Parts("", false, "")
    else if s[0] == '.' then Parts("", true, s[1..])
    else var rest := Partition(s[1..]); Parts([s[0]] + rest.whole, rest.point, rest.frac)
  }

  function StripZeros(s: string): string {
    if s != "" && s[|s| - 1] == '0' then StripZeros(s[..|s| - 1]) else s
  }

  function LeftJustify(s: string, width: nat): string
    decreases width - |s|
  {
    if |s| < width then LeftJustify(s + "0", width) else s
  }

  function HumanAmount(atomic: nat, decimals: nat): string {
    var text := FixedPoint(Rounded(atomic), decimals);
    if '.' !in text then text
    else
      var parts := Partition(text);
      parts.whole + ("." + LeftJustify(StripZeros(parts.frac), 2))
  }

  // ---- reading -------------------------------------------------------------

  /** A decimal numeral stands for digits / 10^places. */
  function ReadDigits(s: string): nat { Number(Partition(s).whole + Partition(s).frac) }

  function ReadPlaces(s: string): nat { |Partition(s).frac| }

  /** A numeral means numerator / 10^decimals. */
  predicate Means(s: string, numerator: nat, decimals: nat) {
    ReadDigits(s) * Pow10(decimals) == numerator * Pow10(ReadPlaces(s))
  }

  // ---- arithmetic ----------------------------------------------------------

  lemma Cancel(x: int, y: int, p: int)
    requires p > 0
    ensures x * p == y * p <==> x == y
  {
    if x < y { assert (y - x) * p > 0; } else if y < x { assert (x - y) * p > 0; }
  }

  lemma Chained(nf: int, ng: int, nh: int, pf: int, pg: int, ph: int)
    requires nf * pg == ng * pf && ng * ph == nh * pg && pg > 0
    ensures nf * ph == nh * pf
  {
    calc {
      nf * ph * pg;
      (nf * pg) * ph;
      (ng * pf) * ph;
      (ng * ph) * pf;
      (nh * pg) * pf;
      nh * pf * pg;
    }
    Cancel(nf * ph, nh * pf, pg);
  }

  lemma {:induction false} NumberConcat(s: string, t: string)
    ensures Number(s + t) == Number(s) * Pow10(|t|) + Number(t)
  {
    if t == "" {
      assert s + t == s;
    } else {
      var u := t[..|t| - 1];
      NumberConcat(s, u);
      assert (s + t)[..|s + t| - 1] == s + u;
      calc {
        10 * (Number(s) * Pow10(|u|));
        Number(s) * (10 * Pow10(|u|));
        Number(s) * Pow10(|t|);
      }
    }
  }

  lemma {:induction false} PaddedIsNumber(value: nat, n: nat)
    requires value < Pow10(n)
    ensures Number(Padded(value, n)) == value && |Padded(value, n)| == n && AllDigits(Padded(value, n))
  {
    if n > 0 {
      PaddedIsNumber(value / 10, n - 1);
      DigitIs(value % 10);
      var s := Padded(value, n);
      assert s[..|s| - 1] == Padded(value / 10, n - 1);
    }
  }

  lemma {:induction false} PartitionAt(w: string, f: string)
    requires '.' !in w
    ensures Partition(w + ("." + f)) == Parts(w, true, f)
  {
    var s := w + ("." + f);
    if w == "" {
      assert s == "." + f && s[1..] == f;
    } else {
      assert s[0] == w[0] && s[1..] == w[1..] + ("." + f);
      PartitionAt(w[1..], f);
      assert w == [w[0]] + w[1..];
    }
  }

  lemma {:induction false} PartitionNone(w: string)
    requires '.' !in w
    ensures Partition(w) == Parts(w, false, "")
  {
    if w != "" {
      PartitionNone(w[1..]);
      assert w == [w[0]] + w[1..];
    }
  }

  // ---- trailing zeros ------------------------------------------------------

  /** Behind the same whole part, two fractions are worth the same. */
  predicate SameWorth(w: string, f: string, g: string) {
    Number(w + f) * Pow10(|g|) == Number(w + g) * Pow10(|f|)
  }

  lemma SameWorthTransitive(w: string, f: string, g: string, h: string)
    requires SameWorth(w, f, g) && SameWorth(w, g, h)
    ensures SameWorth(w, f, h)
  {
    Chained(Number(w + f), Number(w + g), Number(w + h), Pow10(|f|), Pow10(|g|), Pow10(|h|));
  }

  lemma TrailingZero(w: string, f: string)
    ensures SameWorth(w, f, f + "0") && SameWorth(w, f + "0", f)
  {
    var (n, p) := (Number(w + f), Pow10(|f|));
    assert w + (f + "0") == (w + f) + "0";
    assert ((w + f) + "0")[..|w + f|] == w + f;
    assert Number(w + (f + "0")) == 10 * n;
    assert Pow10(|f + "0"|) == 10 * p;
    calc {
      n * (10 * p);
      (10 * n) * p;
    }
  }

  lemma {:induction false} StripKeepsWorth(w: string, f: string)
    ensures SameWorth(w, f, StripZeros(f)) && |StripZeros(f)| <= |f|
    ensures StripZeros(f) != "" ==> StripZeros(f)[|StripZeros(f)| - 1] != '0'
    ensures '.' !in f ==> '.' !in StripZeros(f)
  {
    if f != "" && f[|f| - 1] == '0' {
      var g := f[..|f| - 1];
      StripKeepsWorth(w, g);
      assert f == g + "0";
      TrailingZero(w, g);
      SameWorthTransitive(w, f, g, StripZeros(f));
    }
  }

  lemma {:induction false} JustifyKeepsWorth(w: string, f: string, width: nat)
    ensures SameWorth(w, f, LeftJustify(f, width))
    ensures |LeftJustify(f, width)| == if |f| < width then width else |f|
    ensures |f| >= width ==> LeftJustify(f, width) == f
    decreases width - |f|
  {
    if |f| < width {
      JustifyKeepsWorth(w, f + "0", width);
      TrailingZero(w, f);
      SameWorthTransitive(w, f, f + "0", LeftJustify(f, width));
    }
  }

  // ---- the printed price ---------------------------------------------------

  /** Whole part and fraction before the fraction is trimmed. */
  lemma {:induction false} FixedPointParts(value: nat, places: nat, w: string, f: string)
    requires places > 0
    requires w == Digits(Divide(value, Pow10(places)).quotient) && f == Padded(Divide(value, Pow10(places)).rest, places)
    ensures FixedPoint(value, places) == w + ("." + f)
    ensures '.' !in w && |f| == places && Number(w + f) == value
  {
    var d := Divide(value, Pow10(places));
    PaddedIsNumber(d.rest, places);
    DigitsRoundTrip(d.quotient);
    NumberConcat(w, f);
  }

  lemma TextWithPoint(atomic: nat, decimals: nat, w: string, f: string)
    requires decimals > 0 && '.' !in w && FixedPoint(Rounded(atomic), decimals) == w + ("." + f)
    ensures HumanAmount(atomic, decimals) == w + ("." + LeftJustify(StripZeros(f), 2))
  {
    PartitionAt(w, f);
    assert FixedPoint(Rounded(atomic), decimals)[|w|] == '.';
  }

  /** What is printed with a point: the whole part and at least two places, no more of them than
      the last digit that is not zero needs. */
  lemma PrintedWithPoint(atomic: nat, decimals: nat)
    requires decimals > 0
    ensures Means(HumanAmount(atomic, decimals), Rounded(atomic), decimals)
    ensures Partition(HumanAmount(atomic, decimals)).point
    ensures var frac := Partition(HumanAmount(atomic, decimals)).frac;
            |frac| >= 2 && (|frac| > 2 ==> frac[|frac| - 1] != '0')
  {
    var d := Divide(Rounded(atomic), Pow10(decimals));
    var (w, f) := (Digits(d.quotient), Padded(d.rest, decimals));
    FixedPointParts(Rounded(atomic), decimals, w, f);
    TextWithPoint(atomic, decimals, w, f);
    Trimmed(w, f);
    PartitionAt(w, LeftJustify(StripZeros(f), 2));
  }

  lemma Trimmed(w: string, f: string)
    ensures var g := LeftJustify(StripZeros(f), 2);
            SameWorth(w, f, g) && |g| >= 2 && (|g| > 2 ==> g[|g| - 1] != '0')
  {
    var s := StripZeros(f);
    StripKeepsWorth(w, f);
    JustifyKeepsWorth(w, s, 2);
    SameWorthTransitive(w, f, s, LeftJustify(s, 2));
  }

  lemma {:induction false} PrintedWithoutPoint(atomic: nat)
    ensures HumanAmount(atomic, 0) == Digits(Rounded(atomic)) && '.' !in HumanAmount(atomic, 0)
  {
    DigitsRoundTrip(Rounded(atomic));
    assert '.' !in Digits(Rounded(atomic));
  }

  lemma {:induction false} WholeIsWorth(s: string, value: nat)
    requires '.' !in s && Number(s) == value
    ensures Means(s, value, 0)
  {
    PartitionNone(s);
    assert s + "" == s;
  }

  /** The printed price is always worth the rounded amount. */
  lemma PrintedIsRounded(atomic: nat, decimals: nat)
    ensures Means(HumanAmount(atomic, decimals), Rounded(atomic), decimals)
  {
    if decimals == 0 {
      PrintedWithoutPoint(atomic);
      DigitsRoundTrip(Rounded(atomic));
      WholeIsWorth(HumanAmount(atomic, 0), Rounded(atomic));
    } else {
      PrintedWithPoint(atomic, decimals);
    }
  }

  /** The digits past the precision are not all zero. */
  predicate LosesDigits(atomic: nat) { Divide(atomic, Pow10(DroppedDigits(atomic))).rest != 0 }

  lemma RoundedIsExact(atomic: nat)
    ensures Rounded(atomic) == atomic <==> !LosesDigits(atomic)
  {
    var unit := Pow10(DroppedDigits(atomic));
    OnlyMultiplesSurvive(atomic, unit, Divide(atomic, unit).quotient, Divide(atomic, unit).rest, HalfEven(atomic, unit));
  }

  lemma OnlyMultiplesSurvive(n: nat, p: nat, q: nat, r: nat, x: nat)
    requires n == q * p + r && r < p && (x == q || x == q + 1) && (r == 0 ==> x == q)
    ensures x * p == n <==> r == 0
  {
    if x == q + 1 {
      assert x * p == q * p + p;
    }
  }

  /** Otherwise the amount shown is the nearest with that many digits, the even one of two. */
  lemma RoundedIsNearest(atomic: nat)
    ensures var (unit, off) := (Pow10(DroppedDigits(atomic)), 2 * (Rounded(atomic) - atomic));
            && 0 - unit <= off <= unit
            && (off == unit || off == 0 - unit ==> HalfEven(atomic, unit) % 2 == 0)
  {
    var unit := Pow10(DroppedDigits(atomic));
    var d := Divide(atomic, unit);
    Nearest(atomic, unit, d.quotient, d.rest, HalfEven(atomic, unit));
  }

  lemma Nearest(n: nat, p: nat, q: nat, r: nat, x: nat)
    requires n == q * p + r && r < p
    requires x == if 2 * r < p || (2 * r == p && q % 2 == 0) then q else q + 1
    ensures 0 - p <= 2 * (x * p - n) <= p
    ensures 2 * (x * p - n) == p || 2 * (x * p - n) == 0 - p ==> x % 2 == 0
  {
    if x == q + 1 {
      assert x * p == q * p + p;
    }
  }

  lemma {:induction false} ZerosAreZero(s: string)
    requires AllDigits(s)
    ensures Number(s) == 0 <==> forall i :: 0 <= i < |s| ==> s[i] == '0'
    ensures Number(s) < Pow10(|s|)
  {
    if s != "" {
      var most := s[..|s| - 1];
      ZerosAreZero(most);
      assert forall i :: 0 <= i < |most| ==> most[i] == s[i];
      assert forall i :: 0 <= i < |s| - 1 ==> s[i] == most[i];
    }
  }

  lemma QuotientsApart(p: int, q: int, x: int)
    requires p > 0
    ensures q > x ==> q * p >= x * p + p
  {
    if q > x { assert (q - x - 1) * p >= 0; }
  }

  lemma OneDivision(n: nat, p: nat, q: nat, r: nat)
    requires n == q * p + r && r < p
    ensures Divide(n, p).rest == r
  {
    var d := Divide(n, p);
    QuotientsApart(p, q, d.quotient);
    QuotientsApart(p, d.quotient, q);
  }

  /** What is lost, digit by digit: an amount loses something exactly if a digit after its 28th is not
      zero. */
  lemma LosesDigitsWhen(atomic: nat)
    ensures LosesDigits(atomic) <==> exists i :: 28 <= i < |Digits(atomic)| && Digits(atomic)[i] != '0'
  {
    var (s, n) := (Digits(atomic), DroppedDigits(atomic));
    DigitsRoundTrip(atomic);
    var (kept, lost) := (s[..|s| - n], s[|s| - n..]);
    assert kept + lost == s && |lost| == n;
    NumberConcat(kept, lost);
    assert AllDigits(lost);
    ZerosAreZero(lost);
    OneDivision(atomic, Pow10(n), Number(kept), Number(lost));
    assert forall i :: 0 <= i < |lost| ==> lost[i] == s[i + (|s| - n)];
    if |s| > 28 {
      assert forall i :: 28 <= i < |s| ==> s[i] == lost[i - 28];
    }
  }

  /** Read back and scaled, the printed price is the atomic price for exactly the amounts that have no
      digit but zeros after their 28th. */
  lemma PriceIsExact(atomic: nat, decimals: nat)
    ensures Means(HumanAmount(atomic, decimals), atomic, decimals) <==> !LosesDigits(atomic)
    ensures Means(HumanAmount(atomic, decimals), atomic, decimals)
            <==> forall i :: 28 <= i < |Digits(atomic)| ==> Digits(atomic)[i] == '0'
  {
    var s := HumanAmount(atomic, decimals);
    PrintedIsRounded(atomic, decimals);
    Cancel(Rounded(atomic), atomic, Pow10(ReadPlaces(s)));
    RoundedIsExact(atomic);
    LosesDigitsWhen(atomic);
  }

  lemma {:induction false} DigitsOfSmall(n: nat, k: nat)
    requires n < Pow10(k) && k > 0
    ensures |Digits(n)| <= k
  {
    if n >= 10 {
      DigitsOfSmall(n / 10, k - 1);
    }
  }

  /** Below 10^28 nothing is lost. */
  lemma SmallPricesAreExact(atomic: nat, decimals: nat)
    requires atomic < Pow10(28)
    ensures Means(HumanAmount(atomic, decimals), atomic, decimals)
  {
    DigitsOfSmall(atomic, 28);
    PriceIsExact(atomic, decimals);
  }

  /** So two prices shown alike are the same price. */
  lemma PricesAreDistinguished(a: nat, b: nat, decimals: nat)
    requires !LosesDigits(a) && !LosesDigits(b)
    requires HumanAmount(a, decimals) == HumanAmount(b, decimals)
    ensures a == b
  {
    PriceIsExact(a, decimals);
    PriceIsExact(b, decimals);
    var s := HumanAmount(a, decimals);
    Cancel(a, b, Pow10(ReadPlaces(s)));
  }
}
