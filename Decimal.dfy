/** Decimal notation of integers: digit sequences, the text that Go's
    strconv.Itoa produces, integer powers, and the digit sums and
    digit-power sums behind the digit-sum and Armstrong classifications. */
module Decimal {

  /** Integer absolute value (exact; stands in for the float round trip
      through math.Abs). */
  function Abs(n: int): (r: nat)
    ensures r == n || r == -n
  {
    if n < 0 then -n else n
  }

  /** The decimal digits of m, most significant first; zero is written
      with the single digit 0. */
  function Digits(m: nat): (ds: seq<nat>)
    ensures 1 <= |ds|
    ensures forall i :: 0 <= i < |ds| ==> ds[i] < 10
    decreases m
  {
    if m < 10 then [m] else Digits(m / 10) + [m % 10]
  }

  /** The number a digit sequence (most significant first) denotes. */
  function Value(ds: seq<nat>): nat
  {
    if ds == [] then 0 else Value(ds[..|ds| - 1]) * 10 + ds[|ds| - 1]
  }

  /** A canonical decimal numeral: non-empty, every digit below ten, and no
      leading zero unless the numeral is "0" itself. */
  predicate Canonical(ds: seq<nat>)
  {
    && 1 <= |ds|
    && (forall i :: 0 <= i < |ds| ==> ds[i] < 10)
    && (1 < |ds| ==> ds[0] != 0)
  }

  /** Digits(m) is the canonical numeral of m and denotes m. */
  lemma {:induction false} DigitsDenote(m: nat)
    ensures Value(Digits(m)) == m
    ensures Canonical(Digits(m))
    decreases m
  {
    if m >= 10 {
      DigitsDenote(m / 10);
      var hi := Digits(m / 10);
      assert (hi + [m % 10])[..|hi|] == hi;
      if 1 == |hi| {
        assert hi[0] == m / 10;
      }
    }
  }

  /** The value of a numeral is at least its leading digit. */
  lemma {:induction false} ValueAtLeastLead(ds: seq<nat>)
    requires 1 <= |ds|
    ensures ds[0] <= Value(ds)
    decreases |ds|
  {
    if 1 < |ds| {
      var init := ds[..|ds| - 1];
      ValueAtLeastLead(init);
      assert init[0] == ds[0];
    }
  }

  /** Every canonical numeral is the one Digits produces for its value. */
  lemma {:induction false} CanonicalIsDigits(ds: seq<nat>)
    requires Canonical(ds)
    ensures Digits(Value(ds)) == ds
    decreases |ds|
  {
    if 1 < |ds| {
      var init, last := ds[..|ds| - 1], ds[|ds| - 1];
      assert init[0] == ds[0];
      assert Canonical(init);
      CanonicalIsDigits(init);
      ValueAtLeastLead(init);
      var v := Value(ds);
      assert v == Value(init) * 10 + last;
      assert v / 10 == Value(init) && v % 10 == last;
      assert init + [last] == ds;
    }
  }

  /** The character Go prints for decimal digit d. */
  function DigitChar(d: nat): (c: char)
    requires d < 10
    ensures '0' <= c <= '9'
    ensures c as int - '0' as int == d
  {
    ('0' as int + d) as char
  }

  /** The text of a numeral, one character per digit. */
  function Numeral(ds: seq<nat>): (s: string)
    requires forall i :: 0 <= i < |ds| ==> ds[i] < 10
    ensures |s| == |ds|
    ensures forall i :: 0 <= i < |ds| ==> s[i] == DigitChar(ds[i])
  {
    if ds == [] then "" else [DigitChar(ds[0])] + Numeral(ds[1..])
  }

  /** strconv.Itoa: an optional minus sign followed by the digits of |n|. */
  function Itoa(n: int): (s: string)
    ensures |s| == |Digits(Abs(n))| + (if n < 0 then 1 else 0)
    ensures n < 0 <==> (0 < |s| && s[0] == '-')
    ensures forall i :: 0 <= i < |Digits(Abs(n))| ==>
      s[i + (if n < 0 then 1 else 0)] == DigitChar(Digits(Abs(n))[i])
  {
    var digits := Numeral(Digits(Abs(n)));
    if n < 0 then
      assert forall i :: 0 <= i < |digits| ==> (['-'] + digits)[i + 1] == digits[i];
      ['-'] + digits
    else
      assert 0 < |digits| ==> digits[0] != '-';
      digits
  }

  /** len(strconv.Itoa(n)): the number of decimal digits of |n|, plus one
      for the minus sign of a negative n. */
  function DecimalLength(n: int): (k: nat)
    ensures 1 <= k
    ensures 0 <= n ==> k == |Digits(n)|
    ensures n < 0 ==> k == |Digits(-n)| + 1
  {
    |Itoa(n)|
  }

  /** Exact integer power b^e (math.Pow on small integers); a power of a
      non-negative base is non-negative. */
  function Pow(b: int, e: nat): (r: int)
    ensures 0 <= b ==> 0 <= r
    decreases e
  {
    if e == 0 then 1 else b * Pow(b, e - 1)
  }

  /** Zero raised to a positive power is zero; any base to the first
      power is itself. */
  lemma PowBasics(b: int, e: nat)
    ensures 1 <= e ==> Pow(0, e) == 0
    ensures Pow(b, 1) == b
  {
  }

  /** The sum of the digits of a numeral. */
  function Sum(ds: seq<nat>): nat
  {
    if ds == [] then 0 else Sum(ds[..|ds| - 1]) + ds[|ds| - 1]
  }

  /** The sum of every digit of a numeral raised to the power k. */
  function PowerSum(ds: seq<nat>, k: nat): int
  {
    if ds == [] then 0 else PowerSum(ds[..|ds| - 1], k) + Pow(ds[|ds| - 1], k)
  }

  /** Peeling the last digit off a positive m, as `m % 10` and `m / 10` do. */
  lemma SumStep(m: nat)
    requires 0 < m
    ensures Sum(Digits(m)) == m % 10 + Sum(Digits(m / 10))
  {
  }

  /** The same peeling step for the digit-power sum. */
  lemma PowerSumStep(m: nat, k: nat)
    requires 0 < m && 1 <= k
    ensures PowerSum(Digits(m), k) == Pow(m % 10, k) + PowerSum(Digits(m / 10), k)
  {
  }

  /** The digit sum of m is between 0 and m, and is 0 exactly when m is. */
  lemma {:induction false} SumBounds(m: nat)
    ensures Sum(Digits(m)) <= m
    ensures Sum(Digits(m)) == 0 <==> m == 0
    decreases m
  {
    if 0 < m {
      SumStep(m);
      SumBounds(m / 10);
    }
  }

  /** The sum of the decimal digits of |n|. */
  function DecimalDigitSum(n: int): nat
  {
    Sum(Digits(Abs(n)))
  }

  /** The digit sum ignores the sign, never exceeds |n|, is zero only for
      zero, and (for one) the digits of -123 sum to 6. */
  lemma DigitSumFacts(n: int)
    ensures DecimalDigitSum(n) == DecimalDigitSum(-n)
    ensures DecimalDigitSum(n) <= Abs(n)
    ensures DecimalDigitSum(n) == 0 <==> n == 0
    ensures DecimalDigitSum(-123) == 6
  {
    SumBounds(Abs(n));
    assert Digits(123) == [1, 2, 3];
    assert [1, 2, 3][..2] == [1, 2];
    assert [1, 2][..1] == [1];
    assert Sum([1, 2, 3]) == Sum([1, 2]) + 3 == Sum([1]) + 2 + 3 == 6;
  }

  /** An Armstrong number: a non-negative integer equal to the sum of its
      decimal digits, each raised to the number of digits. */
  predicate Armstrong(n: int)
  {
    var ds := Digits(Abs(n));
    0 <= n && PowerSum(ds, |ds|) == n
  }

  /** Every single-digit number is an Armstrong number (d^1 == d). */
  lemma SingleDigitArmstrong(n: int)
    requires 0 <= n < 10
    ensures Armstrong(n)
  {
  }

  /** Worked cases: 0, 153 and 371 are Armstrong numbers, 10 and every
      negative number are not. */
  lemma ArmstrongExamples(neg: int)
    requires neg < 0
    ensures Armstrong(0) && Armstrong(153) && Armstrong(371)
    ensures !Armstrong(10) && !Armstrong(neg)
  {
    SingleDigitArmstrong(0);
    ThreeDigitPowerSum(1, 5, 3);
    ThreeDigitPowerSum(3, 7, 1);
    assert Digits(153) == [1, 5, 3];
    assert Digits(371) == [3, 7, 1];
    assert Digits(10) == [1, 0];
    assert [1, 0][..1] == [1];
    assert PowerSum([1, 0], 2) == PowerSum([1], 2) + Pow(0, 2) == 1;
  }

  /** The digit-power sum of a three-digit numeral, written out. */
  lemma ThreeDigitPowerSum(a: nat, b: nat, c: nat)
    ensures PowerSum([a, b, c], 3) == a * a * a + b * b * b + c * c * c
  {
    forall d: nat ensures Pow(d, 3) == d * d * d {
      assert Pow(d, 2) == d * Pow(d, 1) == d * d;
    }
    assert [a, b, c][..2] == [a, b];
    assert [a, b][..1] == [a];
    assert [a][..0] == [];
    calc {
      PowerSum([a, b, c], 3);
      PowerSum([a, b], 3) + Pow(c, 3);
      PowerSum([a], 3) + Pow(b, 3) + Pow(c, 3);
      PowerSum([], 3) + Pow(a, 3) + Pow(b, 3) + Pow(c, 3);
    }
  }
}
