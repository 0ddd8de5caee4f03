/** The number classification behind the classify-number endpoint: the
    four trial loops, the ordered property tags, the fun-fact fallback and
    the response the handler assembles from an already-parsed query. */
module Classify {
  import opened Decimal
  import opened Divisors

  /** Euclidean division of naturals: x == y * (x / y) + x % y with a
      non-negative quotient and a remainder below y. */
  lemma NatDivMod(x: nat, y: nat)
    requires 0 < y
    ensures x == y * (x / y) + x % y && 0 <= x / y && 0 <= x % y < y
  {
  }

  /** Negating one factor negates a product. */
  lemma MulNeg(y: int, m: int)
    ensures (-y) * m == -(y * m) && y * (-m) == -(y * m)
  {
  }

  /** Go's `/`: division truncated toward zero. It agrees with Dafny's `/`
      when both operands are non-negative, and it is negative only when the
      operands have opposite signs; GoRem's contract pins it down. */
  function GoQuot(a: int, b: int): (q: int)
    requires b != 0
    ensures 0 <= a && 0 < b ==> q == a / b
    ensures q < 0 ==> (a < 0 <==> 0 < b)
  {
    var x: nat, y: nat := Abs(a), Abs(b);
    NatDivMod(x, y);
    var m := x / y;
    if (a < 0) == (b < 0) then m else -m
  }

  /** Go's `%`: the remainder left by truncated division, so it carries
      the sign of the dividend (Dafny's `%` is Euclidean). */
  function GoRem(a: int, b: int): (r: int)
    requires b != 0
    ensures a == b * GoQuot(a, b) + r
    ensures Abs(r) < Abs(b)
    ensures 0 <= a ==> 0 <= r
    ensures a <= 0 ==> r <= 0
  {
    var x: nat, y: nat := Abs(a), Abs(b);
    NatDivMod(x, y);
    var m, k := x / y, x % y;
    var q := GoQuot(a, b);
    assert q == if (a < 0) == (b < 0) then m else -m;
    MulNeg(y, m);
    assert b * q == if 0 <= a then y * m else -(y * m);
    if 0 <= a then k else -k
  }

  /** For parity the two remainders agree: `n%2 == 0` in Go holds exactly
      when n is even, negative n included. */
  lemma GoRemParity(n: int)
    ensures GoRem(n, 2) == 0 <==> n % 2 == 0
  {
  }

  /** isPrime: trial division by every i with i * i <= n (the integer form
      of i <= floor(sqrt(n))), false below 2. */
  method IsPrime(n: int) returns (prime: bool)
    ensures prime <==> Prime(n)
  {
    if n < 2 {
      return false;
    }
    var i := 2;
    while i * i <= n
      invariant 2 <= i <= n
      invariant forall d :: 2 <= d < i ==> !Divides(d, n)
      decreases n - i
    {
      MulStrictMono(i, 1, i);
      if n % i == 0 {
        assert Divides(i, n);
        return false;
      }
      i := i + 1;
    }
    forall j | 2 <= j && j * j <= n
      ensures !Divides(j, n)
    {
      if i <= j {
        MulMono(i, i, j);
        MulMono(j, i, j);
      }
    }
    PrimeBySquareRoot(n);
    return true;
  }

  /** isPerfect: false for n <= 0, otherwise accumulates every i in
      [1, n - 1] that divides n and compares the total with n. */
  method IsPerfect(n: int) returns (perfect: bool)
    ensures perfect <==> Perfect(n)
  {
    if n <= 0 {
      return false;
    }
    var sum := 0;
    var i := 1;
    while i < n
      invariant 1 <= i <= n
      invariant sum == DivisorSum(n, i)
    {
      if n % i == 0 {
        sum := sum + i;
      }
      i := i + 1;
    }
    return sum == n;
  }

  /** isArmstrong: the digit count is the length of strconv.Itoa(n) (sign
      included); the loop adds digit^count for each digit of a positive
      n, and never runs for n <= 0. */
  method IsArmstrong(n: int) returns (armstrong: bool)
    ensures armstrong <==> Armstrong(n)
  {
    var sum := 0;
    var temp := n;
    var numDigits := DecimalLength(n);
    while temp > 0
      invariant n < 0 ==> temp == n && sum == 0
      invariant 0 <= n ==> 0 <= temp
      invariant 0 <= n ==> sum + PowerSum(Digits(temp), numDigits) == PowerSum(Digits(n), numDigits)
    {
      var digit := temp % 10;
      PowerSumStep(temp, numDigits);
      sum := sum + Pow(digit, numDigits);
      temp := temp / 10;
    }
    ArmstrongFromLoop(n, numDigits, temp, sum);
    return sum == n;
  }

  /** When the digit loop of isArmstrong stops, comparing its sum with n
      decides whether n is an Armstrong number. */
  lemma ArmstrongFromLoop(n: int, numDigits: nat, temp: int, sum: int)
    requires numDigits == DecimalLength(n) && temp <= 0
    requires n < 0 ==> temp == n && sum == 0
    requires 0 <= n ==> 0 <= temp
    requires 0 <= n ==> sum + PowerSum(Digits(temp), numDigits) == PowerSum(Digits(n), numDigits)
    ensures sum == n <==> Armstrong(n)
  {
    if 0 <= n {
      assert temp == 0 && Digits(temp) == [0];
      PowBasics(0, numDigits);
      assert PowerSum([0], numDigits) == PowerSum([], numDigits) + Pow(0, numDigits);
    }
  }

  /** digitSum: strips the last decimal digit of |n| until nothing is
      left, adding each one up. */
  method DigitSum(n: int) returns (sum: int)
    ensures sum == DecimalDigitSum(n)
    ensures 0 <= sum <= Abs(n)
    ensures sum == 0 <==> n == 0
  {
    var m: int := Abs(n);
    sum := 0;
    while m != 0
      invariant 0 <= m
      invariant sum + Sum(Digits(m)) == Sum(Digits(Abs(n)))
      decreases m
    {
      SumStep(m);
      sum := sum + m % 10;
      m := m / 10;
    }
    SumBounds(Abs(n));
  }

  /** The parity tag of n: "even" when n % 2 == 0, "odd" otherwise; it
      agrees with Go's test `n%2 == 0`. */
  function ParityTag(n: int): (tag: string)
    ensures tag == "even" <==> GoRem(n, 2) == 0
    ensures tag == "odd" <==> GoRem(n, 2) != 0
  {
    GoRemParity(n);
    if n % 2 == 0 then "even" else "odd"
  }

  /** The ordered property tags of n: "armstrong" first when n is an
      Armstrong number, then its parity tag. */
  function Tags(n: int): seq<string>
  {
    (if Armstrong(n) then ["armstrong"] else []) + [ParityTag(n)]
  }

  /** The tag list has one or two entries; "armstrong" appears exactly
      when n is an Armstrong number and then only first; the last entry
      is "even" exactly when n is even (so 0 is even and -3 odd). */
  lemma TagsShape(n: int)
    ensures 1 <= |Tags(n)| <= 2
    ensures "armstrong" in Tags(n) <==> Armstrong(n)
    ensures forall i :: 0 <= i < |Tags(n)| && Tags(n)[i] == "armstrong" ==> i == 0
    ensures Tags(n)[|Tags(n)| - 1] == "even" <==> n % 2 == 0
    ensures Tags(n)[|Tags(n)| - 1] == "odd" <==> n % 2 != 0
    ensures Tags(0) == ["armstrong", "even"] && Tags(-3) == ["odd"]
  {
  }

  /** Builds the properties slice as classifyNumber does: start empty,
      append "armstrong" if it applies, then "even" or "odd" according to
      Go's `number%2 == 0`. */
  method Properties(number: int) returns (properties: seq<string>)
    ensures properties == Tags(number)
  {
    properties := [];
    var armstrong := IsArmstrong(number);
    if armstrong {
      properties := properties + ["armstrong"];
    }
    GoRemParity(number);
    if GoRem(number, 2) == 0 {
      properties := properties + ["even"];
    } else {
      properties := properties + ["odd"];
    }
  }

  /** What the external numbers service yielded: the `text` field of its
      JSON reply, or a failure (network error, undecodable body, `text`
      missing or not a string). */
  datatype FactLookup = Found(text: string) | Failed

  /** getFunFact's result: the service's text, or the local fallback
      "<n> is an interesting number!" on any failure. */
  function FunFact(n: int, lookup: FactLookup): (fact: string)
    ensures lookup.Found? ==> fact == lookup.text
    ensures lookup.Failed? ==> |Itoa(n)| < |fact| && fact[..|Itoa(n)|] == Itoa(n)
  {
    match lookup
    case Found(text) => text
    case Failed => Itoa(n) + " is an interesting number!"
  }

  /** The query after trimming and float parsing: either the integer that
      int(numberFloat) produced (the truncation of a finite, in-range float;
      a platform-dependent value otherwise), or the trimmed text that did
      not parse. */
  datatype ParsedQuery = Parsed(value: int) | Unparsable(text: string)

  /** net/http's status codes for success and for a client error. */
  const StatusOK: int := 200
  const StatusBadRequest: int := 400

  /** The JSON body the handler sends: the classification record, or the
      error record carrying the trimmed input and `error: true`. */
  datatype Response =
    | Classified(number: int, isPrime: bool, isPerfect: bool, properties: seq<string>,
                 digitSum: int, funFact: string)
    | BadRequest(input: string, error: bool)
  {
    /** The HTTP status sent with the body: 200 OK with a classification,
        400 Bad Request with an error record. */
    function StatusCode(): (code: int)
      ensures code == StatusOK <==> Classified?
      ensures code == StatusBadRequest <==> BadRequest?
    {
      if Classified? then StatusOK else StatusBadRequest
    }
  }

  /** The classification record that main.go:47-54 assembles for n. */
  function Classification(n: int, lookup: FactLookup): Response
  {
    Classified(n, Prime(n), Perfect(n), Tags(n), DecimalDigitSum(n), FunFact(n, lookup))
  }

  /** A classification never reports a number as both prime and perfect,
      and is sent with status 200. */
  lemma ClassificationConsistent(n: int, lookup: FactLookup)
    ensures Classification(n, lookup).StatusCode() == 200
    ensures !(Classification(n, lookup).isPrime && Classification(n, lookup).isPerfect)
  {
    PrimeNotPerfect(n);
  }

  /** The worked request 371: not prime, tagged ["armstrong", "odd"],
      digit sum 11. */
  lemma Classification371(lookup: FactLookup)
    ensures Classification(371, lookup).isPrime == false
    ensures Classification(371, lookup).properties == ["armstrong", "odd"]
    ensures Classification(371, lookup).digitSum == 11
  {
    assert Divides(7, 371);
    ArmstrongExamples(-1);
    assert Digits(371) == [3, 7, 1];
    assert [3, 7, 1][..2] == [3, 7];
    assert [3, 7][..1] == [3];
    assert Sum([3, 7, 1]) == Sum([3, 7]) + 1 == Sum([3]) + 7 + 1 == 11;
  }

  /** The success path of classifyNumber for an already-parsed integer:
      runs the four classifiers and builds the properties list. */
  method ClassifyNumber(number: int, lookup: FactLookup) returns (response: Response)
    ensures response == Classification(number, lookup)
    ensures response.StatusCode() == 200
    ensures !(response.isPrime && response.isPerfect)
  {
    var properties := Properties(number);
    var prime := IsPrime(number);
    var perfect := IsPerfect(number);
    var digitSum := DigitSum(number);
    response := Classified(number, prime, perfect, properties, digitSum, FunFact(number, lookup));
    ClassificationConsistent(number, lookup);
  }

  /** classifyNumber: an unparsable query yields the error record with the
      trimmed text and `error: true` and no classification; a parsed one
      yields its classification. */
  method HandleClassify(query: ParsedQuery, lookup: FactLookup) returns (response: Response)
    ensures query.Unparsable? ==> response == BadRequest(query.text, true) && response.StatusCode() == 400
    ensures query.Parsed? ==> response == Classification(query.value, lookup) && response.StatusCode() == 200
  {
    match query
    case Unparsable(text) =>
      response := BadRequest(text, true);
    case Parsed(value) =>
      response := ClassifyNumber(value, lookup);
  }
}
