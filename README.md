# Number classification API, modelled in Dafny

The Go service answers `GET /api/classify-number?number=<value>`. It trims the
query and parses it as a float. If parsing fails, it answers 400 with
`{"number": <trimmed text>, "error": true}`. Otherwise it converts the value
to an `int` and answers 200. The conversion truncates a finite, in-range value
toward zero; for NaN, infinities and out-of-range values Go leaves the result
to the platform. The 200 answer carries the number, `is_prime`, `is_perfect`,
`digit_sum`, a `fun_fact` string, and an ordered `properties` list. That list
holds "armstrong" first when it applies, then exactly one of "even" or "odd".

This project models that classification logic:

- `Decimal.dfy` (module `Decimal`) holds the decimal notation. It has digit
  sequences and the numbers they denote, the text `strconv.Itoa` produces,
  the exact integer power that replaces `math.Pow`, digit sums, digit-power
  sums, and the `Armstrong` predicate.
- `Divisors.dfy` (module `Divisors`) holds `Divides`, `Prime`, the proper
  divisor sum and `Perfect`. It also proves that trial division up to the
  square root decides primality, and that no prime is perfect.
- `Classify.dfy` (module `Classify`) holds the handler logic. The four Go loops
  (`isPrime`, `isPerfect`, `isArmstrong`, `digitSum`) are methods with `while`
  loops, each proved equal to its specification predicate or function.
  `Properties` grows the tag list by appending, as the Go slice does.
  `ClassifyNumber` and `HandleClassify` build the response record.

Integer equivalents of the float helpers:

- `i <= int(math.Sqrt(float64(n)))` becomes `i * i <= n`.
- `math.Pow` becomes the recursive `Pow`.
- `math.Abs` becomes `Abs`.

Go's `%` truncates toward zero, while Dafny's is Euclidean. The parity test
`number%2 == 0` can see a negative dividend, so it uses an explicit `GoRem`,
proved to agree with evenness (`GoRemParity`). Every other `%` and `/` in the
loops sees a non-negative dividend, where the two semantics coincide.

The digit count in `isArmstrong` is `len(strconv.Itoa(n))`, and it is modelled
that way. `Itoa` includes the minus sign for negative `n`, but the loop never
runs for `n <= 0`, so a negative number is never an Armstrong number.

The handler accepts a float literal such as `4.5` and classifies its
truncation `4` (main.go:22, main.go:33). In the model that query arrives as
`Parsed(4)`. The error record echoes the trimmed text.

## Model

| member | source | states |
|---|---|---|
| Decimal.Abs | main.go:105 | the exact absolute value: a natural equal to `n` or `-n` |
| Decimal.Digits | main.go:94-98 | the decimal digits of a natural: at least one digit, each below ten |
| Decimal.DigitsDenote | main.go:107-110 | `Digits(m)` is canonical (no leading zero except for "0") and denotes exactly `m` |
| Decimal.CanonicalIsDigits | main.go:107-110 | conversely, every canonical numeral is `Digits` of its value, so the digit list is unique |
| Decimal.Itoa | main.go:92 | `strconv.Itoa` text: it starts with '-' iff `n < 0`, and after the sign come exactly the characters of the decimal digits of `abs(n)`, in order |
| Decimal.DecimalLength | main.go:92 | `len(strconv.Itoa(n))`: the number of decimal digits of `abs(n)`, plus one for the minus sign when `n < 0`, hence at least 1 |
| Decimal.Pow | main.go:96 | exact integer power standing in for `math.Pow`; a power of a non-negative base (a digit) is non-negative |
| Decimal.PowBasics | main.go:96 | `0^e == 0` for `e >= 1` and `b^1 == b`, the cases the digit loop relies on |
| Decimal.SumStep | main.go:108-109 | adding `m % 10` and moving to `m / 10` accounts for exactly one digit of the digit sum |
| Decimal.PowerSumStep | main.go:95-97 | adding `(m % 10)^k` and moving to `m / 10` accounts for exactly one term of the digit-power sum |
| Decimal.SumBounds | main.go:104-111 | the digit sum of `m` is at most `m` and is zero iff `m` is zero |
| Decimal.DigitSumFacts | main.go:104-111 | `digitSum(n) == digitSum(-n)`, it is at most `abs(n)`, zero iff `n == 0`, and `digitSum(-123) == 6` |
| Decimal.SingleDigitArmstrong | main.go:89-101 | every `n` in 0..9 is an Armstrong number (`d^1 == d`), so 0 counts as one digit and is Armstrong |
| Decimal.ArmstrongExamples | main.go:89-101 | 0, 153 and 371 are Armstrong numbers; 10 and every negative number are not |
| Divisors.PrimeBySquareRoot | main.go:65-70 | for `n >= 2`: `n` has no divisor in `[2, n-1]` iff no `i >= 2` with `i*i <= n` divides it |
| Divisors.Cofactor | main.go:65 | a divisor `d` with `d*d > n` has a cofactor `n/d >= 2` whose square is at most `n` and that also divides `n` |
| Divisors.PrimeDivisorSum | main.go:79-84 | the divisors of a prime `p` in `[1, k-1]` sum to 1 for every `2 <= k <= p` |
| Divisors.PrimeNotPerfect | main.go:49-50 | no prime is perfect, so `is_prime` and `is_perfect` are never both true |
| Divisors.PrimeExamples | main.go:61-71 | 2 and 7 are prime; 4, 1, 0 and every negative number are not |
| Divisors.PerfectExamples | main.go:74-86 | 6 and 28 are perfect; 1 (divisor sum 0), 12, 0 and every negative number are not |
| Classify.GoQuot | main.go:40 | the truncated quotient Go's `%` is the remainder of: equal to `a / b` when both operands are non-negative, and negative only when `a` and `b` have opposite signs; `GoRem` fixes its magnitude |
| Classify.GoRem | main.go:40 | Go's truncated remainder: `a == b * GoQuot(a, b) + r`, smaller in magnitude than the divisor, with the sign of the dividend |
| Classify.GoRemParity | main.go:40 | Go's `n%2 == 0` holds exactly when `n` is even, including negative `n` |
| Classify.IsPrime | main.go:61-71 | the trial-division loop returns true iff `Prime(n)`: `n >= 2` with no divisor in `[2, n-1]` |
| Classify.IsPerfect | main.go:74-86 | the accumulating loop returns true iff `n > 0` and the divisors of `n` in `[1, n-1]` sum to `n` |
| Classify.IsArmstrong | main.go:89-101 | the digit loop returns true iff `n >= 0` and the sum of its digits raised to the digit count equals `n` |
| Classify.ArmstrongFromLoop | main.go:94-100 | once the digit loop has consumed every digit (or never ran for `n <= 0`), `sum == n` holds exactly when `n` is an Armstrong number |
| Classify.DigitSum | main.go:104-112 | the loop returns the sum of the decimal digits of `abs(n)`, which lies in `[0, abs(n)]` and is 0 iff `n == 0` |
| Classify.ParityTag | main.go:40-44 | the even/odd choice: "even" exactly when Go's `n%2 == 0` holds, "odd" otherwise |
| Classify.TagsShape | main.go:36-44 | the tag list has 1 or 2 entries; "armstrong" is present iff Armstrong and then only first; the last entry is "even" iff `n % 2 == 0`, else "odd"; 0 gets "even" and -3 gets "odd" |
| Classify.Properties | main.go:36-44 | appending "armstrong" (if it applies) and then the Go-parity tag yields exactly `Tags(n)` |
| Classify.FunFact | main.go:115-134 | a found `text` is returned unchanged; on any failure the fallback is non-empty and starts with `Itoa(n)` |
| Classify.Response.StatusCode | main.go:25-28 | the status sent with a body: `http.StatusOK` (200) exactly for a classification (main.go:57), `http.StatusBadRequest` (400) exactly for an error record |
| Classify.ClassificationConsistent | main.go:47-57 | every classification is sent with status 200 and never marks a number both prime and perfect |
| Classify.Classification371 | main.go:33-54 | for 371: not prime, properties `["armstrong", "odd"]`, digit sum 11 |
| Classify.ClassifyNumber | main.go:33-57 | the success path returns exactly `Classification(n)`: `is_prime == Prime(n)`, `is_perfect == Perfect(n)`, `properties == Tags(n)`, `digit_sum` is the digit sum, fun fact per `FunFact`; status 200, never both prime and perfect |
| Classify.HandleClassify | main.go:17-57 | an unparsable query yields `BadRequest(trimmed text, error = true)` with status 400 and no classification; a parsed one yields its classification with status 200 |

## Left out

- HTTP serving is not modelled: gin routing, the CORS and Content-Type middleware, the `PORT` lookup and server start (main.go:136-162). These are I/O.
- Reading the query and trimming it with `strings.TrimSpace` (main.go:18-19) are not modelled. The model receives the trimmed text.
- Float parsing with `strconv.ParseFloat` and the conversion `int(numberFloat)` (main.go:22, main.go:33) are abstracted as `ParsedQuery`: either the integer the handler goes on to classify or the text that failed to parse.
- Parsing and conversion edge cases are not modelled. `ParseFloat` accepts `NaN`, `Inf`, `-Infinity`, out-of-range literals such as `1e19`, and hex floats such as `0x1p70`. These reach the success branch (main.go:33), where `int(numberFloat)` yields a platform-dependent `int`. `Parsed(value)` covers that outcome only because `value` is arbitrary. Integer text beyond 2^53 is rounded to the nearest float before classification, so `9007199254740993` is classified and echoed as `9007199254740992`.
- The outbound request and JSON decoding in `getFunFact` (main.go:116-131) are replaced by the `FactLookup` parameter, which holds the `text` field or a failure. `http.Get` (main.go:117) uses the default client, which has no time-out, so a hung numbers service stalls the response; the model assumes the lookup always ends with `Found` or `Failed`.
- Float rounding in `math.Sqrt`, `math.Pow` and `math.Abs` is not modelled. Exact integer arithmetic is used instead. For very large inputs, the float bound and power can differ from the exact ones.
- Go's `int` (64-bit on the usual platforms) is modelled as an unbounded integer. Overflow in the digit powers and in `math.Abs` of the most negative `int` is not represented. The loop bound `int(math.Sqrt(float64(n)))` (main.go:65) becomes `i * i <= n`, which cannot overflow because the model's integers are unbounded.
- JSON serialisation and writing the response are not modelled. `Response` is the record the body is built from, and `StatusCode` is its HTTP status.
- Classify.FunFact: a reply with an empty `text` string is returned as is, so only the fallback is guaranteed to be non-empty.
