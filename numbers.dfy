/**
  The numeric conversions the parser relies on: Go's `strconv.Atoi` on a
  64-bit platform, the shape of the decimal text `strconv.ParseFloat`
  accepts, and the wrap-around of `time.Duration` multiplication.
 */
module Numbers {
  import opened Wrappers

  const MinInt64: int := -0x8000_0000_0000_0000
  const MaxInt64: int := 0x7FFF_FFFF_FFFF_FFFF
  const TwoTo64: int := 0x1_0000_0000_0000_0000

  /** `time.Second` and `time.Minute`, in nanoseconds. */
  const Second: int := 1_000_000_000
  const Minute: int := 60 * Second

  predicate IsDigit(c: char) { '0' <= c <= '9' }

  predicate AllDigits(t: string) {
    forall i :: 0 <= i < |t| ==> IsDigit(t[i])
  }

  /** The value of a run of decimal digits, most significant first. */
  function DigitsValue(t: string): nat
    requires AllDigits(t)
  {
    if t == [] then 0 else DigitsValue(t[..|t| - 1]) * 10 + (t[|t| - 1] as int - '0' as int)
  }

  /** The text after an optional leading sign. */
  function Unsigned(t: string): string {
    if |t| > 0 && (t[0] == '+' || t[0] == '-') then t[1..] else t
  }

  /**
    `strconv.Atoi`: an optional sign and at least one decimal digit, whose
    value fits in 64 bits; anything else is an error (`None`).
   */
  function Atoi(t: string): (r: Option<int>)
    ensures r.Some? ==> MinInt64 <= r.value <= MaxInt64
    ensures r.Some? ==> |Unsigned(t)| > 0 && AllDigits(Unsigned(t))
  {
    var body := Unsigned(t);
    if body == [] || !AllDigits(body) then None
    else
      var d: int := DigitsValue(body);
      var v := if t[0] == '-' then -d else d;
      if MinInt64 <= v <= MaxInt64 then Some(v) else None
  }

  /** The decimal digits of `n`, without leading zeros. */
  function Digits(n: nat): string
    decreases n
  {
    if n < 10 then ['0' + n as char] else Digits(n / 10) + ['0' + (n % 10) as char]
  }

  /** `strconv.Itoa`: the decimal text of `n`, with a minus sign when negative. */
  function Itoa(n: int): string {
    if n < 0 then "-" + Digits(-n) else Digits(n)
  }

  /** The digits of `n` read back as `n`. */
  lemma {:induction false} DigitsValueOfDigits(n: nat)
    ensures |Digits(n)| > 0 && AllDigits(Digits(n)) && DigitsValue(Digits(n)) == n
    decreases n
  {
    if n >= 10 {
      DigitsValueOfDigits(n / 10);
      var t := Digits(n);
      assert t[..|t| - 1] == Digits(n / 10);
    }
  }

  /** `Atoi` inverts `Itoa` on every 64-bit integer. */
  lemma AtoiItoa(n: int)
    requires MinInt64 <= n <= MaxInt64
    ensures Atoi(Itoa(n)) == Some(n)
  {
    if n < 0 {
      DigitsValueOfDigits(-n);
      assert Unsigned(Itoa(n)) == Digits(-n);
    } else {
      DigitsValueOfDigits(n);
      assert Unsigned(Itoa(n)) == Digits(n);
    }
  }

  /**
    `fmt.Sprintf("%s.%s", value, value2)` is accepted by `strconv.ParseFloat`
    in its plain decimal form: an optional sign, digits, the point, digits,
    with at least one digit in all.
   */
  predicate DecimalFloat(value: string, value2: string) {
    AllDigits(Unsigned(value)) && AllDigits(value2) && |Unsigned(value)| + |value2| > 0
  }

  /** Two's-complement wrap-around into the signed 64-bit range. */
  function Wrap64(x: int): (r: int)
    ensures MinInt64 <= r <= MaxInt64
    ensures (r - x) % TwoTo64 == 0
    ensures MinInt64 <= x <= MaxInt64 ==> r == x
  {
    var m := x % TwoTo64;
    if m > MaxInt64 then m - TwoTo64 else m
  }

  /**
    `time.Duration(n) * unit`: the 64-bit product, which wraps around when it
    overflows.
   */
  function Scaled(n: int, unit: int): (d: int)
    requires MinInt64 <= n <= MaxInt64
    ensures MinInt64 <= d <= MaxInt64
    ensures MinInt64 <= n * unit <= MaxInt64 ==> d == n * unit
  {
    Wrap64(n * unit)
  }

  /** A duration of up to 9223372036 seconds does not wrap around. */
  lemma SecondsExact(n: int)
    requires 0 <= n <= 9_223_372_036
    ensures Scaled(n, Second) == n * Second
  {
  }

  /** One second more does: the product is then negative. */
  lemma SecondsWrap()
    ensures Scaled(9_223_372_037, Second) < 0
  {
  }
}
