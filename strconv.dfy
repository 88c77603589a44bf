/**
 * The two conversions of Go's strconv package that carry the alert id across
 * the voice callback: `Itoa` on the way out, `Atoi` in the webhook handler.
 * Go's `int` is 64 bits wide on the platforms the adapter runs on.
 */
module StrConv {
  import opened GoStrings

  const MinInt64: int := -0x8000_0000_0000_0000
  const MaxInt64: int := 0x7fff_ffff_ffff_ffff
  const MaxUint64: nat := 0xffff_ffff_ffff_ffff
  /** ParseUint's cutoff for base 10: an accumulator at or above it overflows on the next digit. */
  const Cutoff: nat := MaxUint64 / 10 + 1

  predicate IsInt64(n: int) {
    MinInt64 <= n <= MaxInt64
  }

  predicate IsDigit(b: byte) {
    '0' as int <= b as int <= '9' as int
  }

  predicate AllDigits(s: Bytes) {
    forall i :: 0 <= i < |s| ==> IsDigit(s[i])
  }

  function DigitByte(d: nat): byte
    requires d < 10
  {
    ('0' as int + d) as byte
  }

  function DigitValue(b: byte): nat
    requires IsDigit(b)
  {
    b as int - '0' as int
  }

  /** The decimal digits of `n`, most significant first, without leading zeros. */
  function Digits(n: nat): (r: Bytes)
    ensures |r| > 0 && AllDigits(r)
    ensures n > 0 ==> r[0] != DigitByte(0)
  {
    if n < 10 then [DigitByte(n)] else Digits(n / 10) + [DigitByte(n % 10)]
  }

  /** strconv.Itoa: an optional minus sign followed by the digits of the magnitude. */
  function Itoa(n: int): (r: Bytes)
    ensures n >= 0 ==> |r| > 0 && AllDigits(r)
    ensures n < 0 ==> |r| > 1 && r[0] == '-' as int as byte && AllDigits(r[1..])
    ensures n == 0 ==> r == Str("0")
    ensures n > 0 ==> r[0] != DigitByte(0)
    ensures n < 0 ==> r[1] != DigitByte(0)
  {
    if n < 0 then Str("-") + Digits(-n) else Digits(n)
  }

  /** Unbounded decimal value of a digit string read left to right from `acc`. */
  function Accumulate(s: Bytes, acc: nat): nat
    requires AllDigits(s)
  {
    if s == [] then acc else Accumulate(s[1..], acc * 10 + DigitValue(s[0]))
  }

  /** Outcome of strconv.ParseUint(s, 10, 64). */
  datatype Scan = SyntaxError | RangeError | Parsed(n: nat)

  /** ParseUint's digit loop: a byte that is not a digit is a syntax error; an
      accumulator that would leave 64 bits is a range error, reported as soon as
      it happens, even if a non-digit follows. */
  function ScanDigits(s: Bytes, acc: nat): Scan
  {
    if s == [] then Parsed(acc)
    else if !IsDigit(s[0]) then SyntaxError
    else if acc >= Cutoff then RangeError
    else
      var next := acc * 10 + DigitValue(s[0]);
      if next > MaxUint64 then RangeError else ScanDigits(s[1..], next)
  }

  function ParseUint(s: Bytes): Scan {
    if s == [] then SyntaxError else ScanDigits(s, 0)
  }

  /** strconv.Atoi as the handler uses it, with the error discarded: an optional
      sign and at least one digit; a syntax error yields 0 and a value outside
      64 bits yields the nearest bound. */
  function Atoi(s: Bytes): (r: int)
    ensures IsInt64(r)
    ensures r != 0 ==> |s| > 0 && (r < 0 <==> s[0] == '-' as int as byte)
  {
    if s == [] then 0
    else
      var neg := s[0] == '-' as int as byte;
      var magnitude := if s[0] == '+' as int as byte || neg then s[1..] else s;
      match ParseUint(magnitude)
      case SyntaxError => 0
      case RangeError => if neg then MinInt64 else MaxInt64
      case Parsed(u) =>
        if !neg then (if u > MaxInt64 then MaxInt64 else u)
        else (if u > -MinInt64 then MinInt64 else -(u as int))
  }

  lemma {:induction false} AccumulateGrows(s: Bytes, acc: nat)
    requires AllDigits(s)
    ensures Accumulate(s, acc) >= acc
    ensures s != [] ==> Accumulate(s, acc) >= acc * 10 + DigitValue(s[0])
    decreases |s|
  {
    if s != [] {
      AccumulateGrows(s[1..], acc * 10 + DigitValue(s[0]));
    }
  }

  /** On a digit string the overflow-checked scan agrees with the unbounded
      value: it parses exactly when that value fits in 64 bits. */
  lemma {:induction false} ScanDigitsValue(s: Bytes, acc: nat)
    requires AllDigits(s) && acc <= MaxUint64
    ensures ScanDigits(s, acc) ==
      if Accumulate(s, acc) <= MaxUint64 then Parsed(Accumulate(s, acc)) else RangeError
    decreases |s|
  {
    if s != [] {
      var next := acc * 10 + DigitValue(s[0]);
      assert Accumulate(s, acc) == Accumulate(s[1..], next);
      AccumulateGrows(s[1..], next);
      if acc >= Cutoff {
        assert next >= Cutoff * 10 > MaxUint64;
      } else if next <= MaxUint64 {
        ScanDigitsValue(s[1..], next);
      }
    }
  }

  lemma {:induction false} AccumulateAppend(s: Bytes, d: byte, acc: nat)
    requires AllDigits(s) && IsDigit(d)
    ensures AllDigits(s + [d])
    ensures Accumulate(s + [d], acc) == Accumulate(s, acc) * 10 + DigitValue(d)
    decreases |s|
  {
    if s != [] {
      assert (s + [d])[1..] == s[1..] + [d];
      AccumulateAppend(s[1..], d, acc * 10 + DigitValue(s[0]));
    }
  }

  /** Reading back the digits of `n` gives `n`. */
  lemma {:induction false} DigitsValue(n: nat)
    ensures Accumulate(Digits(n), 0) == n
    decreases n
  {
    if n >= 10 {
      DigitsValue(n / 10);
      AccumulateAppend(Digits(n / 10), DigitByte(n % 10), 0);
    }
  }

  /** Every 64-bit integer survives the round trip through its decimal text. */
  lemma AtoiItoa(n: int)
    requires IsInt64(n)
    ensures Atoi(Itoa(n)) == n
  {
    var m: nat := if n < 0 then -n else n;
    var ds := Digits(m);
    DigitsValue(m);
    ScanDigitsValue(ds, 0);
    if n < 0 {
      assert Itoa(n)[1..] == ds;
    }
  }

  /** A value with no digit in it (in particular a missing one) reads as 0. */
  lemma AtoiNoDigits(s: Bytes)
    requires forall i :: 0 <= i < |s| ==> !IsDigit(s[i])
    ensures Atoi(s) == 0
  {
  }

  /** A decimal with an optional sign ("-", "+" or none) is read as its value,
      clamped to 64 bits. */
  lemma AtoiDecimal(sign: Bytes, digits: Bytes)
    requires sign == [] || sign == Str("-") || sign == Str("+")
    requires digits != [] && AllDigits(digits)
    ensures var v := Accumulate(digits, 0);
      Atoi(sign + digits) ==
        if sign == Str("-") then (if v > -MinInt64 then MinInt64 else -(v as int))
        else (if v > MaxInt64 then MaxInt64 else v)
  {
    ScanDigitsValue(digits, 0);
    var s := sign + digits;
    if sign == [] {
      assert s == digits && IsDigit(s[0]);
    } else {
      assert s[0] == sign[0] && s[1..] == digits;
    }
  }

  function Pow10(e: nat): (p: nat)
    ensures p >= 1
  {
    if e == 0 then 1 else 10 * Pow10(e - 1)
  }

  lemma {:induction false} Pow10Monotone(a: nat, b: nat)
    requires a <= b
    ensures Pow10(a) <= Pow10(b)
    decreases b
  {
    if a < b {
      Pow10Monotone(a, b - 1);
    }
  }

  /** The two powers the overflow bound needs, unfolded one step at a time. */
  lemma Pow10SeventeenEighteen()
    ensures Pow10(17) == 100_000_000_000_000_000
    ensures Pow10(18) == 1_000_000_000_000_000_000
  {
    assert Pow10(1) == 10;
    assert Pow10(2) == 100;
    assert Pow10(3) == 1000;
    assert Pow10(4) == 10000;
    assert Pow10(5) == 100000;
    assert Pow10(6) == 1000000;
    assert Pow10(7) == 10000000;
    assert Pow10(8) == 100000000;
    assert Pow10(9) == 1000000000;
    assert Pow10(10) == 10000000000;
    assert Pow10(11) == 100000000000;
    assert Pow10(12) == 1000000000000;
    assert Pow10(13) == 10000000000000;
    assert Pow10(14) == 100000000000000;
    assert Pow10(15) == 1000000000000000;
    assert Pow10(16) == 10000000000000000;
    assert Pow10(17) == 100000000000000000;
    assert Pow10(18) == 1000000000000000000;
  }

  /** A non-digit at position `k` stops the scan with a syntax error when the
      digits before it cannot overflow. */
  lemma {:induction false} ScanStopsAtNonDigit(s: Bytes, acc: nat, k: nat)
    requires k < |s| && k <= 18 && !IsDigit(s[k])
    requires acc < Pow10(18 - k)
    ensures ScanDigits(s, acc) == SyntaxError
    decreases k
  {
    if IsDigit(s[0]) {
      assert k > 0;
      Pow10Monotone(18 - k, 17);
      Pow10SeventeenEighteen();
      var next := acc * 10 + DigitValue(s[0]);
      assert next < Pow10(18 - (k - 1));
      Pow10Monotone(18 - (k - 1), 18);
      assert s[1..][k - 1] == s[k];
      ScanStopsAtNonDigit(s[1..], next, k - 1);
    }
  }

  /** A non-digit within the first 19 bytes makes the value 0 ("12abc" reads as
      0, not 12), unless it is the leading sign. */
  lemma AtoiEarlyNonDigit(s: Bytes, j: nat)
    requires j < |s| && j <= 18 && !IsDigit(s[j])
    requires j == 0 ==> s[0] != '-' as int as byte && s[0] != '+' as int as byte
    ensures Atoi(s) == 0
  {
    if s[0] == '-' as int as byte || s[0] == '+' as int as byte {
      assert s[1..][j - 1] == s[j];
      ScanStopsAtNonDigit(s[1..], 0, j - 1);
    } else {
      ScanStopsAtNonDigit(s, 0, j);
    }
  }

  /** Once the digits read so far leave 64 bits the scan reports a range
      error, whatever follows them. */
  lemma {:induction false} ScanOverflowsFirst(digits: Bytes, rest: Bytes, acc: nat)
    requires AllDigits(digits) && acc <= MaxUint64
    requires Accumulate(digits, acc) > MaxUint64
    ensures ScanDigits(digits + rest, acc) == RangeError
    decreases |digits|
  {
    var s := digits + rest;
    assert s[0] == digits[0];
    var next := acc * 10 + DigitValue(digits[0]);
    if acc < Cutoff && next <= MaxUint64 {
      assert s[1..] == digits[1..] + rest;
      assert Accumulate(digits, acc) == Accumulate(digits[1..], next);
      ScanOverflowsFirst(digits[1..], rest, next);
    }
  }

  /** Overflow is reported before a later non-digit: "99999999999999999999x"
      reads as the largest 64-bit value, not as 0. */
  lemma AtoiOverflowBeforeNonDigit(digits: Bytes, rest: Bytes)
    requires digits != [] && AllDigits(digits)
    requires Accumulate(digits, 0) > MaxUint64
    ensures Atoi(digits + rest) == MaxInt64
  {
    ScanOverflowsFirst(digits, rest, 0);
    assert (digits + rest)[0] == digits[0];
  }
}
