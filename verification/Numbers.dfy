/**
 Numbers as text: code addresses go through decimal tokens on the operand stack,
 and the scanner hands over decimal and hexadecimal literals as strings.
 */
module Numbers {
  import opened Words

  // ---------------------------------------------------------------- reading

  /** `Acc *= 10; Acc += c - '0'` in 64 bits; the difference may be negative. */
  function DecimalStep(acc: u64, c: char): u64 {
    (acc * 10 + (c as int - '0' as int)) % TWO64
  }

  function HexDigit(c: char): int {
    if '0' <= c <= '9' then c as int - '0' as int
    else if 'a' <= c <= 'f' then c as int - 'a' as int + 10
    else c as int - 'A' as int + 10
  }

  function HexStep(acc: u64, c: char): u64 {
    (acc * 16 + HexDigit(c)) % TWO64
  }

  function DecimalValue(s: string): u64 {
    if s == "" then 0 else DecimalStep(DecimalValue(s[..|s| - 1]), s[|s| - 1])
  }

  function HexValue(s: string): u64 {
    if s == "" then 0 else HexStep(HexValue(s[..|s| - 1]), s[|s| - 1])
  }

  method DecimalToInt(s: string) returns (acc: u64)
    ensures acc == DecimalValue(s)
  {
    acc := 0;
    for i := 0 to |s|
      invariant acc == DecimalValue(s[..i])
    {
      assert s[..i + 1][..i] == s[..i];
      acc := DecimalStep(acc, s[i]);
    }
    assert s[..|s|] == s;
  }

  method HexToInt(s: string) returns (acc: u64)
    ensures acc == HexValue(s)
  {
    acc := 0;
    for i := 0 to |s|
      invariant acc == HexValue(s[..i])
    {
      assert s[..i + 1][..i] == s[..i];
      var shifted := acc * 16 % TWO64;
      var digit;
      if '0' <= s[i] <= '9' {
        digit := s[i] as int - '0' as int;
      } else if 'a' <= s[i] <= 'f' {
        digit := s[i] as int - 'a' as int + 10;
      } else {
        digit := s[i] as int - 'A' as int + 10;
      }
      ModAdd(acc * 16, digit);
      acc := (shifted + digit) % TWO64;
    }
    assert s[..|s|] == s;
  }

  // ---------------------------------------------------------------- printing

  /** `%llu`. */
  function Decimal(n: nat): string {
    if n < 10 then [DigitChar(n)] else Decimal(n / 10) + [DigitChar(n % 10)]
  }

  function DigitChar(d: nat): char
    requires d < 10
  {
    '0' + d as char
  }

  /** `%llx` and `%llX`. */
  function Hex(n: nat, upper: bool): string {
    if n < 16 then [HexChar(n, upper)] else Hex(n / 16, upper) + [HexChar(n % 16, upper)]
  }

  function HexChar(d: nat, upper: bool): char
    requires d < 16
  {
    if d < 10 then '0' + d as char else (if upper then 'A' else 'a') + (d - 10) as char
  }

  // ---------------------------------------------------------------- round trips

  lemma {:induction false} ModMultiple(x: int, k: nat)
    ensures (x + TWO64 * k) % TWO64 == x % TWO64
  {
    if k > 0 {
      ModMultiple(x, k - 1);
      assert x + TWO64 * k == (x + TWO64 * (k - 1)) + TWO64;
    }
  }

  lemma ModAdd(x: nat, y: int)
    ensures (x % TWO64 + y) % TWO64 == (x + y) % TWO64
  {
    ModMultiple(x % TWO64 + y, x / TWO64);
  }

  lemma ModTimes(x: nat, m: nat, y: int)
    ensures (x % TWO64 * m + y) % TWO64 == (x * m + y) % TWO64
  {
    var q, r := x / TWO64, x % TWO64;
    assert x * m + y == (r * m + y) + TWO64 * (q * m) by {
      assert x == TWO64 * q + r;
      assert x * m == TWO64 * q * m + r * m;
    }
    ModMultiple(r * m + y, q * m);
  }

  lemma DecimalSnoc(s: string, c: char)
    ensures DecimalValue("") == 0 && DecimalValue(s + [c]) == DecimalStep(DecimalValue(s), c)
  {
    assert (s + [c])[..|s|] == s;
  }

  lemma HexSnoc(s: string, c: char)
    ensures HexValue("") == 0 && HexValue(s + [c]) == HexStep(HexValue(s), c)
  {
    assert (s + [c])[..|s|] == s;
  }

  /** Reading the decimal printing of any number gives it back, modulo the 64 bits there are. */
  lemma {:induction false} DecimalRoundTrip(n: nat)
    ensures DecimalValue(Decimal(n)) == n % TWO64
  {
    hide DecimalValue;
    if n < 10 {
      DecimalSnoc("", DigitChar(n));
      assert "" + [DigitChar(n)] == [DigitChar(n)];
    } else {
      DecimalRoundTrip(n / 10);
      DecimalSnoc(Decimal(n / 10), DigitChar(n % 10));
      ModTimes(n / 10, 10, n % 10);
    }
  }

  lemma {:induction false} HexRoundTrip(n: nat, upper: bool)
    ensures HexValue(Hex(n, upper)) == n % TWO64
  {
    hide HexValue;
    if n < 16 {
      HexSnoc("", HexChar(n, upper));
      assert "" + [HexChar(n, upper)] == [HexChar(n, upper)];
      HexDigitOf(n, upper);
    } else {
      HexRoundTrip(n / 16, upper);
      HexSnoc(Hex(n / 16, upper), HexChar(n % 16, upper));
      HexDigitOf(n % 16, upper);
      ModTimes(n / 16, 16, n % 16);
    }
  }

  lemma HexDigitOf(d: nat, upper: bool)
    requires d < 16
    ensures HexDigit(HexChar(d, upper)) == d
  {
  }

  /** Every 64-bit number survives its detour through text. */
  lemma AddressesSurvive(n: u64, upper: bool)
    ensures DecimalValue(Decimal(n)) == n && HexValue(Hex(n, upper)) == n
  {
    hide Decimal, Hex, DecimalValue, HexValue;
    DecimalRoundTrip(n);
    HexRoundTrip(n, upper);
  }
}
