/** Go's 64-bit int, strconv.Atoi and the %d verb of fmt. */
module Numbers {
  import opened Wrappers

  const TwoTo64: int := 0x1_0000_0000_0000_0000
  const MinInt64: int := -0x8000_0000_0000_0000
  const MaxInt64: int := 0x7FFF_FFFF_FFFF_FFFF

  predicate IsInt64(n: int) {
    MinInt64 <= n <= MaxInt64
  }

  /** The value a Go int holds after arithmetic that produced n: n modulo 2^64, read as signed. */
  function Wrap64(n: int): (r: int)
    ensures IsInt64(r)
    ensures IsInt64(n) ==> r == n
  {
    (n - MinInt64) % TwoTo64 + MinInt64
  }

  predicate IsDigit(c: char) {
    '0' <= c <= '9'
  }

  predicate AllDigits(s: string) {
    forall i :: 0 <= i < |s| ==> IsDigit(s[i])
  }

  /** The value of a string of decimal digits. */
  function DigitsValue(s: string): nat
    requires AllDigits(s)
  {
    if s == [] then 0 else DigitsValue(s[..|s| - 1]) * 10 + (s[|s| - 1] as int - '0' as int)
  }

  /** strconv.Atoi: an optional sign, at least one decimal digit, and a value that fits in an int. */
  function Atoi(s: string): Result<int> {
    var body := if |s| > 0 && (s[0] == '-' || s[0] == '+') then s[1..] else s;
    if body == [] || !AllDigits(body) then Err(InvalidNumber(s))
    else
      var v: int := if |s| > 0 && s[0] == '-' then 0 - DigitsValue(body) else DigitsValue(body);
      if IsInt64(v) then Ok(v) else Err(InvalidNumber(s))
  }

  /** The decimal digits of n, without leading zeros. */
  function NatDigits(n: nat): (s: string)
    ensures |s| >= 1 && AllDigits(s)
  {
    if n < 10 then [('0' as int + n) as char]
    else NatDigits(n / 10) + [('0' as int + n % 10) as char]
  }

  /** fmt's %d of an int. */
  function Itoa(n: int): (s: string)
    ensures |s| >= 1
    ensures forall i :: 0 <= i < |s| ==> IsDigit(s[i]) || (i == 0 && s[i] == '-')
  {
    if n < 0 then "-" + NatDigits(-n) else NatDigits(n)
  }

  lemma {:induction false} DigitsRoundTrip(n: nat)
    ensures DigitsValue(NatDigits(n)) == n
  {
    if n >= 10 {
      DigitsRoundTrip(n / 10);
      var s := NatDigits(n);
      assert s[..|s| - 1] == NatDigits(n / 10);
    }
  }

  /** What %d prints, strconv.Atoi reads back. */
  lemma AtoiItoa(n: int)
    requires IsInt64(n)
    ensures Atoi(Itoa(n)) == Ok(n)
  {
    if n < 0 {
      AtoiSigned("-" + NatDigits(-n), -n);
    } else {
      DigitsRoundTrip(n);
      var s := NatDigits(n);
      assert IsDigit(s[0]);
    }
  }

  /** A non-negative value printed with an explicit plus sign, as the new start of a hunk header is, reads back too. */
  lemma AtoiPlusItoa(n: int)
    requires 0 <= n <= MaxInt64
    ensures Atoi("+" + Itoa(n)) == Ok(n)
  {
    AtoiSigned("+" + NatDigits(n), n);
  }

  /** A sign followed by the digits of m reads as m with that sign, when the result fits. */
  lemma AtoiSigned(s: string, m: nat)
    requires |s| >= 1 && (s[0] == '-' || s[0] == '+') && s[1..] == NatDigits(m)
    requires IsInt64(if s[0] == '-' then -(m as int) else m as int)
    ensures Atoi(s) == Ok(if s[0] == '-' then -(m as int) else m as int)
  {
    DigitsRoundTrip(m);
    assert AllDigits(s[1..]) && s[1..] != [];
  }

  /** Printed numbers hold no separator: neither a comma nor a space. */
  lemma ItoaNoSeparator(n: int)
    ensures ',' !in Itoa(n) && ' ' !in Itoa(n)
  {
  }
}
