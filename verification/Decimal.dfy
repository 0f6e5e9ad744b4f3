/**
 * The decimal texts in which the annotation manager stores replica counts:
 * `strconv.FormatInt(v, 10)` on the way out, `strconv.Atoi` and the `int32(...)`
 * conversion on the way back.
 */
module Decimal {
  import opened Prelude

  const INT32_MAX := 0x7fff_ffff
  const INT32_MIN := -0x8000_0000
  const INT64_MAX := 0x7fff_ffff_ffff_ffff
  const INT64_MIN := -0x8000_0000_0000_0000

  predicate IsInt32(n: int) {
    INT32_MIN <= n <= INT32_MAX
  }

  predicate IsInt64(n: int) {
    INT64_MIN <= n <= INT64_MAX
  }

  /** The Go conversion `int32(n)`: the low 32 bits, read as two's complement. */
  function ToInt32(n: int): (r: int)
    ensures IsInt32(r)
    ensures IsInt32(n) <==> r == n
    ensures (r - n) % 0x1_0000_0000 == 0
  {
    (n - INT32_MIN) % 0x1_0000_0000 + INT32_MIN
  }

  /** int64 addition wraps around; `WrapInt64` of the exact sum is what Go computes. */
  function WrapInt64(n: int): (r: int)
    ensures IsInt64(r)
    ensures IsInt64(n) <==> r == n
    ensures (r - n) % 0x1_0000_0000_0000_0000 == 0
  {
    (n - INT64_MIN) % 0x1_0000_0000_0000_0000 + INT64_MIN
  }

  /** Saturating conversion used by the runner-set adapter. */
  function ClampInt32(n: int): (r: int)
    ensures IsInt32(r)
    ensures IsInt32(n) <==> r == n
    ensures forall m :: IsInt32(m) ==> (m <= n ==> m <= r) && (n <= m ==> r <= m)
  {
    if n > INT32_MAX then INT32_MAX else if n < INT32_MIN then INT32_MIN else n
  }

  /** `time.Time.Sub` saturates at the ends of the int64 range. */
  function ClampInt64(n: int): (r: int)
    ensures IsInt64(r)
    ensures IsInt64(n) <==> r == n
  {
    if n > INT64_MAX then INT64_MAX else if n < INT64_MIN then INT64_MIN else n
  }

  predicate IsDigit(c: char) {
    '0' <= c <= '9'
  }

  function DigitValue(c: char): nat
    requires IsDigit(c)
  {
    c as int - '0' as int
  }

  function DigitChar(d: nat): char
    requires d < 10
  {
    ('0' as int + d) as char
  }

  function Digits(n: nat): (s: string)
    ensures s != [] && forall c :: c in s ==> IsDigit(c)
  {
    if n < 10 then [DigitChar(n)] else Digits(n / 10) + [DigitChar(n % 10)]
  }

  /** `strconv.FormatInt(n, 10)`, and `fmt.Sprintf("%d", n)`. */
  function FormatInt(n: int): string {
    if n < 0 then "-" + Digits(-n) else Digits(n)
  }

  function ParseDigits(s: string): Option<nat> {
    if s == [] || !IsDigit(s[|s| - 1]) then None
    else
      var d := DigitValue(s[|s| - 1]);
      if |s| == 1 then Some(d)
      else
        match ParseDigits(s[..|s| - 1])
        case None => None
        case Some(high) => Some(10 * high + d)
  }

  /** `strconv.Atoi` on a 64-bit platform: an optional sign, digits, and a range check. */
  function Atoi(s: string): Option<int> {
    if s == [] then None
    else
      var signed := s[0] == '-' || s[0] == '+';
      match ParseDigits(if signed then s[1..] else s)
      case None => None
      case Some(n) =>
        var m: int := n;
        var v := if s[0] == '-' then -m else m;
        if IsInt64(v) then Some(v) else None
  }

  lemma {:induction false} ParseOfDigits(n: nat)
    ensures ParseDigits(Digits(n)) == Some(n)
  {
    if n >= 10 {
      ParseOfDigits(n / 10);
      assert Digits(n)[..|Digits(n)| - 1] == Digits(n / 10);
    }
  }

  /** Printing and re-parsing any 64-bit integer gives it back; wider ones are rejected. */
  lemma AtoiOfFormatInt(n: int)
    ensures Atoi(FormatInt(n)) == if IsInt64(n) then Some(n) else None
  {
    if n < 0 {
      ParseOfDigits(-n);
      assert FormatInt(n)[1..] == Digits(-n);
    } else {
      ParseOfDigits(n);
      assert IsDigit(Digits(n)[0]);
    }
  }

  /** The whole save/restore path of one counter, the minimum int32 included. */
  lemma Int32RoundTrip(n: int)
    ensures Atoi(FormatInt(n)).Some? <==> IsInt64(n)
    ensures IsInt64(n) ==> (ToInt32(Atoi(FormatInt(n)).value) == n <==> IsInt32(n))
  {
    AtoiOfFormatInt(n);
  }

  /** `strconv.FormatBool`. */
  function FormatBool(b: bool): string {
    if b then "true" else "false"
  }

  /** `strconv.ParseBool`: exactly these twelve spellings. */
  function ParseBool(s: string): Option<bool> {
    if s in ["1", "t", "T", "TRUE", "true", "True"] then Some(true)
    else if s in ["0", "f", "F", "FALSE", "false", "False"] then Some(false)
    else None
  }
}
