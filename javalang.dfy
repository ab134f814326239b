/**
 * The few pieces of Java's arithmetic and text conversions that the executors rely on:
 * 64-bit `long` clock values, truncating integer division, narrowing casts to `int`,
 * and `String.valueOf(long)` / `Long.parseLong` for the heartbeat timestamps kept in Redis.
 */
module JavaLang {
  import opened Wrappers

  const LONG_MIN: int := -0x8000_0000_0000_0000
  const LONG_MAX: int := 0x7FFF_FFFF_FFFF_FFFF
  const INT_MIN: int := -0x8000_0000
  const INT_MAX: int := 0x7FFF_FFFF

  /** A Java `long`, such as `System.currentTimeMillis()`. */
  type Long = x: int | LONG_MIN <= x <= LONG_MAX
  /** A Java `int`. */
  type Int = x: int | INT_MIN <= x <= INT_MAX

  /** `a - b` on two `long`s: the exact difference, wrapped around to 64 bits. */
  function LongSub(a: Long, b: Long): (r: Long)
    ensures LONG_MIN <= a - b <= LONG_MAX ==> r == a - b
    ensures (r - (a - b)) % 0x1_0000_0000_0000_0000 == 0
  {
    var d := a - b;
    if d > LONG_MAX then d - 0x1_0000_0000_0000_0000
    else if d < LONG_MIN then d + 0x1_0000_0000_0000_0000
    else d
  }

  /** Java's `ms / 1000` on a `long`: division rounding toward zero (not Dafny's Euclidean `/`). */
  function MillisToSeconds(ms: Long): (s: Long)
    ensures 0 <= ms ==> 0 <= s && s * 1000 <= ms < s * 1000 + 1000
    ensures ms < 0 ==> s <= 0 && ms <= s * 1000 < ms + 1000
  {
    var magnitude: int := if ms >= 0 then ms as int else 0 - ms as int;
    if ms >= 0 then magnitude / 1000 else -(magnitude / 1000)
  }

  /** Java's narrowing cast `(int) x` from `long`: keeps the low 32 bits, read as signed. */
  function ToInt(x: Long): (r: Int)
    ensures INT_MIN <= x <= INT_MAX ==> r == x
    ensures (r - x) % 0x1_0000_0000 == 0
  {
    var low := x % 0x1_0000_0000;
    if low > INT_MAX then low - 0x1_0000_0000 else low
  }

  /** `s.startsWith(prefix)`. */
  predicate StartsWith(s: string, prefix: string)
  {
    |prefix| <= |s| && s[..|prefix|] == prefix
  }

  // ----- String.valueOf(long) and Long.parseLong -----

  predicate IsDigit(c: char) { '0' <= c <= '9' }

  predicate AllDigits(s: string) { forall i :: 0 <= i < |s| ==> IsDigit(s[i]) }

  function DigitChar(d: nat): (c: char)
    requires d < 10
    ensures IsDigit(c) && c as int - '0' as int == d
  {
    (d + '0' as int) as char
  }

  /** The shortest decimal spelling of `n`, most significant digit first. */
  function Digits(n: nat): (s: string)
    ensures |s| > 0 && AllDigits(s)
    decreases n
  {
    if n < 10 then [DigitChar(n)] else Digits(n / 10) + [DigitChar(n % 10)]
  }

  /** The number a string of decimal digits denotes. */
  function DigitsValue(s: string): nat
    requires AllDigits(s)
    decreases |s|
  {
    if s == [] then 0 else DigitsValue(s[..|s| - 1]) * 10 + (s[|s| - 1] as int - '0' as int)
  }

  /** `String.valueOf(n)` for a `long`. */
  function ShowLong(n: Long): (s: string)
    ensures |s| > 0
    ensures n < 0 <==> s[0] == '-'
    ensures s[0] != '+'
  {
    var magnitude: int := if n < 0 then 0 - n as int else n as int;
    if n < 0 then "-" + Digits(magnitude) else Digits(magnitude)
  }

  /**
   * `Long.parseLong(s)`: an optional sign, then one or more decimal digits, denoting a value
   * within the `long` range; anything else raises NumberFormatException (`None` here).
   */
  function ParseLong(s: string): (r: Option<Long>)
    ensures r.Some? ==> |s| > 0
    ensures r.Some? && r.value < 0 ==> s[0] == '-'
  {
    if |s| == 0 then None
    else
      var negative := s[0] == '-';
      var body := if s[0] == '-' || s[0] == '+' then s[1..] else s;
      if |body| == 0 || !AllDigits(body) then None
      else
        var v: int := if negative then 0 - DigitsValue(body) as int else DigitsValue(body) as int;
        if LONG_MIN <= v <= LONG_MAX then Some(v) else None
  }

  lemma {:induction false} DigitsValueOfDigits(n: nat)
    ensures DigitsValue(Digits(n)) == n
    decreases n
  {
    if n >= 10 {
      var prefix := Digits(n / 10);
      var s := prefix + [DigitChar(n % 10)];
      assert s[..|s| - 1] == prefix;
      DigitsValueOfDigits(n / 10);
    }
  }

  /** What `String.valueOf` writes, `Long.parseLong` reads back unchanged. */
  lemma {:induction false} ParseShowLong(n: Long)
    ensures ParseLong(ShowLong(n)) == Some(n)
  {
    if n < 0 {
      var s := ShowLong(n);
      var magnitude: nat := 0 - n as int;
      assert s[1..] == Digits(magnitude);
      DigitsValueOfDigits(magnitude);
    } else {
      DigitsValueOfDigits(n);
    }
  }
}
