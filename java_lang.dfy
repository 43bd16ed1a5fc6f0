/** The few pieces of Java semantics the model relies on: null references,
    32-bit `int` wrap-around, `TimeUnit` conversion from nanoseconds to
    milliseconds (which truncates toward zero) and the decimal rendering of
    integers used by string concatenation. */
module JavaLang {

  /** A possibly-null reference: `None` stands for Java's `null`. */
  datatype Option<+T> = None | Some(value: T)

  const INT_MIN: int := -0x8000_0000
  const INT_MAX: int := 0x7fff_ffff

  /** Java's 32-bit `int`. */
  type Int32 = x: int | INT_MIN <= x <= INT_MAX

  /** Narrowing an integer to `int` (as `Number.intValue()` and `int`
      overflow do): two's complement wrap-around. */
  function WrapInt(x: int): (r: Int32)
    ensures INT_MIN <= x <= INT_MAX ==> r == x
    ensures (x - r) % 0x1_0000_0000 == 0
  {
    (x - INT_MIN) % 0x1_0000_0000 + INT_MIN
  }

  const NANOS_PER_MILLI: int := 1_000_000
  const NANOS_PER_SECOND: int := 1_000_000_000

  /** `MILLISECONDS.convert(nanos, NANOSECONDS)`: Java's `/`, which truncates
      toward zero, so a negative duration rounds up. */
  function NanosToMillis(nanos: int): (millis: int)
    ensures nanos >= 0 ==> 0 <= millis && millis * NANOS_PER_MILLI <= nanos < (millis + 1) * NANOS_PER_MILLI
    ensures nanos < 0 ==> millis <= 0 && (millis - 1) * NANOS_PER_MILLI < nanos <= millis * NANOS_PER_MILLI
  {
    if nanos >= 0 then nanos / NANOS_PER_MILLI else -((-nanos) / NANOS_PER_MILLI)
  }

  function DigitChar(d: nat): (c: char)
    requires d < 10
    ensures '0' <= c <= '9' && c as int - '0' as int == d
  {
    "0123456789"[d]
  }

  /** Decimal digits of a natural number, most significant first. */
  function NatToString(n: nat): (s: string)
    ensures |s| >= 1 && '0' <= s[0] <= '9'
    decreases n
  {
    if n < 10 then [DigitChar(n)] else NatToString(n / 10) + [DigitChar(n % 10)]
  }

  /** The value a string of decimal digits denotes. */
  function DigitsValue(s: string): int {
    if s == [] then 0 else 10 * DigitsValue(s[..|s| - 1]) + (s[|s| - 1] as int - '0' as int)
  }

  lemma {:induction false} DigitsValueOfNatToString(n: nat)
    ensures DigitsValue(NatToString(n)) == n
    decreases n
  {
    var s := NatToString(n);
    if n >= 10 {
      DigitsValueOfNatToString(n / 10);
      assert s[..|s| - 1] == NatToString(n / 10);
    }
  }

  /** `"" + i` for a Java integer: an optional minus sign, then the digits. */
  function IntToString(i: int): (s: string)
    ensures i >= 0 ==> s == NatToString(i)
    ensures i < 0 ==> s == "-" + NatToString(-i)
    ensures |s| >= 1 && (s[0] == '-' <==> i < 0)
  {
    if i < 0 then "-" + NatToString(-i) else NatToString(i)
  }

  /** Only decimal digits appear in the rendering of a natural number. */
  lemma {:induction false} NatToStringDigits(n: nat)
    ensures forall k :: 0 <= k < |NatToString(n)| ==> '0' <= NatToString(n)[k] <= '9'
    decreases n
  {
    if n >= 10 {
      NatToStringDigits(n / 10);
    }
  }

  /** Only a minus sign and decimal digits appear in the rendering of an
      integer. */
  lemma IntToStringChars(i: int)
    ensures forall k :: 0 <= k < |IntToString(i)| ==> IntToString(i)[k] == '-' || '0' <= IntToString(i)[k] <= '9'
  {
    if i < 0 {
      NatToStringDigits(-i);
    } else {
      NatToStringDigits(i);
    }
  }

  lemma NatToStringInjective(a: nat, b: nat)
    requires NatToString(a) == NatToString(b)
    ensures a == b
  {
    DigitsValueOfNatToString(a);
    DigitsValueOfNatToString(b);
  }

  /** Distinct integers render differently. */
  lemma IntToStringInjective(i: int, j: int)
    requires IntToString(i) == IntToString(j)
    ensures i == j
  {
    var s := IntToString(i);
    if i < 0 {
      assert NatToString(-i) == s[1..] == NatToString(-j);
      NatToStringInjective(-i, -j);
    } else {
      NatToStringInjective(i, j);
    }
  }

  /** A string reference as string concatenation renders it (`null` for null). */
  function JavaString(s: Option<string>): (r: string)
    ensures s.Some? ==> r == s.value
    ensures s.None? ==> r == "null"
  {
    match s
    case Some(v) => v
    case None => "null"
  }

  /** Two strings that are equal after the same head are equal. */
  lemma CancelHead(h: string, x: string, y: string)
    requires h + x == h + y
    ensures x == y
  {
    assert x == (h + x)[|h|..];
    assert y == (h + y)[|h|..];
  }

  /** The last position holding `c`, or -1. Not an operation of the program:
      a proof device for splitting the names it builds by concatenation, such
      as `host:port` and `<address>.<metric>`, at their last separator. */
  function LastIndexOf(s: string, c: char): (k: int)
    ensures -1 <= k < |s|
    ensures k >= 0 ==> s[k] == c && c !in s[k + 1..]
    ensures k == -1 ==> c !in s
  {
    if s == [] then -1
    else if s[|s| - 1] == c then |s| - 1
    else LastIndexOf(s[..|s| - 1], c)
  }

  lemma {:induction false} LastIndexBeforeTail(head: string, tail: string, c: char)
    requires c !in tail
    ensures LastIndexOf(head + [c] + tail, c) == |head|
    decreases |tail|
  {
    if tail != [] {
      var shorter := tail[..|tail| - 1];
      assert (head + [c] + tail)[..|head + [c] + tail| - 1] == head + [c] + shorter;
      LastIndexBeforeTail(head, shorter, c);
    }
  }

  /** Two strings that end in a separator `c` followed by a `c`-free tail are
      equal only if both the heads and the tails are. */
  lemma SplitAtLast(head1: string, tail1: string, head2: string, tail2: string, c: char)
    requires c !in tail1 && c !in tail2
    requires head1 + [c] + tail1 == head2 + [c] + tail2
    ensures head1 == head2 && tail1 == tail2
  {
    var s := head1 + [c] + tail1;
    LastIndexBeforeTail(head1, tail1, c);
    LastIndexBeforeTail(head2, tail2, c);
    assert head1 == s[..|head1|] == head2;
    assert tail1 == s[|head1| + 1..] == tail2;
  }
}
