/** Printing integers into the log stream's buffer. */
module LogStream {
  import opened Bytes
  import opened LogBuffer

  const MAX_NUMERIC_SIZE: nat := 32
  /** `zero` points to the middle of this table, which serves remainders of either sign. */
  const DIGITS: string := "9876543210123456789"
  const MINUS: Byte := '-' as int

  /** C++ division and remainder truncate toward zero. */
  function Div10(i: int): int {
    if i >= 0 then i / 10 else -(-i / 10)
  }

  function Mod10(i: int): (r: int)
    ensures -10 < r < 10 && i == 10 * Div10(i) + r
  {
    i - 10 * Div10(i)
  }

  function Abs(i: int): nat {
    if i >= 0 then i else -i
  }

  function Digit(d: int): (r: Byte)
    requires -10 < d < 10
    ensures r == '0' as int + Abs(d)
  {
    DigitTable(d);
    DIGITS[9 + d] as int
  }

  lemma DigitTable(d: int)
    requires -10 < d < 10
    ensures |DIGITS| == 19 && DIGITS[9 + d] as int == '0' as int + Abs(d)
  {
    var table := DIGITS;
    assert d == -9 || d == -8 || d == -7 || d == -6 || d == -5 || d == -4 || d == -3 || d == -2 || d == -1 || d == 0
        || d == 1 || d == 2 || d == 3 || d == 4 || d == 5 || d == 6 || d == 7 || d == 8 || d == 9;
  }

  // ------------------------------------------------------------------ decimal notation

  function Parse(text: seq<Byte>): int {
    if text != [] && text[0] == MINUS then -Number(text[1..]) else Number(text)
  }

  /** An optional minus sign and digits without a leading zero, except for zero itself. */
  predicate IsDecimal(text: seq<Byte>) {
    var digits := if text != [] && text[0] == MINUS then text[1..] else text;
    && digits != []
    && (forall i :: 0 <= i < |digits| ==> IsDigit(digits[i]))
    && (digits[0] == '0' as int ==> text == ['0' as int])
  }

  /** The digits of `n`, least significant first, at least one. */
  function Reverse10(n: nat): (r: seq<Byte>)
    ensures r != []
  {
    ['0' as int + n % 10] + (if n / 10 == 0 then [] else Reverse10(n / 10))
  }

  function Reversed<T>(s: seq<T>): (r: seq<T>)
    ensures |r| == |s| && forall i :: 0 <= i < |s| ==> r[i] == s[|s| - 1 - i]
  {
    if s == [] then [] else Reversed(s[1..]) + [s[0]]
  }

  function Text(v: int): seq<Byte> {
    Reversed(Reverse10(Abs(v)) + (if v < 0 then [MINUS] else []))
  }

  lemma {:induction false} NumberOfDigits(n: nat)
    ensures Number(Reversed(Reverse10(n))) == n
  {
    var digits := Reverse10(n);
    var rest := if n / 10 == 0 then [] else Reverse10(n / 10);
    assert digits[1..] == rest;
    assert Reversed(digits)[..|digits| - 1] == Reversed(rest);
    if n / 10 != 0 {
      NumberOfDigits(n / 10);
    }
  }

  lemma {:induction false} DigitsAreDigits(n: nat)
    ensures forall i :: 0 <= i < |Reverse10(n)| ==> IsDigit(Reverse10(n)[i])
    ensures Reverse10(n)[|Reverse10(n)| - 1] == '0' as int ==> n == 0 && |Reverse10(n)| == 1
  {
    if n / 10 != 0 {
      DigitsAreDigits(n / 10);
    }
  }

  /** What is printed parses back to the value, for every integer, and is canonical. */
  lemma TextRoundTrip(v: int)
    ensures Parse(Text(v)) == v && IsDecimal(Text(v))
  {
    var digits := Reverse10(Abs(v));
    NumberOfDigits(Abs(v));
    DigitsAreDigits(Abs(v));
    if v < 0 {
      assert Text(v) == [MINUS] + Reversed(digits);
    } else {
      assert Text(v) == Reversed(digits);
    }
  }

  function Pow10(k: nat): nat {
    if k == 0 then 1 else 10 * Pow10(k - 1)
  }

  lemma {:induction false} DigitCount(n: nat, k: nat)
    requires 0 < k && n < Pow10(k)
    ensures |Reverse10(n)| <= k
  {
    if n / 10 != 0 {
      DigitCount(n / 10, k - 1);
    }
  }

  /** No 64-bit value takes more than 20 characters, so 21 with the terminator. */
  lemma TextFits(v: int)
    requires -0x8000_0000_0000_0000 <= v < 0x8000_0000_0000_0000
    ensures |Text(v)| <= 20
  {
    assert Pow10(3) == 1_000 && Pow10(5) == 100_000 && Pow10(7) == 10_000_000 && Pow10(9) == 1_000_000_000;
    assert Pow10(11) == 100_000_000_000 && Pow10(13) == 10_000_000_000_000 && Pow10(15) == 1_000_000_000_000_000;
    assert Pow10(17) == 100_000_000_000_000_000 && Pow10(19) == 10_000_000_000_000_000_000;
    DigitCount(Abs(v), 19);
  }

  // ------------------------------------------------------------------ the algorithm

  /** std::reverse of the first `n` elements. */
  method ReverseFirst(buf: array<Byte>, n: nat)
    requires n <= buf.Length
    modifies buf
    ensures buf[..n] == Reversed(old(buf[..n]))
    ensures forall k :: n <= k < buf.Length ==> buf[k] == old(buf[k])
  {
    var i := 0;
    while i < n / 2
      invariant 0 <= i <= n / 2
      invariant forall k :: 0 <= k < i ==> buf[k] == old(buf[n - 1 - k]) && buf[n - 1 - k] == old(buf[k])
      invariant forall k :: i <= k < n - i || n <= k < buf.Length ==> buf[k] == old(buf[k])
    {
      buf[i], buf[n - 1 - i] := buf[n - 1 - i], buf[i];
      i := i + 1;
    }
    assert forall k :: 0 <= k < n ==> buf[k] == old(buf[n - 1 - k]);
  }

  /** One round of the loop prints one digit. */
  lemma OneDigit(i: int)
    ensures Reverse10(Abs(i)) == [Digit(Mod10(i))] + (if Div10(i) == 0 then [] else Reverse10(Abs(Div10(i))))
    ensures Abs(Div10(i)) < Abs(i) || i == 0
    ensures Div10(i) >= 0 <==> i >= 0 || Div10(i) == 0
  {
    assert Abs(Mod10(i)) == Abs(i) % 10 && Abs(Div10(i)) == Abs(i) / 10;
  }

  /** The do-while loop: the digits, least significant first. */
  method PrintDigits(buf: array<Byte>, value: int) returns (p: nat)
    requires |Reverse10(Abs(value))| < buf.Length
    modifies buf
    ensures p < buf.Length && buf[..p] == Reverse10(Abs(value))
    ensures forall k :: p <= k < buf.Length ==> buf[k] == old(buf[k])
  {
    hide Reverse10, Digit, Mod10;
    var i := value;
    p := 0;
    while true
      invariant p + |Reverse10(Abs(i))| < buf.Length
      invariant buf[..p] + Reverse10(Abs(i)) == Reverse10(Abs(value))
      invariant forall k :: p <= k < buf.Length ==> buf[k] == old(buf[k])
      decreases Abs(i)
    {
      OneDigit(i);
      ghost var done, was := buf[..p], i;
      var lsd := Mod10(i);
      i := Div10(i);
      buf[p] := Digit(lsd);
      p := p + 1;
      assert buf[..p] == done + [Digit(lsd)];
      if i == 0 { break; }
      assert buf[..p] + Reverse10(Abs(i)) == done + ([Digit(lsd)] + Reverse10(Abs(i)));
    }
  }

  /** Prints `value`, which has at most 64 bits, and a terminator at the start of `buf`. */
  method Convert(buf: array<Byte>, value: int) returns (len: nat)
    requires -0x8000_0000_0000_0000 <= value < 0x8000_0000_0000_0000
    requires buf.Length >= MAX_NUMERIC_SIZE
    modifies buf
    ensures len <= 20 && buf[..len] == Text(value) && buf[len] == 0
    ensures forall k :: len < k < buf.Length ==> buf[k] == old(buf[k])
    ensures Parse(buf[..len]) == value
  {
    TextFits(value);
    TextRoundTrip(value);
    hide Parse, Reverse10, Reversed;
    ghost var sign := if value < 0 then [MINUS] else [];
    var p := PrintDigits(buf, value);
    if value < 0 {
      buf[p] := MINUS;
      p := p + 1;
    }
    assert buf[..p] == Reverse10(Abs(value)) + sign;
    buf[p] := 0;
    ghost var text := buf[..p];
    ReverseFirst(buf, p);
    len := p;
    assert buf[..len] == Reversed(text);
  }

  class LogStream {
    const buffer: Buffer

    constructor ()
      ensures buffer.Valid() && buffer.size == SMALL_BUFFER_SIZE && buffer.messages == []
    {
      buffer := new Buffer(SMALL_BUFFER_SIZE);
    }

    /** A value is printed whole, or, when fewer than 32 characters are left, not at all. */
    method FormatInteger(value: int)
      requires buffer.Valid()
      requires -0x8000_0000_0000_0000 <= value < 0x8000_0000_0000_0000
      modifies buffer
      ensures buffer.Valid()
      ensures buffer.messages == old(buffer.messages) + (if old(buffer.Available()) >= MAX_NUMERIC_SIZE then [Text(value)] else [])
    {
      hide Text, Parse, Digit;
      if buffer.Available() >= MAX_NUMERIC_SIZE {
        // the characters from GetCur() on
        var tail := new Byte[buffer.Available()](i requires 0 <= i < buffer.size - buffer.cur && buffer.Valid() reads buffer => buffer.data[buffer.cur + i]);
        var len := Convert(tail, value);
        ghost var contents := buffer.data[..buffer.cur];
        buffer.data := buffer.data[..buffer.cur] + tail[..];
        assert buffer.data[..buffer.cur] == contents;
        assert buffer.data[buffer.cur..buffer.cur + len] == tail[..len];
        buffer.AppendComplete(len);
      }
    }
  }
}
