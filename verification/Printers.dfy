/** The contract's integer printers: digits are filled into a fixed buffer from its end. */
module Printers {
  import opened Prelude

  function Pow10(n: nat): (p: nat)
    ensures 0 < p
  {
    if n == 0 then 1 else 10 * Pow10(n - 1)
  }

  predicate IsDigit(c: char) {
    '0' <= c <= '9'
  }

  predicate AllDigits(s: string) {
    forall i :: 0 <= i < |s| ==> IsDigit(s[i])
  }

  function Digit(c: char): (d: nat)
    requires IsDigit(c)
    ensures d < 10
  {
    (c - '0') as nat
  }

  function DigitChar(d: nat): (c: char)
    requires d < 10
    ensures IsDigit(c) && Digit(c) == d
  {
    '0' + d as char
  }

  /** Reads a decimal number, most significant digit first. */
  function Parse(s: string): nat
    requires AllDigits(s)
  {
    if s == "" then 0 else 10 * Parse(s[..|s| - 1]) + Digit(s[|s| - 1])
  }

  /** A decimal number as it is normally written: no leading zero, except for zero itself. */
  predicate Canonical(s: string) {
    s != "" && AllDigits(s) && (s[0] == '0' ==> |s| == 1)
  }

  function ParseSigned(s: string): int
    requires s != "" && AllDigits(if s[0] == '-' then s[1..] else s)
  {
    if s[0] == '-' then 0 - Parse(s[1..]) as int else Parse(s)
  }

  predicate CanonicalSigned(s: string) {
    s != "" && if s[0] == '-' then Canonical(s[1..]) && s[1] != '0' else Canonical(s)
  }

  // ---- Decimal notation is a bijection ----

  lemma MulTen(a: nat, b: nat)
    ensures 10 * (a * b) == a * (10 * b)
  {
  }

  lemma {:induction false} ParsePrepend(c: char, s: string)
    requires IsDigit(c) && AllDigits(s)
    ensures AllDigits([c] + s) && Parse([c] + s) == Digit(c) * Pow10(|s|) + Parse(s)
  {
    if s == "" {
      assert [c] + s == [c] && [c][..0] == "";
    } else {
      var rest := s[..|s| - 1];
      ParsePrepend(c, rest);
      assert ([c] + s)[..|s|] == [c] + rest;
      MulTen(Digit(c), Pow10(|rest|));
    }
  }

  lemma {:induction false} ParseBounds(s: string)
    requires AllDigits(s)
    ensures Parse(s) < Pow10(|s|)
    ensures s != "" && s[0] != '0' ==> Pow10(|s| - 1) <= Parse(s)
  {
    if s != "" {
      ParseBounds(s[..|s| - 1]);
    }
  }

  lemma {:induction false} Pow10Grows(a: nat, b: nat)
    requires a <= b
    ensures Pow10(a) <= Pow10(b)
  {
    if a < b {
      Pow10Grows(a, b - 1);
    }
  }

  lemma {:induction false} SameDigits(a: string, b: string)
    requires AllDigits(a) && AllDigits(b) && |a| == |b| && Parse(a) == Parse(b)
    ensures a == b
  {
    if a != "" {
      var n := |a| - 1;
      SameDigits(a[..n], b[..n]);
      assert a == a[..n] + [a[n]] && b == b[..n] + [b[n]];
    }
  }

  /** A number has one canonical notation, so a printer that round-trips is determined. */
  lemma CanonicalIsUnique(a: string, b: string)
    requires Canonical(a) && Canonical(b) && Parse(a) == Parse(b)
    ensures a == b
  {
    ParseBounds(a);
    ParseBounds(b);
    if |a| < |b| {
      ZeroOrLonger(a, b);
    } else if |b| < |a| {
      ZeroOrLonger(b, a);
    } else {
      SameDigits(a, b);
    }
  }

  lemma ZeroOrLonger(a: string, b: string)
    requires Canonical(a) && Canonical(b) && |a| < |b|
    ensures Parse(a) < Parse(b)
  {
  }

  // ---- The printers ----

  /** `num` followed by `places` zeros. */
  function Shifted(num: nat, places: nat): (v: nat)
    ensures num == 0 ==> v == 0
  {
    num * Pow10(places)
  }

  /** Moving the last digit of `num` to the front of what is already written keeps the value. */
  lemma DigitMoved(num: nat, places: nat, written: nat)
    ensures Shifted(num, places) + written ==
            Shifted(num / 10, places + 1) + (num % 10 * Pow10(places) + written)
  {
  }

  /** Fills the digits backwards from the end of the buffer; they start at `i`. */
  method FillDigits(buf: array<char>, val: nat) returns (i: nat)
    requires 0 < val < Pow10(buf.Length)
    modifies buf
    ensures i < buf.Length && Canonical(buf[i..]) && Parse(buf[i..]) == val
    ensures buf[i] != '0'
  {
    i := buf.Length;
    var num: nat := val;
    while num > 0
      invariant i <= buf.Length && AllDigits(buf[i..])
      invariant Shifted(num, buf.Length - i) + Parse(buf[i..]) == val
      invariant num < Pow10(i)
      invariant num == 0 ==> i < buf.Length && buf[i] != '0'
      decreases num
    {
      ghost var done := buf[i..];
      DigitMoved(num, |done|, Parse(done));
      i := i - 1;
      buf[i] := DigitChar(num % 10);
      ParsePrepend(buf[i], done);
      assert buf[i..] == [buf[i]] + done;
      num := num / 10;
    }
    assert num == 0;
    assert buf[i..][0] == buf[i];
  }

  method U32ToString(val: u32) returns (s: string)
    ensures Canonical(s) && Parse(s) == val
  {
    if val == 0 {
      return "0";
    }
    var buf := new char[10];
    assert Pow10(10) == 10000000000;
    var i := FillDigits(buf, val);
    s := buf[i..];
  }

  method U64ToString(val: u64) returns (s: string)
    ensures Canonical(s) && Parse(s) == val
  {
    if val == 0 {
      return "0";
    }
    var buf := new char[20];
    PowersUsed();
    var i := FillDigits(buf, val);
    s := buf[i..];
  }

  /** `None` where negating the smallest value overflows. */
  method I128ToString(val: i128) returns (s: Option<string>)
    ensures s.None? <==> val == I128_MIN
    ensures s.Some? ==> CanonicalSigned(s.value) && ParseSigned(s.value) == val
  {
    if val == I128_MIN {
      return None;
    }
    if val == 0 {
      return Some("0");
    }
    var num: nat := if val < 0 then -val else val;
    var buf := new char[40];
    PowersUsed();
    var i := FillDigits(buf, num);
    if val < 0 {
      ghost var digits := buf[i..];
      RoomForSign(digits, i);
      i := i - 1;
      buf[i] := '-';
      assert buf[i..][1..] == digits;
    }
    s := Some(buf[i..]);
  }

  lemma PowersUsed()
    ensures U64_MAX < Pow10(20) && I128_MAX < Pow10(39) < Pow10(40)
  {
    assert Pow10(10) == 10000000000;
    assert Pow10(20) == 10000000000 * 10000000000;
    assert Pow10(30) == Pow10(20) * 10000000000;
  }

  /** An `i128` has at most 39 digits, so the buffer of 40 keeps one place for the sign. */
  lemma RoomForSign(digits: string, i: nat)
    requires Canonical(digits) && digits[0] != '0' && |digits| == 40 - i && Parse(digits) <= I128_MAX
    ensures 0 < i
  {
    ParseBounds(digits);
    PowersUsed();
  }
}
