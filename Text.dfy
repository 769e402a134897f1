/** Number formatting and parsing as the C++ client uses them: `std::to_string`,
    fmt's zero-padded `{:04}` / `{:04x}` / `{:02x}` fields, and the
    `std::stoi` / `std::stol` family (leading white space, optional sign,
    decimal digits, range check). */
module Text {
  import opened Wrappers

  /** Concatenation regroups freely. */
  lemma Associative<T>(a: seq<T>, b: seq<T>, c: seq<T>)
    ensures (a + b) + c == a + (b + c)
  {
  }

  function Pow(b: nat, e: nat): (r: nat)
    ensures r >= 1 || b == 0
  {
    if e == 0 then 1 else b * Pow(b, e - 1)
  }

  function DigitChar(d: nat): char
    requires d < 16
  {
    "0123456789abcdef"[d]
  }

  /** Digits of `n` in `base`, most significant first, lower-case, no leading zeros. */
  function Digits(n: nat, base: nat): (r: string)
    requires 2 <= base <= 16
    ensures |r| >= 1
    decreases n
  {
    if n < base then [DigitChar(n)] else Digits(n / base, base) + [DigitChar(n % base)]
  }

  /** `std::to_string` of a non-negative value, and fmt's `{}`. */
  function NatToString(n: nat): string
  {
    Digits(n, 10)
  }

  /** `std::to_string` of a signed value. */
  function IntToString(i: int): string
  {
    if i < 0 then "-" + NatToString(-i) else NatToString(i)
  }

  /** `k` copies of `c`. */
  function Repeat(k: nat, c: char): (r: string)
    ensures |r| == k
    ensures forall i :: 0 <= i < k ==> r[i] == c
  {
    seq(k, _ => c)
  }

  function PadLeft(s: string, width: nat, c: char): (r: string)
    ensures |r| == if |s| >= width then |s| else width
    ensures r[|r| - |s|..] == s
    ensures forall k :: 0 <= k < |r| - |s| ==> r[k] == c
  {
    if |s| >= width then s else Repeat(width - |s|, c) + s
  }

  /** fmt `{:0<width>}` of a non-negative integer. */
  function DecimalPadded(n: nat, width: nat): string
  {
    PadLeft(NatToString(n), width, '0')
  }

  /** fmt `{:0<width>x}` of a non-negative integer. */
  function HexPadded(n: nat, width: nat): string
  {
    PadLeft(Digits(n, 16), width, '0')
  }

  predicate IsDigit(c: char) { '0' <= c <= '9' }

  predicate AllDigits(s: string) { forall k :: 0 <= k < |s| ==> IsDigit(s[k]) }

  function DigitValue(c: char): (d: nat)
    requires IsDigit(c)
    ensures d < 10
  {
    (c as int - '0' as int) as nat
  }

  /** The value of a string of decimal digits, read most significant first. */
  function ParseDecimal(s: string): nat
    requires AllDigits(s)
  {
    if s == [] then 0 else ParseDecimal(s[..|s| - 1]) * 10 + DigitValue(s[|s| - 1])
  }

  lemma DigitsAreDigits(n: nat)
    ensures AllDigits(NatToString(n))
  {
    if n >= 10 { DigitsAreDigits(n / 10); }
  }

  /** Reading the decimal digits back gives the number: the partner of `NatToString`. */
  lemma {:induction false} ParseNatToString(n: nat)
    ensures AllDigits(NatToString(n)) && ParseDecimal(NatToString(n)) == n
  {
    DigitsAreDigits(n);
    if n >= 10 {
      ParseNatToString(n / 10);
      var s := NatToString(n);
      assert s[..|s| - 1] == NatToString(n / 10);
    }
  }

  lemma {:induction false} DigitsLengthBound(n: nat, w: nat)
    requires w >= 1 && n < Pow(10, w)
    ensures |NatToString(n)| <= w
  {
    if n >= 10 {
      assert w >= 2;
      assert n / 10 < Pow(10, w - 1);
      DigitsLengthBound(n / 10, w - 1);
    }
  }

  lemma {:induction false} ParseLeadingZeros(k: nat, s: string)
    requires AllDigits(s)
    ensures AllDigits(Repeat(k, '0') + s)
    ensures ParseDecimal(Repeat(k, '0') + s) == ParseDecimal(s)
    decreases |s|
  {
    var t := Repeat(k, '0') + s;
    if s == [] {
      ParseZeros(k);
      assert t == Repeat(k, '0');
    } else {
      ParseLeadingZeros(k, s[..|s| - 1]);
      assert t[..|t| - 1] == Repeat(k, '0') + s[..|s| - 1];
    }
  }

  lemma {:induction false} ParseZeros(k: nat)
    ensures AllDigits(Repeat(k, '0')) && ParseDecimal(Repeat(k, '0')) == 0
  {
    if k > 0 {
      ParseZeros(k - 1);
      assert Repeat(k, '0')[..k - 1] == Repeat(k - 1, '0');
    }
  }

  /** fmt `{:0<width>}` yields exactly `width` digits that read back as `n`
      whenever `n` fits in `width` digits. */
  lemma DecimalPaddedRoundTrip(n: nat, width: nat)
    requires width >= 1 && n < Pow(10, width)
    ensures |DecimalPadded(n, width)| == width
    ensures AllDigits(DecimalPadded(n, width))
    ensures ParseDecimal(DecimalPadded(n, width)) == n
  {
    DigitsLengthBound(n, width);
    ParseNatToString(n);
    PaddedDigits(NatToString(n), width);
  }

  /** Zero-padding a digit string to `width` keeps its value. */
  lemma PaddedDigits(s: string, width: nat)
    requires AllDigits(s) && |s| <= width
    ensures |PadLeft(s, width, '0')| == width
    ensures AllDigits(PadLeft(s, width, '0'))
    ensures ParseDecimal(PadLeft(s, width, '0')) == ParseDecimal(s)
  {
    assert PadLeft(s, width, '0') == Repeat(width - |s|, '0') + s;
    ParseLeadingZeros(width - |s|, s);
  }

  predicate IsSpace(c: char)
  {
    c == ' ' || c == '\t' || c == '\n' || c == '\U{000B}' || c == '\U{000C}' || c == '\r'
  }

  /** Number of white-space characters `strtol` skips from position `i`. */
  function SpaceRun(s: string, i: nat): (n: nat)
    requires i <= |s|
    ensures i + n <= |s|
    ensures forall k :: i <= k < i + n ==> IsSpace(s[k])
    ensures i + n == |s| || !IsSpace(s[i + n])
    decreases |s| - i
  {
    if i < |s| && IsSpace(s[i]) then 1 + SpaceRun(s, i + 1) else 0
  }

  /** Number of decimal digits from position `i`. */
  function DigitRun(s: string, i: nat): (n: nat)
    requires i <= |s|
    ensures i + n <= |s|
    ensures AllDigits(s[i..i + n])
    ensures i + n == |s| || !IsDigit(s[i + n])
    decreases |s| - i
  {
    if i < |s| && IsDigit(s[i]) then
      var n := 1 + DigitRun(s, i + 1);
      assert s[i..i + n] == [s[i]] + s[i + 1..i + n];
      n
    else 0
  }

  /** What `std::stoi` / `std::stol` do: a value and the count of characters
      consumed, or one of the two exceptions they throw. */
  datatype ParsedInt = Parsed(value: int, consumed: nat) | InvalidArgument | OutOfRange

  /** `strtol` in base 10 with the range of the target type, as `std::stoi`
      (32-bit `int`) and `std::stol` (`long`) use it. The model takes `long`
      as 64-bit, as on LP64 platforms (Linux, macOS); on LLP64 Windows `long`
      is 32-bit, so there `std::stol` has the range of `std::stoi`. */
  function StringToLong(s: string, lo: int, hi: int): (r: ParsedInt)
    ensures r.Parsed? ==> lo <= r.value <= hi && 0 < r.consumed <= |s|
    ensures r.Parsed? ==> IsDigit(s[r.consumed - 1])
    ensures r.Parsed? ==> r.consumed == |s| || !IsDigit(s[r.consumed])
  {
    var ws := SpaceRun(s, 0);
    var signed := ws < |s| && (s[ws] == '+' || s[ws] == '-');
    var start := if signed then ws + 1 else ws;
    var n := DigitRun(s, start);
    if n == 0 then InvalidArgument
    else
      var magnitude: int := ParseDecimal(s[start..start + n]);
      var v: int := if signed && s[ws] == '-' then -magnitude else magnitude;
      if v < lo || v > hi then OutOfRange else Parsed(v, start + n)
  }

  /** The unsigned integer widths of the C++ fields. */
  type U16 = n: int | 0 <= n < 0x1_0000
  type U32 = n: int | 0 <= n < 0x1_0000_0000
  type U64 = n: int | 0 <= n < 0x1_0000_0000_0000_0000

  const IntMin: int := -0x8000_0000
  const IntMax: int := 0x7FFF_FFFF
  const LongMin: int := -0x8000_0000_0000_0000
  const LongMax: int := 0x7FFF_FFFF_FFFF_FFFF

  function Stoi(s: string): ParsedInt { StringToLong(s, IntMin, IntMax) }

  function Stol(s: string): ParsedInt { StringToLong(s, LongMin, LongMax) }

  /** `strtol` reads back what `std::to_string` wrote, consuming all of it,
      whenever the value is in range. */
  lemma ParseIntToString(i: int, lo: int, hi: int)
    requires lo <= i <= hi
    ensures StringToLong(IntToString(i), lo, hi) == Parsed(i, |IntToString(i)|)
  {
    var m := if i < 0 then -i else i;
    ParseNatToString(m);
    var d := NatToString(m);
    if i < 0 {
      var s := "-" + d;
      assert s[1..] == d;
      ParseSignedDigits(s, 1, lo, hi);
    } else {
      assert d[0..] == d;
      ParseSignedDigits(d, 0, lo, hi);
    }
  }

  /** A string that is an optional minus sign followed by digits parses whole. */
  lemma ParseSignedDigits(s: string, start: nat, lo: int, hi: int)
    requires start <= 1 && start < |s| && AllDigits(s[start..])
    requires start == 1 ==> s[0] == '-'
    ensures var magnitude: int := ParseDecimal(s[start..]);
      var v: int := if start == 1 then -magnitude else magnitude;
      lo <= v <= hi ==> StringToLong(s, lo, hi) == Parsed(v, |s|)
  {
    assert IsDigit(s[start..][0]);
    assert !IsSpace(s[0]);
    assert SpaceRun(s, 0) == 0;
    assert s[start..|s|] == s[start..];
    DigitRunUpTo(s, start, |s|);
  }

  /** The digit run from `i` ends at the first non-digit `j`. */
  lemma DigitRunUpTo(s: string, i: nat, j: nat)
    requires i <= j <= |s| && AllDigits(s[i..j]) && (j == |s| || !IsDigit(s[j]))
    ensures DigitRun(s, i) == j - i
    decreases j - i
  {
    if i < j {
      assert IsDigit(s[i..j][0]);
      assert s[i + 1..j] == s[i..j][1..];
      DigitRunUpTo(s, i + 1, j);
    }
  }


  /** C++ conversion of an integer to a 16-bit unsigned field (modular since C++20,
      and what every supported compiler does). */
  function ToUint16(i: int): (r: nat)
    ensures r < 0x1_0000
    ensures 0 <= i < 0x1_0000 ==> r == i
  {
    i % 0x1_0000
  }

  /** Conversion of an integer to a 32-bit `int` by keeping the low 32 bits. */
  function ToInt32(i: int): (r: int)
    ensures IntMin <= r <= IntMax
    ensures IntMin <= i <= IntMax ==> r == i
  {
    var low := i % 0x1_0000_0000;
    if low > IntMax then low - 0x1_0000_0000 else low
  }

  /** Conversion of an integer to a 64-bit unsigned field. */
  function ToUint64(i: int): (r: nat)
    ensures r < 0x1_0000_0000_0000_0000
    ensures 0 <= i < 0x1_0000_0000_0000_0000 ==> r == i
  {
    i % 0x1_0000_0000_0000_0000
  }
}
