/**
 Integer printing of src/log/LogStream.cpp: digits are produced from the least significant
 one, straight from a signed value, through a digit table mirrored around zero, and the
 buffer is then reversed in place.
 */
module StringConverter {
  import opened CArithmetic
  import opened Options

  /** Digits for the remainders -9, ..., 9; the character for 0 sits in the middle. */
  const DIGITS: string := "9876543210123456789"
  const ZERO := 9
  const DIGITS_HEX: string := "0123456789ABCDEF"

  // ---------- What a printed number means ----------

  function Abs(x: int): nat { if x < 0 then -x else x }

  function DigitValue(c: char): Option<nat>
  {
    if '0' <= c <= '9' then Some((c - '0') as nat)
    else if 'A' <= c <= 'F' then Some((c - 'A') as nat + 10)
    else None
  }

  /** The two number bases the printers use. */
  datatype Radix = Ten | Sixteen {
    function Size(): nat { if Ten? then 10 else 16 }
    function Quotient(n: nat): nat { if Ten? then n / 10 else n / 16 }
    function Remainder(n: nat): (d: nat) ensures d < Size() { if Ten? then n % 10 else n % 16 }
    function Append(n: nat, digit: nat): nat { if Ten? then 10 * n + digit else 16 * n + digit }
  }

  /** Reads an unsigned numeral; None if a character is not a digit of the base. */
  function ReadNat(s: string, radix: Radix): Option<nat>
  {
    if s == [] then None
    else
      var d := DigitValue(s[|s| - 1]);
      if d.None? || d.value >= radix.Size() then None
      else if |s| == 1 then d
      else
        var n := ReadNat(s[..|s| - 1], radix);
        if n.None? then None else Some(radix.Append(n.value, d.value))
  }

  /** Reads a decimal numeral with an optional minus sign. */
  function ReadInt(s: string): Option<int>
  {
    if s != [] && s[0] == '-' then
      var r := ReadNat(s[1..], Ten);
      if r.None? then None else Some(-(r.value as int))
    else
      var r := ReadNat(s, Ten);
      if r.None? then None else Some(r.value as int)
  }

  predicate NoLeadingZero(s: string)
  {
    |s| > 1 ==> s[0] != '0'
  }

  function Reverse(s: string): (r: string)
    ensures |r| == |s|
  {
    seq(|s|, k requires 0 <= k < |s| => s[|s| - 1 - k])
  }

  // ---------- The numerals the printer is meant to produce ----------

  function Digit(d: nat): char
    requires d < 16
  {
    if d < 10 then '0' + d as char else 'A' + (d - 10) as char
  }

  function Numeral(n: nat, radix: Radix): (s: string)
    ensures |s| > 0
  {
    if n < radix.Size() then [Digit(n)]
    else Numeral(radix.Quotient(n), radix) + [Digit(radix.Remainder(n))]
  }

  function Decimal(v: int): (s: string)
    ensures |s| > 0
  {
    (if v < 0 then "-" else "") + Numeral(Abs(v), Ten)
  }

  lemma DigitReads(d: nat)
    requires d < 16
    ensures DigitValue(Digit(d)) == Some(d)
    ensures Digit(d) != '-'
    ensures Digit(d) == '0' <==> d == 0
  {
  }

  /** The digits in their order, and three numerals. */
  lemma KnownNumerals()
    ensures seq(16, d requires 0 <= d < 16 => Digit(d)) == "0123456789ABCDEF"
    ensures Decimal(0) == "0" && Decimal(-107) == "-107" && Numeral(2746, Sixteen) == "ABA"
  {
    assert Numeral(10, Ten) == "10" && Numeral(107, Ten) == "107";
    assert Numeral(171, Sixteen) == "AB";
  }

  lemma {:induction false} NumeralReads(n: nat, radix: Radix)
    ensures ReadNat(Numeral(n, radix), radix) == Some(n)
    ensures NoLeadingZero(Numeral(n, radix)) && Numeral(n, radix)[0] != '-'
    ensures n > 0 ==> Numeral(n, radix)[0] != '0'
  {
    var q, d := radix.Quotient(n), radix.Remainder(n);
    DigitReads(d);
    if n >= radix.Size() {
      NumeralReads(q, radix);
      var s := Numeral(n, radix);
      assert s == Numeral(q, radix) + [Digit(d)];
      assert s[..|s| - 1] == Numeral(q, radix) && s[|s| - 1] == Digit(d) && s[0] == Numeral(q, radix)[0];
      assert ReadNat(s, radix) == Some(radix.Append(q, d));
    } else {
      assert Numeral(n, radix) == [Digit(d)];
    }
  }

  /** Main result: reading back what is printed gives the number, and no zero is wasted. */
  lemma DecimalRoundTrip(v: int)
    ensures ReadInt(Decimal(v)) == Some(v)
    ensures v >= 0 ==> NoLeadingZero(Decimal(v))
    ensures v < 0 ==> Decimal(v)[0] == '-' && Decimal(v)[1] != '0'
  {
    NumeralReads(Abs(v), Ten);
    if v < 0 {
      assert Decimal(v)[1..] == Numeral(Abs(v), Ten);
    } else {
      assert Decimal(v) == Numeral(Abs(v), Ten);
    }
  }

  /** Different numbers print differently. */
  lemma DecimalInjective(v: int, w: int)
    requires Decimal(v) == Decimal(w)
    ensures v == w
  {
    DecimalRoundTrip(v);
    DecimalRoundTrip(w);
  }

  function Power(radix: Radix, k: nat): nat
  {
    if k == 0 then 1 else radix.Append(Power(radix, k - 1), 0)
  }

  /** A numeral has at most k digits if and only if the number is below the k-th power of the base. */
  lemma {:induction false} NumeralLength(n: nat, radix: Radix, k: nat)
    requires k > 0
    ensures |Numeral(n, radix)| <= k <==> n < Power(radix, k)
  {
    if k == 1 {
      assert Power(radix, 1) == radix.Append(Power(radix, 0), 0) == radix.Size();
    } else if n >= radix.Size() {
      NumeralLength(radix.Quotient(n), radix, k - 1);
    } else {
      PowerGrows(radix, k);
    }
  }

  lemma {:induction false} PowerGrows(radix: Radix, k: nat)
    requires k > 0
    ensures radix.Size() <= Power(radix, k)
  {
    if k > 1 {
      PowerGrows(radix, k - 1);
    } else {
      assert Power(radix, 1) == radix.Append(Power(radix, 0), 0);
    }
  }

  predicate FitsInt64(v: int) { -0x8000_0000_0000_0000 <= v < 0x8000_0000_0000_0000 }
  predicate FitsUInt64(v: int) { 0 <= v < 0x1_0000_0000_0000_0000 }

  /** Main result: no 64-bit value, signed or unsigned, needs more than 20 characters. */
  lemma Decimal64Length(v: int)
    requires FitsInt64(v) || FitsUInt64(v)
    ensures |Decimal(v)| <= 20
  {
    if v < 0 {
      assert Power(Ten, 6) == 1_000_000;
      assert Power(Ten, 12) == 1_000_000_000_000;
      assert Power(Ten, 19) == 10_000_000_000_000_000_000;
      NumeralLength(Abs(v), Ten, 19);
    } else {
      assert Power(Ten, 7) == 10_000_000;
      assert Power(Ten, 14) == 100_000_000_000_000;
      assert Power(Ten, 20) == 100_000_000_000_000_000_000;
      NumeralLength(v, Ten, 20);
    }
  }

  lemma Hex64Length(v: nat)
    requires FitsUInt64(v)
    ensures |Numeral(v, Sixteen)| <= 16
  {
    assert Power(Sixteen, 8) == 0x1_0000_0000;
    assert Power(Sixteen, 16) == 0x1_0000_0000_0000_0000;
    NumeralLength(v, Sixteen, 16);
  }

  // ---------- The code ----------

  /** Only buf[lo..hi] may differ from what the buffer held before. */
  twostate predicate OnlyChanged(buf: array<char>, lo: int, hi: int)
    reads buf
  {
    forall k :: 0 <= k < buf.Length && (k < lo || hi <= k) ==> buf[k] == old(buf[k])
  }

  /** std::reverse on buf[lo..hi]. */
  method ReverseRange(buf: array<char>, lo: nat, hi: nat)
    requires lo <= hi <= buf.Length
    modifies buf
    ensures buf[lo..hi] == Reverse(old(buf[lo..hi]))
    ensures OnlyChanged(buf, lo, hi)
  {
    var i, j := lo, hi;
    while i < j
      invariant lo <= i <= j + 1 && j <= hi && i + j == lo + hi
      invariant forall k :: lo <= k < i ==> buf[k] == old(buf[lo + hi - 1 - k])
      invariant forall k :: j <= k < hi ==> buf[k] == old(buf[lo + hi - 1 - k])
      invariant forall k :: i <= k < j ==> buf[k] == old(buf[k])
      invariant OnlyChanged(buf, lo, hi)
      decreases j - i
    {
      j := j - 1;
      buf[i], buf[j] := buf[j], buf[i];
      i := i + 1;
    }
  }

  /**
   lsd = i % 10; i /= 10; zero[lsd]: a negative remainder indexes the table below its middle,
   and |i| changes as under unsigned division.
   */
  method LowestDigit(i: int) returns (c: char, rest: int)
    ensures c == Digit(Ten.Remainder(Abs(i))) && Abs(rest) == Ten.Quotient(Abs(i))
  {
    var lsd := TruncMod(i, 10);
    rest := TruncDiv(i, 10);
    c := DIGITS[ZERO + lsd];
    assert forall d :: 0 <= d <= 9 ==> DIGITS[ZERO + d] == Digit(d) && DIGITS[ZERO - d] == Digit(d);
  }

  /** digitsHex[lsd]. */
  method LookUpHex(lsd: nat) returns (c: char)
    requires lsd < 16
    ensures c == Digit(lsd)
  {
    c := DIGITS_HEX[lsd];
    assert forall d :: 0 <= d <= 15 ==> DIGITS_HEX[d] == Digit(d);
  }

  /** The digits of n, least significant first. */
  function LowDigits(n: nat, radix: Radix): (s: string)
    ensures |s| > 0
  {
    [Digit(radix.Remainder(n))] + if radix.Quotient(n) == 0 then "" else LowDigits(radix.Quotient(n), radix)
  }

  /** What remains of the output after one more digit. */
  lemma DigitStep(digits: string, k: nat, n: nat, radix: Radix)
    requires k <= |digits| && digits[k..] == LowDigits(n, radix)
    ensures k < |digits| && digits[k] == Digit(radix.Remainder(n))
    ensures digits[k + 1..] == if radix.Quotient(n) == 0 then "" else LowDigits(radix.Quotient(n), radix)
  {
    assert digits[k + 1..] == digits[k..][1..];
  }

  lemma ReverseCons(c: char, s: string)
    ensures Reverse([c] + s) == Reverse(s) + [c]
    ensures Reverse(s + [c]) == [c] + Reverse(s)
  {
  }

  lemma {:induction false} LowDigitsReversed(n: nat, radix: Radix)
    ensures Reverse(LowDigits(n, radix)) == Numeral(n, radix)
  {
    var q, c := radix.Quotient(n), Digit(radix.Remainder(n));
    if q == 0 {
      assert LowDigits(n, radix) == [c];
    } else {
      LowDigitsReversed(q, radix);
      ReverseCons(c, LowDigits(q, radix));
    }
  }

  /** Everything convert writes, before the terminator and the reversal. */
  function SignedOutput(v: int): string
  {
    LowDigits(Abs(v), Ten) + if v < 0 then "-" else ""
  }

  lemma SignedOutputReversed(v: int)
    ensures Reverse(SignedOutput(v)) == Decimal(v) && |SignedOutput(v)| == |Decimal(v)|
  {
    LowDigitsReversed(Abs(v), Ten);
    if v < 0 {
      ReverseCons('-', LowDigits(Abs(v), Ten));
    } else {
      assert SignedOutput(v) == LowDigits(Abs(v), Ten);
    }
  }

  /** *p++ = c, when c is the next of the digits. */
  method PutDigit(buf: array<char>, start: nat, p: nat, c: char, ghost digits: string)
    requires start <= p < buf.Length && p - start < |digits| && digits[p - start] == c
    requires buf[start..p] == digits[..p - start]
    modifies buf
    ensures buf[start..p + 1] == digits[..p + 1 - start]
    ensures forall k :: 0 <= k < buf.Length && k != p ==> buf[k] == old(buf[k])
  {
    ghost var before := buf[start..p];
    buf[p] := c;
    assert buf[start..p + 1] == before + [c];
  }

  /** The digit loop of convert. */
  method PutDigits(buf: array<char>, start: nat, value: int) returns (p: nat)
    requires start + |LowDigits(Abs(value), Ten)| <= buf.Length
    modifies buf
    ensures p == start + |LowDigits(Abs(value), Ten)| && buf[start..p] == LowDigits(Abs(value), Ten)
    ensures OnlyChanged(buf, start, p)
  {
    p := start;
    var i, more := value, true;
    ghost var digits := LowDigits(Abs(value), Ten);
    while more
      invariant start <= p <= start + |digits|
      invariant digits[p - start..] == if more then LowDigits(Abs(i), Ten) else ""
      invariant buf[start..p] == digits[..p - start]
      invariant OnlyChanged(buf, start, p)
      decreases more, Abs(i)
    {
      DigitStep(digits, p - start, Abs(i), Ten);
      var c;
      c, i := LowestDigit(i);
      PutDigit(buf, start, p, c, digits);
      p := p + 1;
      more := i != 0;
    }
    assert p - start == |digits|;
  }

  /** The digit loop of convertHex. */
  method PutHexDigits(buf: array<char>, start: nat, value: nat) returns (p: nat)
    requires start + |LowDigits(value, Sixteen)| <= buf.Length
    modifies buf
    ensures p == start + |LowDigits(value, Sixteen)| && buf[start..p] == LowDigits(value, Sixteen)
    ensures OnlyChanged(buf, start, p)
  {
    p := start;
    var i, more := value, true;
    ghost var digits := LowDigits(value, Sixteen);
    while more
      invariant start <= p <= start + |digits|
      invariant digits[p - start..] == if more then LowDigits(i, Sixteen) else ""
      invariant buf[start..p] == digits[..p - start]
      invariant OnlyChanged(buf, start, p)
      decreases more, i
    {
      DigitStep(digits, p - start, i, Sixteen);
      var c := LookUpHex(i % 16);
      i := i / 16;
      PutDigit(buf, start, p, c, digits);
      p := p + 1;
      more := i != 0;
    }
    assert p - start == |digits|;
  }

  /** The common end of both printers: terminate the text and turn it around. */
  method Finish(buf: array<char>, start: nat, p: nat)
    requires start <= p < buf.Length
    modifies buf
    ensures buf[start..p] == Reverse(old(buf[start..p])) && buf[p] == '\0'
    ensures OnlyChanged(buf, start, p + 1)
  {
    buf[p] := '\0';
    assert buf[start..p] == old(buf[start..p]);
    ReverseRange(buf, start, p);
  }

  /** StringConverter::convert: prints value at buf[start..] and returns its length. */
  method Convert(buf: array<char>, start: nat, value: int) returns (len: nat)
    requires start + |Decimal(value)| < buf.Length
    modifies buf
    ensures len == |Decimal(value)|
    ensures buf[start..start + len] == Decimal(value) && buf[start + len] == '\0'
    ensures OnlyChanged(buf, start, start + len + 1)
  {
    SignedOutputReversed(value);
    var p := PutDigits(buf, start, value);
    if value < 0 {
      buf[p] := '-';
      p := p + 1;
    }
    assert buf[start..p] == SignedOutput(value);
    Finish(buf, start, p);
    len := p - start;
  }

  /** StringConverter::convertHex. */
  method ConvertHex(buf: array<char>, start: nat, value: nat) returns (len: nat)
    requires start + |Numeral(value, Sixteen)| < buf.Length
    modifies buf
    ensures len == |Numeral(value, Sixteen)|
    ensures buf[start..start + len] == Numeral(value, Sixteen) && buf[start + len] == '\0'
    ensures OnlyChanged(buf, start, start + len + 1)
  {
    LowDigitsReversed(value, Sixteen);
    var p := PutHexDigits(buf, start, value);
    Finish(buf, start, p);
    len := p - start;
  }
}
