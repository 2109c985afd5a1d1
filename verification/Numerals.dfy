/** mini_itoa of libs/printk.c and atoi of test/test_shell.c. */
module Numerals {
  import opened Prelude

  /** A 32-bit int. */
  type Int32 = v: int | -0x8000_0000 <= v < 0x8000_0000

  const MIN32: Int32 := -0x8000_0000

  function ToUnsigned(v: Int32): nat {
    if v < 0 then v + 0x1_0000_0000 else v
  }

  function ToSigned(u: nat): Int32
    requires u < 0x1_0000_0000
  {
    if u < 0x8000_0000 then u else u - 0x1_0000_0000
  }

  /** -v in 32 bits: the most negative value is its own negative. */
  function Negate(v: Int32): Int32 {
    if v == MIN32 then MIN32 else -v
  }

  // ------------------------------------------------------------------- digits

  function Digit(d: nat, upper: bool): char
    requires d < 16
  {
    if d < 10 then '0' + d as char else (if upper then 'A' else 'a') + (d - 10) as char
  }

  function DigitValue(c: char): int {
    if '0' <= c <= '9' then (c - '0') as int
    else if 'A' <= c <= 'F' then (c - 'A') as int + 10
    else if 'a' <= c <= 'f' then (c - 'a') as int + 10
    else -1
  }

  lemma DigitIs(d: nat, upper: bool)
    requires d < 16
    ensures DigitValue(Digit(d, upper)) == d
  {
  }

  /** The numeral of n, most significant digit first. */
  function Digits(n: nat, radix: nat, upper: bool): (s: string)
    requires 2 <= radix <= 16
    ensures s != []
  {
    if n < radix then [Digit(n, upper)]
    else Digits(n / radix, radix, upper) + [Digit(n % radix, upper)]
  }

  /** The value a numeral stands for. */
  function Value(s: string, radix: nat): int {
    if s == [] then 0 else Value(s[..|s| - 1], radix) * radix + DigitValue(s[|s| - 1])
  }

  lemma ValueAppend(s: string, c: char, radix: nat)
    ensures Value(s + [c], radix) == Value(s, radix) * radix + DigitValue(c)
  {
    assert (s + [c])[..|s + [c]| - 1] == s;
  }

  /** Digits is the numeral of its argument: it reads back, with no leading zero. */
  lemma {:induction false} DigitsValue(n: nat, radix: nat, upper: bool)
    requires 2 <= radix <= 16
    ensures Value(Digits(n, radix, upper), radix) == n
    ensures n > 0 ==> DigitValue(Digits(n, radix, upper)[0]) > 0
  {
    hide Digit, DigitValue;
    if n < radix {
      DigitIs(n, upper);
      assert [Digit(n, upper)][..0] == [];
    } else {
      hide Value;
      Quotient(n, radix);
      var q, d := n / radix, n % radix;
      DigitsValue(q, radix, upper);
      DigitIs(d, upper);
      var front := Digits(q, radix, upper);
      ValueAppend(front, Digit(d, upper), radix);
      assert (front + [Digit(d, upper)])[0] == front[0];
    }
  }

  lemma Quotient(n: nat, radix: nat)
    requires radix > 0
    ensures n / radix * radix + n % radix == n
    ensures n >= radix ==> n / radix > 0
  {
  }

  function Power(b: nat, k: nat): nat {
    if k == 0 then 1 else b * Power(b, k - 1)
  }

  /** A number below radix^k has at most k digits. */
  lemma {:induction false} DigitsLength(n: nat, radix: nat, upper: bool, k: nat)
    requires 2 <= radix <= 16 && k >= 1 && n < Power(radix, k)
    ensures |Digits(n, radix, upper)| <= k
    decreases k
  {
    if n >= radix {
      assert Power(radix, 1) == radix * Power(radix, 0);
      DivideBelow(n, radix, Power(radix, k - 1));
      DigitsLength(n / radix, radix, upper, k - 1);
    }
  }

  lemma DivideBelow(n: nat, radix: nat, m: nat)
    requires radix > 0 && n < radix * m
    ensures n / radix < m
  {
    Quotient(n, radix);
    if n / radix >= m {
      MulMono(m, n / radix, radix);
    }
  }

  lemma MulMono(a: nat, b: nat, c: nat)
    requires a <= b
    ensures c * a <= b * c
  {
  }

  /** Ten digits are enough for a 32-bit decimal, eight for a hexadecimal. */
  lemma WordLength(n: nat, upper: bool)
    requires n < 0x1_0000_0000
    ensures |Digits(n, 10, upper)| <= 10 && |Digits(n, 16, upper)| <= 8
  {
    assert Power(10, 5) == 100000 && Power(10, 10) == 10000000000;
    assert Power(16, 4) == 65536 && Power(16, 8) == 0x1_0000_0000;
    DigitsLength(n, 10, upper, 10);
    DigitsLength(n, 16, upper, 8);
  }

  // -------------------------------------------------------------------- itoa

  function Zeros(n: int): (s: string)
    ensures |s| == if n > 0 then n else 0
    ensures forall i :: 0 <= i < |s| ==> s[i] == '0'
  {
    if n <= 0 then "" else Zeros(n - 1) + "0"
  }

  /** What mini_itoa prints of: the value, its negation, or its unsigned reading. */
  function Magnitude(value: Int32, unsig: bool): nat {
    if value < 0 && !unsig then -(value as int) else ToUnsigned(value)
  }

  /** The text of a number: sign, zeros up to the padding, digits. */
  function Numeral(value: Int32, radix: nat, upper: bool, unsig: bool, pad: nat): string
    requires 2 <= radix <= 16
  {
    var ds := Digits(Magnitude(value, unsig), radix, upper);
    (if value < 0 && !unsig then "-" else "") + Zeros(pad - |ds|) + ds
  }

  lemma {:induction false} ValueZeros(n: int, s: string, radix: nat)
    ensures Value(Zeros(n) + s, radix) == Value(s, radix)
    decreases |s|, n
  {
    if s != [] {
      var t := Zeros(n) + s;
      assert t[..|t| - 1] == Zeros(n) + s[..|s| - 1] && t[|t| - 1] == s[|s| - 1];
      ValueZeros(n, s[..|s| - 1], radix);
    } else {
      assert Zeros(n) + s == Zeros(n);
      if n > 0 {
        ValueZeros(n - 1, "", radix);
        assert Zeros(n - 1) + "" == Zeros(n - 1);
        ValueAppend(Zeros(n - 1), '0', radix);
      }
    }
  }

  lemma PaddedReads(n: nat, radix: nat, upper: bool, pad: nat)
    requires 2 <= radix <= 16
    ensures Value(Zeros(pad - |Digits(n, radix, upper)|) + Digits(n, radix, upper), radix) == n
  {
    hide Digits, Value, Zeros;
    DigitsValue(n, radix, upper);
    ValueZeros(pad - |Digits(n, radix, upper)|, Digits(n, radix, upper), radix);
  }

  /** The text reads back as the number it was made from: a sign, and the magnitude. */
  lemma NumeralReads(value: Int32, radix: nat, upper: bool, unsig: bool, pad: nat)
    requires 2 <= radix <= 16
    ensures var text := Numeral(value, radix, upper, unsig, pad);
      if value < 0 && !unsig then text[0] == '-' && Value(text[1..], radix) == -(value as int)
      else Value(text, radix) == ToUnsigned(value)
  {
    hide Digits, Value, Zeros;
    var n := Magnitude(value, unsig);
    PaddedReads(n, radix, upper, pad);
    var ds := Digits(n, radix, upper);
    var body := Zeros(pad - |ds|) + ds;
    if value < 0 && !unsig {
      assert Numeral(value, radix, upper, unsig, pad) == "-" + body;
      assert ("-" + body)[1..] == body;
    } else {
      assert Numeral(value, radix, upper, unsig, pad) == body;
    }
  }

  /** Back to front. */
  function Reversed(s: string): (r: string)
    ensures |r| == |s| && forall i :: 0 <= i < |s| ==> r[i] == s[|s| - 1 - i]
  {
    if s == [] then [] else Reversed(s[1..]) + [s[0]]
  }

  lemma {:induction false} ReversedConcat(a: string, b: string)
    ensures Reversed(a + b) == Reversed(b) + Reversed(a)
  {
  }

  /** The reverse loop at the end of mini_itoa. */
  method ReverseInPlace(buffer: array<char>, len: nat)
    requires len <= buffer.Length
    modifies buffer
    ensures buffer[..len] == Reversed(old(buffer[..len])) && buffer[len..] == old(buffer[len..])
  {
    var i := 0;
    while i < len / 2
      invariant 0 <= i <= len / 2
      invariant forall k :: 0 <= k < i ==> buffer[k] == old(buffer[len - 1 - k]) && buffer[len - 1 - k] == old(buffer[k])
      invariant forall k :: i <= k < len - i || len <= k < buffer.Length ==> buffer[k] == old(buffer[k])
    {
      var j := buffer[i];
      buffer[i] := buffer[len - i - 1];
      buffer[len - i - 1] := j;
      i := i + 1;
    }
    ghost var was := old(buffer[..len]);
    forall k | 0 <= k < len
      ensures buffer[..len][k] == Reversed(was)[k]
    {
      if i <= k < len - i {
        assert k == len - 1 - k;
      }
    }
  }

  /** The do-while loop: the digits of v, least significant first. */
  method PutDigits(v: Int32, radix: nat, upper: bool, buffer: array<char>) returns (p: nat)
    requires 2 <= radix <= 16 && |Digits(ToUnsigned(v), radix, upper)| <= buffer.Length
    modifies buffer
    ensures p == |Digits(ToUnsigned(v), radix, upper)|
    ensures Reversed(buffer[..p]) == Digits(ToUnsigned(v), radix, upper)
  {
    ghost var all := Digits(ToUnsigned(v), radix, upper);
    hide Digits, Digit, Reversed;
    var value, more := v, true;
    p := 0;
    assert Reversed(buffer[..0]) == [] by { NothingReversed(); }
    while more
      invariant p <= |all| && |Reversed(buffer[..p])| == p
      invariant more ==> all == Digits(ToUnsigned(value), radix, upper) + Reversed(buffer[..p])
      invariant !more ==> all == Reversed(buffer[..p])
      decreases more, ToUnsigned(value)
    {
      var q := PutDigit(ToUnsigned(value), radix, upper, buffer, p, |all|);
      p := p + 1;
      value := ToSigned(q);
      more := value > 0;
    }
  }

  /** The body of the loop: one digit stored, and the quotient that is left. */
  method PutDigit(u: nat, radix: nat, upper: bool, buffer: array<char>, p: nat, ghost n: nat) returns (q: nat)
    requires 2 <= radix <= 16 && u < 0x1_0000_0000 && n <= buffer.Length && p <= n
    requires |Digits(u, radix, upper)| + p == n
    modifies buffer
    ensures p < n && q < 0x8000_0000 && (q > 0 ==> q < u) && |Reversed(buffer[..p + 1])| == p + 1
    ensures (if q > 0 then Digits(q, radix, upper) else "") + Reversed(buffer[..p + 1])
         == Digits(u, radix, upper) + Reversed(old(buffer[..p]))
  {
    ghost var low := buffer[..p];
    LowDigit(u, radix, upper, low);
    Halves(u, radix);
    var digit := u % radix;
    buffer[p] := Digit(digit, upper);
    assert buffer[..p + 1] == low + [Digit(digit, upper)];
    q := u / radix;
  }

  lemma NothingReversed()
    ensures Reversed("") == ""
  {
  }

  lemma Halves(u: nat, radix: nat)
    requires 2 <= radix && u < 0x1_0000_0000
    ensures u / radix < 0x8000_0000 && (u / radix > 0 ==> u / radix < u)
  {
    Quotient(u, radix);
    MulMono(2, radix, u / radix);
  }

  /** Splitting the last digit off a numeral, in the order the loop stores them. */
  lemma LowDigit(u: nat, radix: nat, upper: bool, low: string)
    requires 2 <= radix <= 16
    ensures Digits(u, radix, upper) + Reversed(low) ==
      (if u / radix > 0 then Digits(u / radix, radix, upper) else "") + Reversed(low + [Digit(u % radix, upper)])
    ensures |Digits(u, radix, upper)| >= 1
  {
    Quotient(u, radix);
    if u < radix { Small(u, radix); }
    var d := [Digit(u % radix, upper)];
    var front := if u / radix > 0 then Digits(u / radix, radix, upper) else "";
    assert Digits(u, radix, upper) == front + d;
    hide Digit, Digits;
    LastFirst(front, low, d[0]);
  }

  lemma LastFirst(front: string, low: string, c: char)
    ensures (front + [c]) + Reversed(low) == front + Reversed(low + [c])
  {
    ReversedConcat(low, [c]);
    assert Reversed([c]) == [c];
    assert (front + [c]) + Reversed(low) == front + ([c] + Reversed(low));
  }

  lemma Small(u: nat, radix: nat)
    requires u < radix
    ensures u / radix == 0 && u % radix == u
  {
  }

  /** What the buffer holds before it is reversed. */
  lemma ReversedText(low: string, zeros: string, sign: string)
    requires |sign| <= 1 && forall i :: 0 <= i < |zeros| ==> zeros[i] == '0'
    ensures Reversed(low + zeros + sign) == sign + zeros + Reversed(low)
  {
    ReversedConcat(low + zeros, sign);
    ReversedConcat(low, zeros);
    assert Reversed(sign) == sign;
    assert Reversed(zeros) == zeros;
    assert sign + (zeros + Reversed(low)) == sign + zeros + Reversed(low);
  }

  /** The padding loop. */
  method PutZeros(buffer: array<char>, p: nat, zeroPad: nat) returns (i: nat)
    requires p + |Zeros(zeroPad - p)| <= buffer.Length
    modifies buffer
    ensures i == p + |Zeros(zeroPad - p)| && buffer[..i] == old(buffer[..p]) + Zeros(zeroPad - p)
  {
    i := p;
    assert Zeros(0) == "";
    while i < zeroPad
      invariant p <= i && (i <= zeroPad || i == p)
      invariant buffer[..i] == old(buffer[..p]) + Zeros(i - p)
    {
      assert Zeros(i + 1 - p) == Zeros(i - p) + "0";
      buffer[i] := '0';
      i := i + 1;
      assert buffer[..i] == buffer[..i - 1] + "0";
    }
  }

  /** A NUL after the text, then the text turned round. */
  method Finish(buffer: array<char>, len: nat)
    requires len < buffer.Length
    modifies buffer
    ensures buffer[..len] == Reversed(old(buffer[..len])) && buffer[len] == '\0'
  {
    buffer[len] := '\0';
    assert buffer[..len] == old(buffer[..len]);
    ReverseInPlace(buffer, len);
    assert buffer[len] == buffer[len..][0];
  }

  /**
   mini_itoa: for every 32-bit value and radix from 2 to 16, the numeral of the
   value, NUL-terminated; it needs one byte more than the numeral.
   */
  method Itoa(value: Int32, radix: nat, upper: bool, unsig: bool, buffer: array<char>, zeroPad: nat) returns (len: nat)
    requires radix >= 2
    requires radix <= 16 ==> |Numeral(value, radix, upper, unsig, zeroPad)| < buffer.Length
    modifies buffer
    ensures radix > 16 ==> len == 0 && buffer[..] == old(buffer[..])
    ensures radix <= 16 ==>
      var text := Numeral(value, radix, upper, unsig, zeroPad);
      len == |text| && buffer[..len] == text && buffer[len] == '\0'
  {
    if radix > 16 {
      return 0;
    }
    var negative := value < 0 && !unsig;
    assert ToUnsigned(if negative then Negate(value) else value) == Magnitude(value, unsig);
    hide Digits, Zeros, Reversed, ToUnsigned, Magnitude;
    var p := PutDigits(if negative then Negate(value) else value, radix, upper, buffer);
    ghost var low := buffer[..p];
    var i := PutZeros(buffer, p, zeroPad);
    ghost var zeros := Zeros(zeroPad - p);
    if negative {
      buffer[i] := '-';
      i := i + 1;
    }
    ghost var sign := if negative then "-" else "";
    assert buffer[..i] == low + zeros + sign;
    ZerosOnly(zeroPad - p);
    ReversedText(low, zeros, sign);
    len := i;
    Finish(buffer, len);
  }

  lemma ZerosOnly(n: int)
    ensures forall i :: 0 <= i < |Zeros(n)| ==> Zeros(n)[i] == '0'
  {
  }

  /** Decimal and hexadecimal use at most 12 of the 24 scratch bytes, padding included. */
  lemma ScratchSuffices(value: Int32, upper: bool, unsig: bool, pad: nat)
    requires pad <= 9
    ensures |Numeral(value, 10, upper, unsig, pad)| + 1 <= 12
    ensures |Numeral(value, 16, upper, true, pad)| + 1 <= 10
  {
    WordLength(Magnitude(value, unsig), upper);
    WordLength(Magnitude(value, true), upper);
  }

  // -------------------------------------------------------------------- atoi

  /** The loop of atoi on the digits from i on, before any sign is applied. */
  function Accumulate(s: string, n: int): int {
    if s == [] then n else Accumulate(s[1..], 10 * n + (s[0] as int - '0' as int))
  }

  function AtoiValue(s: string): int {
    if s != [] && s[0] == '-' then -1 * Accumulate(s[1..], 0)
    else if s != [] && s[0] == '+' then Accumulate(s[1..], 0)
    else Accumulate(s, 0)
  }

  method Atoi(s: string) returns (r: int)
    ensures r == AtoiValue(s)
  {
    var i, n := 0, 0;
    var sign := if s != [] && s[0] == '-' then -1 else 1;
    if s != [] && (s[0] == '+' || s[0] == '-') {
      i := i + 1;
    }
    ghost var start := i;
    while i < |s|
      invariant start <= i <= |s|
      invariant Accumulate(s[i..], n) == Accumulate(s[start..], 0)
    {
      assert s[i..][1..] == s[i + 1..];
      n := 10 * n + (s[i] as int - '0' as int);
      i := i + 1;
    }
    assert s[i..] == [];
    assert s[0..] == s;
    return sign * n;
  }

  lemma {:induction false} AccumulateConcat(a: string, b: string, n: int)
    ensures Accumulate(a + b, n) == Accumulate(b, Accumulate(a, n))
    decreases |a|
  {
    if a == [] {
      assert a + b == b;
    } else {
      assert (a + b)[1..] == a[1..] + b;
      AccumulateConcat(a[1..], b, 10 * n + (a[0] as int - '0' as int));
    }
  }

  lemma {:induction false} AccumulateDigits(n: nat)
    ensures Accumulate(Digits(n, 10, false), 0) == n
  {
    if n < 10 {
      assert Digits(n, 10, false)[1..] == [];
    } else {
      var front := Digits(n / 10, 10, false);
      AccumulateDigits(n / 10);
      AccumulateConcat(front, [Digit(n % 10, false)], 0);
      assert [Digit(n % 10, false)][1..] == [];
    }
  }

  lemma {:induction false} FirstDigit(n: nat)
    ensures '0' <= Digits(n, 10, false)[0] <= '9'
  {
    if n >= 10 {
      FirstDigit(n / 10);
    }
  }

  /** atoi inverts the printing of every signed decimal. */
  lemma AtoiInverts(value: Int32)
    ensures AtoiValue(Numeral(value, 10, false, false, 0)) == value
  {
    var ds := Digits(Magnitude(value, false), 10, false);
    AccumulateDigits(Magnitude(value, false));
    FirstDigit(Magnitude(value, false));
    assert Zeros(0 - |ds|) == "";
    if value < 0 {
      assert Numeral(value, 10, false, false, 0) == "-" + ds;
      assert ("-" + ds)[1..] == ds;
    } else {
      assert Numeral(value, 10, false, false, 0) == ds;
    }
  }

  /** The running total of atoi after the first k digits. */
  ghost predicate Fits(s: string) {
    forall k :: 0 <= k <= |s| ==> Accumulate(s[..k], 0) < 0x8000_0000
  }

  lemma {:induction false} PrefixBelow(n: nat, k: nat)
    requires k <= |Digits(n, 10, false)|
    ensures 0 <= Accumulate(Digits(n, 10, false)[..k], 0) <= n
  {
    var ds := Digits(n, 10, false);
    if k == |ds| {
      assert ds[..k] == ds;
      AccumulateDigits(n);
    } else if n >= 10 {
      var front := Digits(n / 10, 10, false);
      assert ds[..k] == front[..k];
      PrefixBelow(n / 10, k);
    } else {
      assert ds[..k] == [];
    }
  }

  /** ... without overflowing an int exactly when the value is not the most negative one. */
  lemma AtoiFitsIff(value: Int32)
    ensures Fits(Digits(Magnitude(value, false), 10, false)) <==> value != MIN32
  {
    var n := Magnitude(value, false);
    var ds := Digits(n, 10, false);
    if value != MIN32 {
      forall k | 0 <= k <= |ds|
        ensures Accumulate(ds[..k], 0) < 0x8000_0000
      {
        PrefixBelow(n, k);
      }
    } else {
      AccumulateDigits(n);
      assert ds[..|ds|] == ds;
    }
  }
}
