/** mini_vsnprintf of libs/printk.c: formatting into a bounded buffer. */
module Printk {
  import opened Prelude
  import opened Numerals

  /** The words va_arg will yield, and the C string at an address. */
  datatype Va = Va(word: nat -> Int32, text: Int32 -> string)

  // ------------------------------------------------------------------ unbounded

  /** What one step through the format yields: text, format and arguments used; or the end. */
  datatype Piece = Piece(text: string, skip: nat, args: nat) | Stop

  /** The conversion character `ch` with padding `pad`. */
  function Convert(ch: char, pad: nat, skip: nat, va: Va, k: nat): Piece {
    var w := va.word(k);
    if ch == 'u' || ch == 'd' then Piece(Numeral(w, 10, false, ch == 'u', pad), skip, 1)
    else if ch == 'x' || ch == 'X' then Piece(Numeral(w, 16, ch == 'X', true, pad), skip, 1)
    else if ch == 'c' then Piece([(w % 256) as char], skip, 1)
    else if ch == 's' then Piece(va.text(w), skip, 1)
    else Piece([ch], skip, 0)
  }

  /** The padding of "%0p": a digit, anything else counting as none. */
  function Pad(p: char): nat {
    if '0' <= p <= '9' then (p - '0') as nat else 0
  }

  function Next(fmt: string, va: Va, k: nat): (p: Piece)
    requires fmt != []
    ensures p.Piece? ==> 0 < p.skip <= |fmt|
  {
    if fmt[0] != '%' then Piece([fmt[0]], 1, 0)
    else if |fmt| == 1 then Stop
    else if fmt[1] != '0' then Convert(fmt[1], 0, 2, va, k)
    else if |fmt| <= 3 then Stop
    else Convert(fmt[3], Pad(fmt[2]), 4, va, k)
  }

  /** The untruncated result of a format from argument k on. */
  function Full(fmt: string, va: Va, k: nat): string
    decreases |fmt|
  {
    if fmt == [] then ""
    else match Next(fmt, va, k)
      case Stop => ""
      case Piece(text, skip, args) => text + Full(fmt[skip..], va, k + args)
  }

  // -------------------------------------------------------------------- bounded

  function Min(a: int, b: int): int { if a < b then a else b }

  /** A buffer being filled: `n` characters so far. */
  ghost predicate Holds(buffer: seq<char>, n: nat, out: string) {
    n < |buffer| && n == Min(|out|, |buffer| - 1) && buffer[..n] == out[..n] && (n > 0 ==> buffer[n] == '\0')
  }

  /** _putc */
  method Putc(ch: char, buffer: array<char>, n: nat, ghost out: string) returns (n': nat)
    requires buffer.Length >= 1 && Holds(buffer[..], n, out)
    modifies buffer
    ensures Holds(buffer[..], n', out + [ch])
  {
    n' := n;
    if n + 1 >= buffer.Length {
      assert (out + [ch])[..n] == out[..n];
      return;
    }
    buffer[n] := ch;
    n' := n + 1;
    buffer[n'] := '\0';
    assert buffer[..n] == out[..n];
    assert buffer[..n'] == buffer[..n] + [ch];
    assert buffer[..][..n'] == (out + [ch])[..n'];
  }

  /** _puts */
  method Puts(s: string, buffer: array<char>, n: nat, ghost out: string) returns (n': nat)
    requires buffer.Length >= 1 && Holds(buffer[..], n, out)
    modifies buffer
    ensures Holds(buffer[..], n', out + s)
  {
    var len := |s|;
    if buffer.Length - n - 1 < len {
      len := buffer.Length - n - 1;
    }
    var i := 0;
    n' := n;
    while i < len
      invariant 0 <= i <= len && n' == n + i
      invariant buffer[..n'] == old(buffer[..n]) + s[..i]
    {
      buffer[n'] := s[i];
      assert buffer[..n' + 1] == buffer[..n'] + [s[i]];
      n' := n' + 1;
      i := i + 1;
    }
    buffer[n'] := '\0';
    PutsResult(old(buffer[..]), buffer[..], n, n', out, s, len);
  }

  lemma PutsResult(was: seq<char>, buffer: seq<char>, n: nat, n': nat, out: string, s: string, len: nat)
    requires Holds(was, n, out) && |buffer| == |was| && n' == n + len && n' < |buffer|
    requires len == Min(|s|, |buffer| - n - 1) && buffer[..n'] == was[..n] + s[..len] && buffer[n'] == '\0'
    ensures Holds(buffer, n', out + s)
  {
    if len == 0 {
      assert (out + s)[..n] == out[..n];
    } else {
      assert out[..n] == out;
      assert (out + s)[..n'] == out + s[..len];
    }
  }

  /** The switch on the conversion character; numbers go through the 24-byte scratch buffer. */
  method Emit(ch: char, pad: nat, va: Va, k: nat, buffer: array<char>, n: nat, ghost out: string)
    returns (args: nat, n': nat)
    requires pad <= 9 && buffer.Length >= 1 && Holds(buffer[..], n, out)
    modifies buffer
    ensures args == Convert(ch, pad, 0, va, k).args
    ensures Holds(buffer[..], n', out + Convert(ch, pad, 0, va, k).text)
  {
    hide Holds, Numeral;
    var w := va.word(k);
    args := 1;
    if ch == 'u' || ch == 'd' {
      var text := Number(w, 10, false, ch == 'u', pad);
      n' := Puts(text, buffer, n, out);
    } else if ch == 'x' || ch == 'X' {
      var text := Number(w, 16, ch == 'X', true, pad);
      n' := Puts(text, buffer, n, out);
    } else if ch == 'c' {
      n' := Putc((w % 256) as char, buffer, n, out);
    } else if ch == 's' {
      n' := Puts(va.text(w), buffer, n, out);
    } else {
      n' := Putc(ch, buffer, n, out);
      args := 0;
    }
  }

  /** mini_itoa into bf[24] */
  method Number(w: Int32, radix: nat, upper: bool, unsig: bool, pad: nat) returns (text: string)
    requires pad <= 9 && (radix == 10 || (radix == 16 && unsig))
    ensures text == Numeral(w, radix, upper, unsig, pad)
  {
    ScratchSuffices(w, upper, unsig, pad);
    hide Numeral;
    var bf := new char[24];
    var len := Itoa(w, radix, upper, unsig, bf, pad);
    text := bf[..len];
  }

  /** From a '%' to the end of its directive. */
  method Directive(fmt: string, i: nat, va: Va, k: nat, buffer: array<char>, n: nat, ghost out: string)
    returns (stop: bool, skip: nat, args: nat, n': nat)
    requires i < |fmt| && fmt[i] == '%' && buffer.Length >= 1 && Holds(buffer[..], n, out)
    modifies buffer
    ensures stop <==> Next(fmt[i..], va, k).Stop?
    ensures stop ==> n' == n && buffer[..] == old(buffer[..])
    ensures !stop ==>
      var p := Next(fmt[i..], va, k);
      skip == p.skip && args == p.args && Holds(buffer[..], n', out + p.text)
  {
    hide Holds, Numeral;
    stop, skip, args, n' := true, 0, 0, n;
    if i + 1 == |fmt| {
      return;
    }
    var ch, pad := fmt[i + 1], 0;
    skip := 2;
    if ch == '0' {
      if i + 2 == |fmt| {
        return;
      }
      ch := fmt[i + 2];
      if '0' <= ch <= '9' {
        pad := (ch - '0') as nat;
      }
      if i + 3 == |fmt| {
        return;
      }
      ch := fmt[i + 3];
      skip := 4;
    }
    stop := false;
    args, n' := Emit(ch, pad, va, k, buffer, n, out);
  }

  /** The whole result is what has been put out and what the rest of the format yields. */
  ghost predicate Pending(all: string, out: string, fmt: string, i: nat, va: Va, k: nat) {
    i <= |fmt| && all == out + Full(fmt[i..], va, k)
  }

  lemma PendingStart(fmt: string, va: Va)
    ensures Pending(Full(fmt, va, 0), "", fmt, 0, va, 0)
  {
    assert fmt[0..] == fmt;
  }

  lemma PendingStep(all: string, out: string, fmt: string, i: nat, va: Va, k: nat, p: Piece)
    requires Pending(all, out, fmt, i, va, k) && i < |fmt| && p == Next(fmt[i..], va, k) && p.Piece?
    ensures Pending(all, out + p.text, fmt, i + p.skip, va, k + p.args)
  {
    assert fmt[i..][p.skip..] == fmt[i + p.skip..];
    Assoc(out, p.text, Full(fmt[i + p.skip..], va, k + p.args));
  }

  lemma PendingEnd(all: string, out: string, fmt: string, i: nat, va: Va, k: nat)
    requires Pending(all, out, fmt, i, va, k) && (i == |fmt| || Next(fmt[i..], va, k).Stop?)
    ensures all == out
  {
    assert Full(fmt[i..], va, k) == "";
  }

  lemma Assoc(a: string, b: string, c: string)
    ensures a + (b + c) == (a + b) + c
  {
  }

  lemma Empty(buffer: seq<char>)
    requires buffer != []
    ensures Holds(buffer, 0, "")
  {
  }

  lemma PieceAt(fmt: string, i: nat, va: Va, k: nat)
    requires i < |fmt|
    ensures var p := Next(fmt[i..], va, k);
      (p.Piece? ==> 0 < p.skip && i + p.skip <= |fmt|) && (fmt[i] != '%' ==> p == Piece([fmt[i]], 1, 0))
  {
  }

  /** What the caller sees: the first r characters of the result, and a NUL after them. */
  ghost predicate Answered(buffer: seq<char>, r: nat, all: string) {
    && buffer != [] && r == Min(|all|, |buffer| - 1) && buffer[..r] == all[..r]
    && (r > 0 ==> buffer[r] == '\0')
  }

  /** A full buffer is the answer whatever is still to come. */
  lemma FullBuffer(buffer: seq<char>, r: nat, all: string, out: string, fmt: string, i: nat, va: Va, k: nat)
    requires Holds(buffer, r, out) && r + 1 >= |buffer| && Pending(all, out, fmt, i, va, k)
    ensures Answered(buffer, r, all)
  {
    hide Full;
    var rest := Full(fmt[i..], va, k);
    assert (out + rest)[..r] == out[..r];
  }

  lemma WholeResult(buffer: seq<char>, r: nat, all: string)
    requires Holds(buffer, r, all)
    ensures Answered(buffer, r, all)
  {
  }

  /**
   mini_vsnprintf: exactly the first min(full length, buffer_len - 1) characters
   of the untruncated result, never a store outside the buffer.
   */
  method Vsnprintf(buffer: array<char>, fmt: string, va: Va) returns (r: nat)
    modifies buffer
    ensures buffer.Length == 0 ==> r == 0
    ensures buffer.Length >= 1 ==> Answered(buffer[..], r, Full(fmt, va, 0))
  {
    r := 0;
    if buffer.Length == 0 {
      return;
    }
    ghost var out, all := "", Full(fmt, va, 0);
    Empty(buffer[..]);
    PendingStart(fmt, va);
    hide Holds, Next, Full, Pending, Answered;
    var i, k := 0, 0;
    while i < |fmt|
      invariant i <= |fmt| && r < buffer.Length && Holds(buffer[..], r, out)
      invariant Pending(all, out, fmt, i, va, k)
      decreases |fmt| - i
    {
      if r + 1 >= buffer.Length {
        FullBuffer(buffer[..], r, all, out, fmt, i, va, k);
        return;
      }
      var stop;
      stop, i, k, r, out := OneStep(fmt, i, va, k, buffer, r, out, all);
      if stop {
        WholeResult(buffer[..], r, all);
        return;
      }
    }
    PendingEnd(all, out, fmt, i, va, k);
    WholeResult(buffer[..], r, all);
  }

  lemma InBounds(buffer: seq<char>, n: nat, out: string)
    requires Holds(buffer, n, out)
    ensures n < |buffer|
  {
  }

  /** The body of the loop: the directive at i and what it puts out, or the end of the format. */
  method OneStep(fmt: string, i: nat, va: Va, k: nat, buffer: array<char>, n: nat, ghost out: string, ghost all: string)
    returns (stop: bool, i': nat, k': nat, n': nat, ghost out': string)
    requires i < |fmt| && n < buffer.Length && Holds(buffer[..], n, out) && Pending(all, out, fmt, i, va, k)
    modifies buffer
    ensures n' < buffer.Length
    ensures stop ==> Holds(buffer[..], n', all)
    ensures !stop ==> i < i' <= |fmt| && Holds(buffer[..], n', out') && Pending(all, out', fmt, i', va, k')
  {
    hide Pending, Next, Holds, Numeral, Full;
    ghost var p := Next(fmt[i..], va, k);
    if p.Piece? { PendingStep(all, out, fmt, i, va, k, p); } else { PendingEnd(all, out, fmt, i, va, k); }
    PieceAt(fmt, i, va, k);
    var skip, args;
    if fmt[i] != '%' {
      stop, skip, args := false, 1, 0;
      n' := Putc(fmt[i], buffer, n, out);
    } else {
      stop, skip, args, n' := Directive(fmt, i, va, k, buffer, n, out);
    }
    InBounds(buffer[..], n', if stop then out else out + p.text);
    i', k' := i + skip, k + args;
    out' := if stop then out else out + p.text;
  }
}
