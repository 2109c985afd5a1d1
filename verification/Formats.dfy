/**
 What a format of libs/printk.c means, directive by directive: which text a
 reader finds for which argument. Numbers are judged by the value they read
 back as, not by the conversion that made them.
 */
module Formats {
  import opened Prelude
  import opened Numerals
  import opened Printk

  // ------------------------------------------------------------------- numbers

  /** A digit of the radix, in the case asked for. */
  predicate IsDigit(c: char, radix: nat, upper: bool) {
    '0' <= c <= '9' || (radix == 16 && (if upper then 'A' <= c <= 'F' else 'a' <= c <= 'f'))
  }

  /** `t` is the number n in that radix, with zeros in front up to `pad` digits and no others. */
  ghost predicate ReadsAs(t: string, n: nat, radix: nat, upper: bool, pad: nat) {
    && t != [] && |t| >= pad && Value(t, radix) == n
    && (forall i :: 0 <= i < |t| ==> IsDigit(t[i], radix, upper))
    && (|t| > pad && |t| > 1 ==> t[0] != '0')
  }

  lemma {:induction false} DigitsAre(n: nat, radix: nat, upper: bool)
    requires radix == 10 || radix == 16
    ensures forall i :: 0 <= i < |Digits(n, radix, upper)| ==> IsDigit(Digits(n, radix, upper)[i], radix, upper)
  {
    if n >= radix {
      DigitsAre(n / radix, radix, upper);
    }
  }

  /** Only zero has a leading zero. */
  lemma NoLeadingZero(n: nat, radix: nat, upper: bool)
    requires radix == 10 || radix == 16
    ensures var ds := Digits(n, radix, upper); |ds| > 1 ==> ds[0] != '0'
  {
    DigitsValue(n, radix, upper);
    assert n == 0 ==> |Digits(n, radix, upper)| == 1;
    hide Digits, Value;
    assert DigitValue('0') == 0;
  }

  lemma PaddedReadsAs(n: nat, radix: nat, upper: bool, pad: nat)
    requires radix == 10 || radix == 16
    ensures ReadsAs(Zeros(pad - |Digits(n, radix, upper)|) + Digits(n, radix, upper), n, radix, upper, pad)
  {
    hide Digits, Value, Zeros;
    PaddedReads(n, radix, upper, pad);
    DigitsAre(n, radix, upper);
    NoLeadingZero(n, radix, upper);
    Padding(Zeros(pad - |Digits(n, radix, upper)|), Digits(n, radix, upper), n, radix, upper, pad);
  }

  lemma Padding(zs: string, ds: string, n: nat, radix: nat, upper: bool, pad: nat)
    requires ds != [] && |zs| == (if pad > |ds| then pad - |ds| else 0) && (forall i :: 0 <= i < |zs| ==> zs[i] == '0')
    requires Value(zs + ds, radix) == n && (|ds| > 1 ==> ds[0] != '0')
    requires forall i :: 0 <= i < |ds| ==> IsDigit(ds[i], radix, upper)
    ensures ReadsAs(zs + ds, n, radix, upper, pad)
  {
    hide Value;
  }

  /** A signed number: a minus sign in front of the magnitude, or the number itself. */
  ghost predicate ReadsSigned(t: string, w: Int32, pad: nat) {
    if w < 0 then t != [] && t[0] == '-' && ReadsAs(t[1..], -(w as int), 10, false, pad) else ReadsAs(t, w, 10, false, pad)
  }

  // ---------------------------------------------------------------- directives

  predicate TakesArgument(ch: char) {
    ch == 'u' || ch == 'd' || ch == 'x' || ch == 'X' || ch == 'c' || ch == 's'
  }

  /** What a directive with this conversion character and padding has to put out for argument k. */
  ghost predicate Says(ch: char, pad: nat, va: Va, k: nat, t: string) {
    match ch
    case 'd' => ReadsSigned(t, va.word(k), pad)
    case 'u' => ReadsAs(t, ToUnsigned(va.word(k)), 10, false, pad)
    case 'x' => ReadsAs(t, ToUnsigned(va.word(k)), 16, false, pad)
    case 'X' => ReadsAs(t, ToUnsigned(va.word(k)), 16, true, pad)
    case 'c' => |t| == 1 && t[0] as int == ToUnsigned(va.word(k)) % 256
    case 's' => t == va.text(va.word(k))
    case _ => t == [ch]
  }

  lemma NumeralSays(w: Int32, radix: nat, upper: bool, unsig: bool, pad: nat)
    requires radix == 10 || radix == 16
    ensures var t := Numeral(w, radix, upper, unsig, pad);
      if w < 0 && !unsig then t != [] && t[0] == '-' && ReadsAs(t[1..], -(w as int), radix, upper, pad)
      else ReadsAs(t, ToUnsigned(w), radix, upper, pad)
  {
    hide ReadsAs, Digits, Zeros;
    var n := Magnitude(w, unsig);
    PaddedReadsAs(n, radix, upper, pad);
    SignAndBody(Zeros(pad - |Digits(n, radix, upper)|), Digits(n, radix, upper));
  }

  lemma SignAndBody(zs: string, ds: string)
    ensures var t := "-" + zs + ds; t != [] && t[0] == '-' && t[1..] == zs + ds
    ensures "" + zs + ds == zs + ds
  {
  }

  lemma ConvertSays(ch: char, pad: nat, skip: nat, va: Va, k: nat)
    ensures var p := Convert(ch, pad, skip, va, k);
      p.Piece? && p.skip == skip && Says(ch, pad, va, k, p.text) && p.args == if TakesArgument(ch) then 1 else 0
  {
    hide Numeral, ReadsAs;
    var w := va.word(k);
    NumeralSays(w, 10, false, ch == 'u', pad);
    NumeralSays(w, 16, ch == 'X', true, pad);
  }

  /** A directive as it is written: "%ch", or "%0pch" with p the padding. */
  datatype Spec = Bare(ch: char) | Padded(p: char, ch: char)

  predicate Proper(d: Spec) {
    d.Bare? ==> d.ch != '0'
  }

  function Written(d: Spec): string {
    match d
    case Bare(ch) => ['%', ch]
    case Padded(p, ch) => ['%', '0', p, ch]
  }

  /** One digit of padding; anything else counts as none. */
  function PadOf(d: Spec): nat {
    if d.Padded? && '0' <= d.p <= '9' then (d.p - '0') as nat else 0
  }

  function ArgsOf(d: Spec): nat {
    if TakesArgument(d.ch) then 1 else 0
  }

  /** The text of a directive at the head of a format, and the rest of the format after it. */
  lemma DirectiveSays(d: Spec, rest: string, va: Va, k: nat) returns (t: string)
    requires Proper(d)
    ensures Full(Written(d) + rest, va, k) == t + Full(rest, va, k + ArgsOf(d))
    ensures Says(d.ch, PadOf(d), va, k, t)
  {
    hide Convert, Says;
    var fmt := Written(d) + rest;
    var skip := if d.Bare? then 2 else 4;
    ConvertSays(d.ch, PadOf(d), skip, va, k);
    NextIs(d, rest, va, k);
    t := Convert(d.ch, PadOf(d), skip, va, k).text;
  }

  lemma NextIs(d: Spec, rest: string, va: Va, k: nat)
    requires Proper(d)
    ensures var fmt, skip := Written(d) + rest, if d.Bare? then 2 else 4;
      fmt[skip..] == rest && Next(fmt, va, k) == Convert(d.ch, PadOf(d), skip, va, k)
  {
    hide Convert;
    var fmt := Written(d) + rest;
    assert fmt[0] == '%' && (if d.Bare? then fmt[1] == d.ch else fmt[1] == '0' && fmt[2] == d.p && fmt[3] == d.ch);
  }

  /** Any other character is copied. */
  lemma PlainSays(c: char, rest: string, va: Va, k: nat)
    requires c != '%'
    ensures Full([c] + rest, va, k) == [c] + Full(rest, va, k)
  {
    assert ([c] + rest)[1..] == rest;
  }

  // -------------------------------------------------------------- whole formats

  /** A format written as a sequence of directives and plain characters. */
  datatype Token = Char(c: char) | Directive(d: Spec)

  predicate ProperToken(x: Token) {
    match x
    case Char(c) => c != '%'
    case Directive(d) => Proper(d)
  }

  predicate ProperFormat(xs: seq<Token>) {
    forall i :: 0 <= i < |xs| ==> ProperToken(xs[i])
  }

  function WrittenToken(x: Token): string {
    match x
    case Char(c) => [c]
    case Directive(d) => Written(d)
  }

  function WrittenAll(xs: seq<Token>): string {
    if xs == [] then "" else WrittenToken(xs[0]) + WrittenAll(xs[1..])
  }

  function ArgsToken(x: Token): nat {
    match x
    case Char(_) => 0
    case Directive(d) => ArgsOf(d)
  }

  /** How many arguments the tokens use. */
  function ArgsAll(xs: seq<Token>): nat {
    if xs == [] then 0 else ArgsToken(xs[0]) + ArgsAll(xs[1..])
  }

  ghost predicate SaysToken(x: Token, va: Va, k: nat, t: string) {
    match x
    case Char(c) => t == [c]
    case Directive(d) => Says(d.ch, PadOf(d), va, k, t)
  }

  /** `ts` are the texts of the tokens, each with the argument that is its turn. */
  ghost predicate SaysAll(xs: seq<Token>, va: Va, k: nat, ts: seq<string>) {
    |ts| == |xs| && forall i :: 0 <= i < |xs| ==> SaysToken(xs[i], va, k + ArgsAll(xs[..i]), ts[i])
  }

  function Joined(ts: seq<string>): string {
    if ts == [] then "" else ts[0] + Joined(ts[1..])
  }

  lemma TokenSays(x: Token, rest: string, va: Va, k: nat) returns (t: string)
    requires ProperToken(x)
    ensures Full(WrittenToken(x) + rest, va, k) == t + Full(rest, va, k + ArgsToken(x))
    ensures SaysToken(x, va, k, t)
  {
    hide Full, Says, Written;
    match x
    case Char(c) =>
      PlainSays(c, rest, va, k);
      t := [c];
    case Directive(d) =>
      t := DirectiveSays(d, rest, va, k);
  }

  /**
   For every format: the result is the texts of its tokens one after the other,
   each right for the argument whose turn it is, followed by what the rest of the
   format yields from the next argument on.
   */
  lemma {:induction false} FormatSays(xs: seq<Token>, rest: string, va: Va, k: nat) returns (ts: seq<string>)
    requires ProperFormat(xs)
    ensures SaysAll(xs, va, k, ts)
    ensures Full(WrittenAll(xs) + rest, va, k) == Joined(ts) + Full(rest, va, k + ArgsAll(xs))
    decreases |xs|
  {
    hide Full, SaysToken, WrittenToken, ArgsToken;
    if xs == [] {
      ts := [];
      assert WrittenAll(xs) + rest == rest && "" + Full(rest, va, k) == Full(rest, va, k);
    } else {
      var more := WrittenAll(xs[1..]) + rest;
      var t := TokenSays(xs[0], more, va, k);
      assert WrittenAll(xs) + rest == WrittenToken(xs[0]) + more;
      var us := FormatSays(xs[1..], rest, va, k + ArgsToken(xs[0]));
      ts := [t] + us;
      assert t + (Joined(us) + Full(rest, va, k + ArgsAll(xs))) == (t + Joined(us)) + Full(rest, va, k + ArgsAll(xs));
      SaysCons(xs, va, k, t, us);
    }
  }

  lemma SaysCons(xs: seq<Token>, va: Va, k: nat, t: string, us: seq<string>)
    requires xs != [] && SaysToken(xs[0], va, k, t) && SaysAll(xs[1..], va, k + ArgsToken(xs[0]), us)
    ensures SaysAll(xs, va, k, [t] + us)
  {
    hide SaysToken, ArgsToken;
    forall i | 0 <= i < |xs|
      ensures SaysToken(xs[i], va, k + ArgsAll(xs[..i]), ([t] + us)[i])
    {
      if i > 0 {
        assert SaysToken(xs[1..][i - 1], va, k + ArgsToken(xs[0]) + ArgsAll(xs[1..][..i - 1]), us[i - 1]);
        assert xs[..i][1..] == xs[1..][..i - 1] && xs[..i][0] == xs[0];
      }
    }
  }

  /** What may be left of a format after its last whole token: nothing, or a directive cut short. */
  predicate Tail(rest: string) {
    rest == "" || rest == "%" || rest == "%0" || (|rest| == 3 && rest[0] == '%' && rest[1] == '0')
  }

  /** A directive cut short by the end of the format puts out nothing. */
  lemma CutShort(rest: string, va: Va, k: nat)
    requires Tail(rest)
    ensures Full(rest, va, k) == ""
  {
  }

  /** Every string is a format: tokens, and possibly a directive cut short. */
  lemma {:induction false} Parses(fmt: string) returns (xs: seq<Token>, rest: string)
    ensures ProperFormat(xs) && Tail(rest) && fmt == WrittenAll(xs) + rest
    decreases |fmt|
  {
    hide WrittenToken;
    if Tail(fmt) {
      xs, rest := [], fmt;
    } else {
      var x, n := FirstToken(fmt);
      var ys;
      ys, rest := Parses(fmt[n..]);
      xs := [x] + ys;
      assert fmt == fmt[..n] + fmt[n..];
      assert fmt[..n] + (WrittenAll(ys) + rest) == (fmt[..n] + WrittenAll(ys)) + rest;
    }
  }

  lemma FirstToken(fmt: string) returns (x: Token, n: nat)
    requires !Tail(fmt)
    ensures ProperToken(x) && 0 < n <= |fmt| && WrittenToken(x) == fmt[..n]
  {
    if fmt[0] != '%' {
      x, n := Char(fmt[0]), 1;
    } else if fmt[1] != '0' {
      x, n := Directive(Bare(fmt[1])), 2;
    } else {
      assert fmt[..2] == "%0";
      x, n := Directive(Padded(fmt[2], fmt[3])), 4;
    }
  }

  /** Any format whatever, from the first argument on: the texts of its tokens, each right, and nothing else. */
  lemma EveryFormat(fmt: string, va: Va) returns (xs: seq<Token>, rest: string, ts: seq<string>)
    ensures ProperFormat(xs) && Tail(rest) && fmt == WrittenAll(xs) + rest
    ensures SaysAll(xs, va, 0, ts) && Full(fmt, va, 0) == Joined(ts)
  {
    hide Full, SaysAll;
    xs, rest := Parses(fmt);
    ts := FormatSays(xs, rest, va, 0);
    CutShort(rest, va, ArgsAll(xs));
    assert Joined(ts) + "" == Joined(ts);
  }
}
