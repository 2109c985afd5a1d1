/**
 The characters drivers/screen.c sends through printk and port_write_ch, and
 the terminal that reads them: cursor positioning is the control function CUP,
 section 8.3.21 of ECMA-48, with its parameters as libs/printk.c formats them.
 */
module Terminal {
  import opened Prelude
  import opened Numerals
  import opened Printk
  import S = Screen

  const ESC: char := 27 as char

  /** How far the terminal has read into a control sequence. */
  datatype Parser = Ground | Escape | Line(n: nat) | Column(n: nat, m: nat)

  function Digit10(c: char): Option<nat> {
    if '0' <= c <= '9' then Some((c - '0') as nat) else None
  }

  /** One character arrives; a sequence other than CSI Pn ; Pn H is dropped. */
  function Feed(t: S.Term, p: Parser, c: char): (S.Term, Parser) {
    match p
    case Ground => if c == ESC then (t, Escape) else (S.Put(t, c), Ground)
    case Escape => (t, if c == '[' then Line(0) else Ground)
    case Line(n) =>
      if Digit10(c).Some? then (t, Line(10 * n + Digit10(c).value))
      else (t, if c == ';' then Column(n, 0) else Ground)
    case Column(n, m) =>
      if Digit10(c).Some? then (t, Column(n, 10 * m + Digit10(c).value))
      else if c == 'H' then (S.MoveTo(t, m, n), Ground)
      else (t, Ground)
  }

  function FeedAll(t: S.Term, p: Parser, text: string): (S.Term, Parser)
    decreases |text|
  {
    if text == [] then (t, p)
    else
      var (t1, p1) := Feed(t, p, text[0]);
      FeedAll(t1, p1, text[1..])
  }

  lemma {:induction false} FeedConcat(t: S.Term, p: Parser, a: string, b: string)
    ensures FeedAll(t, p, a + b) == var (t1, p1) := FeedAll(t, p, a); FeedAll(t1, p1, b)
    decreases |a|
  {
    if a == [] {
      assert a + b == b;
    } else {
      assert (a + b)[0] == a[0] && (a + b)[1..] == a[1..] + b;
      var (t1, p1) := Feed(t, p, a[0]);
      FeedConcat(t1, p1, a[1..], b);
    }
  }

  lemma {:induction false} DigitsDecimal(n: nat)
    ensures forall i :: 0 <= i < |Digits(n, 10, false)| ==> '0' <= Digits(n, 10, false)[i] <= '9'
  {
    if n >= 10 {
      DigitsDecimal(n / 10);
    }
  }

  /** A run of digits is a parameter: its value is what atoi would read. */
  lemma {:induction false} FeedDigits(t: S.Term, p: Parser, ds: string)
    requires (p.Line? || p.Column?) && forall i :: 0 <= i < |ds| ==> '0' <= ds[i] <= '9'
    ensures var start := if p.Line? then p.n else p.m;
      && Accumulate(ds, start) >= 0
      && FeedAll(t, p, ds) == (t, if p.Line? then Line(Accumulate(ds, start)) else Column(p.n, Accumulate(ds, start)))
    decreases |ds|
  {
    if ds != [] {
      var d := Digit10(ds[0]).value;
      assert d == ds[0] as int - '0' as int;
      FeedDigits(t, if p.Line? then Line(10 * p.n + d) else Column(p.n, 10 * p.m + d), ds[1..]);
    }
  }

  lemma FeedNumber(t: S.Term, p: Parser, n: Int32)
    requires n >= 0 && (p == Line(0) || (p.Column? && p.m == 0))
    ensures FeedAll(t, p, Numeral(n, 10, false, false, 0)) == (t, if p.Line? then Line(n) else Column(p.n, n))
  {
    var ds := Digits(n, 10, false);
    assert Numeral(n, 10, false, false, 0) == ds;
    DigitsDecimal(n);
    AccumulateDigits(n);
    hide Digits, Accumulate, Numeral;
    FeedDigits(t, p, ds);
  }

  /** The words vt100_move_cursor passes to printk. */
  function MoveArgs(x: Int32, y: Int32): Va {
    Va(k => if k == 0 then 27 else if k == 1 then y else x, _ => "")
  }

  const MOVE: string := "%c[%d;%dH"

  lemma FullPlain(c: char, rest: string, va: Va, k: nat)
    requires c != '%'
    ensures Full([c] + rest, va, k) == [c] + Full(rest, va, k)
  {
    assert ([c] + rest)[1..] == rest;
  }

  lemma FullConvert(ch: char, fmt: string, rest: string, va: Va, k: nat)
    requires ch != '0' && fmt == ['%', ch] + rest
    ensures var p := Convert(ch, 0, 2, va, k);
      p.Piece? && Full(fmt, va, k) == p.text + Full(rest, va, k + p.args)
  {
    hide Numeral;
    assert fmt[2..] == rest;
    assert Next(fmt, va, k) == Convert(ch, 0, 2, va, k);
  }

  lemma FullDecimal(fmt: string, rest: string, va: Va, k: nat)
    requires fmt == "%d" + rest
    ensures Full(fmt, va, k) == Numeral(va.word(k), 10, false, false, 0) + Full(rest, va, k + 1)
  {
    hide Numeral, Full;
    FullConvert('d', fmt, rest, va, k);
  }

  lemma FullChar(fmt: string, rest: string, va: Va, k: nat)
    requires fmt == "%c" + rest && va.word(k) == 27
    ensures Full(fmt, va, k) == [ESC] + Full(rest, va, k + 1)
  {
    hide Numeral, Full;
    FullConvert('c', fmt, rest, va, k);
  }

  /** From the column on. */
  lemma ColumnText(va: Va, x: Int32)
    requires va.word(2) == x
    ensures Full(";%dH", va, 2) == ";" + (Numeral(x, 10, false, false, 0) + "H")
  {
    hide Numeral;
    assert Full("", va, 3) == "" && "H" + "" == "H";
    hide Full;
    FullPlain('H', "", va, 3);
    assert "%d" + "H" == "%dH" && ";" + "%dH" == ";%dH";
    FullDecimal("%dH", "H", va, 2);
    FullPlain(';', "%dH", va, 2);
  }

  /** From the line on, `rest` being what follows it. */
  lemma LineText(va: Va, y: Int32, rest: string)
    requires va.word(0) == 27 && va.word(1) == y && Full(";%dH", va, 2) == rest
    ensures Full(MOVE, va, 0) == [ESC] + ("[" + (Numeral(y, 10, false, false, 0) + rest))
  {
    hide Numeral, Full;
    assert "%d" + ";%dH" == "%d;%dH" && "[" + "%d;%dH" == "[%d;%dH" && "%c" + "[%d;%dH" == MOVE;
    FullDecimal("%d;%dH", ";%dH", va, 1);
    FullPlain('[', "%d;%dH", va, 1);
    FullChar(MOVE, "[%d;%dH", va, 0);
  }

  lemma MoveText(x: Int32, y: Int32)
    ensures Full(MOVE, MoveArgs(x, y), 0)
         == [ESC] + ("[" + (Numeral(y, 10, false, false, 0) + (";" + (Numeral(x, 10, false, false, 0) + "H"))))
  {
    var va := MoveArgs(x, y);
    assert va.word(0) == 27 && va.word(1) == y && va.word(2) == x;
    hide Numeral, Full, MoveArgs;
    ColumnText(va, x);
    LineText(va, y, ";" + (Numeral(x, 10, false, false, 0) + "H"));
  }

  /** What printk sends for vt100_move_cursor(x, y) moves the cursor of the terminal there. */
  lemma MoveCursor(t: S.Term, x: Int32, y: Int32)
    requires x >= 0 && y >= 0
    ensures FeedAll(t, Ground, Full(MOVE, MoveArgs(x, y), 0)) == (S.MoveTo(t, x, y), Ground)
  {
    MoveText(x, y);
    var nx, ny := Numeral(x, 10, false, false, 0), Numeral(y, 10, false, false, 0);
    hide Full, Numeral, S.MoveTo;
    FeedConcat(t, Ground, [ESC], "[" + (ny + (";" + (nx + "H"))));
    FeedConcat(t, Escape, "[", ny + (";" + (nx + "H")));
    FeedConcat(t, Line(0), ny, ";" + (nx + "H"));
    FeedNumber(t, Line(0), y);
    FeedConcat(t, Line(y), ";", nx + "H");
    FeedConcat(t, Column(y, 0), nx, "H");
    FeedNumber(t, Column(y, 0), x);
    FeedOne(t, Ground, ESC);
    FeedOne(t, Escape, '[');
    FeedOne(t, Line(y), ';');
    FeedOne(t, Column(y, x), 'H');
  }

  lemma FeedOne(t: S.Term, p: Parser, c: char)
    ensures FeedAll(t, p, [c]) == Feed(t, p, c)
  {
    assert [c][1..] == [];
  }

  // -------------------------------------------------------------- a whole refresh

  function MoveTextOf(x: Int32, y: Int32): string {
    Full(MOVE, MoveArgs(x, y), 0)
  }

  /** Everything screen_reflush sends from cell k on. */
  function RefreshText(s: S.State, k: nat): string
    requires k <= S.CELLS
    decreases S.CELLS - k
  {
    if k == S.CELLS then ""
    else
      (if s.new'[k] != s.old'[k] then MoveTextOf(k % S.WIDTH + 1, k / S.WIDTH + 1) + [s.new'[k]] else "")
      + RefreshText(s, k + 1)
  }

  lemma PaintText(t: S.Term, k: nat, c: char)
    requires k < S.CELLS && c != ESC
    ensures FeedAll(t, Ground, MoveTextOf(k % S.WIDTH + 1, k / S.WIDTH + 1) + [c]) == (S.Paint(t, k, c), Ground)
  {
    var x, y := k % S.WIDTH + 1, k / S.WIDTH + 1;
    MoveCursor(t, x, y);
    hide Full, S.MoveTo, S.Put;
    FeedConcat(t, Ground, MoveTextOf(x, y), [c]);
    FeedOne(S.MoveTo(t, x, y), Ground, c);
  }

  /** No cell of the buffer would be taken for the start of a control sequence. */
  predicate Printable(g: S.Grid) {
    forall k {:trigger g[k]} :: 0 <= k < S.CELLS ==> g[k] != ESC
  }

  lemma {:induction false} RefreshSends(s: S.State, k: nat)
    requires k <= S.CELLS && Printable(s.new')
    ensures FeedAll(s.term, Ground, RefreshText(s, k)) == (S.RefreshFrom(s, k).term, Ground)
    decreases S.CELLS - k
  {
    if k < S.CELLS {
      var s1 := S.RefreshCell(s, k);
      var rest := RefreshText(s, k + 1);
      TextFrame(s, s1, k + 1);
      RefreshSends(s1, k + 1);
      if s.new'[k] != s.old'[k] {
        var here := MoveTextOf(k % S.WIDTH + 1, k / S.WIDTH + 1) + [s.new'[k]];
        PaintText(s.term, k, s.new'[k]);
        hide MoveTextOf, S.Paint, S.RefreshFrom;
        FeedConcat(s.term, Ground, here, rest);
      } else {
        assert "" + rest == rest;
      }
    }
  }

  /** Painting a cell does not change what is sent for the later ones. */
  lemma {:induction false} TextFrame(s: S.State, r: S.State, k: nat)
    requires k <= S.CELLS && r.new' == s.new' && forall j :: k <= j < S.CELLS ==> r.old'[j] == s.old'[j]
    ensures RefreshText(r, k) == RefreshText(s, k)
    decreases S.CELLS - k
  {
    if k < S.CELLS {
      TextFrame(s, r, k + 1);
    }
  }

  /**
   The characters a refresh sends, read by the terminal one by one, leave it as
   the model of the refresh says, cursor included.
   */
  lemma ReflushSends(s: S.State)
    requires Printable(s.new') && 0 <= s.x < 0x8000_0000 && 0 <= s.y < 0x8000_0000
    ensures FeedAll(s.term, Ground, RefreshText(s, 0) + MoveTextOf(s.x, s.y)) == (S.Reflush(s).term, Ground)
  {
    RefreshSends(s, 0);
    SameCursor(s, 0);
    var t := S.RefreshFrom(s, 0).term;
    MoveCursor(t, s.x, s.y);
    hide S.RefreshFrom, Full, RefreshText;
    FeedConcat(s.term, Ground, RefreshText(s, 0), MoveTextOf(s.x, s.y));
  }

  lemma {:induction false} SameCursor(s: S.State, k: nat)
    requires k <= S.CELLS
    ensures S.RefreshFrom(s, k).x == s.x && S.RefreshFrom(s, k).y == s.y
    decreases S.CELLS - k
  {
    if k < S.CELLS {
      SameCursor(S.RefreshCell(s, k), k + 1);
    }
  }
}
