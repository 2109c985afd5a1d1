/**
 drivers/screen.c: a screen buffer, a cache of what the terminal shows, and a
 refresh that repaints only the cells that differ. The terminal is a grid with
 a cursor: it understands cursor positioning and stores what it is sent.
 */
module Screen {
  import opened Prelude

  const WIDTH: nat := 80
  const HEIGHT: nat := 30
  const CELLS: nat := WIDTH * HEIGHT
  const SCROLL_FROM: nat := HEIGHT / 2 + 1

  type Grid = s: seq<char> | |s| == CELLS witness seq(CELLS, _ => '\0')

  // ------------------------------------------------------------------ terminal

  datatype Term = Term(cells: Grid, row: nat, col: nat)

  /** A parameter of cursor positioning: 1-based, 0 meaning 1, and kept on the screen. */
  function Clamp(n: int, size: nat): nat
    requires size > 0
  {
    if n <= 1 then 0 else if n > size then size - 1 else n - 1
  }

  /** vt100_move_cursor(x, y) */
  function MoveTo(t: Term, x: int, y: int): Term {
    t.(row := Clamp(y, HEIGHT), col := Clamp(x, WIDTH))
  }

  /** port_write_ch */
  function Put(t: Term, c: char): Term {
    if t.row < HEIGHT && t.col < WIDTH then
      assert t.row * WIDTH + t.col < CELLS;
      t.(cells := t.cells[t.row * WIDTH + t.col := c], col := t.col + 1)
    else t
  }

  function Paint(t: Term, k: nat, c: char): Term
    requires k < CELLS
  {
    Put(MoveTo(t, k % WIDTH + 1, k / WIDTH + 1), c)
  }

  /** Moving to cell k and writing changes exactly cell k. */
  lemma PaintsCell(t: Term, k: nat, c: char)
    requires k < CELLS
    ensures Paint(t, k, c).cells == t.cells[k := c]
  {
    assert k / WIDTH < HEIGHT;
    assert k / WIDTH * WIDTH + k % WIDTH == k;
  }

  // --------------------------------------------------------------------- state

  datatype State = State(new': Grid, old': Grid, x: int, y: int, term: Term)

  /** The refresh from cell k on. */
  function RefreshFrom(s: State, k: nat): State
    requires k <= CELLS
    decreases CELLS - k
  {
    if k == CELLS then s
    else RefreshFrom(RefreshCell(s, k), k + 1)
  }

  function RefreshCell(s: State, k: nat): State
    requires k < CELLS
  {
    if s.new'[k] != s.old'[k] then s.(term := Paint(s.term, k, s.new'[k]), old' := s.old'[k := s.new'[k]]) else s
  }

  /** screen_reflush */
  function Reflush(s: State): State {
    var r := RefreshFrom(s, 0);
    r.(term := MoveTo(r.term, r.x, r.y))
  }

  /** screen_clear; its two arguments are ignored. */
  function Clear(s: State): State {
    Reflush(s.(new' := seq(CELLS, _ => ' '), old' := seq(CELLS, _ => '\0'), x := 0, y := 0))
  }

  /** screen_scroll(SCREEN_HEIGHT / 2 + 1, SCREEN_HEIGHT - 1) */
  function Scroll(s: State): State {
    s.(old' := seq(CELLS, k requires 0 <= k < CELLS => if k < SCROLL_FROM * WIDTH then s.old'[k] else '\0'),
       new' := seq(CELLS, k requires 0 <= k < CELLS =>
                 if k < SCROLL_FROM * WIDTH then s.new'[k]
                 else if k >= (HEIGHT - 1) * WIDTH then ' ' else s.new'[k + WIDTH]))
  }

  predicate OnScreen(s: State) {
    0 <= s.x < WIDTH && 0 <= s.y < HEIGHT
  }

  function CellOf(s: State): nat
    requires OnScreen(s)
    ensures CellOf(s) < CELLS
  {
    s.y * WIDTH + s.x
  }

  /** The first half of screen_write_ch: the character itself. */
  function Type(s: State, ch: char): State
    requires OnScreen(s)
  {
    if ch == '\n' || ch == 13 as char then s.(x := 0, y := s.y + 1)
    else if ch == 8 as char then
      if s.x > 0 then
        var s1 := s.(x := s.x - 1);
        s1.(new' := s1.new'[CellOf(s1) := ' '])
      else s
    else s.(new' := s.new'[CellOf(s) := ch], x := s.x + 1)
  }

  /** The second half: back onto the screen. */
  function Wrap(s: State): State {
    var s1 := if s.x < 0 then s.(x := 0) else s;
    var s2 := if s1.x >= WIDTH then s1.(y := s1.y + 1, x := 0) else s1;
    var s3 := if s2.y < 0 then s2.(y := 0) else s2;
    if s3.y >= HEIGHT then Scroll(s3).(x := 0, y := HEIGHT - 1) else s3
  }

  function WriteCh(s: State, ch: char): State
    requires OnScreen(s)
  {
    Wrap(Type(s, ch))
  }

  // ----------------------------------------------------------------- invariant

  /** What the cache claims to know about the terminal is true. */
  ghost predicate Cached(s: State) {
    forall k {:trigger s.old'[k]} :: 0 <= k < CELLS && s.old'[k] != '\0' ==> s.old'[k] == s.term.cells[k]
  }

  /** Every cell has something to show. */
  ghost predicate Filled(s: State) {
    forall k {:trigger s.new'[k]} :: 0 <= k < CELLS ==> s.new'[k] != '\0'
  }

  /** A cell the refresh takes for up to date although the terminal shows something else. */
  predicate Stale(s: State, k: nat)
    requires k < CELLS
  {
    s.new'[k] == '\0' && s.old'[k] == '\0' && s.term.cells[k] != '\0'
  }

  /** What cell k shows after a refresh. */
  function Shown(s: State, k: nat): char
    requires k < CELLS
  {
    if Stale(s, k) then s.term.cells[k] else s.new'[k]
  }

  lemma RefreshCellKeeps(s: State, k: nat)
    requires k < CELLS && Cached(s)
    ensures var r := RefreshCell(s, k);
      Cached(r) && r.new' == s.new' && r.x == s.x && r.y == s.y && r.term.cells[k] == Shown(s, k)
      && r.old'[k] == s.new'[k] && (forall j :: 0 <= j < CELLS && j != k ==> r.term.cells[j] == s.term.cells[j] && r.old'[j] == s.old'[j])
  {
    PaintsCell(s.term, k, s.new'[k]);
  }

  /** After the loop every cell from k on shows the buffer, stale ones aside. */
  lemma {:induction false} RefreshShows(s: State, k: nat)
    requires k <= CELLS && Cached(s)
    ensures var r := RefreshFrom(s, k);
      && Cached(r) && r.new' == s.new' && r.x == s.x && r.y == s.y
      && (forall j :: k <= j < CELLS ==> r.term.cells[j] == Shown(s, j) && r.old'[j] == s.new'[j])
      && (forall j :: 0 <= j < k ==> r.term.cells[j] == s.term.cells[j] && r.old'[j] == s.old'[j])
    decreases CELLS - k
  {
    if k < CELLS {
      RefreshCellKeeps(s, k);
      hide RefreshCell, Cached;
      RefreshShows(RefreshCell(s, k), k + 1);
    }
  }

  /** Painting every cell, changed or not. */
  function RedrawFrom(t: Term, g: Grid, k: nat): Term
    requires k <= CELLS
    decreases CELLS - k
  {
    if k == CELLS then t else RedrawFrom(Paint(t, k, g[k]), g, k + 1)
  }

  lemma {:induction false} RedrawShows(t: Term, g: Grid, k: nat)
    requires k <= CELLS
    ensures forall j :: k <= j < CELLS ==> RedrawFrom(t, g, k).cells[j] == g[j]
    ensures forall j :: 0 <= j < k ==> RedrawFrom(t, g, k).cells[j] == t.cells[j]
    decreases CELLS - k
  {
    if k < CELLS {
      PaintsCell(t, k, g[k]);
      hide Paint;
      RedrawShows(Paint(t, k, g[k]), g, k + 1);
    }
  }

  /**
   The dirty-cell refresh leaves the terminal showing the buffer, as a full
   redraw would, exactly when no cell is stale.
   */
  lemma ReflushIsRedrawIff(s: State)
    requires Cached(s)
    ensures RedrawFrom(s.term, s.new', 0).cells == s.new'
    ensures Reflush(s).term.cells == s.new' <==> forall k: nat :: k < CELLS ==> !Stale(s, k)
    ensures Cached(Reflush(s)) && Reflush(s).old' == s.new' && Reflush(s).new' == s.new'
    ensures Reflush(s).x == s.x && Reflush(s).y == s.y
  {
    RefreshShows(s, 0);
    RedrawShows(s.term, s.new', 0);
    if Reflush(s).term.cells == s.new' {
      forall k: nat | k < CELLS
        ensures !Stale(s, k)
      {
        assert Reflush(s).term.cells[k] == Shown(s, k);
      }
    }
  }

  /** A buffer without NULs has no stale cell. */
  lemma ReflushIsRedraw(s: State)
    requires Cached(s) && Filled(s)
    ensures Reflush(s).term.cells == s.new' == RedrawFrom(s.term, s.new', 0).cells
  {
    ReflushIsRedrawIff(s);
  }

  ghost predicate Ok(s: State) {
    Cached(s) && OnScreen(s)
  }

  lemma ClearKeeps(s: State)
    ensures Ok(Clear(s)) && Filled(Clear(s)) && forall k :: 0 <= k < CELLS ==> Clear(s).term.cells[k] == ' '
    ensures Clear(s).x == 0 && Clear(s).y == 0 && forall k :: 0 <= k < CELLS ==> Clear(s).new'[k] == ' '
  {
    var s1 := s.(new' := seq(CELLS, _ => ' '), old' := seq(CELLS, _ => '\0'), x := 0, y := 0);
    ReflushIsRedrawIff(s1);
    ReflushIsRedraw(s1);
  }

  lemma ScrollKeeps(s: State)
    requires Cached(s)
    ensures Cached(Scroll(s)) && (Filled(s) ==> Filled(Scroll(s)))
  {
  }

  lemma TypeKeeps(s: State, ch: char)
    requires Ok(s)
    ensures var r := Type(s, ch); Cached(r) && 0 <= r.x <= WIDTH && 0 <= r.y <= HEIGHT && r.term == s.term
    ensures Filled(s) && ch != '\0' ==> Filled(Type(s, ch))
  {
  }

  lemma WriteChKeeps(s: State, ch: char)
    requires Ok(s)
    ensures Ok(WriteCh(s, ch)) && (Filled(s) && ch != '\0' ==> Filled(WriteCh(s, ch)))
  {
    TypeKeeps(s, ch);
    var s1 := Type(s, ch);
    hide Type, Cached, Filled, Scroll;
    var s2 := if s1.x >= WIDTH then s1.(y := s1.y + 1, x := 0) else s1;
    SameBuffers(s1, s2);
    if s2.y >= HEIGHT {
      ScrollKeeps(s2);
      SameBuffers(Scroll(s2), Scroll(s2).(x := 0, y := HEIGHT - 1));
    }
  }

  lemma SameBuffers(s: State, r: State)
    requires r.new' == s.new' && r.old' == s.old' && r.term == s.term
    ensures (Cached(s) ==> Cached(r)) && (Filled(s) ==> Filled(r))
  {
  }

  // -------------------------------------------------------- what is written where

  /** Neither newline, return nor backspace. */
  predicate Ordinary(ch: char) {
    ch != '\n' && ch != 13 as char && ch != 8 as char
  }

  /** `h` is `g` with the lower half moved up one line and a blank last line. */
  ghost predicate Scrolled(g: Grid, h: Grid) {
    forall i: nat, j: nat {:trigger Cell(h, i, j)} :: i < HEIGHT && j < WIDTH ==>
      Cell(h, i, j) == if i < SCROLL_FROM then Cell(g, i, j) else if i < HEIGHT - 1 then Cell(g, i + 1, j) else ' '
  }

  /** Column j of line i. */
  function Cell(g: Grid, i: nat, j: nat): char
    requires i < HEIGHT && j < WIDTH
  {
    assert i * WIDTH + j < CELLS;
    g[i * WIDTH + j]
  }

  lemma ScrollShows(s: State)
    ensures Scrolled(s.new', Scroll(s).new') && Scroll(s).term == s.term
  {
  }

  /** The cursor went to a new line below the screen: the lower half has moved up, and it is on the last line. */
  ghost predicate LineFed(g: Grid, r: State) {
    Scrolled(g, r.new') && r.x == 0 && r.y == HEIGHT - 1
  }

  /**
   An ordinary character goes into the cell under the cursor and no other cell
   changes; the cursor goes on to the next cell in reading order, and after the
   last one to the start of the last line, with the lower half moved up.
   */
  lemma WritesCell(s: State, ch: char)
    requires OnScreen(s) && Ordinary(ch)
    ensures var r, c := WriteCh(s, ch), CellOf(s);
      && r.term == s.term
      && (c + 1 < CELLS ==> OnScreen(r) && r.new' == s.new'[c := ch] && CellOf(r) == c + 1 && r.old' == s.old')
      && (c + 1 == CELLS ==> LineFed(s.new'[c := ch], r))
  {
    if s.x + 1 == WIDTH && s.y + 1 == HEIGHT {
      ScrollShows(Type(s, ch).(x := 0, y := HEIGHT));
    }
    hide Scroll, Scrolled;
  }

  /** Newline and return: the start of the next line, below the last one with the lower half moved up. */
  lemma FeedsLine(s: State, ch: char)
    requires OnScreen(s) && (ch == '\n' || ch == 13 as char)
    ensures var r := WriteCh(s, ch);
      && r.term == s.term && r.x == 0
      && (if s.y + 1 < HEIGHT then r == s.(x := 0, y := s.y + 1) else LineFed(s.new', r))
  {
    if s.y + 1 == HEIGHT {
      ScrollShows(s.(x := 0, y := HEIGHT));
    }
    hide Scroll, Scrolled;
  }

  /** Backspace: the cell to the left is blank and the cursor is on it; at the start of a line nothing happens. */
  lemma Erases(s: State)
    requires OnScreen(s)
    ensures var r, c := WriteCh(s, 8 as char), CellOf(s);
      if s.x == 0 then r == s
      else OnScreen(r) && c > 0 && CellOf(r) == c - 1 && r.new' == s.new'[c - 1 := ' '] && r.old' == s.old' && r.term == s.term
  {
  }

  /** A character typed and erased leaves a blank, and the cursor where it was. */
  lemma TypeThenErase(s: State, ch: char)
    requires OnScreen(s) && Ordinary(ch) && s.x + 1 < WIDTH
    ensures OnScreen(WriteCh(s, ch)) && WriteCh(WriteCh(s, ch), 8 as char) == s.(new' := s.new'[CellOf(s) := ' '])
  {
    WritesCell(s, ch);
    Erases(WriteCh(s, ch));
  }

  /** screen_write */
  function WriteText(s: State, text: string): State
    requires Ok(s)
    decreases |text|
  {
    if text == [] then s
    else
      WriteChKeeps(s, text[0]);
      WriteText(WriteCh(s, text[0]), text[1..])
  }

  /** A text without control characters that fits the screen goes into the cells from the cursor on, in order. */
  lemma {:induction false} TextGoes(s: State, text: string)
    requires Ok(s) && CellOf(s) + |text| < CELLS && forall i :: 0 <= i < |text| ==> Ordinary(text[i])
    ensures var r, c := WriteText(s, text), CellOf(s);
      && Ok(r) && r.new' == Splice(s.new', c, text) && CellOf(r) == c + |text| && r.term == s.term
      && (Filled(s) && (forall i :: 0 <= i < |text| ==> text[i] != '\0') ==> Filled(r))
    decreases |text|
  {
    if text == [] {
      assert Splice(s.new', CellOf(s), text) == s.new';
    } else {
      hide Cached, Filled, WriteCh;
      var c, s1 := CellOf(s), WriteCh(s, text[0]);
      WritesCell(s, text[0]);
      WriteChKeeps(s, text[0]);
      TextGoes(s1, text[1..]);
      assert Splice(s.new'[c := text[0]], c + 1, text[1..]) == Splice(s.new', c, text);
    }
  }

  /** After a clear, a text and a refresh the terminal shows the text, and blanks after it. */
  lemma TextShows(boot: State, text: string)
    requires |text| < CELLS && forall i :: 0 <= i < |text| ==> Ordinary(text[i]) && text[i] != '\0'
    ensures Ok(Clear(boot))
    ensures var shown := Reflush(WriteText(Clear(boot), text)).term.cells;
      shown[..|text|] == text && forall k :: |text| <= k < CELLS ==> shown[k] == ' '
  {
    ClearKeeps(boot);
    hide Clear, Reflush, WriteText, Cached, Filled;
    TextGoes(Clear(boot), text);
    ReflushIsRedraw(WriteText(Clear(boot), text));
  }

  /**
   The refresh hands the terminal the buffer's coordinates, which count from 0
   where the terminal counts from 1: its cursor ends where the buffer's is only
   at the origin.
   */
  lemma CursorShownIff(s: State)
    requires Ok(s)
    ensures var t := Reflush(s).term;
      && (t.col == s.x && t.row == s.y <==> s.x == 0 && s.y == 0)
      && t.col == (if s.x == 0 then 0 else s.x - 1) && t.row == (if s.y == 0 then 0 else s.y - 1)
  {
    RefreshShows(s, 0);
    hide RefreshFrom, Cached;
  }

  // ---------------------------------------------------------------------- runs

  datatype Op = DoClear | DoWrite(ch: char) | DoReflush | DoMove(x: int, y: int)

  /** Cursor moves stay on the screen. */
  predicate Allowed(op: Op) {
    op.DoMove? ==> 0 <= op.x < WIDTH && 0 <= op.y < HEIGHT
  }

  /** No NUL is written; screen_write, which stops at one, never does. */
  predicate Visible(op: Op) {
    op.DoWrite? ==> op.ch != '\0'
  }

  function Step(s: State, op: Op): State
    requires OnScreen(s)
  {
    match op
    case DoClear => Clear(s)
    case DoWrite(ch) => WriteCh(s, ch)
    case DoReflush => Reflush(s)
    case DoMove(x, y) => s.(x := x, y := y)
  }

  lemma StepKeeps(s: State, op: Op)
    requires Ok(s) && Allowed(op)
    ensures Ok(Step(s, op)) && (Filled(s) && Visible(op) ==> Filled(Step(s, op)))
  {
    match op
    case DoClear => ClearKeeps(s);
    case DoWrite(ch) => WriteChKeeps(s, ch);
    case DoReflush => ReflushIsRedrawIff(s);
    case DoMove(x, y) => SameBuffers(s, s.(x := x, y := y));
  }

  function Run(s: State, ops: seq<Op>): State
    requires Ok(s) && forall op :: op in ops ==> Allowed(op)
    ensures Ok(Run(s, ops))
    ensures Filled(s) && (forall op :: op in ops ==> Visible(op)) ==> Filled(Run(s, ops))
    decreases |ops|
  {
    if ops == [] then s
    else
      assert ops[0] in ops;
      StepKeeps(s, ops[0]);
      Run(Step(s, ops[0]), ops[1..])
  }

  /**
   Whatever the terminal showed at boot: after init_screen and any run of
   clears, writes (scrolls included), refreshes and moves, every cell the cache
   knows is right and the cursor is on the screen; the next refresh leaves the
   terminal equal to the buffer exactly when no cell is stale, which is always
   so when no NUL was written.
   */
  lemma RunThenRefresh(boot: State, ops: seq<Op>)
    requires forall op :: op in ops ==> Allowed(op)
    ensures Ok(Clear(boot))
    ensures var s := Run(Clear(boot), ops);
      && Ok(s) && OnScreen(Reflush(s))
      && (Reflush(s).term.cells == RedrawFrom(s.term, s.new', 0).cells <==> forall k: nat :: k < CELLS ==> !Stale(s, k))
      && ((forall op :: op in ops ==> Visible(op)) ==> Reflush(s).term.cells == s.new')
  {
    ClearKeeps(boot);
    var s := Run(Clear(boot), ops);
    ReflushIsRedrawIff(s);
    if forall op :: op in ops ==> Visible(op) {
      ReflushIsRedraw(s);
    }
  }

  /** The first cell of the last line. */
  const LAST: nat := (HEIGHT - 1) * WIDTH

  lemma NewlineForgets(s: State)
    requires Ok(s) && s.x == 0 && s.y == HEIGHT - 1
    ensures var r := WriteCh(s, '\n');
      r.x == 0 && r.y == HEIGHT - 1 && r.old'[LAST] == '\0' && r.term == s.term
  {
  }

  lemma NulHides(s: State)
    requires Ok(s) && s.x == 0 && s.y == HEIGHT - 1 && s.old'[LAST] == '\0' && s.term.cells[LAST] != '\0'
    ensures Stale(WriteCh(s, '\0'), LAST)
  {
  }

  lemma RunStep(s: State, op: Op, ops: seq<Op>)
    requires Ok(s) && forall o :: o in [op] + ops ==> Allowed(o)
    ensures Ok(Step(s, op)) && (forall o :: o in ops ==> Allowed(o)) && Run(s, [op] + ops) == Run(Step(s, op), ops)
  {
    assert op in [op] + ops;
    StepKeeps(s, op);
    assert ([op] + ops)[1..] == ops;
    assert forall o :: o in ops ==> o in [op] + ops;
  }

  /** A NUL written after a scroll is such a cell: the terminal keeps the character it showed. */
  lemma NulCanBeStale(boot: State) returns (ops: seq<Op>)
    ensures Ok(Clear(boot)) && forall op :: op in ops ==> Allowed(op)
    ensures Reflush(Run(Clear(boot), ops)).term.cells != Run(Clear(boot), ops).new'
  {
    ClearKeeps(boot);
    var s0 := Clear(boot);
    assert s0.term.cells[LAST] == ' ';
    var s1 := s0.(x := 0, y := HEIGHT - 1);
    SameBuffers(s0, s1);
    hide Clear, Run, WriteCh, Cached, Filled, Reflush;
    var a, b, c := DoMove(0, HEIGHT - 1), DoWrite('\n'), DoWrite('\0');
    ops := [a] + ([b] + ([c] + []));
    RunStep(s0, a, [b] + ([c] + []));
    RunStep(s1, b, [c] + []);
    NewlineForgets(s1);
    var s2 := WriteCh(s1, '\n');
    RunStep(s2, c, []);
    NulHides(s2);
    var s3 := WriteCh(s2, '\0');
    RunNone(s3);
    assert Stale(s3, LAST);
    ReflushIsRedrawIff(s3);
  }

  lemma RunNone(s: State)
    requires Ok(s)
    ensures Run(s, []) == s
  {
  }

  // ------------------------------------------------------------------ in place

  class Display {
    const new_screen: array<char>
    const old_screen: array<char>
    var x: int
    var y: int
    var term: Term

    ghost predicate Valid()
      reads this
    {
      new_screen.Length == CELLS && old_screen.Length == CELLS && new_screen != old_screen
    }

    ghost function Abs(): State
      reads this, new_screen, old_screen
      requires Valid()
    {
      State(new_screen[..], old_screen[..], x, y, term)
    }

    constructor (term: Term)
      ensures Valid() && fresh(new_screen) && fresh(old_screen) && this.term == term
    {
      new_screen := new char[CELLS](_ => '\0');
      old_screen := new char[CELLS](_ => '\0');
      x, y, this.term := 0, 0, term;
    }

    /** The body of the loops of screen_reflush. */
    method ReflushCell(i: nat, j: nat)
      requires Valid() && i < HEIGHT && j < WIDTH
      modifies this, old_screen
      ensures i * WIDTH + j < CELLS && Abs() == RefreshCell(old(Abs()), i * WIDTH + j)
    {
      var k := i * WIDTH + j;
      assert k / WIDTH == i && k % WIDTH == j;
      if new_screen[k] != old_screen[k] {
        term := MoveTo(term, j + 1, i + 1);
        term := Put(term, new_screen[k]);
        old_screen[k] := new_screen[k];
        assert old_screen[..] == old(old_screen[..])[k := new_screen[k]];
      }
    }

    /** screen_reflush */
    method ScreenReflush()
      requires Valid()
      modifies this, old_screen
      ensures Abs() == Reflush(old(Abs()))
    {
      hide RefreshCell;
      var i := 0;
      while i < HEIGHT
        invariant 0 <= i <= HEIGHT && i * WIDTH <= CELLS
        invariant RefreshFrom(Abs(), i * WIDTH) == RefreshFrom(old(Abs()), 0)
      {
        var j := 0;
        while j < WIDTH
          invariant 0 <= j <= WIDTH && i * WIDTH + j <= CELLS
          invariant RefreshFrom(Abs(), i * WIDTH + j) == RefreshFrom(old(Abs()), 0)
        {
          ReflushCell(i, j);
          j := j + 1;
        }
        i := i + 1;
      }
      term := MoveTo(term, x, y);
    }

    /** screen_clear */
    method ScreenClear()
      requires Valid()
      modifies this, new_screen, old_screen
      ensures Abs() == Clear(old(Abs()))
    {
      var i := 0;
      while i < HEIGHT
        invariant 0 <= i <= HEIGHT && i * WIDTH <= CELLS && term == old(term)
        invariant forall k :: 0 <= k < i * WIDTH ==> new_screen[k] == ' ' && old_screen[k] == '\0'
      {
        var j := 0;
        while j < WIDTH
          invariant 0 <= j <= WIDTH && i * WIDTH + j <= CELLS && term == old(term)
          invariant forall k :: 0 <= k < i * WIDTH + j ==> new_screen[k] == ' ' && old_screen[k] == '\0'
        {
          new_screen[i * WIDTH + j] := ' ';
          old_screen[i * WIDTH + j] := '\0';
          j := j + 1;
        }
        i := i + 1;
      }
      x, y := 0, 0;
      assert new_screen[..] == seq(CELLS, _ => ' ');
      assert old_screen[..] == seq(CELLS, _ => '\0');
      ScreenReflush();
    }

    /** The first pair of loops of screen_scroll: forget the lines. */
    method ForgetLines()
      requires Valid()
      modifies old_screen
      ensures old_screen[..] == Scroll(old(Abs())).old'
    {
      var i := SCROLL_FROM;
      while i <= HEIGHT - 1
        invariant SCROLL_FROM <= i <= HEIGHT && i * WIDTH <= CELLS
        invariant forall k :: 0 <= k < SCROLL_FROM * WIDTH ==> old_screen[k] == old(old_screen[k])
        invariant forall k :: SCROLL_FROM * WIDTH <= k < i * WIDTH ==> old_screen[k] == '\0'
      {
        var j := 0;
        while j < WIDTH
          invariant 0 <= j <= WIDTH && i * WIDTH + j <= CELLS
          invariant forall k :: 0 <= k < SCROLL_FROM * WIDTH ==> old_screen[k] == old(old_screen[k])
          invariant forall k :: SCROLL_FROM * WIDTH <= k < i * WIDTH + j ==> old_screen[k] == '\0'
        {
          old_screen[i * WIDTH + j] := '\0';
          j := j + 1;
        }
        i := i + 1;
      }
    }

    /** The second pair: move the lines up, blank the last. */
    method MoveLines()
      requires Valid()
      modifies new_screen
      ensures new_screen[..] == Scroll(old(Abs())).new'
    {
      ghost var was, want := new_screen[..], Scroll(Abs()).new';
      var i := SCROLL_FROM;
      while i <= HEIGHT - 1
        invariant SCROLL_FROM <= i <= HEIGHT && i * WIDTH <= CELLS
        invariant forall k :: 0 <= k < i * WIDTH ==> new_screen[k] == want[k]
        invariant forall k :: i * WIDTH <= k < CELLS ==> new_screen[k] == was[k]
      {
        var j := 0;
        while j < WIDTH
          invariant 0 <= j <= WIDTH && i * WIDTH + j <= CELLS
          invariant forall k :: 0 <= k < i * WIDTH + j ==> new_screen[k] == want[k]
          invariant forall k :: i * WIDTH + j <= k < CELLS ==> new_screen[k] == was[k]
        {
          if i == HEIGHT - 1 {
            new_screen[i * WIDTH + j] := ' ';
          } else {
            new_screen[i * WIDTH + j] := new_screen[(i + 1) * WIDTH + j];
          }
          j := j + 1;
        }
        i := i + 1;
      }
    }

    /** screen_write_ch */
    method ScreenWriteCh(ch: char)
      requires Valid() && OnScreen(Abs())
      modifies this, new_screen, old_screen
      ensures Abs() == WriteCh(old(Abs()), ch)
    {
      TypeCh(ch);
      hide Type, Scroll;
      if x < 0 { x := 0; }
      if x >= WIDTH {
        y := y + 1;
        x := 0;
      }
      if y < 0 { y := 0; }
      if y >= HEIGHT {
        ghost var s := Abs();
        ForgetLines();
        ghost var s1 := Abs();
        MoveLines();
        ScrollParts(s, s1);
        x := 0;
        y := HEIGHT - 1;
      }
    }

    /** screen_write */
    method ScreenWrite(text: string)
      requires Valid() && Ok(Abs())
      modifies this, new_screen, old_screen
      ensures Abs() == WriteText(old(Abs()), text)
    {
      hide WriteCh, Cached;
      var i := 0;
      while i < |text|
        invariant 0 <= i <= |text| && Ok(Abs())
        invariant WriteText(Abs(), text[i..]) == WriteText(old(Abs()), text)
      {
        assert text[i..][1..] == text[i + 1..];
        WriteChKeeps(Abs(), text[i]);
        ScreenWriteCh(text[i]);
        i := i + 1;
      }
    }

    /** screen_move_cursor */
    method ScreenMoveCursor(x: int, y: int)
      requires Valid()
      modifies `x, `y
      ensures Abs() == old(Abs()).(x := x, y := y)
    {
      this.x, this.y := x, y;
    }

    method TypeCh(ch: char)
      requires Valid() && OnScreen(Abs())
      modifies this, new_screen
      ensures Abs() == Type(old(Abs()), ch)
    {
      if ch == '\n' {
        x := 0;
        y := y + 1;
      } else if ch == 8 as char {
        if x > 0 {
          x := x - 1;
          new_screen[y * WIDTH + x] := ' ';
          assert new_screen[..] == old(new_screen[..])[y * WIDTH + x := ' '];
        }
      } else if ch == 13 as char {
        x := 0;
        y := y + 1;
      } else {
        new_screen[y * WIDTH + x] := ch;
        assert new_screen[..] == old(new_screen[..])[y * WIDTH + x := ch];
        x := x + 1;
      }
    }
  }

  /** The two halves of a scroll do not depend on each other. */
  lemma ScrollParts(s: State, s1: State)
    requires s1 == s.(old' := Scroll(s).old')
    ensures Scroll(s1).new' == Scroll(s).new' && Scroll(s) == s.(old' := Scroll(s).old', new' := Scroll(s).new')
  {
  }
}
