/** The VGA text driver (kernel/drivers/vga.c).

    The driver owns 25 x 80 cells and scrolls them in place.  Its specification is a tape
    that never scrolls: one flat, only ever growing, sequence of cells and one write
    position.  The screen is the last 2000 cells of the tape. */
module Vga {
  import opened Basics

  const WIDTH := 80
  const HEIGHT := 25
  const CELLS := 2000
  const BACKSPACE: char := 8 as char

  // One screen cell: vga_entry packs the same two bytes into 16 bits.
  datatype Cell = Cell(ch: char, attr: byte)

  function Attribute(fg: byte, bg: byte): byte
    requires fg < 16 && bg < 16
  {
    fg + 16 * bg
  }

  function Blanks(n: nat, attr: byte): (r: seq<Cell>)
    ensures |r| == n && forall i :: 0 <= i < n ==> r[i] == Cell(' ', attr)
  {
    seq(n, _ => Cell(' ', attr))
  }

  // ---------------------------------------------------------------- the tape

  datatype Tape = Tape(cells: seq<Cell>, pos: int, color: byte) {
    // The index of the first cell that is still on the screen.
    function Top(): int {
      |cells| - CELLS
    }

    predicate Valid() {
      |cells| % WIDTH == 0 && 0 <= Top() <= pos < |cells|
    }
  }

  // A fresh page: what vga_clear leaves.
  function Page(color: byte): Tape {
    Tape(Blanks(CELLS, color), 0, color)
  }

  // Paper feed: one more blank row once the position has left the last one.
  function Feed(t: Tape): (r: Tape)
    requires |t.cells| % WIDTH == 0 && 0 <= t.Top() <= t.pos <= |t.cells|
    ensures r.Valid()
  {
    if t.pos < |t.cells| then t else t.(cells := t.cells + Blanks(WIDTH, t.color))
  }

  // The first cell of the row of pos, of the row after it, and the next tab stop.
  function LineStart(pos: nat): (r: nat)
    ensures r <= pos && forall n: nat | n <= pos && n % WIDTH == 0 :: n <= r
  {
    pos / WIDTH * WIDTH
  }

  function NextLine(pos: nat): (r: nat)
    ensures pos < r <= pos + WIDTH && forall n: nat | pos < n && n % WIDTH == 0 :: r <= n
  {
    (pos / WIDTH + 1) * WIDTH
  }

  function NextStop(pos: nat): (r: nat)
    ensures pos < r <= pos + 8 && forall n: nat | pos < n && n % 8 == 0 :: r <= n
  {
    (pos / 8 + 1) * 8
  }

  lemma LineStartsAreStops(n: nat)
    requires n % WIDTH == 0
    ensures n % 8 == 0
  {
    assert n == n / WIDTH * 10 * 8;
  }

  // vga_putchar on the tape.  Wrapping and tab stops need no case of their own, because
  // a row is a multiple of both 80 and 8 cells.
  function Put(t: Tape, c: char): (r: Tape)
    requires t.Valid()
    ensures r.Valid()
  {
    if c == '\n' then Feed(t.(pos := NextLine(t.pos)))
    else if c == '\r' then t.(pos := LineStart(t.pos))
    else if c == '\t' then LineStartsAreStops(|t.cells|); Feed(t.(pos := NextStop(t.pos)))
    else Feed(t.(cells := t.cells[t.pos := Cell(c, t.color)], pos := t.pos + 1))
  }

  // The backspace of vga_print: one cell back, never above the screen.
  function Erase(t: Tape): (r: Tape)
    requires t.Valid()
    ensures r.Valid()
  {
    if t.pos == t.Top() then t
    else t.(cells := t.cells[t.pos - 1 := Cell(' ', t.color)], pos := t.pos - 1)
  }

  function PrintChar(t: Tape, c: char): (r: Tape)
    requires t.Valid()
    ensures r.Valid()
  {
    if c == BACKSPACE then Erase(t) else Put(t, c)
  }

  function PrintText(t: Tape, s: string): (r: Tape)
    requires t.Valid()
    ensures r.Valid()
    decreases |s|
  {
    if s == [] then t else PrintText(PrintChar(t, s[0]), s[1..])
  }

  // ---------------------------------------------------------------- what a character does

  // All cells stay as they were, except the one at but; one blank row is added exactly when
  // the position has left the last one.
  ghost predicate FeedsOnly(t: Tape, r: Tape, but: int)
    requires t.Valid() && r.Valid()
  {
    && r.color == t.color
    && |r.cells| == (if r.pos >= |t.cells| then |t.cells| + 80 else |t.cells|)
    && (forall i | 0 <= i < |t.cells| && i != but :: r.cells[i] == t.cells[i])
    && forall i | |t.cells| <= i < |r.cells| :: r.cells[i] == Cell(' ', t.color)
  }

  // Newline goes to the next row, return to the start of the row and tab to the next multiple
  // of eight, and they write nothing.
  lemma ControlsMove(t: Tape)
    requires t.Valid()
    ensures Put(t, '\n').pos == t.pos - t.pos % 80 + 80 && FeedsOnly(t, Put(t, '\n'), -1)
    ensures Put(t, '\r').pos == t.pos - t.pos % 80 && FeedsOnly(t, Put(t, '\r'), -1)
    ensures Put(t, '\t').pos == t.pos - t.pos % 8 + 8 && FeedsOnly(t, Put(t, '\t'), -1)
  {
    hide LineStart, NextLine, NextStop;
    RowEnds(t.pos);
    LineStartsAreStops(|t.cells|);
  }

  lemma RowEnds(pos: nat)
    ensures LineStart(pos) == pos - pos % 80 && NextLine(pos) == pos - pos % 80 + 80
    ensures NextStop(pos) == pos - pos % 8 + 8
  {
  }

  // Any other character, backspace included, is written in the current colour.
  lemma OthersAreWritten(t: Tape, c: char)
    requires t.Valid() && c != '\n' && c != '\r' && c != '\t'
    ensures var r := Put(t, c);
            r.pos == t.pos + 1 && r.cells[t.pos] == Cell(c, t.color) && FeedsOnly(t, r, t.pos)
  {
  }

  // The backspace of vga_print blanks the cell in front of the position, unless that is the
  // first one on the screen; every other character goes to vga_putchar.
  lemma BackspaceErases(t: Tape, c: char)
    requires t.Valid()
    ensures c != 8 as char ==> PrintText(t, [c]) == Put(t, c)
    ensures var r := PrintText(t, [8 as char]);
            if t.pos == |t.cells| - 2000 then r == t
            else r.pos == t.pos - 1 && r.cells[r.pos] == Cell(' ', t.color) && FeedsOnly(t, r, r.pos)
  {
    assert PrintText(t, [c]) == PrintText(PrintChar(t, c), []);
    assert PrintText(t, [BACKSPACE]) == PrintText(PrintChar(t, BACKSPACE), []);
  }

  // Four bits of each colour in a byte, the foreground in the lower ones.
  lemma AttributeHoldsBoth(fg: byte, bg: byte)
    requires fg < 16 && bg < 16
    ensures Attribute(fg, bg) % 16 == fg && Attribute(fg, bg) / 16 == bg
  {
  }

  // ---------------------------------------------------------------- runs

  datatype Command = Char(c: char) | Text(s: string) | Color(attr: byte)

  function Execute(t: Tape, command: Command): (r: Tape)
    requires t.Valid()
    ensures r.Valid()
  {
    match command
    case Char(c) => Put(t, c)
    case Text(s) => PrintText(t, s)
    case Color(attr) => t.(color := attr)
  }

  function Run(t: Tape, commands: seq<Command>): (r: Tape)
    requires t.Valid()
    ensures r.Valid()
    decreases |commands|
  {
    if commands == [] then t else Run(Execute(t, commands[0]), commands[1..])
  }

  lemma {:induction false} RunAppend(t: Tape, a: seq<Command>, b: seq<Command>)
    requires t.Valid()
    ensures Run(t, a + b) == Run(Run(t, a), b)
    decreases |a|
  {
    if a == [] {
      assert a + b == b;
    } else {
      assert (a + b)[1..] == a[1..] + b;
      RunAppend(Execute(t, a[0]), a[1..], b);
    }
  }

  lemma RunSnoc(t: Tape, a: seq<Command>, c: Command)
    requires t.Valid()
    ensures Run(t, a + [c]) == Execute(Run(t, a), c)
  {
    RunAppend(t, a, [c]);
    assert Run(Run(t, a), [c]) == Run(Execute(Run(t, a), c), []);
  }

  // What has left the screen of t is still there, unchanged, in r.
  ghost predicate Keeps(t: Tape, r: Tape)
    requires t.Valid() && r.Valid()
  {
    t.Top() <= r.Top() && r.cells[..t.Top()] == t.cells[..t.Top()]
  }

  lemma {:induction false} PrintKeeps(t: Tape, s: string)
    requires t.Valid()
    ensures Keeps(t, PrintText(t, s))
    decreases |s|
  {
    if s == [] {
    } else {
      var u := PrintChar(t, s[0]);
      PrintKeeps(u, s[1..]);
      assert PrintText(t, s).cells[..t.Top()] == PrintText(u, s[1..]).cells[..u.Top()][..t.Top()];
    }
  }

  // Rows that have left the screen never change again, whatever is printed later.
  lemma {:induction false} ScrolledRowsAreFrozen(t: Tape, commands: seq<Command>)
    requires t.Valid()
    ensures Keeps(t, Run(t, commands))
    decreases |commands|
  {
    if commands == [] {
    } else {
      var u := Execute(t, commands[0]);
      if commands[0].Text? {
        PrintKeeps(t, commands[0].s);
      }
      ScrolledRowsAreFrozen(u, commands[1..]);
      assert Run(t, commands).cells[..t.Top()] == Run(u, commands[1..]).cells[..u.Top()][..t.Top()];
    }
  }

  // ---------------------------------------------------------------- plain text

  predicate IsControl(c: char) {
    c == '\n' || c == '\r' || c == '\t' || c == BACKSPACE
  }

  predicate IsPlain(s: string) {
    forall c | c in s :: !IsControl(c)
  }

  // The number of rows a fresh page has scrolled by when n plain characters are on it.
  function RowsScrolled(n: nat): nat {
    if n / WIDTH < HEIGHT then 0 else n / WIDTH - (HEIGHT - 1)
  }

  // A fresh page that has been filled with s, character by character.
  function Filled(s: string, color: byte): (r: Tape)
    ensures r.Valid()
  {
    var k := RowsScrolled(|s|);
    Tape(seq(CELLS + k * WIDTH, i requires i >= 0 => if i < |s| then Cell(s[i], color) else Cell(' ', color)),
         |s|, color)
  }

  lemma {:induction false} FillsUp(a: string, b: string, color: byte)
    requires IsPlain(b)
    ensures PrintText(Filled(a, color), b) == Filled(a + b, color)
    decreases |b|
  {
    if b == [] {
      assert a + b == a;
    } else {
      assert b[0] in b;
      assert Put(Filled(a, color), b[0]).cells == Filled(a + [b[0]], color).cells;
      assert a + b == a + [b[0]] + b[1..];
      FillsUp(a + [b[0]], b[1..], color);
    }
  }

  lemma PageFillsUp(s: string, color: byte)
    requires IsPlain(s)
    ensures PrintText(Page(color), s) == Filled(s, color)
  {
    assert Page(color) == Filled([], color);
    assert [] + s == s;
    FillsUp([], s, color);
  }

  lemma FilledAt(s: string, color: byte, i: nat)
    requires i < CELLS
    ensures var t := Filled(s, color);
            var k := RowsScrolled(|s|);
            && t.Top() == k * WIDTH
            && t.cells[t.Top()..][i] == Cell(if k * WIDTH + i < |s| then s[k * WIDTH + i] else ' ', color)
  {
  }

  // Where every plain character of s ends up on the screen after a clear.
  lemma PlainTextLayout(s: string, color: byte, y: nat, x: nat)
    requires IsPlain(s) && y < HEIGHT && x < WIDTH
    ensures var t := PrintText(Page(color), s);
            var k := RowsScrolled(|s|);
            && t.pos - t.Top() == (|s| / WIDTH - k) * WIDTH + |s| % WIDTH
            && t.cells[t.Top()..][y * WIDTH + x]
               == Cell(if (y + k) * WIDTH + x < |s| then s[(y + k) * WIDTH + x] else ' ', color)
  {
    hide PrintText;
    PageFillsUp(s, color);
    FilledAt(s, color, y * WIDTH + x);
  }

  lemma StaysOnPage(t: Tape)
    requires t.Valid()
    ensures Feed(t) == t
  {
  }

  // ---------------------------------------------------------------- the driver

  // Rows and tab stops of the screen are those of the tape.
  lemma Coordinates(scrolled: nat, row: nat, column: nat)
    requires scrolled % WIDTH == 0 && column < WIDTH
    ensures var pos := scrolled + row * WIDTH + column;
            && LineStart(pos) == scrolled + row * WIDTH
            && NextLine(pos) == scrolled + (row + 1) * WIDTH
            && NextStop(pos) == scrolled + row * WIDTH + (column + 8) / 8 * 8
  {
    var n := scrolled / WIDTH + row;
    assert scrolled + row * WIDTH + column == n * WIDTH + column;
    RowOf(n, column);
    StopOf(n * 10, column);
  }

  lemma RowOf(n: nat, column: nat)
    requires column < WIDTH
    ensures (n * WIDTH + column) / WIDTH == n
  {
  }

  lemma StopOf(n: nat, column: nat)
    ensures (n * 8 + column + 8) / 8 == n + (column + 8) / 8
    ensures (n * 8 + column) / 8 + 1 == n + (column + 8) / 8
  {
  }

  class Terminal {
    const cells: array<Cell>
    var row: nat
    var column: nat
    var color: byte
    ghost var history: seq<Cell>  // every row that has been scrolled away
    ghost var start: Tape         // the tape at the last clear, or at first
    ghost var calls: seq<Command> // every call since then

    // The cursor is on the screen, so every write is in bounds.
    ghost predicate Shape()
      reads this, cells
    {
      && cells.Length == CELLS
      && row < HEIGHT && column < WIDTH
      && |history| % WIDTH == 0
    }

    // Whatever has been called, the screen is the end of the tape those calls have typed.
    ghost predicate Valid()
      reads this, cells
    {
      Shape() && start.Valid() && View() == Run(start, calls)
    }

    // More calls have been made, with no clear in between.
    ghost predicate Continues(from: Tape, earlier: seq<Command>, more: seq<Command>)
      reads this
    {
      start == from && calls == earlier + more
    }

    ghost function View(): (t: Tape)
      requires Shape()
      reads this, cells
      ensures t.Valid() && t.cells[t.Top()..] == cells[..]
    {
      Tape(history + cells[..], |history| + row * WIDTH + column, color)
    }

    // vga_init; what the video memory holds is not known.
    constructor ()
      ensures Valid() && fresh(cells)
      ensures View().pos == 0 && color == Attribute(7, 0) && calls == []
      ensures cells[0] == Cell('T', color)
    {
      cells := new Cell[CELLS];
      row, column, color := 0, 0, Attribute(7, 0);
      history, calls := [], [];
      new;
      cells[0] := Cell('T', color);
      start := Tape(cells[..], 0, color);
      assert View().cells == start.cells;
    }

    method SetColor(fg: byte, bg: byte)
      requires Valid() && fg < 16 && bg < 16
      modifies this`color, this`calls
      ensures Valid() && View() == old(View()).(color := Attribute(fg, bg))
      ensures calls == old(calls) + [Color(Attribute(fg, bg))]
    {
      color := Attribute(fg, bg);
      RunSnoc(start, calls, Color(color));
      calls := calls + [Color(color)];
    }

    method PutEntryAt(c: char, attr: byte, x: nat, y: nat)
      requires Shape() && x < WIDTH && y < HEIGHT
      modifies cells
      ensures Shape() && cells[..] == old(cells[..])[y * WIDTH + x := Cell(c, attr)]
    {
      cells[y * WIDTH + x] := Cell(c, attr);
    }

    // The in-place nested copy is a simultaneous shift by one row.
    method Scroll()
      requires Shape()
      modifies this`row, this`column, this`history, cells
      ensures Shape() && row == HEIGHT - 1 && column == 0
      ensures cells[..] == old(cells[..])[WIDTH..] + Blanks(WIDTH, color)
      ensures history == old(history) + old(cells[..])[..WIDTH]
    {
      history := history + cells[..WIDTH];
      for y := 0 to HEIGHT - 1
        modifies cells
        invariant forall k :: 0 <= k < y * WIDTH ==> cells[k] == old(cells[k + WIDTH])
        invariant forall k :: y * WIDTH <= k < CELLS ==> cells[k] == old(cells[k])
      {
        for x := 0 to WIDTH
          modifies cells
          invariant forall k :: 0 <= k < y * WIDTH + x ==> cells[k] == old(cells[k + WIDTH])
          invariant forall k :: y * WIDTH + x <= k < CELLS ==> cells[k] == old(cells[k])
        {
          cells[y * WIDTH + x] := cells[(y + 1) * WIDTH + x];
        }
      }
      for x := 0 to WIDTH
        modifies cells
        invariant forall k :: 0 <= k < CELLS - WIDTH ==> cells[k] == old(cells[k + WIDTH])
        invariant forall k :: CELLS - WIDTH <= k < CELLS - WIDTH + x ==> cells[k] == Cell(' ', color)
      {
        PutEntryAt(' ', color, x, HEIGHT - 1);
      }
      row, column := HEIGHT - 1, 0;
    }

    // The shared tail of the three wrapping branches of vga_putchar.
    method NextRow()
      requires cells.Length == CELLS && row < HEIGHT && |history| % WIDTH == 0
      modifies this`row, this`column, this`history, cells
      ensures Shape()
      ensures View() == Feed(Tape(old(history + cells[..]), |old(history)| + (old(row) + 1) * WIDTH, color))
    {
      column := 0;
      row := row + 1;
      if row >= HEIGHT {
        row := HEIGHT - 1;
        ghost var before := cells[..];
        Scroll();
        assert before == before[..WIDTH] + before[WIDTH..];
        assert history + cells[..] == old(history + cells[..]) + Blanks(WIDTH, color);
      }
    }

    method WriteChar(c: char)
      requires Shape()
      modifies this`row, this`column, this`history, cells
      ensures Shape()
      ensures View() == Feed(old(View()).(cells := old(View()).cells[old(View()).pos := Cell(c, color)],
                                          pos := old(View()).pos + 1))
    {
      PutEntryAt(c, color, column, row);
      assert history + cells[..] == old(View()).cells[old(View()).pos := Cell(c, color)];
      column := column + 1;
      if column >= WIDTH {
        NextRow();
      }
    }

    // vga_putchar, before it is recorded as a call.
    method Advance(c: char)
      requires Shape()
      modifies this`row, this`column, this`history, cells
      ensures Shape() && View() == Put(old(View()), c)
    {
      hide LineStart, NextLine, NextStop, Feed;
      Coordinates(|history|, row, column);
      if c == '\n' {
        NextRow();
      } else if c == '\r' {
        column := 0;
      } else if c == '\t' {
        column := (column + 8) / 8 * 8;
        if column >= WIDTH {
          NextRow();
        } else {
          StaysOnPage(View());
        }
      } else {
        WriteChar(c);
      }
    }

    // The backspace branch of vga_print.
    method EraseChar()
      requires Shape()
      modifies this`row, this`column, cells
      ensures Shape() && View() == Erase(old(View()))
    {
      if column > 0 {
        column := column - 1;
        PutEntryAt(' ', color, column, row);
      } else if row > 0 {
        row := row - 1;
        column := WIDTH - 1;
        PutEntryAt(' ', color, column, row);
      }
      assert View().cells == Erase(old(View())).cells;
    }

    method PutChar(c: char)
      requires Valid()
      modifies this`row, this`column, this`history, this`calls, cells
      ensures Valid() && View() == Put(old(View()), c)
      ensures calls == old(calls) + [Char(c)]
    {
      RunSnoc(start, calls, Char(c));
      Advance(c);
      calls := calls + [Char(c)];
    }

    method Print(data: string)
      requires Valid()
      modifies this`row, this`column, this`history, this`calls, cells
      ensures Valid() && View() == PrintText(old(View()), data)
      ensures calls == old(calls) + [Text(data)]
    {
      hide Put, Erase, Run;
      RunSnoc(start, calls, Text(data));
      for i := 0 to |data|
        invariant Shape() && color == old(color) && start == old(start) && calls == old(calls)
        invariant PrintText(View(), data[i..]) == PrintText(old(View()), data)
      {
        assert data[i..][1..] == data[i + 1..];
        if data[i] == BACKSPACE {
          EraseChar();
        } else {
          Advance(data[i]);
        }
      }
      calls := calls + [Text(data)];
    }

    method Clear()
      requires Valid()
      modifies this`row, this`column, this`history, this`start, this`calls, cells
      ensures Valid() && View() == start == Page(color) && calls == []
    {
      for y := 0 to HEIGHT
        modifies cells
        invariant forall k :: 0 <= k < y * WIDTH ==> cells[k] == Cell(' ', color)
      {
        for x := 0 to WIDTH
          modifies cells
          invariant forall k :: 0 <= k < y * WIDTH + x ==> cells[k] == Cell(' ', color)
        {
          cells[y * WIDTH + x] := Cell(' ', color);
        }
      }
      row, column := 0, 0;
      history, calls := [], [];
      assert cells[..] == Blanks(CELLS, color);
      start := Page(color);
      assert View() == start;
    }
  }
}
