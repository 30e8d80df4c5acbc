/** The echo of the line editor: keyboard and screen together.

    Positions are those of the tape, so that they do not move when the screen scrolls. */
module Echo {
  import opened Basics
  import opened Vga
  import opened Keyboard
  import opened LineEditing

  // The cells of a line that has been typed.
  function Typed(line: string): (v: seq<Cell>)
    ensures |v| == |line| && forall i | 0 <= i < |v| :: v[i] == Cell(line[i], 14)
  {
    seq(|line|, i requires 0 <= i < |line| => Cell(line[i], BROWN))
  }

  const MARK := Cell('_', 15)

  // Everything in front of the position, the prompt included.
  function Before(t: Tape): seq<Cell>
    requires t.Valid()
  {
    t.cells[..t.pos]
  }

  // The tape carries before and then v, and the position is just behind them; all but the
  // first m cells of v are on the screen.
  ghost predicate Shows(t: Tape, before: seq<Cell>, m: nat, v: seq<Cell>)
    requires t.Valid()
  {
    && t.color == 15
    && t.Top() <= |before| + m && m <= |v| <= m + LINE_MAX && t.pos == |before| + |v|
    && (forall i | 0 <= i < |before| :: t.cells[i] == before[i])
    && forall i | 0 <= i < |v| :: t.cells[|before| + i] == v[i]
  }

  // ... and is followed by the cursor mark.
  ghost predicate Marked(t: Tape, before: seq<Cell>, m: nat, v: seq<Cell>)
    requires t.Valid()
  {
    && t.color == 15
    && t.Top() <= |before| + m && m <= |v| <= m + LINE_MAX && t.pos == |before| + |v| + 1
    && (forall i | 0 <= i < |before| :: t.cells[i] == before[i])
    && (forall i | 0 <= i < |v| :: t.cells[|before| + i] == v[i])
    && t.cells[|before| + |v|] == Cell('_', 15)
  }

  // The tape shows line and the cursor mark behind whatever was there before, and the screen
  // the whole line.
  ghost predicate Echoes(t: Tape, before: seq<Cell>, line: string)
    requires t.Valid()
  {
    Marked(t, before, 0, Typed(line))
  }

  lemma CursorAppears(t: Tape, before: seq<Cell>, m: nat, v: seq<Cell>)
    requires t.Valid() && Shows(t, before, m, v)
    ensures Marked(Put(t, '_'), before, m, v)
  {
  }

  lemma CursorVanishes(t: Tape, before: seq<Cell>, m: nat, v: seq<Cell>)
    requires t.Valid() && Marked(t, before, m, v)
    ensures Shows(Erase(t), before, m, v)
  {
  }

  // A second mark makes the first one part of what is shown.
  lemma CursorRepeats(t: Tape, before: seq<Cell>, m: nat, v: seq<Cell>)
    requires t.Valid() && Marked(t, before, m, v)
    ensures Marked(Put(t, '_'), before, m + 1, v + [MARK])
  {
  }

  lemma CharacterAppears(t: Tape, before: seq<Cell>, m: nat, v: seq<Cell>, c: char)
    requires t.Valid() && Shows(t, before, m, v) && |v| < m + LINE_MAX && IsPrintable(c)
    ensures Shows(Put(t.(color := BROWN), c).(color := WHITE), before, m, v + Typed([c]))
  {
  }

  lemma CharacterVanishes(t: Tape, before: seq<Cell>, m: nat, v: seq<Cell>)
    requires t.Valid() && Shows(t, before, m, v) && m < |v|
    ensures Shows(Erase(Put(Erase(t), ' ')), before, m, v[..|v| - 1])
  {
    var e := Erase(t);
    assert Shows(e, before, m, v[..|v| - 1]);
    var p := Put(e, ' ');
    assert p.pos == t.pos && p.Top() <= |before| + m;
  }

  // ---------------------------------------------------------------- one poll

  lemma RunOne(t: Tape, c: Command)
    requires t.Valid()
    ensures Run(t, [c]) == Execute(t, c)
  {
    RunSnoc(t, [], c);
    assert [] + [c] == [c];
  }

  lemma EraseCall(t: Tape)
    requires t.Valid()
    ensures Execute(t, Text([BACKSPACE])) == Erase(t)
  {
    assert PrintText(t, [BACKSPACE]) == PrintText(Erase(t), []);
  }

  lemma RunFramed(t: Tape, calls: seq<Command>)
    requires t.Valid()
    ensures Run(t, Framed(calls)) == Put(Run(Erase(t), calls), '_')
  {
    hide Put, Erase, PrintText, Run;
    RunAppend(t, [HIDE_CURSOR], calls);
    RunOne(t, HIDE_CURSOR);
    EraseCall(t);
    RunSnoc(t, [HIDE_CURSOR] + calls, SHOW_CURSOR);
  }

  lemma RunDelete(t: Tape)
    requires t.Valid()
    ensures Run(t, DELETE_CHAR) == Erase(Put(Erase(t), ' '))
  {
    hide Put, Erase, Run;
    var text := [BACKSPACE, ' '];
    assert text[1..] == [' '];
    assert PrintText(t, text) == PrintText(Erase(t), [' ']);
    assert PrintText(Erase(t), [' ']) == PrintText(Put(Erase(t), ' '), []);
    RunOne(t, Text(text));
    RunSnoc(t, [Text(text)], Text([BACKSPACE]));
    EraseCall(Execute(t, Text(text)));
    assert DELETE_CHAR == [Text(text)] + [Text([BACKSPACE])];
  }

  lemma RunTypeChar(t: Tape, c: char)
    requires t.Valid()
    ensures Run(t, TypeChar(c)) == Put(t.(color := BROWN), c).(color := WHITE)
  {
    hide Put, Erase, PrintText, Run;
    RunOne(t, Color(BROWN));
    RunSnoc(t, [Color(BROWN)], Char(c));
    RunSnoc(t, [Color(BROWN), Char(c)], Color(WHITE));
    assert TypeChar(c) == [Color(BROWN), Char(c)] + [Color(WHITE)];
    assert [Color(BROWN), Char(c)] == [Color(BROWN)] + [Char(c)];
  }

  lemma {:induction false} TextAppears(t: Tape, before: seq<Cell>, m: nat, v: seq<Cell>, s: string)
    requires t.Valid() && Shows(t, before, m, v) && |v| + |s| <= m + LINE_MAX && AllPrintable(s)
    ensures Shows(Run(t, TypeText(s)), before, m, v + Typed(s))
    decreases |s|
  {
    hide Put, Shows;
    if s == [] {
      assert v + Typed(s) == v;
    } else {
      var n := |s| - 1;
      TextAppears(t, before, m, v, s[..n]);
      RunAppend(t, TypeText(s[..n]), TypeChar(s[n]));
      RunTypeChar(Run(t, TypeText(s[..n])), s[n]);
      CharacterAppears(Run(t, TypeText(s[..n])), before, m, v + Typed(s[..n]), s[n]);
      assert v + Typed(s[..n]) + Typed([s[n]]) == v + Typed(s);
    }
  }

  // How an edit changes the line.
  predicate Edits(line: string, edit: Edit, after: string) {
    match edit
    case Insert(s) => after == line + s && |after| <= LINE_MAX && AllPrintable(s)
    case Delete => line != [] && after == line[..|line| - 1]
    case _ => after == line
  }

  // A modifier key that the driver takes for a new key.
  predicate PressesModifier(k: Kb, scancode: byte) {
    IsModifier(scancode) && scancode != k.held && scancode != k.last
  }

  lemma HeldEdits(k: Kb)
    requires Inv(k)
    ensures Edits(k.line, Held(k).edit, Held(k).kb.line) && !Held(k).edit.ExtraCursor?
  {
  }

  lemma StruckEdits(k: Kb, scancode: byte)
    requires Inv(k)
    ensures var o := Struck(k, scancode);
            Edits(k.line, o.edit, o.kb.line) && !o.edit.ExtraCursor?
  {
    hide Ascii;
    if scancode != TAB {
      AsciiIsPrintable(scancode, k.shift, k.caps);
    }
  }

  lemma PressedEdits(k: Kb, scancode: byte)
    requires Inv(k)
    ensures var o := Pressed(k, scancode);
            Edits(k.line, o.edit, o.kb.line) && (o.edit.ExtraCursor? <==> IsModifier(scancode))
  {
    hide Struck, Edits;
    var m := Modified(k.(last := scancode), scancode, false);
    StruckEdits(m, scancode);
    SameLine(k.line, ExtraCursor);
  }

  lemma Modifiers(scancode: byte)
    ensures IsModifier(scancode) ==> 0 < scancode < RELEASE
  {
  }

  lemma SameLine(line: string, edit: Edit)
    requires !edit.Insert? && !edit.Delete?
    ensures Edits(line, edit, line)
  {
  }

  lemma PollEdits(k: Kb, scancode: byte)
    requires Inv(k)
    ensures var o := Poll(k, scancode);
            && Edits(k.line, o.edit, o.kb.line)
            && (o.edit.ExtraCursor? <==> PressesModifier(k, scancode))
  {
    hide Held, Pressed, IsModifier, Edits;
    HeldEdits(Cooled(k));
    PressedEdits(Cooled(k), scancode);
    SameLine(k.line, Quiet);
    assert IsModifier(scancode) ==> 0 < scancode < RELEASE by { Modifiers(scancode); }
  }

  // What an edit makes of the cells in front of the cursor mark.  A modifier key leaves one
  // more mark among them, which a later rubout takes for a character.
  function Visible(v: seq<Cell>, edit: Edit): seq<Cell> {
    match edit
    case ExtraCursor => v + [MARK]
    case Insert(s) => v + Typed(s)
    case Delete => if v == [] then [] else v[..|v| - 1]
    case _ => v
  }

  function Extra(edit: Edit): nat {
    if edit.ExtraCursor? then 1 else 0
  }

  lemma InsertMarks(t: Tape, before: seq<Cell>, m: nat, v: seq<Cell>, s: string)
    requires t.Valid() && Marked(t, before, m, v) && |v| + |s| <= m + LINE_MAX && AllPrintable(s)
    ensures Marked(Render(t, Insert(s)), before, m, v + Typed(s))
  {
    hide Put, Erase, Shows, Run, Marked, Typed;
    CursorVanishes(t, before, m, v);
    RunFramed(t, TypeText(s));
    TextAppears(Erase(t), before, m, v, s);
    CursorAppears(Run(Erase(t), TypeText(s)), before, m, v + Typed(s));
  }

  lemma DeleteMarks(t: Tape, before: seq<Cell>, m: nat, v: seq<Cell>)
    requires t.Valid() && Marked(t, before, m, v) && m < |v|
    ensures Marked(Render(t, Delete), before, m, v[..|v| - 1])
  {
    hide Put, Erase, Shows, Run, Marked;
    CursorVanishes(t, before, m, v);
    RunFramed(t, DELETE_CHAR);
    RunDelete(Erase(t));
    CharacterVanishes(Erase(t), before, m, v);
    CursorAppears(Run(Erase(t), DELETE_CHAR), before, m, v[..|v| - 1]);
  }

  lemma RedrawMarks(t: Tape, before: seq<Cell>, m: nat, v: seq<Cell>)
    requires t.Valid() && Marked(t, before, m, v)
    ensures Marked(Render(t, Redraw), before, m, v)
  {
    hide Put, Erase, Shows, Run, Marked;
    CursorVanishes(t, before, m, v);
    RunFramed(t, []);
    NothingRuns(Erase(t));
    CursorAppears(Erase(t), before, m, v);
  }

  lemma EditMarks(t: Tape, before: seq<Cell>, m: nat, line: string, v: seq<Cell>, edit: Edit, after: string)
    requires t.Valid() && Marked(t, before, m, v) && |v| == |line| + m && |line| <= LINE_MAX
    requires Edits(line, edit, after) && !edit.Accept?
    ensures Marked(Render(t, edit), before, m + Extra(edit), Visible(v, edit))
    ensures |Visible(v, edit)| == |after| + m + Extra(edit) && |after| <= LINE_MAX
  {
    hide Put, Erase, Shows, Run, Marked;
    match edit
    case Quiet => NothingRuns(t);
    case ExtraCursor =>
      RunOne(t, SHOW_CURSOR);
      CursorRepeats(t, before, m, v);
    case Redraw => RedrawMarks(t, before, m, v);
    case Insert(s) => InsertMarks(t, before, m, v, s);
    case Delete => DeleteMarks(t, before, m, v);
  }

  lemma NothingRuns(t: Tape)
    requires t.Valid()
    ensures Run(t, []) == t
  {
  }

  // Without a modifier key the cells go on being those of the line.
  lemma VisibleIsTyped(line: string, edit: Edit, after: string)
    requires Edits(line, edit, after) && !edit.ExtraCursor?
    ensures Visible(Typed(line), edit) == Typed(after)
  {
  }

  // The position tells how many marks there are.
  lemma MarksAreExtra(t: Tape, before: seq<Cell>, m: nat, v: seq<Cell>, line: string)
    requires t.Valid() && Marked(t, before, m, v) && |v| == |line| + m && (m == 0 ==> v == Typed(line))
    ensures Echoes(t, before, line) <==> m == 0
  {
  }

  // A poll that does not end the line keeps the echo exactly when it presses no modifier.
  lemma PollEchoes(k: Kb, t: Tape, before: seq<Cell>, scancode: byte)
    requires Inv(k) && t.Valid() && Echoes(t, before, k.line) && !Poll(k, scancode).edit.Accept?
    ensures var o := Poll(k, scancode);
            Echoes(Render(t, o.edit), before, o.kb.line) <==> !PressesModifier(k, scancode)
  {
    hide Poll, Edits, Marked, Render;
    var o := Poll(k, scancode);
    PollEdits(k, scancode);
    EditMarks(t, before, 0, k.line, Typed(k.line), o.edit, o.kb.line);
    if !o.edit.ExtraCursor? {
      VisibleIsTyped(k.line, o.edit, o.kb.line);
    }
    MarksAreExtra(Render(t, o.edit), before, Extra(o.edit), Visible(Typed(k.line), o.edit), o.kb.line);
  }

  // ---------------------------------------------------------------- whole lines

  // How many of the polls press a modifier key.
  function ModifierPresses(k: Kb, port: seq<byte>): nat
    decreases |port|
  {
    if port == [] then 0
    else (if PressesModifier(k, port[0]) then 1 else 0) + ModifierPresses(Poll(k, port[0]).kb, port[1..])
  }

  // The cells in front of the mark after the polls of a line that stays open.
  function VisibleLine(k: Kb, v: seq<Cell>, port: seq<byte>): seq<Cell>
    decreases |port|
  {
    if port == [] then v
    else VisibleLine(Poll(k, port[0]).kb, Visible(v, Poll(k, port[0]).edit), port[1..])
  }

  lemma {:induction false} PollsMark(k: Kb, t: Tape, before: seq<Cell>, m: nat, v: seq<Cell>, port: seq<byte>)
    requires Inv(k) && t.Valid() && Marked(t, before, m, v) && |v| == |k.line| + m
    requires ReadLine(k, port).Waiting?
    ensures var n, after := m + ModifierPresses(k, port), VisibleLine(k, v, port);
            && Marked(ShowLine(k, t, port), before, n, after)
            && |after| == |ReadLine(k, port).kb.line| + n
    decreases |port|
  {
    hide Poll, Marked, Inv, Render, Edits, Visible, PressesModifier;
    if port == [] {
    } else {
      LineFits(k);
      PollEdits(k, port[0]);
      PollKeepsInv(k, port[0]);
      var o := Poll(k, port[0]);
      EditMarks(t, before, m, k.line, v, o.edit, o.kb.line);
      PollsMark(o.kb, Render(t, o.edit), before, m + Extra(o.edit), Visible(v, o.edit), port[1..]);
    }
  }

  lemma LineFits(k: Kb)
    requires Inv(k)
    ensures |k.line| <= LINE_MAX
  {
  }

  lemma {:induction false} NoPressesTyped(k: Kb, port: seq<byte>)
    requires Inv(k) && ReadLine(k, port).Waiting? && ModifierPresses(k, port) == 0
    ensures VisibleLine(k, Typed(k.line), port) == Typed(ReadLine(k, port).kb.line)
    decreases |port|
  {
    hide Poll, Inv, Edits, Visible, PressesModifier;
    if port == [] {
    } else {
      PollEdits(k, port[0]);
      PollKeepsInv(k, port[0]);
      var o := Poll(k, port[0]);
      VisibleIsTyped(k.line, o.edit, o.kb.line);
      NoPressesTyped(o.kb, port[1..]);
    }
  }

  lemma OpeningEchoes(t: Tape)
    requires t.Valid()
    ensures Echoes(OpenedScreen(t), Before(t), [])
  {
    assert Shows(t.(color := WHITE), Before(t), 0, []);
    CursorAppears(t.(color := WHITE), Before(t), 0, []);
  }

  // After any polls of a line that is still open, with m presses of modifier keys among them,
  // the cells in front of the line are what they were when it began, the cells from there on
  // are those that the edits leave, the mark and the cursor are as many cells too far as there
  // were presses, and all but the first m cells are still on the screen, across wraps,
  // scrolls, tabs, deletions, repeats and a full buffer.
  lemma LineShows(k: Kb, t: Tape, polled: seq<byte>)
    requires Inv(k) && t.Valid() && ReadLine(Opened(k), polled).Waiting?
    ensures var r, m, v := ShowLine(Opened(k), OpenedScreen(t), polled),
                           ModifierPresses(Opened(k), polled), VisibleLine(Opened(k), [], polled);
            && Marked(r, Before(t), m, v) && |v| == |ReadLine(Opened(k), polled).kb.line| + m
            && r.pos == t.pos + |ReadLine(Opened(k), polled).kb.line| + m + 1
  {
    hide ReadLine, ShowLine, OpenedScreen;
    OpeningEchoes(t);
    assert Typed([]) == [];
    PollsMark(Opened(k), OpenedScreen(t), Before(t), 0, [], polled);
  }

  // So the screen shows exactly the buffer and the mark if and only if no poll of the line
  // has pressed a modifier key.
  lemma LineEchoes(k: Kb, t: Tape, polled: seq<byte>)
    requires Inv(k) && t.Valid() && ReadLine(Opened(k), polled).Waiting?
    ensures Echoes(ShowLine(Opened(k), OpenedScreen(t), polled), Before(t), ReadLine(Opened(k), polled).kb.line)
            <==> ModifierPresses(Opened(k), polled) == 0
  {
    hide Marked, ReadLine, ShowLine, OpenedScreen;
    LineShows(k, t, polled);
    var m, v := ModifierPresses(Opened(k), polled), VisibleLine(Opened(k), [], polled);
    if m == 0 {
      assert Typed([]) == [];
      NoPressesTyped(Opened(k), polled);
    }
    MarksAreExtra(ShowLine(Opened(k), OpenedScreen(t), polled), Before(t), m, v,
                  ReadLine(Opened(k), polled).kb.line);
  }

  // A Shift press on an empty line: two marks and an empty buffer.
  lemma ShiftLeavesMark(k: Kb, t: Tape)
    requires Inv(k) && t.Valid() && k.held == 0 && k.last == 0
    ensures var r := ShowLine(Opened(k), OpenedScreen(t), [LEFT_SHIFT]);
            && ReadLine(Opened(k), [LEFT_SHIFT]).Waiting? && ReadLine(Opened(k), [LEFT_SHIFT]).kb.line == []
            && !Echoes(r, Before(t), []) && Marked(r, Before(t), 1, [MARK])
  {
    hide ShowLine, OpenedScreen, Marked;
    var o := Opened(k);
    OnePoll(o, [LEFT_SHIFT]);
    NoPoll(Poll(o, LEFT_SHIFT).kb);
    LineEchoes(k, t, [LEFT_SHIFT]);
    LineShows(k, t, [LEFT_SHIFT]);
    assert VisibleLine(o, [], [LEFT_SHIFT]) == VisibleLine(Poll(o, LEFT_SHIFT).kb, [MARK], []);
    assert ModifierPresses(o, [LEFT_SHIFT]) == 1 + ModifierPresses(Poll(o, LEFT_SHIFT).kb, []);
  }

  // The Enter that ends the line takes the mark away and leaves the line behind.
  lemma EnterKeepsLine(t: Tape, before: seq<Cell>, m: nat, v: seq<Cell>)
    requires t.Valid() && Marked(t, before, m, v)
    ensures var r := Render(t, Accept);
            && r.pos == NextLine(|before| + |v|)
            && r.cells[|before| + |v|] == Cell(' ', WHITE)
            && (forall i | 0 <= i < |before| :: r.cells[i] == before[i])
            && forall i | 0 <= i < |v| :: r.cells[|before| + i] == v[i]
  {
    hide Run;
    var newline: Command := Text(['\n']);
    RunSnoc(t, [HIDE_CURSOR], newline);
    RunOne(t, HIDE_CURSOR);
    EraseCall(t);
    assert Calls(Accept) == [HIDE_CURSOR] + [newline];
    assert PrintText(Erase(t), ['\n']) == PrintText(Put(Erase(t), '\n'), []);
    assert Render(t, Accept) == Put(Erase(t), '\n');
  }
}
