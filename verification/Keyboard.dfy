/** The polling keyboard driver (kernel/drivers/keyboard.c): scancodes in, edited lines out.

    One poll is a step of a state machine over the driver's fields (Poll) together with one
    edit of the screen (Render); a call of keyboard_get_input folds that step over the
    bytes of the port (ReadLine, ShowLine). */
module Keyboard {
  import opened Basics
  import opened Vga

  const ENTER: byte := 0x1C
  const RUBOUT: byte := 0x0E
  const TAB: byte := 0x0F
  const CAPS_LOCK: byte := 0x3A
  const LEFT_SHIFT: byte := 0x2A
  const RIGHT_SHIFT: byte := 0x36
  const LEFT_CTRL: byte := 0x1D
  const LEFT_ALT: byte := 0x38
  const RELEASE: byte := 0x80

  const ENTER_COOLDOWN := 5000
  const INITIAL_DELAY := 10000
  const REPEAT_RATE := 5000
  const FAST_RATE := 5000
  const ACCELERATION_THRESHOLD := 20000

  const LINE_MAX := 255
  const TAB_MAX := 252

  const WHITE: byte := 15
  const BROWN: byte := 14

  // ---------------------------------------------------------------- one poll

  datatype Kb = Kb(
    line: string,        // input_buffer[0..buffer_pos)
    last: byte, cooldown: nat,
    held: byte, holdTime: nat, delay: nat, heldChar: char,
    shift: bool, caps: bool, ctrl: bool, alt: bool)

  // What keyboard_init leaves.
  const STARTED := Kb([], 0, 0, 0, 0, 0, NUL, false, false, false, false)

  // What one poll does to the screen.
  datatype Edit = Quiet | ExtraCursor | Redraw | Insert(s: string) | Delete | Accept

  datatype Outcome = Outcome(kb: Kb, edit: Edit)

  predicate IsModifier(scancode: byte) {
    scancode == LEFT_SHIFT || scancode == RIGHT_SHIFT || scancode == LEFT_CTRL
    || scancode == LEFT_ALT || scancode == CAPS_LOCK
  }

  function Letter(lower: char, shift: bool, caps: bool): char
    requires 'a' <= lower <= 'z'
  {
    if caps != shift then (lower as int - 32) as char else lower
  }

  // scancode_to_ascii; NUL for a key without a character.
  function Ascii(scancode: byte, shift: bool, caps: bool): char {
    match scancode
    case 0x02 => if shift then '!' else '1'
    case 0x03 => if shift then '@' else '2'
    case 0x04 => if shift then '#' else '3'
    case 0x05 => if shift then '$' else '4'
    case 0x06 => if shift then '%' else '5'
    case 0x07 => if shift then '^' else '6'
    case 0x08 => if shift then '&' else '7'
    case 0x09 => if shift then '*' else '8'
    case 0x0A => if shift then '(' else '9'
    case 0x0B => if shift then ')' else '0'
    case 0x10 => Letter('q', shift, caps)
    case 0x11 => Letter('w', shift, caps)
    case 0x12 => Letter('e', shift, caps)
    case 0x13 => Letter('r', shift, caps)
    case 0x14 => Letter('t', shift, caps)
    case 0x15 => Letter('y', shift, caps)
    case 0x16 => Letter('u', shift, caps)
    case 0x17 => Letter('i', shift, caps)
    case 0x18 => Letter('o', shift, caps)
    case 0x19 => Letter('p', shift, caps)
    case 0x1E => Letter('a', shift, caps)
    case 0x1F => Letter('s', shift, caps)
    case 0x20 => Letter('d', shift, caps)
    case 0x21 => Letter('f', shift, caps)
    case 0x22 => Letter('g', shift, caps)
    case 0x23 => Letter('h', shift, caps)
    case 0x24 => Letter('j', shift, caps)
    case 0x25 => Letter('k', shift, caps)
    case 0x26 => Letter('l', shift, caps)
    case 0x2C => Letter('z', shift, caps)
    case 0x2D => Letter('x', shift, caps)
    case 0x2E => Letter('c', shift, caps)
    case 0x2F => Letter('v', shift, caps)
    case 0x30 => Letter('b', shift, caps)
    case 0x31 => Letter('n', shift, caps)
    case 0x32 => Letter('m', shift, caps)
    case 0x0C => if shift then '_' else '-'
    case 0x0D => if shift then '+' else '='
    case 0x1A => if shift then '{' else '['
    case 0x1B => if shift then '}' else ']'
    case 0x27 => if shift then ':' else ';'
    case 0x28 => if shift then '"' else '\''
    case 0x29 => if shift then '~' else '`'
    case 0x2B => if shift then '|' else '\\'
    case 0x33 => if shift then '<' else ','
    case 0x34 => if shift then '>' else '.'
    case 0x35 => if shift then '?' else '/'
    case 0x39 => ' '
    case 0x0F => '\t'
    case _ => NUL
  }

  // keyboard_update_modifiers
  function Modified(k: Kb, scancode: byte, released: bool): Kb {
    if scancode == LEFT_SHIFT || scancode == RIGHT_SHIFT then k.(shift := !released)
    else if scancode == LEFT_CTRL then k.(ctrl := !released)
    else if scancode == LEFT_ALT then k.(alt := !released)
    else if scancode == CAPS_LOCK && !released then k.(caps := !k.caps)
    else k
  }

  function Released(k: Kb, scancode: byte): Kb {
    var m := Modified(k, scancode, true).(last := 0);
    if scancode == k.held then m.(held := 0, holdTime := 0, delay := 0, heldChar := NUL) else m
  }

  // One character less, if there is one.
  function Rubbed(k: Kb): (o: Outcome)
    ensures !o.edit.Accept?
  {
    if k.line == [] then Outcome(k, Redraw) else Outcome(k.(line := k.line[..|k.line| - 1]), Delete)
  }

  // One character more, if there is room.
  function Inserted(k: Kb, c: char): (o: Outcome)
    ensures !o.edit.Accept?
  {
    if |k.line| < LINE_MAX then Outcome(k.(line := k.line + [c]), Insert([c])) else Outcome(k, Redraw)
  }

  // The repeat of a held key; both copies of it in the source are this one.
  function Repeated(k: Kb): (o: Outcome)
    ensures !o.edit.Accept?
  {
    var r := k.(delay := if k.holdTime > ACCELERATION_THRESHOLD then FAST_RATE else REPEAT_RATE);
    if k.held == RUBOUT then Rubbed(r)
    else if k.heldChar != BACKSPACE then Inserted(r, k.heldChar)
    else Outcome(r, Redraw)
  }

  function TabWidth(length: nat): nat {
    if length >= TAB_MAX then 0 else if length + 4 <= TAB_MAX then 4 else TAB_MAX - length
  }

  function PressedEnter(h: Kb): Outcome {
    if h.cooldown == 0 then Outcome(h.(cooldown := ENTER_COOLDOWN, last := 0, held := 0), Accept)
    else Outcome(h, Redraw)
  }

  function PressedTab(h: Kb): (o: Outcome)
    ensures !o.edit.Accept?
  {
    var s := Spaces(TabWidth(|h.line|));
    Outcome(h.(heldChar := NUL, line := h.line + s), Insert(s))
  }

  function PressedCharacter(h: Kb, c: char): (o: Outcome)
    ensures !o.edit.Accept?
  {
    if c != NUL && |h.line| < LINE_MAX then Inserted(h.(heldChar := c), c)
    else Outcome(h.(heldChar := NUL), Redraw)
  }

  // A key that was not down before.
  function Pressed(k: Kb, scancode: byte): Outcome {
    var m := Modified(k.(last := scancode), scancode, false);
    if IsModifier(scancode) then Outcome(m, ExtraCursor) else Struck(m, scancode)
  }

  // ... and is not a modifier.
  function Struck(k: Kb, scancode: byte): Outcome {
    var h := k.(held := scancode, holdTime := 0, delay := INITIAL_DELAY);
    if scancode == ENTER then PressedEnter(h)
    else if scancode == RUBOUT then Rubbed(h.(heldChar := BACKSPACE))
    else if scancode == TAB then PressedTab(h)
    else PressedCharacter(h, Ascii(scancode, h.shift, h.caps))
  }

  // One more poll with the held key still down.
  function Held(k: Kb): (o: Outcome)
    ensures !o.edit.Accept?
  {
    var h := k.(holdTime := k.holdTime + 1);
    if k.delay > 0 then Outcome(h.(delay := k.delay - 1), Quiet)
    else if k.heldChar != NUL then Repeated(h)
    else Outcome(h, Quiet)
  }

  // The Enter cooldown runs down by one at every poll.
  function Cooled(k: Kb): Kb {
    if k.cooldown > 0 then k.(cooldown := k.cooldown - 1) else k
  }

  // One iteration of the polling loop.
  function Poll(before: Kb, scancode: byte): Outcome {
    var k := Cooled(before);
    if scancode >= RELEASE then Outcome(Released(k, scancode - RELEASE), Quiet)
    else if scancode == 0 then
      if k.held != 0 && k.heldChar != NUL then Held(k) else Outcome(k, Quiet)
    else if scancode == k.held then Held(k)
    else if scancode != k.last then Pressed(k, scancode)
    else Outcome(k, Quiet)
  }

  // ---------------------------------------------------------------- the screen

  // A character typed in its own colour.
  function TypeChar(c: char): seq<Command> {
    [Color(BROWN), Char(c), Color(WHITE)]
  }

  function TypeText(s: string): seq<Command> {
    if s == [] then [] else TypeText(s[..|s| - 1]) + TypeChar(s[|s| - 1])
  }

  const HIDE_CURSOR := Text([BACKSPACE])
  const SHOW_CURSOR := Char('_')
  const DELETE_CHAR := [Text([BACKSPACE, ' ']), Text([BACKSPACE])]

  function Framed(calls: seq<Command>): seq<Command> {
    [HIDE_CURSOR] + calls + [SHOW_CURSOR]
  }

  // The driver calls that make an edit.
  function Calls(edit: Edit): seq<Command> {
    match edit
    case Quiet => []
    case ExtraCursor => [SHOW_CURSOR]
    case Redraw => Framed([])
    case Insert(s) => Framed(TypeText(s))
    case Delete => Framed(DELETE_CHAR)
    case Accept => [HIDE_CURSOR, Text(['\n'])]
  }

  function Render(t: Tape, edit: Edit): (r: Tape)
    requires t.Valid()
    ensures r.Valid()
  {
    Run(t, Calls(edit))
  }

  // ---------------------------------------------------------------- one line

  datatype Reading =
    | Waiting(kb: Kb)                                // the port is exhausted, the line is open
    | Line(kb: Kb, polls: nat, port: seq<byte>)      // Enter accepted at that poll; bytes left

  // keyboard_clear_buffer: three bytes are thrown away.
  function Drained(port: seq<byte>): seq<byte> {
    if |port| < 3 then [] else port[3..]
  }

  function ReadLine(k: Kb, port: seq<byte>): (r: Reading)
    ensures r.Line? ==> |r.port| < |port|
    decreases |port|
  {
    if port == [] then Waiting(k)
    else
      var o := Poll(k, port[0]);
      if o.edit.Accept? then Line(o.kb, 1, Drained(port[1..]))
      else
        match ReadLine(o.kb, port[1..])
        case Waiting(kb) => Waiting(kb)
        case Line(kb, polls, rest) => Line(kb, polls + 1, rest)
  }

  // The same reading, that many polls later.
  function Later(r: Reading, polls: nat): Reading {
    if r.Line? then r.(polls := r.polls + polls) else r
  }

  function ShowLine(k: Kb, t: Tape, port: seq<byte>): (r: Tape)
    requires t.Valid()
    ensures r.Valid()
    decreases |port|
  {
    if port == [] then t
    else
      var o := Poll(k, port[0]);
      if o.edit.Accept? then Render(t, o.edit)
      else ShowLine(o.kb, Render(t, o.edit), port[1..])
  }

  // The state in which the polling loop of keyboard_get_input starts.
  function Opened(k: Kb): Kb {
    k.(line := [])
  }

  function OpenedScreen(t: Tape): (r: Tape)
    requires t.Valid()
    ensures r.Valid()
  {
    Put(t.(color := WHITE), '_')
  }

  // All the lines that successive calls of keyboard_get_input return.
  function Lines(k: Kb, port: seq<byte>): seq<string>
    decreases |port|
  {
    match ReadLine(Opened(k), port)
    case Waiting(_) => []
    case Line(kb, _, rest) => [kb.line] + Lines(kb, rest)
  }

  // Everything a line has the terminal do, call by call.
  function LineCalls(k: Kb, port: seq<byte>): seq<Command>
    decreases |port|
  {
    if port == [] then []
    else
      var o := Poll(k, port[0]);
      Calls(o.edit) + if o.edit.Accept? then [] else LineCalls(o.kb, port[1..])
  }

  lemma FirstLine(k: Kb, port: seq<byte>)
    ensures var r := ReadLine(Opened(k), port);
            Lines(k, port) == if r.Line? then [r.kb.line] + Lines(r.kb, r.port) else []
  {
  }

  lemma NoPoll(k: Kb)
    ensures ReadLine(k, []) == Waiting(k) && LineCalls(k, []) == []
  {
  }

  lemma OnePoll(k: Kb, port: seq<byte>)
    requires port != []
    ensures var o := Poll(k, port[0]);
            if o.edit.Accept? then
              ReadLine(k, port) == Line(o.kb, 1, Drained(port[1..])) && LineCalls(k, port) == Calls(o.edit)
            else
              ReadLine(k, port) == Later(ReadLine(o.kb, port[1..]), 1)
              && LineCalls(k, port) == Calls(o.edit) + LineCalls(o.kb, port[1..])
  {
  }

  lemma {:induction false} LineCallsShowLine(k: Kb, t: Tape, port: seq<byte>)
    requires t.Valid()
    ensures Run(t, LineCalls(k, port)) == ShowLine(k, t, port)
    decreases |port|
  {
    if port == [] {
    } else {
      var o := Poll(k, port[0]);
      if o.edit.Accept? {
        assert LineCalls(k, port) == Calls(o.edit);
      } else {
        RunAppend(t, Calls(o.edit), LineCalls(o.kb, port[1..]));
        LineCallsShowLine(o.kb, Render(t, o.edit), port[1..]);
      }
    }
  }

  // ---------------------------------------------------------------- the driver

  class Driver {
    var lastScancode: byte
    var enterCooldown: nat
    var bufferPos: nat
    const inputBuffer: array<char>
    var heldKey: byte
    var keyHoldTime: nat
    var repeatDelay: nat
    var heldKeyChar: char
    var shiftPressed: bool
    var capsLockOn: bool
    var ctrlPressed: bool
    var altPressed: bool
    var port: seq<byte>     // the bytes that port 0x60 has yet to deliver
    const screen: Terminal

    ghost predicate Valid()
      reads this, screen, screen.cells
    {
      inputBuffer.Length == 256 && bufferPos <= LINE_MAX && screen.Valid()
    }

    ghost function State(): Kb
      requires bufferPos <= inputBuffer.Length
      reads this, inputBuffer
    {
      Kb(inputBuffer[..bufferPos], lastScancode, enterCooldown, heldKey, keyHoldTime, repeatDelay,
         heldKeyChar, shiftPressed, capsLockOn, ctrlPressed, altPressed)
    }

    // keyboard_init: everything cleared, one hundred pending bytes dropped.
    constructor (screen: Terminal, port: seq<byte>)
      requires screen.Valid()
      ensures Valid() && fresh(inputBuffer) && this.screen == screen
      ensures State() == STARTED && forall i | 0 <= i < 256 :: inputBuffer[i] == NUL
      ensures this.port == if |port| < 100 then [] else port[100..]
    {
      lastScancode, enterCooldown, bufferPos := 0, 0, 0;
      heldKey, keyHoldTime, repeatDelay, heldKeyChar := 0, 0, 0, NUL;
      shiftPressed, capsLockOn, ctrlPressed, altPressed := false, false, false, false;
      inputBuffer := new char[256](_ => NUL);
      this.screen := screen;
      this.port := port;
      new;
      for i := 0 to 100
        invariant Valid() && this.port == if |port| < i then [] else port[i..]
        invariant State() == STARTED && forall j | 0 <= j < 256 :: inputBuffer[j] == NUL
      {
        var _ := Inb();
      }
    }

    // An exhausted port reads as "no key".
    method Inb() returns (b: byte)
      modifies this`port
      ensures b == if old(port) == [] then 0 else old(port)[0]
      ensures port == if old(port) == [] then [] else old(port)[1..]
    {
      if port == [] {
        return 0;
      }
      b := port[0];
      port := port[1..];
    }

    method ClearBuffer()
      modifies this`port
      ensures port == Drained(old(port))
    {
      for attempts := 0 to 3
        invariant port == if |old(port)| < attempts then [] else old(port)[attempts..]
      {
        var _ := Inb();
      }
    }

    method UpdateModifiers(scancode: byte, released: bool)
      requires Valid()
      modifies this`shiftPressed, this`ctrlPressed, this`altPressed, this`capsLockOn
      ensures Valid() && State() == Modified(old(State()), scancode, released)
    {
      if released {
        match scancode {
          case 0x2A | 0x36 => shiftPressed := false;
          case 0x1D => ctrlPressed := false;
          case 0x38 => altPressed := false;
          case _ =>
        }
      } else {
        match scancode {
          case 0x2A | 0x36 => shiftPressed := true;
          case 0x1D => ctrlPressed := true;
          case 0x38 => altPressed := true;
          case 0x3A => capsLockOn := !capsLockOn;
          case _ =>
        }
      }
    }

    // Drop the last buffered character, here and on the screen.
    method DeleteLast()
      requires Valid() && bufferPos > 0
      modifies this`bufferPos, screen, screen.cells
      ensures Valid() && bufferPos == old(bufferPos) - 1
      ensures screen.Continues(old(screen.start), old(screen.calls), DELETE_CHAR)
    {
      bufferPos := bufferPos - 1;
      screen.Print([BACKSPACE, ' ']);
      screen.Print([BACKSPACE]);
    }

    // Append a character, here and on the screen.
    method Append(c: char)
      requires Valid() && bufferPos < LINE_MAX
      modifies this`bufferPos, inputBuffer, screen, screen.cells
      ensures Valid() && bufferPos == old(bufferPos) + 1
      ensures inputBuffer[..bufferPos] == old(inputBuffer[..bufferPos]) + [c]
      ensures screen.Continues(old(screen.start), old(screen.calls), TypeText([c]))
    {
      inputBuffer[bufferPos] := c;
      bufferPos := bufferPos + 1;
      screen.SetColor(14, 0);
      screen.PutChar(c);
      screen.SetColor(15, 0);
      assert TypeText([c]) == TypeText([]) + TypeChar(c);
    }

    method Rub()
      requires Valid()
      modifies this`bufferPos, screen, screen.cells
      ensures Valid() && State() == Rubbed(old(State())).kb
      ensures screen.Continues(old(screen.start), old(screen.calls), Calls(Rubbed(old(State())).edit))
    {
      hide Put, Erase, Run, PrintText, Execute;
      ghost var change := [];
      screen.Print([BACKSPACE]);
      if bufferPos > 0 {
        DeleteLast();
        change := DELETE_CHAR;
      }
      screen.PutChar('_');
      assert screen.calls == old(screen.calls) + Framed(change);
    }

    method Insert(c: char)
      requires Valid()
      modifies this`bufferPos, inputBuffer, screen, screen.cells
      ensures Valid() && State() == Inserted(old(State()), c).kb
      ensures screen.Continues(old(screen.start), old(screen.calls), Calls(Inserted(old(State()), c).edit))
    {
      hide Put, Erase, Run, PrintText, Execute;
      ghost var change := [];
      screen.Print([BACKSPACE]);
      if bufferPos < LINE_MAX {
        Append(c);
        change := TypeText([c]);
      }
      screen.PutChar('_');
      assert screen.calls == old(screen.calls) + Framed(change);
    }

    method RedrawCursor()
      requires Valid()
      modifies screen, screen.cells
      ensures Valid()
      ensures screen.Continues(old(screen.start), old(screen.calls), Framed([]))
    {
      screen.Print([BACKSPACE]);
      screen.PutChar('_');
    }

    method RepeatKey()
      requires Valid()
      modifies this`bufferPos, this`repeatDelay, inputBuffer, screen, screen.cells
      ensures Valid() && State() == Repeated(old(State())).kb
      ensures screen.Continues(old(screen.start), old(screen.calls), Calls(Repeated(old(State())).edit))
    {
      hide Put, Erase, Run, PrintText, Execute, Rubbed, Inserted, Framed;
      if keyHoldTime > ACCELERATION_THRESHOLD {
        repeatDelay := FAST_RATE;
      } else {
        repeatDelay := REPEAT_RATE;
      }
      if heldKey == RUBOUT {
        Rub();
      } else if heldKeyChar != BACKSPACE {
        Insert(heldKeyChar);
      } else {
        RedrawCursor();
      }
    }

    method TypeTab()
      requires Valid()
      modifies this`bufferPos, inputBuffer, screen, screen.cells
      ensures Valid()
      ensures inputBuffer[..bufferPos] == old(inputBuffer[..bufferPos]) + Spaces(TabWidth(old(bufferPos)))
      ensures screen.Continues(old(screen.start), old(screen.calls), TypeText(Spaces(TabWidth(old(bufferPos)))))
    {
      var i := 0;
      while i < 4 && bufferPos < TAB_MAX
        invariant 0 <= i <= 4 && Valid() && (i > 0 ==> bufferPos <= TAB_MAX)
        invariant bufferPos == old(bufferPos) + i
        invariant inputBuffer[..bufferPos] == old(inputBuffer[..bufferPos]) + Spaces(i)
        invariant screen.Continues(old(screen.start), old(screen.calls), TypeText(Spaces(i)))
      {
        Append(' ');
        assert Spaces(i + 1)[..i] == Spaces(i);
        assert TypeText([' ']) == TypeText([]) + TypeChar(' ');
        i := i + 1;
      }
    }

    method CloseLine()
      requires Valid()
      modifies this`enterCooldown, this`lastScancode, this`heldKey, this`port, inputBuffer
      ensures Valid() && State() == old(State()).(cooldown := ENTER_COOLDOWN, last := 0, held := 0)
      ensures port == Drained(old(port)) && inputBuffer[bufferPos] == NUL
    {
      inputBuffer[bufferPos] := NUL;
      ClearBuffer();
      enterCooldown, lastScancode, heldKey := ENTER_COOLDOWN, 0, 0;
      assert inputBuffer[..bufferPos] == old(inputBuffer[..bufferPos]);
    }

    method PressEnter() returns (entered: bool)
      requires Valid()
      modifies this`enterCooldown, this`lastScancode, this`heldKey, this`port, inputBuffer, screen, screen.cells
      ensures Valid()
      ensures State() == PressedEnter(old(State())).kb && entered == PressedEnter(old(State())).edit.Accept?
      ensures screen.Continues(old(screen.start), old(screen.calls), Calls(PressedEnter(old(State())).edit))
      ensures port == if entered then Drained(old(port)) else old(port)
      ensures entered ==> inputBuffer[bufferPos] == NUL
    {
      hide Put, Erase, Run, PrintText, Execute;
      entered := enterCooldown == 0;
      if entered {
        screen.Print([BACKSPACE]);
        screen.Print(['\n']);
        CloseLine();
      } else {
        RedrawCursor();
      }
    }

    method PressRubout()
      requires Valid()
      modifies this`bufferPos, this`heldKeyChar, screen, screen.cells
      ensures Valid() && State() == Rubbed(old(State()).(heldChar := BACKSPACE)).kb
      ensures screen.Continues(old(screen.start), old(screen.calls),
                               Calls(Rubbed(old(State()).(heldChar := BACKSPACE)).edit))
    {
      hide Put, Erase, Run, PrintText, Execute, Rubbed, Calls;
      heldKeyChar := BACKSPACE;
      Rub();
    }

    method PressTab()
      requires Valid()
      modifies this`bufferPos, this`heldKeyChar, inputBuffer, screen, screen.cells
      ensures Valid() && State() == PressedTab(old(State())).kb
      ensures screen.Continues(old(screen.start), old(screen.calls), Calls(PressedTab(old(State())).edit))
    {
      hide Put, Erase, Run, PrintText, Execute;
      hide TabWidth, Spaces, TypeText;
      heldKeyChar := NUL;
      screen.Print([BACKSPACE]);
      ghost var s := Spaces(TabWidth(bufferPos));
      TypeTab();
      screen.PutChar('_');
      assert inputBuffer[..bufferPos] == old(inputBuffer[..bufferPos]) + s;
      assert screen.calls == old(screen.calls) + Framed(TypeText(s));
    }

    method PressCharacter(key: char)
      requires Valid()
      modifies this`bufferPos, this`heldKeyChar, inputBuffer, screen, screen.cells
      ensures Valid() && State() == PressedCharacter(old(State()), key).kb
      ensures screen.Continues(old(screen.start), old(screen.calls), Calls(PressedCharacter(old(State()), key).edit))
    {
      hide Put, Erase, Run, PrintText, Execute, Inserted, Framed;
      if key != NUL && bufferPos < LINE_MAX {
        heldKeyChar := key;
        Insert(key);
      } else {
        heldKeyChar := NUL;
        RedrawCursor();
      }
    }

    // A new key; entered when it is an Enter that closes the line.
    method PressKey(scancode: byte) returns (entered: bool)
      requires Valid() && 0 < scancode < RELEASE
      modifies this, inputBuffer, screen, screen.cells
      ensures Valid()
      ensures State() == Pressed(old(State()), scancode).kb
      ensures screen.Continues(old(screen.start), old(screen.calls), Calls(Pressed(old(State()), scancode).edit))
      ensures entered == Pressed(old(State()), scancode).edit.Accept?
      ensures port == if entered then Drained(old(port)) else old(port)
      ensures entered ==> inputBuffer[bufferPos] == NUL
    {
      hide Put, Erase, Run, PrintText, Execute, Struck;
      entered := false;
      lastScancode := scancode;
      UpdateModifiers(scancode, false);
      if IsModifier(scancode) {
        screen.PutChar('_');
      } else {
        entered := StrikeKey(scancode);
      }
    }

    method StrikeKey(scancode: byte) returns (entered: bool)
      requires Valid() && 0 < scancode < RELEASE
      modifies this, inputBuffer, screen, screen.cells
      ensures Valid()
      ensures State() == Struck(old(State()), scancode).kb
      ensures screen.Continues(old(screen.start), old(screen.calls), Calls(Struck(old(State()), scancode).edit))
      ensures entered == Struck(old(State()), scancode).edit.Accept?
      ensures port == if entered then Drained(old(port)) else old(port)
      ensures entered ==> inputBuffer[bufferPos] == NUL
    {
      hide Put, Erase, Run, PrintText, Execute, Ascii, Calls;
      hide PressedEnter, Rubbed, PressedTab, PressedCharacter;
      entered := false;
      heldKey, keyHoldTime, repeatDelay := scancode, 0, INITIAL_DELAY;
      match scancode {
        case 0x1C => entered := PressEnter();
        case 0x0E => PressRubout();
        case 0x0F => PressTab();
        case _ => PressCharacter(Ascii(scancode, shiftPressed, capsLockOn));
      }
    }

    method ReleaseKey(key: byte)
      requires Valid()
      modifies this`lastScancode, this`heldKey, this`keyHoldTime, this`repeatDelay, this`heldKeyChar
      modifies this`shiftPressed, this`ctrlPressed, this`altPressed, this`capsLockOn
      ensures Valid() && State() == Released(old(State()), key)
    {
      UpdateModifiers(key, true);
      if key == heldKey {
        heldKey, keyHoldTime, repeatDelay, heldKeyChar := 0, 0, 0, NUL;
      }
      lastScancode := 0;
    }

    // One iteration of the loop of keyboard_get_input.
    method PollOnce() returns (entered: bool)
      requires Valid() && port != []
      modifies this, inputBuffer, screen, screen.cells
      ensures Valid()
      ensures var o := Poll(old(State()), old(port)[0]);
              && State() == o.kb && entered == o.edit.Accept?
              && screen.Continues(old(screen.start), old(screen.calls), Calls(o.edit))
      ensures port == if entered then Drained(old(port)[1..]) else old(port)[1..]
      ensures entered ==> inputBuffer[bufferPos] == NUL
    {
      hide Put, Erase, Run, PrintText, Execute, Held, Pressed, Released, Framed;
      entered := false;
      var scancode := Inb();
      if enterCooldown > 0 {
        enterCooldown := enterCooldown - 1;
      }
      assert State() == Cooled(old(State()));
      if scancode >= RELEASE {
        ReleaseKey(scancode - RELEASE);
      } else if scancode > 0 {
        if scancode == heldKey && heldKey != 0 {
          HoldKey();
        } else if scancode != lastScancode {
          entered := PressKey(scancode);
        }
      } else if heldKey != 0 && heldKeyChar != NUL {
        HoldKey();
      }
    }

    method HoldKey()
      requires Valid()
      modifies this, inputBuffer, screen, screen.cells
      ensures Valid() && port == old(port)
      ensures State() == Held(old(State())).kb
      ensures screen.Continues(old(screen.start), old(screen.calls), Calls(Held(old(State())).edit))
    {
      hide Put, Erase, Run, PrintText, Execute, Repeated;
      keyHoldTime := keyHoldTime + 1;
      if repeatDelay > 0 {
        repeatDelay := repeatDelay - 1;
      } else if heldKeyChar != NUL {
        RepeatKey();
      }
    }

    // The loop of keyboard_get_input.  In C it never ends without an Enter; here it may
    // also stop because the given bytes are used up.
    method PollLine() returns (entered: bool)
      requires Valid()
      modifies this, inputBuffer, screen, screen.cells
      ensures Valid()
      ensures var r := ReadLine(old(State()), old(port));
              State() == r.kb && entered == r.Line? && port == if r.Line? then r.port else []
      ensures screen.Continues(old(screen.start), old(screen.calls), LineCalls(old(State()), old(port)))
      ensures entered ==> inputBuffer[bufferPos] == NUL
    {
      hide Put, Erase, Run, PrintText, Execute, Poll, Calls, ReadLine, LineCalls;
      ghost var k, bytes := State(), port;
      entered := false;
      ghost var polls, done := 0, [];
      while port != [] && !entered
        invariant Valid() && (entered ==> inputBuffer[bufferPos] == NUL)
        invariant screen.Continues(old(screen.start), old(screen.calls), done)
        invariant entered ==> ReadLine(k, bytes) == Line(State(), polls, port) && LineCalls(k, bytes) == done
        invariant !entered ==> ReadLine(k, bytes) == Later(ReadLine(State(), port), polls)
        invariant !entered ==> LineCalls(k, bytes) == done + LineCalls(State(), port)
        decreases !entered, |port|
      {
        ghost var edit := Poll(State(), port[0]).edit;
        OnePoll(State(), port);
        entered := PollOnce();
        polls, done := polls + 1, done + Calls(edit);
      }
      NoPoll(State());
    }

    method GetInput() returns (entered: bool)
      requires Valid()
      modifies this, inputBuffer, screen, screen.cells
      ensures Valid()
      ensures var r := ReadLine(Opened(old(State())), old(port));
              State() == r.kb && entered == r.Line? && port == if r.Line? then r.port else []
      ensures screen.View() == ShowLine(Opened(old(State())), OpenedScreen(old(screen.View())), old(port))
      ensures entered ==> inputBuffer[bufferPos] == NUL
    {
      hide Put, Erase, Run, PrintText, Execute, Poll, Calls, ReadLine, LineCalls, ShowLine;
      bufferPos := 0;
      screen.SetColor(15, 0);
      screen.PutChar('_');
      ghost var k, t, bytes, calls := State(), screen.View(), port, screen.calls;
      assert k == Opened(old(State()));
      entered := PollLine();
      RunAppend(screen.start, calls, LineCalls(k, bytes));
      LineCallsShowLine(k, t, bytes);
    }

    // Successive calls, until the given bytes are used up: what they leave in the buffer is
    // Lines.
    method GetLines() returns (lines: seq<string>)
      requires Valid()
      modifies this, inputBuffer, screen, screen.cells
      ensures Valid() && lines == Lines(old(State()), old(port))
    {
      hide Poll, ReadLine, Put, Erase, Run, PrintText, Execute, ShowLine, OpenedScreen, Lines;
      lines := [];
      var entered := true;
      while entered
        invariant Valid()
        invariant Lines(old(State()), old(port)) == lines + if entered then Lines(State(), port) else []
        decreases entered, |port|
      {
        FirstLine(State(), port);
        entered := GetInput();
        if entered {
          lines := lines + [inputBuffer[..bufferPos]];
        }
      }
    }
  }
}
