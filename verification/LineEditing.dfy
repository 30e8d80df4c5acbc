/** What the keyboard driver's line editor promises, for every stream of scancodes. */
module LineEditing {
  import opened Basics
  import opened Vga
  import opened Keyboard

  // ---------------------------------------------------------------- safety

  predicate IsPrintable(c: char) {
    ' ' <= c <= '~'
  }

  predicate AllPrintable(s: string) {
    forall i | 0 <= i < |s| :: IsPrintable(s[i])
  }

  // What holds before every poll.  heldChar may be stale after an ignored Enter, but it is
  // never a control character other than backspace.
  predicate Inv(k: Kb) {
    && |k.line| <= 255 && AllPrintable(k.line)
    && (k.heldChar == NUL || k.heldChar == BACKSPACE || IsPrintable(k.heldChar))
    && k.cooldown <= 5000
  }

  lemma AsciiIsPrintable(scancode: byte, shift: bool, caps: bool)
    requires scancode != TAB
    ensures var c := Ascii(scancode, shift, caps); c == NUL || IsPrintable(c)
  {
  }

  lemma HeldKeepsInv(k: Kb)
    requires Inv(k)
    ensures Inv(Held(k).kb)
  {
  }

  lemma PressedTabKeepsInv(k: Kb)
    requires Inv(k)
    ensures Inv(PressedTab(k).kb)
  {
  }

  lemma RubbedKeepsInv(k: Kb)
    requires Inv(k)
    ensures Inv(Rubbed(k).kb)
  {
  }

  lemma PressedCharacterKeepsInv(k: Kb, c: char)
    requires Inv(k) && (c == NUL || IsPrintable(c))
    ensures Inv(PressedCharacter(k, c).kb)
  {
  }

  lemma StruckKeepsInv(k: Kb, scancode: byte)
    requires Inv(k)
    ensures Inv(Struck(k, scancode).kb)
  {
    hide Ascii, Rubbed, PressedTab, PressedCharacter;
    var h := k.(held := scancode, holdTime := 0, delay := INITIAL_DELAY);
    RubbedKeepsInv(h.(heldChar := BACKSPACE));
    PressedTabKeepsInv(h);
    if scancode != TAB {
      AsciiIsPrintable(scancode, k.shift, k.caps);
      PressedCharacterKeepsInv(h, Ascii(scancode, k.shift, k.caps));
    }
  }

  lemma ModifiedKeepsInv(k: Kb, scancode: byte, released: bool)
    requires Inv(k)
    ensures Inv(Modified(k, scancode, released))
  {
  }

  lemma PressedKeepsInv(k: Kb, scancode: byte)
    requires Inv(k)
    ensures Inv(Pressed(k, scancode).kb)
  {
    hide Struck, Modified, AllPrintable, IsPrintable;
    var m := Modified(k.(last := scancode), scancode, false);
    ModifiedKeepsInv(k.(last := scancode), scancode, false);
    StruckKeepsInv(m, scancode);
  }

  lemma PollKeepsInv(k: Kb, scancode: byte)
    requires Inv(k)
    ensures Inv(Poll(k, scancode).kb)
  {
    hide Held, Pressed, Modified, AllPrintable, IsPrintable;
    HeldKeepsInv(Cooled(k));
    PressedKeepsInv(Cooled(k), scancode);
    ModifiedKeepsInv(Cooled(k), scancode - if scancode < RELEASE then 0 else RELEASE, true);
  }

  lemma {:induction false} ReadLineKeepsInv(k: Kb, port: seq<byte>)
    requires Inv(k)
    ensures Inv(ReadLine(k, port).kb)
    decreases |port|
  {
    hide Poll;
    if port == [] {
    } else {
      PollKeepsInv(k, port[0]);
      if !Poll(k, port[0]).edit.Accept? {
        ReadLineKeepsInv(Poll(k, port[0]).kb, port[1..]);
      }
    }
  }

  // Every returned line fits the buffer and is printable, so that the terminator the driver
  // writes behind it is its first one.
  lemma {:induction false} LinesArePrintable(k: Kb, port: seq<byte>, i: nat)
    requires Inv(k) && i < |Lines(k, port)|
    ensures |Lines(k, port)[i]| <= 255 && AllPrintable(Lines(k, port)[i]) && NUL !in Lines(k, port)[i]
    decreases |port|
  {
    hide Poll, ReadLine;
    ReadLineKeepsInv(Opened(k), port);
    var r := ReadLine(Opened(k), port);
    if i == 0 {
    } else {
      LinesArePrintable(r.kb, r.port, i - 1);
    }
  }

  // In particular every line after keyboard_init, whatever the keyboard sends.
  lemma StartedLinesArePrintable(port: seq<byte>, i: nat)
    requires i < |Lines(STARTED, port)|
    ensures var line := Lines(STARTED, port)[i];
            |line| <= 255 && AllPrintable(line) && NUL !in line
  {
    hide Lines;
    LinesArePrintable(STARTED, port, i);
  }

  // ---------------------------------------------------------------- Enter debounce

  // An Enter is accepted exactly when it is newly pressed and the cooldown has run out, and
  // restarts that; any other poll takes one off.
  lemma AcceptNeedsCooldown(k: Kb, scancode: byte)
    ensures var o := Poll(k, scancode);
            && (o.edit.Accept? <==>
                  scancode == 0x1C && k.held != 0x1C && k.last != 0x1C && k.cooldown <= 1)
            && o.kb.cooldown == if o.edit.Accept? then 5000 else if k.cooldown > 0 then k.cooldown - 1 else 0
  {
    hide Pressed, Held;
    HeldKeepsCooldown(Cooled(k));
    PressedCooldown(Cooled(k), scancode);
  }

  lemma HeldKeepsCooldown(k: Kb)
    ensures Held(k).kb.cooldown == k.cooldown
  {
  }

  lemma PressedCooldown(k: Kb, scancode: byte)
    ensures var o := Pressed(k, scancode);
            && (o.edit.Accept? <==> scancode == 0x1C && k.cooldown == 0)
            && o.kb.cooldown == if o.edit.Accept? then 5000 else k.cooldown
  {
    hide Ascii;
  }

  lemma {:induction false} EnterWaitsForCooldown(k: Kb, port: seq<byte>)
    ensures var r := ReadLine(k, port);
            r.Line? ==> r.polls >= k.cooldown && r.polls >= 1 && r.kb.cooldown == ENTER_COOLDOWN
    decreases |port|
  {
    hide Poll;
    if port == [] {
    } else {
      AcceptNeedsCooldown(k, port[0]);
      if !Poll(k, port[0]).edit.Accept? {
        EnterWaitsForCooldown(Poll(k, port[0]).kb, port[1..]);
      }
    }
  }

  // The loop polls, counted from now, at which an Enter is accepted, over successive calls.
  function EnterTimes(k: Kb, port: seq<byte>, now: nat): seq<nat>
    decreases |port|
  {
    match ReadLine(Opened(k), port)
    case Waiting(_) => []
    case Line(kb, polls, rest) => [now + polls] + EnterTimes(kb, rest, now + polls)
  }

  lemma {:induction false} EnterDebounce(k: Kb, port: seq<byte>, now: nat, i: nat, j: nat)
    requires i < j < |EnterTimes(k, port, now)|
    ensures EnterTimes(k, port, now)[j] - EnterTimes(k, port, now)[i] >= (j - i) * 5000
    decreases |port|
  {
    hide Poll, ReadLine;
    EnterWaitsForCooldown(Opened(k), port);
    var r := ReadLine(Opened(k), port);
    var later := now + r.polls;
    if i > 0 {
      EnterDebounce(r.kb, r.port, later, i - 1, j - 1);
    } else {
      EnterWaitsForCooldown(Opened(r.kb), r.port);
      if j > 1 {
        EnterDebounce(r.kb, r.port, later, 0, j - 1);
      }
    }
  }

  // ---------------------------------------------------------------- key repeat

  // The repeats of a key held for n polls when the first is due after delay polls.
  function Repeats(delay: nat, n: nat): nat {
    if n <= delay then 0 else 1 + (n - delay - 1) / (REPEAT_RATE + 1)
  }

  function Min(a: nat, b: nat): nat {
    if a < b then a else b
  }

  function Copies(c: char, n: nat): string {
    seq(n, _ => c)
  }

  // The line without its last n characters.
  function Shortened(line: string, n: nat): string {
    line[..|line| - Min(n, |line|)]
  }

  lemma ShortenedMore(line: string, a: nat, b: nat)
    ensures Shortened(Shortened(line, a), b) == Shortened(line, a + b)
    ensures Shortened(line, 0) == line
  {
  }

  // Polls that see no byte, or the auto-repeat of the key itself.
  predicate StaysDown(key: byte, polls: seq<byte>) {
    forall i | 0 <= i < |polls| :: polls[i] == 0 || polls[i] == key
  }

  lemma RepeatsStep(delay: nat, n: nat)
    requires n > 0
    ensures Repeats(delay, n)
            == if delay > 0 then Repeats(delay - 1, n - 1) else 1 + Repeats(REPEAT_RATE, n - 1)
  {
    if delay == 0 && n > REPEAT_RATE + 1 {
      assert (n - 1) / (REPEAT_RATE + 1) == 1 + (n - 1 - (REPEAT_RATE + 1)) / (REPEAT_RATE + 1);
    }
  }

  lemma PollWhileDown(k: Kb, b: byte)
    requires 0 < k.held < RELEASE && k.heldChar != NUL && (b == 0 || b == k.held)
    ensures Poll(k, b) == Held(Cooled(k))
  {
  }

  lemma {:induction false} HeldCharacter(k: Kb, polls: seq<byte>)
    requires 0 < k.held < RELEASE && k.held != RUBOUT && |k.line| <= LINE_MAX
    requires k.heldChar != NUL && k.heldChar != BACKSPACE && StaysDown(k.held, polls)
    ensures ReadLine(k, polls).Waiting?
    ensures ReadLine(k, polls).kb.line
            == k.line + Copies(k.heldChar, Min(Repeats(k.delay, |polls|), LINE_MAX - |k.line|))
    decreases |polls|
  {
    hide Poll, Repeats, Copies;
    if polls == [] {
      NoRepeat(k.delay);
      NoCopies(k.line, k.heldChar);
    } else {
      RepeatsStep(k.delay, |polls|);
      PollWhileDown(k, polls[0]);
      var h := Held(Cooled(k)).kb;
      HeldCharacter(h, polls[1..]);
      if k.delay == 0 && |k.line| < LINE_MAX {
        CopiesMore(k.line, k.heldChar, Min(Repeats(h.delay, |polls| - 1), LINE_MAX - |h.line|));
      }
    }
  }

  lemma NoCopies(line: string, c: char)
    ensures line + Copies(c, 0) == line
  {
  }

  lemma CopiesMore(line: string, c: char, n: nat)
    ensures line + [c] + Copies(c, n) == line + Copies(c, n + 1)
  {
  }

  lemma NoRepeat(delay: nat)
    ensures Repeats(delay, 0) == 0
  {
  }

  lemma HeldRuboutPoll(k: Kb)
    requires k.held == RUBOUT && k.heldChar != NUL
    ensures var h := Held(k).kb;
            && h.held == RUBOUT && h.heldChar == k.heldChar && !Held(k).edit.Accept?
            && h.line == Shortened(k.line, if k.delay > 0 then 0 else 1)
            && h.delay == if k.delay > 0 then k.delay - 1 else REPEAT_RATE
  {
  }

  lemma {:induction false} HeldRubout(k: Kb, polls: seq<byte>)
    requires k.held == RUBOUT && k.heldChar != NUL && StaysDown(k.held, polls)
    ensures ReadLine(k, polls).Waiting?
    ensures ReadLine(k, polls).kb.line == Shortened(k.line, Repeats(k.delay, |polls|))
    decreases |polls|
  {
    hide Poll, Held, Repeats, Shortened;
    ShortenedMore(k.line, 0, 0);
    if polls == [] {
      NoRepeat(k.delay);
    } else {
      RepeatsStep(k.delay, |polls|);
      PollWhileDown(k, polls[0]);
      HeldRuboutPoll(Cooled(k));
      HeldRubout(Held(Cooled(k)).kb, polls[1..]);
      ShortenedMore(k.line, if k.delay > 0 then 0 else 1, Repeats(Held(Cooled(k)).kb.delay, |polls| - 1));
    }
  }

  predicate IsCharacterKey(key: byte) {
    0 < key < RELEASE && !IsModifier(key) && key != ENTER && key != RUBOUT && key != TAB
  }

  // The press of a key that types a character now.
  predicate TypesCharacter(k: Kb, key: byte) {
    && IsCharacterKey(key) && key != k.held && key != k.last
    && Ascii(key, k.shift, k.caps) != NUL && |k.line| < 255
  }

  lemma PressTypes(k: Kb, key: byte)
    requires TypesCharacter(k, key)
    ensures var c, h := Ascii(key, k.shift, k.caps), Poll(k, key).kb;
            && !Poll(k, key).edit.Accept?
            && h.line == k.line + [c] && h.heldChar == c && h.held == h.last == key
            && h.delay == INITIAL_DELAY && h.cooldown == Cooled(k).cooldown
            && h.shift == k.shift && h.caps == k.caps
  {
    hide Ascii;
  }

  lemma PressRubs(k: Kb)
    requires k.held != RUBOUT && k.last != RUBOUT
    ensures var h := Poll(k, RUBOUT).kb;
            && !Poll(k, RUBOUT).edit.Accept?
            && h.line == Shortened(k.line, 1)
            && h.held == RUBOUT && h.heldChar == BACKSPACE && h.delay == INITIAL_DELAY
  {
    hide Ascii;
  }

  // A key that is pressed and then held for n polls.
  lemma KeyRepeat(k: Kb, key: byte, polls: seq<byte>)
    requires TypesCharacter(k, key) && StaysDown(key, polls)
    ensures var c, n := Ascii(key, k.shift, k.caps), |polls|;
            var repeats := if n < 10001 then 0 else 1 + (n - 10001) / 5001;
            var r := ReadLine(k, [key] + polls);
            && r.Waiting?
            && r.kb.line == k.line + [c] + Copies(c, Min(repeats, 255 - |k.line| - 1))
  {
    hide Ascii, Poll;
    AsciiIsPrintable(key, k.shift, k.caps);
    PressTypes(k, key);
    OnePoll(k, [key] + polls);
    assert ([key] + polls)[1..] == polls;
    HeldCharacter(Poll(k, key).kb, polls);
  }

  // The same for backspace, which also deletes at once.
  lemma RuboutRepeat(k: Kb, polls: seq<byte>)
    requires k.held != RUBOUT && k.last != RUBOUT && StaysDown(RUBOUT, polls)
    ensures var n := |polls|;
            var deletes := 1 + if n < 10001 then 0 else 1 + (n - 10001) / 5001;
            var r := ReadLine(k, [RUBOUT] + polls);
            r.Waiting? && r.kb.line == Shortened(k.line, deletes)
  {
    hide Poll, LineCalls, ReadLine, Shortened, Min;
    PressRubs(k);
    ShortenedMore(k.line, 1, Repeats(INITIAL_DELAY, |polls|));
    OnePoll(k, [RUBOUT] + polls);
    assert ([RUBOUT] + polls)[1..] == polls;
    HeldRubout(Poll(k, RUBOUT).kb, polls);
  }

  // ---------------------------------------------------------------- typing round trip

  predicate IsLetter(c: char) {
    'a' <= c <= 'z' || 'A' <= c <= 'Z'
  }

  function Lower(c: char): (l: char)
    requires IsLetter(c)
    ensures 'a' <= l <= 'z'
  {
    if c <= 'Z' then (c as int + 32) as char else c
  }

  function LetterKey(c: char): (key: byte)
    requires 'a' <= c <= 'z'
    ensures IsCharacterKey(key)
  {
    match c
    case 'q' => 0x10 case 'w' => 0x11 case 'e' => 0x12 case 'r' => 0x13 case 't' => 0x14
    case 'y' => 0x15 case 'u' => 0x16 case 'i' => 0x17 case 'o' => 0x18 case 'p' => 0x19
    case 'a' => 0x1E case 's' => 0x1F case 'd' => 0x20 case 'f' => 0x21 case 'g' => 0x22
    case 'h' => 0x23 case 'j' => 0x24 case 'k' => 0x25 case 'l' => 0x26 case 'z' => 0x2C
    case 'x' => 0x2D case 'c' => 0x2E case 'v' => 0x2F case 'b' => 0x30 case 'n' => 0x31
    case _ => 0x32
  }

  function SymbolKey(c: char): (key: byte)
    ensures IsCharacterKey(key)
  {
    match c
    case '1' | '!' => 0x02 case '2' | '@' => 0x03 case '3' | '#' => 0x04 case '4' | '$' => 0x05
    case '5' | '%' => 0x06 case '6' | '^' => 0x07 case '7' | '&' => 0x08 case '8' | '*' => 0x09
    case '9' | '(' => 0x0A case '0' | ')' => 0x0B case '-' | '_' => 0x0C case '=' | '+' => 0x0D
    case '[' | '{' => 0x1A case ']' | '}' => 0x1B case ';' | ':' => 0x27 case '\'' | '"' => 0x28
    case '`' | '~' => 0x29 case '\\' | '|' => 0x2B case ',' | '<' => 0x33 case '.' | '>' => 0x34
    case '/' | '?' => 0x35
    case _ => 0x39
  }

  // The key whose cap shows c.
  function KeyOf(c: char): (key: byte)
    requires IsPrintable(c)
    ensures IsCharacterKey(key)
  {
    if IsLetter(c) then LetterKey(Lower(c)) else SymbolKey(c)
  }

  // Whether Shift has to be down to type c; Caps Lock swaps this for letters.
  predicate NeedsShift(c: char, caps: bool) {
    if IsLetter(c) then caps == ('a' <= c)
    else '!' <= c <= '&' || '(' <= c <= '+' || c == ':' || c == '<' || '>' <= c <= '@'
         || '^' <= c <= '_' || '{' <= c <= '~'
  }

  lemma LetterKeyTypes(c: char, shift: bool, caps: bool)
    requires 'a' <= c <= 'z'
    ensures Ascii(LetterKey(c), shift, caps) == Letter(c, shift, caps)
  {
  }

  lemma SymbolKeyTypes(c: char, caps: bool)
    requires IsPrintable(c) && !IsLetter(c)
    ensures Ascii(SymbolKey(c), NeedsShift(c, caps), caps) == c
  {
    if c <= ')' {
    } else if c <= '5' {
    } else if c <= '@' {
    }
  }

  lemma KeyOfTypes(c: char, caps: bool)
    requires IsPrintable(c)
    ensures Ascii(KeyOf(c), NeedsShift(c, caps), caps) == c
  {
    hide Ascii, LetterKey, SymbolKey;
    if IsLetter(c) {
      LetterKeyTypes(Lower(c), NeedsShift(c, caps), caps);
    } else {
      SymbolKeyTypes(c, caps);
    }
  }

  // Either Shift key.
  function ShiftKey(right: bool): (key: byte)
    ensures key < 0x80
  {
    if right then 0x36 else 0x2A
  }

  // A character as keystrokes: press and release, inside a Shift where that is needed.
  function EncodeChar(c: char, right: bool, caps: bool): seq<byte>
    requires IsPrintable(c)
  {
    var key := KeyOf(c);
    if NeedsShift(c, caps) then [ShiftKey(right), key, key + 0x80, ShiftKey(right) + 0x80]
    else [key, key + 0x80]
  }

  // rights chooses the Shift key of each character.
  function EncodeText(s: string, rights: seq<bool>, caps: bool): seq<byte>
    requires AllPrintable(s) && |rights| == |s|
  {
    if s == [] then [] else EncodeChar(s[0], rights[0], caps) + EncodeText(s[1..], rights[1..], caps)
  }

  function Idle(n: nat): seq<byte> {
    seq(n, _ => 0)
  }

  // Enter, pressed and released; the driver throws the last three bytes away.
  const ENTER_KEYSTROKE: seq<byte> := [0x1C, 0x9C, 0, 0]

  // Lines that fit, and a pause before each of them that outlasts the Enter cooldown.
  predicate Typable(lines: seq<string>, rights: seq<seq<bool>>, pauses: seq<nat>) {
    && |lines| == |rights| == |pauses|
    && (forall i | 0 <= i < |lines| :: AllPrintable(lines[i]) && |lines[i]| <= 255)
    && (forall i | 0 <= i < |rights| :: |rights[i]| == |lines[i]|)
    && (forall i | 0 <= i < |pauses| :: pauses[i] >= 5000)
  }

  function EncodeLines(lines: seq<string>, rights: seq<seq<bool>>, pauses: seq<nat>, caps: bool): seq<byte>
    requires Typable(lines, rights, pauses)
  {
    if lines == [] then []
    else
      var rest := EncodeLines(lines[1..], rights[1..], pauses[1..], caps);
      Idle(pauses[0]) + (EncodeText(lines[0], rights[0], caps) + (ENTER_KEYSTROKE + rest))
  }

  // No key is down.
  predicate AtRest(k: Kb) {
    k.held == 0 && k.last == 0 && !k.shift
  }

  lemma {:induction false} ReadSplit(k: Kb, a: seq<byte>, b: seq<byte>)
    requires ReadLine(k, a).Waiting?
    ensures ReadLine(k, a + b) == Later(ReadLine(ReadLine(k, a).kb, b), |a|)
    decreases |a|
  {
    hide Poll;
    if a == [] {
      assert a + b == b;
    } else {
      assert (a + b)[1..] == a[1..] + b;
      ReadSplit(Poll(k, a[0]).kb, a[1..], b);
    }
  }

  lemma {:induction false} IdleCools(k: Kb, n: nat)
    requires AtRest(k)
    ensures ReadLine(k, Idle(n)) == Waiting(k.(cooldown := if k.cooldown <= n then 0 else k.cooldown - n))
    decreases n
  {
    if n == 0 {
    } else {
      assert Idle(n)[1..] == Idle(n - 1);
      IdleCools(Cooled(k), n - 1);
    }
  }

  // What typing one character adds to the line, and leaves alone.
  ghost predicate Types(k: Kb, bytes: seq<byte>, s: string) {
    var r := ReadLine(k, bytes);
    && r.Waiting? && r.kb.line == k.line + s
    && r.kb.caps == k.caps && r.kb.cooldown <= k.cooldown
  }

  lemma TypeKey(k: Kb, key: byte)
    requires TypesCharacter(k, key)
    ensures Types(k, [key, key + RELEASE], [Ascii(key, k.shift, k.caps)])
    ensures var h := ReadLine(k, [key, key + RELEASE]).kb;
            h.held == 0 && h.last == 0 && h.shift == k.shift
  {
    hide Ascii, Pressed;
    PressTypes(k, key);
    var h := Poll(k, key).kb;
    var bytes := [key, key + RELEASE];
    assert bytes[1..] == [key + RELEASE];
    assert ReadLine(k, bytes) == ReadLine(h, [key + RELEASE]);
    assert [key + RELEASE][1..] == [];
    assert ReadLine(h, [key + RELEASE]) == Waiting(Poll(h, key + RELEASE).kb);
  }

  lemma ShiftDown(k: Kb, right: bool)
    requires AtRest(k)
    ensures var key := ShiftKey(right);
            Poll(k, key) == Outcome(Cooled(k).(last := key, shift := true), ExtraCursor)
  {
  }

  lemma ShiftUp(k: Kb, right: bool)
    requires k.held == 0 && k.last == 0
    ensures var o := Poll(k, ShiftKey(right) + 0x80);
            o.edit == Quiet && AtRest(o.kb) && o.kb.line == k.line && o.kb.caps == k.caps
            && o.kb.cooldown <= k.cooldown
  {
  }

  lemma TypeOne(k: Kb, c: char, right: bool)
    requires AtRest(k) && IsPrintable(c) && |k.line| < 255
    ensures Types(k, EncodeChar(c, right, k.caps), [c])
    ensures AtRest(ReadLine(k, EncodeChar(c, right, k.caps)).kb)
  {
    hide Ascii, KeyOf, NeedsShift, Poll, ShiftKey;
    KeyOfTypes(c, k.caps);
    var key := KeyOf(c);
    if NeedsShift(c, k.caps) {
      ShiftDown(k, right);
      var down := Poll(k, ShiftKey(right)).kb;
      var stroke := [key, key + RELEASE];
      var up: seq<byte> := [ShiftKey(right) + RELEASE];
      ShiftIsNoCharacter(right, key);
      TypeKey(down, key);
      assert EncodeChar(c, right, k.caps)[1..] == stroke + up;
      ReadSplit(down, stroke, up);
      var h := ReadLine(down, stroke).kb;
      ShiftUp(h, right);
      assert up[1..] == [];
      assert ReadLine(h, up) == Waiting(Poll(h, ShiftKey(right) + RELEASE).kb);
    } else {
      TypeKey(k, key);
    }
  }

  lemma ShiftIsNoCharacter(right: bool, key: byte)
    requires IsCharacterKey(key)
    ensures ShiftKey(right) != key
  {
  }

  lemma {:induction false} TypeAll(k: Kb, s: string, rights: seq<bool>)
    requires AtRest(k) && AllPrintable(s) && |k.line| + |s| <= 255 && |rights| == |s|
    ensures Types(k, EncodeText(s, rights, k.caps), s)
    ensures AtRest(ReadLine(k, EncodeText(s, rights, k.caps)).kb)
    decreases |s|
  {
    hide ReadLine, EncodeChar;
    if s == [] {
      NoPoll(k);
    } else {
      var first := EncodeChar(s[0], rights[0], k.caps);
      TypeOne(k, s[0], rights[0]);
      var h := ReadLine(k, first).kb;
      TypeAll(h, s[1..], rights[1..]);
      ReadSplit(k, first, EncodeText(s[1..], rights[1..], k.caps));
      assert k.line + [s[0]] + s[1..] == k.line + s;
    }
  }

  // One line, typed after a pause, is read back, and Enter leaves the keyboard at rest.
  lemma TypeLine(k: Kb, s: string, rights: seq<bool>, pause: nat, rest: seq<byte>)
    requires AtRest(k) && k.cooldown <= pause && AllPrintable(s) && |s| <= 255 && |rights| == |s|
    ensures var text := EncodeText(s, rights, k.caps);
            var r := ReadLine(Opened(k), Idle(pause) + (text + (ENTER_KEYSTROKE + rest)));
            r.Line? && r.kb.line == s && r.port == rest && AtRest(r.kb)
            && r.kb.cooldown == 5000 && r.kb.caps == k.caps
  {
    hide EncodeText, ReadLine;
    IdleCools(Opened(k), pause);
    var cooled := Opened(k).(cooldown := 0);
    var text := EncodeText(s, rights, k.caps);
    TypeAll(cooled, s, rights);
    ReadSplit(Opened(k), Idle(pause), text + (ENTER_KEYSTROKE + rest));
    ReadSplit(cooled, text, ENTER_KEYSTROKE + rest);
    PressEnterCloses(ReadLine(cooled, text).kb, rest);
  }

  lemma PressEnterCloses(k: Kb, rest: seq<byte>)
    requires AtRest(k) && k.cooldown == 0
    ensures ReadLine(k, ENTER_KEYSTROKE + rest)
            == Line(k.(cooldown := ENTER_COOLDOWN, holdTime := 0, delay := INITIAL_DELAY), 1, rest)
  {
    var bytes := ENTER_KEYSTROKE + rest;
    assert Drained(bytes[1..]) == rest;
    OnePoll(k, bytes);
  }

  // Whatever lines are typed, with either Shift key, from either Caps Lock position, are the
  // lines returned.
  lemma {:induction false} TypingRoundTrip(k: Kb, lines: seq<string>, rights: seq<seq<bool>>, pauses: seq<nat>)
    requires AtRest(k) && k.cooldown <= 5000 && Typable(lines, rights, pauses)
    ensures Lines(k, EncodeLines(lines, rights, pauses, k.caps)) == lines
    decreases |lines|
  {
    hide EncodeText, ReadLine;
    if lines == [] {
      NoPoll(Opened(k));
    } else {
      var rest := EncodeLines(lines[1..], rights[1..], pauses[1..], k.caps);
      TypeLine(k, lines[0], rights[0], pauses[0], rest);
      var r := ReadLine(Opened(k), EncodeLines(lines, rights, pauses, k.caps));
      TypingRoundTrip(r.kb, lines[1..], rights[1..], pauses[1..]);
    }
  }

  // ---------------------------------------------------------------- other keys

  // A key that is pressed and let go.
  function Tap(key: byte): seq<byte>
    requires key < RELEASE
  {
    [key, key + RELEASE]
  }

  lemma TapPolls(k: Kb, key: byte)
    requires key < RELEASE && !Poll(k, key).edit.Accept?
    ensures ReadLine(k, Tap(key)) == Waiting(Poll(Poll(k, key).kb, key + RELEASE).kb)
  {
    hide Poll;
    var h, up := Poll(k, key).kb, [key + RELEASE];
    ReleaseIsQuiet(h, key);
    assert Tap(key)[1..] == up && up[1..] == [];
    assert ReadLine(h, up) == ReadLine(Poll(h, up[0]).kb, []);
    assert ReadLine(k, Tap(key)) == ReadLine(h, up);
  }

  lemma ReleaseIsQuiet(k: Kb, key: byte)
    requires key < RELEASE
    ensures Poll(k, key + RELEASE).edit == Quiet
  {
  }

  // Caps Lock swaps the case of letters until it is tapped again.
  lemma CapsLockToggles(k: Kb)
    requires AtRest(k)
    ensures var r := ReadLine(k, Tap(0x3A));
            r.Waiting? && AtRest(r.kb) && r.kb.line == k.line && r.kb.caps == !k.caps
  {
    hide Ascii;
    TapPolls(k, CAPS_LOCK);
  }

  // Tab is four taps of the space bar, or as many as the line has room for below 252.
  lemma TabIsFourSpaces(k: Kb)
    requires AtRest(k) && |k.line| <= 255
    ensures var n := if |k.line| >= 252 then 0 else Min(4, 252 - |k.line|);
            var r := ReadLine(k, Tap(0x0F));
            && r.Waiting? && AtRest(r.kb)
            && r.kb.line == ReadLine(k, EncodeText(Spaces(n), AllLeft(n), k.caps)).kb.line
  {
    hide EncodeText, ReadLine;
    var n := TabWidth(|k.line|);
    TapTab(k);
    TypeAll(k, Spaces(n), AllLeft(n));
  }

  function AllLeft(n: nat): seq<bool> {
    seq(n, _ => false)
  }

  lemma TapTab(k: Kb)
    requires AtRest(k)
    ensures var r := ReadLine(k, Tap(TAB));
            r.Waiting? && AtRest(r.kb) && r.kb.line == k.line + Spaces(TabWidth(|k.line|))
  {
    hide Ascii, Spaces;
    TapPolls(k, TAB);
  }

  // Backspace takes back the character typed before it, and on an empty line nothing.
  lemma RuboutUndoesTyping(k: Kb, c: char, right: bool)
    requires AtRest(k) && IsPrintable(c) && |k.line| < 255
    ensures Types(k, EncodeChar(c, right, k.caps) + Tap(0x0E), [])
    ensures k.line == [] ==> Types(k, Tap(0x0E), [])
  {
    hide EncodeChar, ReadLine;
    var typed := ReadLine(k, EncodeChar(c, right, k.caps)).kb;
    TypeOne(k, c, right);
    TapRubout(typed);
    TapRubout(k);
    ReadSplit(k, EncodeChar(c, right, k.caps), Tap(RUBOUT));
    assert Shortened(k.line + [c], 1) == k.line == k.line + [];
    if k.line == [] {
      assert Shortened(k.line, 1) == [] == k.line + [];
      assert Types(k, Tap(RUBOUT), []);
    }
  }

  lemma TapRubout(k: Kb)
    requires AtRest(k)
    ensures var r := ReadLine(k, Tap(RUBOUT));
            r.Waiting? && r.kb.line == Shortened(k.line, 1) && r.kb.caps == k.caps && r.kb.cooldown <= k.cooldown
  {
    hide Ascii;
    TapPolls(k, RUBOUT);
  }
}
