/** What each byte from the keyboard does, and what a key that stays down does, in the numbers
    of kernel/drivers/keyboard.h. */
module Keys {
  import opened Basics
  import opened Keyboard
  import opened LineEditing

  // The state after the given polls, of however many lines.
  function After(k: Kb, polls: seq<byte>): Kb
    decreases |polls|
  {
    if polls == [] then k else After(Poll(k, polls[0]).kb, polls[1..])
  }

  lemma {:induction false} AfterSnoc(k: Kb, polls: seq<byte>, b: byte)
    ensures After(k, polls + [b]) == Poll(After(k, polls), b).kb
    decreases |polls|
  {
    hide Poll;
    if polls == [] {
      assert After(k, [b]) == After(Poll(k, b).kb, []);
    } else {
      assert (polls + [b])[1..] == polls[1..] + [b];
      AfterSnoc(Poll(k, polls[0]).kb, polls[1..], b);
    }
  }

  lemma {:induction false} ReadingIsAfter(k: Kb, polls: seq<byte>)
    ensures ReadLine(k, polls).Waiting? ==> ReadLine(k, polls).kb == After(k, polls)
    decreases |polls|
  {
    hide Poll;
    if polls == [] {
    } else {
      ReadingIsAfter(Poll(k, polls[0]).kb, polls[1..]);
    }
  }

  // A new line starts empty, and with whatever keys are down from the line before.
  lemma LineOpens(k: Kb)
    ensures var p := Opened(k);
            && p.line == [] && SameHeld(k, p) && p.last == k.last && p.cooldown == k.cooldown
            && p.shift == k.shift && p.caps == k.caps && p.ctrl == k.ctrl && p.alt == k.alt
  {
  }

  // ---------------------------------------------------------------- modifiers

  // The driver takes b for the press of a key that was not down.
  predicate IsNewPress(k: Kb, b: byte) {
    0 < b < 0x80 && b != k.held && b != k.last
  }

  // Both Shift keys, Ctrl and Alt follow their presses and releases, Caps Lock its presses.
  lemma ModifiersFollow(k: Kb, b: byte)
    ensures var p := Poll(k, b).kb;
            && p.shift == (if b == 0xAA || b == 0xB6 then false
                           else k.shift || (IsNewPress(k, b) && (b == 0x2A || b == 0x36)))
            && p.ctrl == (if b == 0x9D then false else k.ctrl || (IsNewPress(k, b) && b == 0x1D))
            && p.alt == (if b == 0xB8 then false else k.alt || (IsNewPress(k, b) && b == 0x38))
            && p.caps == (k.caps != (IsNewPress(k, b) && b == 0x3A))
  {
    hide Ascii, Held, Pressed;
    HeldKeepsModifiers(Cooled(k));
    PressedModifiers(Cooled(k), b);
  }

  lemma HeldKeepsModifiers(k: Kb)
    ensures var h := Held(k).kb;
            h.shift == k.shift && h.ctrl == k.ctrl && h.alt == k.alt && h.caps == k.caps
  {
  }

  lemma PressedModifiers(k: Kb, b: byte)
    ensures var p := Pressed(k, b).kb;
            && p.shift == (k.shift || b == 0x2A || b == 0x36) && p.ctrl == (k.ctrl || b == 0x1D)
            && p.alt == (k.alt || b == 0x38) && p.caps == (k.caps != (b == 0x3A))
  {
    hide Struck;
    StruckKeepsModifiers(Modified(k.(last := b), b, false), b);
  }

  lemma StruckKeepsModifiers(k: Kb, b: byte)
    ensures var h := Struck(k, b).kb;
            h.shift == k.shift && h.ctrl == k.ctrl && h.alt == k.alt && h.caps == k.caps
  {
    hide Ascii;
  }

  // The i-th poll is the press of a Shift key.
  predicate ShiftsAt(k: Kb, polls: seq<byte>, i: nat) {
    i < |polls| && (polls[i] == 0x2A || polls[i] == 0x36) && IsNewPress(After(k, polls[..i]), polls[i])
  }

  // No Shift key is let go from the i-th poll on.
  predicate NoShiftRelease(polls: seq<byte>, i: nat) {
    forall j | i <= j < |polls| :: polls[j] != 0xAA && polls[j] != 0xB6
  }

  // After any polls Shift counts as down exactly if it did before, or one of the two keys was
  // pressed, and none of them has been let go since.
  lemma {:induction false} ShiftFollows(k: Kb, polls: seq<byte>)
    ensures After(k, polls).shift
            <==> (k.shift && NoShiftRelease(polls, 0))
                 || exists i: nat :: ShiftsAt(k, polls, i) && NoShiftRelease(polls, i + 1)
    decreases |polls|
  {
    hide Poll, IsNewPress, After;
    if polls == [] {
      AfterNone(k);
    } else {
      var n := |polls| - 1;
      var early, b := polls[..n], polls[n];
      ShiftFollows(k, early);
      assert polls == early + [b];
      AfterSnoc(k, early, b);
      ModifiersFollow(After(k, early), b);
      forall i: nat | i < n
        ensures ShiftsAt(k, polls, i) == ShiftsAt(k, early, i)
      {
        assert polls[..i] == early[..i];
      }
      forall i: nat | i <= n
        ensures NoShiftRelease(polls, i) == (NoShiftRelease(early, i) && b != 0xAA && b != 0xB6)
      {
        ReleaseSplits(early, b, i);
      }
      LastShift(k, early, b);
    }
  }

  lemma AfterNone(k: Kb)
    ensures After(k, []) == k
  {
  }

  lemma ReleaseSplits(early: seq<byte>, b: byte, i: nat)
    requires i <= |early|
    ensures NoShiftRelease(early + [b], i) == (NoShiftRelease(early, i) && b != 0xAA && b != 0xB6)
  {
    var polls := early + [b];
    assert polls[|early|] == b;
    assert forall j | 0 <= j < |early| :: polls[j] == early[j];
  }

  lemma LastShift(k: Kb, early: seq<byte>, b: byte)
    ensures ShiftsAt(k, early + [b], |early|)
            == ((b == 0x2A || b == 0x36) && IsNewPress(After(k, early), b))
    ensures NoShiftRelease(early + [b], |early| + 1)
  {
    assert (early + [b])[..|early|] == early;
  }

  // ---------------------------------------------------------------- the table of keys

  // The key and the Shift position of every printable character, and no others, give it.
  lemma AsciiTable(scancode: byte, shift: bool, caps: bool, c: char)
    requires IsPrintable(c)
    ensures Ascii(scancode, shift, caps) == c
            <==> scancode == KeyOf(c) && (c == ' ' || shift == NeedsShift(c, caps))
  {
    hide Ascii, KeyOf, NeedsShift;
    KeyOfTypes(c, caps);
    SpaceIsSpace(shift, caps);
    if Ascii(scancode, shift, caps) == c {
      AsciiFindsKey(scancode, shift, caps);
    }
  }

  lemma SpaceIsSpace(shift: bool, caps: bool)
    ensures KeyOf(' ') == 0x39 && Ascii(0x39, shift, caps) == ' '
  {
  }

  lemma AsciiFindsKey(scancode: byte, shift: bool, caps: bool)
    requires IsPrintable(Ascii(scancode, shift, caps))
    ensures Finds(scancode, shift, caps)
  {
    hide Ascii, Finds;
    if scancode < 0x0A {
      FindsDigits(scancode, shift, caps);
    } else if scancode < 0x11 {
      FindsFirstRowEnd(scancode, shift, caps);
    } else if scancode < 0x17 {
      FindsSecondRowLeft(scancode, shift, caps);
    } else if scancode < 0x1E {
      FindsSecondRowRight(scancode, shift, caps);
    } else if scancode < 0x22 {
      FindsThirdRowLeft(scancode, shift, caps);
    } else if scancode < 0x27 {
      FindsThirdRowRight(scancode, shift, caps);
    } else if scancode < 0x2C {
      FindsThirdRowEnd(scancode, shift, caps);
    } else if scancode < 0x31 {
      FindsFourthRowLeft(scancode, shift, caps);
    } else if scancode < 0x34 {
      FindsFourthRowRight(scancode, shift, caps);
    } else {
      FindsFourthRowEnd(scancode, shift, caps);
    }
  }

  predicate Finds(scancode: byte, shift: bool, caps: bool) {
    var c := Ascii(scancode, shift, caps);
    IsPrintable(c) ==> KeyOf(c) == scancode && (c == ' ' || shift == NeedsShift(c, caps))
  }

  lemma FindsDigits(scancode: byte, shift: bool, caps: bool)
    requires scancode < 0x0A
    ensures Finds(scancode, shift, caps)
  {
  }

  lemma FindsFirstRowEnd(scancode: byte, shift: bool, caps: bool)
    requires 0x0A <= scancode < 0x11
    ensures Finds(scancode, shift, caps)
  {
  }

  lemma FindsSecondRowLeft(scancode: byte, shift: bool, caps: bool)
    requires 0x11 <= scancode < 0x17
    ensures Finds(scancode, shift, caps)
  {
  }

  lemma FindsSecondRowRight(scancode: byte, shift: bool, caps: bool)
    requires 0x17 <= scancode < 0x1E
    ensures Finds(scancode, shift, caps)
  {
  }

  lemma FindsThirdRowLeft(scancode: byte, shift: bool, caps: bool)
    requires 0x1E <= scancode < 0x22
    ensures Finds(scancode, shift, caps)
  {
  }

  lemma FindsThirdRowRight(scancode: byte, shift: bool, caps: bool)
    requires 0x22 <= scancode < 0x27
    ensures Finds(scancode, shift, caps)
  {
  }

  lemma FindsThirdRowEnd(scancode: byte, shift: bool, caps: bool)
    requires 0x27 <= scancode < 0x2C
    ensures Finds(scancode, shift, caps)
  {
  }

  lemma FindsFourthRowLeft(scancode: byte, shift: bool, caps: bool)
    requires 0x2C <= scancode < 0x31
    ensures Finds(scancode, shift, caps)
  {
  }

  lemma FindsFourthRowRight(scancode: byte, shift: bool, caps: bool)
    requires 0x31 <= scancode < 0x34
    ensures Finds(scancode, shift, caps)
  {
  }

  lemma FindsFourthRowEnd(scancode: byte, shift: bool, caps: bool)
    requires 0x34 <= scancode
    ensures Finds(scancode, shift, caps)
  {
  }

  // The other keys have no character, except that Tab has its own.
  lemma AsciiOfOthers(scancode: byte, shift: bool, caps: bool)
    ensures var c := Ascii(scancode, shift, caps);
            (c == '\t' <==> scancode == 0x0F) && (c == NUL || c == '\t' || IsPrintable(c))
  {
  }

  // ---------------------------------------------------------------- one poll

  // What is remembered of the key that is down.
  predicate SameHeld(k: Kb, p: Kb) {
    p.held == k.held && p.heldChar == k.heldChar && p.delay == k.delay && p.holdTime == k.holdTime
  }

  // A key that is let go is forgotten if it is the one held; any other leaves that repeating.
  lemma ReleasePoll(k: Kb, b: byte)
    requires b >= 0x80
    ensures var o := Poll(k, b);
            && o.edit == Quiet && o.kb.line == k.line && o.kb.last == 0
            && if b - 0x80 == k.held then
                 o.kb.held == 0 && o.kb.heldChar == NUL && o.kb.delay == 0 && o.kb.holdTime == 0
               else SameHeld(k, o.kb)
  {
  }

  // Nothing happens without a byte when no held key can repeat, and with a byte that repeats
  // the last one although another key is held.
  lemma QuietPoll(k: Kb, b: byte)
    requires (b == 0 && (k.held == 0 || k.heldChar == NUL)) || (0 < b < 0x80 && b == k.last && b != k.held)
    ensures var o := Poll(k, b);
            o.edit == Quiet && o.kb.line == k.line && o.kb.last == k.last && SameHeld(k, o.kb)
  {
  }

  // A poll with the held key down counts its delay down; after that the key rubs out or
  // types, if it can, every 5001 polls.
  lemma HeldPoll(k: Kb, b: byte)
    requires 0 < k.held < 0x80 && (b == k.held || (b == 0 && k.heldChar != NUL))
    ensures var o := Poll(k, b);
            && o.kb.last == k.last && o.kb.held == k.held && o.kb.heldChar == k.heldChar
            && o.kb.holdTime == k.holdTime + 1
            && o.kb.delay == (if k.delay > 0 then k.delay - 1 else if k.heldChar == NUL then 0 else 5000)
            && o.kb.line == (if k.delay > 0 || k.heldChar == NUL then k.line
                             else if k.held == 0x0E then Shortened(k.line, 1)
                             else if k.heldChar == 8 as char || |k.line| >= 255 then k.line
                             else k.line + [k.heldChar])
  {
    hide Ascii, Pressed, Held;
    HeldIs(Cooled(k));
  }

  lemma HeldIs(k: Kb)
    ensures var o := Held(k);
            && o.kb.last == k.last && o.kb.held == k.held && o.kb.heldChar == k.heldChar
            && o.kb.holdTime == k.holdTime + 1
            && o.kb.delay == (if k.delay > 0 then k.delay - 1 else if k.heldChar == NUL then 0 else 5000)
            && o.kb.line == (if k.delay > 0 || k.heldChar == NUL then k.line
                             else if k.held == 0x0E then Shortened(k.line, 1)
                             else if k.heldChar == 8 as char || |k.line| >= 255 then k.line
                             else k.line + [k.heldChar])
  {
  }

  lemma NewPress(k: Kb, b: byte)
    requires IsNewPress(k, b)
    ensures Poll(k, b) == Pressed(Cooled(k), b)
  {
    hide Pressed, Held;
  }

  // The five modifier keys leave the line, and what is held, alone; their extra mark shows.
  lemma ModifierPoll(k: Kb, b: byte)
    requires IsNewPress(k, b)
    ensures var o := Poll(k, b);
            && (o.edit.ExtraCursor? <==> b == 0x2A || b == 0x36 || b == 0x1D || b == 0x38 || b == 0x3A)
            && (o.edit.ExtraCursor? ==> o.kb.line == k.line && o.kb.last == b && SameHeld(k, o.kb))
            && (!o.edit.ExtraCursor? && !o.edit.Accept? ==>
                  o.kb.last == b == o.kb.held && o.kb.holdTime == 0 && o.kb.delay == 10000)
  {
    hide Ascii, Poll;
    NewPress(k, b);
  }

  // Enter leaves the line as it is, and the character of the key held before in its place.
  lemma EnterPoll(k: Kb)
    requires IsNewPress(k, 0x1C)
    ensures var o := Poll(k, 0x1C);
            && o.kb.line == k.line && o.kb.heldChar == k.heldChar
            && (o.edit == Accept || o.edit == Redraw) && (o.edit == Accept <==> k.cooldown <= 1)
            && (o.edit == Accept ==> o.kb.held == 0 && o.kb.last == 0)
  {
    hide Ascii, Poll;
    NewPress(k, 0x1C);
  }

  // Backspace takes a character off, and Tab adds up to four blanks below 252.
  lemma RuboutPoll(k: Kb)
    requires IsNewPress(k, 0x0E)
    ensures Poll(k, 0x0E).kb.line == Shortened(k.line, 1) && Poll(k, 0x0E).kb.heldChar == 8 as char
  {
    hide Ascii, Poll;
    NewPress(k, 0x0E);
  }

  lemma TabPoll(k: Kb)
    requires IsNewPress(k, 0x0F)
    ensures var p, n := Poll(k, 0x0F).kb, if |k.line| >= 252 then 0 else Min(4, 252 - |k.line|);
            p.line == k.line + Spaces(n) && p.heldChar == NUL
  {
    hide Ascii, Poll, Spaces;
    NewPress(k, 0x0F);
  }

  // Any other key types its character if it has one and the line has fewer than 255, and
  // only then can it repeat.
  lemma CharacterPoll(k: Kb, b: byte)
    requires IsNewPress(k, b) && b != 0x0E && b != 0x0F && b != 0x1C
    requires b != 0x2A && b != 0x36 && b != 0x1D && b != 0x38 && b != 0x3A
    ensures var p, c := Poll(k, b).kb, Ascii(b, k.shift, k.caps);
            if c != NUL && |k.line| < 255 then p.line == k.line + [c] && p.heldChar == c
            else p.line == k.line && p.heldChar == NUL
  {
    hide Ascii, Poll;
    NewPress(k, b);
  }

  // ---------------------------------------------------------------- keys that stay down

  // A key without a character, or a stale backspace under another key, never repeats.
  lemma {:induction false} SilentKey(k: Kb, polls: seq<byte>)
    requires 0 < k.held < 0x80 && StaysDown(k.held, polls)
    requires k.heldChar == NUL || (k.heldChar == 8 as char && k.held != 0x0E)
    ensures ReadLine(k, polls).Waiting? && ReadLine(k, polls).kb.line == k.line
    decreases |polls|
  {
    hide Poll;
    if polls == [] {
    } else {
      SilentPoll(k, polls[0]);
      SilentKey(Poll(k, polls[0]).kb, polls[1..]);
    }
  }

  lemma SilentPoll(k: Kb, b: byte)
    requires 0 < k.held < 0x80 && (b == 0 || b == k.held)
    requires k.heldChar == NUL || (k.heldChar == 8 as char && k.held != 0x0E)
    ensures var o := Poll(k, b);
            !o.edit.Accept? && o.kb.line == k.line && o.kb.held == k.held && o.kb.heldChar == k.heldChar
  {
    hide Ascii, Pressed;
  }

  // A held Tab indents once, and a key without a character does nothing.
  lemma HeldTabOnce(k: Kb, key: byte, polls: seq<byte>)
    requires IsNewPress(k, key) && StaysDown(key, polls)
    requires key == 0x0F || (IsCharacterKey(key) && Ascii(key, k.shift, k.caps) == NUL)
    ensures var r := ReadLine(k, [key] + polls);
            && r.Waiting?
            && r.kb.line == if key == 0x0F then ReadLine(k, [0x0F]).kb.line else k.line
  {
    hide Poll, Ascii, Spaces;
    var h := Poll(k, key).kb;
    ModifierPoll(k, key);
    AcceptNeedsCooldown(k, key);
    if key == 0x0F {
      TabPoll(k);
    } else {
      CharacterPoll(k, key);
    }
    SilentKey(h, polls);
    OnePoll(k, [key] + polls);
    assert ([key] + polls)[1..] == polls;
    OnePoll(k, [key]);
    NoPoll(h);
  }

  // An Enter that comes too early is ignored, however long it is held; but it repeats the
  // character of the key that was held before it.
  lemma EarlyEnter(k: Kb, polls: seq<byte>)
    requires IsNewPress(k, 0x1C) && k.cooldown > 1 && StaysDown(0x1C, polls) && |k.line| <= 255
    ensures var n := |polls|;
            var repeats := if n < 10001 then 0 else 1 + (n - 10001) / 5001;
            var r := ReadLine(k, [0x1C] + polls);
            && r.Waiting?
            && r.kb.line == if k.heldChar == NUL || k.heldChar == 8 as char then k.line
                            else k.line + Copies(k.heldChar, Min(repeats, 255 - |k.line|))
  {
    hide Copies, Min, ReadLine, Repeats, Poll, IsNewPress, StaysDown;
    EnterStays(k, polls);
    if k.heldChar == NUL || k.heldChar == 8 as char {
      SilentKey(Poll(k, 0x1C).kb, polls);
    } else {
      HeldCharacter(Poll(k, 0x1C).kb, polls);
      RepeatsInitially(|polls|);
    }
  }

  lemma EnterStays(k: Kb, polls: seq<byte>)
    requires IsNewPress(k, 0x1C) && k.cooldown > 1
    ensures var h, r := Poll(k, 0x1C).kb, ReadLine(k, [0x1C] + polls);
            && (ReadLine(h, polls).Waiting? ==> r == ReadLine(h, polls))
            && h.line == k.line && h.heldChar == k.heldChar && h.held == 0x1C && h.delay == 10000
  {
    hide Poll, ReadLine, LineCalls;
    EnterPoll(k);
    ModifierPoll(k, 0x1C);
    OnePoll(k, [0x1C] + polls);
    assert ([0x1C] + polls)[1..] == polls;
  }

  lemma RepeatsInitially(n: nat)
    ensures Repeats(10000, n) == if n < 10001 then 0 else 1 + (n - 10001) / 5001
  {
  }
}
