/** The shell's argument tokenizer (parse_arguments in kernel/kernel.c). */
module Arguments {
  import opened Basics
  import Keyboard
  import LineEditing

  const BUFFER := 64

  // ---------------------------------------------------------------- words

  // The length of the run of spaces at the front.
  function SpaceRun(s: string): (n: nat)
    ensures n <= |s| && (n < |s| ==> s[n] != ' ') && forall i | 0 <= i < n :: s[i] == ' '
  {
    if s == [] || s[0] != ' ' then 0 else 1 + SpaceRun(s[1..])
  }

  // The length of the run of other characters at the front.
  function WordRun(s: string): (n: nat)
    ensures n <= |s| && (n < |s| ==> s[n] == ' ') && forall i | 0 <= i < n :: s[i] != ' '
  {
    if s == [] || s[0] == ' ' then 0 else 1 + WordRun(s[1..])
  }

  function Trimmed(s: string): (t: string)
    ensures t != [] ==> t[0] != ' '
  {
    s[SpaceRun(s)..]
  }

  function FirstWord(t: string): string {
    t[..WordRun(t)]
  }

  function AfterWord(t: string): (rest: string)
    ensures t != [] && t[0] != ' ' ==> |rest| < |t|
    ensures rest != [] ==> rest[0] == ' '
  {
    t[WordRun(t)..]
  }

  // The maximal space-free runs of s, in order.
  function Words(s: string): seq<string>
    decreases |s|
  {
    var t := Trimmed(s);
    if t == [] then [] else [FirstWord(t)] + Words(AfterWord(t))
  }

  predicate IsWord(w: string) {
    w != [] && ' ' !in w
  }

  // Words laid out with the given gaps: before, between and after them.
  function Join(words: seq<string>, gaps: seq<nat>): string
    requires |gaps| == |words| + 1
  {
    if words == [] then Spaces(gaps[0])
    else Spaces(gaps[0]) + (words[0] + Join(words[1..], gaps[1..]))
  }

  predicate Separates(words: seq<string>, gaps: seq<nat>) {
    |gaps| == |words| + 1 && forall i | 0 < i < |words| :: gaps[i] > 0
  }

  lemma JoinSplits(n: nat, w: string, rest: string)
    requires IsWord(w) && (rest == [] || rest[0] == ' ')
    ensures var s := Spaces(n) + (w + rest);
            Trimmed(s) == w + rest && FirstWord(w + rest) == w && AfterWord(w + rest) == rest
  {
    var s := Spaces(n) + (w + rest);
    assert w[0] in w && s[n] == w[0];
    assert forall i | 0 <= i < n :: s[i] == ' ';
    assert SpaceRun(s) == n;
    assert forall i | 0 <= i < |w| :: (w + rest)[i] == w[i] && w[i] in w;
    assert rest != [] ==> (w + rest)[|w|] == rest[0];
    assert WordRun(w + rest) == |w|;
  }

  lemma SpacesHaveNoWords(n: nat)
    ensures Trimmed(Spaces(n)) == [] && SpaceRun(Spaces(n)) == n
  {
  }

  lemma JoinStarts(words: seq<string>, gaps: seq<nat>)
    requires |gaps| == |words| + 1 && (words == [] || gaps[0] > 0)
    ensures var s := Join(words, gaps); s == [] || s[0] == ' '
  {
  }

  // Joining words with any gaps and splitting the result gives the words back.
  lemma {:induction false} WordsOfJoin(words: seq<string>, gaps: seq<nat>)
    requires Separates(words, gaps) && forall i | 0 <= i < |words| :: IsWord(words[i])
    ensures Words(Join(words, gaps)) == words
    decreases |words|
  {
    hide Trimmed, FirstWord, AfterWord;
    if words == [] {
      SpacesHaveNoWords(gaps[0]);
    } else {
      var rest := Join(words[1..], gaps[1..]);
      WordsOfJoin(words[1..], gaps[1..]);
      JoinStarts(words[1..], gaps[1..]);
      JoinSplits(gaps[0], words[0], rest);
      assert words == [words[0]] + words[1..];
    }
  }

  function Gaps(s: string): seq<nat>
    decreases |s|
  {
    var t := Trimmed(s);
    [SpaceRun(s)] + if t == [] then [] else Gaps(AfterWord(t))
  }

  lemma SplitJoins(s: string)
    ensures s == Spaces(SpaceRun(s)) + Trimmed(s)
    ensures Trimmed(s) == FirstWord(Trimmed(s)) + AfterWord(Trimmed(s))
    ensures Trimmed(s) != [] ==> IsWord(FirstWord(Trimmed(s)))
    ensures s != [] && s[0] == ' ' ==> SpaceRun(s) > 0
  {
    hide SpaceRun, Trimmed;
    SpacesFirst(s);
    StartsWithWord(Trimmed(s));
  }

  lemma SpacesFirst(s: string)
    ensures s == Spaces(SpaceRun(s)) + Trimmed(s)
  {
    assert s[..SpaceRun(s)] == Spaces(SpaceRun(s));
  }

  lemma StartsWithWord(t: string)
    requires t == [] || t[0] != ' '
    ensures t == FirstWord(t) + AfterWord(t) && (t != [] ==> IsWord(FirstWord(t)))
  {
  }

  // Every string is its words, laid out with its own gaps.
  lemma {:induction false} JoinOfWords(s: string)
    ensures Separates(Words(s), Gaps(s)) && Join(Words(s), Gaps(s)) == s
    ensures forall i | 0 <= i < |Words(s)| :: IsWord(Words(s)[i])
    ensures Gaps(s)[0] == SpaceRun(s) && (s == [] ==> Words(s) == [])
    decreases |s|
  {
    hide Trimmed, FirstWord, AfterWord, IsWord, Spaces;
    SplitJoins(s);
    var t := Trimmed(s);
    if t == [] {
      assert Spaces(SpaceRun(s)) + [] == Spaces(SpaceRun(s));
    } else {
      var rest := AfterWord(t);
      JoinOfWords(rest);
      SplitJoins(rest);
      assert Words(s)[1..] == Words(rest) && Gaps(s)[1..] == Gaps(rest);
    }
  }

  // ---------------------------------------------------------------- the parser

  // The C string in a buffer.
  ghost predicate Holds(buffer: array<char>, s: string)
    reads buffer
  {
    |s| < buffer.Length && buffer[..|s|] == s && buffer[|s|] == NUL
  }

  function Nth(words: seq<string>, i: nat): string {
    if i < |words| then words[i] else []
  }

  method SkipSpaces(command: string, from: nat) returns (i: nat)
    requires from <= |command|
    ensures i <= |command| && command[i..] == Trimmed(command[from..])
  {
    i := from;
    while i < |command| && command[i] == ' '
      invariant from <= i <= |command|
      invariant Trimmed(command[i..]) == Trimmed(command[from..])
    {
      assert command[i..][1..] == command[i + 1..];
      i := i + 1;
    }
  }

  // The number of cells of a buffer that have been written, after one more write.
  function Reached(reach: nat, at: nat): nat {
    if at < reach then reach else at + 1
  }

  // reach counts the cells that are written: the word and its terminator.
  method CopyWord(command: string, from: nat, out: array<char>) returns (i: nat, ghost reach: nat)
    requires from <= |command| && |FirstWord(command[from..])| < out.Length && NUL !in command
    modifies out
    ensures i <= |command| && command[i..] == AfterWord(command[from..])
    ensures Holds(out, FirstWord(command[from..]))
    ensures out[0] == NUL <==> FirstWord(command[from..]) == []
    ensures reach == |FirstWord(command[from..])| + 1
    ensures forall k | reach <= k < out.Length :: out[k] == old(out[k])
  {
    hide WordRun, FirstWord, AfterWord;
    ghost var n := WordRun(command[from..]);
    WordIs(command, from);
    var j := 0;
    i, reach := from, 0;
    while i < |command| && command[i] != ' '
      invariant from <= i <= |command| && j == i - from <= n && reach == j
      invariant i + WordRun(command[i..]) == from + n
      invariant forall k | j <= k < out.Length :: out[k] == old(out[k])
      invariant forall k | 0 <= k < j :: out[k] == command[from + k]
    {
      WordGoesOn(command, i);
      out[j] := command[i];
      reach := Reached(reach, j);
      i, j := i + 1, j + 1;
    }
    WordStops(command, i);
    out[j] := NUL;
    reach := Reached(reach, j);
    assert out[..j] == command[from..i];
  }

  lemma WordIs(s: string, from: nat)
    requires from <= |s|
    ensures var n := WordRun(s[from..]);
            && from + n <= |s| && FirstWord(s[from..]) == s[from..from + n]
            && AfterWord(s[from..]) == s[from + n..]
  {
  }

  lemma WordStops(s: string, i: nat)
    requires i <= |s| && (i < |s| ==> s[i] == ' ')
    ensures WordRun(s[i..]) == 0
  {
  }

  lemma WordGoesOn(s: string, i: nat)
    requires i < |s| && s[i] != ' '
    ensures WordRun(s[i..]) == 1 + WordRun(s[i + 1..])
  {
    assert s[i..][1..] == s[i + 1..];
  }

  // What is left once the first word is taken.
  function Tail(s: string): string {
    AfterWord(Trimmed(s))
  }

  lemma WordByWord(s: string)
    ensures FirstWord(Trimmed(s)) == [] <==> Trimmed(s) == []
    ensures Words(s) == if Trimmed(s) == [] then [] else [FirstWord(Trimmed(s))] + Words(Tail(s))
  {
  }

  // The first three words, wherever the string ends.
  lemma FirstThree(s: string)
    ensures IsNth(s, 0, s) && IsNth(s, 1, Tail(s)) && IsNth(s, 2, Tail(Tail(s)))
    ensures (Trimmed(s) == [] ==> Trimmed(Tail(s)) == [])
    ensures (Trimmed(Tail(s)) == [] ==> Trimmed(Tail(Tail(s))) == [])
  {
    hide Words, Trimmed, FirstWord, AfterWord;
    WordByWord(s);
    WordByWord(Tail(s));
    WordByWord(Tail(Tail(s)));
    NoWordAfterEnd();
  }

  // The k-th word of s is the first one of rest, if there are so many.
  ghost predicate IsNth(s: string, k: nat, rest: string) {
    && Nth(Words(s), k) == FirstWord(Trimmed(rest))
    && (|Words(s)| > k <==> Trimmed(rest) != [])
    && (FirstWord(Trimmed(rest)) == [] <==> Trimmed(rest) == [])
  }

  lemma NoWordAfterEnd()
    ensures AfterWord([]) == [] && Trimmed([]) == [] && FirstWord([]) == []
  {
  }

  // The cells in front of a buffer's end are enough exactly for short words.
  lemma ReachFits(words: seq<string>, reach: seq<nat>)
    requires |reach| == 3 && forall k | 0 <= k < 3 :: reach[k] == |Nth(words, k)| + 1
    ensures (forall k | 0 <= k < 3 :: reach[k] <= BUFFER)
            <==> forall k | 0 <= k < 3 && k < |words| :: |words[k]| <= 63
  {
    assert forall k | 0 <= k < 3 :: reach[k] == if k < |words| then |words[k]| + 1 else 1;
  }

  // The end of command stands for its terminator.  The buffers must be long enough for the
  // words and their terminators: the parser knows no bound, and writes reach[k] cells of
  // buffer k.  Those are inside the shell's buffers of 64 exactly when the first three words
  // have at most 63 characters each.
  method ParseArguments(command: string, cmd: array<char>, arg1: array<char>, arg2: array<char>)
    returns (count: nat, ghost reach: seq<nat>)
    requires cmd != arg1 && cmd != arg2 && arg1 != arg2
    requires NUL !in command
    requires |Nth(Words(command), 0)| < cmd.Length
    requires |Nth(Words(command), 1)| < arg1.Length && |Nth(Words(command), 2)| < arg2.Length
    modifies cmd, arg1, arg2
    ensures count == if |Words(command)| < 3 then |Words(command)| else 3
    ensures Holds(cmd, Nth(Words(command), 0))
    ensures Holds(arg1, Nth(Words(command), 1))
    ensures Holds(arg2, Nth(Words(command), 2))
    ensures |reach| == 3 && forall k | 0 <= k < 3 :: reach[k] == |Nth(Words(command), k)| + 1
    ensures forall k | reach[0] <= k < cmd.Length :: cmd[k] == old(cmd[k])
    ensures forall k | reach[1] <= k < arg1.Length :: arg1[k] == old(arg1[k])
    ensures forall k | reach[2] <= k < arg2.Length :: arg2[k] == old(arg2[k])
    ensures (forall k | 0 <= k < 3 :: reach[k] <= BUFFER)
            <==> forall k | 0 <= k < 3 && k < |Words(command)| :: |Words(command)[k]| <= 63
  {
    hide Words, Nth, Trimmed, FirstWord, AfterWord;
    cmd[0], arg1[0], arg2[0] := NUL, NUL, NUL;
    reach := [1, 1, 1];
    assert command[0..] == command;
    FirstThree(command);
    ghost var words := Words(command);
    ghost var r;
    var i := SkipSpaces(command, 0);
    i, r := CopyWord(command, i, cmd);
    reach := reach[0 := r];
    if cmd[0] == NUL {
      ReachFits(words, reach);
      return 0, reach;
    }
    count := 1;
    i := SkipSpaces(command, i);
    if i < |command| {
      i, r := CopyWord(command, i, arg1);
      reach := reach[1 := r];
      if arg1[0] != NUL {
        count := 2;
      }
      i := SkipSpaces(command, i);
      if i < |command| {
        i, r := CopyWord(command, i, arg2);
        reach := reach[2 := r];
        if arg2[0] != NUL {
          count := 3;
        }
      }
    }
    ReachFits(words, reach);
  }

  // ---------------------------------------------------------------- an overrun

  function LongWord(): string {
    seq(BUFFER, _ => 'a')
  }

  lemma LongWordIsOneWord()
    ensures Words(LongWord()) == [LongWord()] && NUL !in LongWord()
  {
    assert LongWord()[0] == 'a';
    WordsOfJoin([LongWord()], [0, 0]);
    assert Join([LongWord()], [0, 0]) == Spaces(0) + (LongWord() + Join([], [0]));
    assert Spaces(0) + (LongWord() + Spaces(0)) == LongWord();
  }

  // The terminator of a word of 64 characters is written behind a buffer of 64.
  method LongWordOverruns(cmd: array<char>, arg1: array<char>, arg2: array<char>)
    returns (count: nat, ghost reach: seq<nat>)
    requires cmd != arg1 && cmd != arg2 && arg1 != arg2
    requires cmd.Length > BUFFER && arg1.Length > 0 && arg2.Length > 0
    modifies cmd, arg1, arg2
    ensures count == 1 && reach == [BUFFER + 1, 1, 1] && cmd[BUFFER] == NUL
  {
    LongWordIsOneWord();
    count, reach := ParseArguments(LongWord(), cmd, arg1, arg2);
  }

  // The keyboard can deliver that word.
  lemma LongWordCanBeTyped()
    ensures exists port :: Keyboard.Lines(Keyboard.STARTED, port) == [LongWord()]
  {
    var port := LineEditing.EncodeLines([LongWord()], [LineEditing.AllLeft(BUFFER)], [5000], false);
    LineEditing.TypingRoundTrip(Keyboard.STARTED, [LongWord()], [LineEditing.AllLeft(BUFFER)], [5000]);
    assert Keyboard.Lines(Keyboard.STARTED, port) == [LongWord()];
  }
}
