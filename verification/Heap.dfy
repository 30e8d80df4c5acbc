/** The bump allocator (kernel/mem/memory.c), byte by byte.

    Addresses are offsets from heap_start; the 32-bit sums that the C code forms from real
    addresses are formed here too. */
module Heap {
  import opened Basics

  const HEAP_START := 0x100000
  const HEAP_SIZE := 0x100000
  const WORD := 4               // sizeof(size_t)
  const TWO32 := 0x1_0000_0000
  const POISON: byte := 0xDE

  type u32 = x: int | 0 <= x < TWO32

  // ---------------------------------------------------------------- words

  function And(x: nat, y: nat): nat {
    if x == 0 || y == 0 then 0 else (if x % 2 == 1 && y % 2 == 1 then 1 else 0) + 2 * And(x / 2, y / 2)
  }

  // The least multiple of four that is not below n.
  function CeilWord(n: nat): (r: nat)
    ensures r % WORD == 0 && n <= r && forall m: nat | n <= m && m % WORD == 0 :: r <= m
  {
    (n + 3) / WORD * WORD
  }

  function Pow2(n: nat): nat {
    if n == 0 then 1 else 2 * Pow2(n - 1)
  }

  lemma {:induction false} AndOnes(x: nat, bits: nat)
    requires x < Pow2(bits)
    ensures And(x, Pow2(bits) - 1) == x
    decreases bits
  {
    if bits == 0 || x == 0 {
    } else {
      assert (Pow2(bits) - 1) / 2 == Pow2(bits - 1) - 1;
      AndOnes(x / 2, bits - 1);
    }
  }

  lemma AndEven(x: nat, y: nat)
    requires y > 0
    ensures And(x, 2 * y) == 2 * And(x / 2, y)
  {
    assert (2 * y) % 2 == 0 && 2 * y / 2 == y;
  }

  lemma PowersOfTwo()
    ensures Pow2(30) == 0x4000_0000
  {
    assert Pow2(10) == 1024;
    assert Pow2(20) == 1024 * Pow2(10);
    assert Pow2(30) == 1024 * Pow2(20);
  }

  // (size + 3) & ~3 on 32 bits.
  function Align(size: u32): (r: u32)
    ensures r % WORD == 0
  {
    MaskIs(size);
    And((size + 3) % TWO32, 0xFFFF_FFFC)
  }

  lemma MaskIs(size: u32)
    ensures And((size + 3) % TWO32, 0xFFFF_FFFC) == (size + 3) % TWO32 / 4 * 4
    ensures And((size + 3) % TWO32, 0xFFFF_FFFC) % WORD == 0
    ensures And((size + 3) % TWO32, 0xFFFF_FFFC) < TWO32
  {
    hide And, Pow2;
    var x := (size + 3) % TWO32;
    AndEven(x, 0x7FFF_FFFE);
    AndEven(x / 2, 0x3FFF_FFFF);
    assert x / 2 / 2 == x / 4;
    PowersOfTwo();
    AndOnes(x / 4, 30);
  }

  // The mask is the arithmetic: it rounds up to the next multiple of four, and to 0 for the
  // three sizes that wrap around.
  lemma AlignIsCeilWord(size: u32)
    ensures Align(size) == if size + 3 < TWO32 then CeilWord(size) else 0
  {
    hide And;
    MaskIs(size);
  }

  // The little-endian word at an offset.
  function Word(bytes: seq<byte>, at: nat): u32
    requires at + WORD <= |bytes|
  {
    bytes[at] as int + 0x100 * bytes[at + 1] as int + 0x1_0000 * bytes[at + 2] as int
    + 0x100_0000 * bytes[at + 3] as int
  }

  function WordBytes(w: u32): (r: seq<byte>)
    ensures |r| == WORD
  {
    [w % 0x100, w / 0x100 % 0x100, w / 0x1_0000 % 0x100, w / 0x100_0000]
  }

  // The low byte comes first.
  lemma WordsAreLittleEndian()
    ensures WordBytes(0x0403_0201) == [1, 2, 3, 4] && Word([1, 2, 3, 4], 0) == 0x0403_0201
  {
  }

  lemma Bytes(w: nat)
    ensures w == w % 0x100 + 0x100 * (w / 0x100 % 0x100) + 0x1_0000 * (w / 0x1_0000 % 0x100)
                 + 0x100_0000 * (w / 0x100_0000)
  {
    assert w == w % 0x100 + 0x100 * (w / 0x100);
    assert w / 0x100 == w / 0x100 % 0x100 + 0x100 * (w / 0x1_0000);
    assert w / 0x1_0000 == w / 0x1_0000 % 0x100 + 0x100 * (w / 0x100_0000);
  }

  lemma StoredWord(bytes: seq<byte>, at: nat, w: u32)
    requires at + WORD <= |bytes| && forall i | at <= i < at + WORD :: bytes[i] == WordBytes(w)[i - at]
    ensures Word(bytes, at) == w
  {
    Bytes(w);
    assert bytes[at] == w % 0x100 && bytes[at + 1] == w / 0x100 % 0x100;
    assert bytes[at + 2] == w / 0x1_0000 % 0x100 && bytes[at + 3] == w / 0x100_0000;
  }

  // ---------------------------------------------------------------- the heap as a value

  datatype Memory = Memory(bytes: seq<byte>, current: nat)

  predicate InRange(m: Memory) {
    |m.bytes| == HEAP_SIZE && m.current <= HEAP_SIZE
  }

  // Overwrite from an offset on.
  function Splice(bytes: seq<byte>, at: nat, data: seq<byte>): (r: seq<byte>)
    requires at + |data| <= |bytes|
    ensures |r| == |bytes|
    ensures forall i | 0 <= i < |r| :: r[i] == if at <= i < at + |data| then data[i - at] else bytes[i]
  {
    bytes[..at] + data + bytes[at + |data|..]
  }

  function Fill(b: byte, n: nat): seq<byte> {
    seq(n, _ => b)
  }

  // The test of kmalloc, with every sum taken modulo 2^32.
  predicate Refuses(current: nat, size: u32) {
    var total := (Align(size) + WORD) % TWO32;
    (HEAP_START + current + total) % TWO32 > HEAP_START + HEAP_SIZE
  }

  // The sum of that test does not wrap around.
  predicate NoWrap(current: nat, size: u32) {
    HEAP_START + current + WORD + Align(size) < TWO32
  }

  lemma GrantFits(current: nat, size: u32)
    requires current <= HEAP_SIZE && NoWrap(current, size)
    ensures Refuses(current, size) <==> current + WORD + Align(size) > HEAP_SIZE
  {
    hide Align;
  }

  // kmalloc: a header word and a cleared payload, or nothing.
  function Malloc(m: Memory, size: u32): (r: (Memory, Option<nat>))
    requires InRange(m) && NoWrap(m.current, size)
    ensures InRange(r.0)
  {
    var a := Align(size);
    if Refuses(m.current, size) then (m, None)
    else
      GrantFits(m.current, size);
      var marked := Splice(m.bytes, m.current, WordBytes(a));
      (Memory(Splice(marked, m.current + WORD, Fill(0, a)), m.current + WORD + a), Some(m.current + WORD))
  }

  // kfree of a payload: it is overwritten, nothing is reclaimed.
  function Free(m: Memory, block: Block): (r: Memory)
    requires InRange(m) && block.End() <= HEAP_SIZE
    ensures InRange(r)
  {
    m.(bytes := Splice(m.bytes, block.Payload(), Fill(POISON, block.size)))
  }

  // ---------------------------------------------------------------- the chain of blocks

  datatype Block = Block(header: nat, size: nat) {
    function Payload(): nat {
      header + WORD
    }

    function End(): nat {
      header + WORD + size
    }
  }

  // Follow the header words from one offset; None unless the walk lands exactly on the end.
  function Walk(bytes: seq<byte>, at: nat, end: nat): Option<seq<Block>>
    requires end <= |bytes|
    decreases end - at
  {
    if at == end then Some([])
    else if at + WORD > end then None
    else
      var block := Block(at, Word(bytes, at));
      if block.End() > end || block.size % WORD != 0 then None
      else
        match Walk(bytes, block.End(), end)
        case None => None
        case Some(rest) => Some([block] + rest)
  }

  // The chain is intact: walking from the start of the heap lands on heap_current.
  predicate Intact(m: Memory) {
    InRange(m) && Walk(m.bytes, 0, m.current).Some?
  }

  function Blocks(m: Memory): seq<Block>
    requires Intact(m)
  {
    Walk(m.bytes, 0, m.current).value
  }

  lemma EmptyWalk(bytes: seq<byte>, end: nat)
    requires end <= |bytes|
    ensures Walk(bytes, end, end) == Some([])
  {
  }

  lemma WalkStep(bytes: seq<byte>, at: nat, end: nat)
    requires end <= |bytes| && at != end && Walk(bytes, at, end).Some?
    ensures var b := Walk(bytes, at, end).value;
            && at + WORD <= end && b != [] && b[0] == Block(at, Word(bytes, at))
            && b[0].End() <= end && b[0].size % WORD == 0
            && Walk(bytes, b[0].End(), end) == Some(b[1..])
  {
  }

  // Blocks are aligned, in range, and one ends before the next begins.
  lemma {:induction false} WalkOrders(bytes: seq<byte>, at: nat, end: nat, i: nat, j: nat)
    requires end <= |bytes| && at % WORD == 0 && Walk(bytes, at, end).Some?
    requires i <= j < |Walk(bytes, at, end).value|
    ensures var b := Walk(bytes, at, end).value;
            && at <= b[i].header && b[i].End() <= end && b[j].End() <= end
            && b[i].header % WORD == 0 && b[i].size % WORD == 0 && b[i].size == Word(bytes, b[i].header)
            && (i < j ==> b[i].End() <= b[j].header)
    decreases end - at
  {
    hide Word, Walk;
    EmptyWalk(bytes, end);
    WalkStep(bytes, at, end);
    var next := Block(at, Word(bytes, at)).End();
    if i > 0 {
      WalkOrders(bytes, next, end, i - 1, j - 1);
    } else if j > 0 {
      WalkOrders(bytes, next, end, 0, j - 1);
    }
  }

  function TotalSize(blocks: seq<Block>): nat {
    if blocks == [] then 0 else WORD + blocks[0].size + TotalSize(blocks[1..])
  }

  // What the shell reports as used is what the blocks occupy.
  lemma {:induction false} WalkAccounts(bytes: seq<byte>, at: nat, end: nat)
    requires end <= |bytes| && Walk(bytes, at, end).Some?
    ensures TotalSize(Walk(bytes, at, end).value) == end - at
    decreases end - at
  {
    if at == end {
    } else {
      WalkAccounts(bytes, Block(at, Word(bytes, at)).End(), end);
    }
  }

  // A walk depends on the header words alone.
  lemma {:induction false} WalkReadsHeaders(before: seq<byte>, after: seq<byte>, at: nat, end: nat)
    requires end <= |before| == |after| && Walk(before, at, end).Some?
    requires forall b | b in Walk(before, at, end).value ::
               b.End() <= end && Word(after, b.header) == Word(before, b.header)
    ensures Walk(after, at, end) == Walk(before, at, end)
    decreases end - at
  {
    if at == end {
    } else {
      var b := Walk(before, at, end).value;
      assert b[0] in b;
      forall c | c in b[1..] ensures c in b {}
      WalkReadsHeaders(before, after, b[0].End(), end);
    }
  }

  // One more block at the end of the chain.
  lemma {:induction false} WalkExtends(before: seq<byte>, after: seq<byte>, at: nat, end: nat, size: nat)
    requires end + WORD + size <= |before| == |after| && Walk(before, at, end).Some?
    requires before[..end] == after[..end] && size % WORD == 0 && Word(after, end) == size
    ensures Walk(after, at, end + WORD + size) == Some(Walk(before, at, end).value + [Block(end, size)])
    decreases end - at
  {
    var last := Block(end, size);
    if at == end {
      assert Walk(after, at, last.End()) == Some([last] + []);
      assert [last] + [] == [] + [last];
    } else {
      WalkStep(before, at, end);
      assert forall i | at <= i < at + WORD :: before[..end][i] == after[..end][i];
      var first := Block(at, Word(before, at));
      WalkExtends(before, after, first.End(), end, size);
      var rest := Walk(before, first.End(), end).value;
      assert [first] + (rest + [last]) == [first] + rest + [last];
    }
  }

  // ---------------------------------------------------------------- the two operations

  // The bytes outside the given range are the same.
  ghost predicate SameOutside(before: seq<byte>, after: seq<byte>, from: nat, to: nat) {
    |before| == |after| && forall i | 0 <= i < |before| && !(from <= i < to) :: after[i] == before[i]
  }

  // A granted request appends one aligned block with a cleared payload and writes nowhere
  // else; a request is refused exactly when it does not fit, and then nothing changes.
  lemma MallocAppends(m: Memory, size: u32)
    requires Intact(m) && NoWrap(m.current, size)
    ensures var (r, ptr) := Malloc(m, size);
            var block := Block(m.current, Align(size));
            && Intact(r)
            && (ptr == None <==> m.current + 4 + Align(size) > 0x10_0000)
            && (ptr == None ==> r == m)
            && (ptr != None ==>
                  && ptr == Some(m.current + 4) && block.Payload() % 4 == 0
                  && Blocks(r) == Blocks(m) + [block] && r.current == m.current + 4 + Align(size)
                  && SameOutside(m.bytes, r.bytes, block.header, block.End())
                  && forall i | block.Payload() <= i < block.End() :: r.bytes[i] == 0)
  {
    hide Malloc, Word, Align, Walk;
    MallocWrites(m, size);
    ChainEndsAligned(m.bytes, 0, m.current);
    var (r, ptr) := Malloc(m, size);
    if ptr != None {
      WalkExtends(m.bytes, r.bytes, 0, m.current, Align(size));
    }
  }

  lemma MallocWrites(m: Memory, size: u32)
    requires InRange(m) && NoWrap(m.current, size)
    ensures var (r, ptr) := Malloc(m, size);
            var block := Block(m.current, Align(size));
            if block.End() > HEAP_SIZE then r == m && ptr == None
            else
              && ptr == Some(block.Payload()) && r.current == block.End()
              && Word(r.bytes, block.header) == block.size
              && r.bytes[..m.current] == m.bytes[..m.current]
              && SameOutside(m.bytes, r.bytes, block.header, block.End())
              && forall i | block.Payload() <= i < block.End() :: r.bytes[i] == 0
  {
    hide Word, Align, WordBytes;
    var block := Block(m.current, Align(size));
    if block.End() <= HEAP_SIZE {
      StoredWord(Malloc(m, size).0.bytes, m.current, block.size);
    }
  }

  lemma {:induction false} ChainEndsAligned(bytes: seq<byte>, at: nat, end: nat)
    requires end <= |bytes| && at % WORD == 0 && Walk(bytes, at, end).Some?
    ensures end % WORD == 0
    decreases end - at
  {
    if at == end {
    } else {
      ChainEndsAligned(bytes, Block(at, Word(bytes, at)).End(), end);
    }
  }

  // Freeing a block poisons its payload and leaves every header and every other block alone.
  lemma FreePoisons(m: Memory, i: nat)
    requires Intact(m) && i < |Blocks(m)|
    ensures var block := Blocks(m)[i];
            && block.End() <= 0x10_0000
            && var r := Free(m, block);
            && Intact(r) && Blocks(r) == Blocks(m) && r.current == m.current
            && SameOutside(m.bytes, r.bytes, block.Payload(), block.End())
            && forall k | block.Payload() <= k < block.End() :: r.bytes[k] == 0xDE
  {
    var blocks := Blocks(m);
    var block := blocks[i];
    WalkOrders(m.bytes, 0, m.current, i, i);
    var r := Free(m, block);
    forall b | b in blocks
      ensures b.End() <= m.current && Word(r.bytes, b.header) == Word(m.bytes, b.header)
    {
      var j :| 0 <= j < |blocks| && blocks[j] == b;
      if j <= i {
        WalkOrders(m.bytes, 0, m.current, j, i);
      } else {
        WalkOrders(m.bytes, 0, m.current, i, j);
      }
    }
    WalkReadsHeaders(m.bytes, r.bytes, 0, m.current);
  }

  // ---------------------------------------------------------------- runs

  // Release frees the payload of the block with that index; no such block stands for NULL.
  datatype Request = Alloc(size: u32) | Release(index: nat)

  predicate CanServe(m: Memory, q: Request) {
    q.Alloc? ==> NoWrap(m.current, q.size)
  }

  function Serve(m: Memory, q: Request): (r: Memory)
    requires Intact(m) && CanServe(m, q)
    ensures Intact(r)
  {
    match q
    case Alloc(size) =>
      MallocAppends(m, size);
      Malloc(m, size).0
    case Release(i) =>
      if i < |Blocks(m)| then FreePoisons(m, i); Free(m, Blocks(m)[i]) else m
  }

  predicate CanServeAll(m: Memory, qs: seq<Request>)
    requires Intact(m)
    decreases |qs|
  {
    qs == [] || (CanServe(m, qs[0]) && CanServeAll(Serve(m, qs[0]), qs[1..]))
  }

  function ServeAll(m: Memory, qs: seq<Request>): (r: Memory)
    requires Intact(m) && CanServeAll(m, qs)
    ensures Intact(r)
    decreases |qs|
  {
    if qs == [] then m else ServeAll(Serve(m, qs[0]), qs[1..])
  }

  // Sizes that leave 2 MiB below 2^32 can be asked for at any time.
  lemma {:induction false} ModestSizesAreServed(m: Memory, qs: seq<Request>)
    requires Intact(m)
    requires forall q | q in qs && q.Alloc? :: q.size < TWO32 - HEAP_START - HEAP_SIZE - 8
    ensures CanServeAll(m, qs)
    decreases |qs|
  {
    hide Align, Serve, Intact;
    if qs == [] {
    } else {
      assert qs[0] in qs;
      if qs[0].Alloc? {
        AlignIsCeilWord(qs[0].size);
        IntactInRange(m);
      }
      ModestSizesAreServed(Serve(m, qs[0]), qs[1..]);
    }
  }

  lemma IntactInRange(m: Memory)
    requires Intact(m)
    ensures InRange(m)
  {
  }

  // Block i is still there, and its header and payload are what they were.
  ghost predicate Untouched(m: Memory, r: Memory, i: nat)
    requires Intact(m) && Intact(r) && i < |Blocks(m)|
  {
    && i < |Blocks(r)| && Blocks(r)[i] == Blocks(m)[i]
    && forall k | Blocks(m)[i].header <= k < Blocks(m)[i].End() && k < HEAP_SIZE :: r.bytes[k] == m.bytes[k]
  }

  lemma ServeLeavesAlone(m: Memory, q: Request, i: nat)
    requires Intact(m) && CanServe(m, q) && i < |Blocks(m)| && q != Release(i)
    ensures Untouched(m, Serve(m, q), i)
  {
    hide Walk, Malloc, Free, Align;
    WalkOrders(m.bytes, 0, m.current, i, i);
    match q
    case Alloc(size) =>
      MallocAppends(m, size);
    case Release(j) =>
      if j < |Blocks(m)| {
        FreePoisons(m, j);
        if i < j {
          WalkOrders(m.bytes, 0, m.current, i, j);
        } else {
          WalkOrders(m.bytes, 0, m.current, j, i);
        }
      }
  }

  // Whatever is allocated and freed around it, a block keeps its place and its contents.
  lemma {:induction false} BlocksSurvive(m: Memory, qs: seq<Request>, i: nat)
    requires Intact(m) && CanServeAll(m, qs) && i < |Blocks(m)| && Release(i) !in qs
    ensures Untouched(m, ServeAll(m, qs), i)
    decreases |qs|
  {
    hide Intact, Blocks, Serve, CanServe;
    if qs == [] {
    } else {
      assert qs[0] in qs;
      ServeLeavesAlone(m, qs[0], i);
      BlocksSurvive(Serve(m, qs[0]), qs[1..], i);
    }
  }

  // The bytes that a run of requests is granted, headers included.
  function Granted(m: Memory, qs: seq<Request>): nat
    requires Intact(m) && CanServeAll(m, qs)
    decreases |qs|
  {
    if qs == [] then 0
    else
      var q := qs[0];
      (if q.Alloc? && Malloc(m, q.size).1 != None then WORD + Align(q.size) else 0)
      + Granted(Serve(m, q), qs[1..])
  }

  // The use that the shell reports is what was granted, and what the blocks take.
  lemma {:induction false} UseIsGranted(m: Memory, qs: seq<Request>)
    requires Intact(m) && CanServeAll(m, qs)
    ensures var r := ServeAll(m, qs);
            r.current == m.current + Granted(m, qs) && r.current == TotalSize(Blocks(r))
    decreases |qs|
  {
    hide Walk, Align, Splice;
    WalkAccounts(ServeAll(m, qs).bytes, 0, ServeAll(m, qs).current);
    if qs == [] {
    } else {
      match qs[0] {
        case Alloc(size) => MallocAppends(m, size);
        case Release(i) =>
          if i < |Blocks(m)| {
            FreePoisons(m, i);
          }
      }
      UseIsGranted(Serve(m, qs[0]), qs[1..]);
    }
  }

  // How many of k successive requests of one size are granted.
  function GrantCount(m: Memory, size: u32, k: nat): nat
    requires InRange(m) && NoWrap(m.current, size)
    decreases k
  {
    if k == 0 then 0
    else
      var (r, ptr) := Malloc(m, size);
      MallocWrites(m, size);
      (if ptr == None then 0 else 1) + GrantCount(r, size, k - 1)
  }

  // The number of blocks that fit into the room left.
  function Fit(room: nat, block: nat): nat
    requires block > 0
  {
    room / block
  }

  // Exactly the requests for which there is room are granted: on a new heap, that is
  // 2^20 / (aligned size + 4) of them, rounded down.
  lemma {:induction false} Capacity(m: Memory, size: u32, k: nat)
    requires InRange(m) && NoWrap(m.current, size)
    ensures var fit := Fit(0x10_0000 - m.current, 4 + Align(size));
            GrantCount(m, size, k) == if k <= fit then k else fit
    decreases k
  {
    hide Align, Malloc, Fit;
    MallocWrites(m, size);
    if k == 0 {
    } else {
      Capacity(Malloc(m, size).0, size, k - 1);
      FitStep(HEAP_SIZE - m.current, WORD + Align(size));
    }
  }

  lemma FitStep(room: nat, block: nat)
    requires block > 0
    ensures Fit(room, block) == if block <= room then 1 + Fit(room - block, block) else 0
  {
    if block <= room {
      var q, p := room / block, (room - block) / block;
      assert room == q * block + room % block;
      assert room - block == p * block + (room - block) % block;
      assert (q - 1 - p) * block == (room - block) % block - room % block;
      Multiples(q - 1 - p, block);
    }
  }

  lemma Multiples(x: int, d: nat)
    ensures x >= 1 ==> x * d >= d
    ensures x <= -1 ==> x * d <= 0 - d
  {
  }

  // ---------------------------------------------------------------- 32-bit sums

  // kmalloc writes a header and clears the aligned size without looking at the end of the
  // heap again.  Those writes stay inside exactly when no sum wraps.
  lemma WritesStayInside(current: nat, size: u32)
    requires current <= HEAP_SIZE
    ensures (Refuses(current, size) || current + WORD + Align(size) <= HEAP_SIZE) <==> NoWrap(current, size)
  {
    hide Align;
  }

  // On a heap with nothing in it those are all sizes but the ones in a range just below 2^32.
  lemma EmptyHeapWraps(size: u32)
    ensures NoWrap(0, size) <==> !(0xFFEF_FFF9 <= size <= 0xFFFF_FFFC)
  {
    hide Align;
    AlignIsCeilWord(size);
  }

  // The test refuses exactly the requests that do not fit, unless a sum, or the rounding of
  // the size itself on a heap that still has room for a header, wraps around.
  lemma RefusalIsExact(current: nat, size: u32)
    requires current <= HEAP_SIZE
    ensures (Refuses(current, size) <==> current + WORD + CeilWord(size) > HEAP_SIZE)
            <==> NoWrap(current, size) && (size + 3 < TWO32 || current + WORD > HEAP_SIZE)
  {
    hide Align;
    AlignIsCeilWord(size);
  }

  // On an empty heap a request of 2^32 - 4 bytes passes the test, although the bytes it would
  // clear end far beyond the heap; one of 2^32 - 1 bytes is granted a block of size 0.
  lemma WrappedRequestPasses(m: Memory)
    requires InRange(m) && m.current == 0
    ensures !Refuses(0, 0xFFFF_FFFC) && WORD + Align(0xFFFF_FFFC) == TWO32
    ensures NoWrap(0, 0xFFFF_FFFF)
    ensures Malloc(m, 0xFFFF_FFFF).1 == Some(WORD) && Malloc(m, 0xFFFF_FFFF).0.current == WORD
    ensures Word(Malloc(m, 0xFFFF_FFFF).0.bytes, 0) == 0
  {
    hide Align, Malloc, Word;
    AlignIsCeilWord(0xFFFF_FFFC);
    AlignIsCeilWord(0xFFFF_FFFF);
    MallocWrites(m, 0xFFFF_FFFF);
  }

  // ---------------------------------------------------------------- the allocator

  class Allocator {
    const bytes: array<byte>
    var current: nat

    ghost predicate Valid()
      reads this, bytes
    {
      bytes.Length == HEAP_SIZE && Intact(State())
    }

    ghost function State(): Memory
      reads this, bytes
    {
      Memory(bytes[..], current)
    }

    // memory_init: the heap is not cleared.
    constructor ()
      ensures Valid() && fresh(bytes) && current == 0 && Blocks(State()) == []
    {
      bytes := new byte[HEAP_SIZE];
      current := 0;
    }

    method StoreWord(at: nat, w: u32)
      requires at + WORD <= bytes.Length
      modifies bytes
      ensures bytes[..] == Splice(old(bytes[..]), at, WordBytes(w))
    {
      bytes[at], bytes[at + 1] := w % 0x100, w / 0x100 % 0x100;
      bytes[at + 2], bytes[at + 3] := w / 0x1_0000 % 0x100, w / 0x100_0000;
    }

    method LoadWord(at: nat) returns (w: u32)
      requires at + WORD <= bytes.Length
      ensures w == Word(bytes[..], at)
    {
      w := bytes[at] as int + 0x100 * bytes[at + 1] as int + 0x1_0000 * bytes[at + 2] as int
           + 0x100_0000 * bytes[at + 3] as int;
    }

    method Overwrite(at: nat, n: nat, b: byte)
      requires at + n <= bytes.Length
      modifies bytes
      ensures bytes[..] == Splice(old(bytes[..]), at, Fill(b, n))
    {
      for i := 0 to n
        invariant bytes[..] == Splice(old(bytes[..]), at, Fill(b, i))
      {
        bytes[at + i] := b;
      }
    }

    // The sums must not wrap, or else the writes leave the heap; see WritesStayInside.
    method Kmalloc(size: u32) returns (ptr: Option<nat>)
      requires Valid() && NoWrap(current, size)
      modifies this`current, bytes
      ensures Valid()
      ensures (State(), ptr) == Malloc(old(State()), size)
    {
      hide And, Align, Walk, Word, WordBytes, Fill;
      MallocAppends(State(), size);
      MallocWrites(State(), size);
      var aligned := Align(size);
      var total := (aligned + WORD) % TWO32;
      if (HEAP_START + current + total) % TWO32 > HEAP_START + HEAP_SIZE {
        return None;
      }
      StoreWord(current, aligned);
      Overwrite(current + WORD, aligned, 0);
      ptr := Some(current + WORD);
      current := current + total;
    }

    // Only a pointer that kmalloc has returned, or NULL, may be freed.
    method Kfree(ptr: Option<nat>, ghost i: nat)
      requires Valid()
      requires ptr.Some? ==> i < |Blocks(State())| && Blocks(State())[i].Payload() == ptr.value
      modifies bytes
      ensures Valid()
      ensures ptr == None ==> State() == old(State())
      ensures ptr != None ==>
                var block := Blocks(old(State()))[i];
                block.End() <= HEAP_SIZE && State() == Free(old(State()), block)
    {
      hide Walk, Word;
      if ptr == None {
        return;
      }
      WalkOrders(bytes[..], 0, current, i, i);
      FreePoisons(State(), i);
      var size := LoadWord(ptr.value - WORD);
      Overwrite(ptr.value, size, POISON);
    }
  }
}
