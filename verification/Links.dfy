/** Doubly linked lines of processes, without a heap: what next and prev links say about
    them, and what unlinking a process and linking one at the tail do to them. */
module Links {
  import opened Basics

  // ---------------------------------------------------------------- one line

  predicate Distinct(q: seq<nat>) {
    forall i, j | 0 <= i < j < |q| :: q[i] != q[j]
  }

  predicate Below(q: seq<nat>, n: nat) {
    forall k | 0 <= k < |q| :: q[k] < n
  }

  // The process behind p in q, if there is one.
  function Succ(q: seq<nat>, p: nat): Option<nat> {
    if |q| < 2 then None else if q[0] == p then Some(q[1]) else Succ(q[1..], p)
  }

  // The process in front of p in q, if there is one.
  function Pred(q: seq<nat>, p: nat): Option<nat> {
    if |q| < 2 then None else if q[1] == p then Some(q[0]) else Pred(q[1..], p)
  }

  function First(q: seq<nat>): Option<nat> {
    if q == [] then None else Some(q[0])
  }

  function Last(q: seq<nat>): Option<nat> {
    if q == [] then None else Some(q[|q| - 1])
  }

  function Without(q: seq<nat>, p: nat): (r: seq<nat>)
    ensures p !in q ==> r == q
    ensures forall x | x in r :: x in q
    ensures |r| <= |q|
  {
    if q == [] then [] else if q[0] == p then q[1..] else [q[0]] + Without(q[1..], p)
  }

  lemma {:induction false} WithoutAt(q: seq<nat>, k: nat)
    requires Distinct(q) && k < |q|
    ensures Without(q, q[k]) == q[..k] + q[k + 1..]
  {
    if k == 0 {
    } else {
      assert q[0] != q[k];
      WithoutAt(q[1..], k - 1);
      assert q[..k] + q[k + 1..] == [q[0]] + (q[1..][..k - 1] + q[1..][k..]);
    }
  }

  lemma DistinctTail(q: seq<nat>)
    requires Distinct(q) && q != []
    ensures Distinct(q[1..]) && q[0] !in q[1..] && forall x :: x in q <==> x == q[0] || x in q[1..]
  {
    assert q == [q[0]] + q[1..];
  }

  lemma DistinctCons(x: nat, q: seq<nat>)
    requires Distinct(q) && x !in q
    ensures Distinct([x] + q)
  {
  }

  lemma {:induction false} WithoutKeeps(q: seq<nat>, p: nat)
    requires Distinct(q)
    ensures Distinct(Without(q, p)) && p !in Without(q, p)
    ensures forall x | x in q && x != p :: x in Without(q, p)
    ensures |Without(q, p)| == |q| - if p in q then 1 else 0
  {
    hide Distinct;
    if q == [] {
    } else {
      DistinctTail(q);
      if q[0] != p {
        WithoutKeeps(q[1..], p);
        DistinctCons(q[0], Without(q[1..], p));
      }
    }
  }

  lemma WithoutBelow(q: seq<nat>, p: nat, n: nat)
    requires Below(q, n)
    ensures Below(Without(q, p), n)
  {
    forall k | 0 <= k < |Without(q, p)|
      ensures Without(q, p)[k] < n
    {
      assert Without(q, p)[k] in q;
    }
  }

  lemma {:induction false} NothingInFront(q: seq<nat>, p: nat)
    ensures Succ(q, p).Some? ==> p in q
    ensures Pred(q, p).Some? ==> q != [] && p in q[1..]
  {
    if |q| < 2 {
    } else {
      NothingInFront(q[1..], p);
    }
  }

  // Succ and Pred are inverse to each other; only the ends of q and the processes outside of
  // it lack a neighbour.
  lemma {:induction false} Neighbours(q: seq<nat>, p: nat)
    requires Distinct(q)
    ensures Succ(q, p).Some? ==> p in q && Succ(q, p).value in q && Pred(q, Succ(q, p).value) == Some(p)
    ensures Pred(q, p).Some? ==> p in q && Pred(q, p).value in q && Succ(q, Pred(q, p).value) == Some(p)
    ensures p in q ==> (Succ(q, p) == None <==> Last(q) == Some(p))
    ensures p in q ==> (Pred(q, p) == None <==> First(q) == Some(p))
    ensures Succ(q, p) != Some(p) && Pred(q, p) != Some(p)
  {
    hide Distinct;
    if |q| < 2 {
    } else {
      DistinctTail(q);
      DistinctTail(q[1..]);
      NothingInFront(q[1..], q[1]);
      NothingInFront(q[1..], q[0]);
      Neighbours(q[1..], p);
    }
  }

  // The process in front of p and the one behind it become neighbours.
  lemma {:induction false} RemovalRelinks(q: seq<nat>, p: nat, i: nat)
    requires Distinct(q) && p in q && i != p
    ensures Succ(Without(q, p), i) == if Pred(q, p) == Some(i) then Succ(q, p) else Succ(q, i)
    ensures Pred(Without(q, p), i) == if Succ(q, p) == Some(i) then Pred(q, p) else Pred(q, i)
  {
    hide Distinct;
    DistinctTail(q);
    Neighbours(q[1..], i);
    if q[0] == p {
      Neighbours(q, p);
    } else {
      RemovalRelinks(q[1..], p, i);
      Neighbours(q[1..], p);
      RemovalBehind(q, p);
    }
  }

  lemma RemovalBehind(q: seq<nat>, p: nat)
    requires p in q && q[0] != p
    ensures |q| > 1 && Without(q, p) == [q[0]] + Without(q[1..], p)
    ensures if q[1] == p then Without(q[1..], p) == q[2..] else First(Without(q[1..], p)) == Some(q[1])
  {
  }

  lemma {:induction false} AppendLinks(q: seq<nat>, p: nat, i: nat)
    requires Distinct(q) && p !in q
    ensures Succ(q + [p], i) == if Last(q) == Some(i) then Some(p) else Succ(q, i)
    ensures Pred(q + [p], i) == if i == p then Last(q) else Pred(q, i)
  {
    if |q| < 2 {
    } else {
      assert (q + [p])[1..] == q[1..] + [p];
      AppendLinks(q[1..], p, i);
    }
  }

  // ---------------------------------------------------------------- all lines

  // lines[p] is the line that p stands in; a process without neighbours stands alone.  The
  // two ends are what the kernel takes for the ends of its queue.
  datatype Lists = Lists(lines: seq<seq<nat>>, head: Option<nat>, tail: Option<nat>)

  // Every process stands in one line, once.
  predicate Partition(lines: seq<seq<nat>>) {
    && (forall i | 0 <= i < |lines| :: Distinct(lines[i]) && i in lines[i] && Below(lines[i], |lines|))
    && (forall i, j | 0 <= i < |lines| && j in lines[i] :: j < |lines| && lines[j] == lines[i])
  }

  function Next(l: Lists, p: nat): Option<nat>
    requires p < |l.lines|
  {
    Succ(l.lines[p], p)
  }

  function Prev(l: Lists, p: nat): Option<nat>
    requires p < |l.lines|
  {
    Pred(l.lines[p], p)
  }

  // The head begins a line and the tail ends one; they need not be the same line.
  predicate Ok(l: Lists) {
    && Partition(l.lines)
    && (l.head.Some? ==> l.head.value < |l.lines| && Prev(l, l.head.value) == None)
    && (l.tail.Some? ==> l.tail.value < |l.lines| && Next(l, l.tail.value) == None)
  }

  // The queue: what following next from the head gives.
  function Queue(l: Lists): seq<nat>
    requires Ok(l)
  {
    if l.head == None then [] else l.lines[l.head.value]
  }

  // The tail is the end of the queue.
  predicate TailOk(l: Lists)
    requires Ok(l)
  {
    l.tail == Last(Queue(l))
  }

  // No links.
  predicate Alone(l: Lists, p: nat)
    requires p < |l.lines|
  {
    l.lines[p] == [p]
  }

  function LinesWithout(lines: seq<seq<nat>>, p: nat): (r: seq<seq<nat>>)
    ensures |r| == |lines|
    ensures forall i: nat | i < |r| :: r[i] == if i == p then [p] else Without(lines[i], p)
  {
    seq(|lines|, i requires 0 <= i < |lines| => if i == p then [p] else Without(lines[i], p))
  }

  function LinesWith(lines: seq<seq<nat>>, t: nat, p: nat): (r: seq<seq<nat>>)
    requires t < |lines|
    ensures |r| == |lines|
    ensures forall i: nat | i < |r| :: r[i] == if i == p || i in lines[t] then lines[t] + [p] else lines[i]
  {
    seq(|lines|, i requires 0 <= i < |lines| => if i == p || i in lines[t] then lines[t] + [p] else lines[i])
  }

  // remove_from_ready_queue, wherever p stands.
  function Detach(l: Lists, p: nat): Lists
    requires p < |l.lines|
  {
    Lists(LinesWithout(l.lines, p),
          if Prev(l, p) == None then Next(l, p) else l.head,
          if Next(l, p) == None then Prev(l, p) else l.tail)
  }

  // p can be linked at the tail.
  predicate Free(l: Lists, p: nat) {
    p < |l.lines| && Alone(l, p) && l.head != Some(p) && l.tail != Some(p)
  }

  // add_to_ready_queue of a process that is READY.
  function Attach(l: Lists, p: nat): Lists
    requires Ok(l) && Free(l, p)
  {
    match l.tail
    case None => Lists(l.lines, Some(p), Some(p))
    case Some(t) => Lists(LinesWith(l.lines, t, p), l.head, Some(p))
  }

  // ---------------------------------------------------------------- unlinking

  lemma SameLine(l: Lists, i: nat, j: nat)
    requires Partition(l.lines) && i < |l.lines|
    ensures j in l.lines[i] ==> j < |l.lines| && l.lines[j] == l.lines[i] && i in l.lines[j]
    ensures Distinct(l.lines[i]) && i in l.lines[i]
  {
  }

  // The two neighbours of p become neighbours; nobody else's links change.
  lemma DetachLinks(l: Lists, p: nat, i: nat)
    requires Partition(l.lines) && p < |l.lines| && i < |l.lines|
    ensures i == p ==> Next(Detach(l, p), i) == None && Prev(Detach(l, p), i) == None
    ensures i != p ==> Next(Detach(l, p), i) == if Prev(l, p) == Some(i) then Next(l, p) else Next(l, i)
    ensures i != p ==> Prev(Detach(l, p), i) == if Next(l, p) == Some(i) then Prev(l, p) else Prev(l, i)
  {
    hide Partition, Distinct, Succ, Pred;
    SameLine(l, i, p);
    SameLine(l, p, i);
    Neighbours(l.lines[p], p);
    if i == p {
      NobodyBeside(p);
    } else if p in l.lines[i] {
      RemovalRelinks(l.lines[i], p, i);
    }
  }

  lemma NobodyBeside(p: nat)
    ensures Succ([p], p) == None && Pred([p], p) == None
  {
  }

  // A process stands beside others that exist.
  lemma Beside(l: Lists, p: nat)
    requires Ok(l) && p < |l.lines|
    ensures Next(l, p).Some? ==> Next(l, p).value < |l.lines| && Next(l, p).value != p
    ensures Prev(l, p).Some? ==> Prev(l, p).value < |l.lines| && Prev(l, p).value != p
  {
    hide Succ, Pred, Distinct;
    SameLine(l, p, p);
    Neighbours(l.lines[p], p);
  }

  lemma LinesOf(l: Lists)
    requires Ok(l)
    ensures Partition(l.lines)
  {
  }

  lemma EndsOf(l: Lists)
    requires Ok(l)
    ensures l.head.Some? ==> l.head.value < |l.lines| && Prev(l, l.head.value) == None
    ensures l.tail.Some? ==> l.tail.value < |l.lines| && Next(l, l.tail.value) == None
  {
  }

  lemma NoNeighbours(l: Lists, p: nat)
    requires p < |l.lines| && Alone(l, p)
    ensures Next(l, p) == None && Prev(l, p) == None
  {
  }

  // Whoever has no neighbours stands alone.
  lemma AloneIff(l: Lists, p: nat)
    requires Ok(l) && p < |l.lines|
    ensures Alone(l, p) <==> Next(l, p) == None && Prev(l, p) == None
  {
    hide Succ, Pred, Distinct;
    SameLine(l, p, p);
    Neighbours(l.lines[p], p);
    NobodyBeside(p);
    EndsMeet(l.lines[p], p);
  }

  lemma EndsMeet(q: seq<nat>, p: nat)
    requires Distinct(q)
    ensures First(q) == Some(p) == Last(q) ==> q == [p]
  {
  }

  lemma LinesWithoutPartition(lines: seq<seq<nat>>, p: nat)
    requires Partition(lines) && p < |lines|
    ensures Partition(LinesWithout(lines, p))
  {
    var r := LinesWithout(lines, p);
    forall i: nat | i < |r|
      ensures Distinct(r[i]) && i in r[i] && Below(r[i], |r|)
      ensures forall j | j in r[i] :: j < |r| && r[j] == r[i]
    {
      if i != p {
        WithoutKeeps(lines[i], p);
        WithoutBelow(lines[i], p, |lines|);
        assert p !in r[i];
      }
    }
  }

  lemma DetachOk(l: Lists, p: nat)
    requires Ok(l) && p < |l.lines|
    ensures Ok(Detach(l, p)) && Free(Detach(l, p), p)
  {
    hide Partition, Distinct, Succ, Pred;
    LinesWithoutPartition(l.lines, p);
    SameLine(l, p, p);
    Neighbours(l.lines[p], p);
    if Prev(l, p) == None && Next(l, p).Some? {
      SameLine(l, p, Next(l, p).value);
      DetachLinks(l, p, Next(l, p).value);
    } else if Prev(l, p).Some? {
      SameLine(l, p, Prev(l, p).value);
      DetachLinks(l, p, Prev(l, p).value);
    }
    if l.head.Some? {
      SameLine(l, l.head.value, p);
      DetachLinks(l, p, l.head.value);
      if Next(l, p) == l.head {
        SameLine(l, p, l.head.value);
      }
    }
    if l.tail.Some? {
      SameLine(l, l.tail.value, p);
      DetachLinks(l, p, l.tail.value);
      if Prev(l, p) == l.tail {
        SameLine(l, p, l.tail.value);
      }
    }
  }

  // ---------------------------------------------------------------- linking

  lemma AttachLinks(l: Lists, p: nat, i: nat)
    requires Ok(l) && Free(l, p) && i < |l.lines|
    ensures Next(Attach(l, p), i) == if l.tail == Some(i) then Some(p) else Next(l, i)
    ensures Prev(Attach(l, p), i) == if i == p then l.tail else Prev(l, i)
  {
    hide Partition, Distinct, Succ, Pred;
    NobodyBeside(p);
    if l.tail.Some? {
      var t := l.tail.value;
      SameLine(l, t, i);
      SameLine(l, t, p);
      SameLine(l, p, t);
      Neighbours(l.lines[t], t);
      Neighbours(l.lines[t], p);
      AppendLinks(l.lines[t], p, i);
    }
  }

  lemma LinesWithPartition(lines: seq<seq<nat>>, t: nat, p: nat)
    requires Partition(lines) && t < |lines| && p < |lines| && lines[p] == [p] && p != t
    ensures Partition(LinesWith(lines, t, p))
  {
    var r := LinesWith(lines, t, p);
    assert p !in lines[t];
    forall i: nat | i < |r|
      ensures Distinct(r[i]) && i in r[i] && Below(r[i], |r|)
      ensures forall j | j in r[i] :: j < |r| && r[j] == r[i]
    {
      if i != p && i !in lines[t] {
        forall j | j in lines[i]
          ensures j != p && j !in lines[t]
        {
          assert lines[j] == lines[i] && i in lines[j];
        }
      }
    }
  }

  lemma AttachOk(l: Lists, p: nat)
    requires Ok(l) && Free(l, p)
    ensures Ok(Attach(l, p))
  {
    hide Partition, Distinct, Succ, Pred;
    NobodyBeside(p);
    AttachLinks(l, p, p);
    if l.tail.Some? {
      LinesWithPartition(l.lines, l.tail.value, p);
    }
    if l.head.Some? {
      AttachLinks(l, p, l.head.value);
    }
  }

  // ---------------------------------------------------------------- the queue

  lemma {:induction false} LastWithout(q: seq<nat>, p: nat)
    requires Distinct(q) && p in q
    ensures Last(Without(q, p)) == if Last(q) == Some(p) then Pred(q, p) else Last(q)
    ensures First(Without(q, p)) == if First(q) == Some(p) then Succ(q, p) else First(q)
  {
    if q[0] == p {
    } else {
      LastWithout(q[1..], p);
    }
  }

  lemma QueueIsALine(l: Lists)
    requires Ok(l)
    ensures Distinct(Queue(l)) && First(Queue(l)) == l.head && Below(Queue(l), |l.lines|)
    ensures forall p | p in Queue(l) :: p < |l.lines| && l.lines[p] == Queue(l)
    ensures forall p: nat | p < |l.lines| :: p in l.lines[p]
  {
    hide Succ, Pred;
    if l.head.Some? {
      SameLine(l, l.head.value, l.head.value);
      Neighbours(Queue(l), l.head.value);
    }
  }

  // Unlinking a queued process takes it out of the queue.  Unlinking the first process of
  // another line makes the rest of that line the queue.
  lemma DetachQueue(l: Lists, p: nat)
    requires Ok(l) && p < |l.lines|
    ensures Ok(Detach(l, p))
    ensures Queue(Detach(l, p))
            == if p in Queue(l) || Prev(l, p) == None then Without(l.lines[p], p) else Queue(l)
  {
    hide Partition, Distinct, Succ, Pred;
    DetachOk(l, p);
    QueueIsALine(l);
    SameLine(l, p, p);
    Neighbours(l.lines[p], p);
    LastWithout(l.lines[p], p);
    if Next(l, p).Some? {
      SameLine(l, p, Next(l, p).value);
    } else {
      WithoutKeeps(l.lines[p], p);
    }
  }

  // The end of the queue is right again once the last queued process has been unlinked.
  lemma DetachTail(l: Lists, p: nat)
    requires Ok(l) && p in Queue(l)
    ensures p < |l.lines| && Ok(Detach(l, p))
    ensures TailOk(Detach(l, p)) <==> TailOk(l) || Last(Queue(l)) == Some(p)
  {
    hide Partition, Distinct, Succ, Pred;
    QueueIsALine(l);
    DetachQueue(l, p);
    Neighbours(l.lines[p], p);
    LastWithout(l.lines[p], p);
  }

  // A process joins the queue exactly when the tail is its end, or there is no tail; without
  // one, it becomes the whole queue.
  lemma AttachQueue(l: Lists, p: nat)
    requires Ok(l) && Free(l, p)
    ensures Ok(Attach(l, p))
    ensures Queue(Attach(l, p))
            == if l.tail == None then [p] else if TailOk(l) then Queue(l) + [p] else Queue(l)
    ensures TailOk(Attach(l, p)) <==> l.tail == None || TailOk(l)
    ensures Attach(l, p).tail == Some(p)
  {
    hide Partition, Distinct, Succ, Pred;
    AttachOk(l, p);
    QueueIsALine(l);
    QueueIsALine(Attach(l, p));
    FreeIsOutside(l, p);
    if l.tail.Some? {
      var t := l.tail.value;
      SameLine(l, t, t);
      Neighbours(l.lines[t], t);
      if l.head.Some? {
        SameLine(l, l.head.value, t);
        SameLine(l, t, l.head.value);
        Neighbours(l.lines[l.head.value], t);
      }
    }
  }

  lemma FreeIsOutside(l: Lists, p: nat)
    requires Ok(l) && Free(l, p)
    ensures p !in Queue(l) && Last(Queue(l)) != Some(p)
  {
    QueueIsALine(l);
  }

  // ---------------------------------------------------------------- outsiders

  // A process without links that is neither end stays that way when others are unlinked.
  lemma DetachLeavesFree(l: Lists, p: nat, i: nat)
    requires Ok(l) && p < |l.lines| && Free(l, i)
    ensures Free(Detach(l, p), i)
  {
    if i == p {
      DetachOk(l, p);
    } else {
      SameLine(l, i, p);
      SameLine(l, p, i);
      Neighbours(l.lines[p], p);
    }
  }

  lemma AttachLeavesFree(l: Lists, p: nat, i: nat)
    requires Ok(l) && Free(l, p) && Free(l, i) && i != p
    ensures Free(Attach(l, p), i)
  {
    if l.tail.Some? {
      SameLine(l, l.tail.value, i);
    }
  }

  // ---------------------------------------------------------------- dispatching

  // A process without anybody in front of it leaves, and those behind it are the queue.
  lemma DetachFirst(l: Lists, n: nat)
    requires Ok(l) && n < |l.lines| && Prev(l, n) == None
    ensures Ok(Detach(l, n)) && l.lines[n] != [] && l.lines[n][0] == n
    ensures Queue(Detach(l, n)) == l.lines[n][1..]
    ensures Detach(l, n).tail == if |l.lines[n]| == 1 then None else l.tail
    ensures TailOk(Detach(l, n)) <==> |l.lines[n]| == 1 || l.tail == Last(l.lines[n])
  {
    hide Partition, Distinct, Succ, Pred;
    SameLine(l, n, n);
    Neighbours(l.lines[n], n);
    DetachQueue(l, n);
    assert |l.lines[n]| == 1 <==> Next(l, n) == None;
  }

  // A process that is moved to the tail is then at the end of the queue.
  predicate Joins(l: Lists, c: nat)
    requires Ok(l) && c < |l.lines|
  {
    Last(Queue(l)) == Some(c) || (TailOk(l) && (c in Queue(l) || Next(l, c).Some?))
  }

  // The line of the head n after another process has been moved to the tail.
  lemma MoveQueue(l: Lists, c: nat, n: nat)
    requires Ok(l) && c < |l.lines| && l.head == Some(n) && n != c
    ensures n < |l.lines| && Ok(Detach(l, c)) && Free(Detach(l, c), c)
    ensures var m := Attach(Detach(l, c), c);
            && Ok(m) && |m.lines| == |l.lines| && Prev(m, n) == None && m.tail == Some(c)
            && m.lines[n] == Without(Queue(l), c) + if Joins(l, c) then [c] else []
  {
    hide Partition, Distinct, Succ, Pred, Joins, Ok, Last, Queue, TailOk;
    EndsOf(l);
    DetachOk(l, c);
    DetachHead(l, c, n);
    var d := Detach(l, c);
    AttachOk(d, c);
    AttachLinks(d, c, n);
    TailInLine(d, n);
  }

  lemma DetachHead(l: Lists, c: nat, n: nat)
    requires Ok(l) && c < |l.lines| && l.head == Some(n) && n < |l.lines| && n != c
    ensures Detach(l, c).lines[n] == Without(Queue(l), c) && Prev(Detach(l, c), n) == None
    ensures Last(Without(Queue(l), c)) == Detach(l, c).tail <==> Joins(l, c)
  {
    hide Partition, Distinct, Succ, Pred;
    DetachLinks(l, c, n);
    Beside(l, c);
    QueueIsALine(l);
    SameLine(l, c, c);
    Neighbours(l.lines[c], c);
    if c in Queue(l) {
      LastWithout(Queue(l), c);
    } else if Prev(l, c).Some? {
      SameLine(l, c, Prev(l, c).value);
      SameLine(l, Prev(l, c).value, c);
      LastIsIn(Queue(l));
    }
  }

  lemma LastIsIn(q: seq<nat>)
    ensures q != [] ==> Last(q).Some? && Last(q).value in q
  {
  }

  // The tail stands in a line exactly when it is the end of that line.
  lemma TailInLine(l: Lists, n: nat)
    requires Ok(l) && n < |l.lines|
    ensures l.tail.Some? ==> l.tail.value < |l.lines|
    ensures l.tail.Some? && n in l.lines[l.tail.value] <==> Last(l.lines[n]) == l.tail
    ensures l.tail.Some? && n in l.lines[l.tail.value] ==> l.lines[l.tail.value] == l.lines[n]
  {
    hide Distinct, Succ, Pred;
    SameLine(l, n, n);
    if l.tail.Some? {
      var t := l.tail.value;
      SameLine(l, t, n);
      SameLine(l, n, t);
      Neighbours(l.lines[n], t);
    }
  }

  // The head c itself is moved to the tail.
  lemma TurnQueue(l: Lists, c: nat)
    requires Ok(l) && l.head == Some(c)
    ensures c < |l.lines| && Queue(l) != [] && Queue(l)[0] == c
    ensures Ok(Detach(l, c)) && Free(Detach(l, c), c) && Ok(Attach(Detach(l, c), c))
    ensures Queue(Attach(Detach(l, c), c)) == Queue(l)[1..] + [c] <==> TailOk(l) || |Queue(l)| == 1
    ensures l.tail == Some(c) ==> |Queue(l)| == 1
  {
    hide Partition, Distinct, Succ, Pred, Ok, Queue, TailOk;
    EndsOf(l);
    DetachOk(l, c);
    var d, q := Detach(l, c), Queue(l);
    QueueIsALine(l);
    LinesOf(l);
    DetachQueue(l, c);
    DetachTail(l, c);
    AttachQueue(d, c);
    SameLine(l, c, c);
    Neighbours(q, c);
    DetachFirst(l, c);
    assert |q[1..]| == |q| - 1;
  }

  // ---------------------------------------------------------------- one queue

  // The tail ends the queue, and nobody else is linked: head, tail and links describe one
  // sequence.
  predicate Tidy(l: Lists)
    requires Ok(l)
  {
    TailOk(l) && forall p: nat | p < |l.lines| && p !in Queue(l) :: Alone(l, p)
  }

  lemma DetachTidy(l: Lists, p: nat)
    requires Ok(l) && p < |l.lines| && Tidy(l)
    ensures Ok(Detach(l, p)) && (Tidy(Detach(l, p)) <==> p in Queue(l) || |Queue(l)| <= 1)
  {
    hide Partition, Distinct, Succ, Pred, Ok, Queue, TailOk;
    DetachOk(l, p);
    DetachQueue(l, p);
    QueueIsALine(l);
    var d, q := Detach(l, p), Queue(l);
    if p in q {
      DetachTail(l, p);
      WithoutKeeps(q, p);
    } else {
      NoNeighbours(l, p);
      DetachFirst(l, p);
      if |q| > 1 {
        assert !Alone(d, q[0]) by { assert q[0] in q; }
      } else {
        forall i: nat | i < |d.lines| ensures Alone(d, i) { OnlyOne(l, i); }
      }
    }
  }

  lemma OnlyOne(l: Lists, i: nat)
    requires Ok(l) && i < |l.lines| && Tidy(l) && |Queue(l)| <= 1
    ensures Alone(l, i)
  {
    QueueIsALine(l);
  }

  lemma AttachTidy(l: Lists, p: nat)
    requires Ok(l) && Free(l, p) && Tidy(l)
    ensures Ok(Attach(l, p)) && Tidy(Attach(l, p))
  {
    hide Partition, Distinct, Succ, Pred, Ok, Queue, TailOk;
    AttachOk(l, p);
    AttachQueue(l, p);
    TidyQueue(l);
  }

  lemma TidyQueue(l: Lists)
    requires Ok(l) && Tidy(l)
    ensures l.tail == None ==> Queue(l) == []
    ensures l.tail.Some? ==> l.tail.value < |l.lines| && l.lines[l.tail.value] == Queue(l)
  {
    QueueIsALine(l);
    LastIsIn(Queue(l));
  }
}
