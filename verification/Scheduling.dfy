/** What the scheduler promises over whole runs, and exactly when. */
module Scheduling {
  import opened Basics
  import opened Links
  import opened Processes
  import opened Tables

  // ---------------------------------------------------------------- forking

  // What sys_fork does to the queue: the child joins it only if the tail pointer is the end
  // of the queue, or there is no tail.
  lemma ForkAppends(s: Sys)
    requires Shape(s) && s.current.Some? && s.count < POOL
    ensures var r, q, c := Fork(s).0, s.Queue(), s.count;
            && r.Queue() == (if s.ready.tail == None then [c] else if s.TailOk() then q + [c] else q)
            && (IsQueued(r, Some(c)) <==> s.TailOk() || s.ready.tail == None)
            && (r.TailOk() <==> s.TailOk() || s.ready.tail == None)
            && r.ready.tail == Some(c) && r.count == c + 1 && r.current == s.current
  {
    hide Ok, Free, Attach, Copy, Queue, TailOk;
    ForkIs(s);
    AttachQueue(s.ready, s.count);
    FreeIsOutside(s.ready, s.count);
  }

  // The stack of the first process, if it has one, does not overlap that of the second.
  predicate Apart(a: Image, b: Image) {
    || a.stackBase == 0
    || a.stackBase + STACK_SIZE <= b.stackBase || b.stackBase + STACK_SIZE <= a.stackBase
  }

  // The child is a copy of its parent that sees 0, on a stack that no process in the table
  // shares; nobody else is touched.
  lemma ForkCopies(s: Sys)
    requires Shape(s) && TableOk(s) && s.current.Some? && s.count < POOL
    ensures var (r, pid) := Fork(s);
            var c, parent := s.count, s.procs[s.current.value];
            var child := r.procs[c];
            && pid == c + 1 == child.pid && r.table == s.table[pid := Some(c)]
            && child.parent == parent.pid && child.status == Ready
            && child.image.name == parent.image.name && child.image.priority == parent.image.priority
            && child.image.cpu == parent.image.cpu.(eax := 0)
            && child.image.memoryUsed == parent.image.memoryUsed
            && child.image.stackBase == s.stacks + STACK_SIZE * c && child.image.stackSize == STACK_SIZE
            && (forall i | 0 <= i < MAX_PROCESSES && s.table[i].Some? ::
                  Apart(s.procs[s.table[i].value].image, child.image))
            && (forall p: nat | p < POOL && p != c :: r.procs[p] == s.procs[p])
            && forall p: nat | p < POOL && Free(s.ready, p) && p != c :: Free(r.ready, p)
  {
    hide Ok, Free, Attach;
    ForkIs(s);
    var m, c := Copy(s, s.current.value).0, s.count;
    AddLinksNobody(m.(procs := m.procs[c := m.procs[c].(parent := m.procs[s.current.value].pid)]), c);
    TableFacts(s);
  }

  // Without a current process, or with all ten PCBs handed out, nothing happens.
  lemma ForkFails(s: Sys)
    requires Shape(s) && (s.current == None || s.count >= 10)
    ensures Fork(s) == (s, 0xFFFF_FFFF)
  {
  }

  // ---------------------------------------------------------------- what schedule does

  // The line of the head after the current process has been preempted.
  lemma PreemptQueue(s: Sys, n: nat)
    requires Shape(s) && IsRunning(s) && s.ready.head == Some(n) && s.current != Some(n)
    ensures n < POOL
    ensures var m, q, c := Preempt(s).ready, s.Queue(), s.current.value;
            && Prev(m, n) == None && m.tail == Some(c)
            && m.lines[n] == Without(q, c) + if Joins(s.ready, c) then [c] else []
  {
    hide Ok, Free, Detach, Attach, Queue, Joins;
    EndsOf(s.ready);
    var c := s.current.value;
    if s.ready.tail == Some(c) {
      TailStays(s.ready, c, n);
    } else {
      MoveQueue(s.ready, c, n);
    }
  }

  lemma TailStays(l: Lists, c: nat, n: nat)
    requires Ok(l) && l.tail == Some(c) && c < |l.lines| && l.head == Some(n) && n < |l.lines|
    ensures l.lines[n] == Queue(l) == Without(Queue(l), c) + if Joins(l, c) then [c] else []
  {
    hide Succ, Pred, Partition, Distinct, Ok, Queue, TailOk;
    var q := Queue(l);
    QueueIsALine(l);
    EndsOf(l);
    TailOkIs(l);
    LastIsIn(q);
    if c in q {
      Neighbours(q, c);
      WithoutAt(q, |q| - 1);
    }
  }

  // schedule, when the head is not the current process.
  lemma TickQueue(s: Sys)
    requires Shape(s) && s.Queue() != [] && s.current != Some(s.Queue()[0])
    ensures var r, q := Tick(s), s.Queue();
            && q[0] < POOL && r.current == Some(q[0]) && Free(r.ready, q[0])
            && if IsRunning(s) then
                 var c := s.current.value;
                 var line := Without(q, c) + if Joins(s.ready, c) then [c] else [];
                 && line != [] && r.Queue() == line[1..]
                 && (r.TailOk() <==> |line| == 1 || Joins(s.ready, c))
                 && (|line| > 1 ==> r.ready.tail == s.current)
               else r.Queue() == q[1..] && (r.TailOk() <==> |q| == 1 || s.TailOk())
  {
    hide Ok, Free, Detach, Attach, Queue, TailOk, Joins, Without, Preempt;
    HeadOfQueue(s);
    var n, m := s.Queue()[0], Preempt(s).ready;
    TickReady(s);
    if IsRunning(s) {
      PreemptQueue(s, n);
      QueueIsALine(s.ready);
      WithoutKeeps(s.Queue(), s.current.value);
      LastOfLine(Without(s.Queue(), s.current.value), s.current.value);
    } else {
      EndsOf(s.ready);
      TailOkIs(s.ready);
    }
    DetachOk(m, n);
    DetachFirst(m, n);
  }

  // What schedule does to the PCBs: statuses, of at most two of them.
  lemma TickProcs(s: Sys, p: nat)
    requires Shape(s) && p < POOL
    ensures var status :=
              if s.ready.head.Some? && s.ready.head != s.current && s.ready.head == Some(p) then Running
              else if s.ready.head.Some? && IsRunning(s) && s.current == Some(p) then Ready
              else s.procs[p].status;
            Tick(s).procs[p] == s.procs[p].(status := status)
  {
    hide Ok, Free, Detach, Attach;
    PreemptProcs(s);
    HeadIsCreated(s);
  }

  lemma PreemptProcs(s: Sys)
    requires Shape(s)
    ensures Preempt(s).procs == if IsRunning(s) then Mark(s, s.current.value, Ready).procs else s.procs
  {
    hide Ok, Free, Detach, Attach;
  }

  lemma HeadOfQueue(s: Sys)
    requires Shape(s)
    ensures s.ready.head == First(s.Queue())
    ensures s.Queue() != [] ==> s.Queue()[0] < s.count && s.ready.lines[s.Queue()[0]] == s.Queue()
  {
    hide Succ, Pred, Partition, Distinct;
    QueueIsALine(s.ready);
    HeadIsCreated(s);
  }

  lemma TickReady(s: Sys)
    requires Shape(s) && s.ready.head.Some? && s.ready.head.value < s.count
    requires s.current != s.ready.head
    ensures Tick(s).ready == Detach(Preempt(s).ready, s.ready.head.value)
    ensures Tick(s).current == s.ready.head
    ensures !IsRunning(s) ==> Preempt(s) == s
  {
    hide Ok;
  }

  lemma TailOkIs(l: Lists)
    requires Ok(l)
    ensures TailOk(l) <==> l.tail == Last(Queue(l))
  {
  }

  lemma LastOfLine(w: seq<nat>, c: nat)
    requires Distinct(w) && c !in w
    ensures Last(w + [c]) == Some(c) && Last(w) != Some(c)
  {
  }

  // ---------------------------------------------------------------- one queue

  // A tick that keeps the tail pointer on the last process of the queue.
  predicate KeepsTail(s: Sys)
    requires Shape(s)
  {
    || !IsRunning(s) || IsQueued(s, s.current) || |s.Queue()| <= 1
    || Next(s.ready, s.current.value).Some?
  }

  // schedule leaves the tail pointer on the last process of the queue exactly when it
  // preempts nobody, or a process in the queue (or with another one linked behind it), or
  // has at most one process queued.
  lemma TickKeepsTail(s: Sys)
    requires Shape(s) && s.TailOk()
    ensures Tick(s).TailOk() <==> KeepsTail(s)
  {
    hide Ok, Free, Detach, Attach, Without, Preempt, Queue, TailOk;
    HeadOfQueue(s);
    if s.Queue() != [] && s.current != Some(s.Queue()[0]) {
      TickQueue(s);
      QueueIsALine(s.ready);
      if IsRunning(s) {
        WithoutKeeps(s.Queue(), s.current.value);
        LastIsIn(s.Queue());
      }
    } else if s.Queue() != [] {
      TurnKeepsTail(s);
    }
  }

  // schedule, when the current process is the head.
  lemma TurnKeepsTail(s: Sys)
    requires Shape(s) && s.ready.head.Some? && s.current == s.ready.head
    ensures s.TailOk() ==> Tick(s).TailOk()
    ensures Tidy(s.ready) ==> Tidy(Tick(s).ready)
  {
    hide Ok, Free, Detach, Attach, Queue, TailOk, Tidy;
    var c, l := s.current.value, s.ready;
    HeadOfQueue(s);
    if IsRunning(s) && l.tail != Some(c) {
      DetachOk(l, c);
      DetachTail(l, c);
      AttachQueue(Detach(l, c), c);
      if Tidy(s.ready) {
        DetachTidy(l, c);
        AttachTidy(Detach(l, c), c);
      }
    }
  }

  // A queued process, or one beside a queue of at most one, is moved to the tail.
  lemma MoveTidy(l: Lists, c: nat, n: nat)
    requires Ok(l) && Tidy(l) && c < |l.lines| && l.head == Some(n) && n != c
    requires c in Queue(l) || |Queue(l)| <= 1
    ensures Ok(Detach(l, c)) && Free(Detach(l, c), c)
    ensures var m := Attach(Detach(l, c), c);
            Ok(m) && Tidy(m) && n < |m.lines| && (n in Queue(m) || |Queue(m)| <= 1)
  {
    hide Ok, Free, Detach, Attach, TailOk, Queue, Without, Partition;
    DetachTidy(l, c);
    DetachOk(l, c);
    AttachTidy(Detach(l, c), c);
    MoveQueue(l, c, n);
    QueueIsALine(l);
    if c in Queue(l) {
      WithoutKeeps(Queue(l), c);
      assert Queue(l)[0] == n && n in Without(Queue(l), c);
      assert |Attach(Detach(l, c), c).lines[n]| > 1;
    } else {
      OnlyOne(l, c);
      NoNeighbours(l, c);
      DetachFirst(l, c);
      AttachQueue(Detach(l, c), c);
    }
  }

  // So exactly those ticks keep one queue.
  lemma TickKeepsQueue(s: Sys)
    requires Shape(s) && Tidy(s.ready)
    ensures Tidy(Tick(s).ready) <==> KeepsTail(s)
  {
    hide Ok, Free, Detach, Attach, Preempt, Queue, TailOk, Joins;
    TickKeepsTail(s);
    HeadOfQueue(s);
    if s.Queue() != [] && s.current == Some(s.Queue()[0]) {
      TurnKeepsTail(s);
    } else if s.Queue() != [] && KeepsTail(s) {
      var l, n, m := s.ready, s.Queue()[0], Preempt(s).ready;
      TickReady(s);
      if IsRunning(s) {
        var c := s.current.value;
        NobodyBehind(l, c);
        if l.tail != Some(c) {
          MoveTidy(l, c, n);
        }
        PreemptIs(s);
      }
      DetachTidy(m, n);
    }
  }

  lemma PreemptIs(s: Sys)
    requires Shape(s) && IsRunning(s)
    ensures var c := s.current.value;
            && Ok(Detach(s.ready, c)) && Free(Detach(s.ready, c), c)
            && Preempt(s).ready == if s.ready.tail == Some(c) then s.ready else Attach(Detach(s.ready, c), c)
  {
    hide Ok, Free, Detach, Attach;
    DetachOk(s.ready, s.current.value);
  }

  lemma NobodyBehind(l: Lists, c: nat)
    requires Ok(l) && Tidy(l) && c < |l.lines|
    ensures c !in Queue(l) ==> Next(l, c) == None
  {
    hide Ok, TailOk, Queue;
    if c !in Queue(l) {
      NoNeighbours(l, c);
    }
  }

  // The operations that keep one queue: a tick by KeepsTail, and a wait that reaps nobody,
  // or a process in the queue, or has at most one process queued.
  predicate Keeps(s: Sys, op: Op)
    requires Shape(s)
  {
    match op
    case DoTick => KeepsTail(s)
    case DoWait =>
      s.current.Some? && FirstReapable(s).Some? ==>
        IsQueued(s, s.table[FirstReapable(s).value]) || |s.Queue()| <= 1
    case _ => true
  }

  lemma StepKeepsQueue(s: Sys, op: Op)
    requires Shape(s) && Tidy(s.ready)
    ensures Tidy(Step(s, op).ready) <==> Keeps(s, op)
  {
    hide Ok, Free, Detach, Attach, Tidy, Queue, TailOk, FirstReapable;
    match op {
      case DoTick => TickKeepsQueue(s);
      case DoExit(code) =>
        if s.current.Some? {
          TickKeepsQueue(Leave(s, code));
        }
      case DoFork =>
        if s.current.Some? && s.count < POOL {
          ForkIs(s);
          AttachTidy(s.ready, s.count);
        }
      case DoWait =>
        if s.current.Some? && FirstReapable(s).Some? {
          DetachTidy(s.ready, s.table[FirstReapable(s).value].value);
        }
      case _ =>
    }
  }

  predicate TidyThroughout(s: Sys, ops: seq<Op>)
    requires Shape(s)
    decreases |ops|
  {
    Tidy(s.ready) && (ops == [] || TidyThroughout(Step(s, ops[0]), ops[1..]))
  }

  predicate KeepsThroughout(s: Sys, ops: seq<Op>)
    requires Shape(s)
    decreases |ops|
  {
    ops == [] || (Keeps(s, ops[0]) && KeepsThroughout(Step(s, ops[0]), ops[1..]))
  }

  // Exactly the runs of such operations keep one queue all along.
  lemma {:induction false} RunKeepsQueue(s: Sys, ops: seq<Op>)
    requires Shape(s) && Tidy(s.ready)
    ensures TidyThroughout(s, ops) <==> KeepsThroughout(s, ops)
    ensures KeepsThroughout(s, ops) ==> Tidy(Run(s, ops).ready)
    decreases |ops|
  {
    hide Step, Shape, Tidy, Keeps;
    if ops == [] {
    } else {
      StepKeepsQueue(s, ops[0]);
      if Keeps(s, ops[0]) {
        RunKeepsQueue(Step(s, ops[0]), ops[1..]);
      }
    }
  }

  // ---------------------------------------------------------------- round robin

  // A preempted process that was k-th in the queue goes to the back of it and everybody else
  // moves up, exactly when the tail pointer is right or the process is the last one anyway;
  // then nobody is lost or duplicated.
  lemma RoundRobin(s: Sys, k: nat)
    requires Shape(s) && IsRunning(s) && k < |s.Queue()| && s.Queue()[k] == s.current.value
    ensures var r, q := Tick(s), s.Queue();
            && r.current == Some(q[0])
            && (r.Queue() == (if k == 0 then q[1..] + q[..1] else q[1..k] + q[k + 1..] + [q[k]])
                <==> s.TailOk() || k == |q| - 1)
            && (s.TailOk() || k == |q| - 1 ==>
                  multiset(r.Queue() + if k == 0 then [] else [q[0]]) == multiset(q))
  {
    hide Ok, Free, Detach, Attach, Queue, TailOk, Without, Preempt;
    var q, c := s.Queue(), s.current.value;
    HeadOfQueue(s);
    if k == 0 {
      TurnedQueue(s);
      assert q == [c] + q[1..];
    } else {
      QueueIsALine(s.ready);
      TickQueue(s);
      WithoutAt(q, k);
      Rotated(q, k);
      RotationKeepsAll(q, k);
    }
  }

  lemma TurnedQueue(s: Sys)
    requires Shape(s) && IsRunning(s) && s.ready.head == s.current
    ensures var r, q := Tick(s), s.Queue();
            && q != [] && r.current == s.current
            && (r.Queue() == q[1..] + [q[0]] <==> s.TailOk() || |q| == 1)
  {
    hide Ok, Free, Detach, Attach, Queue, TailOk, Preempt;
    HeadOfQueue(s);
    TurnQueue(s.ready, s.current.value);
    PreemptIs(s);
    TurnTick(s);
    var q := s.Queue();
    assert |q| == 1 ==> q[1..] + [q[0]] == q;
  }

  lemma TurnTick(s: Sys)
    requires Shape(s) && s.ready.head.Some? && s.ready.head == s.current
    ensures Tick(s) == Preempt(s) && Preempt(s).current == s.current
  {
    hide Preempt;
  }

  lemma Rotated(q: seq<nat>, k: nat)
    requires 0 < k < |q| && Distinct(q)
    ensures (q[..k] + q[k + 1..] + [q[k]])[1..] == q[1..k] + q[k + 1..] + [q[k]]
    ensures (q[..k] + q[k + 1..] + [])[1..] == q[1..k] + q[k + 1..]
    ensures |q[1..k] + q[k + 1..] + [q[k]]| != |q[1..k] + q[k + 1..]|
  {
  }

  // Such a turn loses and duplicates nobody.
  lemma RotationKeepsAll(q: seq<nat>, k: nat)
    requires 0 < k < |q|
    ensures multiset(q[1..k] + q[k + 1..] + [q[k]] + [q[0]]) == multiset(q)
  {
    assert q == [q[0]] + q[1..k] + [q[k]] + q[k + 1..];
  }

  // When a preempted process is queued afterwards.
  lemma PreemptedIsQueued(s: Sys)
    requires Shape(s) && IsRunning(s) && s.Queue() != [] && s.current != Some(s.Queue()[0])
    ensures IsQueued(Tick(s), s.current) <==>
              || Last(s.Queue()) == s.current
              || (s.TailOk() && (IsQueued(s, s.current) || Next(s.ready, s.current.value).Some?))
  {
    hide Ok, Free, Detach, Attach, Queue, TailOk, Without, Preempt;
    var q, c := s.Queue(), s.current.value;
    QueueIsALine(s.ready);
    TickQueue(s);
    WithoutKeeps(q, c);
    NotFirst(Without(q, c), c, Joins(s.ready, c));
  }

  lemma NotFirst(w: seq<nat>, c: nat, joins: bool)
    requires c !in w
    ensures var line := w + if joins then [c] else [];
            w != [] ==> line != [] && (c in line[1..] <==> joins)
  {
    if w != [] && joins {
      var line := w + [c];
      assert line[1..][|line| - 2] == c;
    }
  }

  // ---------------------------------------------------------------- draining

  predicate Drains(op: Op) {
    op.DoTick? || op.DoExit?
  }

  // A tick finds nobody to put back into the queue.
  predicate StaysOut(s: Sys)
    requires Shape(s)
  {
    || s.Queue() == []
    || (!IsQueued(s, s.current)
        && !(IsRunning(s) && s.TailOk() && Next(s.ready, s.current.value).Some?))
  }

  // A tick dispatches the head of the queue, or the kernel process when nobody is queued,
  // and the rest is the queue, exactly when StaysOut holds, if the current process is not
  // queued.
  lemma TickDrains(s: Sys)
    requires Shape(s) && (s.Queue() != [] ==> !IsQueued(s, s.current))
    ensures var r, q := Tick(s), s.Queue();
            && r.current == (if q == [] then s.kernel else Some(q[0]))
            && (r.Queue() == (if q == [] then [] else q[1..]) <==> StaysOut(s))
            && (StaysOut(s) ==> StaysOut(r))
  {
    hide Ok, Detach, Attach, Queue, TailOk, Without, Preempt;
    var q := s.Queue();
    HeadOfQueue(s);
    if q != [] {
      QueueIsALine(s.ready);
      TickQueue(s);
      QueueIsALine(Tick(s).ready);
      FreeIsOutside(Tick(s).ready, q[0]);
      NoNeighbours(Tick(s).ready, q[0]);
      LastIsIn(q);
      DropsFirst(q);
    }
  }

  lemma DropsFirst(q: seq<nat>)
    requires q != []
    ensures forall c: nat {:trigger q + [c]} :: (q + [c])[1..] != q[1..]
    ensures (q + [])[1..] == q[1..]
  {
    forall c: nat
      ensures (q + [c])[1..] != q[1..]
    {
      assert |(q + [c])[1..]| != |q[1..]|;
    }
  }

  // So does any exit.
  lemma DrainStep(s: Sys, op: Op)
    requires Shape(s) && Drains(op) && (if op.DoExit? then s.current.Some? else StaysOut(s))
    ensures var r, q := Step(s, op), s.Queue();
            && r.Queue() == (if q == [] then [] else q[1..])
            && r.current == (if q == [] then s.kernel else Some(q[0])) && StaysOut(r)
  {
    hide Tick, Ok, Queue, TailOk, Next;
    TickDrains(if op.DoExit? then Leave(s, op.code) else s);
  }

  // With nothing enqueued, ticks and exits dispatch the queue in order, each process once,
  // and then the kernel process for good: ops is any number of steps.  The current process
  // may be running outside of the queue, and the tail pointer may be wrong.
  lemma {:induction false} Drain(s: Sys, ops: seq<Op>)
    requires Shape(s) && s.kernel.Some? && StaysOut(s)
    requires forall i | 0 <= i < |ops| :: Drains(ops[i])
    requires ops != [] && ops[0].DoExit? ==> s.current.Some?
    ensures var r, q, n := Run(s, ops), s.Queue(), |ops|;
            && r.Queue() == (if n <= |q| then q[n..] else [])
            && r.current == if n == 0 then s.current else if n <= |q| then Some(q[n - 1]) else s.kernel
    decreases |ops|
  {
    hide Step, Shape, StaysOut, Queue;
    if ops == [] {
    } else {
      DrainStep(s, ops[0]);
      Drain(Step(s, ops[0]), ops[1..]);
    }
  }

  // ---------------------------------------------------------------- runs that lose processes

  // Startup and n forks by the kernel process, which runs outside of the queue.
  predicate Forked(s: Sys, n: nat)
    requires Shape(s)
  {
    && TableOk(s) && s.count == n + 1 && s.current == Some(0) && IsRunning(s) && Free(s.ready, 0)
    && s.TailOk() && s.Queue() == seq(n, i requires i >= 0 => i + 1)
    && forall i | 1 <= i <= n :: s.table[i + 1] == Some(i) && s.procs[i].parent == 1
  }

  lemma BootForked(stacks: nat, idle: nat)
    ensures Forked(Boot(Empty(stacks), idle), 0)
  {
    BootIsOk(stacks, idle);
  }

  lemma ForkForked(s: Sys, n: nat)
    requires Shape(s) && Forked(s, n) && n + 1 < POOL
    ensures Forked(Fork(s).0, n + 1)
  {
    hide Ok, Free, Queue, TailOk, TableOk, Fork;
    ForkAppends(s);
    ForkCopies(s);
    ForkKeepsTable(s);
    TableFacts(s);
    TailOkIs(s.ready);
    LastIsIn(s.Queue());
    assert s.Queue() + [n + 1] == seq(n + 1, i requires i >= 0 => i + 1);
    assert [n + 1] == seq(1, i requires i >= 0 => n + 1 + i);
  }

  lemma {:induction false} RunForked(s: Sys, n: nat, m: nat)
    requires Shape(s) && Forked(s, n) && n + m < POOL
    ensures Forked(Run(s, seq(m, _ => DoFork)), n + m)
    decreases m
  {
    hide Forked, Fork;
    var ops := seq(m, _ => DoFork);
    if m == 0 {
    } else {
      ForkForked(s, n);
      assert ops[1..] == seq(m - 1, _ => DoFork);
      RunForked(Fork(s).0, n + 1, m - 1);
    }
  }

  lemma {:induction false} RunSplits(s: Sys, a: seq<Op>, b: seq<Op>)
    requires Shape(s)
    ensures Run(s, a + b) == Run(Run(s, a), b)
    decreases |a|
  {
    hide Step, Shape;
    if a == [] {
      assert a + b == b;
    } else {
      assert (a + b)[1..] == a[1..] + b;
      RunSplits(Step(s, a[0]), a[1..], b);
    }
  }

  lemma RunOne(s: Sys, op: Op)
    requires Shape(s)
    ensures Run(s, [op]) == Step(s, op)
  {
    hide Step, Shape;
    assert Run(Step(s, op), []) == Step(s, op);
  }

  // The tick after at least two forks leaves the tail pointer on the kernel process, which
  // is not queued.
  lemma StrayTail(s: Sys, n: nat)
    requires Shape(s) && Forked(s, n) && n >= 2
    ensures var r := Tick(s);
            && !r.TailOk() && r.ready.tail == Some(0) && r.current == Some(1)
            && r.Queue() == seq(n - 1, i requires i >= 0 => i + 2)
  {
    hide Ok, Queue, TailOk, TableOk, Tick, Without;
    var q := s.Queue();
    TickQueue(s);
    QueueIsALine(s.ready);
    FreeIsOutside(s.ready, 0);
    NoNeighbours(s.ready, 0);
    assert q + [] == q;
    assert q[1..] == seq(n - 1, i requires i >= 0 => i + 2);
  }

  function Forks(n: nat): seq<Op> {
    seq(n, _ => DoFork)
  }

  // Two forks and a tick after startup, the tail pointer is off, and the next child is linked
  // behind the kernel process instead of being queued.
  lemma TwoForksAndATick(stacks: nat, idle: nat)
    ensures var s := Run(Boot(Empty(stacks), idle), Forks(2) + [DoTick]);
            && TableOk(s) && s.count == 3 && s.current == Some(1) && s.Queue() == [2] && !s.TailOk()
            && Fork(s).1 == 4 && Fork(s).0.Queue() == [2]
  {
    hide TableOk, Forked, Boot, Run, Fork, Queue, TailOk, Tick;
    var b := Boot(Empty(stacks), idle);
    BootForked(stacks, idle);
    RunForked(b, 0, 2);
    RunSplits(b, Forks(2), [DoTick]);
    RunOne(Run(b, Forks(2)), DoTick);
    ThirdForkStrays(Run(b, Forks(2)));
  }

  lemma ThirdForkStrays(f: Sys)
    requires Shape(f) && Forked(f, 2)
    ensures var s := Tick(f);
            && TableOk(s) && s.count == 3 && s.current == Some(1) && s.Queue() == [2] && !s.TailOk()
            && Fork(s).1 == 4 && Fork(s).0.Queue() == [2]
  {
    hide TableOk, Forked, Fork, Queue, TailOk, Tick, Ok, Free;
    ForkedFacts(f, 2);
    StrayTail(f, 2);
    TickKeepsTable(f);
    ForkAppends(Tick(f));
    ForkCopies(Tick(f));
  }

  lemma ForkedFacts(s: Sys, n: nat)
    requires Shape(s) && Forked(s, n)
    ensures TableOk(s) && s.count == n + 1
  {
  }

  // Four forks, a tick and a switch to the queued process 3: the next tick preempts it, and
  // it is in the queue no longer.
  lemma PreemptedIsLost(stacks: nat, idle: nat)
    ensures var s := Run(Boot(Empty(stacks), idle), Forks(4) + [DoTick] + [DoSwitch(4)]);
            && s.Queue() == [2, 3, 4] && s.current == Some(3) && IsRunning(s)
            && Tick(s).Queue() == [4] && Tick(s).current == Some(2)
  {
    hide TableOk, Forked, Boot, Run, Fork, Queue, TailOk, Tick, Switch;
    var b := Boot(Empty(stacks), idle);
    BootForked(stacks, idle);
    RunForked(b, 0, 4);
    var f := Run(b, Forks(4));
    RunSplits(b, Forks(4) + [DoTick], [DoSwitch(4)]);
    RunSplits(b, Forks(4), [DoTick]);
    RunOne(f, DoTick);
    RunOne(Tick(f), DoSwitch(4));
    SwitchLoses(f);
  }

  lemma SwitchLoses(f: Sys)
    requires Shape(f) && Forked(f, 4)
    ensures var s := Switch(Tick(f), 4);
            && s.Queue() == [2, 3, 4] && s.current == Some(3) && IsRunning(s)
            && Tick(s).Queue() == [4] && Tick(s).current == Some(2)
  {
    hide TableOk, Tick, Ok, Queue, TailOk, Without;
    StrayTail(f, 4);
    SwitchesTo(Tick(f), 3);
    var s := Switch(Tick(f), 4);
    assert s.Queue() == [2, 3, 4];
    TickQueue(s);
    WithoutAt(s.Queue(), 1);
  }

  lemma SwitchesTo(s: Sys, p: nat)
    requires Shape(s) && 0 < p < POOL && s.table[p + 1] == Some(p)
    ensures var r := Switch(s, p + 1);
            r.ready == s.ready && r.current == Some(p) && IsRunning(r)
  {
  }

  // A fork links at the tail, wherever that is.
  lemma ForkLinks(s: Sys, p: nat)
    requires Shape(s) && TableOk(s) && s.current.Some? && s.count < POOL && p < POOL
    ensures TableOk(Fork(s).0)
    ensures Next(Fork(s).0.ready, p) == if s.ready.tail == Some(p) then Some(s.count) else Next(s.ready, p)
  {
    hide Ok, Free, Attach, Copy, TableOk, Next;
    ForkIs(s);
    ForkKeepsTable(s);
    AttachLinks(s.ready, s.count, p);
  }

  // Process 1 has been spawned and switched to, and runs outside of the queue.
  predicate Spawned(s: Sys)
    requires Shape(s)
  {
    && TableOk(s) && s.count == 2 && s.current == Some(1) && IsRunning(s) && s.table[2] == Some(1)
    && Free(s.ready, 1) && s.ready.tail == None && s.ready.head == None
  }

  lemma SpawnAndSwitch(stacks: nat, idle: nat, spawn: Op)
    requires spawn.DoSpawn?
    ensures Spawned(Step(Step(Boot(Empty(stacks), idle), spawn), DoSwitch(2)))
  {
    hide TableOk;
    var b := Boot(Empty(stacks), idle);
    BootIsOk(stacks, idle);
    StepKeepsTable(b, spawn);
    StepKeepsTable(Step(b, spawn), DoSwitch(2));
  }

  // Two children of process 1, of which the first is then dispatched.
  lemma ForkTwice(s: Sys)
    requires Shape(s) && Spawned(s)
    ensures var r := Tick(Fork(Fork(s).0).0);
            && TableOk(r) && r.count == 4 && r.table[2] == Some(1)
            && r.Queue() == [3] && r.current == Some(2) && !r.TailOk() && r.ready.tail == Some(1)
  {
    hide Ok, Free, Queue, TailOk, TableOk, Fork, Tick;
    var one := Fork(s).0;
    ForkAppends(s);
    ForkCopies(s);
    ForkKeepsTable(s);
    ForkAppends(one);
    ForkCopies(one);
    ForkKeepsTable(one);
    TailOkIs(s.ready);
    HeadOfQueue(s);
    OutsiderLosesTail(Fork(one).0);
  }

  lemma OutsiderLosesTail(s: Sys)
    requires Shape(s) && TableOk(s) && s.current == Some(1) && IsRunning(s) && Free(s.ready, 1)
    requires s.Queue() == [2, 3]
    ensures var r := Tick(s);
            && TableOk(r) && SameTable(s, r)
            && r.Queue() == [3] && r.current == Some(2) && !r.TailOk() && r.ready.tail == Some(1)
  {
    hide Ok, Queue, TailOk, TableOk, Tick, Without;
    TickQueue(s);
    TickKeepsTable(s);
    QueueIsALine(s.ready);
    NoNeighbours(s.ready, 1);
    assert [2, 3] + [] == [2, 3];
  }

  // The next child is linked behind process 1, and the one after that makes a new queue.
  lemma ForkBehind(s: Sys)
    requires Shape(s) && TableOk(s) && s.count == 4 && s.table[2] == Some(1)
    requires s.Queue() == [3] && s.current == Some(2) && !s.TailOk() && s.ready.tail == Some(1)
    ensures var r := Fork(Exit(Fork(s).0, 0)).0;
            && r.table[2] == Some(1) && r.Queue() == [5] && r.TailOk() && Next(r.ready, 1) == Some(4)
  {
    hide Ok, Free, Queue, TailOk, TableOk, Fork, Exit, Next;
    ForkAppends(s);
    ForkCopies(s);
    ForkLinks(s, 1);
    var t := Fork(s).0;
    LastLeaves(t);
    var e := Exit(t, 0);
    ForkAppends(e);
    ForkCopies(e);
    ForkLinks(e, 1);
  }

  lemma LastLeaves(s: Sys)
    requires Shape(s) && TableOk(s) && s.Queue() == [3] && s.current == Some(2)
    ensures var r := Exit(s, 0);
            && TableOk(r) && SameTable(s, r) && r.current == Some(3)
            && r.Queue() == [] && r.ready.tail == None && Next(r.ready, 1) == Next(s.ready, 1)
  {
    hide Ok, Queue, TailOk, TableOk, Tick, Next;
    var m := Leave(s, 0);
    ExitKeepsTable(s, 0);
    HeadOfQueue(m);
    TickQueue(m);
    TickReady(m);
    TailOkIs(Tick(m).ready);
    LinesOf(m.ready);
    EndsOf(m.ready);
    DetachLinks(m.ready, 3, 1);
  }

  // Then a switch back to process 1, and a tick.
  lemma OutsiderTurns(s: Sys)
    requires Shape(s) && s.table[2] == Some(1)
    requires s.Queue() == [5] && s.TailOk() && Next(s.ready, 1) == Some(4)
    ensures var r := Switch(s, 2);
            && r.ready == s.ready && r.current == Some(1) && !StaysOut(r)
            && Tick(r).Queue() == [1] && Tick(r).current == Some(5)
  {
    hide Ok, Queue, TailOk, Tick, Next;
    SwitchesTo(s, 1);
    var r := Switch(s, 2);
    TickQueue(r);
    QueueIsALine(s.ready);
    assert r.Queue() == [5];
    assert ([5] + [1])[1..] == [1];
  }

  // A run with a right tail pointer, one process queued, and the current one outside of the
  // queue in front of another: the next tick puts it into the queue.
  lemma OutsiderJoins(stacks: nat, idle: nat, spawn: Op)
    requires spawn.DoSpawn?
    ensures var s := Run(Boot(Empty(stacks), idle),
                         [spawn, DoSwitch(2)] + [DoFork, DoFork, DoTick] + [DoFork, DoExit(0), DoFork]
                         + [DoSwitch(2)]);
            && s.Queue() == [5] && s.TailOk() && s.current == Some(1)
            && !StaysOut(s) && Tick(s).Queue() == [1] && Tick(s).current == Some(5)
  {
    hide Run, Boot, Spawned, Tick, StaysOut, Queue, TailOk, Fork, Exit, Switch, TableOk, Next;
    var b := Boot(Empty(stacks), idle);
    var one, two, three := [spawn, DoSwitch(2)], [DoFork, DoFork, DoTick], [DoFork, DoExit(0), DoFork];
    RunSplits(b, one + two + three, [DoSwitch(2)]);
    RunSplits(b, one + two, three);
    RunSplits(b, one, two);
    var c := Run(b, one);
    RunTwo(b, spawn, DoSwitch(2));
    SpawnAndSwitch(stacks, idle, spawn);
    RunThree(c, DoFork, DoFork, DoTick);
    ForkTwice(c);
    var d := Run(c, two);
    RunThree(d, DoFork, DoExit(0), DoFork);
    ForkBehind(d);
    RunOne(Run(d, three), DoSwitch(2));
    OutsiderTurns(Run(d, three));
  }

  lemma RunTwo(s: Sys, a: Op, b: Op)
    requires Shape(s)
    ensures Run(s, [a, b]) == Step(Step(s, a), b)
  {
    hide Step, Shape;
    RunSplits(s, [a], [b]);
    RunOne(s, a);
    RunOne(Step(s, a), b);
    assert [a, b] == [a] + [b];
  }

  lemma RunThree(s: Sys, a: Op, b: Op, c: Op)
    requires Shape(s)
    ensures Run(s, [a, b, c]) == Step(Step(Step(s, a), b), c)
  {
    hide Step, Shape;
    RunSplits(s, [a, b], [c]);
    RunTwo(s, a, b);
    RunOne(Step(Step(s, a), b), c);
    assert [a, b, c] == [a, b] + [c];
  }
}
