/** What sys_wait promises a process with terminated children. */
module Reaping {
  import opened Basics
  import opened Links
  import opened Processes
  import opened Tables
  import opened Scheduling
  import opened Operations

  // ---------------------------------------------------------------- reaping

  // n calls of sys_wait: the last state, and what each call returned.
  function Waits(s: Sys, n: nat): (r: (Sys, seq<(nat, Option<int>)>))
    requires Shape(s)
    ensures Shape(r.0)
    decreases n
  {
    if n == 0 then (s, [])
    else
      var (r, pid, code) := Wait(s);
      var (last, rest) := Waits(r, n - 1);
      (last, [(pid, code)] + rest)
  }

  lemma {:induction false} SameReapables(s: Sys, r: Sys, i: nat)
    requires Shape(s) && Shape(r) && s.current.Some? && r.current.Some? && i <= MAX_PROCESSES
    requires forall j | i <= j < MAX_PROCESSES :: Reapable(s, j) == Reapable(r, j)
    ensures Reapables(s, i) == Reapables(r, i)
    decreases MAX_PROCESSES - i
  {
    hide Reapable;
    if i == MAX_PROCESSES {
    } else {
      SameReapables(s, r, i + 1);
    }
  }

  // The first child to reap comes before all others.
  lemma {:induction false} ReapablesFrom(s: Sys, i: nat, first: nat)
    requires Shape(s) && s.current.Some? && i <= first < MAX_PROCESSES
    requires forall j | i <= j < first :: !Reapable(s, j)
    ensures Reapables(s, i) == (if Reapable(s, first) then [first] else []) + Reapables(s, first + 1)
    decreases first - i
  {
    hide Reapable;
    if i == first {
    } else {
      ReapablesFrom(s, i + 1, first);
    }
  }

  lemma {:induction false} BeforeFirst(s: Sys, i: nat)
    requires Shape(s) && s.current.Some? && i <= MAX_PROCESSES
    requires Reapables(s, i) != []
    ensures i <= Reapables(s, i)[0] < MAX_PROCESSES && Reapable(s, Reapables(s, i)[0])
    ensures forall j | i <= j < Reapables(s, i)[0] :: !Reapable(s, j)
    decreases MAX_PROCESSES - i
  {
    hide Reapable;
    if i == MAX_PROCESSES || Reapable(s, i) {
    } else {
      BeforeFirst(s, i + 1);
    }
  }

  // Reaping one child does not make another one more or less reapable.
  lemma ReapingIsLocal(s: Sys, i: nat, j: nat)
    requires Shape(s) && TableOk(s) && s.current.Some? && i < MAX_PROCESSES && Reapable(s, i)
    requires j < MAX_PROCESSES
    ensures i > 0 && Reapable(Cleanup(s, i - 1), j) == (Reapable(s, j) && j != i)
    ensures j != i && s.table[j].Some? ==>
              0 < j <= POOL && Cleanup(s, i - 1).procs[j - 1] == s.procs[j - 1]
  {
    hide TableOk, Without;
    TableFacts(s);
    CleanupKeepsTable(s, i);
  }

  // One wait reaps the first child and leaves the others to be reaped.
  lemma WaitReaps(s: Sys)
    requires Shape(s) && TableOk(s) && s.current.Some? && Reapables(s, 0) != []
    ensures var i := Reapables(s, 0)[0];
            && 0 < i <= POOL && s.table[i] == Some(i - 1)
            && Wait(s) == (Cleanup(s, i - 1), i, Some(s.procs[i - 1].exit))
            && Cleanup(s, i - 1).table == s.table[i := None]
            && TableOk(Cleanup(s, i - 1)) && Cleanup(s, i - 1).current == s.current
            && Reapables(Cleanup(s, i - 1), 0) == Reapables(s, 0)[1..]
  {
    hide TableOk, Reapables, Reapable;
    BeforeFirst(s, 0);
    var i := Reapables(s, 0)[0];
    CleanupKeepsTable(s, i);
    ReapingIsLocal(s, i, i);
    var r := Cleanup(s, i - 1);
    forall j: nat | j < MAX_PROCESSES
      ensures Reapable(r, j) == (Reapable(s, j) && j != i)
    {
      ReapingIsLocal(s, i, j);
    }
    ReapablesFrom(s, 0, i);
    ReapablesFrom(r, 0, i);
    SameReapables(s, r, i + 1);
    InPoolSlot(s, i);
  }

  lemma InPoolSlot(s: Sys, i: nat)
    requires Shape(s) && TableOk(s) && i < MAX_PROCESSES && s.table[i].Some?
    ensures 0 < i <= POOL && s.procs[i - 1].pid == i
  {
  }

  // Unlinking p takes it, and nobody else, out of the queue.
  predicate Unlinks(l: Lists, p: nat)
    requires Ok(l) && p < |l.lines|
  {
    p in Queue(l) || Prev(l, p).Some? || (Queue(l) == [] && Next(l, p) == None)
  }

  // process_cleanup takes the process out of the queue and leaves the rest of it as it was
  // exactly when the process is queued, or stands behind another one, or is without links
  // beside an empty queue.
  lemma CleanupUnlinks(s: Sys, p: nat)
    requires Shape(s) && p < POOL
    ensures Cleanup(s, p).Queue() == Without(s.Queue(), p) <==> Unlinks(s.ready, p)
  {
    hide Ok, Detach, Queue, Without;
    var l, q := s.ready, s.Queue();
    QueueIsALine(l);
    DetachQueue(l, p);
    if p !in q && Prev(l, p) == None {
      DetachFirst(l, p);
      AloneInLine(l, p);
      if q != [] && l.lines[p][1..] == q {
        assert l.lines[q[0]] == q && q[0] == l.lines[p][1];
        SameLineAs(l, p, q[0]);
      }
    }
  }

  lemma AloneInLine(l: Lists, p: nat)
    requires Ok(l) && p < |l.lines| && Prev(l, p) == None
    ensures l.lines[p] != [] && (l.lines[p][1..] == [] <==> Next(l, p) == None)
  {
    hide Succ, Pred, Distinct;
    SameLine(l, p, p);
    Neighbours(l.lines[p], p);
  }

  lemma SameLineAs(l: Lists, p: nat, x: nat)
    requires Ok(l) && p < |l.lines| && x in l.lines[p]
    ensures x < |l.lines| && p in l.lines[x]
  {
  }

  // That stays so for the others.
  lemma UnlinksStill(l: Lists, p: nat, i: nat)
    requires Ok(l) && p < |l.lines| && i < |l.lines| && i != p && Unlinks(l, p) && Unlinks(l, i)
    requires Ok(Detach(l, p)) && Queue(Detach(l, p)) == Without(Queue(l), p)
    ensures Unlinks(Detach(l, p), i)
  {
    hide Partition, Distinct, Succ, Pred, Ok, Queue;
    LinesOf(l);
    QueueIsALine(l);
    WithoutKeeps(Queue(l), p);
    DetachLinks(l, p, i);
    SameLine(l, p, p);
    SameLine(l, i, i);
    Neighbours(l.lines[p], p);
    Neighbours(l.lines[i], i);
  }

  // Every child to be reaped can be unlinked like that.
  predicate CanReap(s: Sys, slots: seq<nat>)
    requires Shape(s)
  {
    forall k | 0 <= k < |slots| :: 0 < slots[k] <= POOL && Unlinks(s.ready, slots[k] - 1)
  }

  lemma ReapableIsOccupied(s: Sys, i: nat)
    requires Shape(s) && s.current.Some? && i < MAX_PROCESSES && Reapable(s, i)
    ensures s.table[i].Some?
  {
  }

  // The queue without the processes of the given slots.
  function Remaining(q: seq<nat>, slots: seq<nat>): seq<nat> {
    if q == [] then []
    else (if q[0] + 1 in slots then [] else [q[0]]) + Remaining(q[1..], slots)
  }

  lemma RemainingStep(x: nat, q: seq<nat>, slots: seq<nat>)
    ensures Remaining([x] + q, slots) == (if x + 1 in slots then [] else [x]) + Remaining(q, slots)
  {
    assert ([x] + q)[1..] == q;
  }

  lemma {:induction false} RemainingWithout(q: seq<nat>, i: nat, slots: seq<nat>)
    requires Distinct(q) && i > 0
    ensures Remaining(Without(q, i - 1), slots) == Remaining(q, [i] + slots)
  {
    hide Distinct, Remaining;
    if q == [] {
      RemainingNone(slots);
      RemainingNone([i] + slots);
    } else {
      DistinctTail(q);
      assert q == [q[0]] + q[1..];
      assert q[0] + 1 in [i] + slots <==> q[0] + 1 == i || q[0] + 1 in slots;
      RemainingStep(q[0], q[1..], [i] + slots);
      if q[0] == i - 1 {
        RemainingSame(q[1..], slots, i);
      } else {
        RemainingStep(q[0], Without(q[1..], i - 1), slots);
        RemainingWithout(q[1..], i, slots);
      }
    }
  }

  lemma RemainingNone(slots: seq<nat>)
    ensures Remaining([], slots) == []
  {
  }

  lemma {:induction false} RemainingSame(q: seq<nat>, slots: seq<nat>, i: nat)
    requires i > 0 && i - 1 !in q
    ensures Remaining(q, slots) == Remaining(q, [i] + slots)
  {
    if q == [] {
    } else {
      assert q == [q[0]] + q[1..];
      assert q[0] + 1 in [i] + slots <==> q[0] + 1 in slots;
      RemainingSame(q[1..], slots, i);
    }
  }

  lemma {:induction false} RemainingAll(q: seq<nat>)
    ensures Remaining(q, []) == q
  {
    if q == [] {
    } else {
      RemainingAll(q[1..]);
    }
  }

  // Reapables are slots, in increasing order.
  lemma {:induction false} ReapablesAscend(s: Sys, i: nat)
    requires Shape(s) && s.current.Some? && i <= MAX_PROCESSES
    ensures forall j, k | 0 <= j < k < |Reapables(s, i)| :: Reapables(s, i)[j] < Reapables(s, i)[k]
    decreases MAX_PROCESSES - i
  {
    hide Reapable;
    if i == MAX_PROCESSES {
    } else {
      ReapablesAscend(s, i + 1);
      ReapablesAre(s, i + 1);
      var rest := Reapables(s, i + 1);
      assert forall k | 0 <= k < |rest| :: rest[k] in rest;
    }
  }

  lemma WaitKeepsReaping(s: Sys, slots: seq<nat>)
    requires Shape(s) && TableOk(s) && s.current.Some? && slots == Reapables(s, 0) != []
    requires CanReap(s, slots)
    ensures CanReap(Wait(s).0, slots[1..])
    ensures slots[0] > 0 && Wait(s).0.Queue() == Without(s.Queue(), slots[0] - 1)
  {
    hide TableOk, Reapables, Reapable, Ok, Detach, Queue, Unlinks, Without;
    WaitReaps(s);
    ReapablesAscend(s, 0);
    var p := slots[0] - 1;
    CleanupUnlinks(s, p);
    forall k | 0 <= k < |slots[1..]|
      ensures 0 < slots[1..][k] <= POOL && Unlinks(Wait(s).0.ready, slots[1..][k] - 1)
    {
      UnlinksStill(s.ready, p, slots[k + 1] - 1);
    }
  }

  // The calls have returned the pids of slots with their exit codes, and exactly those slots
  // are cleared.
  ghost predicate Reaped(s: Sys, slots: seq<nat>, r: Sys, calls: seq<(nat, Option<int>)>)
    requires Shape(s) && Shape(r)
  {
    && |calls| == |slots| && r.current == s.current
    && (forall k | 0 <= k < |slots| ::
          0 < slots[k] <= POOL && calls[k] == (slots[k], Some(s.procs[slots[k] - 1].exit)))
    && forall i | 0 <= i < MAX_PROCESSES :: r.table[i] == if i in slots then None else s.table[i]
  }

  // Waiting for all terminated children returns each of them once, by increasing pid, and
  // the call after that finds none, whatever the links are.
  lemma {:induction false} ReapAll(s: Sys, slots: seq<nat>)
    requires Shape(s) && TableOk(s) && s.current.Some? && slots == Reapables(s, 0)
    ensures Reaped(s, slots, Waits(s, |slots|).0, Waits(s, |slots|).1)
    ensures Wait(Waits(s, |slots|).0) == (Waits(s, |slots|).0, 0, None)
    decreases |slots|
  {
    hide TableOk, Reapables, Reapable, Cleanup, Wait, Shape, Reaped;
    if slots == [] {
      NothingToReap(s);
    } else {
      WaitReaps(s);
      var r := Wait(s).0;
      ReapAll(r, slots[1..]);
      OneMoreReaped(s, slots, Waits(r, |slots| - 1).0, Waits(r, |slots| - 1).1);
    }
  }

  // Those calls take exactly the reaped processes out of the queue.
  lemma {:induction false} ReapUnlinks(s: Sys, slots: seq<nat>)
    requires Shape(s) && TableOk(s) && s.current.Some? && slots == Reapables(s, 0) && CanReap(s, slots)
    ensures Waits(s, |slots|).0.Queue() == Remaining(s.Queue(), slots)
    decreases |slots|
  {
    hide TableOk, Reapables, Reapable, CanReap, Cleanup, Wait, Shape, Queue;
    if slots == [] {
      RemainingAll(s.Queue());
    } else {
      WaitReaps(s);
      WaitKeepsReaping(s, slots);
      ReapUnlinks(Wait(s).0, slots[1..]);
      DistinctQueue(s);
      RemainingWithout(s.Queue(), slots[0], slots[1..]);
      assert slots == [slots[0]] + slots[1..];
    }
  }

  lemma DistinctQueue(s: Sys)
    requires Shape(s)
    ensures Distinct(s.Queue())
  {
    QueueIsALine(s.ready);
  }

  lemma NothingToReap(s: Sys)
    requires Shape(s) && s.current.Some? && Reapables(s, 0) == []
    ensures Wait(s) == (s, 0, None) && Reaped(s, [], s, [])
  {
  }

  lemma OneMoreReaped(s: Sys, slots: seq<nat>, last: Sys, calls: seq<(nat, Option<int>)>)
    requires Shape(s) && TableOk(s) && s.current.Some? && slots == Reapables(s, 0) != []
    requires Shape(last) && Reaped(Wait(s).0, slots[1..], last, calls)
    ensures Reaped(s, slots, last, [(Wait(s).1, Wait(s).2)] + calls)
  {
    hide TableOk, Reapables, Reapable, Cleanup, Wait, Shape;
    WaitReaps(s);
    OthersKeepExit(s, slots);
    CleanedSizes(s, slots[0] - 1);
    Sizes(last);
    FirstAndRest(s.table, slots, last.table);
  }

  // Clearing the first slot and then the rest clears them all.
  lemma FirstAndRest(table: seq<Option<nat>>, slots: seq<nat>, last: seq<Option<nat>>)
    requires |table| == |last| == MAX_PROCESSES && slots != [] && slots[0] < MAX_PROCESSES
    requires forall i | 0 <= i < MAX_PROCESSES ::
               last[i] == if i in slots[1..] then None else table[slots[0] := None][i]
    ensures forall i | 0 <= i < MAX_PROCESSES :: last[i] == if i in slots then None else table[i]
  {
    assert slots == [slots[0]] + slots[1..];
  }

  lemma CleanedSizes(s: Sys, p: nat)
    requires Shape(s) && p < POOL
    ensures |s.procs| == POOL && |s.table| == MAX_PROCESSES && Cleanup(s, p).current == s.current
    ensures |Cleanup(s, p).procs| == POOL && |Cleanup(s, p).table| == MAX_PROCESSES
  {
  }

  lemma OthersKeepExit(s: Sys, slots: seq<nat>)
    requires Shape(s) && TableOk(s) && s.current.Some? && slots == Reapables(s, 0) != []
    ensures 0 < slots[0] <= POOL && |Cleanup(s, slots[0] - 1).procs| == |s.procs| == POOL
    ensures forall k | 0 < k < |slots| ::
              0 < slots[k] <= POOL && Cleanup(s, slots[0] - 1).procs[slots[k] - 1] == s.procs[slots[k] - 1]
  {
    hide TableOk, Reapables, Reapable, Cleanup, Shape;
    ReapablesAre(s, 0);
    ReapablesAscend(s, 0);
    WaitReaps(s);
    CleanedSizes(s, slots[0] - 1);
    forall k | 0 < k < |slots|
      ensures 0 < slots[k] <= POOL
      ensures Cleanup(s, slots[0] - 1).procs[slots[k] - 1] == s.procs[slots[k] - 1]
    {
      assert slots[k] in slots && slots[0] in slots;
      ReapableIsOccupied(s, slots[k]);
      ReapingIsLocal(s, slots[0], slots[k]);
    }
  }

  // ---------------------------------------------------------------- a wait that loses the queue

  // The first child of the kernel process has run and exited, and two more are queued.
  predicate ExitedAndForked(s: Sys)
    requires Shape(s)
  {
    && TableOk(s) && s.current == Some(0) && s.Queue() == [2, 3] && s.TailOk()
    && Free(s.ready, 1) && s.table[2] == Some(1)
    && s.procs[1].parent == 1 && s.procs[1].status == Terminated
  }

  lemma FirstChildExits(s: Sys)
    requires Shape(s) && Forked(s, 1)
    ensures var r := Exit(Tick(s), 0);
            && TableOk(r) && r.count == 2 && r.current == Some(0) && r.Queue() == [] && r.ready.tail == None
            && Free(r.ready, 1) && r.table[2] == Some(1)
            && r.procs[1].parent == 1 && r.procs[1].status == Terminated
  {
    hide Ok, Free, Queue, TailOk, TableOk, Tick, Without;
    var t := Tick(s);
    TickQueue(s);
    QueueIsALine(s.ready);
    FreeIsOutside(s.ready, 0);
    IsAlone(s.ready, 0);
    assert [1] + [] == [1];
    TickProcs(s, 1);
    TickKeepsTable(s);
    TableFacts(t);
    TailOkIs(t.ready);
    ExitKeepsTable(t, 0);
    HeadOfQueue(t);
    LeavesForKernel(Leave(t, 0));
  }

  lemma IsAlone(l: Lists, p: nat)
    requires Free(l, p)
    ensures p < |l.lines| && Next(l, p) == None && Prev(l, p) == None && l.lines[p] == [p]
  {
    NoNeighbours(l, p);
  }

  lemma LeavesForKernel(s: Sys)
    requires Shape(s) && s.ready.head == None
    ensures Tick(s) == s.(current := s.kernel)
  {
  }

  lemma TwoMoreForks(s: Sys)
    requires Shape(s) && TableOk(s) && s.count == 2 && s.current == Some(0)
    requires s.Queue() == [] && s.ready.tail == None && Free(s.ready, 1) && s.table[2] == Some(1)
    requires s.procs[1].parent == 1 && s.procs[1].status == Terminated
    ensures ExitedAndForked(Fork(Fork(s).0).0)
  {
    hide Ok, Free, Queue, TailOk, TableOk, Fork;
    var one := Fork(s).0;
    ForkAppends(s);
    ForkCopies(s);
    ForkKeepsTable(s);
    ForkAppends(one);
    ForkCopies(one);
    ForkKeepsTable(one);
  }

  lemma WaitFindsSecond(s: Sys)
    requires Shape(s) && ExitedAndForked(s)
    ensures FirstReapable(s) == Some(2) && Wait(s).1 == 2 && Wait(s).0 == Cleanup(s, 1)
  {
    hide Ok, Free, Queue, TailOk, TableOk, Reapable, Cleanup;
    OnlySecond(s);
    ReapablesFrom(s, 0, 2);
    WaitReaps(s);
  }

  // The terminated child is without links, so that to unlink it forgets the whole queue.
  lemma WaitForgets(s: Sys)
    requires Shape(s) && ExitedAndForked(s)
    ensures Wait(s).1 == 2 && Wait(s).0.Queue() == [] && !Tidy(Wait(s).0.ready)
    ensures !Unlinks(s.ready, 1) && !Keeps(s, DoWait)
  {
    hide Ok, Free, Queue, TailOk, TableOk, FirstReapable, Cleanup, Detach, Without, Wait;
    WaitFindsSecond(s);
    IsAlone(s.ready, 1);
    FreeIsOutside(s.ready, 1);
    DetachFirst(s.ready, 1);
    CleanupDetaches(s, 1);
    QueueIsALine(s.ready);
    assert s.Queue()[0] == 2 && s.ready.lines[2] == [2, 3];
    StillLinked(s.ready);
  }

  lemma StillLinked(l: Lists)
    requires |l.lines| == POOL && l.lines[2] == [2, 3]
    ensures !Alone(Detach(l, 1), 2)
  {
    assert Without([2, 3], 1) == [2, 3];
  }

  lemma OnlySecond(s: Sys)
    requires Shape(s) && ExitedAndForked(s)
    ensures Reapable(s, 2) && !Reapable(s, 0) && !Reapable(s, 1)
  {
    hide Ok, Free, Queue, TailOk;
  }

  lemma CleanupDetaches(s: Sys, p: nat)
    requires Shape(s) && p < POOL
    ensures Cleanup(s, p).ready == Detach(s.ready, p)
  {
    hide Ok, Free, Detach;
  }

  // A fork, a tick, an exit of the child and two more forks after startup: the kernel
  // process waits for its child, and the two in the queue are lost.
  lemma WaitLosesQueue(stacks: nat, idle: nat)
    ensures var s := Run(Boot(Empty(stacks), idle), Forks(1) + [DoTick, DoExit(0)] + [DoFork, DoFork]);
            && s.current == Some(0) && s.Queue() == [2, 3] && s.TailOk()
            && !Keeps(s, DoWait) && !Unlinks(s.ready, 1)
            && Wait(s).1 == 2 && Wait(s).0.Queue() == [] && !Tidy(Wait(s).0.ready)
  {
    hide Run, Boot, Forked, ExitedAndForked, Tick, Wait, Queue, TailOk, Fork, Exit, TableOk, Keeps, Unlinks, Tidy;
    var b := Boot(Empty(stacks), idle);
    BootForked(stacks, idle);
    RunForked(b, 0, 1);
    var f := Run(b, Forks(1));
    RunSplits(b, Forks(1) + [DoTick, DoExit(0)], [DoFork, DoFork]);
    RunSplits(b, Forks(1), [DoTick, DoExit(0)]);
    RunTwo(f, DoTick, DoExit(0));
    FirstChildExits(f);
    var e := Exit(Tick(f), 0);
    RunTwo(e, DoFork, DoFork);
    TwoMoreForks(e);
    ExitedFacts(Fork(Fork(e).0).0);
    WaitForgets(Fork(Fork(e).0).0);
  }

  lemma ExitedFacts(s: Sys)
    requires Shape(s) && ExitedAndForked(s)
    ensures s.current == Some(0) && s.Queue() == [2, 3] && s.TailOk()
  {
  }

  // ---------------------------------------------------------------- staying terminated

  // The process with pid i is in the table and terminated.
  predicate Ended(s: Sys, i: nat)
    requires Shape(s)
  {
    0 < i <= POOL && s.table[i] == Some(i - 1) && s.procs[i - 1].status == Terminated
  }

  // The operations that make it run, or give it another status, or drop it from the table: it
  // is dispatched from the queue, which it never left, or switched to, or set to READY or
  // BLOCKED, or killed by pid, or reaped.
  predicate Disturbs(s: Sys, op: Op, i: nat)
    requires Shape(s)
  {
    match op
    case DoTick => s.ready.head.Some? && s.ready.head.value + 1 == i && s.ready.head != s.current
    case DoExit(_) => s.current.Some? && s.ready.head.Some? && s.ready.head.value + 1 == i
    case DoSwitch(pid) => pid == i != 1
    case DoSetStatus(pid, status) => pid == i && (status == Ready || status == Blocked)
    case DoPkill(pid) => pid == i != 1
    case DoWait => s.current.Some? && FirstReapable(s) == Some(i)
    case _ => false
  }

  // The exit code it then has: signal 9 sets -1, and an exit of the process itself, when it is
  // still current, another code.
  function CodeAfter(s: Sys, op: Op, i: nat): int
    requires Shape(s) && 0 < i <= POOL
  {
    match op
    case DoKill(pid, signal) => if pid == i != 1 && signal == 9 then -1 else s.procs[i - 1].exit
    case DoExit(code) => if s.current == Some(i - 1) then code else s.procs[i - 1].exit
    case _ => s.procs[i - 1].exit
  }

  lemma TickEnds(s: Sys, i: nat)
    requires Shape(s) && Ended(s, i)
    ensures Ended(Tick(s), i) <==> !Disturbs(s, DoTick, i)
    ensures Tick(s).procs[i - 1].parent == s.procs[i - 1].parent
    ensures Tick(s).procs[i - 1].exit == s.procs[i - 1].exit
  {
    hide Ok, Free, Tick;
    TickProcs(s, i - 1);
  }

  lemma ForkEnds(s: Sys, i: nat)
    requires Shape(s) && TableOk(s) && Ended(s, i)
    ensures Ended(Fork(s).0, i) && !Disturbs(s, DoFork, i) && Fork(s).0.procs[i - 1] == s.procs[i - 1]
  {
    hide Ok, Free, TableOk, Fork;
    TableFacts(s);
    if s.current.Some? && s.count < POOL {
      ForkCopies(s);
    } else {
      ForkFails(s);
    }
  }

  lemma WaitEnds(s: Sys, i: nat)
    requires Shape(s) && TableOk(s) && Ended(s, i)
    ensures Ended(Wait(s).0, i) <==> !Disturbs(s, DoWait, i)
    ensures !Disturbs(s, DoWait, i) ==> Wait(s).0.procs[i - 1] == s.procs[i - 1]
  {
    hide Ok, Free, TableOk, Cleanup, Reapable, FirstReapable;
    if s.current.Some? && FirstReapable(s).Some? {
      var j := FirstReapable(s).value;
      CleanupKeepsTable(s, j);
      ReapingIsLocal(s, j, i);
    }
  }

  // A terminated process stays terminated, in the table and a child of the same process,
  // exactly over the operations that do not disturb it.
  lemma StepEnds(s: Sys, op: Op, i: nat)
    requires Shape(s) && TableOk(s) && Ended(s, i)
    ensures Ended(Step(s, op), i) <==> !Disturbs(s, op, i)
    ensures !Disturbs(s, op, i) ==>
              && Step(s, op).procs[i - 1].parent == s.procs[i - 1].parent
              && Step(s, op).procs[i - 1].exit == CodeAfter(s, op, i)
  {
    hide Ok, Free, TableOk, Tick, Fork, Wait, Ended, Disturbs;
    match op {
      case DoTick => TickEnds(s, i);
      case DoExit(code) => ExitEnds(s, code, i);
      case DoFork => ForkEnds(s, i);
      case DoWait => WaitEnds(s, i);
      case _ => OtherEnds(s, op, i);
    }
  }

  lemma ExitEnds(s: Sys, code: int, i: nat)
    requires Shape(s) && Ended(s, i)
    ensures Ended(Exit(s, code), i) <==> !Disturbs(s, DoExit(code), i)
    ensures Exit(s, code).procs[i - 1].parent == s.procs[i - 1].parent
    ensures Exit(s, code).procs[i - 1].exit == CodeAfter(s, DoExit(code), i)
  {
    hide Ok, Free, Tick;
    if s.current.Some? {
      TickEnds(Leave(s, code), i);
    }
  }

  lemma OtherEnds(s: Sys, op: Op, i: nat)
    requires Shape(s) && TableOk(s) && Ended(s, i)
    requires !op.DoTick? && !op.DoExit? && !op.DoFork? && !op.DoWait?
    ensures Ended(Step(s, op), i) <==> !Disturbs(s, op, i)
    ensures !Disturbs(s, op, i) ==>
              && Step(s, op).procs[i - 1].parent == s.procs[i - 1].parent
              && Step(s, op).procs[i - 1].exit == CodeAfter(s, op, i)
  {
    hide Ok, Free, TableOk;
    TableFacts(s);
  }

  predicate EndedThroughout(s: Sys, ops: seq<Op>, i: nat)
    requires Shape(s)
    decreases |ops|
  {
    Ended(s, i) && (ops == [] || EndedThroughout(Step(s, ops[0]), ops[1..], i))
  }

  predicate Undisturbed(s: Sys, ops: seq<Op>, i: nat)
    requires Shape(s)
    decreases |ops|
  {
    ops == [] || (!Disturbs(s, ops[0], i) && Undisturbed(Step(s, ops[0]), ops[1..], i))
  }

  // Nothing gives it another exit code.
  predicate KeepsCode(s: Sys, ops: seq<Op>, i: nat)
    requires Shape(s) && 0 < i <= POOL
    decreases |ops|
  {
    ops == []
    || (CodeAfter(s, ops[0], i) == s.procs[i - 1].exit && KeepsCode(Step(s, ops[0]), ops[1..], i))
  }

  // So over a run a terminated process stays one exactly when nothing disturbs it, and then
  // its parent, whenever it is current again, can reap it.
  lemma {:induction false} RunEnds(s: Sys, ops: seq<Op>, i: nat)
    requires Shape(s) && TableOk(s) && Ended(s, i)
    ensures EndedThroughout(s, ops, i) <==> Undisturbed(s, ops, i)
    ensures var r := Run(s, ops);
            Undisturbed(s, ops, i) && r.current.Some? ==>
              (Reapable(r, i) <==> r.procs[r.current.value].pid == s.procs[i - 1].parent)
    ensures Undisturbed(s, ops, i) && KeepsCode(s, ops, i) ==>
              Run(s, ops).procs[i - 1].exit == s.procs[i - 1].exit
    decreases |ops|
  {
    hide Step, Shape, Ended, Disturbs, TableOk, Reapable, CodeAfter;
    EndedSizes(s, i);
    if ops == [] {
      EndedIsReapable(s, i);
    } else {
      StepEnds(s, ops[0], i);
      StepKeepsTable(s, ops[0]);
      if !Disturbs(s, ops[0], i) {
        RunEnds(Step(s, ops[0]), ops[1..], i);
      }
    }
  }

  lemma EndedIsReapable(s: Sys, i: nat)
    requires Shape(s) && Ended(s, i)
    ensures s.current.Some? ==> (Reapable(s, i) <==> s.procs[s.current.value].pid == s.procs[i - 1].parent)
  {
  }

  lemma EndedSizes(s: Sys, i: nat)
    requires Shape(s) && Ended(s, i)
    ensures 0 < i <= POOL == |s.procs|
  {
  }

  // What a process passes to sys_exit is what sys_wait reports to its parent, after any run
  // that leaves it terminated and with that code.
  lemma ExitCodeIsReported(s: Sys, code: int, ops: seq<Op>, i: nat)
    requires Shape(s) && TableOk(s) && 0 < i <= POOL && s.current == Some(i - 1)
    requires s.table[i] == Some(i - 1) && s.ready.head != s.current
    requires var e := Exit(s, code);
             Undisturbed(e, ops, i) && KeepsCode(e, ops, i)
    ensures var r := Run(Exit(s, code), ops);
            r.current.Some? && FirstReapable(r) == Some(i) ==>
              Wait(r) == (Cleanup(r, i - 1), i, Some(code))
  {
    hide TableOk, Exit, Run, Reapable, FirstReapable, Cleanup, Undisturbed, KeepsCode, Ok, Free, EndedThroughout;
    var e := Exit(s, code);
    var r := Run(e, ops);
    ExitStores(s, code, i - 1);
    ExitKeepsTable(s, code);
    ExitKeepsSlots(s, code);
    RunEnds(e, ops, i);
    RunKeepsTable(e, ops);
    if r.current.Some? && FirstReapable(r) == Some(i) {
      CleanupKeepsTable(r, i);
      WaitReports(r, i);
    }
  }

  lemma ExitKeepsSlots(s: Sys, code: int)
    requires Shape(s)
    ensures Exit(s, code).table == s.table
  {
    hide Tick, Ok;
  }

  lemma WaitReports(s: Sys, i: nat)
    requires Shape(s) && s.current.Some? && FirstReapable(s) == Some(i) && 0 < i <= POOL
    requires s.table[i] == Some(i - 1) && s.procs[i - 1].pid == i
    ensures Wait(s) == (Cleanup(s, i - 1), i, Some(s.procs[i - 1].exit))
  {
    hide FirstReapable, Cleanup;
  }

  // Termination is not final: a killed process that is still queued is dispatched, and its
  // parent can reap it no longer.
  lemma KilledProcessRuns(stacks: nat, idle: nat)
    ensures var s := Run(Boot(Empty(stacks), idle), Forks(2) + [DoKill(2, 9)]);
            && s.current == Some(0) && Ended(s, 2) && Reapable(s, 2) && Disturbs(s, DoTick, 2)
            && Tick(s).current == Some(1) && Tick(s).procs[1].status == Running
  {
    hide Run, Boot, Forked, Tick, Reapable, Ended, Disturbs, Kill, TableOk, Queue;
    var b := Boot(Empty(stacks), idle);
    BootForked(stacks, idle);
    RunForked(b, 0, 2);
    var f := Run(b, Forks(2));
    RunSplits(b, Forks(2), [DoKill(2, 9)]);
    RunOne(f, DoKill(2, 9));
    KillsQueued(f);
  }

  lemma KillsQueued(f: Sys)
    requires Shape(f) && Forked(f, 2)
    ensures var s := Kill(f, 2, 9).0;
            && s.current == Some(0) && Ended(s, 2) && Reapable(s, 2) && Disturbs(s, DoTick, 2)
            && Tick(s).current == Some(1) && Tick(s).procs[1].status == Running
  {
    hide Ok, Free, Queue, TailOk, Tick, Without;
    var s := Kill(f, 2, 9).0;
    HeadOfQueue(f);
    assert f.Queue()[0] == 1;
    TickQueue(s);
    TickProcs(s, 1);
  }
}
