/** The process table and ready queue as the kernel holds them: PCB objects threaded through
    their next and prev links, updated in place (kernel/proc/process.c). */
module Kernel {
  import opened Basics
  import opened Processes
  import opened Links
  import opened Scheduling

  class Pcb {
    ghost const id: nat         // its index in the pool
    var pid: nat
    var parentPid: nat
    var state: Status
    var exitCode: int
    var image: Image
    var next: Pcb?
    var prev: Pcb?

    constructor (ghost id: nat)
      ensures this.id == id && Contents() == CLEARED && next == null && prev == null
    {
      this.id := id;
      pid, parentPid, state, exitCode, image := 0, 0, Ready, 0, CLEARED.image;
      next, prev := null, null;
    }

    function Contents(): Info
      reads `pid, `parentPid, `state, `exitCode, `image
    {
      Info(pid, parentPid, state, exitCode, image)
    }
  }

  class Scheduler {
    const pool: seq<Pcb>            // static_processes
    const stacks: nat               // static_stacks
    const table: array<Pcb?>        // process_table
    var count: nat                  // process_count
    var nextPid: nat
    var head: Pcb?
    var tail: Pcb?
    var current: Pcb?
    var kernel: Pcb?

    ghost var procs: seq<Info>
    ghost var slots: seq<Option<nat>>
    ghost var ready: Lists
    ghost var cur: Option<nat>
    ghost var ker: Option<nat>

    ghost predicate PoolOk() {
      |pool| == POOL && forall i | 0 <= i < POOL :: pool[i].id == i
    }

    ghost predicate InPool(p: Pcb?) {
      p != null ==> p.id < |pool| && pool[p.id] == p
    }

    ghost function Ref(o: Option<nat>): Pcb? {
      if o.Some? && o.value < |pool| then pool[o.value] else null
    }

    // Every PCB's links are those of its line, and the ends those of the lists.
    ghost predicate Threaded()
      reads `ready, `head, `tail, pool`next, pool`prev
    {
      && PoolOk() && Ok(ready) && |ready.lines| == POOL
      && head == Ref(ready.head) && tail == Ref(ready.tail)
      && forall i | 0 <= i < POOL ::
           pool[i].next == Ref(Next(ready, i)) && pool[i].prev == Ref(Prev(ready, i))
    }

    // The pointer updates of remove_from_ready_queue.
    method Unlink(process: Pcb)
      requires Threaded() && InPool(process)
      modifies this`head, this`tail, pool`next, pool`prev
      ensures var p, v, n := process.id, Prev(ready, process.id), Next(ready, process.id);
              && head == Ref(if v == None then n else ready.head)
              && tail == Ref(if n == None then v else ready.tail)
              && pool[p].next == null && pool[p].prev == null
              && forall i | 0 <= i < POOL && i != p ::
                   && pool[i].next == Ref(if v == Some(i) then n else Next(ready, i))
                   && pool[i].prev == Ref(if n == Some(i) then v else Prev(ready, i))
    {
      hide Ok, Prev, Next;
      Beside(ready, process.id);
      if process.prev != null {
        process.prev.next := process.next;
      } else {
        head := process.next;
      }
      if process.next != null {
        process.next.prev := process.prev;
      } else {
        tail := process.prev;
      }
      process.next := null;
      process.prev := null;
    }

    // remove_from_ready_queue, for a process that stands anywhere.
    method RemoveFromReadyQueue(process: Pcb?)
      requires Threaded() && InPool(process)
      modifies this`head, this`tail, this`ready, pool`next, pool`prev
      ensures Threaded()
      ensures ready == if process == null then old(ready) else Detach(old(ready), process.id)
    {
      hide Ok, Prev, Next;
      if process != null {
        DetachedLinks(ready, process.id);
        Unlink(process);
        ready := Detach(ready, process.id);
      }
    }

    lemma DetachedLinks(l: Lists, p: nat)
      requires Ok(l) && p < |l.lines|
      ensures var d, v, n := Detach(l, p), Prev(l, p), Next(l, p);
              && Ok(d) && |d.lines| == |l.lines|
              && d.head == (if v == None then n else l.head) && d.tail == (if n == None then v else l.tail)
              && Next(d, p) == None && Prev(d, p) == None
              && forall i: nat | i < |l.lines| && i != p ::
                   && Next(d, i) == (if v == Some(i) then n else Next(l, i))
                   && Prev(d, i) == (if n == Some(i) then v else Prev(l, i))
    {
      hide Prev, Next;
      DetachOk(l, p);
      LinesOf(l);
      DetachLinks(l, p, p);
      forall i: nat | i < |l.lines| && i != p
        ensures Next(Detach(l, p), i) == if Prev(l, p) == Some(i) then Next(l, p) else Next(l, i)
        ensures Prev(Detach(l, p), i) == if Next(l, p) == Some(i) then Prev(l, p) else Prev(l, i)
      {
        DetachLinks(l, p, i);
      }
    }

    // add_to_ready_queue, for a process that is not linked.
    method AddToReadyQueue(process: Pcb?)
      requires Threaded() && InPool(process)
      requires process != null && process.state == Ready ==> Free(ready, process.id)
      modifies this`head, this`tail, this`ready, pool`next, pool`prev
      ensures Threaded()
      ensures ready == if process == null || process.state != Ready then old(ready)
                       else Attach(old(ready), process.id)
    {
      hide Ok, Prev, Next, Attach;
      if process == null || process.state != Ready {
        return;
      }
      AttachedLinks(ready, process.id);
      process.next := null;
      process.prev := tail;
      if tail != null {
        tail.next := process;
      } else {
        head := process;
      }
      tail := process;
      ready := Attach(ready, process.id);
    }

    lemma AttachedLinks(l: Lists, p: nat)
      requires Ok(l) && Free(l, p)
      ensures var a := Attach(l, p);
              && Ok(a) && |a.lines| == |l.lines|
              && a.head == (if l.tail == None then Some(p) else l.head) && a.tail == Some(p)
              && (l.tail.Some? ==> l.tail.value < |l.lines| && l.tail.value != p)
              && Next(a, p) == None
              && forall i: nat | i < |l.lines| ::
                   && Next(a, i) == (if l.tail == Some(i) then Some(p) else Next(l, i))
                   && Prev(a, i) == (if i == p then l.tail else Prev(l, i))
    {
      hide Ok, Prev, Next;
      AttachOk(l, p);
      EndsOf(l);
      NoNeighbours(l, p);
      forall i: nat | i < |l.lines|
        ensures Next(Attach(l, p), i) == if l.tail == Some(i) then Some(p) else Next(l, i)
        ensures Prev(Attach(l, p), i) == if i == p then l.tail else Prev(l, i)
      {
        AttachLinks(l, p, i);
      }
    }

    // ---------------------------------------------------------------- the whole state

    // The ghost mirror of the PCBs' contents, of the table and of the two named processes.
    ghost predicate Mirrors()
      reads `procs, `slots, `current, `kernel, `cur, `ker, table
      reads pool`pid, pool`parentPid, pool`state, pool`exitCode, pool`image
    {
      && PoolOk() && |procs| == POOL && |slots| == table.Length
      && (forall i | 0 <= i < POOL :: pool[i].Contents() == procs[i])
      && (forall i | 0 <= i < table.Length :: table[i] == Ref(slots[i]))
      && current == Ref(cur) && kernel == Ref(ker)
    }

    ghost function State(): Sys
      reads `procs, `count, `slots, `ready, `cur, `ker
    {
      Sys(stacks, procs, count, slots, ready, cur, ker)
    }

    ghost predicate Valid()
      reads this, pool, table
    {
      Mirrors() && Shape(State()) && Threaded()
    }

    lemma SameRef(a: Option<nat>, b: Option<nat>)
      requires PoolOk() && Ref(a) == Ref(b)
      requires (a.Some? ==> a.value < POOL) && (b.Some? ==> b.value < POOL)
      ensures a == b
    {
    }

    lemma MirrorsPool()
      requires Mirrors()
      ensures PoolOk() && |slots| == table.Length && current == Ref(cur) && kernel == Ref(ker)
      ensures |procs| == POOL && forall i | 0 <= i < POOL :: pool[i].Contents() == procs[i]
      ensures forall i | 0 <= i < table.Length :: table[i] == Ref(slots[i])
    {
    }

    lemma ThreadedEnds()
      requires Threaded()
      ensures PoolOk() && Ok(ready) && |ready.lines| == POOL
      ensures head == Ref(ready.head) && tail == Ref(ready.tail)
      ensures ready.head.Some? ==> ready.head.value < POOL
      ensures ready.tail.Some? ==> ready.tail.value < POOL
    {
    }

    // Static storage, cleared by process_init and scheduler_init.
    constructor (stacks: nat)
      ensures Valid() && State() == Empty(stacks) && fresh(pool) && fresh(table) && nextPid == 1
    {
      var ps: seq<Pcb> := [];
      for i := 0 to POOL
        invariant |ps| == i && fresh(ps)
        invariant forall k | 0 <= k < i :: ps[k].id == k && ps[k].Contents() == CLEARED
        invariant forall k | 0 <= k < i :: ps[k].next == null && ps[k].prev == null
      {
        var p := new Pcb(i);
        ps := ps + [p];
      }
      pool := ps;
      this.stacks := stacks;
      table := new Pcb?[MAX_PROCESSES](_ => null);
      count, nextPid := 0, 1;
      head, tail, current, kernel := null, null, null, null;
      procs, slots := seq(POOL, _ => CLEARED), seq(MAX_PROCESSES, _ => None);
      ready, cur, ker := Empty(stacks).ready, None, None;
    }

    method SetContents(process: Pcb, info: Info)
      requires Mirrors() && InPool(process)
      modifies this`procs, pool`pid, pool`parentPid, pool`state, pool`exitCode, pool`image
      ensures Mirrors() && procs == old(procs)[process.id := info]
      ensures process.Contents() == info
    {
      process.pid := info.pid;
      process.parentPid := info.parent;
      process.state := info.status;
      process.exitCode := info.exit;
      process.image := info.image;
      procs := procs[process.id := info];
    }

    method SetState(process: Pcb, status: Status)
      requires Mirrors() && InPool(process)
      modifies this`procs, pool`state
      ensures Mirrors() && process.state == status
      ensures procs == old(procs)[process.id := old(procs)[process.id].(status := status)]
    {
      process.state := status;
      procs := procs[process.id := procs[process.id].(status := status)];
    }

    method SetSlot(pid: nat, process: Pcb?, ghost index: Option<nat>)
      requires Mirrors() && pid < table.Length && process == Ref(index)
      modifies this`slots, table
      ensures Mirrors() && slots == old(slots)[pid := index]
    {
      table[pid] := process;
      slots := slots[pid := index];
    }

    method SetCurrent(process: Pcb?, ghost index: Option<nat>)
      requires Mirrors() && process == Ref(index)
      modifies this`current, this`cur
      ensures Mirrors() && cur == index
    {
      current := process;
      cur := index;
    }

    method SetKernel(process: Pcb?, ghost index: Option<nat>)
      requires Mirrors() && process == Ref(index)
      modifies this`kernel, this`ker
      ensures Mirrors() && ker == index
    {
      kernel := process;
      ker := index;
    }

    // ---------------------------------------------------------------- the scheduler

    // The first half of schedule.
    method PreemptCurrent()
      requires Valid()
      modifies this`head, this`tail, this`ready, this`procs, pool`next, pool`prev, pool`state
      ensures Mirrors() && Threaded() && State() == Preempt(old(State()))
    {
      hide Shape, Mirrors, Threaded, Ok, Attach, Detach;
      ghost var s := State();
      Sizes(s);
      MirrorsPool();
      if current != null && current.state == Running {
        ThreadedEnds();
        SetState(current, Ready);
        if current != tail {
          MoveToBack(current);
        } else {
          SameRef(cur, ready.tail);
        }
      }
      assert State() == Preempt(s);
    }

    method MoveToBack(process: Pcb)
      requires Threaded() && InPool(process) && process.state == Ready
      modifies this`head, this`tail, this`ready, pool`next, pool`prev
      ensures Threaded() && Ok(Detach(old(ready), process.id))
      ensures Free(Detach(old(ready), process.id), process.id)
      ensures ready == Attach(Detach(old(ready), process.id), process.id)
    {
      hide Threaded, Ok, Attach, Detach, Free;
      ThreadedEnds();
      DetachOk(ready, process.id);
      RemoveFromReadyQueue(process);
      AddToReadyQueue(process);
    }

    // The second half: the old head leaves the queue and becomes current.
    method Dispatch(next: Pcb)
      requires Mirrors() && Threaded() && InPool(next) && next.id < POOL && Shape(State())
      modifies this`head, this`tail, this`ready, this`procs, this`current, this`cur
      modifies pool`next, pool`prev, pool`state
      ensures Mirrors() && Threaded()
      ensures State() == Mark(Remove(old(State()), next.id), next.id, Running).(current := Some(next.id))
    {
      hide Shape, Mirrors, Threaded, Ok, Detach;
      MirrorsPool();
      RemoveFromReadyQueue(next);
      SetState(next, Running);
      SetCurrent(next, Some(next.id));
    }

    // ready_queue_tail is the last process that can be reached from ready_queue_head.
    ghost predicate TailIsLast()
      requires Threaded()
      reads `ready, `head, `tail, pool`next, pool`prev
    {
      tail == Ref(Last(Queue(ready)))
    }

    lemma TailIsTailOk()
      requires Threaded()
      ensures TailIsLast() <==> TailOk(ready)
    {
      hide Succ, Pred, Distinct;
      QueueIsALine(ready);
      if TailIsLast() {
        SameRef(ready.tail, Last(Queue(ready)));
      }
    }

    // The pointers represent the queue and nothing else: head and tail are its ends, next and
    // prev its neighbours, it holds created processes once each, and a process outside of it
    // has null links.
    ghost predicate OneQueue()
      requires Threaded()
      reads `count, `ready, `head, `tail, pool`next, pool`prev
    {
      var q := Queue(ready);
      && Distinct(q) && Below(q, count) && head == Ref(First(q)) && TailIsLast()
      && forall i | 0 <= i < POOL ::
           pool[i].next == Ref(Succ(q, i)) && pool[i].prev == Ref(Pred(q, i))
    }

    // The pointers and the lines agree on that.
    lemma OneQueueIsTidy()
      requires Valid()
      ensures OneQueue() <==> Tidy(ready)
    {
      hide Succ, Pred, Distinct, Ok, Queue, TailOk, Mirrors;
      QueuedAreCreated(State());
      TailIsTailOk();
      QueueIsALine(ready);
      ThreadedEnds();
      forall i: nat | i < POOL
        ensures i in Queue(ready) ==> ready.lines[i] == Queue(ready)
        ensures i !in Queue(ready) ==> Succ(Queue(ready), i) == None && Pred(Queue(ready), i) == None
        ensures pool[i].next == null && pool[i].prev == null <==> Alone(ready, i)
      {
        Neighbours(Queue(ready), i);
        NullIsAlone(i);
      }
    }

    lemma QueuedAreCreated(s: Sys)
      requires Shape(s)
      ensures Below(s.Queue(), s.count)
    {
      hide Ok, Queue, Free;
      QueueIsALine(s.ready);
      forall k | 0 <= k < |s.Queue()|
        ensures s.Queue()[k] < s.count
      {
        if s.Queue()[k] >= s.count {
          FreeIsOutside(s.ready, s.Queue()[k]);
        }
      }
    }

    lemma NullIsAlone(i: nat)
      requires Threaded() && i < POOL
      ensures pool[i].next == null && pool[i].prev == null <==> Alone(ready, i)
    {
      hide Next, Prev, Ok, Threaded, Alone;
      ThreadedLinks(i);
      Beside(ready, i);
      AloneIff(ready, i);
    }

    lemma ThreadedLinks(i: nat)
      requires Threaded() && i < POOL
      ensures Ok(ready) && PoolOk() && |ready.lines| == POOL
      ensures pool[i].next == Ref(Next(ready, i)) && pool[i].prev == Ref(Prev(ready, i))
    {
    }

    // schedule.  A tail pointer that is right stays right exactly when KeepsTail holds.
    method Schedule()
      requires Valid()
      modifies this`head, this`tail, this`ready, this`procs, this`current, this`cur
      modifies pool`next, pool`prev, pool`state
      ensures Valid() && State() == Tick(old(State()))
      ensures old(TailIsLast()) ==> (TailIsLast() <==> KeepsTail(old(State())))
      ensures old(OneQueue()) ==> (OneQueue() <==> KeepsTail(old(State())))
    {
      hide Ok, Queue, TailOk, Tidy, Tick, KeepsTail, Mirrors, Threaded;
      ghost var s := State();
      TailIsTailOk();
      OneQueueIsTidy();
      if TailIsLast() {
        TickKeepsTail(s);
      }
      if OneQueue() {
        TickKeepsQueue(s);
      }
      SwitchToNext();
      TailIsTailOk();
      OneQueueIsTidy();
    }

    method SwitchToNext()
      requires Valid()
      modifies this`head, this`tail, this`ready, this`procs, this`current, this`cur
      modifies pool`next, pool`prev, pool`state
      ensures Valid() && State() == Tick(old(State()))
    {
      hide Shape, Mirrors, Threaded, Ok, Preempt, Mark, Remove;
      ghost var s := State();
      Sizes(s);
      MirrorsPool();
      ThreadedEnds();
      HeadIsCreated(s);
      if head == null {
        if current != kernel {
          SetCurrent(kernel, ker);
        } else {
          SameRef(cur, ker);
        }
        assert State() == Tick(s);
        return;
      }
      var next := head;
      PreemptCurrent();
      if next == current {
        SameRef(s.ready.head, cur);
        assert State() == Tick(s);
        return;
      }
      Dispatch(next);
      assert State() == Tick(s);
    }

    // ---------------------------------------------------------------- processes

    // The copying loop of process_create_test.
    method CopyName(name: string) returns (copy: string)
      ensures copy == Clip(name)
    {
      copy := "";
      var i := 0;
      while i < NAME_MAX && i < |name|
        invariant 0 <= i <= NAME_MAX && i <= |name| && copy == name[..i]
      {
        copy := copy + [name[i]];
        i := i + 1;
      }
    }

    // A process without neighbours is unlinked once more.
    method ClearLinks(process: Pcb)
      requires Threaded() && InPool(process) && Alone(ready, process.id)
      modifies pool`next, pool`prev
      ensures Threaded()
    {
      hide Ok, Next, Prev;
      NoNeighbours(ready, process.id);
      process.next := null;
      process.prev := null;
    }

    // The fields that process_create_test sets.
    method InitProcess(process: Pcb, name: string, entry: nat, priority: Priority)
      requires Mirrors() && InPool(process)
      modifies this`procs, pool`pid, pool`parentPid, pool`state, pool`exitCode, pool`image
      ensures Mirrors()
      ensures var p := process.id;
              procs == old(procs)[p := Info(count + 1, 0, Ready, old(procs)[p].exit,
                                            Fresh(old(procs)[p].image, name, entry, priority,
                                                  stacks + STACK_SIZE * count))]
      ensures process.pid == count + 1
    {
      hide Mirrors, Clip;
      MirrorsPool();
      var copy := CopyName(name);
      var stack := stacks + STACK_SIZE * count;
      var image := process.image.(
        name := copy,
        priority := priority,
        cpu := process.image.cpu.(eip := entry, esp := stack + STACK_SIZE - 4, eflags := 0x202, cs := 0x08,
                                  ds := 0x10, es := 0x10, fs := 0x10, gs := 0x10, ss := 0x10),
        stackBase := stack, stackSize := STACK_SIZE, heapBase := 0, heapSize := 0);
      assert process.Contents() == procs[process.id];
      SetContents(process, Info(count + 1, 0, Ready, process.exitCode, image));
    }

    method Prepare(process: Pcb, name: string, entry: nat, priority: Priority)
      requires Mirrors() && Threaded() && InPool(process) && Alone(ready, process.id)
      modifies this`procs, pool`next, pool`prev
      modifies pool`pid, pool`parentPid, pool`state, pool`exitCode, pool`image
      ensures Mirrors() && Threaded()
      ensures var p := process.id;
              procs == old(procs)[p := Info(count + 1, 0, Ready, old(procs)[p].exit,
                                            Fresh(old(procs)[p].image, name, entry, priority,
                                                  stacks + STACK_SIZE * count))]
      ensures process.pid == count + 1
    {
      hide Mirrors, Threaded, Ok, Fresh;
      InitProcess(process, name, entry, priority);
      ClearLinks(process);
    }

    // Its last two assignments.
    method EnterTable(process: Pcb)
      requires Mirrors() && InPool(process) && process.pid < table.Length
      modifies this`count, this`slots, table
      ensures Mirrors() && slots == old(slots)[process.pid := Some(process.id)] && count == old(count) + 1
    {
      SetSlot(process.pid, process, Some(process.id));
      count := count + 1;
    }

    // process_create_test
    method CreateProcess(name: string, entry: nat, priority: Priority) returns (process: Pcb?)
      requires Valid()
      modifies this`count, this`procs, this`slots, table, pool`next, pool`prev
      modifies pool`pid, pool`parentPid, pool`state, pool`exitCode, pool`image
      ensures Valid() && State() == Create(old(State()), name, entry, priority).0
      ensures process == Ref(Create(old(State()), name, entry, priority).1) && InPool(process)
      ensures process == null <==> Create(old(State()), name, entry, priority).1 == None
      ensures process != null ==> process.id == old(count)
    {
      hide Shape, Mirrors, Threaded, Ok, Fresh;
      ghost var s := State();
      Sizes(s);
      MirrorsPool();
      if count >= POOL {
        return null;
      }
      process := pool[count];
      assert Free(ready, count);
      Prepare(process, name, entry, priority);
      EnterTable(process);
      assert State() == Create(s, name, entry, priority).0;
    }

    // enable_process_execution; idle is the address of process_idle_task.
    method EnableProcessExecution(idle: nat)
      requires Valid()
      modifies this`count, this`procs, this`slots, this`current, this`cur, this`kernel, this`ker, table
      modifies pool`next, pool`prev
      modifies pool`pid, pool`parentPid, pool`state, pool`exitCode, pool`image
      ensures Valid() && State() == Boot(old(State()), idle)
    {
      hide Shape, Mirrors, Threaded, Ok, Create;
      ghost var s := State();
      Sizes(s);
      MirrorsPool();
      if kernel == null {
        var process := CreateProcess("kernel_idle", idle, Low);
        if process != null {
          StartKernel(process);
        }
      }
      assert State() == Boot(s, idle);
    }

    method StartKernel(process: Pcb)
      requires Mirrors() && Threaded() && InPool(process)
      modifies this`procs, pool`state, this`current, this`cur, this`kernel, this`ker
      ensures Mirrors() && Threaded()
      ensures State() == Mark(old(State()), process.id, Running).(
                current := Some(process.id), kernel := Some(process.id))
    {
      hide Mirrors, Threaded, Ok;
      MirrorsPool();
      SetState(process, Running);
      SetKernel(process, Some(process.id));
      SetCurrent(process, Some(process.id));
    }

    // process_create_copy
    method CreateCopy(parent: Pcb) returns (child: Pcb?)
      requires Valid() && InPool(parent)
      modifies this`count, this`procs, this`slots, table, pool`next, pool`prev
      modifies pool`pid, pool`parentPid, pool`state, pool`exitCode, pool`image
      ensures Valid() && State() == Copy(old(State()), parent.id).0
      ensures child == Ref(Copy(old(State()), parent.id).1) && InPool(child)
      ensures child == null <==> Copy(old(State()), parent.id).1 == None
      ensures child != null ==> child.id == old(count)
    {
      hide Shape, Mirrors, Threaded, Ok, Create;
      ghost var s := State();
      Sizes(s);
      MirrorsPool();
      var from := parent.image;
      child := CreateProcess(from.name, from.cpu.eip, from.priority);
      if child != null {
        MirrorsPool();
        var image := child.image.(cpu := parent.image.cpu.(eax := 0), memoryUsed := parent.image.memoryUsed);
        SetContents(child, child.Contents().(image := image));
      }
      assert State() == Copy(s, parent.id).0;
    }

    // sys_fork
    method Fork() returns (pid: nat)
      requires Valid()
      modifies this`count, this`procs, this`slots, table
      modifies pool`pid, pool`parentPid, pool`state, pool`exitCode, pool`image
      modifies this`head, this`tail, this`ready, pool`next, pool`prev
      ensures Valid() && State() == Processes.Fork(old(State())).0 && pid == Processes.Fork(old(State())).1
    {
      hide Shape, Mirrors, Threaded, Ok, Copy, Free;
      ghost var s := State();
      Sizes(s);
      MirrorsPool();
      if current == null {
        return FAILED;
      }
      var child := CreateCopy(current);
      if child == null {
        return FAILED;
      }
      CopyIsReady(s);
      Adopt(child, current);
      MirrorsPool();
      pid := child.pid;
      assert State() == Processes.Fork(s).0;
    }

    lemma CopyIsReady(s: Sys)
      requires Shape(s) && s.current.Some? && s.count < POOL
      ensures var m := Copy(s, s.current.value).0;
              && |m.procs| == POOL && m.procs[s.count].status == Ready && m.procs[s.count].pid == s.count + 1
              && Free(s.ready, s.count)
    {
    }

    // The child of sys_fork gets its parent and a place at the tail.
    method Adopt(child: Pcb, parent: Pcb)
      requires Mirrors() && Threaded() && InPool(child) && InPool(parent)
      requires Free(ready, child.id) && procs[child.id].status == Ready
      modifies this`procs, pool`pid, pool`parentPid, pool`state, pool`exitCode, pool`image
      modifies this`head, this`tail, this`ready, pool`next, pool`prev
      ensures Mirrors() && Threaded() && Ok(old(ready))
      ensures State() == old(State()).(
                procs := old(procs)[child.id := old(procs)[child.id].(parent := old(procs)[parent.id].pid)],
                ready := Attach(old(ready), child.id))
    {
      hide Mirrors, Threaded, Ok, Attach, Free;
      MirrorsPool();
      ThreadedEnds();
      SetContents(child, child.Contents().(parent := parent.pid));
      AddToReadyQueue(child);
    }

    // sys_exit; its test for READY comes after the process has become TERMINATED, so that it
    // stays linked.
    method Exit(code: int)
      requires Valid()
      modifies this`head, this`tail, this`ready, this`procs, this`current, this`cur
      modifies pool`next, pool`prev, pool`pid, pool`parentPid, pool`state, pool`exitCode, pool`image
      ensures Valid() && State() == Processes.Exit(old(State()), code)
    {
      hide Shape, Mirrors, Threaded, Ok, Tick;
      ghost var s := State();
      Sizes(s);
      MirrorsPool();
      if current != null {
        SetContents(current, current.Contents().(status := Terminated, exit := code));
        SetCurrent(null, None);
        assert State() == Leave(s, code);
        Schedule();
      }
      assert State() == Processes.Exit(s, code);
    }

    // process_exit
    method ProcessExit()
      requires Valid()
      modifies this`procs, pool`state
      ensures Valid() && State() == Processes.ProcessExit(old(State()))
    {
      hide Shape, Mirrors, Threaded, Ok;
      ghost var s := State();
      Sizes(s);
      MirrorsPool();
      if current != null && current != kernel {
        SetState(current, Terminated);
      } else if current != null {
        SameRef(cur, ker);
      }
      assert State() == Processes.ProcessExit(s);
    }

    // process_find_by_pid
    method FindByPid(pid: nat) returns (process: Pcb?)
      requires Valid()
      ensures process == Ref(Find(State(), pid)) && InPool(process)
      ensures process == null <==> Find(State(), pid) == None
    {
      hide Shape, Mirrors, Threaded, Ok;
      Sizes(State());
      MirrorsPool();
      if pid >= MAX_PROCESSES {
        return null;
      }
      process := table[pid];
    }

    // sys_getpid
    method GetPid() returns (pid: nat)
      requires Valid()
      ensures pid == if State().current == None then 0 else State().procs[State().current.value].pid
    {
      hide Shape, Mirrors, Threaded, Ok;
      Sizes(State());
      MirrorsPool();
      pid := if current == null then 0 else current.pid;
    }

    // sys_kill
    method Kill(pid: nat, signal: int) returns (r: int)
      requires Valid()
      modifies this`procs, pool`pid, pool`parentPid, pool`state, pool`exitCode, pool`image
      ensures Valid() && State() == Processes.Kill(old(State()), pid, signal).0
      ensures r == Processes.Kill(old(State()), pid, signal).1
    {
      hide Shape, Mirrors, Threaded, Ok;
      ghost var s := State();
      Sizes(s);
      MirrorsPool();
      if pid == 1 {
        return -1;
      }
      var target := FindByPid(pid);
      if target == null {
        return -1;
      }
      if target == kernel {
        SameRef(Find(s, pid), ker);
        return -1;
      }
      if signal == 9 {
        SetContents(target, target.Contents().(status := Terminated, exit := -1));
      }
      r := 0;
      assert State() == Processes.Kill(s, pid, signal).0;
    }

    // process_kill_by_pid gives up the memory and terminates the process.
    method Release(process: Pcb)
      requires Mirrors() && InPool(process)
      modifies this`procs, pool`pid, pool`parentPid, pool`state, pool`exitCode, pool`image
      ensures Mirrors()
      ensures var info := old(procs)[process.id];
              procs == old(procs)[process.id := info.(status := Terminated, image := Released(info.image))]
    {
      hide Mirrors;
      MirrorsPool();
      var image := process.image;
      if image.stackBase != 0 {
        image := image.(stackBase := 0, stackSize := 0);
      }
      if image.heapBase != 0 {
        image := image.(heapBase := 0, heapSize := 0);
      }
      assert process.Contents() == procs[process.id];
      SetContents(process, process.Contents().(status := Terminated, image := image));
    }

    // process_kill_by_pid; its test of current_process against kernel_process repeats the
    // one before.
    method Pkill(pid: nat) returns (r: int)
      requires Valid()
      modifies this`procs, this`slots, table
      modifies pool`pid, pool`parentPid, pool`state, pool`exitCode, pool`image
      ensures Valid() && State() == Processes.Pkill(old(State()), pid).0
      ensures r == Processes.Pkill(old(State()), pid).1
    {
      hide Shape, Mirrors, Threaded, Ok, Released;
      ghost var s := State();
      Sizes(s);
      MirrorsPool();
      if pid == 1 {
        return PROTECTED;
      }
      var process := FindByPid(pid);
      if process == null {
        return NOT_FOUND;
      }
      if process == kernel {
        SameRef(Find(s, pid), ker);
        return PROTECTED;
      }
      Release(process);
      SetSlot(pid, null, None);
      r := SUCCESS;
      assert State() == Processes.Pkill(s, pid).0;
    }

    // process_set_status
    method SetStatus(pid: nat, status: Status) returns (r: int)
      requires Valid()
      modifies this`procs, pool`state
      ensures Valid() && State() == Processes.SetStatus(old(State()), pid, status).0
      ensures r == Processes.SetStatus(old(State()), pid, status).1
    {
      hide Shape, Mirrors, Threaded, Ok;
      ghost var s := State();
      Sizes(s);
      MirrorsPool();
      var process := FindByPid(pid);
      if process == null {
        return 0;
      }
      if status != Ready && status != Blocked && status != Terminated {
        return 0;
      }
      SetState(process, status);
      r := 1;
      assert State() == Processes.SetStatus(s, pid, status).0;
    }

    // change_current_process
    method ChangeCurrentProcess(pid: nat)
      requires Valid()
      modifies this`procs, this`current, this`cur, pool`state
      ensures Valid() && State() == Switch(old(State()), pid)
    {
      hide Shape, Mirrors, Threaded, Ok;
      ghost var s := State();
      Sizes(s);
      MirrorsPool();
      if pid == 1 {
        return;
      }
      var process := FindByPid(pid);
      if process == null {
        return;
      }
      SetCurrent(process, Some(process.id));
      SetState(process, Running);
      assert State() == Switch(s, pid);
    }

    method ClearSlot(pid: nat)
      requires Mirrors() && table.Length == MAX_PROCESSES
      modifies this`slots, table
      ensures Mirrors()
      ensures slots == if pid < MAX_PROCESSES then old(slots)[pid := None] else old(slots)
    {
      if pid < MAX_PROCESSES {
        SetSlot(pid, null, None);
      }
    }

    // The memset of process_cleanup.
    method Wipe(process: Pcb)
      requires Mirrors() && Threaded() && InPool(process) && Alone(ready, process.id)
      modifies this`procs, pool`next, pool`prev
      modifies pool`pid, pool`parentPid, pool`state, pool`exitCode, pool`image
      ensures Mirrors() && Threaded() && procs == old(procs)[process.id := CLEARED]
    {
      hide Mirrors, Threaded, Ok;
      SetContents(process, CLEARED);
      ClearLinks(process);
    }

    // process_cleanup
    method CleanupProcess(process: Pcb)
      requires Valid() && InPool(process)
      modifies this`head, this`tail, this`ready, this`procs, this`slots, table
      modifies pool`next, pool`prev, pool`pid, pool`parentPid, pool`state, pool`exitCode, pool`image
      ensures Valid() && State() == Cleanup(old(State()), process.id)
    {
      hide Shape, Mirrors, Threaded, Ok, Detach;
      ghost var s := State();
      Sizes(s);
      MirrorsPool();
      DetachOk(s.ready, process.id);
      ClearSlot(process.pid);
      RemoveFromReadyQueue(process);
      Wipe(process);
      assert State() == Cleanup(s, process.id);
    }

    // The scan of sys_wait for a terminated child.
    method FindChild() returns (process: Pcb?)
      requires Valid() && State().current.Some?
      ensures var slot := FirstReapable(State());
              process == if slot == None then null else Ref(State().table[slot.value])
      ensures InPool(process) && (process == null <==> FirstReapable(State()) == None)
    {
      hide Shape, Threaded, Ok;
      ghost var s := State();
      Sizes(s);
      process := null;
      for i := 0 to MAX_PROCESSES
        invariant Reapables(s, 0) == Reapables(s, i)
      {
        if table[i] != null && table[i].parentPid == current.pid && table[i].state == Terminated {
          FindsAt(s, i);
          process := table[i];
          return;
        }
      }
    }

    lemma FindsAt(s: Sys, i: nat)
      requires Shape(s) && s.current.Some? && i < MAX_PROCESSES
      requires Reapables(s, 0) == Reapables(s, i) && Reapable(s, i)
      ensures FirstReapable(s) == Some(i)
    {
    }

    // sys_wait, called with somewhere to put the exit code.
    method Wait() returns (pid: nat, status: Option<int>)
      requires Valid()
      modifies this`head, this`tail, this`ready, this`procs, this`slots, table
      modifies pool`next, pool`prev, pool`pid, pool`parentPid, pool`state, pool`exitCode, pool`image
      ensures Valid() && State() == Processes.Wait(old(State())).0
      ensures pid == Processes.Wait(old(State())).1 && status == Processes.Wait(old(State())).2
    {
      hide Shape, Mirrors, Threaded, Ok, FirstReapable, Cleanup;
      Sizes(State());
      MirrorsPool();
      if current == null {
        return FAILED, None;
      }
      var process := FindChild();
      if process == null {
        return 0, None;
      }
      pid, status := process.pid, Some(process.exitCode);
      CleanupProcess(process);
    }

    // ---------------------------------------------------------------- runs

    // Any one operation.
    method Do(op: Op)
      requires Valid()
      modifies this, table, pool
      ensures Valid() && State() == Step(old(State()), op)
    {
      hide Shape, Mirrors, Threaded, Ok;
      match op {
        case DoSpawn(name, entry, priority) => var _ := CreateProcess(name, entry, priority);
        case DoFork => var _ := Fork();
        case DoExit(code) => Exit(code);
        case DoProcessExit => ProcessExit();
        case DoKill(pid, signal) => var _ := Kill(pid, signal);
        case DoPkill(pid) => var _ := Pkill(pid);
        case DoSetStatus(pid, status) => var _ := SetStatus(pid, status);
        case DoSwitch(pid) => ChangeCurrentProcess(pid);
        case DoWait => var _, _ := Wait();
        case DoTick => Schedule();
      }
    }

    // Along every run the links represent the lines of the machine of module Processes, and
    // the state is that of the machine.
    method DoAll(ops: seq<Op>)
      requires Valid()
      modifies this, table, pool
      ensures Valid() && State() == Run(old(State()), ops)
      ensures old(OneQueue()) && KeepsThroughout(old(State()), ops) ==> OneQueue()
    {
      hide Shape, Mirrors, Threaded, Ok, Step, Tidy;
      OneQueueIsTidy();
      if OneQueue() {
        RunKeepsQueue(State(), ops);
      }
      for i := 0 to |ops|
        invariant Valid() && Run(State(), ops[i..]) == Run(old(State()), ops)
      {
        assert ops[i..][1..] == ops[i + 1..];
        Do(ops[i]);
      }
      OneQueueIsTidy();
    }

    // ---------------------------------------------------------------- pids

    // process_allocate_pid
    method AllocatePid() returns (pid: nat)
      requires Valid() && 1 <= nextPid <= MAX_PROCESSES
      modifies this`nextPid
      ensures Valid() && State() == old(State()) && 1 <= nextPid <= MAX_PROCESSES
      ensures (pid, nextPid) == NextPid(slots, old(nextPid))
    {
      hide Shape, Threaded, Mirrors, Ok, FirstFree;
      Sizes(State());
      MirrorsPool();
      SlotsAreTable();
      if nextPid < MAX_PROCESSES && table[nextPid] == null {
        pid := nextPid;
        nextPid := nextPid + 1;
      } else {
        pid := FirstFreePid();
        if pid != 0 {
          nextPid := pid + 1;
        }
      }
    }

    // Its scan over the whole table.
    method FirstFreePid() returns (pid: nat)
      requires Valid()
      ensures pid == FirstFree(slots, 1)
    {
      hide Shape, Threaded, Mirrors, Ok;
      Sizes(State());
      MirrorsPool();
      SlotsAreTable();
      for i := 1 to MAX_PROCESSES
        invariant FirstFree(slots, 1) == FirstFree(slots, i)
      {
        if table[i] == null {
          return i;
        }
      }
      return 0;
    }

    lemma SlotsAreTable()
      requires Mirrors() && Shape(State())
      ensures forall i | 0 <= i < MAX_PROCESSES :: (table[i] == null) == (slots[i] == None)
    {
    }
  }
}
