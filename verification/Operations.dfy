/** What each process operation does to the PCBs, the table and the links, and what it
    returns, for every state: its effect, and that nothing else changes. */
module Operations {
  import opened Basics
  import opened Links
  import opened Processes
  import opened Tables
  import opened Scheduling

  // The process that holds the slot of pid.
  function Slot(s: Sys, pid: nat): Option<nat>
    requires |s.table| == 256
  {
    if pid < 256 then s.table[pid] else None
  }

  // Nothing but the PCB of p is different.
  predicate OnlyPcb(s: Sys, r: Sys, p: nat) {
    && r == s.(procs := r.procs) && |r.procs| == |s.procs|
    && forall q | 0 <= q < |s.procs| && q != p :: r.procs[q] == s.procs[q]
  }

  // ---------------------------------------------------------------- schedule

  // A current process that is not RUNNING and heads the queue keeps both places.
  lemma HeadStaysCurrent(s: Sys)
    requires Shape(s) && s.current.Some? && s.current == s.ready.head
    requires s.procs[s.current.value].status != Running
    ensures Tick(s) == s
  {
  }

  // With nobody queued the kernel process becomes current, whatever its status.
  lemma NobodyQueued(s: Sys)
    requires Shape(s) && s.Queue() == []
    ensures Tick(s) == s.(current := s.kernel)
  {
    hide Ok, Queue;
    HeadOfQueue(s);
  }

  // Otherwise the head becomes current and leaves the queue, unless it was current already; a
  // RUNNING current process that is not the tail has been moved behind the tail before.
  lemma TickLinks(s: Sys, n: nat)
    requires Shape(s) && s.ready.head == Some(n)
    ensures n < s.count
    ensures s.current.Some? ==>
              var d := Detach(s.ready, s.current.value);
              Ok(d) && Free(d, s.current.value)
    ensures var r, l := Tick(s), s.ready;
            var moves := IsRunning(s) && s.current != l.tail;
            var m := if moves then Attach(Detach(l, s.current.value), s.current.value) else l;
            && SameTable(s, r) && r.current == Some(n)
            && r.ready == if s.current == Some(n) then m else Detach(m, n)
  {
    hide Ok, Free, Detach, Attach, Preempt;
    HeadIsCreated(s);
    if s.current.Some? {
      DetachOk(s.ready, s.current.value);
    }
    if IsRunning(s) {
      PreemptIs(s);
    } else {
      NoPreemption(s);
    }
    if s.current == Some(n) {
      TurnTick(s);
    } else {
      TickReady(s);
    }
  }

  lemma NoPreemption(s: Sys)
    requires Shape(s) && !IsRunning(s)
    ensures Preempt(s) == s
  {
  }

  // ---------------------------------------------------------------- creation

  // A process as process_create_test leaves it; registers and numbers that it does not set
  // are those of the PCB before.
  predicate IsCreated(s: Sys, c: Info, name: string, entry: nat, priority: Priority)
    requires |s.procs| == 10 && s.count < 10
  {
    var before := s.procs[s.count];
    var top := s.stacks + 4096 * (s.count + 1);
    && c.pid == s.count + 1 && c.parent == 0 && c.exit == before.exit
    && c.image.name == (if |name| > 63 then name[..63] else name) && c.image.priority == priority
    && c.image.cpu == Cpu(
         before.image.cpu.eax, before.image.cpu.ebx, before.image.cpu.ecx, before.image.cpu.edx,
         before.image.cpu.esi, before.image.cpu.edi, top - 4, before.image.cpu.ebp,
         entry, 0x202, 0x08, 0x10, 0x10, 0x10, 0x10, 0x10)
    && c.image.stackBase == top - 4096 && c.image.stackSize == 4096
    && c.image.heapBase == 0 && c.image.heapSize == 0 && c.image.memoryUsed == before.image.memoryUsed
  }

  // Nothing but the next PCB and its slot is taken.
  predicate TakesNext(s: Sys, r: Sys)
    requires |s.table| == 256 && s.count < 10
  {
    && OnlyPcb(s.(count := r.count, table := r.table), r, s.count)
    && r.count == s.count + 1 && r.table == s.table[s.count + 1 := Some(s.count)]
  }

  lemma SpawnCreates(s: Sys, name: string, entry: nat, priority: Priority)
    requires Shape(s)
    ensures var (r, p) := Create(s, name, entry, priority);
            if s.count >= 10 then r == s && p == None
            else
              && p == Some(s.count) && TakesNext(s, r)
              && IsCreated(s, r.procs[s.count], name, entry, priority)
              && r.procs[s.count].status == Ready
  {
  }

  // The kernel process is created once, and current and RUNNING without having been queued.
  lemma BootCreates(s: Sys, idle: nat)
    requires Shape(s)
    ensures var r := Boot(s, idle);
            if s.kernel.Some? || s.count >= 10 then r == s
            else
              && r.current == Some(s.count) && r.kernel == Some(s.count)
              && TakesNext(s, r.(current := s.current, kernel := s.kernel))
              && IsCreated(s, r.procs[s.count], "kernel_idle", idle, Low)
              && r.procs[s.count].status == Running
  {
  }

  // ---------------------------------------------------------------- termination

  // sys_exit stores the code, terminates the process and makes the head current and RUNNING,
  // even if that is the process itself, which has not left the queue.
  lemma ExitStores(s: Sys, code: int, p: nat)
    requires Shape(s) && p < 10
    ensures var r, before := Exit(s, code), s.procs[p];
            if s.current == None then r == s
            else
              && r.procs[p].exit == (if s.current == Some(p) then code else before.exit)
              && r.procs[p].status == (if s.ready.head == Some(p) then Running
                                       else if s.current == Some(p) then Terminated else before.status)
              && r.procs[p].pid == before.pid && r.procs[p].parent == before.parent
              && r.procs[p].image == before.image
              && r.current == (if s.ready.head == None then s.kernel else s.ready.head)
  {
    hide Ok, Tick, Free;
    if s.current.Some? {
      TickProcs(Leave(s, code), p);
      TickCurrent(Leave(s, code));
    }
  }

  lemma TickCurrent(s: Sys)
    requires Shape(s)
    ensures Tick(s).current == if s.ready.head == None then s.kernel else s.ready.head
  {
    hide Ok, Free, Detach, Preempt;
    if s.ready.head.Some? && s.current == s.ready.head {
      TurnTick(s);
    }
  }

  // process_exit only marks the process, and never the kernel's.
  lemma ProcessExitMarks(s: Sys)
    requires Shape(s)
    ensures var r := ProcessExit(s);
            if s.current == None || s.current == s.kernel then r == s
            else
              var p := s.current.value;
              OnlyPcb(s, r, p) && r.procs[p] == s.procs[p].(status := Terminated)
  {
  }

  // sys_kill refuses PID 1, an empty slot and the kernel process; of the signals only 9 has an
  // effect.
  lemma KillTerminates(s: Sys, pid: nat, signal: int)
    requires Shape(s)
    ensures var (r, code) := Kill(s, pid, signal);
            if pid == 1 || Slot(s, pid) == None || Slot(s, pid) == s.kernel then r == s && code == -1
            else if signal != 9 then r == s && code == 0
            else
              var p := Slot(s, pid).value;
              code == 0 && OnlyPcb(s, r, p) && r.procs[p] == s.procs[p].(status := Terminated, exit := -1)
  {
  }

  // process_kill_by_pid also clears the slot and gives up stack and heap, and has its own codes.
  lemma PkillTerminates(s: Sys, pid: nat)
    requires Shape(s)
    ensures var (r, code) := Pkill(s, pid);
            if pid == 1 then r == s && code == -1
            else if Slot(s, pid) == None then r == s && code == 0
            else if Slot(s, pid) == s.kernel then r == s && code == -1
            else
              var p := Slot(s, pid).value;
              var i, j := s.procs[p].image, r.procs[p].image;
              && code == 1 && r.table == s.table[pid := None] && OnlyPcb(s.(table := r.table), r, p)
              && r.procs[p] == s.procs[p].(status := Terminated, image := j)
              && j.stackBase == 0 && j.stackSize == (if i.stackBase == 0 then i.stackSize else 0)
              && j.heapBase == 0 && j.heapSize == (if i.heapBase == 0 then i.heapSize else 0)
              && j.name == i.name && j.priority == i.priority && j.cpu == i.cpu && j.memoryUsed == i.memoryUsed
  {
  }

  // ---------------------------------------------------------------- status and switching

  // process_set_status sets READY, BLOCKED and TERMINATED, and touches no link.
  lemma StatusIsSet(s: Sys, pid: nat, status: Status)
    requires Shape(s)
    ensures var (r, code) := SetStatus(s, pid, status);
            if Slot(s, pid) == None || status == Running then r == s && code == 0
            else
              var p := Slot(s, pid).value;
              code == 1 && OnlyPcb(s, r, p) && r.procs[p] == s.procs[p].(status := status)
  {
  }

  // change_current_process leaves the links alone, and the process before it as it is.
  lemma SwitchRuns(s: Sys, pid: nat)
    requires Shape(s)
    ensures var r := Switch(s, pid);
            if pid == 1 || Slot(s, pid) == None then r == s
            else
              var p := Slot(s, pid).value;
              && r.current == Some(p) && OnlyPcb(s.(current := Some(p)), r, p)
              && r.procs[p] == s.procs[p].(status := Running)
  {
  }

  // ---------------------------------------------------------------- waiting

  // process_cleanup zeroes the PCB, clears the slot of its pid and unlinks it.
  lemma CleanupClears(s: Sys, p: nat)
    requires Shape(s) && p < 10
    ensures var r, pid := Cleanup(s, p), s.procs[p].pid;
            && OnlyPcb(s.(table := r.table, ready := r.ready), r, p)
            && r.procs[p] == Info(0, 0, Ready, 0, Image(
                 "", High, Cpu(0, 0, 0, 0, 0, 0, 0, 0, 0, 0, 0, 0, 0, 0, 0, 0), 0, 0, 0, 0, 0))
            && r.table == (if pid < 256 then s.table[pid := None] else s.table)
            && r.ready == Detach(s.ready, p)
  {
    hide Ok, Free, Detach;
  }

  // sys_wait without a current process.
  lemma WaitFails(s: Sys)
    requires Shape(s) && s.current == None
    ensures Wait(s) == (s, 0xFFFF_FFFF, None)
  {
  }

  // What counts as a child to reap.
  lemma ReapableIs(s: Sys, i: nat)
    requires Shape(s) && s.current.Some? && i < 256
    ensures Reapable(s, i)
            <==> s.table[i].Some? && s.procs[s.table[i].value].status == Terminated
                 && s.procs[s.table[i].value].parent == s.procs[s.current.value].pid
  {
  }

  // ---------------------------------------------------------------- pids

  // The pid after the last one if that is free, and otherwise the least free one from 1 on.
  lemma NextPidIs(slots: seq<Option<nat>>, next: nat)
    requires |slots| == 256 && 1 <= next <= 256
    ensures var (pid, after) := NextPid(slots, next);
            if next < 256 && slots[next] == None then pid == next && after == next + 1
            else if forall i | 1 <= i < 256 :: slots[i] != None then pid == 0 && after == next
            else
              && 1 <= pid < 256 && slots[pid] == None && after == pid + 1
              && forall i | 1 <= i < pid :: slots[i] != None
  {
    FirstFreeIsLeast(slots, 1);
  }

  lemma {:induction false} FirstFreeIsLeast(slots: seq<Option<nat>>, from: nat)
    requires |slots| == 256 && from > 0
    ensures var pid := FirstFree(slots, from);
            if pid == 0 then forall i | from <= i < 256 :: slots[i] != None
            else from <= pid < 256 && slots[pid] == None && forall i | from <= i < pid :: slots[i] != None
    decreases 256 - from
  {
    if from >= 256 || slots[from] == None {
    } else {
      FirstFreeIsLeast(slots, from + 1);
    }
  }
}
