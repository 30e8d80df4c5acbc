/** What the process table and the allocation of pids promise over whole runs. */
module Tables {
  import opened Basics
  import opened Links
  import opened Processes

  // ---------------------------------------------------------------- the table

  // A PCB that is in use still has the pid it was created with, and an older parent; its
  // name is terminated, and its stack is its own unless that has been released.
  predicate Named(s: Sys, p: nat)
    requires Shape(s)
  {
    && p < s.count && s.procs[p].pid == p + 1 && s.procs[p].parent <= p
    && |s.procs[p].image.name| <= NAME_MAX
    && (s.procs[p].image.stackBase == s.stacks + STACK_SIZE * p || s.procs[p].image.stackBase == 0)
  }

  // Every occupied slot holds the process with that pid, everything linked or current is in
  // use, and slot 1 holds the kernel process.
  predicate TableOk(s: Sys)
    requires Shape(s)
  {
    && (forall i | 0 <= i < MAX_PROCESSES && s.table[i].Some? :: s.table[i].value + 1 == i && Named(s, i - 1))
    && (forall p: nat | p < POOL && !Free(s.ready, p) :: Named(s, p))
    && (s.current.Some? ==> Named(s, s.current.value))
    && s.kernel == Some(0) && s.table[1] == Some(0) && s.procs[0].parent == 0
  }

  lemma BootIsOk(stacks: nat, idle: nat)
    ensures TableOk(Boot(Empty(stacks), idle))
  {
  }

  // Statuses, exit codes and registers aside, every PCB but p is the same, or has given up
  // its stack.
  predicate SameNames(s: Sys, r: Sys, except: Option<nat>)
    requires Shape(s) && Shape(r)
  {
    forall p: nat | p < POOL && Some(p) != except ::
      && r.procs[p].pid == s.procs[p].pid && r.procs[p].parent == s.procs[p].parent
      && r.procs[p].image.name == s.procs[p].image.name
      && (r.procs[p].image.stackBase == s.procs[p].image.stackBase || r.procs[p].image.stackBase == 0)
  }

  // Slots may be cleared, but not the kernel's.
  predicate Shrinks(s: Sys, r: Sys)
    requires Shape(s) && Shape(r)
  {
    && r.count == s.count && r.kernel == s.kernel && r.table[1] == s.table[1] && r.stacks == s.stacks
    && forall i | 0 <= i < MAX_PROCESSES :: r.table[i] == None || r.table[i] == s.table[i]
  }

  // r no longer refers to p.
  predicate Forgets(r: Sys, p: Option<nat>)
    requires Shape(r)
  {
    && p != Some(0) && (r.current != None ==> r.current != p)
    && (p.Some? ==> Free(r.ready, p.value))
    && forall i | 0 <= i < MAX_PROCESSES && r.table[i].Some? :: r.table[i] != p
  }

  // Only the current process may have become linked.
  predicate LinksNobody(s: Sys, r: Sys)
    requires Shape(s) && Shape(r)
  {
    forall p: nat | p < POOL && Free(s.ready, p) && s.current != Some(p) :: Free(r.ready, p)
  }

  lemma ShrinkingKeepsTable(s: Sys, r: Sys, except: Option<nat>)
    requires Shape(s) && Shape(r) && TableOk(s) && Shrinks(s, r)
    requires SameNames(s, r, except) && Forgets(r, except) && LinksNobody(s, r)
    requires r.current.Some? ==> Named(s, r.current.value)
    ensures TableOk(r)
  {
    hide Shape, Free;
    Sizes(s);
    Sizes(r);
  }

  lemma TableFacts(s: Sys)
    requires Shape(s) && TableOk(s)
    ensures |s.procs| == POOL && |s.table| == MAX_PROCESSES && |s.ready.lines| == POOL
    ensures s.current.Some? ==> s.current.value < POOL && Named(s, s.current.value)
    ensures forall i | 0 <= i < MAX_PROCESSES && s.table[i].Some? ::
              s.table[i].value < POOL && s.table[i].value + 1 == i && Named(s, i - 1)
    ensures s.kernel == Some(0) && s.table[1] == Some(0) && s.procs[0].parent == 0
    ensures s.ready.head.Some? ==> s.ready.head.value < POOL && Named(s, s.ready.head.value)
  {
    if s.ready.head.Some? {
      assert !Free(s.ready, s.ready.head.value);
    }
  }

  lemma RemoveLinksNobody(s: Sys, p: nat)
    requires Shape(s) && p < POOL
    ensures LinksNobody(s, Remove(s, p))
  {
    hide Ok, Free, Detach;
    forall i: nat | i < POOL && Free(s.ready, i)
      ensures Free(Remove(s, p).ready, i)
    {
      DetachLeavesFree(s.ready, p, i);
    }
  }

  lemma AddLinksNobody(s: Sys, p: nat)
    requires Shape(s) && p < s.count && Free(s.ready, p)
    ensures forall i: nat | i < POOL && Free(s.ready, i) && i != p :: Free(Add(s, p).ready, i)
  {
    hide Ok, Free, Attach;
    forall i: nat | i < POOL && Free(s.ready, i) && i != p
      ensures Free(Add(s, p).ready, i)
    {
      AttachLeavesFree(s.ready, p, i);
    }
  }

  lemma PreemptNames(s: Sys)
    requires Shape(s)
    ensures SameNames(s, Preempt(s), None) && LinksNobody(s, Preempt(s))
  {
    hide Ok, Free, Detach, Attach;
    if IsRunning(s) && s.ready.tail != s.current {
      var c := s.current.value;
      var m := Mark(s, c, Ready);
      DetachOk(s.ready, c);
      RemoveLinksNobody(m, c);
      AddLinksNobody(Remove(m, c), c);
    }
  }

  lemma TickKeepsTable(s: Sys)
    requires Shape(s) && TableOk(s)
    ensures TableOk(Tick(s))
  {
    hide TableOk, Named, Shape, Preempt, Free;
    TableFacts(s);
    Sizes(s);
    PreemptNames(s);
    Sizes(Preempt(s));
    if s.ready.head.Some? {
      RemoveLinksNobody(Preempt(s), s.ready.head.value);
    }
    ShrinkingKeepsTable(s, Tick(s), None);
  }

  lemma StatusKeepsTable(s: Sys, r: Sys)
    requires Shape(s) && TableOk(s) && Shape(r) && SameTable(s, r) && SameNames(s, r, None)
    requires r.ready == s.ready
    requires r.current.Some? ==> Named(s, r.current.value)
    ensures TableOk(r)
  {
    hide TableOk, Named;
    ShrinkingKeepsTable(s, r, None);
  }

  lemma ExitKeepsTable(s: Sys, code: int)
    requires Shape(s) && TableOk(s)
    ensures TableOk(Exit(s, code))
  {
    hide TableOk, Named, Tick;
    TableFacts(s);
    if s.current.Some? {
      StatusKeepsTable(s, Leave(s, code));
      TickKeepsTable(Leave(s, code));
    }
  }

  lemma StatusOpsKeepTable(s: Sys, op: Op)
    requires Shape(s) && TableOk(s)
    requires op.DoProcessExit? || op.DoKill? || op.DoSetStatus? || op.DoSwitch?
    ensures TableOk(Step(s, op))
  {
    hide TableOk, Named;
    TableFacts(s);
    StatusKeepsTable(s, Step(s, op));
  }

  lemma PkillKeepsTable(s: Sys, pid: nat)
    requires Shape(s) && TableOk(s)
    ensures TableOk(Pkill(s, pid).0)
  {
    hide TableOk, Named;
    TableFacts(s);
    ShrinkingKeepsTable(s, Pkill(s, pid).0, None);
  }

  lemma CreateKeepsTable(s: Sys, name: string, entry: nat, priority: Priority)
    requires Shape(s) && TableOk(s)
    ensures TableOk(Create(s, name, entry, priority).0)
    ensures s.count < POOL ==> Named(Create(s, name, entry, priority).0, s.count)
  {
    hide Ok, Free;
  }

  lemma CopyKeepsTable(s: Sys, p: nat)
    requires Shape(s) && TableOk(s) && p < s.count
    ensures TableOk(Copy(s, p).0)
    ensures s.count < POOL ==> Named(Copy(s, p).0, s.count)
  {
    hide Ok, Free;
    var parent := s.procs[p].image;
    CreateKeepsTable(s, parent.name, parent.cpu.eip, parent.priority);
  }

  // What sys_fork makes of the copy.
  lemma ForkIs(s: Sys)
    requires Shape(s) && s.current.Some? && s.count < POOL
    ensures var m, c := Copy(s, s.current.value).0, s.count;
            && |m.procs| == POOL && Free(m.ready, c) && m.ready == s.ready && m.current == s.current
            && var child := m.procs[c].(parent := m.procs[s.current.value].pid);
            && Shape(m.(procs := m.procs[c := child]))
            && Fork(s) == (Add(m.(procs := m.procs[c := child]), c), child.pid)
  {
    hide Copy;
  }

  lemma AddKeepsTable(s: Sys, p: nat)
    requires Shape(s) && TableOk(s) && p < s.count && Free(s.ready, p) && Named(s, p)
    ensures TableOk(Add(s, p))
  {
    hide Ok, Free, Attach;
    AddLinksNobody(s, p);
  }

  lemma ParentKeepsTable(s: Sys, p: nat, parent: nat)
    requires Shape(s) && TableOk(s) && 0 < p < s.count && Named(s, p) && parent <= p
    ensures var r := s.(procs := s.procs[p := s.procs[p].(parent := parent)]);
            Shape(r) && TableOk(r) && Named(r, p)
  {
    hide Ok, Free;
  }

  lemma ForkKeepsTable(s: Sys)
    requires Shape(s) && TableOk(s)
    ensures TableOk(Fork(s).0)
  {
    hide Ok, Free, Attach, Copy, TableOk, Add;
    if s.current.Some? && s.count < POOL {
      var m, c := Copy(s, s.current.value).0, s.count;
      CopyKeepsTable(s, s.current.value);
      ForkIs(s);
      TableFacts(m);
      ParentKeepsTable(m, c, m.procs[s.current.value].pid);
      AddKeepsTable(m.(procs := m.procs[c := m.procs[c].(parent := m.procs[s.current.value].pid)]), c);
    }
  }

  // A process that is reaped is not the one that waits for it, nor the kernel.
  lemma CleanupKeepsTable(s: Sys, i: nat)
    requires Shape(s) && TableOk(s) && s.current.Some? && i < MAX_PROCESSES && Reapable(s, i)
    ensures i > 0 && s.table[i] == Some(i - 1) && s.procs[i - 1].pid == i && s.current != Some(i - 1)
    ensures TableOk(Cleanup(s, i - 1)) && Cleanup(s, i - 1).table == s.table[i := None]
  {
    hide TableOk, Ok, Free, Detach;
    TableFacts(s);
    var p := s.table[i].value;
    DetachOk(s.ready, p);
    RemoveLinksNobody(s, p);
    ShrinkingKeepsTable(s, Cleanup(s, p), Some(p));
  }

  lemma WaitKeepsTable(s: Sys)
    requires Shape(s) && TableOk(s)
    ensures TableOk(Wait(s).0)
  {
    hide TableOk, FirstReapable, Reapable, Cleanup, Shape;
    if s.current.Some? && FirstReapable(s).Some? {
      CleanupKeepsTable(s, FirstReapable(s).value);
    }
  }

  lemma StepKeepsTable(s: Sys, op: Op)
    requires Shape(s) && TableOk(s)
    ensures TableOk(Step(s, op))
  {
    hide TableOk;
    match op
    case DoSpawn(name, entry, priority) => CreateKeepsTable(s, name, entry, priority);
    case DoFork => ForkKeepsTable(s);
    case DoExit(code) => ExitKeepsTable(s, code);
    case DoPkill(pid) => PkillKeepsTable(s, pid);
    case DoWait => WaitKeepsTable(s);
    case DoTick => TickKeepsTable(s);
    case _ => StatusOpsKeepTable(s, op);
  }

  // In every run after startup.
  lemma {:induction false} RunKeepsTable(s: Sys, ops: seq<Op>)
    requires Shape(s) && TableOk(s)
    ensures TableOk(Run(s, ops))
    decreases |ops|
  {
    hide TableOk, Step;
    if ops == [] {
    } else {
      StepKeepsTable(s, ops[0]);
      RunKeepsTable(Step(s, ops[0]), ops[1..]);
    }
  }

  // The pids that a run of operations issues, in order.
  function Issued(s: Sys, ops: seq<Op>): seq<nat>
    requires Shape(s)
    decreases |ops|
  {
    if ops == [] then []
    else
      var r := Step(s, ops[0]);
      (if r.count > s.count then [r.procs[s.count].pid] else []) + Issued(r, ops[1..])
  }

  lemma StepIssuesNext(s: Sys, op: Op)
    requires Shape(s)
    ensures var r := Step(s, op);
            r.count == s.count || (r.count == s.count + 1 && r.procs[s.count].pid == s.count + 1)
  {
    hide Shape, Tick, Wait;
    Sizes(s);
    WaitCreatesNobody(s);
  }

  lemma WaitCreatesNobody(s: Sys)
    requires Shape(s)
    ensures Wait(s).0.count == s.count
  {
  }

  // Pids are issued in increasing order, so none is issued twice, whatever is killed or
  // reaped in between.
  lemma {:induction false} PidsAreFresh(s: Sys, ops: seq<Op>, k: nat)
    requires Shape(s) && k < |Issued(s, ops)|
    ensures Issued(s, ops)[k] == s.count + 1 + k
    decreases |ops|
  {
    hide Step, Shape;
    StepIssuesNext(s, ops[0]);
    var r := Step(s, ops[0]);
    if r.count == s.count {
      PidsAreFresh(r, ops[1..], k);
    } else if k > 0 {
      PidsAreFresh(r, ops[1..], k - 1);
    }
  }

  // ---------------------------------------------------------------- pid allocation

  ghost function FreePids(slots: seq<Option<nat>>): set<nat>
    requires |slots| == MAX_PROCESSES
  {
    set i: nat | 1 <= i < MAX_PROCESSES && slots[i] == None
  }

  // The pids of n allocations, each of them recorded in the table.
  function Allocations(slots: seq<Option<nat>>, next: nat, n: nat): seq<nat>
    requires |slots| == MAX_PROCESSES && 1 <= next <= MAX_PROCESSES
    decreases n
  {
    if n == 0 then []
    else
      var (pid, after) := NextPid(slots, next);
      [pid] + Allocations(if pid == 0 then slots else slots[pid := Some(0)], after, n - 1)
  }

  lemma NextPidIsFree(slots: seq<Option<nat>>, next: nat)
    requires |slots| == MAX_PROCESSES && 1 <= next <= MAX_PROCESSES
    ensures var (pid, after) := NextPid(slots, next);
            && 1 <= after <= MAX_PROCESSES
            && if FreePids(slots) == {} then pid == 0 else pid in FreePids(slots)
  {
    if next < MAX_PROCESSES && slots[next] == None {
      assert next in FreePids(slots);
    } else if FirstFree(slots, 1) != 0 {
      assert FirstFree(slots, 1) in FreePids(slots);
    } else {
      assert FreePids(slots) == {};
    }
  }

  // Allocating and recording returns every free pid exactly once, and then 0.
  lemma {:induction false} AllocatesEachOnce(slots: seq<Option<nat>>, next: nat)
    requires |slots| == MAX_PROCESSES && 1 <= next <= MAX_PROCESSES
    ensures var n := |FreePids(slots)|;
            var pids := Allocations(slots, next, n + 1);
            && |pids| == n + 1 && pids[n] == 0 && Distinct(pids)
            && forall x: nat :: x in FreePids(slots) <==> x in pids[..n]
    decreases |FreePids(slots)|
  {
    hide NextPid;
    var n := |FreePids(slots)|;
    NextPidIsFree(slots, next);
    var (pid, after) := NextPid(slots, next);
    if n == 0 {
      assert Allocations(slots, next, 1) == [pid] + Allocations(slots, after, 0);
    } else {
      var taken := slots[pid := Some(0)];
      assert FreePids(taken) == FreePids(slots) - {pid};
      AllocatesEachOnce(taken, after);
      var rest := Allocations(taken, after, n);
      assert Allocations(slots, next, n + 1) == [pid] + rest;
      assert forall k | 0 <= k < n - 1 :: rest[k] in rest[..n - 1];
      assert ([pid] + rest)[..n] == [pid] + rest[..n - 1];
    }
  }
}
