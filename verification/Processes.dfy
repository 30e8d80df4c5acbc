/** The process table and the scheduler (kernel/proc/process.c, kernel/syscalls.c and
    change_current_process of kernel/kernel.c) as a state machine over values.

    PCBs live in a static pool of ten and are named by their index in it.  The ready queue
    and whatever else their next and prev links say is kept as the lines of module Links;
    module Kernel shows that the linked objects represent them. */
module Processes {
  import opened Basics
  import opened Links

  const POOL := 10
  const MAX_PROCESSES := 256
  const NAME_MAX := 63
  const STACK_SIZE := 4096
  const FAILED := 0xFFFF_FFFF      // (uint32_t)-1
  const SUCCESS := 1
  const NOT_FOUND := 0
  const PROTECTED := -1

  datatype Status = Ready | Running | Blocked | Terminated

  datatype Priority = High | Normal | Low

  datatype Cpu = Cpu(
    eax: nat, ebx: nat, ecx: nat, edx: nat, esi: nat, edi: nat, esp: nat, ebp: nat,
    eip: nat, eflags: nat, cs: nat, ds: nat, es: nat, fs: nat, gs: nat, ss: nat)

  // What a process is made of, apart from its place among the others.
  datatype Image = Image(
    name: string, priority: Priority, cpu: Cpu,
    stackBase: nat, stackSize: nat, heapBase: nat, heapSize: nat, memoryUsed: nat)

  datatype Info = Info(pid: nat, parent: nat, status: Status, exit: int, image: Image)

  // What memset leaves of a PCB.
  const NO_CPU := Cpu(0, 0, 0, 0, 0, 0, 0, 0, 0, 0, 0, 0, 0, 0, 0, 0)
  const CLEARED := Info(0, 0, Ready, 0, Image("", High, NO_CPU, 0, 0, 0, 0, 0))

  datatype Sys = Sys(
    stacks: nat,                  // the address of static_stacks
    procs: seq<Info>,             // the pool
    count: nat,                   // how much of it has been handed out
    table: seq<Option<nat>>,      // process_table, by pid
    ready: Lists,                 // the links, ready_queue_head and ready_queue_tail
    current: Option<nat>,
    kernel: Option<nat>)
  {
    // What following next from ready_queue_head gives.
    function Queue(): seq<nat>
      requires Shape(this)
    {
      Links.Queue(ready)
    }

    // ready_queue_tail is the end of that.
    predicate TailOk()
      requires Shape(this)
    {
      Links.TailOk(ready)
    }
  }

  predicate Created(s: Sys, p: Option<nat>) {
    p.Some? ==> p.value < s.count
  }

  predicate Shape(s: Sys) {
    && |s.procs| == POOL && s.count <= POOL && |s.table| == MAX_PROCESSES
    && Ok(s.ready) && |s.ready.lines| == POOL
    && (forall p | s.count <= p < POOL :: Free(s.ready, p))
    && (forall i | 0 <= i < MAX_PROCESSES :: Created(s, s.table[i]))
    && Created(s, s.current) && Created(s, s.kernel)
  }

  lemma Sizes(s: Sys)
    requires Shape(s)
    ensures |s.procs| == POOL && s.count <= POOL && |s.table| == MAX_PROCESSES
    ensures Ok(s.ready) && |s.ready.lines| == POOL
    ensures Created(s, s.current) && Created(s, s.kernel)
    ensures forall i | 0 <= i < MAX_PROCESSES :: Created(s, s.table[i])
    ensures forall p | s.count <= p < POOL :: Free(s.ready, p)
    ensures s.ready.head.Some? ==> s.ready.head.value < POOL
  {
  }

  // The state before anything has been created.
  function Empty(stacks: nat): Sys {
    Sys(stacks, seq(POOL, _ => CLEARED), 0, seq(MAX_PROCESSES, _ => None),
        Lists(seq(POOL, i requires i >= 0 => [i]), None, None), None, None)
  }

  // Nothing but the links, the current process and PCB contents changes.
  predicate SameTable(s: Sys, r: Sys) {
    r.count == s.count && r.table == s.table && r.kernel == s.kernel && r.stacks == s.stacks
  }

  function Mark(s: Sys, p: nat, status: Status): (r: Sys)
    requires p < |s.procs|
    ensures Shape(s) ==> Shape(r) && SameTable(s, r)
  {
    s.(procs := s.procs[p := s.procs[p].(status := status)])
  }

  // ---------------------------------------------------------------- the scheduler

  predicate IsRunning(s: Sys)
    requires Shape(s)
  {
    s.current.Some? && s.procs[s.current.value].status == Running
  }

  predicate IsQueued(s: Sys, p: Option<nat>)
    requires Shape(s)
  {
    p.Some? && p.value in s.Queue()
  }

  // remove_from_ready_queue
  function Remove(s: Sys, p: nat): (r: Sys)
    requires Shape(s) && p < POOL
    ensures Shape(r) && SameTable(s, r)
  {
    DetachOk(s.ready, p);
    assert forall i | s.count <= i < POOL :: Free(Detach(s.ready, p), i) by {
      forall i | s.count <= i < POOL ensures Free(Detach(s.ready, p), i) { DetachLeavesFree(s.ready, p, i); }
    }
    s.(ready := Detach(s.ready, p))
  }

  // add_to_ready_queue of a created process that is READY and unlinked.
  function Add(s: Sys, p: nat): (r: Sys)
    requires Shape(s) && p < s.count && Free(s.ready, p)
    ensures Shape(r) && SameTable(s, r)
  {
    AttachOk(s.ready, p);
    assert forall i | s.count <= i < POOL :: Free(Attach(s.ready, p), i) by {
      forall i | s.count <= i < POOL ensures Free(Attach(s.ready, p), i) { AttachLeavesFree(s.ready, p, i); }
    }
    s.(ready := Attach(s.ready, p))
  }

  // A running current process becomes ready and is moved behind the tail, wherever that is.
  function Preempt(s: Sys): (r: Sys)
    requires Shape(s)
    ensures Shape(r) && SameTable(s, r) && r.current == s.current
  {
    if !IsRunning(s) then s
    else
      var cur := s.current.value;
      var m := Mark(s, cur, Ready);
      if s.ready.tail == Some(cur) then m
      else
        DetachOk(m.ready, cur);
        Add(Remove(m, cur), cur)
  }

  // schedule
  function Tick(s: Sys): (r: Sys)
    requires Shape(s)
    ensures Shape(r) && SameTable(s, r)
  {
    if s.ready.head == None then s.(current := s.kernel)
    else
      var next := s.ready.head.value;
      var m := Preempt(s);
      if s.current == Some(next) then m
      else
        HeadIsCreated(s);
        Mark(Remove(m, next), next, Running).(current := Some(next))
  }

  lemma HeadIsCreated(s: Sys)
    requires Shape(s)
    ensures s.ready.head.Some? ==> s.ready.head.value < s.count
    ensures s.ready.tail.Some? ==> s.ready.tail.value < s.count
  {
    forall p | s.count <= p < POOL
      ensures s.ready.head != Some(p) && s.ready.tail != Some(p)
    {
      assert Free(s.ready, p);
    }
  }

  // sys_exit
  function Exit(s: Sys, code: int): (r: Sys)
    requires Shape(s)
    ensures Shape(r) && SameTable(s, r)
  {
    if s.current == None then s else Tick(Leave(s, code))
  }

  function Leave(s: Sys, code: int): (r: Sys)
    requires Shape(s) && s.current.Some?
    ensures Shape(r) && SameTable(s, r)
  {
    var cur := s.current.value;
    s.(procs := s.procs[cur := s.procs[cur].(status := Terminated, exit := code)], current := None)
  }

  // process_exit
  function ProcessExit(s: Sys): (r: Sys)
    requires Shape(s)
    ensures Shape(r) && SameTable(s, r)
  {
    if s.current != None && s.current != s.kernel then Mark(s, s.current.value, Terminated) else s
  }

  // ---------------------------------------------------------------- creation

  // At most 63 characters of the name are kept.
  function Clip(name: string): string {
    if |name| <= NAME_MAX then name else name[..NAME_MAX]
  }

  // The parts of a PCB that process_create_test sets.
  function Fresh(before: Image, name: string, entry: nat, priority: Priority, stack: nat): Image {
    before.(name := Clip(name), priority := priority,
          cpu := before.cpu.(eip := entry, esp := stack + STACK_SIZE - 4, eflags := 0x202, cs := 0x08,
                           ds := 0x10, es := 0x10, fs := 0x10, gs := 0x10, ss := 0x10),
          stackBase := stack, stackSize := STACK_SIZE, heapBase := 0, heapSize := 0)
  }

  // process_create_test: a fresh PCB from the pool, or none.
  function Create(s: Sys, name: string, entry: nat, priority: Priority): (r: (Sys, Option<nat>))
    requires Shape(s)
    ensures Shape(r.0) && r.0.kernel == s.kernel && r.0.stacks == s.stacks
    ensures if s.count < POOL then r.1 == Some(s.count) && r.0.count == s.count + 1 else r == (s, None)
    ensures r.0.ready == s.ready && r.0.current == s.current
  {
    if s.count >= POOL then (s, None)
    else
      var p := s.count;
      var image := Fresh(s.procs[p].image, name, entry, priority, s.stacks + STACK_SIZE * p);
      var info := Info(p + 1, 0, Ready, s.procs[p].exit, image);
      (s.(procs := s.procs[p := info], count := p + 1, table := s.table[p + 1 := Some(p)]), Some(p))
  }

  // enable_process_execution: the kernel process is the first one, and runs.
  function Boot(s: Sys, idle: nat): (r: Sys)
    requires Shape(s)
    ensures Shape(r)
  {
    if s.kernel.Some? then s
    else
      match Create(s, "kernel_idle", idle, Low)
      case (_, None) => s
      case (m, Some(p)) => Mark(m, p, Running).(current := Some(p), kernel := Some(p))
  }

  // process_create_copy: a fresh process with the image of p, in which fork returns 0.
  function Copy(s: Sys, p: nat): (r: (Sys, Option<nat>))
    requires Shape(s) && p < POOL
    ensures Shape(r.0) && r.0.kernel == s.kernel && r.0.stacks == s.stacks
    ensures if s.count < POOL then r.1 == Some(s.count) && r.0.count == s.count + 1 else r == (s, None)
    ensures r.0.ready == s.ready && r.0.current == s.current
  {
    var parent := s.procs[p].image;
    match Create(s, parent.name, parent.cpu.eip, parent.priority)
    case (_, None) => (s, None)
    case (m, Some(c)) =>
      var from := m.procs[p].image;
      var child := m.procs[c].image.(cpu := from.cpu.(eax := 0), memoryUsed := from.memoryUsed);
      (m.(procs := m.procs[c := m.procs[c].(image := child)]), Some(c))
  }

  // sys_fork: the copy gets its parent's pid and is linked at the tail.
  function Fork(s: Sys): (r: (Sys, nat))
    requires Shape(s)
    ensures Shape(r.0) && r.0.kernel == s.kernel
  {
    if s.current == None then (s, FAILED)
    else
      match Copy(s, s.current.value)
      case (_, None) => (s, FAILED)
      case (m, Some(c)) =>
        assert Free(s.ready, c);
        var child := m.procs[c].(parent := m.procs[s.current.value].pid);
        (Add(m.(procs := m.procs[c := child]), c), child.pid)
  }

  // ---------------------------------------------------------------- the table

  function Find(s: Sys, pid: nat): Option<nat>
    requires Shape(s)
  {
    if pid >= MAX_PROCESSES then None else s.table[pid]
  }

  // sys_kill
  function Kill(s: Sys, pid: nat, signal: int): (r: (Sys, int))
    requires Shape(s)
    ensures Shape(r.0) && SameTable(s, r.0)
  {
    var target := Find(s, pid);
    if pid == 1 || target == None || target == s.kernel then (s, -1)
    else if signal == 9 then
      var p := target.value;
      (s.(procs := s.procs[p := s.procs[p].(status := Terminated, exit := -1)]), 0)
    else (s, 0)
  }

  // The stack and heap that process_kill_by_pid gives up.
  function Released(image: Image): Image {
    var i := if image.stackBase != 0 then image.(stackBase := 0, stackSize := 0) else image;
    if i.heapBase != 0 then i.(heapBase := 0, heapSize := 0) else i
  }

  // process_kill_by_pid
  function Pkill(s: Sys, pid: nat): (r: (Sys, int))
    requires Shape(s)
    ensures Shape(r.0) && r.0.kernel == s.kernel
  {
    var target := Find(s, pid);
    if pid == 1 then (s, PROTECTED)
    else if target == None then (s, NOT_FOUND)
    else if target == s.kernel then (s, PROTECTED)
    else
      var p := target.value;
      var info := s.procs[p].(status := Terminated, image := Released(s.procs[p].image));
      (s.(procs := s.procs[p := info], table := s.table[pid := None]), SUCCESS)
  }

  // process_set_status
  function SetStatus(s: Sys, pid: nat, status: Status): (r: (Sys, int))
    requires Shape(s)
    ensures Shape(r.0) && SameTable(s, r.0)
  {
    var target := Find(s, pid);
    if target == None || status == Running then (s, 0) else (Mark(s, target.value, status), 1)
  }

  // change_current_process
  function Switch(s: Sys, pid: nat): (r: Sys)
    requires Shape(s)
    ensures Shape(r) && SameTable(s, r)
  {
    var target := Find(s, pid);
    if pid == 1 || target == None then s
    else Mark(s, target.value, Running).(current := target)
  }

  // ---------------------------------------------------------------- waiting

  // A terminated child of the current process sits in slot i.
  predicate Reapable(s: Sys, i: nat)
    requires Shape(s) && s.current.Some? && i < MAX_PROCESSES
  {
    && s.table[i].Some?
    && var p := s.procs[s.table[i].value];
    p.parent == s.procs[s.current.value].pid && p.status == Terminated
  }

  // The slots from i on that can be reaped, in increasing order.
  function Reapables(s: Sys, i: nat): seq<nat>
    requires Shape(s) && s.current.Some? && i <= MAX_PROCESSES
    decreases MAX_PROCESSES - i
  {
    if i == MAX_PROCESSES then []
    else (if Reapable(s, i) then [i] else []) + Reapables(s, i + 1)
  }

  lemma {:induction false} ReapablesAre(s: Sys, i: nat)
    requires Shape(s) && s.current.Some? && i <= MAX_PROCESSES
    ensures forall j | j in Reapables(s, i) :: i <= j < MAX_PROCESSES && Reapable(s, j)
    decreases MAX_PROCESSES - i
  {
    hide Shape, Reapable;
    if i == MAX_PROCESSES {
    } else {
      ReapablesAre(s, i + 1);
    }
  }

  // The child that sys_wait finds.
  function FirstReapable(s: Sys): (r: Option<nat>)
    requires Shape(s) && s.current.Some?
    ensures r.Some? ==> r.value < MAX_PROCESSES && Reapable(s, r.value)
  {
    var slots := Reapables(s, 0);
    ReapablesAre(s, 0);
    if slots == [] then None else assert slots[0] in slots; Some(slots[0])
  }

  // process_cleanup
  function Cleanup(s: Sys, p: nat): (r: Sys)
    requires Shape(s) && p < POOL
    ensures Shape(r) && r.kernel == s.kernel
  {
    var pid := s.procs[p].pid;
    var m := s.(table := if pid < MAX_PROCESSES then s.table[pid := None] else s.table);
    var r := Remove(m, p);
    r.(procs := r.procs[p := CLEARED])
  }

  // sys_wait: the returned pid, and the exit code when a child is reaped.
  function Wait(s: Sys): (r: (Sys, nat, Option<int>))
    requires Shape(s)
    ensures Shape(r.0) && r.0.kernel == s.kernel
  {
    if s.current == None then (s, FAILED, None)
    else
      match FirstReapable(s)
      case None => (s, 0, None)
      case Some(i) =>
        var p := s.table[i].value;
        (Cleanup(s, p), s.procs[p].pid, Some(s.procs[p].exit))
  }

  // ---------------------------------------------------------------- pids

  // The first free slot from pid on, or 0.
  function FirstFree(slots: seq<Option<nat>>, pid: nat): (r: nat)
    requires |slots| == MAX_PROCESSES
    ensures r != 0 ==> pid <= r < MAX_PROCESSES && slots[r] == None
    ensures r == 0 && pid > 0 ==> forall j | pid <= j < MAX_PROCESSES :: slots[j] != None
    decreases MAX_PROCESSES - pid
  {
    if pid >= MAX_PROCESSES then 0
    else if pid > 0 && slots[pid] == None then pid
    else FirstFree(slots, pid + 1)
  }

  // process_allocate_pid: the pid, or 0, and the new value of next_pid.
  function NextPid(slots: seq<Option<nat>>, next: nat): (r: (nat, nat))
    requires |slots| == MAX_PROCESSES
  {
    if next < MAX_PROCESSES && slots[next] == None then (next, next + 1)
    else
      var pid := FirstFree(slots, 1);
      (pid, if pid == 0 then next else pid + 1)
  }

  // ---------------------------------------------------------------- runs

  datatype Op =
    | DoSpawn(name: string, entry: nat, priority: Priority)
    | DoFork | DoExit(code: int) | DoProcessExit | DoKill(pid: nat, signal: int)
    | DoPkill(pid: nat) | DoSetStatus(pid: nat, status: Status) | DoSwitch(pid: nat) | DoWait | DoTick

  function Step(s: Sys, op: Op): (r: Sys)
    requires Shape(s)
    ensures Shape(r) && r.kernel == s.kernel
  {
    match op
    case DoSpawn(name, entry, priority) => Create(s, name, entry, priority).0
    case DoFork => Fork(s).0
    case DoExit(code) => Exit(s, code)
    case DoProcessExit => ProcessExit(s)
    case DoKill(pid, signal) => Kill(s, pid, signal).0
    case DoPkill(pid) => Pkill(s, pid).0
    case DoSetStatus(pid, status) => SetStatus(s, pid, status).0
    case DoSwitch(pid) => Switch(s, pid)
    case DoWait => Wait(s).0
    case DoTick => Tick(s)
  }

  function Run(s: Sys, ops: seq<Op>): (r: Sys)
    requires Shape(s)
    ensures Shape(r) && r.kernel == s.kernel
    decreases |ops|
  {
    if ops == [] then s else Run(Step(s, ops[0]), ops[1..])
  }
}
