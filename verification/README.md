# SimpleOS: a verified model of its stateful components

SimpleOS is a small 32-bit kernel. This project models its five components that hold state
or parse input, and proves what they promise over whole runs: the VGA terminal, the keyboard
line editor, the bump heap, the shell's argument tokenizer, and the process table with its
ready queue and scheduler. `dafny verify dfyconfig.toml` checks everything.

Code that works in place is modelled in place: classes over arrays and linked objects, with
the source's fields, loops and branches. Each class is proved to refine a specification on
values, and the properties are proved of that specification.

| file | component | specification it is proved against |
|---|---|---|
| `Vga.dfy` | 80 x 25 cells, cursor, scrolling | `Tape`: one flat sequence of cells that only grows; the screen is its last 2000 cells |
| `Keyboard.dfy` | polling driver over the bytes of port 0x60 | `Poll`, `ReadLine`: one poll as a step of a state machine, one line as a fold |
| `LineEditing.dfy`, `Keys.dfy` | what lines come out, and what each byte does | key encoding, repeat and debounce laws; effects in the source's numbers |
| `Echo.dfy` | keyboard and screen together | the typed line, in tape coordinates |
| `Heap.dfy` | `kmalloc`, `kfree` over a byte array | `Memory` and the walk along the header words |
| `Arguments.dfy` | `parse_arguments` | `Words`, inverse to `Join` |
| `Links.dfy` | next and prev links of all PCBs, head and tail | `Lists`: the line every process stands in, and the two ends |
| `Kernel.dfy` | PCB objects, ready queue and PID table, updated in place | `Sys` and its transitions |
| `Processes.dfy` | every process operation as a total transition of `Sys` | itself the specification |
| `Operations.dfy` | what each operation changes and returns, and that it changes nothing else | effects in the source's numbers |
| `Tables.dfy` | PID table, names and stacks, PID allocation | an invariant of all runs |
| `Scheduling.dfy`, `Reaping.dfy` | fork, round robin, draining, waiting | laws of the queue, with exact conditions |

`hide` statements in proofs only keep definitions away from the solver that a proof does not
need.

## What the code does not keep

The model of the queue is total. It follows the pointers also where they no longer form one
list: `Lists` gives every process the line it stands in, and the ready queue is the line of
`ready_queue_head`, whatever `ready_queue_tail` points at. Some promises then hold only under
a condition. The code is modelled as it is, and the condition is proved exact.

- Head, tail and links describe one queue over a run exactly when every tick meets
  `KeepsTail` and every wait reaps nobody, or a queued child, or has at most one process queued
  (`StepKeepsQueue`, `RunKeepsQueue`). A tick breaks it when it preempts a process outside of
  the queue, such as the kernel process, while two or more are queued: two forks and a tick
  after startup do (`TwoForksAndATick`).
- A forked child joins the queue exactly when the tail pointer is the end of the queue, or is
  null (`ForkAppends`). After two forks and a tick the next child is linked behind the kernel
  process and is not queued (`TwoForksAndATick`).
- `schedule` is described as round robin with a preempted process moved to the back
  (kernel/proc/process.c:583). With a right tail pointer that happens to a process in the queue,
  or with another one linked behind it; with a wrong one only to the last process in the queue
  (`RoundRobin`, `PreemptedIsQueued`). Four forks, a tick, `pch 4` and a tick lose a queued
  process (`PreemptedIsLost`).
- Ticks dispatch the queue first-in first-out even so (`Drain`), exactly unless the running
  process outside of the queue stands in front of another one while the tail is right
  (`TickDrains`). A spawn, `pch 2`, two forks, a tick, a fork, an exit, a fork and `pch 2` lead
  there (`OutsiderJoins`).
- `process_cleanup` takes the child, and nobody else, out of the queue exactly when the child
  is queued, or stands behind another process, or is without a successor beside an empty queue
  (`CleanupUnlinks`). After a fork, a tick, an exit and two more forks, waiting for the first
  child loses the other two (`WaitLosesQueue`). What `sys_wait` returns, and what it clears in
  the table, does not depend on the links (`ReapAll`).
- Termination is not final. A terminated process stays one, for its parent to reap, exactly over
  the runs in which it is not dispatched, switched to, set to READY or BLOCKED, killed by pid or
  reaped (`RunEnds`). Two forks, signal 9 for the first child and a tick make that child run
  (`KilledProcessRuns`).
- The screen echoes the input buffer exactly as long as no modifier key has been pressed in the
  line; after m presses the mark and the cursor are m cells too far (`LineEchoes`, `LineShows`;
  `ShiftLeavesMark` for an instance).
- `kmalloc` stays inside the heap, and refuses exactly what does not fit, unless one of its
  32-bit sums wraps around (`WritesStayInside`, `RefusalIsExact`, and `WrappedRequestPasses` for
  two instances).
- `parse_arguments` knows no bound of its buffers. The cells that it writes are inside the
  shell's buffers of 64 exactly when the first three words have at most 63 characters
  (`ParseArguments`). A word of 64 is written beyond (`LongWordOverruns`), and the keyboard can
  deliver it (`LongWordCanBeTyped`).
- docs/ARCHITECTURE.md calls the keyboard interrupt-driven; the code polls, and so does the model.

## Model

| member | source | states |
|---|---|---|
| Vga.Terminal.constructor | kernel/drivers/vga.c:24-33 | after `vga_init` the cursor is at the origin, the colour is light grey on black, the first cell is the test character, and whatever else the memory held becomes the start of the tape |
| Vga.Terminal.SetColor | kernel/drivers/vga.c:35-38 | only the colour of later writes changes |
| Vga.Terminal.Scroll | kernel/drivers/vga.c:46-65 | the in-place nested copy equals a simultaneous shift by one row with a blank last row; the first row goes to the history, the cursor to the last row |
| Vga.Terminal.PutChar | kernel/drivers/vga.c:67-116 | newline, return, tab stops, wrapping and scrolling on the screen are those of the tape, for every character and cursor position |
| Vga.Terminal.Print | kernel/drivers/vga.c:118-142 | a string is typed on the tape character by character; backspace goes back across rows but never above the screen |
| Vga.Terminal.Clear | kernel/drivers/vga.c:144-156 | a blank page in the current colour with the cursor at its origin |
| Vga.ControlsMove | kernel/drivers/vga.c:73-104 | newline goes 80 - pos mod 80 cells on, return pos mod 80 cells back, and a tab to the next multiple of 8; they write nothing, and a blank row is added exactly when the last one is left |
| Vga.OthersAreWritten | kernel/drivers/vga.c:106-116 | every other character, backspace included, goes into the cell at the position in the current colour, and nothing else changes |
| Vga.BackspaceErases | kernel/drivers/vga.c:120-141 | `vga_print` blanks the cell in front of the position on a backspace, except at the first cell of the screen, and hands every other character to `vga_putchar` |
| Vga.AttributeHoldsBoth | kernel/drivers/vga.c:14-17 | the attribute holds the foreground in its lower and the background in its upper four bits |
| Vga.Coordinates | kernel/drivers/vga.c:75-113 | row starts, next rows and tab stops of screen coordinates are those of flat tape positions |
| Vga.ScrolledRowsAreFrozen | kernel/drivers/vga.c:46-142 | in every run of calls, rows that have left the screen never change again and the window only moves down |
| Vga.PlainTextLayout | kernel/drivers/vga.c:67-116 | after a clear and n plain characters, cell (y, x) shows character (y+k)*80+x or a blank, with k = max(0, n/80-24), and the cursor is at row n/80-k, column n%80 |
| Keyboard.Driver.constructor | kernel/drivers/keyboard.c:7-38 | everything is cleared, all 256 bytes of the buffer included, and one hundred pending bytes are dropped |
| Keyboard.Driver.UpdateModifiers | kernel/drivers/keyboard.c:183-223 | press and release of Shift, Ctrl and Alt, Caps Lock on press only |
| Keyboard.Driver.ClearBuffer | kernel/drivers/keyboard.c:225-235 | exactly three bytes are thrown away |
| Keyboard.Driver.RepeatKey | kernel/drivers/keyboard.c:290-325 | a repeat changes buffer and screen as one rubout or one insertion, and sets the delay |
| Keyboard.Driver.PollOnce | kernel/drivers/keyboard.c:246-477 | one loop iteration, in all its branches, is one step of the machine on the fields and makes exactly that step's calls to the terminal |
| Keyboard.Driver.GetInput | kernel/drivers/keyboard.c:237-480 | the whole call folds the step over the port: state, bytes consumed, screen, and a terminated buffer when a line is returned |
| Keyboard.Driver.GetLines | kernel/drivers/keyboard.c:237-480 | the buffers that successive calls return are `Lines`, of which the laws of module LineEditing speak |
| LineEditing.PollKeepsInv | kernel/drivers/keyboard.c:281-472 | for every scancode the buffer holds at most 255 characters, all printable, also when a stale held character repeats |
| LineEditing.LinesArePrintable | kernel/drivers/keyboard.c:281-472 | every line that is ever returned has at most 255 printable characters and no terminator inside |
| LineEditing.StartedLinesArePrintable | kernel/drivers/keyboard.c:7-38 | so is every line after `keyboard_init`, for every byte stream |
| LineEditing.AcceptNeedsCooldown | kernel/drivers/keyboard.c:352-374 | an Enter is accepted if and only if it is newly pressed and the cooldown has run out, and sets it to 5000; any other poll takes one off |
| LineEditing.EnterDebounce | kernel/drivers/keyboard.c:246-374 | over successive calls, the i-th and j-th accepted Enter are at least (j-i)*5000 loop polls apart, whatever arrives in between |
| LineEditing.KeyRepeat | kernel/drivers/keyboard.c:281-326 | a key pressed and held for n polls types its character once and then min(R(n), space left) times, R(n) = 0 for n < 10001 and 1+(n-10001)/5001 from there |
| LineEditing.RuboutRepeat | kernel/drivers/keyboard.c:281-306 | held backspace deletes once and then by the same law, never past the start of the line |
| LineEditing.HeldCharacter | kernel/drivers/keyboard.c:424-471 | the same from any remaining delay, for polls that read nothing or the key itself |
| LineEditing.KeyOfTypes | kernel/drivers/keyboard.c:40-181 | every printable ASCII character has a key and a Shift position that give it, for either Caps Lock position |
| LineEditing.TypingRoundTrip | kernel/drivers/keyboard.c:237-477 | any sequence of printable lines of at most 255 characters, encoded as press and release scancodes with a free choice of Shift key for each character and pauses of at least 5000 polls, is returned exactly |
| LineEditing.CapsLockToggles | kernel/drivers/keyboard.c:217-220 | tapping Caps Lock flips it and changes nothing in the line |
| LineEditing.TabIsFourSpaces | kernel/drivers/keyboard.c:390-403 | on a line of any length, Tab adds what min(4, 252 - length) taps of the space bar add, and nothing from 252 on |
| LineEditing.RuboutUndoesTyping | kernel/drivers/keyboard.c:376-388 | typing a character and then backspace leaves the line as it was, and backspace on an empty line does nothing |
| Keys.ModifiersFollow | kernel/drivers/keyboard.c:183-223 | after a poll Shift is down unless the byte is 0xAA or 0xB6, if it was or the byte newly presses 0x2A or 0x36; so for Ctrl and Alt; a new press of 0x3A flips Caps Lock |
| Keys.ShiftFollows | kernel/drivers/keyboard.c:183-223 | after any polls Shift is down if and only if it was at first or one of its two keys was newly pressed, with no release of either since |
| Keys.LineOpens | kernel/drivers/keyboard.c:239-240 | a call starts with an empty line and keeps everything else, keys held over included |
| Keys.AsciiTable | kernel/drivers/keyboard.c:40-181 | a scancode gives a printable character if and only if it is the character's key, in its Shift position for the given Caps Lock |
| Keys.AsciiOfOthers | kernel/drivers/keyboard.c:40-181 | 0x0F and no other scancode gives a tab, and scancodes without a character give NUL |
| Keys.ReleasePoll | kernel/drivers/keyboard.c:257-275 | a release forgets the key if it is the one held; another key's leaves that repeating |
| Keys.QuietPoll | kernel/drivers/keyboard.c:327-429 | a poll that reads nothing while no key can repeat, or the last byte again, changes nothing but the cooldown |
| Keys.HeldPoll | kernel/drivers/keyboard.c:281-326 | a held key counts its delay down, then rubs out or types and waits 5000 polls |
| Keys.ModifierPoll | kernel/drivers/keyboard.c:327-347 | exactly the five modifier keys leave an extra mark and neither line nor held key; any other key is held with a delay of 10000 |
| Keys.EnterPoll | kernel/drivers/keyboard.c:352-374 | Enter leaves the line, is accepted or ignored by the cooldown, and does not replace the character of the key held before |
| Keys.RuboutPoll | kernel/drivers/keyboard.c:377-388 | backspace takes one character off, if there is one, and can repeat |
| Keys.TabPoll | kernel/drivers/keyboard.c:391-403 | Tab adds min(4, 252 - length) blanks, none from 252 on, and cannot repeat |
| Keys.CharacterPoll | kernel/drivers/keyboard.c:406-421 | any other key types its character and can repeat if it has one and the line has fewer than 255; otherwise neither |
| Keys.HeldTabOnce | kernel/drivers/keyboard.c:391-419 | however long it is held, Tab indents once, and a key without a character does nothing |
| Keys.EarlyEnter | kernel/drivers/keyboard.c:368-374 | however long it is held, an Enter within the cooldown returns no line, but types min(R(n), space left) copies of the character held before |
| Echo.PollEchoes | kernel/drivers/keyboard.c:246-472 | a poll keeps the echo of buffer and cursor mark if and only if it is not a new modifier press |
| Echo.LineShows | kernel/drivers/keyboard.c:237-472 | after any polls of an open line, m of them presses of a modifier key, the cells in front of it, the prompt included, are unchanged, and the cells from its start show what the edits leave, then the mark, with the cursor at start + length + m + 1; all but the first m cells are still on the screen |
| Echo.LineEchoes | kernel/drivers/keyboard.c:237-472 | for every byte stream, the cells from the start of an open line show exactly the buffer and then the mark, in their colours, with the cursor behind it and all of it on the screen, if and only if no poll of the line pressed a modifier key |
| Echo.ShiftLeavesMark | kernel/drivers/keyboard.c:335-343 | an instance: Shift on an empty line leaves two marks and an empty buffer |
| Echo.EnterKeepsLine | kernel/drivers/keyboard.c:349-357 | Enter removes the last mark, leaves every cell in front of it, prompt and line, and moves to the next row |
| Heap.AlignIsCeilWord | kernel/mem/memory.c:27-28 | the bit mask gives the least multiple of four not below the size, or 0 for the three sizes whose rounding wraps around |
| Heap.MallocAppends | kernel/mem/memory.c:25-55 | for 32-bit sizes whose sums do not wrap: a granted request appends one aligned block with cleared payload at the end of the header chain and writes nowhere else; a request is refused exactly when its aligned size does not fit, and then nothing changes |
| Heap.WritesStayInside | kernel/mem/memory.c:33-52 | a request is refused or writes inside the heap if and only if the sum of the size test does not wrap |
| Heap.FreePoisons | kernel/mem/memory.c:58-78 | freeing a block fills its payload with 0xDE and leaves every header and every other byte |
| Heap.WalkOrders | kernel/mem/memory.c:39-46 | blocks along the chain are 4-aligned, in range and pairwise disjoint |
| Heap.BlocksSurvive | kernel/mem/memory.c:25-78 | in every run of requests, none of whose sums wraps, and frees, a block that is not freed keeps its place, header and payload |
| Heap.UseIsGranted | kernel/mem/memory.c:30-46 | over such runs heap_current - heap_start is always the sum of aligned size plus header over the granted requests, and over the blocks of the chain |
| Heap.ModestSizesAreServed | kernel/mem/memory.c:27-33 | runs of requests below 2^32 - 2^21 - 8 bytes are such runs |
| Heap.Capacity | kernel/mem/memory.c:33-37 | of k requests of one size, whose sum does not wrap, exactly min(k, room/(aligned size+4)) are granted |
| Heap.EmptyHeapWraps | kernel/mem/memory.c:27-33 | on an empty heap the sum wraps for exactly the sizes 0xFFEFFFF9 to 0xFFFFFFFC |
| Heap.WordsAreLittleEndian | kernel/mem/memory.c:40 | header words are stored low byte first |
| Heap.RefusalIsExact | kernel/mem/memory.c:27-37 | the 32-bit size test agrees with the unbounded sizes if and only if its sum does not wrap, and neither does the rounding of the size unless there is no room for a header |
| Heap.WrappedRequestPasses | kernel/mem/memory.c:27-37 | instances on an empty heap where it does not agree: 2^32-4 bytes pass the test although header and aligned size come to 2^32 bytes, and 2^32-1 bytes are granted a block whose header says 0 |
| Heap.Allocator.constructor | kernel/mem/memory.c:13-22 | an empty chain over memory that is not cleared |
| Heap.Allocator.Kmalloc | kernel/mem/memory.c:25-55 | the header store and the clearing loop compute the specified memory and pointer |
| Heap.Allocator.Kfree | kernel/mem/memory.c:58-78 | the size is read back from the header bytes and exactly that payload is overwritten; NULL is ignored |
| Arguments.ParseArguments | kernel/kernel.c:738-798 | returns min(3, number of maximal space-free runs), the buffers hold exactly the first three of them or the empty string, and it writes one cell more than the word has characters in each, and no others; those cells are inside buffers of 64 if and only if the first three words have at most 63 characters |
| Arguments.LongWordOverruns | kernel/kernel.c:752-757 | an instance: for a word of 64 characters 65 cells are written, the last with the terminator |
| Arguments.LongWordCanBeTyped | kernel/drivers/keyboard.c:237-477 | scancodes exist for which the keyboard returns that word |
| Arguments.WordsOfJoin | kernel/kernel.c:748-795 | words joined with any positive gaps and any spaces around split back into those words |
| Arguments.JoinOfWords | kernel/kernel.c:748-795 | every string is its words laid out with its own gaps, so the split is maximal |
| Links.Neighbours | kernel/proc/process.c:514-562 | next and prev are mutual inverses along a line and null exactly at its ends and outside of it |
| Links.RemovalRelinks | kernel/proc/process.c:542-561 | unlinking a process makes its neighbours each other's neighbours and touches nobody else |
| Links.DetachQueue | kernel/proc/process.c:537-562 | unlinking a queued process takes it out of the queue; one outside of the queue with nobody in front of it makes the rest of its own line, if any, the queue |
| Links.DetachTail | kernel/proc/process.c:551-558 | unlinking a queued process leaves the tail right if and only if it was, or the process was the last one |
| Links.AttachQueue | kernel/proc/process.c:519-531 | linking joins the queue if the tail is its end, becomes the queue if there is no tail, and leaves the queue alone otherwise |
| Kernel.Scheduler.constructor | kernel/proc/process.c:20-40 | the empty table and queue |
| Kernel.Scheduler.RemoveFromReadyQueue | kernel/proc/process.c:537-562 | the pointer updates are `Detach`, for a process anywhere and any tail; NULL is ignored |
| Kernel.Scheduler.AddToReadyQueue | kernel/proc/process.c:514-532 | the pointer updates are `Attach` for a READY process, with any tail, and nothing otherwise |
| Kernel.Scheduler.OneQueueIsTidy | kernel/proc/process.c:514-562 | the pointers represent exactly one duplicate-free queue of created processes, with null links outside of it, if and only if the lines are tidy |
| Kernel.Scheduler.Schedule | kernel/proc/process.c:567-617 | from any state the pointer program is the queue operation: preempt, move to the tail, dispatch the old head, or fall back to the kernel process; a right tail pointer stays right, and one queue stays one queue, if and only if `KeepsTail` |
| Kernel.Scheduler.CreateProcess | kernel/proc/process.c:672-754 | the next PCB of ten gets the next pid, the first 63 characters of the name, priority, registers, its own stack, a table slot and null links, and is not enqueued |
| Kernel.Scheduler.CreateCopy | kernel/proc/process.c:759-784 | a fresh process with the parent's name, priority, registers but for eax, and memory count |
| Kernel.Scheduler.EnableProcessExecution | kernel/proc/process.c:812-828 | the kernel process is created once, RUNNING and current |
| Kernel.Scheduler.Fork | kernel/syscalls.c:98-121 | the copy gets its parent's pid and is linked at the tail, wherever that is; failure changes nothing |
| Kernel.Scheduler.Exit | kernel/syscalls.c:70-93 | the current process is TERMINATED with its code and the next one is dispatched |
| Kernel.Scheduler.ProcessExit | kernel/proc/process.c:191-202 | marks the current process unless it is the kernel's |
| Kernel.Scheduler.Kill | kernel/syscalls.c:219-262 | PID 1, unknown pids and the kernel process are refused; only signal 9 terminates |
| Kernel.Scheduler.Pkill | kernel/proc/process.c:243-294 | as above with its own codes; stack and heap are given up, the slot is cleared, the links are not |
| Kernel.Scheduler.SetStatus | kernel/proc/process.c:299-315 | every status but RUNNING can be set, nothing else changes |
| Kernel.Scheduler.ChangeCurrentProcess | kernel/kernel.c:57-79 | a known process other than PID 1 becomes current and RUNNING, without leaving the queue |
| Kernel.Scheduler.CleanupProcess | kernel/proc/process.c:789-807 | slot, place in line and PCB are cleared, wherever the process stands |
| Kernel.Scheduler.Wait | kernel/syscalls.c:177-206 | the terminated child with the least pid is reaped and reported, or 0 |
| Kernel.Scheduler.GetPid | kernel/syscalls.c:211-214 | the current pid, or 0 |
| Kernel.Scheduler.AllocatePid | kernel/proc/process.c:207-228 | keeps next_pid in 1..256 and returns what the scan returns |
| Kernel.Scheduler.DoAll | kernel/proc/process.c:514-617 | along every run of all these operations the links of all PCBs are those of the lines and the state is that of the transition system; runs that meet `KeepsThroughout` leave one duplicate-free queue with null links outside of it |
| Operations.HeadStaysCurrent | kernel/proc/process.c:595-599 | a current process that heads the queue and is not RUNNING stays both: nothing at all changes |
| Operations.NobodyQueued | kernel/proc/process.c:569-578 | with an empty queue only the kernel process becomes current |
| Operations.TickLinks | kernel/proc/process.c:580-607 | in every other state, all links and both ends after a tick: who is unlinked, who is linked at the tail, in which order |
| Scheduling.TickProcs | kernel/proc/process.c:584-603 | a tick changes no PCB but for the status: the dispatched head becomes RUNNING, a RUNNING current process READY |
| Operations.SpawnCreates | kernel/proc/process.c:681-753 | entry point in eip, stack top in esp, flags and segments, priority, the first 63 characters of the name, next pid, parent 0, READY, own stack of 4096 bytes, slot; nothing else changes, and with ten PCBs taken nothing at all |
| Operations.BootCreates | kernel/proc/process.c:817-825 | the kernel process is created like that, once, with low priority, RUNNING and current |
| Operations.ExitStores | kernel/syscalls.c:72-92 | the exit code of the current process is the one given and no other changes; statuses and the next current process in every state |
| Operations.ProcessExitMarks | kernel/proc/process.c:195-198 | only the status of a current process other than the kernel's changes |
| Operations.KillTerminates | kernel/syscalls.c:222-261 | refusals return -1; signal 9 sets TERMINATED and exit code -1 and nothing else; other signals return 0 and do nothing |
| Operations.PkillTerminates | kernel/proc/process.c:246-293 | the return codes -1, 0 and 1; TERMINATED, slot cleared, stack and heap given up, nothing else |
| Operations.StatusIsSet | kernel/proc/process.c:301-314 | the given status is set and 1 returned, or, for an unknown pid or RUNNING, nothing and 0 |
| Operations.SwitchRuns | kernel/kernel.c:59-73 | the process becomes current and RUNNING, nobody else and no link changes, or nothing for PID 1 and unknown pids |
| Operations.CleanupClears | kernel/proc/process.c:796-806 | every field of the PCB is zeroed, the slot of its pid cleared, the process unlinked, and nothing else |
| Operations.WaitFails | kernel/syscalls.c:179-182 | without a current process 2^32-1 is returned and nothing changes |
| Operations.ReapableIs | kernel/syscalls.c:187-189 | what is reaped is a TERMINATED process in the table whose parent is current |
| Operations.NextPidIs | kernel/proc/process.c:209-227 | the next pid if it is free, else the least free one, else 0, and the new next_pid |
| Tables.BootIsOk | kernel/proc/process.c:812-828 | the table invariant holds after startup |
| Tables.RunKeepsTable | kernel/syscalls.c:70-262 | in every run each occupied slot holds the process with that pid, its parent's pid is smaller, its name is terminated, its stack is its own or given up, everything linked or current is such a process, and slot 1 holds the kernel process |
| Tables.PidsAreFresh | kernel/proc/process.c:672-754 | pids are issued in increasing order in every run, so none twice |
| Tables.AllocatesEachOnce | kernel/proc/process.c:207-228 | from any table, allocating and recording returns every free pid exactly once and then 0 |
| Scheduling.ForkAppends | kernel/syscalls.c:106-120 | a child joins the queue if and only if the tail pointer is the end of the queue or null, when it is the whole queue; otherwise the queue stays as it is |
| Scheduling.ForkCopies | kernel/proc/process.c:759-784 | the child has its parent's name, priority, registers with 0 in eax, and memory count, the next pid and slot, and a stack that overlaps with that of no process in the table; no other process changes |
| Scheduling.ForkFails | kernel/syscalls.c:100-110 | without a current process or a PCB left 2^32-1 is returned and nothing changes |
| Scheduling.TickQueue | kernel/proc/process.c:567-617 | the queue, the tail and the current process after a tick, from any state in which the head is not current |
| Scheduling.TickKeepsTail | kernel/proc/process.c:567-617 | a right tail pointer stays right if and only if the tick preempts nobody, or somebody queued or in front of another process, or at most one process is queued |
| Scheduling.StepKeepsQueue | kernel/proc/process.c:514-617 | one queue stays one queue over an operation if and only if the operation meets `Keeps` |
| Scheduling.RunKeepsQueue | kernel/syscalls.c:70-206 | so exactly the runs of such operations have one queue all along |
| Scheduling.TwoForksAndATick | kernel/proc/process.c:583-593 | an instance where the tail pointer goes wrong, and the next forked child is not queued |
| Scheduling.RoundRobin | kernel/proc/process.c:567-617 | preempting the k-th queued process makes the head current and moves the preempted one to the back, losing and duplicating nobody, if and only if the tail is right or it was the last; for k = 0 the queue turns by one with no dispatch |
| Scheduling.PreemptedIsQueued | kernel/proc/process.c:583-593 | a preempted process other than the head is queued afterwards if and only if it was the last one, or the tail is right and it was queued or in front of another process |
| Scheduling.PreemptedIsLost | kernel/proc/process.c:588-592 | an instance where a queued process is preempted and lost |
| Scheduling.TickDrains | kernel/proc/process.c:567-617 | a tick of a process that is not queued dispatches the head; the rest is the queue if and only if `StaysOut` |
| Scheduling.OutsiderJoins | kernel/proc/process.c:583-593 | an instance where it is not: the ticking process joins the queue instead |
| Scheduling.DrainStep | kernel/syscalls.c:70-93 | any exit, and such a tick, dispatches and removes the queue's first process, or falls back to the kernel process when there is none |
| Scheduling.Drain | kernel/proc/process.c:567-617 | any n ticks and exits dispatch exactly the first n queued processes in order, then the kernel process for good, also with an unlinked current process and a wrong tail |
| Reaping.CleanupUnlinks | kernel/proc/process.c:789-807 | the process, and nobody else, leaves the queue if and only if it is queued, or stands behind another one, or has no successor beside an empty queue |
| Reaping.WaitLosesQueue | kernel/syscalls.c:184-201 | an instance where the queue of two is forgotten by a wait, while the two stay linked |
| Reaping.ReapAll | kernel/syscalls.c:184-206 | with m terminated children, m waits return their pids in increasing order with their exit codes and clear exactly their slots, and the next wait returns 0, whatever the links are |
| Reaping.ReapUnlinks | kernel/proc/process.c:802-803 | and those waits take exactly the children out of the queue, given that each of them can be unlinked in the sense of `CleanupUnlinks` |
| Reaping.StepEnds | kernel/syscalls.c:70-262 | a terminated process stays terminated, in its slot and with its parent over an operation if and only if that does not dispatch it, switch to it, set it to READY or BLOCKED, kill it by pid or reap it; its exit code changes by signal 9 and by its own exit only |
| Reaping.RunEnds | kernel/syscalls.c:70-262 | so exactly over the runs of such operations, after which it can be reaped if and only if its parent is current |
| Reaping.ExitCodeIsReported | kernel/syscalls.c:75-200 | the code that a process exits with is what the wait that reaps it reports, after any run that neither disturbs it nor gives it another code |
| Reaping.KilledProcessRuns | kernel/syscalls.c:243-252 | an instance: a killed process that is queued is dispatched by the next tick |

## Left out

- Keyboard.Driver.GetInput: takes the bytes of the port as a finite sequence and may stop without a line when they are used up; the C loop waits for ever.
- Kernel.Scheduler.AddToReadyQueue: takes a READY process only while it has no links and is neither head nor tail, as both callers see to.
- Kernel.Scheduler.Schedule: leaves out what `context_switch` does. The assembly saves registers at offset 20 of the PCB it leaves, while process.h has `cpu_state` at offset 84, so that it stores over the end of the name, state, priority and exit code; names, statuses, priorities and exit codes after a switch are those of the C code alone.
- Kernel.Scheduler.Wait: the exit code is always asked for.
- Kernel.Scheduler.CreateProcess: leaves out time slice, run time, file descriptors, page directory and the pointers to relatives, which nothing reads; the name is a string without terminator, and the stack address an unbounded number.
- Kernel.Scheduler.Pkill: the stack that it gives to `kfree` is not in the kernel heap, and what `kfree` overwrites there is not part of this model.
- Heap.Allocator.Kmalloc: takes only sizes for which the sum of the size test does not wrap around; otherwise it writes outside of the heap (`WritesStayInside`).
- Arguments.ParseArguments: takes buffers that are long enough for the words, where the C code writes past shorter ones; its last clause says when the shell's are long enough.
- Reaping.ReapUnlinks: is one implication; the equivalence is that of `CleanupUnlinks`, for each reaped process.
- Vga.Terminal.PutChar: characters are Dafny characters beside an attribute byte, not packed into 16 bits, and the driver is initialised.
- `key_hold_time` is an unbounded number: the two repeat rates are equal, so it has no effect.
- `process_create`, `process_destroy` and the demo and stress-test processes: a second PCB pool that no command reaches.
- `sys_exec`, the shell's command texts, port, timer and interrupt set-up, boot code: no state of the modelled components, or hardware.
- Busy-wait delays: polls are counted, not timed.
