# Proofs about a teaching kernel

A Dafny model of the stateful components of a small layered kernel written in C: the
mailboxes of phase 2, their users in phase 4a (Sleep, TermRead, TermWrite), the counting
semaphores of phase 3, the process table of phase 1b and the termination-ordered join of
phase 1a. MAXSLOTS, MAXMBOX and MAXPROC are parameters throughout. MAXLINE and the
array bounds of a mailbox's waiting lists are constants, but no proof enumerates them.

## How it is built

Each component has a class that works as the C code does, on fixed arrays updated in
place, with the same loops and tests. Each of its methods is proved to do what a function
on values says. The properties are proved about those functions and about whole runs of
them. A function on values is a step of the system: a call up to its return or up to its
`blockMe`, or the part of a call after its `blockMe`. The drivers and handlers of phase 4
are written and proved on the mailbox kernel itself.

For the mailbox calls and for the calls of phases 1a and 1b there is also a promise: the
answer of a call and the state it leaves, told field by field by what comes out rather than
by how it is computed. The functions keep the promise (`KeepsPromise`), and the promise
leaves no choice (`PromiseDecides`), so it is all that there is to say about one call.

| file | what is in it |
|---|---|
| `Mailboxes.dfy` | the mailbox calls on values, cut at `blockMe` |
| `RingBuffers.dfy` | a mailbox's ring of slot indices and its window |
| `MailboxKernel.dfy` | the mailbox kernel in place: slot stack, rings, bounded lists of pids |
| `SlotLedger.dfy` | who owns each slot: one multiset equation, and what follows from it |
| `MailboxFifo.dfy` | independent queues of messages, and the proof that the kernel refines them |
| `MailboxRuns.dfy` | processes, logs and runs; the queue law and the wake-order law |
| `MailboxWaiters.dfy` | when each call blocks, whom it records and whom it unblocks; with the queues this decides every call; meetings at a zero-slot mailbox |
| `ProducerWakeups.dfy` | the wake-up law of blocked senders: exactly which steps break it |
| `ReceiverWakes.dfy` | whom a call unblocks as a receiver, and exactly when that spoils the records of senders |
| `CarefulRuns.dfy` | the law over all runs whose actions respect what can be checked beforehand |
| `PoolSufficiency.dfy` | when a resumed sender finds a free slot |
| `BadRuns.dfy` | runs from boot that lose a wake-up, underflow the pool, or fail a reader |
| `TerminalLock.dfy`, `BypassedLock.dfy` | TermWrite's lock on runs of the mailbox kernel, and a run in which it fails |
| `TerminalLines.dfy`, `TerminalKernel.dfy`, `TerminalInput.dfy` | terminal input: framing characters into lines; the driver and TermRead in place on the mailbox kernel; whole runs |
| `SleepQueue.dfy`, `SleepKernel.dfy`, `SleepRuns.dfy`, `StuckDriver.dfy` | Sleep: runs of the rotating scan; the clock driver and sys_sleep in place on the mailbox kernel; whole runs of the system, and one in which the driver blocks for good |
| `Semaphores.dfy` | the semaphore calls and their law |
| `LinkedSlots.dfy` | lists threaded through a table, walked and relinked in place |
| `ProcessTable.dfy`, `ProcessForest.dfy`, `ProcessRuns.dfy`, `ProcessKernel.dfy` | spork, join, quit and the dispatcher of phase 1b: on values, their invariant, their runs, and in place |
| `ProcessCalls.dfy` | what each call of phase 1b answers and changes, who runs next, and how the answers of join match the calls of quit |
| `JoinOrder.dfy`, `JoinWakeups.dfy` | which terminated child join returns; a process blocked in join misses no quit |
| `TermOrderJoin.dfy`, `TermOrderCalls.dfy` | spork, quit and join of phase 1a, on values and in place; what each answers, and joins and quits of whole runs |
| `Sequences.dfy`, `Wrappers.dfy` | shared definitions |

`dafny verify dfyconfig.toml` checks all of it.

## What the proofs found

- The wake-up law of blocked senders (a mailbox with a recorded sender never has more empty slots
  than woken senders that have not resumed) breaks at three kinds of step, and `StrandsExactly`
  says exactly when, in terms of the state before the step: a receive into a short buffer
  (`AShortBufferLosesOne`), a pool underflow (`AnUnderflow`), and a receive that wakes a process
  which is recorded but is no longer blocked in that send. `NoWakeupLostExactly` is the same for
  whole runs from boot.
- The third kind needs a stale record. `RecordsExactly` says exactly which steps make one: those
  that unblock, as a receiver, a process that is recorded as a sender. This happens when a
  zero-slot mailbox is released, because its sends wake receivers through the consumer pointer
  and leave their pids on the list (`phase2/phase2.c:187-189`, `phase2/phase2.c:257-259`,
  `AWakeupIsLost`); and, with no release, when the shadow process a mailbox points at has been
  given the pid of another process with the same remainder modulo MAXPROC
  (`phase2/phase2.c:258`, `phase2/phase2.c:351-352`, `AWakeupGoesAstray`). `WaitersMeanFull`
  shows that runs which avoid all of this, action by action, lose no wake-up.
- A resumed sender checks the mailbox, but not the pool: `FaultExactly` says when the free
  stack underflows, and `PoolNeverUnderflows` under which configuration it never does.
- TermWrite ignores the return code of the send to its lock. A writer that starts goes on without
  touching the lock, free or taken, exactly when the slot pool is empty; so does one that waited,
  if it resumes with the lock free (`LockSkippedExactly`). These are exactly the steps after which
  the lock is no lock (`LockedExactly`): two writers mix their characters, and the unlock can
  block (`UnlockBlocksExactly`, `ALockFails`).
- Sleep ignores the return code of its send too: with an empty pool the request is dropped and
  the caller still blocks (`SysSleep`), never to be woken (`NotStoredNotWoken`).
- The clock driver can block in its own put-back. If the clock mailbox is full and a sleeper waits
  for room there, the driver's receive wakes that sleeper, which may take the slot before the
  put-back (`PutBackExactly`). Only the driver receives there, so then no sleeper is ever woken
  again (`StuckForGood`, `ADriverBlocks`). It takes more requests than the mailbox has slots:
  with 100 slots and 50 processes it cannot happen if the open mailboxes fit in the pool
  (`OneEachFits`), and lateness is bounded (`LateByAtMost`).
- TermRead returns -1 with its mailbox open if another reader takes the line that woke it
  (`ReadGetsNext`, `AReaderFails`).
- `phase2/phase2.h:33-37` promises that a conditional call on a full or empty mailbox
  returns 1; the code returns -2 (`phase2/phase2.c:416-417`, `phase2/phase2.c:453-454`), and the model follows the code.

## Model

| member | source | states |
|---|---|---|
| SlotLedger.Conservation | phase2/phase2.c:302-310 | free slots, queued slots and lost slots always add up to MAXSLOTS |
| SlotLedger.AtMostOnce | phase2/phase2.c:388-389 | no slot index is in two places, or twice in one, among free stack, rings and lost slots |
| SlotLedger.Ownership | phase2/phase2.c:302-310 | the free prefix and all rings are duplicate-free and pairwise disjoint |
| SlotLedger.UnusedIsFree | phase2/phase2.c:111-116 | a slot is marked unused exactly if it is on the free stack, and then it is nowhere else |
| SlotLedger.StackHasRoom | phase2/phase2.c:389 | pushing a freed slot never overruns the free stack |
| SlotLedger.InitialInv | phase2/phase2.c:99-120 | the state phase2_init leaves satisfies the invariant |
| SlotLedger.StoreKeepsInv | phase2/phase2.c:302-310 | moving the top free slot into a ring keeps every slot accounted for once |
| SlotLedger.TakeKeepsInv | phase2/phase2.c:378-392 | so does removing the oldest one, whether it is freed or lost |
| SlotLedger.ReleaseKeepsInv | phase2/phase2.c:175-203 | so does a release, which loses every queued slot |
| SlotLedger.CreateKeepsInv | phase2/phase2.c:135-168 | so does creating a mailbox in a closed entry |
| RingBuffers.PushWindow | phase2/phase2.c:308-310 | a push into a ring that is not full appends to its window and overwrites none of it, tail staying at (head + count) mod capacity |
| RingBuffers.PopWindow | phase2/phase2.c:378-380 | a pop removes the front of the window |
| MailboxFifo.StoreView | phase2/phase2.c:302-310 | a stored message is appended, content and length, to one queue; no other queue changes although the slots are shared |
| MailboxFifo.TakeView | phase2/phase2.c:378-392 | the oldest message comes out whole or is reported cut off, and no other queue changes |
| MailboxFifo.CreateRefines | phase2/phase2.c:135-168 | MboxCreate opens a closed mailbox with an empty queue, or fails and changes nothing |
| MailboxFifo.ReleaseRefines | phase2/phase2.c:175-203 | MboxRelease closes exactly its mailbox |
| MailboxFifo.SendRefines | phase2/phase2.c:244-317 | as far as messages and slots go, MboxSend up to its return or blockMe is a step of the queue specification: which outcome, and what changes (at a zero-slot mailbox: that it blocks or returns 0, while which of the two is MailboxWaiters.BlocksExactly) |
| MailboxFifo.SendLoopRefines | phase2/phase2.c:280-316 | the same for MboxSend from blockMe on |
| MailboxFifo.RecvRefines | phase2/phase2.c:326-393 | the same for MboxRecv |
| MailboxFifo.Refines | phase2/phase2.c:244-471 | every slice of every call keeps the invariant and is a step on independent queues of messages |
| MailboxFifo.AddressedStep | phase2/phase2.c:303-305 | every slot in a ring carries the id of the mailbox it is in |
| MailboxWaiters.BlocksExactly | phase2/phase2.c:255-372 | a call blocks if and only if: it sends to an open zero-slot mailbox whose consumer pointer is empty, or to a full one while the pool is not empty; it receives from an open zero-slot mailbox with no recorded sender, or from an empty one; or its resumed send finds the mailbox full again |
| MailboxWaiters.WaitersExactly | phase2/phase2.c:175-393 | what each outcome does to the lists of blocked senders and receivers, to both pointers and to the shadow processes of its mailbox, and whom it unblocks: a caller that blocks is recorded if the list has room; a receive from a zero-slot mailbox takes the first recorded sender off the list and unblocks it; a send to one unblocks the process it points at; no other mailbox changes |
| MailboxWaiters.CreatesExactly | phase2/phase2.c:135-149 | MboxCreate succeeds if and only if slots and size are in range, MAXSLOTS and 150 included, and an entry is closed, and then opens the first closed one |
| MailboxWaiters.KeepsPromise | phase2/phase2.c:135-471 | all of this and the queue specification hold of every slice |
| MailboxWaiters.PromiseDecides | phase2/phase2.c:135-471 | and decide it: two effects that satisfy them have the same answer, queues, free count, lists, pointers, shadow processes and unblocked pids |
| MailboxWaiters.BlockedCallGoesOn | phase2/phase2.c:266-393 | a process that blocks is not resumed before it is unblocked, and then does the rest of the same call with the same message or buffer |
| MailboxWaiters.SendersMetInOrder | phase2/phase2.c:337-345 | over any run that does not release it: receives from a zero-slot mailbox let its recorded senders go one at a time, in the order they were recorded, and nothing else does |
| MailboxKernel.MailKernel.constructor | phase2/phase2.c:99-120 | the arrays phase2_init leaves |
| MailboxKernel.MailKernel.BootedValid | phase2/phase2.c:99-120 | they are a valid kernel, equal to the initial state on values |
| MailboxKernel.MailKernel.MboxCreate | phase2/phase2.c:135-168 | in place, the scan and the new ring keep the kernel valid and have exactly the effect on values |
| MailboxKernel.MailKernel.MboxRelease | phase2/phase2.c:175-203 | in place, with the loops over both lists of blocked pids; all are unblocked in order |
| MailboxKernel.MailKernel.WakeupConsumer | phase2/phase2.c:210-219 | the shift loop takes the first recorded consumer off, unblocks it, and keeps every other list |
| MailboxKernel.MailKernel.WakeupProducer | phase2/phase2.c:226-235 | the same for producers |
| MailboxKernel.MailKernel.RecordProducer | phase2/phase2.c:284-295 | the search loop records a pid exactly if it is not recorded and the list has room |
| MailboxKernel.MailKernel.MboxSend | phase2/phase2.c:244-317 | in place, up to return or blockMe: same outcome, state and unblocked pids as on values |
| MailboxKernel.MailKernel.MboxSendResume | phase2/phase2.c:297-316 | in place, from blockMe in the wait-if-full loop on |
| MailboxKernel.MailKernel.MboxRecv | phase2/phase2.c:326-393 | in place, up to return or blockMe |
| MailboxKernel.MailKernel.MboxRecvResume | phase2/phase2.c:370-393 | in place, from blockMe on |
| MailboxKernel.MailKernel.MboxCondSend | phase2/phase2.c:403-434 | in place, whole |
| MailboxKernel.MailKernel.MboxCondRecv | phase2/phase2.c:444-471 | in place, whole |
| MailboxRuns.AfterOk | phase2/phase2.c:244-471 | every action a process can take is possible in the model and keeps the system well-formed |
| MailboxRuns.QueueLawStep | phase2/phase2.c:302-310 | between create and release, accepted messages are the removed ones followed by the queued ones, whichever mailbox acts |
| MailboxRuns.OrderLawStep | phase2/phase2.c:226-235 | pids woken so far followed by those still recorded are the recorded ones in order |
| MailboxRuns.LossStep | phase2/phase2.c:382-383 | a slot is lost exactly at a receive into a short buffer, and with every message a release drops |
| MailboxRuns.ProcsAfter | phase2/phase2.c:297-316 | a slice changes only its caller and the processes it unblocks |
| MailboxRuns.EveryRun | phase2/phase2.c:99-471 | from boot, whatever the processes do: queue law and wake order for every mailbox, and conservation of slots |
| ProducerWakeups.RecordingStep | phase2/phase2.c:284-299 | every recorded producer is blocked in a send to that mailbox, and recorded once, unless a receiver-side wake hits one of them |
| ProducerWakeups.StrandsExactly | phase2/phase2.c:280-391 | a mailbox with a recorded producer never has more empty slots than woken producers that have not resumed; from any state of the system in which this holds of a mailbox, a step breaks it if and only if the woken ones are no more than the empty slots and the step cuts a message off with a producer recorded, underflows the pool with one recorded, or delivers a message and wakes a recorded process that is not blocked in a send there with another one recorded behind it |
| ProducerWakeups.LawThroughoutExactly | phase2/phase2.c:175-393 | over a run, this holds of a mailbox at every moment if and only if no step is of that kind |
| ProducerWakeups.NoWakeupLostExactly | phase2/phase2.c:99-393 | the same for every run from boot |
| ReceiverWakes.TargetsAreWoken | phase2/phase2.c:186-218 | whom a call unblocks as a receiver, read off the state before it: the first of the list, the process whose shadow the mailbox refers to, or the whole list |
| ReceiverWakes.RecordsExactly | phase2/phase2.c:175-393 | every recorded sender of every mailbox is blocked in that send, and recorded once; a step keeps this if and only if, before it, none of the pids it unblocks as receivers is recorded as a sender elsewhere |
| ReceiverWakes.RecordsThroughoutExactly | phase2/phase2.c:175-393 | so the records are right at every moment of a run if and only if no step unblocks such a pid |
| CarefulRuns.ReceiversStep | phase2/phase2.c:345-372 | recorded receivers of a slot mailbox are distinct and blocked there, and the process a mailbox points at is inside a receive from it, as long as actions are careful |
| CarefulRuns.SteadyStep | phase2/phase2.c:175-471 | a careful action keeps all of this, cuts no message off, underflows no pool, misdirects no wake-up and strands no sender |
| CarefulRuns.WaitersMeanFull | phase2/phase2.c:226-300 | over runs from boot whose actions are careful (mailboxes within the pool and on ids with nothing left over, receive buffers as large as the slots, a call that is about to block in a zero-slot send or in a receive does not share its shadow process with a process inside a call, no release of a zero-slot mailbox on whose list a process has left its receive): no wake-up is ever lost, and with nobody in transit a recorded producer means the mailbox is full; no message is cut off and no pool underflows |
| ProducerWakeups.ReleaseWakesAll | phase2/phase2.c:179-184 | release wakes all recorded producers in the order they were recorded |
| ProducerWakeups.ReleasedSendersFail | phase2/phase2.c:263-299 | however late a sender of a released mailbox resumes, it returns -1 and the kernel is unchanged |
| BadRuns.AWakeupIsLost | phase2/phase2.c:186-190 | a run from boot, without short buffers or underflow, that leaves a recorded producer waiting at an empty mailbox with nobody in transit |
| BadRuns.AWakeupGoesAstray | phase2/phase2.c:256-259 | another, without any release, through the shadow process that processes 1 and 6 share when MAXPROC is 5 |
| BadRuns.AShortBufferLosesOne | phase2/phase2.c:382-383 | another, through a receive into a buffer of no bytes |
| BadRuns.AnUnderflow | phase2/phase2.c:297-302 | a run from boot after which a resumed sender takes a slot from the empty pool |
| PoolSufficiency.RoomMeansFreeSlot | phase2/phase2.c:276-302 | if open capacities plus lost slots fit in the pool, a mailbox with room implies a free slot |
| PoolSufficiency.FaultExactly | phase2/phase2.c:297-302 | exactly when a resumed sender underflows the free stack or uses a ring of no capacity |
| PoolSufficiency.PoolNeverUnderflows | phase2/phase2.c:276-302 | over provisioned runs no sender ever does, although the pool is tested once, before the loop |
| TerminalLock.LockReleased | phase4a/phase4a.c:181 | the unlocking receive finds the message and never blocks |
| TerminalLock.LockedExactly | phase4a/phase4a.c:172-181 | at most one holder, exactly while the lock message is queued: a step of a writer, or any step of anyone else, keeps this if and only if it is not a writer starting, or resuming at a free lock, with the slot pool empty |
| TerminalLock.LockedThroughoutExactly | phase4a/phase4a.c:172-181 | so it holds at every moment of a run if and only if the run has no such step |
| TerminalLock.WritesAreAtomic | phase4a/phase4a.c:172-181 | over runs without such a step: at most one holder, and the screen is whole buffers followed by a prefix of the holder's |
| TerminalLock.SpareSlotKeepsLock | phase4a/phase4a.c:172-193 | a run has none if the capacities of the open mailboxes always leave one slot of the pool over |
| TerminalLock.NewLock | phase4a/phase4a.c:193 | a lock created by phase4_init starts free |
| TerminalLock.LockSkippedExactly | phase4a/phase4a.c:172 | a writer that asks for the lock, or asks again after it waited, writes and leaves the lock as it was if and only if its step is of that kind |
| TerminalLock.UnlockBlocksExactly | phase4a/phase4a.c:181 | the unlock blocks if and only if the lock mailbox is empty |
| BypassedLock.ALockFails | phase4a/phase4a.c:172-181 | a run from boot with an empty pool: two holders, a screen with characters of both, and an unlock that blocks |
| TerminalLines.FramingIsWellFormed | phase4a/phase4a.c:82-94 | lines are 1 to MAXLINE characters, newline only last, and without one exactly MAXLINE |
| TerminalLines.FramingIsLossless | phase4a/phase4a.c:82-94 | finished lines and the unfinished one concatenate to the characters received |
| TerminalLines.FramingIsUnique | phase4a/phase4a.c:84 | two framings of one stream with that shape are equal, so shape and losslessness define the driver's output |
| TerminalLines.SentIsStreamExactly | phase4a/phase4a.c:88 | the lines as sent, up to strlen, hold the stream if and only if no finished line contains a NUL |
| TerminalKernel.TermBuffer.OnChar | phase4a/phase4a.c:80-95 | in place, on the mailbox kernel: the buffer never overruns; the conditional send takes a finished line if mailbox and pool have room, and drops it whole otherwise |
| TerminalKernel.TermBuffer.TermRead | phase4a/phase4a.c:137-160 | in place, on the mailbox kernel: the oldest line in the mailbox, cut to the user's size, or the caller blocks |
| TerminalKernel.TermBuffer.TermReadResume | phase4a/phase4a.c:148-160 | after it blocked: the oldest line, or -1 if and only if the mailbox is empty again |
| TerminalInput.CharFed | phase4a/phase4a.c:80-95 | over the system: a finished line is taken if and only if mailbox and pool have room, and then it is the last line the mailbox accepted |
| TerminalInput.ReadGetsNext | phase4a/phase4a.c:147-160 | a reader gets the first accepted line that no reader has got; with none left it blocks, or fails if it is resuming |
| TerminalInput.LinesInOrder | phase4a/phase4a.c:68-160 | over any run: lines read, then lines queued, are exactly the lines of the stream that were taken, in order, each once and whole |
| TerminalInput.NewLineBox | phase4a/phase4a.c:194 | a mailbox created by phase4_init starts such a run |
| BadRuns.AReaderFails | phase4a/phase4a.c:148-152 | a run from boot in which a resumed reader gets -1 from an open mailbox |
| SleepKernel.ClockDriver.BeginTick | phase4a/phase4a.c:108-109 | in place: the tick is counted and the scan begins |
| SleepKernel.ClockDriver.TakeNext | phase4a/phase4a.c:111-114 | in place, on the mailbox kernel: a due request at the front leaves the mailbox and its process is woken; an undue one is in the driver's hands, and the kernel has room for it; an empty mailbox ends the scan |
| SleepKernel.ClockDriver.PutBack | phase4a/phase4a.c:114-118 | in place, up to return or blockMe: the request goes to the end if and only if mailbox and pool have room by then; with an empty pool it is gone, and with a full mailbox the driver blocks |
| SleepKernel.ClockDriver.PutBackResume | phase2/phase2.c:297-316 | the same send from blockMe on |
| SleepKernel.ClockDriver.ClockTick | phase4a/phase4a.c:108-119 | an uninterrupted tick ends, wakes exactly the maximal due prefix in order and moves the first undue request to the end |
| SleepKernel.ClockDriver.SysSleep | phase4a/phase4a.c:125-135 | negative seconds fail; otherwise the request for the right tick is stored last if and only if the pool has a slot and the mailbox has room; with an empty pool nothing is stored and the caller goes on to block |
| SleepKernel.ClockDriver.SysSleepResume | phase2/phase2.c:297-316 | a sleeper whose send had blocked stores its request if and only if there is room and a free slot by then |
| SleepKernel.RoundTrip | phase4a/phase4a.c:36-39 | a request that fits the struct's two 32-bit ints is read back as it was stored |
| SleepQueue.NotStoredNotWoken | phase4a/phase4a.c:111-113 | a request that is never stored is never woken |
| SleepQueue.BoundedLateness | phase4a/phase4a.c:104-122 | a due request with k ahead of it is woken within k further ticks, whatever arrives, in the middle of a scan or between the driver's receive and its put-back |
| SleepQueue.SleepIsAtMostQueueLate | phase4a/phase4a.c:104-135 | a sleeper is late by fewer ticks than there are requests queued when it becomes due |
| SleepQueue.NeverEarly | phase4a/phase4a.c:112-113 | nobody is woken before its tick |
| SleepQueue.NeverLost | phase4a/phase4a.c:111-118 | over a run, every request that arrived is queued, in the driver's hands or was woken, as often as it arrived |
| SleepRuns.AsMeantExactly | phase4a/phase4a.c:104-135 | on runs of the whole system, with anyone acting between the driver's steps: as long as nobody waits at the clock mailbox and it has room for what the driver holds, a step is the step of the queue of sleepers it is meant to be, and keeps this, if and only if it is not a request too many or a store with the pool empty |
| SleepRuns.AllAsMeantExactly | phase4a/phase4a.c:104-135 | so every step of a run does what it is meant to if and only if none is of that kind |
| SleepRuns.RunsAsMeant | phase4a/phase4a.c:104-135 | such a run of the system is a run of the queue of sleepers, so everything proved of those holds of it |
| SleepRuns.LateByAtMost | phase4a/phase4a.c:104-135 | in the system, a due request with k ahead of it is woken within k further ticks |
| SleepRuns.OneEachFits | phase4a/phase4a.c:57 | there is no such step if the open mailboxes fit in the pool, each process has at most one request out and the clock mailbox has a slot for every process but the driver |
| SleepRuns.PutBackExactly | phase4a/phase4a.c:114-118 | in any state: the put-back stores the request, leaves the driver blocked at its own full mailbox, or drops the request, and exactly when it does which |
| SleepRuns.StuckForGood | phase4a/phase4a.c:104-135 | once it is blocked there, then whatever anyone does: no tick begins, nobody is woken, and the driver never gets on |
| SleepRuns.NewClock | phase4a/phase4a.c:57 | a clock mailbox that has just been created starts empty and with room |
| StuckDriver.ADriverBlocks | phase4a/phase4a.c:111-118 | a run from boot, with a clock mailbox of one slot, in which this happens to two sleepers |
| SleepKernel.TakesOldest | phase4a/phase4a.c:111 | the driver's conditional receive takes the oldest request whole, and leaves a free slot and room for the put-back |
| Semaphores.SemTable.SysSemCreate | phase3/phase3.c:79-106 | in place, with the scan for an unused entry |
| Semaphores.SemTable.SysSemP | phase3/phase3.c:111-127 | in place, up to the receive |
| Semaphores.SemTable.SysSemV | phase3/phase3.c:132-148 | in place, with the rendezvous |
| Semaphores.AnswersExactly | phase3/phase3.c:79-148 | P and V are refused if and only if the index is out of range or the semaphore is not in use; P then lowers the value and waits if and only if it was not positive; V raises it and wakes one waiting process if and only if it was negative; creation is refused if and only if the value is negative or all are in use, and otherwise sets up the first unused one |
| Semaphores.LawStep | phase3/phase3.c:111-148 | every call keeps every semaphore's law, and V never blocks in its send |
| Semaphores.OthersUnchanged | phase3/phase3.c:79-148 | semaphores are independent |
| Semaphores.SemaphoreLaw | phase3/phase3.c:79-148 | from creation with value v on: value is v + #V - #P, blocked and waiting are max(0, -value), completed P calls are min(#P, v + #V), and holders never exceed v |
| Semaphores.SemaphoreLawFromInit | phase3/phase3.c:160-165 | the same in every run from phase3_init, whatever calls came before the creation |
| Semaphores.WaitersConserved | phase3/phase3.c:111-148 | over any run, each process that had to wait at a semaphore was let go as often, or still waits there |
| LinkedSlots.FindAndUnlink | phase1b-archive/phase1b.c:591-604 | walking the links and relinking removes exactly that slot and keeps the rest in order |
| LinkedSlots.AppendLink | phase1b-archive/phase1b.c:240-250 | walking to the end and linking appends, from any list, the empty one included |
| LinkedSlots.Unlink | phase1b-archive/phase1b.c:326-336 | unlinking through the predecessor removes exactly that place |
| LinkedSlots.OthersLinked | phase1b-archive/phase1b.c:212-250 | lists through one array of links do not disturb each other |
| ProcessTable.NewPid | phase1b-archive/phase1b.c:191-194 | the skip loop ends within three tries and skips only pids that are 1 or 2 modulo 50 |
| ProcessTable.FreeSlotIsCircularFirst | phase1b-archive/phase1b.c:166-185 | the two-part scan fails if and only if no slot is free, and otherwise finds the first free one in circular order |
| ProcessForest.AddKeepsForest | phase1b-archive/phase1b.c:212-236 | a new process is on exactly its parent's chain, and chains stay disjoint and duplicate-free |
| ProcessForest.AddKeepsQueues | phase1b-archive/phase1b.c:239-250 | queue p still holds exactly the live processes of priority p, in increasing pid order |
| ProcessForest.ReapKeeps | phase1b-archive/phase1b.c:321-338 | reaping a terminated child keeps forest, queues, pids and statuses |
| ProcessForest.TerminateKeepsQueues | phase1b-archive/phase1b.c:372-399 | quit takes exactly the caller out of its queue and leaves every queue in pid order |
| ProcessForest.TerminateKeeps | phase1b-archive/phase1b.c:366-399 | quit of a childless process leaves no child with a terminated parent |
| ProcessForest.DispatchKeeps | phase1b-archive/phase1b.c:492-531 | the process switched to is in use and runnable |
| ProcessForest.ChoiceIsFirstHead | phase1b-archive/phase1b.c:499-504 | it is the head of a queue, and no earlier queue has a head that is not blocked |
| JoinWakeups.StepMissesNone | phase1b-archive/phase1b.c:344-383 | no call leaves a process blocked in join with a terminated child |
| JoinWakeups.JoinMissesNoQuit | phase1b-archive/phase1b.c:344-383 | so over any run join never sleeps through a quit |
| JoinWakeups.JoinMissesNoQuitFromBoot | phase1b-archive/phase1b.c:89-383 | and over any run from boot |
| ProcessRuns.RunningMayCall | phase1b-archive/phase1b.c:591-593 | a running process never indexes a ready queue out of range |
| ProcessRuns.StepKeeps | phase1b-archive/phase1b.c:145-531 | spork, join, quit and the dispatcher each keep the whole invariant |
| ProcessRuns.EveryRun | phase1b-archive/phase1b.c:89-531 | from boot: the child forest, the ready queues and exactly-once reaping hold after any calls |
| ProcessRuns.StepReaping | phase1b-archive/phase1b.c:301-373 | the log of reaped children holds only terminations from the log of quits, with the caller as their parent, and no pid twice in either; that these logs are the answers of join and the calls of quit is ProcessCalls.LogsAreAnswers |
| ProcessRuns.PidsIncrease | phase1b-archive/phase1b.c:191-194 | over a run the pids spork returns strictly increase and are never 1 or 2 modulo 50 above 2 |
| ProcessRuns.KidsStep | phase1b-archive/phase1b.c:301-349 | only a process's own calls change its children; a join that returns a pid leaves one fewer |
| ProcessRuns.TerminateReapsFirst | phase3/phase3.c:15-24 | however others interleave, the join loop gets one pid for each child it loses, and when join returns -2 the quit ends the process and never halts the system |
| ProcessCalls.WhoRunsNext | phase1b-archive/phase1b.c:254-531 | spork of a priority not below the caller's, join without a terminated child, quit without children and the dispatcher end in the dispatcher: then the head of the first ready queue with a head that is not blocked runs, in the queues the call leaves, or the system halts if that is the caller or nobody; after any other call the caller runs on, and quit with children halts |
| ProcessCalls.KeepsPromise | phase1b-archive/phase1b.c:145-531 | what each call answers, and every field it changes: which errors, slot and pid, chain and queue of a new process; which child join returns, with its pid and status; what quit stores and whom it wakes |
| ProcessCalls.PromiseDecides | phase1b-archive/phase1b.c:145-531 | two results that satisfy this are equal |
| ProcessCalls.LogsAreAnswers | phase1b-archive/phase1b.c:301-373 | over any run, the log of reaped children grows by exactly what join returned, and the log of quits by the callers and arguments of quit |
| ProcessCalls.JoinsAnswerQuits | phase1b-archive/phase1b.c:89-383 | in any run from boot, every pid and status that join returns are those of a quit by a child of the caller, and no quit is answered twice |
| ProcessCalls.InitComesFirst | phase1b-archive/phase1b.c:89-194 | from boot the dispatcher runs init, with pid 1; the first process it sporks has pid 2 and runs at once |
| JoinOrder.StepArranged | phase1b-archive/phase1b.c:217-230 | every call keeps each chain in this order: children of at least the parent's priority, newest first, then the others, oldest first |
| JoinOrder.JoinReturnsFirst | phase1b-archive/phase1b.c:316-338 | in any run from boot, a join that finds terminated children returns the first of them in that order, with its pid and status |
| ProcessKernel.Phase1.constructor | phase1b-archive/phase1b.c:89-129 | phase1_init establishes the invariant |
| ProcessKernel.Phase1.FindSlot | phase1b-archive/phase1b.c:166-180 | the two scan loops |
| ProcessKernel.Phase1.AllocPid | phase1b-archive/phase1b.c:191-194 | the do-while loop |
| ProcessKernel.Phase1.LinkChild | phase1b-archive/phase1b.c:212-236 | in place: the child goes to the end or the front of exactly its parent's chain |
| ProcessKernel.Phase1.Spork | phase1b-archive/phase1b.c:145-259 | in place: same result and table as on values, links of every chain and queue intact |
| ProcessKernel.Phase1.Join | phase1b-archive/phase1b.c:301-349 | in place: the first terminated child in list order is unlinked and returned, or the caller blocks |
| ProcessKernel.Phase1.Quit | phase1b-archive/phase1b.c:358-401 | in place: a caller with children halts; otherwise it leaves its queue, a joining parent is woken, and the dispatcher runs |
| ProcessKernel.Phase1.Dispatcher | phase1b-archive/phase1b.c:492-531 | in place: the first queue head that is not blocked runs, or the system halts |
| TermOrderJoin.StepKeeps | phase1a-archive/phase1a.c:102-283 | every call keeps each terminated process's order equal to its last place in the log of quits, and the lists disjoint |
| TermOrderJoin.EveryRun | phase1a-archive/phase1a.c:62-283 | so it holds after any calls from boot |
| TermOrderJoin.LatestFirstIsAllDead | phase1a-archive/phase1a.c:213-222 | the order in which join returns children holds exactly the terminated ones |
| TermOrderJoin.LatestFirstIsSorted | phase1a-archive/phase1a.c:211-218 | and it is strictly decreasing in termination order |
| TermOrderJoin.JoinTakesLatest | phase1a-archive/phase1a.c:202-243 | one join returns the first of that order and leaves the rest of it |
| TermOrderJoin.JoinsAreLatestFirst | phase1a-archive/phase1a.c:202-243 | any number of joins in a row return them in that order with their own statuses, then -2; the others keep list order |
| TermOrderCalls.KeepsPromise | phase1a-archive/phase1a.c:102-283 | what each call answers, and every field it changes: the pid is used up even if the slot is taken; quit stores its status and stamps the caller; join frees the slot of the child that quit last |
| TermOrderCalls.PromiseDecides | phase1a-archive/phase1a.c:102-283 | two results that satisfy this are equal |
| TermOrderCalls.JoinAnswersLastQuit | phase1a-archive/phase1a.c:62-243 | in any run from boot, a join that finds a terminated child returns the one whose last quit is the latest in the run, with the status of that quit |
| TermOrderJoin.Phase1a.Spork | phase1a-archive/phase1a.c:152-197 | in place: the child goes to the end of the caller's list, or the slot is taken and the pid is used up |
| TermOrderJoin.Phase1a.QuitTo | phase1a-archive/phase1a.c:102-132 | in place: the caller is stamped, and the named process runs or the system halts |
| TermOrderJoin.Phase1a.SwitchTo | phase1a-archive/phase1a.c:247-283 | in place: the first slot with the pid runs, or the system halts |
| TermOrderJoin.Phase1a.LatestChild | phase1a-archive/phase1a.c:209-222 | the scan loop finds the terminated child with the highest order |
| TermOrderJoin.Phase1a.UnlinkChild | phase1a-archive/phase1a.c:228-236 | the loop that finds the predecessor, and the unlink, remove exactly that child |
| TermOrderJoin.Phase1a.Join | phase1a-archive/phase1a.c:202-243 | in place: same result and table as on values |

## Left out

Not modelled:

- USLOSS calls, contexts, processor modes, console output, interrupt and syscall vectors, waitDevice, dumpProcesses, the user-mode wrappers, service start-up and malloc failure. Halting ends a run; device output appends to a log.
- phase2/donk.c, which is commented out, and the clock mailbox that phase2_init creates after the state modelled here.
- Width of C integers: pids, ticks and semaphore values are unbounded.
- The mailbox kernel's ring is a value in an array, so aliasing between malloc blocks is not modelled; the C arrays' own bounds are.
- unblockProc makes a process blocked in a mailbox call runnable and has no effect on any other. That it may dispatch at once is modelled where it is the last effect of a call. Two calls go on after it and are one step here: MboxRelease, which frees the ring afterwards, and a zero-slot MboxSend, which clears the consumer pointer afterwards.
- zap, blockMe and unblockProc of phase 1b, and with them its loop over zapped processes in quit: they insert processes into a queue they are still in, so the queue invariant is about spork, join, quit and the dispatcher.
- Names, stacks, start functions and entry points of processes; parent pointers and priorities of phase 1a, which only its process wrapper and process dump read.
- kernSemCreate, kernSemP and kernSemV, a second protocol on the table of semaphores.
- Argument checks of TermWrite other than its buffer being valid; a driver's status other than a received character; failure of MboxCreate inside SemCreate.

Stated for less than everything:

- CarefulRuns.WaitersMeanFull: about recorded producers (the eleventh waiter of a mailbox blocks unrecorded). Its hypothesis on actions is sufficient; what is necessary and sufficient, step by step, is ProducerWakeups.StrandsExactly.
- ProducerWakeups.ReleasedSendersFail: as long as the id is not created again, because the resumed code rechecks only that the mailbox is open.
- PoolSufficiency.PoolNeverUnderflows: for runs in which no id is created again while a sender of its earlier life is pending.
- Receivers: nothing is claimed about their wake-ups, because one pointer remembers only the last of several.
- SleepKernel.ClockDriver.SysSleep: what sys_sleep does after its send, its own blockMe, is not modelled, so neither is a process that another unblockProc takes out of it early.
- SleepRuns.LateByAtMost: in ticks that the driver begins; a tick of the clock that comes while it is still in its loop is not counted, as the code does not count it.
- TerminalKernel.TermBuffer.TermReadResume: for a line mailbox that has not been released, which phase 4 never does.
- Semaphores.LawStep: calls are atomic steps and the zero-slot mailbox is an abstract rendezvous, since phase 3 links a mailbox library of its own.
- ProcessKernel.Phase1.Quit: the loop over zapped processes is not modelled, as zap is not.
- ProcessKernel.Phase1.Join: a caller that found no terminated child returns to the scan by calling again once it runs; the dispatcher looks only at the heads of the queues, so no claim is made about the highest runnable priority.
