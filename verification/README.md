# Verified models of the Linux template programs

The repository is a collection of small Linux programs. This project models the ones that are complete
protocols or algorithms, and proves what their own code makes true for every input and every schedule.

| module | program | what it is |
|---|---|---|
| `ThreadReaper`, `PassRange` | `thread_template/condition/condition.cpp` | N workers announce their end under a mutex and a condition variable; main joins them |
| `ChildReaper`, `SignalRange` | `process_template/sigchld/sigchld.cpp` | N children, and inherited ones, reaped from a SIGCHLD handler whose signals coalesce |
| `EpollDrain` | `io_template/epoll/epoll.cpp` | FIFOs drained from event snapshots of at most five descriptors, which may share a FIFO |
| `PipeKernel` | the kernel's side of the three pipe programs | descriptor tables, reader and writer counts, the buffer |
| `PipeFilter` | `process_comm_template/pipe_filter/pipe_filter.cpp` | producer and consumer connected as a filter |
| `PipeBarrier` | `process_comm_template/pipe_sync/pipe_sync.cpp` | end of file as a barrier for N children |
| `PipeCopy` | `process_comm_template/pipe/pipe.cpp` | chunked copy from parent to child |
| `MutexCounter`, `IncrementOrder` | `thread_template/mutex/mutex.cpp` | two threads incrementing a counter by load and store |
| `Readline` | `socket_template/readline/readline.cpp` | the bounded line reader |
| `TimerSpec`, `TimerLoop` | `timer_template/timerfd/timerfd.cpp` | the in-place parser and the expiration loop |
| `Runs`, `Sums`, `Integers` | | runs of labelled step systems, finite sums, and the ranges of int, long long and size_t |

## How a concurrent program is modelled

- A `State` holds the program's variables, a program counter for each thread or process, and the kernel
  state it depends on (mutex owner, pending signal, signal mask, descriptor tables, buffers).
- `Step(s, label)` is the state after the labelled actor has made one atomic step, or `None` when that
  step is blocked. A label names who moves and carries the kernel's choices (which descriptors are
  ready, how many bytes a read returns, which zombie is reaped). Sleeping is "may step later".
- A sequence of labels is a schedule. `Runs.Run` executes it, `Runs.Reachable` holds of the states that
  some schedule reaches, and the theorems quantify over all of them.
- Class `Program` of each module holds the same variables and updates them in place, one atomic step per
  call. `Performs` states its contract: the new state is exactly the specified one, or the step is
  blocked and nothing changed. Each method also keeps the invariant.
- "Possible" theorems say in every reachable state exactly which steps can be made, so that no schedule of
  the program is missing; `PassRange`, `SignalRange` and `IncrementOrder` construct the schedules that
  reach every order and every count.
- "Bounded" theorems give an explicit limit on the length of every schedule; together with the
  "deadlock free" theorems they say that every schedule that goes on as long as it can ends in the final
  state. Spurious wakeups, stops of a child and interrupted calls are environment steps that are counted
  and charged for, not excluded.

Primitives follow POSIX.1-2017: the pages of pthread_cond_wait, pthread_join, sigsuspend, waitpid, read,
write, open, close, dup2 and fork, and section 2.4.1 of the System Interfaces volume on signal generation and
delivery. Automatic induction is switched off for all lemmas: each proof names its own induction.

## Where the code differs from its comments

- `Readline` is documented to read at most n bytes and to return the number of bytes read. It stores at
  most n - 1, goes on consuming the line when the buffer is full, and returns the number stored; the
  model follows the code (`Readline.Readline`, `Readline.TakesFirstLine`).
- `Readline` leaves the buffer without a terminating NUL at end of file when nothing was stored, also
  when it did consume bytes because n is 1 (`Readline.Terminated`).
- The millisecond field of `timerfd` is printed after the decimal point of the seconds but is rounded
  without a carry: it is 1000 exactly for the last half millisecond of a second
  (`TimerLoop.MillisField`, with an instance in `TimerLoop.FieldOverflows`).
- `pipe_sync` is described as a barrier, and is one unless the write end of the pipe is standard output.
  Then a child's message, which goes out before the child closes, ends the parent's read
  (`PipeBarrier.FailsExactly`).
- `pipe` is described as a copy, and is one if and only if standard output was open at the start
  (`PipeCopy.SucceedsExactly`).
- `epoll` accepts a file that is named twice. Then a read can block although its descriptor was reported
  readable, and an open can block for good (`EpollDrain.ReadBlocksExactly`, `EpollDrain.OpenBlocksExactly`).
- The total in `timerfd` is an int and wraps around in the model. The printed counts are exact if and only
  if the expirations stay within int (`TimerLoop.CountsExactly`), and the loop stops at max_loop if and
  only if the low 32 bits of the expirations there have reached it and are not negative as an int
  (`TimerLoop.StopsExactly`, with an instance in `TimerLoop.TotalOverflows`).
- `sigchld` reports at its end that all children have terminated. A process keeps its children across
  exec, waitpid(-1) and wait return those too, and with such a child the report can be wrong
  (`SignalRange.LeavesChildExactly`). The parents of `pipe_filter` and `pipe` can then leave a child behind
  as well (`PipeFilter.LeavesChildExactly`, `PipeCopy.LeavesChildExactly`).

## Model

| member | source | states |
|---|---|---|
| ThreadReaper.NoLostWakeup | thread_template/condition/condition.cpp:51-107 | In every reachable state where main waits on the condition while `num_unjoined` is positive, some worker has incremented it and has yet to signal |
| ThreadReaper.SignalledWakeFindsWork | thread_template/condition/condition.cpp:59-107 | A main that was woken by a signal, not spuriously, finds `num_unjoined` positive |
| ThreadReaper.CountsWhenFree | thread_template/condition/condition.cpp:51-119 | Whenever the mutex is free, `num_unjoined` is the number of TERMINATED entries and, from line 91 on, `num_live` the number of entries not JOINED |
| ThreadReaper.OnlyHolderWrites | thread_template/condition/condition.cpp:46-124 | Every step that changes `num_unjoined` or an entry's state is made by the holder of the mutex |
| ThreadReaper.PassReapsAll | thread_template/condition/condition.cpp:110-124 | When a pass ends, no announced thread is left unjoined and `num_live` is smaller than when the pass began |
| ThreadReaper.FreedAfterAllReturned | thread_template/condition/condition.cpp:93-130 | When the array is freed every worker has returned and was joined |
| ThreadReaper.JoinedOnce | thread_template/condition/condition.cpp:111-117 | In any run pthread_join is called at most once for a thread, and exactly once in a finished run |
| ThreadReaper.EntriesAdvance | thread_template/condition/condition.cpp:52-117 | An entry only goes from ALIVE to TERMINATED, by its own thread, and from there to JOINED, by main |
| ThreadReaper.DeadlockFree | thread_template/condition/condition.cpp:46-129 | Before the end some thread can always move, also while main joins with the mutex held, without needing a spurious wakeup |
| ThreadReaper.RunsAreBounded | thread_template/condition/condition.cpp:79-131 | Every schedule of n workers has at most 5n² + 19n + 9 steps, plus 3 for each spurious wakeup |
| ThreadReaper.AtMostNPasses | thread_template/condition/condition.cpp:93-129 | Main makes at most n passes, however many wakeups are spurious |
| ThreadReaper.MaximalRunsFinish | thread_template/condition/condition.cpp:79-131 | Every schedule that goes on as long as it can, without spurious wakeups, ends with all n workers joined |
| ThreadReaper.WorkerPossible | thread_template/condition/condition.cpp:39-65 | In every reachable state a worker can move from its creation until it has signalled, also while main creates others; it waits only for a held mutex |
| ThreadReaper.MainPossible | thread_template/condition/condition.cpp:79-130 | Main is blocked exactly while it waits for a signal, for a held mutex or for the end of the thread it joins; a spurious wakeup is possible exactly while it waits for a signal |
| PassRange.EveryOrderOccurs | thread_template/condition/condition.cpp:39-87 | Any distinct workers can end and announce it in any order while main is still in its creation loop |
| PassRange.EveryPassCountOccurs | thread_template/condition/condition.cpp:79-130 | For every m from 1 to n and every w some schedule ends after m passes and w spurious wakeups, with main waiting before each pass |
| PassRange.PassesExactly | thread_template/condition/condition.cpp:93-129 | With workers the possible numbers of passes are those from 1 to n and no other, whatever the number of spurious wakeups |
| ThreadReaper.Program.StepWorker | thread_template/condition/condition.cpp:39-65 | ThreadFunc in place: each atomic step gives exactly the specified state and keeps the invariant |
| ThreadReaper.Program.CreateAndTest | thread_template/condition/condition.cpp:79-93 | Creation loop and outer loop test in place |
| ThreadReaper.Program.WaitForWork | thread_template/condition/condition.cpp:94-107 | Locking and waiting in place; the wait gives up the mutex and blocks as one step |
| ThreadReaper.Program.JoinTerminated | thread_template/condition/condition.cpp:110-128 | The joining scan in place; a join of a thread that has not returned is blocked |
| ThreadReaper.Program.StepMain | thread_template/condition/condition.cpp:79-131 | Any step of main, and the invariant it keeps |
| ThreadReaper.Program.WakeSpuriously | thread_template/condition/condition.cpp:102 | A spurious wakeup of the condition wait, and the invariant it keeps |
| ChildReaper.NoLostSignal | process_template/sigchld/sigchld.cpp:37-104 | While a dead child that main forked is not reaped, SIGCHLD is pending or the handler is still in its waitpid loop |
| ChildReaper.HandlerOnlyInSuspend | process_template/sigchld/sigchld.cpp:71-103 | While the handler runs main stands still and no second handler starts; unless children were inherited that is only inside sigsuspend |
| ChildReaper.HandlesEarlyExactly | process_template/sigchld/sigchld.cpp:65-74 | The handler can run outside sigsuspend, before SIGCHLD is blocked, if and only if there are inherited children |
| ChildReaper.LiveCount | process_template/sigchld/sigchld.cpp:37-58 | Outside the gap between waitpid and the decrement `num_live_children` is the number of children not reaped, less the inherited ones |
| ChildReaper.FinishedReapedAll | process_template/sigchld/sigchld.cpp:97-105 | When the suspend loop ends at least n children were reaped, which are all forked ones unless some were inherited; with more forked than inherited children a signal was counted |
| ChildReaper.ReapedOnce | process_template/sigchld/sigchld.cpp:37-41 | In any run a child is reaped at most once, and exactly once in a finished run without inherited children |
| ChildReaper.SigCountBound | process_template/sigchld/sigchld.cpp:96-104 | `sig_cnt` is at most the number of forked children plus the number of stop and continue events, however many children were inherited |
| ChildReaper.DeadlockFree | process_template/sigchld/sigchld.cpp:97-104 | Before the end something other than a stop can always move, so main is never suspended for good |
| ChildReaper.RunsAreBounded | process_template/sigchld/sigchld.cpp:58-105 | Every schedule has at most 10n + 5 steps, plus 9 for each inherited child and 14 for each time a child is stopped |
| ChildReaper.MaximalRunsFinish | process_template/sigchld/sigchld.cpp:58-105 | Every schedule that goes on as long as it can, stops aside, ends with every child dead and at least n reaped, all of them unless some were inherited |
| ChildReaper.ChildPossible | process_template/sigchld/sigchld.cpp:63-92 | In every reachable state a running child can exit or be stopped and a stopped one continue, also while the handler runs; each makes SIGCHLD pending exactly once the handler is installed |
| ChildReaper.ReapPossible | process_template/sigchld/sigchld.cpp:37-41 | waitpid can return any zombie, and may clear the pending signal exactly if it leaves none |
| ChildReaper.ParentPossible | process_template/sigchld/sigchld.cpp:31-104 | Main stands still exactly while the handler runs, in sigsuspend and at its end; a pending signal is delivered exactly before main blocks it and in sigsuspend; the handler leaves its loop exactly without zombies |
| ChildReaper.Program.SetUp | process_template/sigchld/sigchld.cpp:58-78 | main before it forks in place: counter, handler, mask; it stands still while a handler runs |
| ChildReaper.Program.ForkNext | process_template/sigchld/sigchld.cpp:80-92 | The forks in place |
| ChildReaper.Program.Suspend | process_template/sigchld/sigchld.cpp:97-104 | The suspend loop in place: its test, the unmasking wait and the count |
| ChildReaper.Program.StepHandler | process_template/sigchld/sigchld.cpp:37-50 | The handler in place; its loop ends only when no zombie is left |
| ChildReaper.Program.ReturnFromHandler | process_template/sigchld/sigchld.cpp:51 | The return of the handler restores the mask and ends an interrupted sigsuspend |
| ChildReaper.Program.ReapChild | process_template/sigchld/sigchld.cpp:37 | waitpid returns one of the zombies; when it leaves no other, it may discard a pending blocked SIGCHLD, as POSIX prescribes |
| ChildReaper.Program.ExitChild | process_template/sigchld/sigchld.cpp:86-88 | A child exits and SIGCHLD becomes pending, or is discarded without a handler |
| ChildReaper.Program.StopChild | process_template/sigchld/sigchld.cpp:63 | A running child is stopped, which also raises SIGCHLD because no flag excludes it |
| ChildReaper.Program.ContinueChild | process_template/sigchld/sigchld.cpp:63 | A stopped child is continued, which raises SIGCHLD again |
| ChildReaper.Program.DeliverSignal | process_template/sigchld/sigchld.cpp:98 | The pending unblocked signal starts the handler with SIGCHLD blocked |
| SignalRange.EveryCountOccurs | process_template/sigchld/sigchld.cpp:96-105 | For every m from 1 to n some schedule of n forked children, and any number of inherited ones, ends with `sig_cnt` equal to m |
| SignalRange.OnlyTheseCounts | process_template/sigchld/sigchld.cpp:96-105 | Without stop events no finished schedule ends with more than n, nor with 0 if there are more forked than inherited children |
| SignalRange.CountsExactly | process_template/sigchld/sigchld.cpp:96-105 | A count occurs if and only if it is at most n and at least 1, or at least 0 when as many children were inherited as forked |
| SignalRange.DiesWhileSleeping | process_template/sigchld/sigchld.cpp:48-88 | With two forked children or more one can die during the sleep of the handler, and is then a zombie whose signal is pending |
| SignalRange.LeavesChildExactly | process_template/sigchld/sigchld.cpp:37-105 | The loop can end, and report that all children have terminated, with a forked child unreaped if and only if some child was inherited and some forked |
| EpollDrain.NothingLost | io_template/epoll/epoll.cpp:56-87 | Bytes read, then kernel buffer, then bytes not yet sent make up each stream, and a closed descriptor was read completely, also when descriptors share a stream |
| EpollDrain.FinishedReadAll | io_template/epoll/epoll.cpp:54-90 | When the loop ends every descriptor is closed and the whole stream behind it was read |
| EpollDrain.OpenCount | io_template/epoll/epoll.cpp:51-86 | `num_open_fds` is the number of registered descriptors not closed |
| EpollDrain.MainPossible | io_template/epoll/epoll.cpp:27-90 | In every reachable state main is blocked exactly while it waits for a report, for an open whose writer is gone or for the read at hand, and at its end; an interruption is possible exactly while it waits for a report |
| EpollDrain.ReadyPossible | io_template/epoll/epoll.cpp:56 | Exactly one to five different open descriptors with data or without writer can be reported, as they are |
| EpollDrain.ReadPossible | io_template/epoll/epoll.cpp:72-78 | A read returns any number of available bytes up to 1000, from the front, or end of file exactly when the writer is gone and nothing is left |
| EpollDrain.WriterPossible | io_template/epoll/epoll.cpp:33-90 | A writer can send any piece that fits, and hang up at its end, exactly when its stream was opened |
| EpollDrain.ReportsHandledOnce | io_template/epoll/epoll.cpp:66-88 | Between a report and the next loop test each reported descriptor is read or closed exactly once, and no other is |
| EpollDrain.ReadNeverBlocks | io_template/epoll/epoll.cpp:72-78 | When no file is named twice, a descriptor reported readable still has data when its event is handled, so the read neither blocks nor sees end of file |
| EpollDrain.ReadBlocksExactly | io_template/epoll/epoll.cpp:33-78 | Some schedule blocks in a read, on a stale report, if and only if two arguments name the same stream and it carries a byte |
| EpollDrain.OpenBlocksExactly | io_template/epoll/epoll.cpp:33-38 | Some schedule is blocked in open, because the writer hung up before a second open of its stream, if and only if two arguments name the same stream and all of it fits into the kernel buffer; an open that is so blocked stays blocked in every continuation |
| EpollDrain.ClosedOnce | io_template/epoll/epoll.cpp:79-86 | In any run a descriptor is closed at most once, and exactly once in a finished run |
| EpollDrain.DeadlockFree | io_template/epoll/epoll.cpp:54-89 | Before the end something other than an interruption can always move, unless an open is blocked for good |
| EpollDrain.RunsAreBounded | io_template/epoll/epoll.cpp:33-90 | Whatever snapshots and chunks the kernel chooses, a schedule has at most 5 steps per byte, 5 per descriptor, 1 per stream and 4 more, plus 2 for each interruption; 9 instead of 5 when a file is named twice |
| EpollDrain.MaximalRunsFinish | io_template/epoll/epoll.cpp:27-92 | Every schedule that goes on as long as it can, without interruptions, ends with every stream delivered, with the refusal when no file was named, or in an open whose stream was named before and fits into the kernel buffer |
| EpollDrain.RefusedExactly | io_template/epoll/epoll.cpp:27-31 | The program ends at once exactly when it is given no file, since epoll_create rejects a size of zero |
| EpollDrain.Program.EpollWait | io_template/epoll/epoll.cpp:56 | The snapshot of at most five distinct ready descriptors is put into evlist |
| EpollDrain.Program.EpollInterrupted | io_template/epoll/epoll.cpp:57-59 | EINTR goes back to the loop test |
| EpollDrain.Program.ReadAndPrint | io_template/epoll/epoll.cpp:72-78 | At most 1000 bytes go through buf to the output, in order |
| EpollDrain.Program.CloseHungUp | io_template/epoll/epoll.cpp:79-87 | The closing branch in place: descriptor closed, count decremented |
| EpollDrain.Program.StepMain | io_template/epoll/epoll.cpp:27-54 | Instance creation, which fails without descriptors, the end of registration and the loop test in place |
| EpollDrain.Program.RegisterNext | io_template/epoll/epoll.cpp:33-48 | The next file is opened and registered; the open blocks once the writer has hung up |
| PipeKernel.CloseConsistent | process_comm_template/pipe_filter/pipe_filter.cpp:100-105 | After a close the reader and writer counts are still the open ends summed over all processes |
| PipeKernel.Dup2Consistent | process_comm_template/pipe_filter/pipe_filter.cpp:50-81 | The same for dup2, also onto an open descriptor |
| PipeKernel.ForkConsistent | process_comm_template/pipe_sync/pipe_sync.cpp:48-49 | The same for fork, which copies the table |
| PipeKernel.ExitConsistent | process_comm_template/pipe_sync/pipe_sync.cpp:70 | The same for the end of a process |
| PipeKernel.CallsExactly | process_comm_template/pipe_filter/pipe_filter.cpp:43-109 | close, dup2, fork and exit change the table of the caller as prescribed and nothing else, and fail exactly for a descriptor that is not open |
| PipeKernel.EndOfFile | process_comm_template/pipe_sync/pipe_sync.cpp:83 | A reader of an empty pipe sees end of file exactly when no process holds a write descriptor |
| PipeKernel.Pipe.DoClose | process_comm_template/pipe/pipe.cpp:52-85 | close in place: the descriptor goes and its count drops, or EBADF and no change |
| PipeKernel.Pipe.DoDup2 | process_comm_template/pipe_filter/pipe_filter.cpp:50-81 | dup2 in place: an open target is closed first, equal numbers change nothing |
| PipeKernel.Pipe.DoFork | process_comm_template/pipe_sync/pipe_sync.cpp:49 | fork in place: the child gets a copy of the table and the counts grow by it |
| PipeKernel.Pipe.DoExit | process_comm_template/pipe/pipe.cpp:83 | exit in place: every descriptor of the process is closed |
| PipeKernel.Pipe.DoRead | process_comm_template/pipe/pipe.cpp:59 | read in place: the front of the buffer, 0 without writers, or blocked |
| PipeKernel.Pipe.DoWrite | process_comm_template/pipe/pipe.cpp:91 | write in place: the data goes to the end of the buffer, or the call is blocked for lack of room, raises SIGPIPE without readers, or fails with EBADF |
| PipeFilter.ExecutedWithPipe | process_comm_template/pipe_filter/pipe_filter.cpp:43-94 | At exec the first child holds the pipe as standard output only and the second as standard input only, with all other descriptors as inherited, whatever numbers pipe() returned |
| PipeFilter.CountsAgree | process_comm_template/pipe_filter/pipe_filter.cpp:32-119 | In every reachable state the kernel's counts are the open ends summed over the three tables |
| PipeFilter.NothingLost | process_comm_template/pipe_filter/pipe_filter.cpp:63-119 | Consumed bytes, pipe and unwritten bytes make up the producer's output; a consumer that saw end of file, or whose parent is done without inherited children, has all of it |
| PipeFilter.NoBrokenPipe | process_comm_template/pipe_filter/pipe_filter.cpp:63-100 | While the producer runs somebody holds a read end, so SIGPIPE never ends it |
| PipeFilter.EndOfFileExactly | process_comm_template/pipe_filter/pipe_filter.cpp:74-105 | The consumer sees end of file exactly when it has everything, the producer has exited and the parent has closed its write end |
| PipeFilter.MovesPossible | process_comm_template/pipe_filter/pipe_filter.cpp:38-109 | In every reachable state the parent can go on until it waits, and a child until it runs its program |
| PipeFilter.WaitsPossible | process_comm_template/pipe_filter/pipe_filter.cpp:111-119 | A wait can return exactly for a child that is dead, in either order |
| PipeFilter.DataPossible | process_comm_template/pipe_filter/pipe_filter.cpp:63-94 | The producer can write exactly the pieces that fit, and the consumer read any number of the bytes that are there |
| PipeFilter.DeadlockFree | process_comm_template/pipe_filter/pipe_filter.cpp:38-119 | Until all three processes have ended some process can move, for any pipe capacity from 1 |
| PipeFilter.RunsAreBounded | process_comm_template/pipe_filter/pipe_filter.cpp:38-121 | Every schedule has at most two steps per byte and 16 more |
| PipeFilter.MaximalRunsFinish | process_comm_template/pipe_filter/pipe_filter.cpp:38-121 | Every schedule that goes on as long as it can ends with all processes ended and all data consumed, both children reaped unless some were inherited |
| PipeFilter.LeavesChildExactly | process_comm_template/pipe_filter/pipe_filter.cpp:111-119 | Both waits can return with a forked child unreaped if and only if there are inherited children |
| PipeFilter.Program.StepParent | process_comm_template/pipe_filter/pipe_filter.cpp:38-109 | The parent's forks and closes in place; none of them fails |
| PipeFilter.Program.StepChild1 | process_comm_template/pipe_filter/pipe_filter.cpp:43-64 | The first child's close, dup2 and close in place; none of them fails |
| PipeFilter.Program.StepChild2 | process_comm_template/pipe_filter/pipe_filter.cpp:74-95 | The second child's close, dup2 and close in place; none of them fails |
| PipeFilter.Program.ProducerWrites | process_comm_template/pipe_filter/pipe_filter.cpp:63 | The executed producer writes any next piece to its standard output |
| PipeFilter.Program.ConsumerReads | process_comm_template/pipe_filter/pipe_filter.cpp:94 | The executed consumer reads any number of bytes from its standard input, or sees end of file |
| PipeFilter.Program.ParentWaits | process_comm_template/pipe_filter/pipe_filter.cpp:111-119 | wait reaps whichever child is a zombie |
| PipeFilter.Program.ParentWaitsForOther | process_comm_template/pipe_filter/pipe_filter.cpp:111-119 | wait returns an inherited child |
| PipeBarrier.BarrierHolds | process_comm_template/pipe_sync/pipe_sync.cpp:48-87 | For any descriptor numbers, the parent reads end of file only after all n children were forked and closed their write ends |
| PipeBarrier.ReadEndsExactly | process_comm_template/pipe_sync/pipe_sync.cpp:82-87 | The read returns 0 exactly when all children have closed and the pipe is empty, and a byte exactly when it is not; it stays empty unless pipe() returned standard output as the write end |
| PipeBarrier.CountsAgree | process_comm_template/pipe_sync/pipe_sync.cpp:42-83 | In every reachable state the counts are the open ends summed over all tables |
| PipeBarrier.MovesPossible | process_comm_template/pipe_sync/pipe_sync.cpp:48-88 | In every reachable state the parent can go on until its read, and a child until it is gone unless its message has yet to go into the pipe |
| PipeBarrier.PrintPossible | process_comm_template/pipe_sync/pipe_sync.cpp:62 | A piece of a message goes into the pipe exactly if standard output is its write end and it fits; without readers the child is killed, or goes on to its close where SIGPIPE is ignored |
| PipeBarrier.FailsExactly | process_comm_template/pipe_sync/pipe_sync.cpp:38-86 | The error branch of the read can be taken, and the parent can leave while a child has yet to close, if and only if pipe() returned standard output as the write end and there is a child |
| PipeBarrier.FailsWithoutStdio | process_comm_template/pipe_sync/pipe_sync.cpp:42-86 | Started with descriptors 0 and 1 closed, so that pipe() returns 0 and 1, the parent can leave before a child has closed |
| PipeBarrier.DeadlockFree | process_comm_template/pipe_sync/pipe_sync.cpp:48-88 | Until all processes are gone some process can move, also when the messages go into the pipe and the parent no longer reads |
| PipeBarrier.RunsAreBounded | process_comm_template/pipe_sync/pipe_sync.cpp:48-88 | Every schedule has at most 6n + 4 steps and one more for each character of the messages |
| PipeBarrier.MaximalRunsFinish | process_comm_template/pipe_sync/pipe_sync.cpp:48-88 | Every schedule that goes on as long as it can ends with all processes gone, the parent having returned 0 if and only if no message could reach the pipe |
| PipeBarrier.Program.StepParent | process_comm_template/pipe_sync/pipe_sync.cpp:48-88 | The parent's forks, close and exit in place |
| PipeBarrier.Program.ReadOne | process_comm_template/pipe_sync/pipe_sync.cpp:83 | The read of one byte in place, with a byte or end of file |
| PipeBarrier.Program.StepChild | process_comm_template/pipe_sync/pipe_sync.cpp:60-62 | A child's sleep, and its message when that does not go into the pipe, in place |
| PipeBarrier.Program.ChildCloses | process_comm_template/pipe_sync/pipe_sync.cpp:54-70 | A child's closes and its exit in place |
| PipeBarrier.Program.ChildPrints | process_comm_template/pipe_sync/pipe_sync.cpp:62 | Any next piece of the message goes into the pipe through descriptor 1 of the child's table, or SIGPIPE ends the child, or the print fails unnoticed where SIGPIPE is ignored |
| PipeCopy.CopiesExactly | process_comm_template/pipe/pipe.cpp:52-103 | Output, child buffer, pipe and unwritten tail make up the argument until the loop is left; with standard output open at the start no copy fails and the output ends as the argument and a newline, otherwise nothing is ever written |
| PipeCopy.SucceedsExactly | process_comm_template/pipe/pipe.cpp:52-104 | When the child has ended, as it has when a parent without inherited children is done, the output is the argument and a newline if and only if standard output was open, and the child returned 0 if and only if it was open or the argument empty |
| PipeCopy.EndOfFileExactly | process_comm_template/pipe/pipe.cpp:59-102 | The child leaves its loop by end of file exactly when it has written the whole argument and the parent has closed its write end |
| PipeCopy.ReaderPresent | process_comm_template/pipe/pipe.cpp:85-94 | While the parent writes it has a reader exactly until the child has failed to copy and ended |
| PipeCopy.ParentPossible | process_comm_template/pipe/pipe.cpp:84-104 | In every reachable state the parent is blocked exactly while it has bytes to write, while it waits for a living child, and at its end |
| PipeCopy.PutPossible | process_comm_template/pipe/pipe.cpp:91 | The pieces that can be written are exactly those that fit, all at once up to PIPE_BUF; once the child has failed and ended any piece ends the parent |
| PipeCopy.ChildPossible | process_comm_template/pipe/pipe.cpp:52-83 | The child is blocked only in its read, which returns any number of bytes up to 10; what it read is copied exactly if standard output was open |
| PipeCopy.KilledExactly | process_comm_template/pipe/pipe.cpp:69-94 | A write without reader can end the parent, by SIGPIPE or its error return, if and only if standard output was closed at the start and the argument is longer than PIPE_BUF |
| PipeCopy.FailsWithoutStdio | process_comm_template/pipe/pipe.cpp:39-94 | Started with descriptors 0 and 1 closed, every complete schedule writes nothing, the child fails, and a long argument can end the parent |
| PipeCopy.DeadlockFree | process_comm_template/pipe/pipe.cpp:47-103 | Until both processes have ended one of them can move, for any pipe capacity from PIPE_BUF |
| PipeCopy.RunsAreBounded | process_comm_template/pipe/pipe.cpp:47-104 | Whatever the chunks, a schedule has at most three steps per byte and 10 more |
| PipeCopy.MaximalRunsFinish | process_comm_template/pipe/pipe.cpp:47-104 | Every schedule that goes on as long as it can ends with the argument and a newline on the output, or with nothing if standard output was closed, and with both processes ended; the child is reaped unless children were inherited or the parent was killed |
| PipeCopy.LeavesChildExactly | process_comm_template/pipe/pipe.cpp:91-104 | The wait can return with the child unreaped if and only if there are inherited children and either standard output was open or the argument fits into the pipe and the buffer of the child |
| PipeCopy.Program.StepParent | process_comm_template/pipe/pipe.cpp:85-100 | The parent's closes in place |
| PipeCopy.Program.ForkChild | process_comm_template/pipe/pipe.cpp:47 | The fork in place |
| PipeCopy.Program.ParentWaits | process_comm_template/pipe/pipe.cpp:102 | wait reaps the child and takes its status |
| PipeCopy.Program.ParentWaitsForOther | process_comm_template/pipe/pipe.cpp:102 | wait returns an inherited child |
| PipeCopy.Program.ParentWrites | process_comm_template/pipe/pipe.cpp:91 | Any next piece of the parent's write, one piece up to PIPE_BUF, or SIGPIPE |
| PipeCopy.Program.ChildCloses | process_comm_template/pipe/pipe.cpp:52-81 | The child's closes in place |
| PipeCopy.Program.ChildCopies | process_comm_template/pipe/pipe.cpp:69-73 | What was read goes through descriptor 1 of the child's table; a failed copy leaves the loop |
| PipeCopy.Program.ChildEndsLine | process_comm_template/pipe/pipe.cpp:76 | The newline goes through the same descriptor; its failure is ignored |
| PipeCopy.Program.ChildExits | process_comm_template/pipe/pipe.cpp:70-83 | The two returns of the child |
| PipeCopy.Program.ChildReads | process_comm_template/pipe/pipe.cpp:59-67 | A read of at most 10 bytes into buf, or end of file |
| MutexCounter.FinalCount | thread_template/mutex/mutex.cpp:162-205 | Every interleaving that finishes reports 2 · loop |
| MutexCounter.CountWhenFree | thread_template/mutex/mutex.cpp:110-124 | With the mutex free the counter is the number of completed iterations of both threads |
| MutexCounter.NeverOverflows | thread_template/mutex/mutex.cpp:104-117 | The 64-bit counter, which wraps around in the model, never comes near its limits for any int loop count |
| MutexCounter.LoadedIsCurrent | thread_template/mutex/mutex.cpp:117 | Between a thread's load and store the counter does not change, so the store adds one |
| MutexCounter.DeadlockFree | thread_template/mutex/mutex.cpp:106-191 | Until main reports or rejects the count some thread can move |
| MutexCounter.RunsAreBounded | thread_template/mutex/mutex.cpp:162-205 | A positive loop count takes at most 10 · loop + 9 steps, any other is rejected in one |
| MutexCounter.MaximalRunsFinish | thread_template/mutex/mutex.cpp:162-205 | Every schedule that goes on as long as it can reports 2 · loop |
| MutexCounter.WorkerPossible | thread_template/mutex/mutex.cpp:106-126 | In every reachable state a thread can move from its creation to its end, also before the other is created; it waits only for a held mutex |
| MutexCounter.MainPossible | thread_template/mutex/mutex.cpp:162-191 | Main is blocked exactly while it joins a running thread, the first one first, and at its end |
| IncrementOrder.EveryOrderOccurs | thread_template/mutex/mutex.cpp:106-191 | For every order of the 2 · loop increments in which each thread occurs loop times, some finished schedule makes them in it |
| MutexCounter.Program.StepWorker | thread_template/mutex/mutex.cpp:106-126 | ThreadWrite in place outside the calls for the mutex, with the increment as load and wrapping store |
| MutexCounter.Program.LockMutex | thread_template/mutex/mutex.cpp:111 | The mutex is taken exactly if nobody holds it |
| MutexCounter.Program.UnlockMutex | thread_template/mutex/mutex.cpp:119 | The mutex is given up and the loop goes on |
| MutexCounter.Program.StepMain | thread_template/mutex/mutex.cpp:162-205 | The check of loop, the two creations and the two joins in place |
| Readline.Descriptor.ReadByte | socket_template/readline/readline.cpp:37-45 | One read of one byte: a byte, end of file, EINTR or another error |
| Readline.FillBuffer | socket_template/readline/readline.cpp:33-64 | The loop in place: result, descriptor and every cell of the buffer after one call, for any size including 0, whose `n - 1` is the largest size_t |
| Readline.Readline | socket_template/readline/readline.cpp:27-65 | The same for the whole function; without a hard error the first line of the stream is stored up to n - 1 bytes, its stored length returned, and a NUL put after it unless nothing was stored and the stream ended; a null buffer gives -1 and reads nothing |
| Readline.TakesFirstLine | socket_template/readline/readline.cpp:39-61 | Without a hard error a call consumes exactly through the first newline or to the end of the stream |
| Readline.FailsAt | socket_template/readline/readline.cpp:39-44 | With a hard error before the first newline a call takes what was there up to it, and fails without a NUL |
| Readline.ErrorFound | socket_template/readline/readline.cpp:39-44 | A call fails only at such an error |
| Readline.FirstLineUnique | socket_template/readline/readline.cpp:57-59 | There is only one such first line |
| Readline.InterruptsInvisible | socket_template/readline/readline.cpp:39-41 | Where EINTR occurs changes neither a call nor what the next one sees |
| Readline.CallsGiveStream | socket_template/readline/readline.cpp:52-64 | The results of repeated calls concatenate to the stream if and only if every line fits into n - 1 bytes, where 0 - 1 is the largest size_t |
| Readline.ReadLines | socket_template/readline/readline.cpp:27-65 | A loop of calls that stops at 0 or -1 collects exactly the results that `Readline.CallsGiveStream` is about |
| Readline.RoomExactly | socket_template/readline/readline.cpp:52-63 | A size of n from 1 on needs a buffer of n cells, no fewer, if the stream is not known |
| TimerSpec.StrDup | timer_template/timerfd/timerfd.cpp:23 | A fresh copy of the C string |
| TimerSpec.CutHalf | timer_template/timerfd/timerfd.cpp:29-35 | Cutting one half in place at its first '/' computes the pure split of that half and touches nothing outside it |
| TimerSpec.CutSpec | timer_template/timerfd/timerfd.cpp:25-47 | Cutting the copy in place computes the pure split at the first ':' and each half's first '/' |
| TimerSpec.ItimerspecFromStr | timer_template/timerfd/timerfd.cpp:21-50 | For every C string the fields are those of the pure parse, with numbers beyond int converted as strtol and int do; the argument itself is not changed |
| TimerSpec.AtoIReads | timer_template/timerfd/timerfd.cpp:34-46 | White space, an optional sign, digits and trailing text are read as the signed number that the digits denote |
| TimerSpec.AtoIOfOther | timer_template/timerfd/timerfd.cpp:34-46 | Anything else is read as 0 |
| TimerSpec.ToIntExactly | timer_template/timerfd/timerfd.cpp:34-46 | Numbers within long keep their low 32 bits, larger ones give -1 and smaller ones 0 |
| TimerSpec.ParseSplits | timer_template/timerfd/timerfd.cpp:21-48 | Parsing splits at the first colon, and each half at its first slash, whatever follows |
| TimerSpec.ParsePrinted | timer_template/timerfd/timerfd.cpp:21-48 | Parsing any printed setting, with optional nanoseconds and interval, gives back every field, missing ones zero, if and only if all of them fit into int |
| TimerSpec.ParsePrintedConverts | timer_template/timerfd/timerfd.cpp:21-48 | Parsing any printed setting gives each field converted to int |
| TimerLoop.Elapsed | timer_template/timerfd/timerfd.cpp:97-102 | The borrow keeps nanoseconds in 0 .. 999999999 and the difference exact |
| TimerLoop.MakeReport | timer_template/timerfd/timerfd.cpp:97-106 | Seconds and milliseconds together are the elapsed time rounded half up |
| TimerLoop.ReportRounds | timer_template/timerfd/timerfd.cpp:97-106 | The report is off by less than half a millisecond below and at most half a millisecond above, and its seconds are the whole seconds that have passed |
| TimerLoop.Loop | timer_template/timerfd/timerfd.cpp:79-107 | The loop reads for exactly as long as the wrapping total is short of max_loop, and each pass reports its reading and the total so far |
| TimerLoop.CountsExactly | timer_template/timerfd/timerfd.cpp:79-106 | All reported counts are the true ones if and only if the expirations together stay within int |
| TimerLoop.CountExactly | timer_template/timerfd/timerfd.cpp:79-106 | The count of one pass is its low 32 bits as an int, exact if and only if it is within int |
| TimerLoop.StopsExactly | timer_template/timerfd/timerfd.cpp:79-87 | The loop is never left before the expirations reach max_loop, and is left there if and only if the low 32 bits of the expirations lie between max_loop and the largest int; otherwise it reads on |
| TimerLoop.StopsAtMaxLoop | timer_template/timerfd/timerfd.cpp:79-87 | Within int the loop consumes exactly the readings up to the first that brings the expirations to max_loop |
| TimerLoop.TotalOverflows | timer_template/timerfd/timerfd.cpp:79-87 | An instance where it reads on: the total becomes negative, and a loop that is meant to stop after one expiration does not |
| TimerLoop.ReportsNondecreasing | timer_template/timerfd/timerfd.cpp:89-106 | Reported times never go back |
| TimerLoop.MillisField | timer_template/timerfd/timerfd.cpp:105 | The millisecond field lies in 0 .. 1000 and is below 1000 exactly when the elapsed nanoseconds modulo one second are below 999500000 |
| TimerLoop.FieldOverflows | timer_template/timerfd/timerfd.cpp:105 | An instance where the field is 1000 |

## Left out

- Console output, usage messages and wall-clock formatting, except where they bear on a property: the
  bytes that the copied, filtered and drained streams carry, and the children's messages in the barrier.
  No other message of the pipe programs can reach the pipe, since its writer has no write end left or
  printed it before the pipe was made.
- The refusal of "--help" by pipe and pipe_sync, and of an empty argument list by pipe_sync: the theorems
  hold for every argument and for every n including 0. condition and sigchld only print a usage line then.
- Error returns of system and pthread calls other than EINTR in Readline and epoll_wait, hard errors in
  Readline, EBADF of a write, and SIGPIPE. That no close, dup2 or pipe read of the pipe programs fails is
  proved, not assumed. An open descriptor other than the pipe's is assumed to take a write completely.
- Socket client and server, POSIX shared memory, rlimit, popen, pthread_cancel and simple_thread: wrappers
  without a protocol of their own.
- `common/wait_status`, child_status, wait and process: simpler cases of the SIGCHLD protocol, or libc
  macros that are not part of this model.
- What `ls` and `wc` compute: they are any finite producer and any consumer that reads to end of file.
- PIPE_BUF atomicity in the filter and the barrier: a write may be split anywhere, which allows more
  schedules than POSIX.
- Children that are killed by a signal other than SIGPIPE, and writers that reopen a FIFO after hanging up.
- Programs started with SIGCHLD ignored or blocked: it is assumed to have its default disposition.
- TimerSpec.ItimerspecFromStr: numbers beyond the range of int are converted as glibc does, because C
  leaves atoi undefined there; a null argument is not covered, since strdup must not be given one.
- TimerLoop.Loop: the expiration count arrives as one number, of which num_loop is the low half; the
  source's read of eight bytes into a four-byte int also overwrites what lies behind it. The conversion
  of the counts to unsigned for printing is not modelled.
