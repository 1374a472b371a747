# Verified models of the concurrency and checker examples

The repository is a collection of small C programs for teaching Unix programming, with the style checker
used on them. This project models the programs in it whose correctness is a statement about all interleavings,
all inputs or all runs, and proves that statement, or exactly when it holds.

Each concurrent program is a machine with one program counter per thread or process; one step is one
statement, one access to shared memory or one system call. A waiting thread is either asleep and not notified, or
notified and in need of the mutex. The number of threads, the capacity, the number of cycles, the number of
writers and the length of the file are parameters. For each program there is

- a value `State`, a function for one step, and runs (or reachable states) built from it;
- a class with the program's variables, whose methods execute the statements in place and are proved to do
  what the step function says, for one statement and for a whole run;
- theorems about every run;
- a method that carries out any run on the variables of the class and ends with what the theorems say of them:
  `Program`, for fork and mutexes `RunProgram`, for the checker `CheckFile`.

| modules | program |
|---|---|
| `FixedBarrier`, `FixedBarrierSafety`, `FixedBarrierOutput`, `FixedBarrierTheorems`, `FixedBarrierRuns` | the two-phase barrier, `pthreads/implement-barrier-fixed.c` |
| `BrokenBarrier`, `BrokenBarrierTheorems` | the one-phase barrier, `pthreads/implement-barrier.c` |
| `FileLocking`, `FileLockingTheorems`, `FileLockingRuns` | region locks, `file-locking/fcntl-locking.c` |
| `AtomicAdd`, `AtomicAddTheorems`, `AtomicAddProgress` | lost updates, `race/atomic-add.c` |
| `BoundedQueue`, `BoundedQueueTheorems`, `BoundedQueueProgress` | producer and consumer, `cond-variables/queue-simulation.c` |
| `Brackets`, `ContinuationChecker`, `ContinuationTheorems`, `ContinuationStatements` | continuation lines, `cstyle.pl` |
| `LineLength` | long lines, `cstyle.pl` |
| `ForkHandlers` | fork and mutexes, `pthreads/atfork.c` |
| `Connects`, `ConnectsWaiting`, `ConnectsProgram` | asynchronous connects, `select/non-blocking-connect.c` |
| `TalkingHeads` | POSIX semaphore, `semaphores/talking-heads.c` |
| `FixedRace`, `FixedRaceRuns` | System V semaphore, `race/sem-fixed-race.c` |
| `Prelude` | sums, sets of thread numbers, quotients |

Six results say exactly when a program does what it is for:

- in the one-phase barrier another round can complete if and only if nobody has begun the next round while a
  thread is still in the wait loop of the last one (`RoundCanCompleteIffNobodyOvertaken`);
- the lock on half of the file works if and only if no two writers share a file offset (`LockWorksIffPrivate`);
- the producer and the consumer can both sleep for good if and only if the capacity is 0 (`StuckIffNoCapacity`);
- whatever select answers, every socket of the asynchronous connects gets a verdict if and only if every
  address whose connect is still going on has an index below the number of sockets of its host
  (`EverySocketJudgedIff`);
- no inconsistency of the two shared bytes is ever counted if and only if the semaphore begins at 0 or 1
  (`NoInconsistencyIff`);
- without synchronisation and without overflow the comparison fails if and only if some store has overwritten an addition that the
  storing thread has not seen (`AtomicAddProgress.Program`).

Where the code and its comments disagree, the models follow the code:

- `file-locking/fcntl-locking.c:228-230` says that the file is extended to its full length. The arguments of
  lseek are swapped, so with `-l` the seek fails and one NUL byte is written; with `-L` the descriptor is -1
  and both calls fail, so the file starts empty.
- `file-locking/fcntl-locking.c:152` says that a full write comes before the first read. Nothing enforces it; a
  reader may find a short file.
- `select/non-blocking-connect.c:161-174` skips the reload of the set after a timeout, which select has
  cleared. From the first timeout on select watches nothing, so no later answer is seen and all sockets still
  connecting get the verdict "timed out" (`ConnectsWaiting.Resolved`).
- `select/non-blocking-connect.c:84-108` stores a socket at the index of its address, but counts only the
  sockets. After an address without a socket the loops over `numsock` look at a slot that holds -1 and miss a
  later one. A missed socket whose connect is still going on never gets a verdict, and if it is
  writable whenever select is called the program loops for ever (`MissedSocketLoopsForever`).
- `cstyle.pl:905` looks for the word "special" rather than for the pattern in `$special`, and the pattern at
  `cstyle.pl:928` has its anchors swapped. Both tests are parameters of the model (`saysSpecial`, `caseEnd`).

## Model

| member | source | states |
|---|---|---|
| `FixedBarrier.Barrier.constructor` | pthreads/implement-barrier-fixed.c:34-40 | the variables start as in the initial state of the machine |
| `FixedBarrier.Barrier.ComeIn` | pthreads/implement-barrier-fixed.c:49-55 | printing the id, taking the mutex, counting and testing the arrival have the effect of the machine's step on all variables |
| `FixedBarrier.Barrier.EndLine` | pthreads/implement-barrier-fixed.c:56-58 | so have the last thread's newline, reset of `wokenup` and broadcast |
| `FixedBarrier.Barrier.CountIn` | pthreads/implement-barrier-fixed.c:74-77 | counting and testing a woken thread and the second broadcast have the effect of the machine's step |
| `FixedBarrier.Barrier.Execute` | pthreads/implement-barrier-fixed.c:42-90 | whatever statement a thread stands at, executing it in place has exactly the effect of the machine's step on the whole state |
| `FixedBarrierSafety.ApplyInv` | pthreads/implement-barrier-fixed.c:52-85 | every step, spurious wakeups included, keeps the invariant: the threads gather, the last one turns the barrier, or the threads drain from the first loop to the second, with the arrivals and exits each phase allows |
| `FixedBarrierOutput.ApplyOutput` | pthreads/implement-barrier-fixed.c:49-58 | every step keeps the current line showing exactly the ids printed for the present round, and the ended lines as many as the completed rounds |
| `FixedBarrierTheorems.RunInv` | pthreads/implement-barrier-fixed.c:42-90 | every state of every run has both invariants, and `on_barrier` is the sum of all threads' arrivals |
| `FixedBarrierTheorems.NoLostWakeup` | pthreads/implement-barrier-fixed.c:69-82 | in every run a thread asleep without a notification in the first loop means `on_barrier % max != 0`, in the second `wokenup < max`, unless the mutex holder is about to broadcast; with the mutex free its condition always holds |
| `FixedBarrierTheorems.SomeThreadCanRun` | pthreads/implement-barrier-fixed.c:45-86 | in every state with the invariant some thread can execute a statement without a spurious wakeup |
| `FixedBarrierTheorems.NoDeadlock` | pthreads/implement-barrier-fixed.c:45-86 | no run, for any number of threads, reaches a deadlock |
| `FixedBarrierTheorems.PhaseSafety` | pthreads/implement-barrier-fixed.c:52-85 | nobody unlocks from a round before all threads have arrived for it; completed rounds of two threads differ by at most one; `on_barrier` counts all arrivals |
| `FixedBarrierTheorems.LinesArePermutations` | pthreads/implement-barrier-fixed.c:6-20 | in runs of any length every ended line of the output has each id from 0 to max - 1 exactly once |
| `FixedBarrierTheorems.Program` | pthreads/implement-barrier-fixed.c:42-90 | any run, spurious wakeups included, carried out on the program's variables ends in the run's last state, with every ended line a permutation, `on_barrier` the sum of all arrivals, and a thread that can run |
| `FixedBarrierTheorems.CalmStep` | pthreads/implement-barrier-fixed.c:55-84 | without spurious wakeups every step keeps: a notified thread's condition is false, a thread that checks for the first time waits, and the waits in a round are as many as its position allows |
| `FixedBarrierTheorems.StepAdvances` | pthreads/implement-barrier-fixed.c:45-86 | ranking function: without spurious wakeups every statement strictly raises the sum of all threads' progress |
| `FixedBarrierTheorems.CalmRunInv` | pthreads/implement-barrier-fixed.c:45-86 | after i statements the progress made is at least i |
| `FixedBarrierTheorems.WokenThreadsLeave` | pthreads/implement-barrier-fixed.c:69-82 | without spurious wakeups a woken thread leaves its loop at the next check, and the count of a thread's waits kept in the state never exceeds two |
| `FixedBarrierTheorems.RoundsComplete` | pthreads/implement-barrier-fixed.c:45-86 | without spurious wakeups, after i statements every single thread has completed at least (i / max - 29) / 15 rounds, whatever the schedule |
| `FixedBarrierRuns.TwoWaits` | pthreads/implement-barrier-fixed.c:69-82 | counted over the run alone, no thread calls pthread_cond_wait more than twice between two exits, without spurious wakeups |
| `FixedBarrierRuns.CalmRunExists` | pthreads/implement-barrier-fixed.c:45-86 | such a run of every length exists |
| `FixedBarrierRuns.RoundsReached` | pthreads/implement-barrier-fixed.c:45-86 | for every number of threads and of rounds some run without spurious wakeups has every thread complete that many |
| `FixedBarrierRuns.SpuriousForever` | pthreads/implement-barrier-fixed.c:69-70 | with spurious wakeups there are runs of any length in which no thread completes a round, so `RoundsComplete` needs its assumption |
| `BrokenBarrier.Barrier.Execute` | pthreads/implement-barrier.c:47-72 | executing a thread's statement in place has exactly the effect of the machine's step |
| `BrokenBarrierTheorems.ApplyInv` | pthreads/implement-barrier.c:57-67 | every step, spurious wakeups included, keeps the invariant on arrivals, exits and sleepers |
| `BrokenBarrierTheorems.PhaseSafety` | pthreads/implement-barrier.c:57-67 | the one-phase barrier has the same safety as the two-phase one in every reachable state |
| `BrokenBarrierTheorems.Program` | pthreads/implement-barrier.c:47-72 | any run carried out on the program's variables keeps completed rounds and arrivals in step and `on_barrier` the sum of all arrivals |
| `BrokenBarrierTheorems.TrapIsForever` | pthreads/implement-barrier.c:64-65 | once all threads are in the wait loop and its condition holds, no continuation, spurious wakeups included, changes `on_barrier` or leaves the loop |
| `BrokenBarrierTheorems.LastThreadOvertakes` | pthreads/implement-barrier.c:57-67 | for every number of threads, the schedule in which the last thread begins the next round before the others have checked their condition |
| `BrokenBarrierTheorems.Deadlock` | pthreads/implement-barrier.c:17-25 | for every max >= 2 a reachable state has all threads asleep, nobody able to run, and every continuation trapped |
| `BrokenBarrierTheorems.DoomIsForever` | pthreads/implement-barrier.c:57-67 | a round begun while a thread is still in the loop of the last one never completes |
| `BrokenBarrierTheorems.CompleteFrom` | pthreads/implement-barrier.c:57-67 | otherwise some continuation completes it |
| `BrokenBarrierTheorems.RoundCanCompleteIffNobodyOvertaken` | pthreads/implement-barrier.c:57-67 | in a reachable state another round can complete if and only if no thread is still in the loop of the last round when somebody has arrived, or holds the mutex to arrive, for the next |
| `FileLocking.WriteAt` | file-locking/fcntl-locking.c:284 | a one-byte write changes that byte only, and extends the file with NUL bytes if it is past the end |
| `FileLocking.Processes.constructor` | file-locking/fcntl-locking.c:219-234 | the file starts empty with private descriptors and as one NUL byte with a shared one |
| `FileLocking.Processes.Execute` | file-locking/fcntl-locking.c:248-297 | executing a writer's statement in place has exactly the effect of the machine's step on file, offsets, locks and counters |
| `FileLocking.Processes.Dump` | file-locking/fcntl-locking.c:143-168 | so has the reader's system call |
| `FileLockingTheorems.ApplyInv` | file-locking/fcntl-locking.c:248-297 | with private descriptors every step of any writer or of the reader keeps the invariant on offsets, positions, lock and second half |
| `FileLockingTheorems.PrivateDescriptorsWork` | file-locking/fcntl-locking.c:43-53 | with private descriptors, whenever the reader holds its lock, the file has at most its first half or is full with '\|' in the middle and copies of one writer's character after it; so is all it has read |
| `FileLockingTheorems.LockHolderWritesUpperHalf` | file-locking/fcntl-locking.c:250-284 | with private descriptors a write goes to the second half if and only if its writer holds the lock, never past the end, and never there while the reader holds its lock |
| `FileLockingRuns.ReadsWhatIsThere` | file-locking/fcntl-locking.c:155-157 | in every run, private descriptors or a shared one, a read gives the reader the whole file as it is then, up to FILE_LEN bytes, and leaves the file as it is |
| `FileLockingRuns.SeenStays` | file-locking/fcntl-locking.c:155-168 | until it reads again that is what the reader has |
| `FileLockingRuns.OffsetIs` | file-locking/fcntl-locking.c:258-284 | in every run, private descriptors or a shared one, the offset of a descriptor is where the last seek through it has put it, or right behind the last write through it |
| `FileLockingRuns.HolderLeavesItsMark` | file-locking/fcntl-locking.c:250-296 | with private descriptors a writer about to unlock has filled the second half with '\|' and its own character |
| `FileLockingRuns.StatementsCounted` | file-locking/fcntl-locking.c:248-297 | whatever the others do, a writer executes 4 * FILE_LEN statements in each pass over the file |
| `FileLockingRuns.SomebodyCanGoOn` | file-locking/fcntl-locking.c:143-297 | in every run the lock's holder can go on, or the reader, and so can all writers that do not wait for the lock |
| `FileLockingRuns.WholePassSeen` | file-locking/fcntl-locking.c:36-53 | for every length the reader can see one writer's characters in both halves, with '\|' in the middle |
| `FileLockingRuns.Program` | file-locking/fcntl-locking.c:143-297 | any run carried out on the file, the descriptors and the locks: what the reader has is the whole file as it was at its last read; with private descriptors the file is in order whenever the reader holds its lock, and so is what it has read |
| `FileLockingTheorems.SharedDescriptorFails` | file-locking/fcntl-locking.c:266-281 | with a shared descriptor and at least two writers, for every length, the reader can hold its lock while the second half has characters of two writers |
| `FileLockingTheorems.LockWorksIffPrivate` | file-locking/fcntl-locking.c:3-10 | the second half is in order under the reader's lock in all reachable states if and only if no two writers share an offset |
| `AtomicAdd.Adder.Execute` | race/atomic-add.c:62-87 | executing a thread's statement in place has exactly the effect of the machine's step, in all three modes |
| `AtomicAdd.ExpectedSum` | race/atomic-add.c:135-136 | the loop computes 1 + ... + (n - 1) modulo 2^32 |
| `AtomicAdd.RaceDetected` | race/atomic-add.c:135-142 | the final comparison reports a race if and only if x is not n (n - 1) modulo 2^32 |
| `AtomicAdd.TriangleFormula` | race/atomic-add.c:130-136 | twice the sum of one thread is n (n - 1) |
| `AtomicAddTheorems.DetectorExact` | race/atomic-add.c:77-83 | without synchronisation and overflow, in every interleaving the comparison fails if and only if some thread stored after the other had stored since its load |
| `AtomicAddTheorems.DeficitStays` | race/atomic-add.c:77-83 | what has been lost is never negative and, once positive, stays positive |
| `AtomicAddTheorems.RacyBounds` | race/atomic-add.c:77-83 | for n >= 3, every interleaving without overflow ends with n <= x <= n (n - 1) |
| `AtomicAddTheorems.UpperBoundReached` | race/atomic-add.c:77-83 | for every such n a schedule ends with n (n - 1) |
| `AtomicAddTheorems.LowerBoundReached` | race/atomic-add.c:77-83 | for every such n a schedule ends with n |
| `AtomicAddTheorems.SynchronisedAddersAgree` | race/atomic-add.c:67-76 | with the atomic operation or the mutex every interleaving, wraparound included, ends with twice the expected sum modulo 2^32 |
| `AtomicAddProgress.TurnsCounted` | race/atomic-add.c:67-84 | whatever the other one does, a thread has executed three, two or five statements for each cycle, unsynchronised, atomic or with the mutex |
| `AtomicAddProgress.RunLength` | race/atomic-add.c:67-84 | in every mode no run is longer than both threads' statements together, and exactly the finished runs are that long |
| `AtomicAddProgress.NeverStuck` | race/atomic-add.c:67-84 | in every mode some thread can run until both are done |
| `AtomicAddProgress.RunFinishes` | race/atomic-add.c:67-84 | in every mode every run can be continued to a finished one |
| `AtomicAddProgress.FinishedRun` | race/atomic-add.c:67-84 | for every mode and every n there is a finished run |
| `AtomicAddProgress.RacedIff` | race/atomic-add.c:77-83 | the history kept in the state says exactly whether a thread has stored after the other one had stored since its load |
| `AtomicAddProgress.Program` | race/atomic-add.c:118-142 | the whole program, over any run in which both threads finish: synchronised, it reports no race; otherwise, without overflow, it reports a race if and only if some store in the run came after the other thread had stored since the load |
| `BoundedQueue.Queue.Execute` | cond-variables/queue-simulation.c:43-120 | executing a statement of the producer or consumer in place has exactly the effect of the machine's step with signals at the boundaries |
| `BoundedQueue.Queue.PrintQueue` | cond-variables/queue-simulation.c:149-154 | the loops print one dot for each message and one space for each empty slot, between bars |
| `BoundedQueue.Queue.Print` | cond-variables/queue-simulation.c:147-157 | the main thread prints the queue under the mutex |
| `BoundedQueueTheorems.PoliciesAgree` | cond-variables/queue-simulation.c:61-75 | in every good state signalling at the boundaries and signalling every time allow the same events with the same effect |
| `BoundedQueueTheorems.SelectiveSignallingSuffices` | cond-variables/queue-simulation.c:68-69 | the program has exactly the runs of the one that signals every time, spurious wakeups included |
| `BoundedQueueTheorems.NoLostWakeup` | cond-variables/queue-simulation.c:50-76 | with the mutex free or with the printer, an un-notified sleeping producer means a full queue and an un-notified sleeping consumer an empty one |
| `BoundedQueueTheorems.BarsAreTrue` | cond-variables/queue-simulation.c:147-155 | every printed bar is, character by character, the picture of the queue at the step that printed it: a dot for each message, a space for each empty slot |
| `BoundedQueueTheorems.QueueConserved` | cond-variables/queue-simulation.c:93-119 | `in_queue` is inserted minus removed and within 0 and `capacity` in every run, and every printed bar is `capacity` wide between its bars and shows the queue of the step that printed it |
| `BoundedQueueTheorems.NeverStuck` | cond-variables/queue-simulation.c:38-123 | unless the capacity is 0, the two never both sleep un-notified, and one of them can run unless the printer has the mutex |
| `BoundedQueueTheorems.Program` | cond-variables/queue-simulation.c:38-158 | any run carried out on the program's variables keeps the queue within its bounds, prints only bars that show it as it was when they were printed, and unless the capacity is 0 never leaves both asleep |
| `BoundedQueueTheorems.StuckIffNoCapacity` | cond-variables/queue-simulation.c:131-132 | a run after which both sleep for good exists if and only if the capacity is 0 |
| `BoundedQueueProgress.WakeupsCounted` | cond-variables/queue-simulation.c:43-120 | in every run, every thread that goes to sleep is woken up or sleeps still, every one woken up, spuriously or not, checks its condition again, and every attempt moves one message or is still to do so |
| `BoundedQueueProgress.BarsCounted` | cond-variables/queue-simulation.c:147-157 | in every run the main thread prints one bar in every three of its steps |
| `BoundedQueueProgress.MessagesMove` | cond-variables/queue-simulation.c:43-120 | without spurious wakeups the producer puts in, and the consumer takes out, a message at least every nine statements, whatever the schedule |
| `BoundedQueueProgress.BusyRuns` | cond-variables/queue-simulation.c:43-120 | unless the capacity is 0 there is such a run of every length |
| `BoundedQueueProgress.MessagesGoThrough` | cond-variables/queue-simulation.c:43-120 | with a capacity of at least 1 any number of messages can go through the queue |
| `Brackets.BalancedIffScan` | cstyle.pl:821-829 | a stack machine ends with an empty stack exactly on the strings of a grammar of balanced brackets |
| `Brackets.ViableIffScan` | cstyle.pl:821-829 | it fails exactly on the strings that no continuation makes balanced |
| `ContinuationChecker.Checker.BeforeTokens` | cstyle.pl:748-817 | the part before the token loop: what is skipped, and how a continuation begins or goes on |
| `ContinuationChecker.Checker.CloserToken` | cstyle.pl:839-887 | a closer, in place: errors, the special processing when the stack gets empty, the ends |
| `ContinuationChecker.Checker.SemicolonToken` | cstyle.pl:888-910 | a semicolon, in place |
| `ContinuationChecker.Checker.OneToken` | cstyle.pl:830-941 | the body of the token loop, in place, for every token |
| `ContinuationChecker.Checker.ProcessIndent` | cstyle.pl:742-943 | a whole line, in place, has the effect of the checker's specification on all variables |
| `ContinuationTheorems.OneToken` | cstyle.pl:837-931 | one token of an open continuation moves the stack as the bracket machine does, and reports a bracket error exactly where that machine fails |
| `ContinuationTheorems.ProcessValid` | cstyle.pl:712-719 | every file, calls of reset_indent included, keeps the stack equal to the unmatched openers consumed |
| `ContinuationTheorems.StackIsUnmatchedOpeners` | cstyle.pl:712 | over any number of lines the stack is the unmatched openers consumed since the continuation began; it is empty if and only if what was consumed is balanced |
| `ContinuationTheorems.BracketErrorExact` | cstyle.pl:839-852 | "unexpected" or "mismatched" is reported exactly at the first character after which no balanced string is possible, "unexpected" exactly if what came before was balanced |
| `ContinuationTheorems.CleanEndIsBalanced` | cstyle.pl:858-930 | a token that ends the continuation without an error ends a balanced string |
| `ContinuationStatements.TokenExact` | cstyle.pl:830-941 | over every file, exactly which token ends an open continuation, which errors are reported at it, when a section of another kind begins and when a segment is counted, told by whether what has been consumed is balanced |
| `ContinuationStatements.LineExact` | cstyle.pl:748-942 | over every file, exactly what is reported at a line before its tokens, bad indentation among it, which lines are skipped, with what a continuation begins, and when the suppression of reports ends |
| `ContinuationStatements.FileOfStatements` | cstyle.pl:742-943 | a file of plain statements over any number of lines, each balanced and with a semicolon at its end, gets exactly one report for each badly indented line other than a first one, and ends with no continuation open |
| `ContinuationStatements.NoFaults` | cstyle.pl:786-792 | if each statement is on one line nothing is reported, however the lines are indented |
| `ContinuationStatements.CheckFile` | cstyle.pl:700-943 | the checker in place over a whole file, calls of reset_indent included, ends as specified, with the stack the unmatched openers consumed, and on a file of statements with exactly those reports |
| `LineLength.ExpandRun` | cstyle.pl:318 | length * 8 - column % 8 spaces are what a run of tabs expands to, one tab at a time |
| `LineLength.Substitution` | cstyle.pl:317-318 | one substitution leaves the expansion of the line as it was and lowers the number of tabs |
| `LineLength.ExpandTabs` | cstyle.pl:316-318 | the loop of substitutions ends with the line expanded one tab at a time to stops of 8 columns |
| `LineLength.ExpandLength` | cstyle.pl:312-313 | each tab adds at most 7 columns |
| `LineLength.ExpandedStops` | cstyle.pl:315-318 | after a tab the column is the next multiple of 8 |
| `LineLength.TooLong` | cstyle.pl:311-322 | the check flags a line if and only if its expanded length exceeds 80: the quick test hides none |
| `ForkHandlers.Program.RunMain` | pthreads/atfork.c:173-202 | executing the main thread's statement in place has exactly the effect of the machine's step |
| `ForkHandlers.Program.RunForker` | pthreads/atfork.c:70-98 | so has the forking thread's, handlers and copy included |
| `ForkHandlers.Program.RunChild` | pthreads/atfork.c:88-97 | so has the child's |
| `ForkHandlers.RunInv` | pthreads/atfork.c:70-202 | every state of every run has the ownership invariant, every statement is executed once, and everybody is done exactly after 15 steps with the handlers and 12 without |
| `ForkHandlers.HandlersProtectTheCopy` | pthreads/atfork.c:119-142 | with the handlers the forking thread owns the mutex at the instant of the copy, both copies are released by their owner, and the parent destroys the mutex only when it is free and will not be used |
| `ForkHandlers.StoppedMeansDone` | pthreads/atfork.c:84-87 | a run that cannot go on has ended with everybody done if and only if the child's mutex is not orphaned; with the handlers always |
| `ForkHandlers.ForkOrphans` | pthreads/atfork.c:76-78 | a fork orphans the child's mutex if and only if there are no handlers and main holds the mutex |
| `ForkHandlers.OrphanedForever` | pthreads/atfork.c:88-91 | over any continuation an orphaned child stays before its lock, unable to take it, and the parent never gets past waiting for it; a child that is not orphaned never becomes so |
| `ForkHandlers.OrphanReachable` | pthreads/atfork.c:151-153 | without handlers such a child is reachable |
| `ForkHandlers.RunProgram` | pthreads/atfork.c:70-202 | any run carried out on the variables of both copies: with the handlers the child is never orphaned, and a run that cannot go on has everybody done |
| `Connects.RowGrows` | select/non-blocking-connect.c:103-108 | after one more socket the host's slots hold each descriptor at the index of its address, and `numsock` counts the sockets |
| `Connects.VisibleNoRepeat` | select/non-blocking-connect.c:178-183 | on any hosts the loops over `numsock` look at no socket twice |
| `Connects.SocketSeenIff` | select/non-blocking-connect.c:91-108 | they look at a socket if and only if the index of its address is below the number of sockets of its host |
| `Connects.AllSeenIffSocketsFirst` | select/non-blocking-connect.c:91-108 | they look at all sockets if and only if no host has an address that gives a socket after one that gave none |
| `Connects.PendingSeenIff` | select/non-blocking-connect.c:118-126 | they look at every socket still connecting if and only if no address whose connect is still going on has an index at or above that number |
| `ConnectsWaiting.IterateKeeps` | select/non-blocking-connect.c:157-220 | on any hosts, each iteration keeps every socket either waited for or with a verdict, never both |
| `ConnectsWaiting.AfterCounted` | select/non-blocking-connect.c:157-220 | on any hosts, after any number of iterations `n` is the number of verdicts, and `n` plus the size of `wrfds_orig` is `num_sockets` |
| `ConnectsWaiting.IterateProgresses` | select/non-blocking-connect.c:157-220 | if the loops look at every socket still connecting, (num_sockets - n) + (TIMEOUT - timeouts) strictly falls, and exactly the reported sockets get their verdicts |
| `ConnectsWaiting.UnseenNeverJudged` | select/non-blocking-connect.c:178-230 | a socket that the loops do not look at has no verdict after any number of iterations, nor after the last loop |
| `ConnectsWaiting.EverySocketJudgedIff` | select/non-blocking-connect.c:156-230 | whatever select and getsockopt answer, the program leaves its wait loop and every socket gets a verdict if and only if no address whose connect is still going on is missed |
| `ConnectsWaiting.MissedSocketLoopsForever` | select/non-blocking-connect.c:157-220 | if a missed socket is writable at every call of select, the loop has not stopped after any number of iterations |
| `ConnectsWaiting.PassStallsIffUnseen` | select/non-blocking-connect.c:178-219 | on any hosts, a pass after a return of select finishes no connect if and only if the loops look at none of the reported sockets, and then it changes nothing |
| `ConnectsWaiting.FatesDecided` | select/non-blocking-connect.c:118-230 | put together, each socket has exactly the verdict that its connect, select's reports and getsockopt decide |
| `ConnectsWaiting.FatesMean` | select/non-blocking-connect.c:118-230 | the map of fates gives each socket, and nothing else, its verdict: connected or failed as connect says at once; timed out if select never reports it in time; otherwise connected if getsockopt gives 0 and failed if not |
| `ConnectsWaiting.LoopEndsWell` | select/non-blocking-connect.c:156-230 | if no address is missed the loop stops, and what is said then is the fate of each socket |
| `ConnectsWaiting.ResolvedIff` | select/non-blocking-connect.c:157-174 | a socket's connect counts as finished if and only if some select before the first timeout reports it while it is watched |
| `ConnectsProgram.Connector.InitiateAll` | select/non-blocking-connect.c:84-150 | for all hosts and addresses: the set holds the sockets still connecting, `n` and the set make up `num_sockets`, the others have their verdict, and the tables hold what the addresses gave |
| `ConnectsProgram.Connector.CheckAll` | select/non-blocking-connect.c:178-216 | one pass in place has the effect of testing all slots that the loops look at in order |
| `ConnectsProgram.Connector.SelectOnce` | select/non-blocking-connect.c:159-219 | one iteration in place, on any hosts, has the effect of the specification's |
| `ConnectsProgram.Connector.WaitAtMost` | select/non-blocking-connect.c:156-220 | so have any number of iterations |
| `ConnectsProgram.Connector.Wait` | select/non-blocking-connect.c:156-220 | if the specification's loop stops, the loop ends, in the state where that one stops |
| `ConnectsProgram.Connector.GiveUp` | select/non-blocking-connect.c:223-230 | every socket looked at and still waited for, and no other, gets the verdict "timed out" |
| `ConnectsProgram.Connector.Run` | select/non-blocking-connect.c:81-230 | if no address is missed the whole program ends, each socket gets exactly one verdict, its fate, and the counts add up |
| `ConnectsProgram.Connector.RunAtMost` | select/non-blocking-connect.c:81-230 | on any hosts, cut off after any number of iterations, no missed address has a verdict |
| `ConnectsProgram.Program` | select/non-blocking-connect.c:81-230 | the whole program, what it says of each socket: connected or failed as connect said at once, timed out if select has not reported it before the first timeout, otherwise connected if getsockopt gives 0 and failed if not |
| `TalkingHeads.Processes.Execute` | semaphores/talking-heads.c:136-142 | executing a process's next operation in place has exactly the effect of the machine's step |
| `TalkingHeads.SemaphoreCounts` | semaphores/talking-heads.c:137-139 | the value plus the number of processes between wait and post is `sinit`, so at most `sinit` talk |
| `TalkingHeads.TurnsDoNotMix` | semaphores/talking-heads.c:74-91 | with `sinit` 1 the output is a sequence of turns that do not mix, in the order in which the processes passed the semaphore, each as long as its random number says: up to 5 plain ids and one in parentheses; of the present turn it is as much as its process has said |
| `TalkingHeads.StepsCounted` | semaphores/talking-heads.c:79-141 | with any `sinit`, whatever the others do, a process takes exactly the steps of its turns: the wait, as many prints as the random number says, the post and the pause |
| `TalkingHeads.NeverStuckIff` | semaphores/talking-heads.c:136-142 | some process can always go on, unless there is none or the semaphore begins at 0 |
| `TalkingHeads.Program` | semaphores/talking-heads.c:126-146 | any run with the semaphore at 1, carried out in place, has printed exactly its turns |
| `FixedRace.Processes.Execute` | race/sem-fixed-race.c:111-147 | executing a process's next memory access or system call in place has exactly the effect of the machine's step |
| `FixedRace.ApplyInv` | race/sem-fixed-race.c:114-142 | every step, failure or signal keeps exclusion and agreement of the bytes outside |
| `FixedRace.NoInconsistency` | race/sem-fixed-race.c:117-138 | from a semaphore of at most 1, with SIGINT at any point and any failing operation, the inconsistency counts stay 0, the bytes agree whenever nobody is inside, and both are the process's own value when it is about to leave |
| `FixedRaceRuns.SemaphoreCounts` | race/sem-fixed-race.c:59-72 | from any value, until the parent removes the semaphore, its value, the processes inside and the failures to give it back make up the first value |
| `FixedRaceRuns.StatementsCounted` | race/sem-fixed-race.c:115-141 | whatever the other one does, a process in its loop has executed eight statements for each loop it has counted and those of the present one |
| `FixedRaceRuns.LoopsOn` | race/sem-fixed-race.c:115-141 | without SIGINT and without a failure a process stays in its loop |
| `FixedRaceRuns.StopsSoon` | race/sem-fixed-race.c:43-72 | after SIGINT or a failure a process executes at most ten statements more |
| `FixedRaceRuns.NeverStuck` | race/sem-fixed-race.c:115-147 | if no call fails, the semaphore stays until both have exited, and until then one of them can go on |
| `FixedRaceRuns.NoInconsistencyIff` | race/sem-fixed-race.c:93-124 | in all runs no inconsistency is counted if and only if the semaphore begins at 0 or 1 |
| `FixedRaceRuns.Program` | race/sem-fixed-race.c:111-147 | any run, with signals and failures, carried out on the processes' variables ends with both counts 0, the semaphore, without failures, at 1 minus the number inside, and eight statements executed for each loop counted |

## Left out

- Sockets, name resolution, exec, shell scripts, user ids, stat, dynamic linking and the debugging demos: thin
  wrappers over system calls without a property of their own.
- The memory-mapping examples, the rwlock demos, `pipe/countdown.c` and the other variants of the two-value
  race: they would add easier members only.
- Time: `poll`, `sleep` and random delays are scheduling choices, and no result relies on a delay. Fairness is
  not assumed; the progress results count steps.
- The kernel and the C library: mutex, condition variable, semaphore, region lock, offset, fork and select are
  atomic primitives with the behaviour POSIX promises. The condition variable may wake up spuriously.
- Memory order: a read or a write of a shared variable is one step.
- Overflow of `on_barrier` after 2^31 - 1 arrivals: it is an unbounded counter.
- Printing in the one-phase barrier: its output is not part of the state; the two-phase barrier's is.
- Buffering of standard output: a print is one step.
- File locking without `-l` or `-L`: there is no promise to prove.
- `file-locking/fcntl-locking.c`: FILE_LEN is any even number from 4 on and NPROC any number from 1 on; the file is
  the only one the writers use, and the system calls do not fail except where the program makes them.
- Negative arguments of `atomic-add`: the threads loop on a signed value and main on an unsigned one.
- AtomicAddTheorems.DetectorExact: assumes n (n - 1) < 2^31, because beyond it the unsynchronised C addition of signed values has no defined result.
- AtomicAddTheorems.RacyBounds: for the same reason, and n >= 3 because for n = 2 a lost update leaves 1.
- The continuation checker's regular expressions, `delabel` and comment removal: a line is its tokens and the
  answers of the patterns the checker tests, for which any combination is allowed. Indentation is one such
  answer. The other style rules of `cstyle.pl` are not part of this model.
- The counter thread, the names of threads and a failing fork in `pthreads/atfork.c`.
- `talking-heads.c` from the first SIGINT on: sem_wait is then not checked for EINTR. Its `run` flag, a
  failing sem_open and a semaphore left from an earlier run; process i of the program is number i - 1 here.
- ConnectsProgram.Program: as ConnectsProgram.Connector.Run, which it calls.
- ConnectsProgram.Connector.Run: requires that no address is missed, which `EverySocketJudgedIff` shows to be necessary, and at
  most MAX_SOCKETS addresses for a host; beyond that the program writes outside its table.
- A slot with -1 counts as not in the set; POSIX does not define FD_ISSET for it. Failing select, fcntl and getsockopt end the program at
  once and are not modelled.
- Whether "timed out" is the truth about a socket: after its first timeout the program no longer looks.
- The mapped file and the creation of the semaphore in `race/sem-fixed-race.c`; a failing setup call ends the program there.
