# Verification of the protocols and loops in Linux_System_Programming_Projects

The programs of the repository that carry a protocol or a byte-level algorithm, modelled in Dafny and proved correct for
all parameters their `#define`s fix: any number of threads, permits, joiners, any buffer size, any input.

| file | models |
|---|---|
| `ReadyRing.dfy` | the ring buffer of 10_9, as a value and as a class over an array |
| `ReadyProceed*.dfy` | the ready/proceed protocol of 10_9: step relation, invariant, progress, theorems about runs, absence of data races, programs of main and workers |
| `Frames.dfy`, `Lines.dfy` | the length-prefixed format of 11_4 and 11_5, and how lines become messages |
| `FifoReader.dfy`, `FifoWriter.dfy` | the read and write loops, against a kernel that picks every transfer size and error |
| `IoCalls.dfy`, `ReadRuns.dfy`, `WriteRuns.dfy` | what the calls made by one loop, for one message and in a whole run say about errors and stop signals |
| `FifoTransport.dfy` | writer and reader interleaved over a FIFO of bounded capacity |
| `NamedSemaphore.dfy`, `SharedSum.dfy` | the counting-semaphore programs of 12_1 and 12_2_1 |
| `Handshake.dfy`, `Handover.dfy`, `Cancellation.dfy` | the condition-variable programs 10_3, 10_7 and 10_5 |
| `SearchOverwrite.dfy`, `Grayscale.dfy` | the search of 2_5 and the grayscale loop |
| `Sequences.dfy`, `Runs.dfy`, `SystemCalls.dfy` | sums, products and pigeonhole facts, counted moves of runs, bytes and error codes for the above |

Concurrent programs are step relations: a program counter for each agent, a holder for each mutex, the shared data, and
one step for each pthread or semaphore call, system call or access to shared data. Testing a condition and calling
`pthread_cond_wait` are two steps; waiting releases the mutex and sleeps in one; a woken thread has to get the mutex
again; spurious wakeups can happen at any time, as the `pthread_cond_wait` page of POSIX.1-2017 System Interfaces
allows. A run is a finite sequence of steps from the initial state under an arbitrary scheduler. A step that would break
a rule of the primitives is not `Legal`; the theorems `RunsAreLegal` show that no reachable state offers one. Because a
property of program counters says little about what a step does, the theorems named `...FollowsProgram` compare the
effects of each agent, read off the states before and after its steps, with the text of its program, and those named
`...UnderMutex` state that a step without the mutex neither reads nor writes the data. Sequential loops are methods with
loop invariants over objects that stand for the descriptor; the outcome of each call is recorded in a script that the
proofs do not restrict, stop signals may arrive with any call, and the calls made are logged.

Where the code does less than it might be taken to do:

- 12_1 and 12_2_1 ignore the result of `sem_wait` on the section semaphore. Each failed wait lets one agent more in;
  `PermitsConserved` is the exact law, and `FailedWaitsLetIn` shows that its bound is reached. In 12_1 a joiner that
  starts before the creator gives up, and then the creator may never get to unlink (`FinishesIff`,
  `EarlyJoinersBlockForever`); one joiner too many can still be in the section when it does (`QuietIff`). The comments
  on the semaphore values assume an initial value of 1; the code uses 2, the model any.
- 10_5 says that `pthread_testcancel` is the only cancellation point of the thread's loop. The wait for the start signal
  is one too; it does no harm because the threshold is positive (`ZeroThresholdLeaksMutex`).
- 2_5 does not search for the target word but for its letters in order. `ReplacesFirstIff` says when the first
  occurrence is the one replaced, and `EarlyLettersMislead` is a text where it is not; `SearchAndReplace` says when a
  text is left alone and when it is read past the end of the buffer.
- An end of the stream inside a header counts as a clean close in both readers, so that verdict does not prove that the
  writer stopped between messages (`CleanInsideHeader`); `Transport` says exactly what it proves.
- The header of the blocking writer is a single write. With an arbitrary kernel an interruption or a short write there
  ends the writer, where the polling writer goes on (`HeaderInterruptionStops`); `Send` says that nothing else but a
  stop signal or a hard error does. The handlers of the program set the stop flag with every signal, and a POSIX FIFO
  takes a blocking write of at most PIPE_BUF bytes as a whole (`write` page of POSIX.1-2017 System Interfaces), so
  there a header fails only together with a stop signal or a hard error (`HeadersGoInPractice`).

## Model

| member | source | states |
|---|---|---|
| `ReadyRing.EmptyIff` | Course_MohanM/10_Threads/10_9_Dynamic_Mutex_and_Condition_Variables_Multiple_Threads_FIFO/main.c:85 | `head == tail` means that nothing is queued, and a queue never fills its array |
| `ReadyRing.PushAppends` | Course_MohanM/10_Threads/10_9_Dynamic_Mutex_and_Condition_Variables_Multiple_Threads_FIFO/main.c:190-203 | a push appends unless one element less than the array size is queued, which is exactly when the overflow branch is taken |
| `ReadyRing.PopTakesFirst` | Course_MohanM/10_Threads/10_9_Dynamic_Mutex_and_Condition_Variables_Multiple_Threads_FIFO/main.c:205-217 | a pop removes the element that was queued first |
| `ReadyRing.ReadyQueue.constructor` | Course_MohanM/10_Threads/10_9_Dynamic_Mutex_and_Condition_Variables_Multiple_Threads_FIFO/main.c:34-37 | the queue starts empty |
| `ReadyRing.ReadyQueue.Push` | Course_MohanM/10_Threads/10_9_Dynamic_Mutex_and_Condition_Variables_Multiple_Threads_FIFO/main.c:190-203 | the in-place push does to array and indices what the ring on values does, and appends or leaves a full queue alone |
| `ReadyRing.ReadyQueue.Pop` | Course_MohanM/10_Threads/10_9_Dynamic_Mutex_and_Condition_Variables_Multiple_Threads_FIFO/main.c:205-217 | the in-place pop returns the oldest element and keeps the rest, and reports exactly the empty queue |
| `ReadyProceedInvariant.StepKeepsInv` | Course_MohanM/10_Threads/10_9_Dynamic_Mutex_and_Condition_Variables_Multiple_Threads_FIFO/main.c:82-188 | mutual exclusion, life cycle, conservation and the wakeup conditions are kept by every step of every agent and every spurious wakeup |
| `ReadyProceedInvariant.InvLegal` | Course_MohanM/10_Threads/10_9_Dynamic_Mutex_and_Condition_Variables_Multiple_Threads_FIFO/main.c:82-188 | under the invariant every possible step respects the locking and destruction rules |
| `ReadyProceedInvariant.RoomToPush` | Course_MohanM/10_Threads/10_9_Dynamic_Mutex_and_Condition_Variables_Multiple_Threads_FIFO/main.c:15-16 | a worker that has not pushed finds a free slot, because there is one slot more than workers |
| `ReadyProceedProgress.NoDeadlock` | Course_MohanM/10_Threads/10_9_Dynamic_Mutex_and_Condition_Variables_Multiple_Threads_FIFO/main.c:82-188 | unless everything is over some agent can make a step that is neither a spurious wakeup nor a try-join on a running thread |
| `ReadyProceedProgress.StepLowers` | Course_MohanM/10_Threads/10_9_Dynamic_Mutex_and_Condition_Variables_Multiple_Threads_FIFO/main.c:82-188 | an explicit measure falls with every useful step and rises by at most 3 with a spurious wakeup and n + 2 with an unsuccessful try-join |
| `ReadyProceedTheorems.RunsAreLegal` | Course_MohanM/10_Threads/10_9_Dynamic_Mutex_and_Condition_Variables_Multiple_Threads_FIFO/main.c:82-188 | in every run: flags and queue only under their mutex, unlock and wait only by the holder, no use of a destroyed primitive, destruction only when idle |
| `ReadyProceedTheorems.GrantsFollowPushes` | Course_MohanM/10_Threads/10_9_Dynamic_Mutex_and_Condition_Variables_Multiple_Threads_FIFO/main.c:90-105 | granted ids, the id in main's hand and the queue are together the push order; ids are distinct and their workers ready; the count is the number of permissions; the test at line 95 always succeeds |
| `ReadyProceedTheorems.NeverOverflows` | Course_MohanM/10_Threads/10_9_Dynamic_Mutex_and_Condition_Variables_Multiple_Threads_FIFO/main.c:192-197 | the overflow branch is never taken in any run |
| `ReadyProceedTheorems.SafeTeardown` | Course_MohanM/10_Threads/10_9_Dynamic_Mutex_and_Condition_Variables_Multiple_Threads_FIFO/main.c:109-132 | `finished_threads` is the number of zeroed handles; each primitive is destroyed at most once and only after its worker has gone with its mutex free |
| `ReadyProceedTheorems.NoLostWakeup` | Course_MohanM/10_Threads/10_9_Dynamic_Mutex_and_Condition_Variables_Multiple_Threads_FIFO/main.c:85-88 | main sleeps only while the queue is empty or a pusher is about to signal; a worker sleeps only without permission or while main is about to signal it |
| `ReadyProceedTheorems.NeverStuck` | Course_MohanM/10_Threads/10_9_Dynamic_Mutex_and_Condition_Variables_Multiple_Threads_FIFO/main.c:82-188 | no reachable state is a deadlock |
| `ReadyProceedTheorems.BoundedRun` | Course_MohanM/10_Threads/10_9_Dynamic_Mutex_and_Condition_Variables_Multiple_Threads_FIFO/main.c:82-132 | a run with n workers, S spurious wakeups and B unsuccessful try-joins has at most 42n + 11 + 4S + (n + 3)B steps |
| `ReadyProceedTheorems.Outcome` | Course_MohanM/10_Threads/10_9_Dynamic_Mutex_and_Condition_Variables_Multiple_Threads_FIFO/main.c:109-135 | at the end every worker was granted exactly once in push order, the queue is empty and every primitive was destroyed exactly once |
| `ReadyProceedTheorems.CanFinish` | Course_MohanM/10_Threads/10_9_Dynamic_Mutex_and_Condition_Variables_Multiple_Threads_FIFO/main.c:82-135 | every run can be continued to the end by useful steps alone |
| `ReadyProceedRaces.FlagsOnlyUnderMutex` | Course_MohanM/10_Threads/10_9_Dynamic_Mutex_and_Condition_Variables_Multiple_Threads_FIFO/main.c:94-103 | a step whose agent does not hold the mutex of a started worker neither reads nor writes its flags: with other flags it is possible just the same and has the same effect |
| `ReadyProceedRaces.QueueOnlyUnderMutex` | Course_MohanM/10_Threads/10_9_Dynamic_Mutex_and_Condition_Variables_Multiple_Threads_FIFO/main.c:169-172 | the same for the queue and the global mutex |
| `ReadyProceedRaces.WorkerOneThing` | Course_MohanM/10_Threads/10_9_Dynamic_Mutex_and_Condition_Variables_Multiple_Threads_FIFO/main.c:164-182 | a step of a worker changes one mutex, or the flag, or the queue, or wakes main, never two of these |
| `ReadyProceedRaces.MainOneThing` | Course_MohanM/10_Threads/10_9_Dynamic_Mutex_and_Condition_Variables_Multiple_Threads_FIFO/main.c:82-128 | a step of main changes one mutex, or the queue, or one thing about one worker, never two of these |
| `ReadyProceedRaces.PassesWithPermission` | Course_MohanM/10_Threads/10_9_Dynamic_Mutex_and_Condition_Variables_Multiple_Threads_FIFO/main.c:176-182 | a worker gets past its wait only while it holds its mutex and has permission |
| `ReadyProceedWorkers.WorkersFollowProgram` | Course_MohanM/10_Threads/10_9_Dynamic_Mutex_and_Condition_Variables_Multiple_Threads_FIFO/main.c:164-182 | every worker changes the shared data in the order of its program and completely: lock, ready, unlock, lock the queue, push, unlock, lock and unlock around its wait |
| `ReadyProceedMain.MainFollowsProgram` | Course_MohanM/10_Threads/10_9_Dynamic_Mutex_and_Condition_Variables_Multiple_Threads_FIFO/main.c:68-132 | the effects of main keep to a reference automaton: create in order; inside the global mutex pop, give it up, grant under the mutex of that worker, come back, leave only with the queue empty and after a visit; join and destroy one after the other |
| `Frames.LengthOfHeader` | Course_MohanM/11_IPC/11_5_FIFO_Real_Life_Example_with_poll_and_O_NONBLOCK/11_5_2_Reader/main.c:108-140 | the four bytes written for a length are read back as that length |
| `Frames.LeastByteFirst` | Course_MohanM/11_IPC/11_5_FIFO_Real_Life_Example_with_poll_and_O_NONBLOCK/11_5_2_Reader/main.c:108-117 | the least significant byte of a length comes first |
| `Frames.HeaderOfLength` | Course_MohanM/11_IPC/11_5_FIFO_Real_Life_Example_with_poll_and_O_NONBLOCK/11_5_2_Reader/main.c:108-140 | four bytes read as a length are the bytes written for it |
| `Frames.RoundTrip` | Course_MohanM/11_IPC/11_4_FIFO_Basics/11_4_2_Reader_End/main.c:120-192 | decoding the frames of messages of accepted length gives these messages and a clean end |
| `Frames.EncodeParse` | Course_MohanM/11_IPC/11_4_FIFO_Basics/11_4_2_Reader_End/main.c:120-192 | whatever the reader decodes is a stream of frames of its messages, and what remains holds no further one |
| `Frames.ParsePrefix` | Course_MohanM/11_IPC/11_4_FIFO_Basics/11_4_2_Reader_End/main.c:120-192 | more bytes only add messages at the end |
| `Frames.TextOfTerminated` | Course_MohanM/11_IPC/11_4_FIFO_Basics/11_4_2_Reader_End/main.c:194-195 | the terminator stored behind a payload does not change what is printed |
| `FifoReader.ReadField` | Course_MohanM/11_IPC/11_5_FIFO_Real_Life_Example_with_poll_and_O_NONBLOCK/11_5_2_Reader/main.c:161-195 | a read loop takes exactly the first bytes of the stream whatever sizes and retries happen; it completes exactly with all of them, so the check after the loop cannot fire; an unhandled error is its last call and breaks it, the end of the stream ends it, a stop signal that it tests for interrupts it, and nothing else stops it |
| `FifoReader.ReadMessage` | Course_MohanM/11_IPC/11_5_FIFO_Real_Life_Example_with_poll_and_O_NONBLOCK/11_5_2_Reader/main.c:108-199 | one message is delivered as the format says, or the reader ends: with the verdict of the bytes seen, failed exactly if the last call meets an unhandled error, or stopped by a signal; then nothing complete was read |
| `FifoReader.ReceiveBlocking` | Course_MohanM/11_IPC/11_4_FIFO_Basics/11_4_2_Reader_End/main.c:111-197 | exactly the messages complete in the bytes read are printed; the reader fails exactly after an unhandled error, its last call; once the stop flag is up nothing is printed but what was complete by then; without either the output and the verdict are a function of the byte stream alone |
| `FifoReader.ReceivePolling` | Course_MohanM/11_IPC/11_5_FIFO_Real_Life_Example_with_poll_and_O_NONBLOCK/11_5_2_Reader/main.c:86-202 | the same for the polling reader, which polls only with the stop flag down and prints at most the message it has begun once that is up; without signal and error it delivers one message for each readable poll and ends by itself exactly if there is one more |
| `Lines.Messages` | Course_MohanM/11_IPC/11_5_FIFO_Real_Life_Example_with_poll_and_O_NONBLOCK/11_5_1_Writer/main.c:69-75 | every message has a length between 1 and the buffer size |
| `Lines.LineByLine` | Course_MohanM/11_IPC/11_5_FIFO_Real_Life_Example_with_poll_and_O_NONBLOCK/11_5_1_Writer/main.c:69-75 | the messages of a line do not depend on what follows it |
| `Lines.LineCount` | Course_MohanM/11_IPC/11_5_FIFO_Real_Life_Example_with_poll_and_O_NONBLOCK/11_5_1_Writer/main.c:69-75 | a line of length L becomes L / (size - 1) + 1 messages |
| `Lines.LinePreserved` | Course_MohanM/11_IPC/11_5_FIFO_Real_Life_Example_with_poll_and_O_NONBLOCK/11_5_1_Writer/main.c:69-75 | the pieces of a line put together are the line if and only if it holds no NUL |
| `Lines.InputPreserved` | Course_MohanM/11_IPC/11_5_FIFO_Real_Life_Example_with_poll_and_O_NONBLOCK/11_5_1_Writer/main.c:69-75 | all printed text put together is the input without newlines if and only if the input holds no NUL, also with an unterminated last line |
| `Lines.PrefixDelivers` | Course_MohanM/11_IPC/11_5_FIFO_Real_Life_Example_with_poll_and_O_NONBLOCK/11_5_2_Reader/main.c:147-151 | any cut of a writer's bytes decodes to the first messages, and the length check never rejects a frame |
| `FifoWriter.Input.Fgets` | Course_MohanM/11_IPC/11_5_FIFO_Real_Life_Example_with_poll_and_O_NONBLOCK/11_5_1_Writer/main.c:69-72 | what fgets puts into the buffer and leaves in the input |
| `FifoWriter.StripsAndMeasures` | Course_MohanM/11_IPC/11_5_FIFO_Real_Life_Example_with_poll_and_O_NONBLOCK/11_5_1_Writer/main.c:74-75 | strcspn and strlen find the content of the chunk whatever an earlier line left in the buffer |
| `FifoWriter.Prepare` | Course_MohanM/11_IPC/11_5_FIFO_Real_Life_Example_with_poll_and_O_NONBLOCK/11_5_1_Writer/main.c:74-75 | after stripping and measuring the buffer starts with the message and its terminator |
| `FifoWriter.WriteField` | Course_MohanM/11_IPC/11_5_FIFO_Real_Life_Example_with_poll_and_O_NONBLOCK/11_5_1_Writer/main.c:104-133 | the FIFO has taken exactly the first `total_written` bytes at every exit, and all of them exactly on completion; an unhandled error is the last call and breaks the loop, a stop signal that it tests for interrupts it, and nothing else stops it |
| `FifoWriter.WriteHeader` | Course_MohanM/11_IPC/11_4_FIFO_Basics/11_4_1_Writer_End/main.c:77-80 | the blocking writer goes on exactly if a single write takes all four bytes; the polling one has a resumable loop |
| `FifoWriter.SendFrame` | Course_MohanM/11_IPC/11_4_FIFO_Basics/11_4_1_Writer_End/main.c:75-117 | header and payload of one message: a prefix of the frame is taken, all of it on completion; without a whole header the blocking writer makes no further call, and it tests for a stop signal before each write of the payload |
| `FifoWriter.Send` | Course_MohanM/11_IPC/11_5_FIFO_Real_Life_Example_with_poll_and_O_NONBLOCK/11_5_1_Writer/main.c:61-135 | the FIFO takes a prefix of the frames of the input, and all of them when the input ends; a writer fails exactly if its last call meets an unhandled error or is a blocking header that does not go whole; after a stop signal the blocking writer makes no call and the polling one completes at most its frame; without signal and error the polling writer ends with its input, the blocking one exactly if each header goes in one piece |
| `WriteRuns.HeaderInterruptionStops` | Course_MohanM/11_IPC/11_4_FIFO_Basics/11_4_1_Writer_End/main.c:77-80 | for any messages and any one of them, an interrupted or short write of its header keeps the blocking writer from finishing |
| `WriteRuns.HeadersGoInPractice` | Course_MohanM/11_IPC/11_4_FIFO_Basics/11_4_1_Writer_End/main.c:36-46 | with handlers that all set the stop flag and header writes that go as a whole, nothing but a stop signal or a hard error keeps the blocking writer from finishing |
| `FifoTransport.StepKeepsInv` | Course_MohanM/11_IPC/11_4_FIFO_Basics/11_4_2_Reader_End/main.c:120-192 | consumed bytes and pipe are what was written, under every step of either side |
| `FifoTransport.Transport` | Course_MohanM/11_IPC/11_4_FIFO_Basics/11_4_2_Reader_End/main.c:120-192 | for every capacity, schedule, transfer size, retry and abort the delivered messages are the first ones sent; at the end of the stream they are exactly the completely written ones; `Clean` if and only if fewer than four further bytes came |
| `FifoTransport.NeverStuck` | Course_MohanM/11_IPC/11_4_FIFO_Basics/11_4_1_Writer_End/main.c:86-117 | while the reader is open one side can go on |
| `FifoTransport.Completion` | Course_MohanM/11_IPC/11_4_FIFO_Basics/11_4_1_Writer_End/main.c:86-117 | the number of useful steps is bounded, and closing after the last message and seeing the end means that exactly the messages were delivered |
| `FifoTransport.CanFinish` | Course_MohanM/11_IPC/11_4_FIFO_Basics/11_4_1_Writer_End/main.c:86-117 | every run with an open reader and a writer that has not closed early can be continued by useful moves alone until the reader has seen the end, with exactly the messages |
| `FifoTransport.CanStopAt` | Course_MohanM/11_IPC/11_4_FIFO_Basics/11_4_2_Reader_End/main.c:120-192 | the writer can end at every byte of every message; the reader then has the messages before and says `Clean` exactly if fewer than four bytes followed |
| `FifoTransport.CleanInsideHeader` | Course_MohanM/11_IPC/11_4_FIFO_Basics/11_4_2_Reader_End/main.c:120-140 | for every message a run in which the writer ends inside its header and the reader says `Clean` |
| `FifoTransport.EndToEnd` | Course_MohanM/11_IPC/11_5_FIFO_Real_Life_Example_with_poll_and_O_NONBLOCK/11_5_1_Writer/main.c:69-133 | the first messages are printed; without NUL in the input the printed text is the beginning of what was typed without the newlines, and after a complete run all of it, if and only if the input held no NUL |
| `FifoTransport.DeliversMeaning` | Course_MohanM/11_IPC/11_4_FIFO_Basics/11_4_2_Reader_End/main.c:120-192 | under every schedule the delivered messages and the verdict at the end are what the format says of the bytes read, however the reads cut them |
| `NamedSemaphore.PermitsConserved` | Course_MohanM/12_Semaphore/12_1_Named_Semaphore/Process_1/main.c:101-112 | permits left and agents in the section add up to the initial value plus the failed waits, which the programs ignore; without one at most `permits` agents are inside |
| `NamedSemaphore.FailedWaitsLetIn` | Course_MohanM/12_Semaphore/12_1_Named_Semaphore/Process_2/main.c:55-65 | for any number of permits and failed waits a run in which as many agents as both together are inside |
| `NamedSemaphore.CreatorSharesSection` | Course_MohanM/12_Semaphore/12_1_Named_Semaphore/Process_1/main.c:101-112 | for any number of permits and failed waits a run in which the creator and all joiners that fit are inside and no permit is left |
| `NamedSemaphore.CreatorWasInside` | Course_MohanM/12_Semaphore/12_1_Named_Semaphore/Process_1/main.c:101-120 | the creator collects only after it has been in the section |
| `NamedSemaphore.CreatorFollowsProgram` | Course_MohanM/12_Semaphore/12_1_Named_Semaphore/Process_1/main.c:87-136 | in every run the creator makes both semaphores, takes a permit or fails to, posts, consumes the expected completions, closes and unlinks both, in this order and completely |
| `NamedSemaphore.JoinersFollowProgram` | Course_MohanM/12_Semaphore/12_1_Named_Semaphore/Process_2/main.c:40-76 | in every run a joiner opens both semaphores, takes a permit or fails to, posts, posts its completion and closes both, in this order and completely; one that gave up has opened at most one of them |
| `NamedSemaphore.OneThingAtATime` | Course_MohanM/12_Semaphore/12_1_Named_Semaphore/Process_1/main.c:87-136 | no step has two effects on the semaphores |
| `NamedSemaphore.UnlinkAfterQuiescence` | Course_MohanM/12_Semaphore/12_1_Named_Semaphore/Process_1/main.c:120-136 | when the creator closes and unlinks, every joiner has left the section and posted, `sem` is back (plus the failed waits) and the completion count is 0, if no more joiners than expected take part |
| `NamedSemaphore.TooManyJoiners` | Course_MohanM/12_Semaphore/12_1_Named_Semaphore/Process_1/main.c:120-138 | for every expected number and every larger number of joiners a run in which the creator has unlinked and exited while a joiner is in the section |
| `NamedSemaphore.QuietIff` | Course_MohanM/12_Semaphore/12_1_Named_Semaphore/Process_1/main.c:120-136 | close and unlink always come after all completions if and only if no more joiners than expected take part |
| `NamedSemaphore.NamesOutlastUse` | Course_MohanM/12_Semaphore/12_1_Named_Semaphore/Process_1/main.c:122-136 | both names exist until the collection is over and are gone at the end; a failed wait on the completion count leaves both behind |
| `NamedSemaphore.NoDeadlock` | Course_MohanM/12_Semaphore/12_1_Named_Semaphore/Process_2/main.c:55-76 | no deadlock if at least as many joiners as expected did not fail to open, for any number of joiners |
| `NamedSemaphore.EarlyJoinerBlocks` | Course_MohanM/12_Semaphore/12_1_Named_Semaphore/Process_2/main.c:40-47 | the creator gets past its collection only if at least as many joiners as expected did not come before the semaphores |
| `NamedSemaphore.FinishesIff` | Course_MohanM/12_Semaphore/12_1_Named_Semaphore/Process_3/main.c:39-46 | when nothing moves any more the creator is through if and only if at least as many joiners as expected did not fail to open, and then everybody is |
| `NamedSemaphore.EarlyJoinersBlockForever` | Course_MohanM/12_Semaphore/12_1_Named_Semaphore/Process_2/main.c:40-47 | for any number of joiners, fewer than expected of which come after the semaphores, a run that leaves the creator waiting with nobody able to go on |
| `NamedSemaphore.FailsIff` | Course_MohanM/12_Semaphore/12_1_Named_Semaphore/Process_2/main.c:40-47 | a joiner past its check has failed if and only if one of the two names was missing when it opened it |
| `NamedSemaphore.BoundedRun` | Course_MohanM/12_Semaphore/12_1_Named_Semaphore/Process_1/main.c:87-138 | a run has at most 8 steps per joiner, one per expected completion and 9 more |
| `SharedSum.SumIsExact` | Course_MohanM/12_Semaphore/12_2_Unnamed_Semaphores/12_2_1_Inter_Threads/main.c:128-138 | the sum is `loops` times the threads past the addition, which loads and stores in two steps, for every number of permits and with failed waits, and n times `loops` at the report |
| `SharedSum.SumOnlyUnderMutex` | Course_MohanM/12_Semaphore/12_2_Unnamed_Semaphores/12_2_1_Inter_Threads/main.c:135-138 | a step whose agent does not hold the mutex neither reads nor writes the sum: with another sum it is possible just the same and has the same effect |
| `SharedSum.ReadsOrWrites` | Course_MohanM/12_Semaphore/12_2_Unnamed_Semaphores/12_2_1_Inter_Threads/main.c:137 | no step both reads and writes the sum |
| `SharedSum.OneThingAtATime` | Course_MohanM/12_Semaphore/12_2_Unnamed_Semaphores/12_2_1_Inter_Threads/main.c:121-140 | no step changes two of semaphore, mutex and sum |
| `SharedSum.SumChangesUnderMutex` | Course_MohanM/12_Semaphore/12_2_Unnamed_Semaphores/12_2_1_Inter_Threads/main.c:135-138 | the sum changes only in a step of the thread that holds the mutex before and after it, by `loops` |
| `SharedSum.ThreadsFollowProgram` | Course_MohanM/12_Semaphore/12_2_Unnamed_Semaphores/12_2_1_Inter_Threads/main.c:121-140 | in every run every thread takes a permit or fails to, locks, adds `loops`, unlocks and posts, in this order and completely |
| `SharedSum.Outcome` | Course_MohanM/12_Semaphore/12_2_Unnamed_Semaphores/12_2_1_Inter_Threads/main.c:96-108 | at the end all threads are gone, the sum is complete, both primitives are destroyed and the semaphore is at its initial value plus the failed waits |
| `SharedSum.PermitsConserved` | Course_MohanM/12_Semaphore/12_2_Unnamed_Semaphores/12_2_1_Inter_Threads/main.c:121-140 | permits left and threads between wait and post add up to the initial value plus the failed waits, which the threads report and ignore |
| `SharedSum.Exclusion` | Course_MohanM/12_Semaphore/12_2_Unnamed_Semaphores/12_2_1_Inter_Threads/main.c:121-140 | one thread at most at the sum; between wait and post at most `permits` threads as long as no wait failed, and at most one more for each failed wait |
| `SharedSum.FailedWaitsLetIn` | Course_MohanM/12_Semaphore/12_2_Unnamed_Semaphores/12_2_1_Inter_Threads/main.c:121-124 | for any number of permits and failed waits a run in which as many threads as both together are between wait and post |
| `SharedSum.OverflowIff` | Course_MohanM/12_Semaphore/12_2_Unnamed_Semaphores/12_2_1_Inter_Threads/main.c:137 | an addition leaves the range of int exactly when `loops` times one more thread does |
| `SharedSum.RunsAreLegal` | Course_MohanM/12_Semaphore/12_2_Unnamed_Semaphores/12_2_1_Inter_Threads/main.c:96-106 | with n times `loops` in range no step overflows, touches the sum without the mutex or uses a destroyed primitive |
| `SharedSum.NoDeadlock` | Course_MohanM/12_Semaphore/12_2_Unnamed_Semaphores/12_2_1_Inter_Threads/main.c:121-140 | with at least one permit some agent can always go on |
| `SharedSum.BoundedRun` | Course_MohanM/12_Semaphore/12_2_Unnamed_Semaphores/12_2_1_Inter_Threads/main.c:86-146 | every run is bounded by (loops + 10) n + 5 steps |
| `Handshake.Order` | Course_MohanM/10_Threads/10_3_Two_Way_Handshake_Mutex_Condition_Variables/main.c:53-78 | ready, proceed, work, done and main's second wait happen in this order in every run, and main exits only after the thread |
| `Handshake.FlagsOnlyUnderMutex` | Course_MohanM/10_Threads/10_3_Two_Way_Handshake_Mutex_Condition_Variables/main.c:53-114 | a step whose agent does not hold the mutex neither reads nor writes the flags |
| `Handshake.OneThingAtATime` | Course_MohanM/10_Threads/10_3_Two_Way_Handshake_Mutex_Condition_Variables/main.c:49-114 | no step does two of: change the mutex, change a flag, start or wake the other agent |
| `Handshake.MainFollowsProgram` | Course_MohanM/10_Threads/10_3_Two_Way_Handshake_Mutex_Condition_Variables/main.c:49-73 | main changes the shared data in the order of its program and completely: create, lock, proceed, unlock, lock for the second wait, unlock |
| `Handshake.WorkerFollowsProgram` | Course_MohanM/10_Threads/10_3_Two_Way_Handshake_Mutex_Condition_Variables/main.c:95-114 | so does the thread: lock, ready, unlock, work, lock, done, unlock |
| `Handshake.NeverStuck` | Course_MohanM/10_Threads/10_3_Two_Way_Handshake_Mutex_Condition_Variables/main.c:53-114 | one condition variable for two events loses no wakeup: no reachable state is stuck |
| `Handshake.BoundedRun` | Course_MohanM/10_Threads/10_3_Two_Way_Handshake_Mutex_Condition_Variables/main.c:53-114 | at most 54 steps and four for each spurious wakeup |
| `Handover.RunsAreLegal` | Course_MohanM/10_Threads/10_7_Dynamic_Mutex_and_Condition_Variables_Detachable/main.c:90-142 | no use of the block after destruction or free, destruction once and only of idle primitives |
| `Handover.OwnerAlone` | Course_MohanM/10_Threads/10_7_Dynamic_Mutex_and_Condition_Variables_Detachable/main.c:130-142 | when the thread owns the block main has unlocked and never moves again; in the end everything was destroyed and freed once |
| `Handover.FlagsOnlyUnderMutex` | Course_MohanM/10_Threads/10_7_Dynamic_Mutex_and_Condition_Variables_Detachable/main.c:90-130 | a step whose agent does not hold the mutex neither reads nor writes the flags |
| `Handover.OneThingAtATime` | Course_MohanM/10_Threads/10_7_Dynamic_Mutex_and_Condition_Variables_Detachable/main.c:85-142 | no step does two of: change the mutex, change a flag, start or wake the other agent, destroy or free |
| `Handover.MainFollowsProgram` | Course_MohanM/10_Threads/10_7_Dynamic_Mutex_and_Condition_Variables_Detachable/main.c:85-98 | main changes the shared data in the order of its program and completely: create, lock, proceed, unlock |
| `Handover.WorkerFollowsProgram` | Course_MohanM/10_Threads/10_7_Dynamic_Mutex_and_Condition_Variables_Detachable/main.c:121-142 | so does the thread: lock, ready, unlock, three destructions, free |
| `Handover.NeverStuck` | Course_MohanM/10_Threads/10_7_Dynamic_Mutex_and_Condition_Variables_Detachable/main.c:90-142 | no reachable state is stuck |
| `Handover.BoundedRun` | Course_MohanM/10_Threads/10_7_Dynamic_Mutex_and_Condition_Variables_Detachable/main.c:90-142 | at most 33 steps and four for each spurious wakeup |
| `Cancellation.CancelledInRange` | Course_MohanM/10_Threads/10_5_Canceling_a_Thread/main.c:100-107 | the cancellation is issued with stop <= counter <= max, the final counter is in that range and at most one above the counter at issue, a cancelled thread holds no mutex, and the thread gets to its own end only if it had counted to max by then |
| `Cancellation.HandlerNeverRuns` | Course_MohanM/10_Threads/10_5_Canceling_a_Thread/main.c:132-144 | wherever a cancellation can reach the thread its cleanup handler is not pushed |
| `Cancellation.DataOnlyUnderMutex` | Course_MohanM/10_Threads/10_5_Canceling_a_Thread/main.c:88-139 | a step whose agent does not hold the mutex neither reads nor writes flags and counter |
| `Cancellation.OneThingAtATime` | Course_MohanM/10_Threads/10_5_Canceling_a_Thread/main.c:85-144 | no step does two of: change the mutex, change flag or counter, cancel or change the handler, start or wake the other agent |
| `Cancellation.MainFollowsProgram` | Course_MohanM/10_Threads/10_5_Canceling_a_Thread/main.c:85-107 | main creates, locks, gives the start signal, unlocks, locks, cancels and unlocks, in this order and completely |
| `Cancellation.ThreadFollowsProgram` | Course_MohanM/10_Threads/10_5_Canceling_a_Thread/main.c:118-144 | the thread reports ready and counts in rounds of lock, push, count, unlock, pop; ended or cancelled, it has completed all it began |
| `Cancellation.StuckIff` | Course_MohanM/10_Threads/10_5_Canceling_a_Thread/main.c:100-105 | a run comes to its end if stop <= max, and otherwise main waits for ever |
| `Cancellation.BoundedRun` | Course_MohanM/10_Threads/10_5_Canceling_a_Thread/main.c:88-145 | every run is bounded by 12 max + 32 steps and four for each spurious wakeup |
| `Cancellation.ZeroThresholdLeaksMutex` | Course_MohanM/10_Threads/10_5_Canceling_a_Thread/main.c:122-126 | a run with threshold 0 in which the thread is cancelled inside its wait and keeps the mutex |
| `SearchOverwrite.MatchedIff` | Course_MohanM/2_File_Operations/2_5_Exercise_L_seek/main.c:78-82 | the iterator is at the end exactly when the target is a subsequence of the bytes read |
| `SearchOverwrite.SearchAndReplace` | Course_MohanM/2_File_Operations/2_5_Exercise_L_seek/main.c:58-96 | the loop stops at the shortest prefix that holds the target as a subsequence and replaces one byte there; it reads past the buffer exactly if a longer text does not hold the target as a subsequence within it, and otherwise leaves a text without the new letter alone exactly if the part that fits the buffer does not hold it |
| `SearchOverwrite.ReplacesFirstIff` | Course_MohanM/2_File_Operations/2_5_Exercise_L_seek/main.c:78-93 | the first occurrence is the one replaced exactly when the target is not scattered over the text before its last byte |
| `SearchOverwrite.LateTargetOverruns` | Course_MohanM/2_File_Operations/2_5_Exercise_L_seek/main.c:58-70 | for every target and buffer size a text that contains the target and makes the loop read past the buffer |
| `SearchOverwrite.FirstLetterOpens` | Course_MohanM/2_File_Operations/2_5_Exercise_L_seek/main.c:78-93 | if the first letter of its kind opens an occurrence, that letter is replaced and nothing else |
| `SearchOverwrite.ScatteredMatchIsOverwritten` | Course_MohanM/2_File_Operations/2_5_Exercise_L_seek/main.c:78-93 | a text without the target that is changed all the same |
| `SearchOverwrite.EarlyLettersMislead` | Course_MohanM/2_File_Operations/2_5_Exercise_L_seek/main.c:78-93 | a text that contains the target and in which another byte is replaced |
| `Grayscale.Rgb2Gray` | RPi3B_Projects/Image_Processing/Morphological_Operations/Boundary_Extraction/main.c:52-63 | every output pixel is the luma of its own triple and nothing else is written |
| `Grayscale.LumaBetween` | RPi3B_Projects/Image_Processing/Morphological_Operations/Boundary_Extraction/main.c:57-62 | the cast loses nothing and the value lies between the components |
| `Grayscale.LumaError` | RPi3B_Projects/Image_Processing/Morphological_Operations/Boundary_Extraction/main.c:61-62 | the value differs from the exact luma by less than 1.455 |

## Left out

- Printing, `perror`, log formatting and the values read by `sem_getvalue`: output only.
- `sleep`, `usleep`, poll timeouts: real time is replaced by arbitrary scheduling.
- Failing library calls that go straight to `exit` through `CHECK_ERR`: assumed to succeed, except the errors the loops handle and the semaphore waits.
- The kernel: mutexes, condition variables, semaphores, FIFO and file offsets follow assumed step rules; fairness of the scheduler is not assumed, so termination is stated as a bound on useful steps together with absence of deadlock.
- Threads and processes of 10_3, 10_5, 10_7, 10_9, 12_1 and 12_2_1 are modelled on values, not as objects updated in place: that a thread reaches its data through a pointer, and aliasing between such pointers, is not captured. Memory ordering outside the locked sections is not either.
- Several writers on one FIFO: header and payload are separate writes, so frames of two writers can mix.
- ReceivePolling: a hang-up without data makes the program poll for ever; the recorded polls end with the stop signal, so this shows as a run that is stopped.
- Line 166 of 10_9 signals a condition variable on which nobody waits, and line 134 of 10_7 reads an argument that nobody changes: steps without an effect in the model.
- Endless interruption: a script of call outcomes is finite, so a loop that is interrupted for ever is not a behaviour of the model.
- Memory allocation failure in the readers.
- Semaphores of the same names left over from an earlier run of 12_1: the creator is assumed to make fresh ones.
- Cancellation: messages printed on failing calls inside the locked section would be cancellation points too; cancelling a thread that has already finished is taken to do nothing.
- SearchAndReplace: failing reads and writes; after a read past the buffer nothing is claimed.
- 10_6 (a thread that spins on purpose), 10_8 (the joinable variant of 10_7), the process, memory, signal, shared-memory and message-queue demonstrations, and the unfinished `main` of the image program: fixed scripts without a comparable property.
