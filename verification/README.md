# Verified model of the reactor's stateful core

The library is a reactor for TCP servers: an event loop that owns a poller, a timer queue and a list of
functors handed over by other threads; connections with an output buffer; a thread pool; and a vendored
logger. This project models the parts that keep state between calls and proves what they keep.

| file | subject |
|---|---|
| `Timestamp.dfy`, `OrderedEntries.dfy` | times, intervals, the relative time given to the timerfd; the ordered set of entries |
| `TimerState.dfy` | the timer queue as a value: heap, both indexes, batch, functors handed over, timerfd, log of callbacks |
| `TimerInvariants.dfy` | agreement of the indexes, ownership, no failed assertion and no touch of a freed timer, over all runs |
| `TimerHistory.dfy`, `TimerSchedule.dfy` | which callbacks a firing starts; how the starts of one timer are spaced |
| `TimerCancel.dfy`, `TimerOutcome.dfy`, `TimerFate.dfy` | cancelling is final; what becomes of every timer in a firing, and in a whole run |
| `TimerHandoff.dfy` | what other threads hand over is carried out in order, as asked |
| `TimerDestruction.dfy` | calls made while a timer is being deleted and its callback destroyed |
| `TimerArming.dfy`, `TimerLoss.dfy` | what the timerfd is armed for, as written and repaired; runs in which a timer is lost or the timerfd fires too early |
| `TimerQueue.dfy` | the class with its methods and loops, each proved equal to the function on the value |
| `EventLoopProtocol.dfy`, `EventLoop.dfy` | the cross-thread hand-off as interleaved steps; the loop's own methods, each proved to be a run of these steps |
| `ThreadPool.dfy` | the pool as a monitor protocol |
| `BufferLayout.dfy`, `Buffer.dfy` | the byte buffer as a value and as an array moved and grown in place |
| `SendPath.dfy`, `TcpConnection.dfy` | sending under arbitrary short writes, as a value and as a class |
| `Registration.dfy`, `EpollPoller.dfy` | a channel's registration in its three copies; channels and poller as classes |
| `WildCard.dfy`, `HitCounters.dfy`, `EventLoopThreadPool.dfy`, `Arithmetic.dfy`, `Options.dfy` | wild-card matching, every-n-th logging, round robin |

## How to read it

Objects whose methods update fields are classes. Each such method is proved to do exactly what a function on
the object's value does, and the theorems about whole runs are lemmas about these functions. A run is an
arbitrary finite sequence of steps, so a lemma about `Run` speaks of every reachable state.

* A timer callback is an arbitrary script of calls it makes on the queue, from the loop thread or (as
  interleaved calls) from other threads. The clock read by a firing is arbitrary, and the readiness it runs on may
  be stale: `expired` says whether reading the timerfd finds an expiry. The allocator may return any address that
  is free, including one just freed: `pick` is the address it would like to return.
* User code also runs when a callback or functor is destroyed with what it owns. In reset the script of a freed
  timer's callback (`freed`) runs in the round that frees it; in cancelInLoop it is part of the calling script, just
  after the cancellation, which `TimerDestruction` proves to be the same unless a timer is cancelled while its own
  cancellation is under way. In the event loop the phase `Release` is the destruction of a batch's functors.
* Sequence numbers are shared by the queues of all loops: at any time others may have taken some.
* The queue as a value has a flag `ok` that turns false when an operation would touch a timer that is not
  allocated or when one of the source's assertions (TimerQueue.cpp lines 155, 225, 288) would fail. That it never
  does is part of the invariant. In the class the same facts are the methods' own checks.
* The event loop's cross-thread part and the thread pool are state machines whose actions are the sections under
  the mutex, the single accesses to atomics and the system calls; an action that is not enabled is not taken.
* A `Variant`, `AppendVariant`, `Order` or `Repairs` argument selects the code as written or a named repair beside it.

## Where the code departs from its evident intent

The code is modelled as it is; each repaired variant stands beside it.

* `Buffer::append` copies bytes but does not advance `writerIndex_` (Buffer.h:88-92). Bytes are conserved over a
  sequence of operations if and only if no operation appends anything and no read exceeds the writable bytes;
  with an append that advances they always are.
* `sendInLoop` enables reading where writing is meant (TcpConnection.cpp:246-249). As written there is never a
  backlog: the unwritten rest of a message is dropped. With both repairs delivery is complete and in order;
  either repair alone is not enough.
* `TimerQueue::reset` re-arms inside its loop (TimerQueue.cpp:237-267). A firing that reads an expired timerfd and
  finds nothing due leaves it disarmed with timers waiting; this is reached by cancelling the earliest timer.
* The guard of the re-arming (TimerQueue.cpp:262-266) refuses times that are not after the epoch. A callback that
  inserts timers for such times and cancels the earliest of them leaves the timerfd armed too early, under either
  variant; no timer is missed by that. A clock that shows such a time loses timers.
* `cancelInLoop` deletes the timer before it erases its id (TimerQueue.cpp:158-161). A callback that owns an object
  whose destructor cancels that same timer finds the id again, and the assertion at line 155 fails; with the id
  erased first everything stays in order.
* A destructor that runs in reset (TimerQueue.cpp:254) and cancels a later timer of the batch has no effect, since
  the flag that would mark it is already false; that timer is re-inserted if it repeats.
* `cancel` of a timer whose insertion is still queued has no effect (TimerQueue.cpp:150-168).
* The destructor leaves timers allocated that a queued functor still carries (TimerQueue.cpp:98-103).
* `loop()` overwrites a `quit()` made before it (EventLoop.cpp:66), by the loop thread or by another, as the
  destructor in EventLoopThread.cpp:24-33 may make it.
* A functor that the owner queues before `loop()` does not wake the first poll (EventLoop.cpp:118), nor does one that
  it queues while the batch's functors are destroyed, after the flag has been cleared (EventLoop.cpp:176-177).
* A second `disableAll` on a channel puts its descriptor back on the kernel's list with an empty mask
  (EpollPoller.cpp:80-91), and the test for a read event is always true (Channel.cpp:104).
* The comment on `cancelingTimers_` (TimerQueue.h:85-91) speaks of timers that have not expired; the code inserts
  every id that is not active, and the ones that matter are those of the running batch.

## Assumptions

Addresses are unbounded naturals below the sentry's all-ones pointer, integers are unbounded, an interval is a
real number of seconds whose conversion drops the fraction, the clock of a firing shows a time after the epoch
(theorems about arming only, where it is proved to be necessary), a section under a mutex is atomic, atomics are
sequentially consistent, and a timer's sequence number is read before the timer is handed over. A system call
contributes only its effect: a clock value, a number of bytes, a refusal. Handlers, functors, timer callbacks and
destructors do not throw in the loop thread; in the thread pool tasks and the init callback may throw, but copying a
task (Thread/ThreadPool.cpp:90) does not.

## Model

| member | source | states |
|---|---|---|
| Time.AddTimeNeverBackwards | Timestamp.h:80-86 | adding an interval moves time by exactly the whole microseconds in it, the fraction dropped towards zero, and never back for one that is not negative |
| Time.TimeSpecDenotes | TimerQueue.cpp:35-48 | the relative time is in normal form, is exactly the distance clamped at 100 microseconds, and is never zero, so arming never disarms |
| OrderedEntries.LowerBoundSplits | TimerQueue.cpp:206-215 | the sentry splits the set into the entries at or before now, in order, and those after now |
| OrderedEntries.SortedByTimeThenAddress | TimerQueue.h:46-49 | entries are ordered by time, equal times by address, without duplicates |
| TimerInvariants.NewIsLoose | TimerQueue.cpp:106-109 | a new timer has an address and a sequence number of its own and belongs to no index yet |
| TimerInvariants.InsertAdopts | TimerQueue.cpp:270-299 | a timer owned by nobody is inserted into both sets, the assertion at 288 holding, and the invariant is restored |
| TimerInvariants.CancelKeepsInv | TimerQueue.cpp:142-169 | cancelling any id at all, stale or forged, in or outside a batch, keeps the invariant; the assertion at 155 holds, where the deletion does not cancel the same id again (DestructionIsSafeIff) |
| TimerInvariants.ExecKeepsInv | TimerQueue.cpp:106-124 | every client call, from any thread, keeps the invariant and leaves the running batch as it is |
| TimerInvariants.DeliverKeepsInv | TimerQueue.cpp:112-123 | running the oldest queued functor keeps the invariant |
| TimerInvariants.ExtractKeepsInv | TimerQueue.cpp:203-231 | every due timer is found among the active ones (assertion at 225) and afterwards belongs to the batch alone |
| TimerInvariants.CallbacksKeepInv | TimerQueue.cpp:184-194 | callbacks that add and cancel at will keep the invariant, and every timer of the batch is allocated when its turn comes |
| TimerInvariants.SettleKeepsInv | TimerQueue.cpp:237-255 | re-inserting or freeing the next timer of the batch keeps the invariant, so nothing is freed twice |
| TimerInvariants.RoundKeepsInv | TimerQueue.cpp:239-255 | the same with whatever calls the destruction of the freed timer's callback makes |
| TimerInvariants.FireKeepsInv | TimerQueue.cpp:171-201 | a whole firing keeps the invariant and ends outside a batch |
| TimerInvariants.RunKeepsInv | TimerQueue.cpp:106-299 | in every run, with calls from callbacks and from their destruction, the indexes agree, each timer has one owner, no assertion fails and no freed timer is touched; the one exception is in DestructionIsSafeIff |
| TimerDestruction.DestructionIsSafeIff | TimerQueue.cpp:150-162 | with destructors calling the queue in the middle of cancellations, nested at will, no assertion fails and the invariant is kept iff no timer is cancelled while its own cancellation is under way; then the effect is that of a script, so that all theorems about scripts and runs hold of it |
| TimerDestruction.CancellingItselfFails | TimerQueue.cpp:155-161 | the smallest input for which the assertion fails |
| TimerDestruction.NoneCancelsItselfSuffices | TimerQueue.cpp:150-162 | a condition on the destructors alone: none cancels a timer inside whose cancellation it runs |
| TimerDestruction.ErasingFirstIsSafe | TimerQueue.cpp:158-161 | with the id erased before the timer is deleted everything stays in order for all destructors |
| TimerDestruction.DestructionIsARun | TimerQueue.cpp:142-169 | outside a batch what destructors do in the course of cancellations is a run |
| TimerDestruction.DeleteRoundIsARound | TimerQueue.cpp:251-255 | a deletion in reset whose memory is free only after the callback's destruction is a round of the model |
| TimerInvariants.SetsAgree | TimerQueue.h:46-49 | in every run (w, a) is in the time-ordered set exactly when (a, a's sequence) is active and w is a's expiration |
| TimerInvariants.LiveTimersHaveOneOwner | TimerQueue.cpp:106-169 | in every run the allocated timers are exactly those in the sets and those a queued insertion carries, never both |
| TimerInvariants.InitialInv | TimerQueue.cpp:78-90 | the invariant holds of an empty queue, so of every run from it |
| TimerHistory.DueIsExact | TimerQueue.cpp:203-215 | the batch is exactly the timers at or before now, sorted; everything left is later |
| TimerHistory.FireRunsExactlyTheDue | TimerQueue.cpp:171-201 | a firing starts exactly the callbacks due at its entry, once each, in order of expiration, whatever they and their destruction do; timers they add wait |
| TimerSchedule.RunKeepsSchedule | TimerQueue.cpp:203-255 | in every run and for every clock, two starts of one timer are at least its interval apart and only repeating timers start twice |
| TimerSchedule.OneShotStartsOnce | TimerQueue.cpp:243-255 | a one-shot timer starts at most once in a run |
| TimerSchedule.StartsSpan | Timer.cpp:15-26 | k starts of one timer span at least k - 1 of its intervals |
| TimerCancel.CancelRemovesOnlyItsTimer | TimerQueue.cpp:146-162 | cancelling removes the timer with exactly this address and sequence number and leaves all others as they were |
| TimerCancel.ReusedAddressIsSafe | TimerQueue.cpp:146-162 | a stale id leaves alone the timer that has since been allocated at its address |
| TimerCancel.CancelWorksIffWaiting | TimerQueue.cpp:150-168 | while no callback runs, cancelling frees an allocated timer if and only if it waits in the sets, and otherwise has no effect |
| TimerCancel.CancelBeforeInsertionIsLost | TimerQueue.cpp:106-124 | a cancellation that overtakes the queued insertion changes nothing, and the timer becomes active afterwards |
| TimerCancel.GoneForEver | TimerQueue.cpp:106-268 | a sequence number that was given out and has no timer never starts again in any continuation |
| TimerCancel.CancelInsideBatch | TimerQueue.cpp:163-168 | a timer that any callback of a batch cancels, also one that a callback of the same batch has inserted, is freed by its end even if it repeats; it started in that batch iff it had been waiting and was due, and once |
| TimerCancel.CancelInsideReset | TimerQueue.cpp:237-255 | the same for a timer that waits when the destruction of a freed callback cancels it in reset |
| TimerCancel.CancelIsFinal | TimerQueue.cpp:119-169 | however cancelInLoop comes to run - called in the loop thread, queued by another thread, called by any callback, or, for a timer that waits, by the destruction of one in reset - once it has run for an inserted timer its callback never starts again in any continuation, except, at most once, in the batch that had extracted it |
| TimerCancel.CancelledWaitingNeverStarts | TimerQueue.cpp:142-255 | a timer that waits when a callback cancels it, inserted in this batch or before, starts neither in the rest of the batch nor afterwards |
| TimerHandoff.RunCarries | TimerQueue.cpp:106-124 | in every run the functors handed over are taken in order, one by each delivery, and nothing else takes them or changes the timers they carry |
| TimerHandoff.PostedCancelIsFinal | TimerQueue.cpp:119-124 | a cancellation from another thread runs cancelInLoop after exactly the deliveries of what was queued before, whatever else happens; if the timer has been inserted by then its callback never starts again |
| TimerHandoff.PostedAddIsInserted | TimerQueue.cpp:106-117 | a timer added by another thread waits after its delivery, with the time and interval asked for and the number it was given |
| TimerOutcome.OutcomeOfDue | TimerQueue.cpp:233-255 | a due timer waits again one interval after the firing exactly if its interval is positive and neither a callback of the batch nor, after its restart, a destructor in reset cancelled it; otherwise it is freed |
| TimerOutcome.OtherRound | TimerQueue.cpp:237-255 | a destructor that runs in reset before the timer's own round cannot keep a timer of the batch from being restarted |
| TimerOutcome.OutcomeOfNotDue | TimerQueue.cpp:171-201 | a waiting timer that is not due waits unchanged when the firing ends exactly if neither a callback of the batch nor a destructor in reset cancelled it; otherwise it is freed |
| TimerOutcome.AddedTimerWaits | TimerQueue.cpp:106-140 | a timer added in the loop thread waits at once, at the time asked for, with the next sequence number |
| TimerOutcome.NumbersTakenElsewhere | Timer.cpp:13 | numbers that other queues have taken are not given out again |
| TimerOutcome.AddedInBatchSurvives | TimerQueue.cpp:190-200 | a timer added by a callback and not cancelled by what follows in the firing waits when it ends |
| TimerFate.StartsIffFiredBeforeCancelled | TimerQueue.cpp:142-231 | over every run, the callback of a waiting timer is started iff some firing's clock is at or past its time before the timer has been cancelled in whichever way |
| TimerFate.OneShotStartsOnceFrom | TimerQueue.cpp:243-255 | the callback of a timer whose interval is not positive starts at most once |
| TimerArming.CancelArms | TimerQueue.cpp:142-169 | a cancellation leaves the timerfd armed exactly iff it spares the earliest time, and in any case armed no later than the earliest timer |
| TimerArming.FireArmsIffSomethingDue | TimerQueue.cpp:171-268 | as written, whatever the timers' times and the calls of callbacks and destructors: a firing with something due leaves the timerfd armed in time, and exactly iff reset's guard lets it; one with nothing due leaves what the read left, so an expired timerfd stays disarmed with timers waiting, and after stale readiness the arming is unchanged |
| TimerArming.ValidAddsSuffice | TimerQueue.cpp:262-266 | the guard lets it if no callback or destructor inserts a timer at a time not after the epoch |
| TimerArming.ResetArms | TimerQueue.cpp:233-268 | where the guard is true when the loop comes to it last the timerfd ends armed for exactly the earliest timer, where it is false it stays as it was |
| TimerArming.RepairedFireArms | TimerQueue.cpp:256-267 | with re-arming moved after the loop every firing leaves the timerfd armed in time, and exactly under the same condition on the guard |
| TimerArming.RepairIsConservative | TimerQueue.cpp:237-267 | if something is due the repaired firing is the firing as written, except that after calls from destructors the arming may differ where no timer waits or the guard refuses the earliest; if nothing is due, it only arms the timerfd for the earliest timer |
| TimerArming.StepArms | TimerQueue.cpp:126-268 | a step keeps the arming exact iff it is none of these: a cancellation of the sole earliest timer, a firing with nothing due at an expired timerfd, a firing whose callbacks leave an earliest time that the guard refuses and that is not armed for |
| TimerArming.RunArmsExactly | TimerQueue.cpp:126-268 | in every run made of such steps the timerfd is armed for exactly the earliest timer |
| TimerArming.StepArmsInTime | TimerQueue.cpp:126-268 | a step keeps "armed no later than the earliest", for all times of timers, except, as written, a firing with nothing due at an expired timerfd |
| TimerArming.RepairedRunArmsInTime | TimerQueue.cpp:126-268 | with the repair, in every run with arbitrary cancellations, times of timers and clocks after the epoch, no timer is missed |
| TimerLoss.AsWrittenLosesATimer | TimerQueue.cpp:233-268 | a concrete run of four steps after which a timer waits and the timerfd is disarmed |
| TimerLoss.InvalidAddsArmTooEarly | TimerQueue.cpp:262-266 | a concrete firing with something due after which, under either variant, the timerfd is armed for a cancelled timer and not for the earliest |
| TimerLoss.StaleTimeIsArmed | TimerQueue.cpp:235-266 | the time found in one round of reset is armed again in a later round that leaves no timer waiting |
| TimerLoss.ClockMustBeValid | TimerQueue.cpp:175-268 | the repaired firing leaves the timerfd armed in time in every state and for all callbacks iff its clock shows a time after the epoch |
| TimerLoss.LostUnlessNoticed | TimerQueue.cpp:126-169 | with the timerfd disarmed a step leaves a waiting timer lost iff it neither cancels that timer nor inserts one that becomes the earliest |
| TimerLoss.LostForGood | TimerQueue.cpp:106-169 | through any run of such steps - additions and cancellations by the loop thread, handed over and delivered - the timer stays lost and nothing starts |
| TimerQueues.TimerQueue.constructor | TimerQueue.cpp:78-90 | an empty queue |
| TimerQueues.TimerQueue.Destroy | TimerQueue.cpp:92-104 | frees each timer of the sets once and leaves allocated exactly those a queued functor carries |
| TimerQueues.TimerQueue.AddTimer | TimerQueue.cpp:106-117 | creates a timer with a new sequence number; in the loop thread it is active on return, elsewhere its insertion is queued |
| TimerQueues.TimerQueue.Cancel | TimerQueue.cpp:119-124 | cancels at once in the loop thread; elsewhere queues the cancellation, with the effect stated by PostedCancelIsFinal |
| TimerQueues.TimerQueue.RunQueued | TimerQueue.cpp:112-123 | runs the oldest queued functor |
| TimerQueues.TimerQueue.AddTimerInLoop | TimerQueue.cpp:126-140 | the method is the function on the value: insertion, and arming if the earliest time has changed |
| TimerQueues.TimerQueue.CancelInLoop | TimerQueue.cpp:142-169 | the method is the function on the value; one entry is erased and its timer freed while allocated |
| TimerQueues.TimerQueue.HandleRead | TimerQueue.cpp:171-201 | reading the timerfd, expired or not, and the loops over the batch compute the firing on the value, for arbitrary callbacks and destructors |
| TimerQueues.TimerQueue.GetExpired | TimerQueue.cpp:203-231 | returns the due entries and takes them out of both sets |
| TimerQueues.TimerQueue.EraseActive | TimerQueue.cpp:217-227 | the loop finds and erases every expired timer's id |
| TimerQueues.TimerQueue.Reset | TimerQueue.cpp:233-268 | the loop with its re-arming inside, for the time found in this round or an earlier one, is the settling of the batch as written |
| TimerQueues.TimerQueue.Insert | TimerQueue.cpp:270-299 | both insertions succeed and the result tells whether the earliest time has changed |
| TimerQueues.TimerQueue.Perform | TimerQueue.cpp:106-299 | any step of a run performed on the object is the step on its value, so the theorems about runs hold of it |
| EventLoopProtocol.RunKeepsOrder | EventLoop.cpp:111-177 | executed, rest of the batch and pending are together always the functors recorded as pushed, in order |
| EventLoopProtocol.RunPushes | EventLoop.cpp:111-116 | these are exactly the functors of the push actions of the run: another thread's whenever it is not between an earlier push and its wakeup, wherever the loop is, the loop thread's in all user code |
| EventLoopProtocol.ExecutedIsAPrefixOfPushed | EventLoop.cpp:111-177 | in every interleaving the functors of the push actions run once each, first in first out, the others wait, and a running batch holds only functors pushed before its swap |
| EventLoopProtocol.BatchIsFixedAtSwap | EventLoop.cpp:161-177 | between swap and end of batch exactly the functors swapped out are started, whatever is pushed meanwhile |
| EventLoopProtocol.StepLosesNone | EventLoop.cpp:63-134 | a step leaves a functor waiting unannounced iff it enters loop(), or goes on after a batch's functors have been destroyed, with one that nobody will announce |
| EventLoopProtocol.NoLostWakeup | EventLoop.cpp:63-177 | for any threads and interleaving without such a step, at poll with functors waiting the eventfd is readable or a thread is between push and wakeup |
| EventLoopProtocol.AnnouncementEndsPoll | EventLoop.cpp:125-134 | a thread that owes a wakeup can make it wherever the loop is, and a readable eventfd ends the poll |
| EventLoopProtocol.QueueingInsideSuffices | EventLoop.cpp:111-123 | an owner that queues only from its handlers and functors, not from destructors of functors, takes no such step, also when it loops again |
| EventLoopProtocol.BlockedMeansNothingToDo | EventLoop.cpp:68-80 | when poll can only time out and no other thread is on its way, every functor of a push action has run and no quit is outstanding |
| EventLoopProtocol.QueuedBeforeLoopIsNotAnnounced | EventLoop.cpp:118-121 | a functor the owner queues before loop() waits at the first poll with nothing to wake it |
| EventLoopProtocol.QueuedInDestructorIsNotAnnounced | EventLoop.cpp:161-177 | a functor queued by a destructor of a functor of the batch waits at the next poll with nothing to wake it |
| EventLoopProtocol.OneIterationRunsAllThatWaited | EventLoop.cpp:68-80 | back at its test, at poll and after its return, the loop has run every functor that the actions before the last return of poll pushed |
| EventLoopProtocol.RunAnnouncesQuit | EventLoop.cpp:84-95 | in every run, at poll with a request to quit the eventfd is readable or the requesting thread is about to make it so |
| EventLoopProtocol.QuitIsObeyed | EventLoop.cpp:66-80 | a request made after line 66 stays, and poll is never entered again |
| EventLoopProtocol.QuitEndsLoopIffInside | EventLoop.cpp:65-95 | a request to quit by any thread makes loop() return without entering poll again, whatever else happens, iff loop() has been entered when it is made |
| EventLoopProtocol.QuitBeforeLoopIsForgotten | EventLoop.cpp:65-66 | a request made before loop(), by the loop thread or by another, leaves the loop at poll with the flag false; another thread then has only its one wakeup left |
| EventLoops.EventLoop.Quit | EventLoop.cpp:84-95 | is the protocol's run of setting the flag, followed by a wakeup exactly from another thread |
| EventLoops.EventLoop.RunInLoop | EventLoop.cpp:97-109 | in the loop thread runs at once and leaves the protocol's state alone, elsewhere is the protocol's run of a push and its wakeup |
| EventLoops.EventLoop.QueueInLoop | EventLoop.cpp:111-123 | is the protocol's run of a push and of the owner's check or the other thread's wakeup |
| EventLoops.EventLoop.DoPendingFunctors | EventLoop.cpp:161-177 | with its loop over the batch and the destruction of the batch it is a run of the protocol; exactly the functors waiting at its start run, in order; arrivals wait in order and each has made the eventfd readable, except what destructors queue in the loop thread |
| EventLoops.EventLoop.Loop | EventLoop.cpp:63-82 | is a run of the protocol for any returns of poll and any calls meanwhile; it ends returned or at poll, and entered with its waiting functors announced, and with destructors that queue nothing in the loop thread, it is at poll with an unreadable eventfd only when everything pushed has run |
| EventLoops.EventLoop.RunRound | EventLoop.cpp:68-80 | one round of the loop is a run of the protocol that ends at the test of the flag |
| EventLoops.CallIsRun | EventLoop.cpp:84-134 | the net effect of a call made while user code runs is that of its atomic steps in the protocol |
| ThreadPool.StepKeepsNoWorkBesideSleepers | Thread/ThreadPool.cpp:60-98 | every action, including spurious wake-ups, throwing tasks and any choice of the notified worker, keeps the balance |
| ThreadPool.NeverWorkBesideSleepers | Thread/ThreadPool.cpp:60-98 | in every run, if a worker waits then the workers on their way to the queue number at least its length |
| ThreadPool.QueueIsFifo | Thread/ThreadPool.cpp:60-92 | only a worker's take shortens the queue, by its front; only add lengthens it, at its end |
| ThreadPool.StepKeepsAccounts | Thread/ThreadPool.cpp:78-98 | every taken task is in one hand, done or empty; each that holds work is called once |
| ThreadPool.NobodyWaitsAfterStop | Thread/ThreadPool.cpp:47-52 | once stopped, no worker is or becomes waiting in any continuation |
| ThreadPool.ShutdownDrains | Thread/ThreadPool.cpp:18-26 | when all threads have ended and one has returned, every task queued before stop was taken, and called once if it holds work, and ended; without exceptions all returned |
| ThreadPool.StopMarksTheQueue | Thread/ThreadPool.cpp:47-52 | the tasks so guaranteed are all those queued when stop was called |
| ThreadPool.WorkersLife | Thread/ThreadPool.cpp:60-104 | where a worker goes from where it is: it waits only for an empty queue before stop, returns only from one after it, comes back to the queue from every task, and ends otherwise only by its own exception |
| ThreadPool.QueuedTaskCanRun | Thread/ThreadPool.cpp:78-98 | from every reachable state with a worker alive, each task that waits is called by the own steps of one worker, without notification, spurious wake-up or exception |
| ThreadPool.StopLetsAllReturn | Thread/ThreadPool.cpp:18-26 | from every reachable state without exceptions, after stop all workers can return by their own steps, and with at least one worker the queue has then been emptied of what was queued before |
| ThreadPool.CanAdd | Thread/ThreadPool.cpp:60-65 | a task can be queued at any time |
| BufferLayout.EnsureWritableMakesRoom | Buffer.h:75-132 | nothing happens if there is room; the vector grows in place by what is missing exactly if the free bytes beside the 8 in front would not suffice; otherwise the readable bytes move left, down to these 8; they are kept in all cases |
| BufferLayout.StartsEmpty | Buffer.h:15-25 | a new buffer has 1024 bytes to write to and 8 in front |
| BufferLayout.RetrieveReclaims | Buffer.h:45-61 | taking bytes out moves no other, and gives the whole vector back once nothing is left |
| BufferLayout.IndicesInRange | Buffer.h:45-132 | over every sequence of operations 8 <= reader index <= writer index <= size |
| BufferLayout.ReadsAtLeast64KiB | Buffer.cpp:19-30 | one read may deliver the writable bytes and 64 KiB, or just the writable bytes if these are at least 64 KiB |
| BufferLayout.ApplyIsAQueueOperation | Buffer.h:45-92 | one operation acts on the readable bytes as on a queue iff it loses nothing; if it does, bytes are missing |
| BufferLayout.AsWrittenKeepsAPrefix | Buffer.cpp:17-48 | as written a read keeps the first bytes, as many as were writable, and an append keeps none |
| BufferLayout.BytesAreConservedIffLossless | Buffer.h:45-132 | over every sequence of operations taken and readable bytes are those supplied, in order, iff no operation lost any |
| BufferLayout.RepairedBufferIsAQueue | Buffer.h:88-92 | with an append that advances, every sequence of operations is a queue of bytes |
| Buffers.Buffer.constructor | Buffer.h:21-25 | an empty buffer with its indices at the prependable size |
| Buffers.Buffer.Retrieve | Buffer.h:45-55 | drops a prefix, or everything |
| Buffers.Buffer.RetrieveAsString | Buffer.h:68-73 | what is returned and what remains is what was readable |
| Buffers.Buffer.CopyLeft | Buffer.h:126-127 | the overlapping forward copy moves the bytes intact because it moves left |
| Buffers.Buffer.MakeSpace | Buffer.h:118-132 | grows or compacts by the source's test, keeping the readable bytes |
| Buffers.Buffer.EnsureWritableBytes | Buffer.h:75-81 | leaves at least the wanted room and the readable bytes as they were |
| Buffers.Buffer.Append | Buffer.h:88-92 | as written the bytes are copied behind the readable ones, which do not change; repaired the readable bytes are extended by them |
| Buffers.Buffer.ReadFd | Buffer.cpp:17-48 | the scatter read into array and overflow area has the effect of the read on the value; a failed read has none |
| SendPath.AsWrittenStep | TcpConnection.cpp:202-251 | as written no backlog arises, writing is never enabled, and a message contributes the prefix its one write took |
| SendPath.AsWrittenDeliversIffWritesAreComplete | TcpConnection.cpp:202-251 | as written, over every run, the socket has received all messages iff every single write took its whole message |
| SendPath.RepairedStep | TcpConnection.cpp:144-265 | a repaired step loses and reorders nothing, and half-closes only when all that was handed over is in the socket |
| SendPath.SocketReceives | TcpConnection.cpp:144-251 | under all repairs a step hands the socket exactly what its write took, of a message with nothing before it or of the backlog; a broken pipe queues nothing; and only that and closing end cleanness |
| SendPath.WriteTakes | TcpConnection.cpp:213-235 | a write takes what it reports, at most what it was offered, and a failed one nothing |
| SendPath.ConnectionStates | TcpConnection.cpp:93-122 | establishing begins to read, only a connected connection is shut down, closing ends all interest, nothing else changes the state |
| SendPath.BacklogEnables | TcpConnection.cpp:246-249 | a message not written whole enables reading as written, and writing as repaired |
| SendPath.RunHandsOver | TcpConnection.cpp:202-251 | while a connection is clean it has been handed all messages of the run |
| SendPath.RunStaysClean | TcpConnection.cpp:225-235 | it stays clean until it is closed or a write breaks it |
| SendPath.RepairedRunDelivers | TcpConnection.cpp:144-265 | repaired, under arbitrary short writes, socket bytes and backlog are all messages of the run in order until a fault or disconnect; backlog iff writing |
| SendPath.ShutdownHalfCloses | TcpConnection.cpp:93-101 | under all repairs a connected connection that is not writing is half-closed by a shutdown once its functor has run |
| SendPath.ShutdownInLoopHalfCloses | TcpConnection.cpp:258-265 | a queued shutdownInLoop half-closes unless the channel is writing, and nothing undoes it |
| SendPath.ShutdownIsNotForgotten | TcpConnection.cpp:93-173 | repaired, once a connected connection has been shut down and while it is clean, it is half-closed as soon as the functor has run and the backlog is empty, with all messages in the socket |
| SendPath.HalfCloseFollowsBacklog | TcpConnection.cpp:144-265 | in every repaired run the half-close comes after all messages of the run so far are in the socket |
| SendPath.DrainingCompletes | TcpConnection.cpp:144-164 | a write that takes the backlog completes delivery, stops writing, and half-closes a connection that is disconnecting |
| SendPath.AdvancingAloneStrands | TcpConnection.cpp:246-249 | with only the append repaired a backlog is never written: in every continuation the socket receives nothing more and the backlog only grows |
| SendPath.ShortWriteStrands | TcpConnection.cpp:202-251 | one short write leads there |
| SendPath.EnablingAloneSpins | Buffer.h:88-92 | with only the enabling repaired, in every continuation until the connection is closed the channel waits to write with nothing to write, nothing more reaches the socket and no half-close takes place |
| SendPath.ShortWriteSpins | TcpConnection.cpp:202-251 | one short write leads there |
| TcpConnections.TcpConnection.SendInLoop | TcpConnection.cpp:202-251 | the method over the array buffer is the step on the value, as written and repaired |
| TcpConnections.TcpConnection.HandleWrite | TcpConnection.cpp:144-173 | the method is the step on the value |
| TcpConnections.TcpConnection.Shutdown | TcpConnection.cpp:93-101 | is the step on the value, whose effect ShutdownHalfCloses and ShutdownIsNotForgotten state |
| TcpConnections.TcpConnection.RunShutdownInLoop | TcpConnection.cpp:258-265 | half-closes unless the channel is writing |
| Registration.CallsKeepMirror | EpollPoller.cpp:76-154 | over every sequence of calls: index added iff the kernel watches the descriptor, then with the channel's mask; in the table iff not new; no call of epoll_ctl refused |
| Registration.CallReachesKernel | Channel.h:57-81 | after a call the kernel watches exactly the new mask, unless the call emptied it for a watched descriptor |
| Registration.DisableAllUnwatchesIffWatched | EpollPoller.cpp:80-100 | disableAll unwatches iff the descriptor was watched; two in a row leave it watched with an empty mask |
| Registration.RemoveForgets | EpollPoller.cpp:108-120 | after remove nothing of the registration is left, and the next call registers anew |
| Registration.InterestsAreSeparate | Channel.h:57-76 | enabling and disabling change the interest they name and not the other |
| Registration.EnablingKeepsOthers | Channel.h:57-71 | enabling changes no other bit of the mask |
| Registration.DisablingKeepsOthers | Channel.h:62-76 | disabling clears exactly the bits of its interest |
| Registration.DisableAllClears | Channel.h:77-81 | disableAll clears the mask, remove leaves it |
| Registration.InterestsAreEvents | Channel.cpp:16-18 | reading is interest in input and urgent input, writing in output |
| Registration.DispatchRuns | Channel.cpp:82-120 | which callbacks an event runs, in which order, each at most once |
| Registration.DispatchIsIntendedIffReadable | Channel.cpp:82-120 | every event runs the read callback; the dispatch is the intended one iff the event reports something to read |
| EpollPollers.EpollPoller.Call | Channel.h:57-81 | a call on one channel has the effect of the function on its registration and leaves every other channel's registration alone |
| EpollPollers.EpollPoller.Perform | EpollPoller.cpp:76-120 | any sequence of operations on channels, those made and given up on the way and descriptors used again included, takes each channel through exactly its own calls and keeps all mirrored |
| EpollPollers.EpollPoller.OpenChannel | Channel.cpp:20-23 | a channel made for a descriptor not in use starts with a fresh registration and leaves all others alone |
| EpollPollers.EpollPoller.CloseChannel | EpollPoller.cpp:108-120 | after remove the channel may go and nothing of its descriptor is left behind |
| EpollPollers.EpollPoller.UpdateChannel | EpollPoller.cpp:76-106 | adds, changes or deletes by the source's cases, elsewhere nothing changes |
| EpollPollers.EpollPoller.RemoveChannel | EpollPoller.cpp:108-120 | erases from table and kernel list, elsewhere nothing changes |
| EpollPollers.EpollPoller.Update | EpollPoller.cpp:132-154 | the system call changes one descriptor or is refused |
| WildCard.WildCardMatch | easylogging++/easylogging++.cpp:858-880 | terminates, and answers true iff the string can be cut into consecutive pieces, one per pattern symbol, that match |
| WildCard.Star | easylogging++/easylogging++.cpp:867-872 | a star takes nothing, or one character and then what it takes again |
| HitCounters.BoundedRefinesUnbounded | easylogging++/easylogging++.h:2072-2077 | the wrapping counter stays in range and agrees with an unbounded one modulo n |
| HitCounters.WhenTriggered | easylogging++/easylogging++.cpp:1836-1845 | the last of any calls triggers iff its n divides their number, if all had this n, or up to the limit whatever the others had |
| HitCounters.TriggersEveryNthIffWithinLimit | easylogging++/easylogging++.cpp:1836-1845 | a counter always used with one n triggers on exactly every n-th call iff n is at most 100000 |
| HitCounters.ValidateHitCounts | easylogging++/easylogging++.h:2072-2077 | below the limit counts on, at the limit continues from a smaller count with the same remainder: for n within the limit the counter stays in range and grows by one modulo n |
| HitCounters.RegisteredHitCounters.ValidateEveryN | easylogging++/easylogging++.cpp:1836-1845 | at a place always reached with one n within the limit the answer is true on exactly every n-th call; with changing n it is true iff n divides the number of calls, up to the limit; other places are untouched |
| EventLoopThreadPools.RoundRobinCounts | EventLoopThreadPool.cpp:48-63 | after k calls position i of n has been served k / n times, once more if i is below k mod n |
| EventLoopThreadPools.RoundRobinIsBalanced | EventLoopThreadPool.cpp:48-63 | no loop is ever ahead of another by more than one |
| EventLoopThreadPools.EventLoopThreadPool.Start | EventLoopThreadPool.cpp:28-46 | the loops of the threads started are appended in order, and the rotation goes on from its position |
| EventLoopThreadPools.EventLoopThreadPool.GetNextLoop | EventLoopThreadPool.cpp:48-63 | call i since the last start is answered with loop i mod n, or with the base loop if there are none |

## Left out

- ValidateEveryN: at a place reached with different n more often than the limit, the answer is only that of the counter, which then follows no single n.
- TriggersEveryNthIffWithinLimit: n = 0 never triggers and is stated by WhenTriggered and for the method.
- CancelInLoop: deletes and erases in one go in the class; the calls in between are the subject of `TimerDestruction`, on the value.
- The destruction of callbacks by the queue's own destructor, and of functors by the event loop's: calls on an object that is being destroyed.
- RetrieveAsString: its length is at most the readable bytes, as its callers pass it; a longer one would read beyond them.
- Start: the thread-init callback is not modelled.
- Thread/ThreadPool.cpp is a state machine over atomic steps rather than a class, because what is proved is about interleavings; so is the cross-thread part of EventLoop.cpp, of which the class runs the uninterrupted cases.
- Loop: the returns of poll are a finite sequence, so that the method ends; what it leaves open is only an infinite run.
- A descriptor closed without its channel having been removed; the connection and the acceptor remove it first.
- The counter of the eventfd does not overflow, and a write to it does not fail.
- A second call of `ThreadPool::start` on the worker pool, and a pool without threads, whose tasks are never taken.
- Callbacks for completed writes and for the high-water mark, which are queued functors of the user.
- `send` from another thread, which binds a pointer to the caller's string, and the lifetime of connections; `TcpServer`, `Acceptor`, `Socket` and `InetAddress`.
- `TcpConnection::handleRead` beyond the buffer's `readFd`, and error handling after it.
- 64-bit overflow of timestamps, floating-point rounding of intervals, and the difference between the wall clock and the monotonic clock of the timerfd, beyond an arbitrary clock at each firing.
- Timestamp formatting and the rest of the logger.
