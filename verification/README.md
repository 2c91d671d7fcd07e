# The later2 event loop, modelled and proved

later2 is an event loop for R. Callbacks are queued on loops by timestamp, run in passes over a loop
and its children, driven from R's idle console by a timer thread and a pipe, fed by threads that
poll file descriptors, and carry a small promise library. This project models these parts and proves
what holds of every run of them.

- `Timestamps`, `Callbacks`: times as seconds and nanoseconds, and the ordered queue.
- `Forest`: the registry table with its parent and child links, and pruning.
- `Pass`, `Ledger`, `PassTheorems`, `Bodies`, `Answers`, `OneCallback`, `TopPasses`, `Budget`: the execution pass on values. A callback's body
  is an arbitrary list of effects chosen by its id: schedule, cancel, create or destroy loops, drop
  handles, run a nested pass, throw. Bodies may reschedule for ever, so a pass is observed up to a
  number of invocations; `Budget` shows that the number makes no difference.
- `LoopLife`: creating, destroying and collecting loops, and what pruning leaves.
- `Runtime`: the same loop as objects linked by references, with its loops and its static state. Each
  method is proved to do what the functions on values do, so the theorems about those apply to it.
- `WakeUp`, `WakeUpTheorems`, `Arming`, `LockOrder`, `WakeTimes`, `WakeUpRuntime`: schedulers on any thread, the timer thread, the pipe, the
  input handler and the blocking wait as interleaved steps with explicit lock owners, signals, spurious
  wake-ups and one forward clock.
- `FdWait`, `FdTheorems`, `FdRuntime`: descriptor waits racing with cancellation, on top of the whole loop of `Pass`.
- `Promises`, `PromiseTheorems`, `PromiseOutcomes`, `Adoption`, `PromiseOps`, `PromiseRuntime`: promises over a
  first-in-first-out loop, user code being an arbitrary script.

`*Runtime` modules hold the imperative form; `*Theorems` and the modules beside them hold what is
proved about its specification.

Where the code and its documentation disagree, the model follows the code:

- `run_now(all = FALSE)` is documented to execute at most one operation (R/later2.R:425-427), but children
  are always run in full (src/later2.cpp:208). For bodies that only schedule for later the promise holds
  exactly if at most one callback is due among the loop's own head and everything in its children's trees:
  `OneCallback.AtMostOneExactly`. For other bodies it holds if the loop has no children and the body makes
  none for it and runs no pass: `OneCallback.AtMostOneChildless`. Three passes that run two:
  `OneCallback.OneOfEachRunsTwo`, `OneCallback.NoneAndTwoRunsTwo`, `OneCallback.HandingDownRunsTwo`.
- The timer is said to be set only for the global loop, the one the idle console drives (src/later_posix.cpp:253-256),
  but every scheduling call sets it, for its own loop's tree (src/later2.cpp:297, src/callback_registry_table.h:109).
  So a call on a private loop can put off what waits on the global loop: `WakeTimes.PrivateCallPostpones` is such a
  run, and `WakeTimes.CallCoversGlobal` says exactly when a call does not.
- The input handler leaves the timer armed on every path (src/later_posix.cpp:92-109) but one: it returns with
  nothing re-armed when asking R for its frame number fails (src/later2.cpp:67-70).
  `Arming.FrameErrorCanStrand` is such a run, `Arming.StrandedExactly` says which runs end so, and
  `Arming.StrandedStays` that only a new scheduling call helps.
- A failed thread creation reports an error, yet the wait stays counted (src/fd.cpp:140-142), so the loop never
  looks empty again. `FdTheorems.FailedStartHappens` is such a run, `FdTheorems.CountIsLive` gives the exact
  condition, and `FdTheorems.FailedStartHoldsForGood` the consequence.

## Model

| member | source | states |
|---|---|---|
| Timestamps.AddSeconds | src/timeconv.h:10-23 | the stepwise adjustment with its borrow and carry yields a normalised time equal to the reference instant, for any real number of seconds of either sign |
| Timestamps.LaterIsWithinANanosecond | src/timeconv.h:10-23 | the result is less than one nanosecond away from the exact sum, in either direction |
| Timestamps.DelaysAreCutDown | src/timeconv.h:10-23 | for a delay that is not negative the result is the exact sum cut down to whole nanoseconds; for a negative one it is rounded towards the whole second the delay leads to |
| Timestamps.LaterIsMonotone | src/timeconv.h:10-23 | a later start or a longer delay never gives an earlier result, although rounding changes direction at the whole second |
| Timestamps.LessIsTheOrderOfInstants | src/timestamp_unix.cpp:32-54 | `less` and `greater` compare instants, agree with the sign of `diff_secs`, and are both false only for equal times |
| Timestamps.NoDelayIsNow | src/timeconv.h:10-23 | adding zero seconds changes nothing |
| Callbacks.BeforeIsAStrictTotalOrder | src/callback_registry.h:27-30 | the order of callbacks is irreflexive, transitive and total: two callbacks are equivalent only if equal, so the set never drops an insertion |
| Callbacks.InsertKeepsOrder | src/callback_registry.cpp:89-110 | insertion keeps the queue ordered, adds exactly the new callback and loses none |
| Callbacks.EraseKeepsOrder | src/callback_registry.cpp:112-124 | cancelling removes exactly the callback with the id, if there is one |
| Callbacks.NothingDueBehindTheHead | src/callback_registry.cpp:169-175 | looking at the head of the queue decides whether anything in it is due |
| Callbacks.EarlierCallLeavesFirst | src/callback_registry.cpp:89-110 | of two calls on one loop, the earlier with no longer a delay leaves the queue first |
| Callbacks.LatestGoesLast | src/callback_registry.cpp:89-110 | a call with no shorter a delay than all before it goes to the back |
| Callbacks.ZeroDelaysQueueUp | src/callback_registry.cpp:89-110 | calls without delay form a first-in-first-out queue that is due throughout; the promises rest on this |
| Callbacks.NeverEarly | src/callback_registry.cpp:191-201 | no callback is due before its call time plus its delay, less one nanosecond |
| Forest.CreateKeepsLinks | src/callback_registry_table.h:54-85 | creating a loop keeps parent and child links mirrored, each child listed once, parent ids below child ids |
| Forest.RemoveKeepsLinks | src/callback_registry_table.h:171-214 | removing a loop keeps the links, orphans its children, and leaves all queues and counts alone |
| Forest.PruneReachesTheFixpoint | src/callback_registry_table.h:139-168 | one ascending sweep leaves exactly the loops that have an R handle, or have a callback queued or a wait under way below a survivor, linked as before |
| Forest.PruneIsIdempotent | src/callback_registry_table.h:139-168 | a second sweep removes nothing |
| Forest.SurvivorsAreHeld | src/callback_registry_table.h:132-138 | every survivor has a chain of loops with callbacks queued or waits under way up to one with an R handle |
| Forest.HeldSurvive | src/callback_registry_table.h:132-138 | whatever has such a chain survives |
| LoopLife.SweepLeavesExactly | src/callback_registry_table.h:139-168 | a loop is still in the table after pruning exactly if it has its handle, or has a callback queued or a wait under way and its parent is still there |
| LoopLife.QueuedLoopsStay | src/callback_registry_table.h:155-167 | pruning never takes a loop with a queued callback whose parent stays, and the callback stays queued |
| LoopLife.IdleLoopsGo | src/callback_registry_table.h:155-167 | a loop without a handle, with nothing queued and no wait under way, is gone after pruning |
| LoopLife.PassesPrune | src/later2.cpp:216-236 | a pass that did its work and ended normally has pruned, one that threw has not |
| LoopLife.CreatedIsListed | src/callback_registry_table.h:54-85 | creating fails only for a parent that is gone; else the new loop is registered with its handle, empty, and listed by exactly the parent asked for |
| LoopLife.ParentRunsItsChild | src/callback_registry_table.h:54-85 | a callback due on the new loop makes its parent's tree due |
| LoopLife.PrivateLoopIsApart | src/callback_registry_table.h:54-85 | a loop created without a parent is reached from no other loop |
| LoopLife.DestroyedIsGone | src/later2.cpp:132-142 | destroying refuses the global and the current loop; another it takes out of the table and of its parent's list, its children staying without a parent and everything else as it was; scheduling on it then fails |
| LoopLife.DestroyedIsUnreached | src/callback_registry_table.h:171-214 | no loop in the table reaches a destroyed one |
| LoopLife.CollectedStaysWhileBusy | src/callback_registry_table.h:115-130 | when a handle is collected, a loop stays exactly if it has a handle of its own left, or has a callback queued or a wait under way below a parent that stays |
| Ledger.LoadedIsValid | R/later2.R:66-97 | right after loading, the state is in order: the global loop alone, with its handle |
| Ledger.StepKeepsValid | src/later2.cpp:132-155 | scheduling, cancelling, creating, destroying, dropping handles, popping and pruning all keep queues ordered, ids unique and links mirrored |
| Ledger.StepKeepsHandles | R/later2.R:66-117 | the global loop stays registered with its handle, and the R side's map holds exactly the registered loops whose handle flag is up |
| Ledger.ScheduleStep | src/callback_registry.cpp:89-110 | scheduling adds one callback with a fresh id to one queue and touches no other |
| Ledger.CancelStep | src/callback_registry.cpp:112-124 | cancelling takes that id out of that queue and nothing else |
| Ledger.PopStep | src/callback_registry.cpp:191-201 | popping takes a due callback that comes before all others in its queue |
| Ledger.ExecIsFaithful | src/later2.cpp:216-236 | a pass is the replay of the steps it records, one pop for each invocation |
| Ledger.ReplayKeepsValid | src/later2.cpp:177-236 | so the state is in order after any number of steps |
| PassTheorems.TraceBalances | src/later2.cpp:188-209 | over any steps, ids queued at first plus ids added are ids still queued, invoked or cancelled, exactly one of the three |
| PassTheorems.PassConserves | src/later2.cpp:177-236 | the same for a whole pass, nested ones included and also when a callback throws; current loop and reentrancy count are back unless it is cut short |
| PassTheorems.InvokedOnce | src/later2.cpp:188-199 | no callback is invoked twice |
| PassTheorems.InvokesWhatWasDueInOrder | src/later2.cpp:188-209 | over any steps that schedule only for later, what is invoked was queued and due at the start, in queue order within each loop, none twice |
| PassTheorems.PassInvokesInOrder | src/later2.cpp:177-213 | so a pass without nested passes whose callbacks schedule only for later invokes only what was queued and due when it began, in queue order within each loop, none twice |
| PassTheorems.PassTerminates | src/later2.cpp:177-213 | under that condition and without nested passes, a pass ends by itself, within as many invocations as callbacks were due |
| PassTheorems.OneSettles | src/later2.cpp:177-213 | a run-all pass that ends normally leaves nothing due in the tree as it then stands, even if callbacks cancelled or changed loops |
| Bodies.EachRunsInItsLoop | src/later2.cpp:186-196 | in any pass, nested ones included, each callback is taken while its own loop is the current one and passes are counted |
| Bodies.BodyInOrder | src/later2.cpp:194-197 | a body without nested passes does its effects in order, all if none fails, else up to and with the first that does |
| Bodies.WhatThrows | src/later2.cpp:288-313 | scheduling throws exactly on a loop that is gone and then changes nothing; cancelling and collecting never throw |
| Bodies.OnePlays | src/later2.cpp:177-213 | a pass without nested ones does, for each callback it takes, exactly what the callback's own body says, and nothing else; a failure ends the pass |
| Bodies.EffectsInTurn | src/later2.cpp:194-197 | the second part of a body starts where the first ended, unless that did not end normally |
| Bodies.NestedPassSettles | src/later2.cpp:216-236 | a pass that a body runs over a loop throws if that is gone, does nothing if nothing is due in its tree, and else, when all are wanted and callbacks schedule only for later, leaves nothing due there |
| Budget.MoreForExec | src/later2.cpp:216-236 | the number of invocations a pass is observed for does not influence it |
| Answers.RunAllLeavesNothingDue | src/later2.cpp:216-236 | nothing is due in the loop's tree after `execCallbacks` with `runAll`, pruning included |
| Answers.NextIsALowerBound | src/callback_registry.cpp:128-158 | the recursive `nextTimestamp` exists if anything is queued in the tree, and nothing there is earlier |
| Answers.NextIsAttained | src/callback_registry.cpp:128-158 | and it is the timestamp of a callback in the tree |
| Answers.DueIsNextReached | src/callback_registry.cpp:169-189 | the recursive `due(t)` holds exactly if `nextTimestamp` exists and is not after t |
| Answers.OneWorks | src/later2.cpp:177-213 | a pass that ends normally invokes something exactly if its tree is due, whichever way `runAll` is set |
| Answers.RunNowIsTruthful | src/later2.cpp:216-236 | `execCallbacks` returns true exactly if it invoked a callback |
| Answers.TopLevelIsTruthful | src/later2.cpp:251-259 | the loop of passes reports work exactly if it invoked a callback |
| TopPasses.TopLevelGoesOn | src/later2.cpp:251-259 | it makes passes over the global loop, each taken up where the one before ended and invoking something, until one finds nothing due at its first look at the clock, but twenty at most |
| OneCallback.OneAndAllBelow | src/later2.cpp:177-213 | with `all = FALSE` and bodies that only schedule for later, a pass that ends normally invokes one callback for the loop's own due head, if there is one, and every callback due in its children's trees |
| OneCallback.AtMostOneExactly | R/later2.R:425-427 | so it invokes at most one exactly if at most one is due among the loop's own head and all callbacks below it |
| OneCallback.RunNowOnce | src/later2.cpp:216-236 | the same number for `execCallbacks` itself when the loop is due |
| OneCallback.AtMostOneChildless | src/later2.cpp:188-209 | whatever the body does, a loop without children invokes at most one, as long as the body creates no child for it and runs no pass of its own |
| OneCallback.OneOfEachRunsTwo | R/later2.R:425-427 | a loop with one callback and a child with another: asked for at most one, the pass runs two |
| OneCallback.NoneAndTwoRunsTwo | R/later2.R:425-427 | a loop with none and a child with two: it runs two |
| OneCallback.HandingDownRunsTwo | R/later2.R:425-427 | nothing due below, but the loop's own callback schedules one on the child without delay: it runs two |
| Runtime.CallbackRegistry.Add | src/callback_registry.cpp:89-110 | an ordered queue stays ordered, gains exactly the new callback, and keeps all it had |
| Runtime.CallbackRegistry.Cancel | src/callback_registry.cpp:112-124 | the search loop erases the callback with the id and reports whether there was one |
| Runtime.CallbackRegistry.TakeDue | src/callback_registry.cpp:191-201 | takes the head if it is due, else nothing |
| Runtime.CallbackRegistry.EraseChild | src/callback_registry_table.h:189-202 | the search loop takes the first occurrence of the child out of the list |
| Runtime.CallbackRegistry.Empty | src/callback_registry.cpp:160-166 | empty means that no wait is in progress and not one callback is queued |
| Runtime.EventLoop.Create | src/callback_registry_table.h:54-85 | refuses a taken id or a missing parent without change, else links the new object on both sides |
| Runtime.EventLoop.Remove | src/callback_registry_table.h:171-214 | unlists, orphans and drops the object as the function on values does |
| Runtime.EventLoop.PruneRegistries | src/callback_registry_table.h:139-168 | the iterator loop over the map does what the sweep on values does |
| Runtime.EventLoop.DueInTree | src/callback_registry.cpp:169-189 | the recursive search with its early exits answers whether the tree is due |
| Runtime.EventLoop.EarliestInTree | src/callback_registry.cpp:128-158 | the recursion with its running minimum finds the earliest timestamp of the tree |
| Runtime.EventLoop.CreateLoop | R/later2.R:66-97 | the id is used up even on failure; on success the handle is recorded |
| Runtime.EventLoop.DestroyLoop | src/later2.cpp:132-142 | refuses the global and the current loop, else removes |
| Runtime.EventLoop.DropHandle | src/later2.cpp:145-155 | lowers the flag and prunes, once |
| Runtime.EventLoop.ScheduleOn | src/later2.cpp:288-302 | schedules on a registered loop, fails on any other |
| Runtime.EventLoop.RunOwn | src/later2.cpp:188-199 | the do-while loop over one queue comes to where the recursive reading of it does |
| Runtime.EventLoop.RunKids | src/later2.cpp:203-209 | so does the loop over the snapshot of the children |
| Runtime.EventLoop.ExecCallbacksOne | src/later2.cpp:177-213 | sets and restores the current loop and the count around the tree's run, on normal return and on a throw |
| Runtime.EventLoop.ExecCallbacks | src/later2.cpp:216-236 | runs, prunes and answers as the function on values |
| Runtime.EventLoop.ExecCallbacksForTopLevel | src/later2.cpp:251-259 | the counting loop of passes ends and answers as the recursive reading of it, of which `TopPasses.TopLevelGoesOn` says how far it goes |
| WakeUpTheorems.StepKeepsInv | src/later_posix.cpp:47-134 | every step of every thread, a failing frame request included, keeps who holds which lock, what the pipe holds, what calls rely on, the timer protocol and the sleep bound |
| WakeUpTheorems.RunKeepsInv | src/later_posix.cpp:47-134 | so do all runs, in any interleaving |
| Arming.SomebodyIsArmed | src/later_posix.cpp:84-134 | in every reachable state with work pending in the global loop's tree, the live timer thread will fire by the current order, the pipe holds its byte, the handler is at work or will re-arm, or a call is on its way to `set`, unless a failed frame request has stranded the work; for when the timer is ordered see `WakeTimes` |
| Arming.FrameErrorCanStrand | src/later2.cpp:62-72 | a run from the start in which a failing sys.nframe leaves a due callback pending and nobody armed |
| Arming.StrandedExactly | src/later_posix.cpp:84-102 | a run ends with work pending and nobody armed exactly if the frame request failed at some step while the timer had no order, the pipe was empty and no call was between its insertion and its `set`, and nothing has been inserted since |
| Arming.StrandedStays | src/later_posix.cpp:84-102 | from there, no continuation without an insertion gives the timer an order, puts a byte into the pipe or lets the handler in |
| WakeTimes.CallArms | src/later_posix.cpp:248-272 | a scheduling call, whatever other threads do meanwhile, sets the timer for a callback pending in its loop's tree when it looked, and for none later than any of those, the one it was made with included |
| WakeTimes.CallCoversGlobal | src/later_posix.cpp:253-258 | after a call on any loop the timer is set no later than everything pending below the global loop exactly if something in the call's own tree is as early |
| WakeTimes.PrivateCallPostpones | src/later2.cpp:288-302 | a run in which a callback waits on the global loop for one second and a call on a private loop puts the timer off for an hour |
| WakeTimes.HandlerDrainsFirst | src/later_posix.cpp:84-87 | the handler has taken its byte out of the pipe before it decides anything |
| WakeTimes.TopLevelRunsCallbacks | src/later_posix.cpp:84-134 | it runs callbacks only outside the execution of callbacks |
| WakeTimes.RearmsInAMillisecond | src/later_posix.cpp:88-102 | away from the top level it runs nothing and sets the timer for one millisecond after it looked |
| WakeTimes.ResetReads | src/later_posix.cpp:71-82 | after the callbacks the handler looks for the earliest callback pending in the global loop's tree, and leaves the timer alone if there is none |
| WakeTimes.ResetSets | src/later_posix.cpp:71-82 | and else sets it for exactly that time |
| WakeTimes.PipeIsSwitched | src/later_posix.cpp:47-63 | one byte at most is ever in the pipe; a firing puts it there and draining takes it out |
| WakeTimes.ElapsedWaitFires | src/timer_posix.cpp:30-44 | a timed wait that has run out fires once the thread has the lock, unless stopped, even if the timer has been set for later by then |
| WakeTimes.ElapsedWaitsHaveElapsed | src/timer_posix.cpp:30-35 | in every run a wait counts as run out only if the time it was for had come |
| WakeTimes.DueTimerFires | src/timer_posix.cpp:10-45 | once the ordered time has come, every step of the timer thread takes it closer to firing, and it can take one unless another thread holds the lock, which that thread gives up in its next step |
| WakeTimes.WaitLooksExactly | src/callback_registry.cpp:203-232 | a wait for a loop and until an expiry, in any run: when it looks it returns exactly if the expiry or a callback of the tree has come, answers whether one is due then, and else sleeps until the earliest of those, two seconds at most |
| WakeUpTheorems.HandlerReadFindsAByte | src/later_posix.cpp:54-61 | in every run there is a byte in the pipe when the handler reads, so it does not block |
| WakeUpTheorems.TimerSleepsOnItsOrder | src/timer_posix.cpp:10-45 | in every run, a timer thread asleep with no signal on its way has no stop request and sleeps until the current wake time, or without limit because there is none |
| WakeUpTheorems.OrderIsClearedOnlyByFiring | src/timer_posix.cpp:30-44 | a wake time goes away only in the step that starts a firing, when it has come or a timeout has elapsed |
| WakeUpTheorems.StoppedNeverFires | src/timer_posix.cpp:16-35 | once stopped, in every run the callback never fires and no byte is written again |
| WakeUpTheorems.JoinWaitsForTheThread | src/timer_posix.cpp:51-65 | in every run the end of the process comes only after the timer thread has returned |
| WakeUpTheorems.StoppedThreadReturns | src/timer_posix.cpp:51-65 | a stopped thread gets closer to its return with each own step, and can take one unless a scheduling call holds the lock, which that call gives up in its next step |
| WakeUpTheorems.WaitAnswersTruly | src/callback_registry.cpp:203-232 | when the wait returns, its answer is whether the tree is due at that moment; false only after the expiry; else it sleeps at most two seconds |
| WakeUpTheorems.WaiterNeverOversleeps | src/callback_registry.cpp:203-232 | in every run, a sleeping waiter that nobody has signalled wakes by its expiry and by the earliest timestamp of its tree, whatever other threads add |
| WakeUpTheorems.SleepFreesTheTable | src/callback_registry.cpp:212-227 | the wait goes to sleep holding the recursive lock exactly once |
| LockOrder.LocksRise | src/callback_registry_table.h:100-110 | a thread that holds one lock asks only for later ones: table, then timer, then pipe |
| LockOrder.NoDeadlock | src/callback_registry_table.h:100-110 | no number of threads wait for each other in a circle |
| LockOrder.SomeHolderCanMove | src/callback_registry_table.h:100-110 | behind every blocked thread there is a lock holder that can take a step |
| LockOrder.NextExistsAfterAdd | src/later_posix.cpp:248-272 | after its insertion a scheduling call always finds a next timestamp, so dereferencing it is safe |
| WakeUpRuntime.TimerObject.Set | src/timer_posix.cpp:67-79 | makes the thread on demand, replaces the time, signals, releases the lock |
| WakeUpRuntime.TimerObject.Serve | src/timer_posix.cpp:10-45 | one turn of the service loop ends in the right wait, in the return or in the firing |
| WakeUpRuntime.TimerObject.Resume | src/timer_posix.cpp:30-42 | back from a wait: return if stopped, fire on a timeout, else look again |
| WakeUpRuntime.SignalPipe.Set | src/later_posix.cpp:47-63 | writes or reads only when the flag changes |
| FdWait.MoveKeepsInv | src/fd.cpp:66-147 | every move of loop, wait threads and canceller keeps the state in order, each wait's record consistent, each handed-over wait's callback in its loop's queue, and the counts balanced |
| FdTheorems.OpenStarts | src/fd.cpp:14-41 | a wait can be opened on a registered loop only; it starts polling, uncancelled, and counts at once |
| FdTheorems.CancelCancels | src/fd.cpp:202-214 | `fd_cancel` takes the flag down if it was up, which cancels a wait whose body has not run and changes nothing else; if it was down, it changes nothing |
| FdTheorems.CancelledNeverRuns | src/fd.cpp:202-214 | in every run after a cancel that answered true, the body never runs and no cancel answers true again |
| FdTheorems.PollLooks | src/fd.cpp:100-112 | a polling thread goes on to hand over exactly if the flag is up when it looks, and else gives the wait up |
| FdTheorems.HandOffSchedules | src/fd.cpp:125-130 | handing over puts exactly one callback into the queue of the wait's loop, if that is still registered |
| FdTheorems.TakenRunsOnce | src/fd.cpp:66-89 | when the loop takes that callback, the body runs once exactly if the flag was still up, and the flag is down from then on |
| FdTheorems.FinishReleases | src/fd.cpp:66-89 | after its body the wait is released and no longer counts |
| FdTheorems.DecidedForGood | src/fd.cpp:202-214 | in every run, once a wait has been cancelled or its body has started, exactly one of the two stays true: the body never runs again and every later cancel answers false |
| FdTheorems.RunDecidesAtMostOnce | src/fd.cpp:66-89 | in every run, bodies run plus successful cancels are at most one per wait, `active` is true exactly while they are none, and a wait is released at most once |
| FdTheorems.CountIsLive | src/fd.cpp:14-41 | a registered loop's `fd_waits` is the number of its waits polling, handed off, queued or running, plus those whose thread could not be created; it is the former exactly if there are none of the latter |
| FdTheorems.LiveLoopIsNotEmpty | src/callback_registry.cpp:160-166 | a loop with a wait under way never looks empty, hand-off included |
| FdTheorems.PruningKeepsLiveLoops | src/callback_registry_table.h:155-167 | pruning takes such a loop exactly if it has no handle and no parent that stays |
| FdTheorems.DroppingKeepsLiveLoops | src/callback_registry_table.h:115-130 | the same when any loop's handle is dropped |
| FdTheorems.FailedStartHappens | src/fd.cpp:132-147 | a run from the start after which the global loop has no wait under way and yet a count of one, its thread not having been created |
| FdTheorems.FailedStartHoldsForGood | src/fd.cpp:140-142 | after a failed thread creation the count stays up: in every run from then on the loop never looks empty |
| FdTheorems.StagesRise | src/fd.cpp:94-130 | a wait only moves on, each of its own moves takes it on, and nobody else's does |
| FdTheorems.CancelledIsReleased | src/fd.cpp:66-130 | all that can become of a cancelled wait: polling, its thread's next look releases it; about to be handed over, it is queued if its loop is registered and lost if it is not; queued, the loop's taking it releases it; its body never runs |
| FdTheorems.CancelledStaysCancelled | src/fd.cpp:66-130 | in every run after a cancel: no body, one release at most and exactly one once released, and lost only with its loop out of the table |
| FdRuntime.ThreadArgs.constructor | src/fd.cpp:14-63 | counts the wait in, raises the flag, zeroes the results; the deadline is never in the past and at most three times ten to the ten seconds away, a negative timeout standing for one second |
| FdRuntime.ThreadArgs.LaterCallback | src/fd.cpp:66-89 | the body is given the results exactly if the flag was up; the flag is down and the wait counted out in any case |
| FdRuntime.ThreadArgs.Fill | src/fd.cpp:114-123 | fills the results in place: 0 without events, 1 for input or output, NA for others and for a failed poll, 0 for none ready |
| FdRuntime.PollLoop | src/fd.cpp:100-112 | stops at the first poll that is cancelled, ready, failed or past the deadline, cancellation first, and sleeps at most 1024 ms at a time |
| PromiseTheorems.MoveKeepsInv | R/promise.R:29-199 | every move keeps each registration run, waiting or queued in order, children untouched until their handler runs, and one flush and one report per settlement |
| PromiseOps.ResolveFulfils | R/promise.R:99-120 | the first `resolve` with a value that is no promise fulfils the promise with it and queues the callback that runs its handlers |
| PromiseOps.RejectRejects | R/promise.R:121-142 | the first `reject` rejects it with the reason, of which a character value becomes an error |
| PromiseOps.ResolveFollows | R/promise.R:29-53 | with another promise either makes it wait for that one; resolving with itself rejects it for the cycle |
| PromiseOps.LaterCallsAreIgnored | R/promise.R:99-142 | every later `resolve` or `reject` is ignored |
| PromiseOps.ThenRegisters | R/promise.R:144-199 | `then` makes one promise and one registration, the first function for fulfilment and the second for rejection, kept while the promise is pending and queued at once after that |
| PromiseOps.LaterQueues | R/promise.R:57-68 | `later` puts its function behind everything queued |
| PromiseOps.ResolvedForGood | R/promise.R:57-68 | in every run a promise resolved with a value stays fulfilled with it, and all its handlers have run once the loop is drained |
| PromiseOps.ThenCallsItsFunction | R/promise.R:162-192 | whenever, after any run, the loop runs the handler of a `then`, the promise has settled, and the promise `then` returned takes over the outcome if the call gave no function for it, or else gets what that function, given the value, returns or throws |
| PromiseOps.CallbackDoesItsBody | R/promise.R:62-92 | a callback queued by `later` does everything its body says |
| PromiseOps.HandlerDoesItsBody | R/promise.R:162-179 | so does a handler, before the promise of its `then` settles |
| PromiseOutcomes.SettledForGood | R/promise.R:57-93 | in every run a promise settles at most once, its value never changes and is never a promise |
| PromiseOutcomes.HandlersRunOnceInOrder | R/promise.R:144-199 | in every run handlers run in the order of the `then` calls, none before settlement, and all exactly once when the loop is drained |
| PromiseOutcomes.NothingRunsSynchronously | R/promise.R:181-192 | `then`, `resolve` and whatever else code calls run no handler themselves |
| PromiseOutcomes.UnhandledIsReported | R/promise.R:70-93 | the report of a rejection stays silent exactly if there was a `then` before its flush callback ran, whatever happens in between and later; else it prints the message of the reason, or fails if the reason is no condition |
| PromiseOutcomes.ReportComes | R/promise.R:81-91 | once the loop is drained the report callback of every rejected promise has run |
| PromiseOutcomes.RunSettlesChild | R/promise.R:162-179 | whenever the loop runs a handler of `then`, the promise `then` returned takes over an outcome it has no function for; else it is fulfilled with what the function returns, follows it if it is a promise, one made inside the function included, is rejected if it is that promise itself, and is rejected with what the function throws |
| PromiseOutcomes.FinallyPassesOn | R/promise.R:273-294 | whenever the loop runs a handler of `finally`, its promise settles as the one it was called on, a reason that is no condition being made into an error, or with the error that `onFinally` throws |
| Adoption.ResolvingFollows | R/promise.R:29-53 | resolving with another promise, or rejecting with any, makes the promise follow it; resolving with itself rejects with the cycle error |
| Adoption.RunningAdopts | R/promise.R:41-49 | the handlers of an adoption give the adopting promise the very outcome of the adopted one |
| Adoption.RegisteredRunsInARound | R/promise.R:62-92 | what is registered on a settled promise has run once the loop has taken as many callbacks as were queued, whatever else goes on |
| Adoption.ChainSettles | R/promise.R:29-93 | the first of a chain of promises, each resolved with the next, settles with the outcome of the last after as many rounds of the loop as the chain has links |
| PromiseRuntime.Realm.SettleFinal | R/promise.R:57-93 | sets the outcome and queues the flush |
| PromiseRuntime.Realm.Register | R/promise.R:144-199 | makes the child and keeps or queues the handler by the state |
| PromiseRuntime.Realm.ResolveWith | R/promise.R:29-45 | cycle check, adoption or settlement |
| PromiseRuntime.Realm.RejectWith | R/promise.R:47-53 | adoption or settlement |
| PromiseRuntime.Realm.Perform | R/promise.R:99-142 | each public operation ends in the state that `PromiseOps` says of it, behind its guard |
| PromiseRuntime.Realm.Handle | R/promise.R:163-192 | runs one handler of a settled promise, the child's guard first |
| PromiseRuntime.Realm.RunFlush | R/promise.R:62-92 | the loop over the handlers, the clearing and the report come to where the single moves do |
| PromiseRuntime.Realm.Turn | R/promise.R:62-92 | one callback of the loop is a sequence of those moves |

## Left out

- Floating point: seconds are reals, so rounding, NaN and infinite delays are not modelled.
- Integer widths: callback ids and loop ids do not wrap around, and neither does the count of waits.
- Clocks: one clock that never goes back; realtime against monotonic time is not modelled.
- Registry objects are identified by their ids, which the R side never reuses; memory management is not modelled.
- Errors of R that leave by a long jump, user interrupts, and the catching of errors inside a callback's
  body: a failing effect ends the body, as an uncaught error does.
- `with_loop` inside a callback's body: the current loop changes only around passes.
- Runtime: the timed wait at the start of `execCallbacks` is the two clock readings that its callers pass in;
  the wait itself is in `WakeUp`.
- WakeUp: the threads' code is given as steps on values, one for each lock or wait; the recursive lock of
  the timer is taken once at a time, as the code does. Pipe reads and writes succeed. Fork handling, the
  dummy pipe and deinitialisation are not modelled.
- WakeUp: popping and cancelling a callback, creating, destroying and pruning loops are single steps of the
  main thread under the table lock, with arbitrary results as far as trees shrink or gain new loops.
- Runtime.EventLoop.Create: a new id is one that was never used; creating with the id of a removed loop, which the
  table would allow, does not arise because the R side counts its ids up (R/later2.R:66-68).
- PassTheorems, Answers and OneCallback: other threads scheduling while a pass is under way. A pass records its own
  callbacks' effects only; an insertion from elsewhere is an effect of the callback running at that time, so one
  between two callbacks, or one that finds its loop gone, is not covered.
- Liveness that needs fairness of the thread scheduler: that an armed timer eventually fires is not stated.
- FdWait: each compare-and-swap on the shared flag is one step. What a poll reports is arbitrary; the system call and the descriptor lists are not modelled.
- FdRuntime.PollLoop: the polls to come are given as a finite list, so a wait still polling at its end is reported as such.
- Promises: visibility of values, formatting, argument checks and adapting handlers by their formal arguments
  are not modelled. Handlers that are not functions are absent handlers.
- Promises: the two handler lists grow and are consulted together, so they are one list. A handler does not
  run the loop itself (no `run_now` inside a handler), and `later` never fails.
- Windows: timers, polling and the message window there are not modelled.
- The C interface for other packages beyond scheduling, logging, and the wrappers of tinycthread.c.
