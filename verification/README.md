# A reactor, its task loop and its sockets

The repository is a small reactor in C++: a `Thread` that runs tasks posted by other threads, a
`PhysicalSocketServer` it sleeps in, a registry of dispatchers that is mirrored in the kernel's epoll table, and some
supporting code. This project models its logic in Dafny and proves what the parts promise together.

**The task loop.** `delayed_messages.dfy` has the order of timers and says what draining them means;
`message_heap.dfy` is the priority queue as a binary heap; `task_queues.dfy` is the class `Thread` with its two queues,
proved against a description of them. `loop_model.dfy` is a labelled step system: any number of posting threads, one
loop thread, two mutexes, a self-pipe, a clock. One step is one access to shared state, and labels interleave freely.
`wakeup_protocol.dfy`, `timer_protocol.dfy`, `loop_history.dfy` and `loop_order.dfy` hold the invariants, step by step;
`loop_runs.dfy`, `loop_quit.dfy`, `loop_drain.dfy`, `loop_exits.dfy`, `loop_end.dfy` and `loop_progress.dfy` draw the
conclusions about whole runs; `loop_budget.dfy` and `loop_posts.dfy` say what the limits of a call and the posts of a
thread come to, from the labels of a run alone; and `loop_witnesses.dfy` has the runs that show where the code falls
short.

**The sockets.** `reactor_model.dfy` describes the socket server, its dispatchers and the kernel as one value and each
operation as a function of it; the slots of the four signals are arbitrary finite sequences of operations on arbitrary
sockets. `reactor.dfy` has the same operations as classes that change their fields in place (`PhysicalSocketServer`,
`SocketDispatcher`, `Signaler`), each method proved equal to the function; what follows for the objects themselves is
stated there for `OnEvent`, both waits and whole programs. The theorems are about the functions:
`reactor_registry.dfy` (what every operation keeps), `reactor_ops.dfy` (what operations leave when system calls in
them fail), `reactor_keys.dfy` (the registry under arbitrary calls),
`reactor_events.dfy` (dispatch, stale events, whole runs), `reactor_batching.dfy` and `reactor_limits.dfy` (batched
interest updates), `reactor_interest.dfy` and `reactor_slots.dfy` (who is watched for what), `reactor_deaf.dfy` (who
hears nothing), `reactor_witness.dfy` (runs in which the kernel and a socket disagree), `reactor_select.dfy` (the
`select` pass), `reactor_acts.dfy` (which slots whole passes run), `reactor_waits.dfy` (which round ends a wait).

**Supporting code.** `event.dfy`, `ip_address.dfy`, `socket_address.dfy`, `allocator.dfy`.

## What turned out

- A loop never sleeps over a queued task, nor past a timer, nor past its budget, in any interleaving, once the posters
  that pushed have finished (`NeverBlockedWithWork`). This includes the conversion of the timeout to `int`: a delay too
  long for it can only be pending together with a wake-up. What is queued is dispatched within a bounded number of the
  loop's steps, whatever posters do, unless the loop ends (`QueuedIsDispatchedSoon`), and with work queued the loop is
  never stuck (`LoopWithWorkAdvances`).
- A call of `ProcessMessages` that starts at clock t with a limit c polls no longer than until t + c, and returns out of
  a wait exactly if that time has come (`CallKeepsToItsLimit`). After a task it goes on with what is left, by the
  conversion to `int`, and not at all exactly if that is negative (`NextKeepsToTheRest`). Without a limit no clock ends
  it (`ForeverHasNoLimit`). A timer leaves the heap in a drain exactly if the clock, when the loop last read it, had
  reached the time of its post plus its delay (`DrainTakesWhatWasDue`, `PostBringsItsTask`, `DelayIsKept`).
- `Thread::Quit` returns before it wakes the loop. A loop that sleeps without a limit is then woken by the program
  itself exactly if some poster is still on its way (`LeavesPollIffNotStuck`); otherwise it hangs (`QuitMayHang`).
- A loop that is awake ends once it quits, and is never stuck on the way (`QuittingLoopTerminates`, `AwakeCanStep`,
  `MaximalQuittingRunEnds`). It does not always run everything first. If it leaves by its `IsQuitting` test, what was
  queued when `stop_` was set, timers that come due included, is dispatched if and only if the loop was not just then
  between releasing its mutex and that test (`QuitDispatchesQueuedIff`, `QuitDispatchesDueTimersIff`). In that gap even
  a post that had returned before `Quit` was called is lost (`CompletedPostMayBeStranded`).
- `ProcessMessages` returns in four ways (`ReturnsFourWays`), and only that one drains first. When time runs out in a
  wait, or `epoll_wait` fails, what was queued before the loop released its mutex to wait is dispatched and the rest is
  not (`WaitReturnDispatchesQueuedIff`). When time runs out after a task, everything behind that task stays queued. No
  return loses a task: each is dispatched if enough were dispatched before it, and still queued otherwise
  (`ReturnLeavesTheRest`).
- Timers that are pending together for the same millisecond run in the order of posting if and only if the 32-bit
  message number did not wrap between them (`EqualTimesFollowPostingIff`); there is a run in which it does, and the
  later post runs first (`WrapReversesARun`).
- The epoll table mirrors what every registered socket asks for, with one exception. Over every run the kernel is wrong
  about a registered socket if and only if the socket was last registered by a slot of its own `OnEvent`, for something,
  and there was no `Update` of it since (`RegistryMirrorsKernel`); then it asks for nothing and stays watched for what
  it was registered for. One `OnEvent` from a right table leads there if and only if `MirrorFailsIff` says so, and a new
  server gets there with one event (`ReopenedStaysWatched`). No interest of a registered socket is ever lost. When no
  slot creates or connects its own socket, batching is exactly eager updating (`MirrorSurvivesOnEvent`).
- Not every open socket is registered. When `setsockopt` fails, `Create` returns false and leaves its descriptor open
  (`CreateRegistersIff`). A later `Connect` finds the descriptor, does not register it, and may succeed: the socket is
  connected, and the kernel does not watch it (`ConnectArms`, `ConnectedUnwatched`). It then hears nothing until it is
  closed or created anew (`UnregisteredHearsNothing`). `Listen` and `Recv` have the same condition (`ListenArms`,
  `RecvRearms`). A `Connect` that fails may also leave a registered socket behind, the one it made
  (`ConnectRegistersIff`).
- An event runs exactly the slots of the flags it tells, each once, in the order connect, accept, read, write, close
  (`AtMostOneUpdate`, `PassPerforms`, `VisitsPerform`); what the other slots would do makes no difference
  (`UnreportedSlotsDoNotRun`).
- A wait ends at the first round that reports the wake-up, unless one before it fails or runs out of time
  (`WakeUpEndsTheWait`, `WakeUpEndsSelect`); nothing but a wake-up ends it as woken, whatever slots do.
- `CreateSocket` and `Accept` make a registered socket, or close its descriptor again and change nothing else
  (`CreateSocketIsWhole`, `AcceptIsWhole`), unlike `Create` on a socket that exists.
- A Set that nobody undoes before the sleeper looks ends its wait (`SetEndsTheWait`). In every interleaving each call
  leaves exactly one entry in the history, the one it should (`EveryCallIsAnswered`).
- `SocketAddress::FromString` takes a bracket that nothing closes for success and assigns nothing (`ParseFailsIff`).
- `SocketAddress::operator==` is false of an address and itself if it is "any" or unspecified (`EqualsItselfIff`), so
  it is finer than the order. Parsing a printed address recovers address and port, but the result never equals the
  original, since the text becomes its host name (`TextRoundTrip`).
- `SocketAddressFromSockAddrStorage` reverses the bytes of IPv4 addresses (`StorageRoundTripIff`).

Where code and documentation disagree, the model follows the code. The comment on `IPAddress::operator==`
(`net/ip_address.h`, line 51) has an unspecified address equal everything; the code compares the families. The comment
on `ProcessMessages` (`concurrency/thread.h`, line 36) has it end when the thread is stopped; a sleeping one does not.
`WaitEpoll` computes the time left as milliseconds minus microseconds; the model does the same, and since the clock is
never negative this only shortens the wait.

## Assumptions

- The clock is monotone and not negative. Times are unbounded integers; conversions to `int`, `uint32_t`, `uint16_t`,
  `uint8_t` and `size_t` wrap around where the source has them.
- Posted tasks are not empty functions and are told apart: each accepted post has an identity of its own.
- `::socket` and `::accept` never return a descriptor that is open, and closing one removes it from the epoll table.
  `epoll_ctl` behaves as documented, including `ENOENT` and `EEXIST`. What system calls return otherwise is arbitrary.
- `inet_ntop` and `inet_pton` are inverse to each other (`InverseOk`), as section 3.2.2 of RFC 3986 has it.
- The machine is little-endian.

## Model

| member | source | states |
|---|---|---|
| DelayedMessages.NoLaterIsTotalPreorder | u-toolbox/src/u-toolbox/concurrency/thread.h:57-62 | the reversed `operator<` of timers is a total preorder whose ties are equal (run time, number) pairs |
| DelayedMessages.DrainIsUnique | u-toolbox/src/u-toolbox/concurrency/thread.cpp:300-314 | draining is determined: with distinct keys there is one way to split the pending timers into due ones in order and later ones |
| MessageHeaps.FrontIsEarliest | u-toolbox/src/u-toolbox/concurrency/thread.h:105-106 | the front of the heap precedes every message in it |
| MessageHeaps.MessageHeap.Push | u-toolbox/src/u-toolbox/concurrency/thread.cpp:135-138 | sifting up keeps the heap order and adds exactly the new message |
| MessageHeaps.MessageHeap.Pop | u-toolbox/src/u-toolbox/concurrency/thread.cpp:310 | sifting down keeps the heap order and removes exactly the front |
| TaskQueues.WaitTimeoutCoversTimers | u-toolbox/src/u-toolbox/concurrency/thread.cpp:269-280 | the timeout is unlimited exactly if there is neither a timer nor a budget, and otherwise lasts exactly until the earlier of the first timer and the end of the budget |
| TaskQueues.Thread.PostTaskImpl | u-toolbox/src/u-toolbox/concurrency/thread.cpp:107-121 | appends the task and wakes, or drops it while quitting |
| TaskQueues.Thread.PostDelayedTaskImpl | u-toolbox/src/u-toolbox/concurrency/thread.cpp:123-143 | adds the timer under the next number, which wraps at 2^32, or drops it while quitting |
| TaskQueues.Thread.ProcessDelayedMessage | u-toolbox/src/u-toolbox/concurrency/thread.cpp:300-314 | the heap loop appends exactly the due timers in order, keeps the later ones, and returns the gap to the earliest, or kForever if none is left |
| TaskQueues.Thread.Get | u-toolbox/src/u-toolbox/concurrency/thread.cpp:241-298 | if a task is queued, or a timer due at the start, it hands out the next task in push order; in general its rounds are those of IsGet, each from what the one before and other threads left, up to the one that EndTells says ends it, with that end; every wait it requests covers its timers and its budget |
| TaskQueues.EndTells | u-toolbox/src/u-toolbox/concurrency/thread.cpp:250-297 | Get ends exactly where it should: with a task in the first round that finds one queued or a timer due, for quitting in the first that finds none and the loop stopped, for time in the first wait after which the budget is over, on the first wait that fails; and it is still waiting only if none of the waits given brought any of these |
| TaskQueues.Thread.ProcessMessages | u-toolbox/src/u-toolbox/concurrency/thread.cpp:58-82 | it calls Get again and again, each call on what the one before, its task and the posts of that left, and runs what it gets, the next stretch of the push order; it returns exactly at the first call that yields no task, with whether the loop is not quitting, or the first task after which the time left, as an int, is negative; a task queued or a timer due at the start does run |
| TaskQueues.ToInt32 | u-toolbox/src/u-toolbox/net/physical_socket_server.cpp:413-428 | the conversion of a timeout to int: the one int congruent modulo 2^32, so the identity on what fits |
| TaskQueues.ToInt32IsDetermined | u-toolbox/src/u-toolbox/net/physical_socket_server.cpp:413-428 | an int that is congruent modulo 2^32 is the one the conversion gives |
| WakeupProtocol.LocksKept | u-toolbox/src/u-toolbox/concurrency/thread.cpp:115-118 | every step of every thread keeps the queue mutex exclusive |
| WakeupProtocol.SignalerKept | u-toolbox/src/u-toolbox/net/dispatchers/signaler.cpp:34-63 | every step keeps the signaler mutex exclusive and the pipe in step with f_signaled_ |
| WakeupProtocol.WakeKept | u-toolbox/src/u-toolbox/net/physical_socket_server.cpp:424-469 | every step keeps: something posted since the last clock reading is announced by a byte, by a poster on its way, or by a cleared flag |
| TimerProtocol.ProtocolKept | u-toolbox/src/u-toolbox/concurrency/thread.cpp:250-297 | every step keeps the wake-up invariant together with the bounds on the timeout |
| TimerProtocol.PollIsCovered | u-toolbox/src/u-toolbox/net/physical_socket_server.cpp:413-471 | a loop polling with no byte and no announcing poster has no task, and its int timeout covers every timer and the budget of its Get, which LoopBudget ties to the limit of the call |
| LoopHistory.ConservedKept | u-toolbox/src/u-toolbox/concurrency/thread.cpp:107-143 | every step keeps: accepted tasks are those dispatched, in hand, queued or pending, each once |
| LoopHistory.NeverEarlyKept | u-toolbox/src/u-toolbox/concurrency/thread.cpp:300-314 | every step keeps: a timer left the heap only once the clock had reached its run time |
| LoopHistory.NumbersKept | u-toolbox/src/u-toolbox/concurrency/thread.cpp:132-141 | every step keeps: the n-th accepted timer has number n modulo 2^32 |
| LoopOrder.KeysOrderedKept | u-toolbox/src/u-toolbox/concurrency/thread.cpp:300-314 | every step keeps: of two timers, the one accepted first with the smaller key leaves the heap first |
| LoopOrder.PairKept | u-toolbox/src/u-toolbox/concurrency/thread.h:57-62 | every step keeps the order of two timers that were pending together |
| LoopRuns.NeverBlockedWithWork | u-toolbox/src/u-toolbox/concurrency/thread.cpp:250-286 | in every run, a loop blocked in epoll_wait after all posters finished has no task queued and a timeout that covers every timer and the budget of its Get, which LoopBudget ties to the limit of the call |
| LoopBudget.CallKeepsToItsLimit | u-toolbox/src/u-toolbox/concurrency/thread.cpp:61-66 | in every run, from the labels alone: after Start(c) at clock t, before any task, a poll with no wake-up pending is asked for no longer than from the last clock reading until t + c, and a return out of a wait leaves ProcessMessages if and only if t + c has come |
| LoopBudget.NextKeepsToTheRest | u-toolbox/src/u-toolbox/concurrency/thread.cpp:73-78 | in every run: after a task dispatched at clock u, the call returns if and only if t + c - u, as an int, is negative, and otherwise the next Get keeps to that rest |
| LoopBudget.ForeverHasNoLimit | u-toolbox/src/u-toolbox/concurrency/thread.cpp:61-81 | in every run: after Start(kForever) no clock makes the call return, and a poll without timers and without a wake-up pending is unlimited |
| LoopBudget.DrainTakesWhatWasDue | u-toolbox/src/u-toolbox/concurrency/thread.cpp:300-314 | in every run a drain moves a pending timer to the queue if and only if the clock had reached its run time when the loop last read it |
| LoopBudget.TimeoutIsChosen | u-toolbox/src/u-toolbox/concurrency/thread.cpp:269-286 | in every run the wait is entered with the timeout that WaitTimeoutCoversTimers speaks of, for the budget, the time it has lasted and the gap to the next timer |
| LoopBudget.RoundKeepsToTheTimeout | u-toolbox/src/u-toolbox/net/physical_socket_server.cpp:463-468 | in every run, after a round of epoll_wait the wait goes on if and only if it has no limit or its end, in milliseconds, is beyond the clock in microseconds, with the difference as the next timeout |
| LoopBudget.PollLastsItsTimeout | u-toolbox/src/u-toolbox/net/physical_socket_server.cpp:425-438 | in every run a poll that times out has lasted its timeout, as an int |
| LoopPosts.PostBringsItsTask | u-toolbox/src/u-toolbox/concurrency/thread.cpp:107-143 | in every run, from the labels of the posting thread alone: a post that found the loop not quitting pushes its task, at the end of the queue, or as a timer due at the clock of its stamp plus its delay, under the next number |
| LoopPosts.RefusedPostDoesNothing | u-toolbox/src/u-toolbox/concurrency/thread.cpp:111-130 | a post that finds the loop quitting leaves everything as it is |
| LoopPosts.DelayIsKept | u-toolbox/src/u-toolbox/concurrency/thread.cpp:132-141 | in every run the timer of an accepted post keeps its delay and run time wherever it is |
| LoopPosts.StopIsAsSet | u-toolbox/src/u-toolbox/concurrency/thread.cpp:222-233 | in every run stop_ is what the last Quit or Restart made it |
| LoopPosts.FlagIsAsSet | u-toolbox/src/u-toolbox/net/dispatchers/signaler.cpp:52-63 | in every run flag_wait_ is up exactly if a wait was entered since OnEvent of the Signaler last cleared it |
| LoopProgress.QueuedIsDispatchedSoon | u-toolbox/src/u-toolbox/concurrency/thread.cpp:250-297 | in every run in which the loop does not end, each of its steps, but for polls that bring nothing, brings it closer to a queued task, until that is dispatched, whatever posters do |
| LoopProgress.QueuePlaceBoundsSteps | u-toolbox/src/u-toolbox/concurrency/thread.cpp:250-297 | in every run, the task at place z of the queue is dispatched after 6 z + 24 such steps at the latest, unless the loop ended |
| LoopProgress.LoopWithWorkAdvances | u-toolbox/src/u-toolbox/net/physical_socket_server.cpp:413-471 | with something queued or in hand a running loop can take such a step, or a post under way can go on |
| LoopProgress.RestingLoopIsIdle | u-toolbox/src/u-toolbox/concurrency/thread.cpp:250-297 | a run that neither the loop nor a post under way can go on with has dispatched all that was pushed, or the loop has ended |
| LoopRuns.SelfPipe | u-toolbox/src/u-toolbox/net/dispatchers/signaler.cpp:34-63 | in every run the pipe holds at most one byte, one exactly if signaled while the mutex is free, and the one-byte assertions of Signal and OnEvent hold |
| LoopRuns.ExactlyOnce | u-toolbox/src/u-toolbox/concurrency/thread.cpp:107-143 | in every run no task is dispatched twice and every accepted one is dispatched, in hand, queued or pending |
| LoopRuns.NeverDispatchedEarly | u-toolbox/src/u-toolbox/concurrency/thread.cpp:300-314 | in every run a dispatched timer had come due |
| LoopRuns.ImmediateTasksRunInOrder | u-toolbox/src/u-toolbox/concurrency/thread.cpp:253-262 | in every run immediate tasks are dispatched in the order in which they were accepted |
| LoopRuns.TimersRunInOrder | u-toolbox/src/u-toolbox/concurrency/thread.cpp:123-143 | in every run, however long, a timer posted earlier is dispatched first if it is due earlier, or at the same time with no wrap of the number in between |
| LoopRuns.PendingTogetherRunInKeyOrder | u-toolbox/src/u-toolbox/concurrency/thread.cpp:300-314 | in every run, timers that were ever pending together are dispatched in the order of run time and number, wrapped or not |
| LoopRuns.NumbersKeepOrderIff | u-toolbox/src/u-toolbox/concurrency/thread.cpp:135-141 | of two accepted timers fewer than 2^32 posts apart the earlier has the smaller number if and only if the counter did not wrap between them |
| LoopRuns.EqualTimesFollowPostingIff | u-toolbox/src/u-toolbox/concurrency/thread.h:57-62 | in every run, timers pending together for the same time are dispatched in the order of posting if and only if the counter did not wrap between them, else in reverse |
| LoopWitnesses.WrapReversesARun | u-toolbox/src/u-toolbox/concurrency/thread.cpp:135-141 | from every new thread object there is a run in which of two timers for the same time the later posted one is dispatched first |
| LoopQuit.QuittingConservesLoad | u-toolbox/src/u-toolbox/concurrency/thread.cpp:107-143 | while quitting, posters in flight plus queued, pending and held tasks shrink by exactly what is dispatched: new posts are dropped |
| LoopQuit.QuittingLoopTerminates | u-toolbox/src/u-toolbox/concurrency/thread.cpp:58-82 | while quitting, a loop that is awake takes at most Rank steps and runs at most Load tasks, however posters interleave |
| LoopEnd.DrainExists | u-toolbox/src/u-toolbox/concurrency/thread.cpp:300-314 | for every queue and every clock there is a result of the drain, so a loop that holds the mutex can always go on |
| LoopEnd.AwakeCanStep | u-toolbox/src/u-toolbox/concurrency/thread.cpp:250-267 | an awake loop can step, unless a poster holds the queue mutex, and then that poster can |
| LoopEnd.MaximalQuittingRunEnds | u-toolbox/src/u-toolbox/concurrency/thread.cpp:58-82 | a run of a quitting loop that cannot be continued has left ProcessMessages |
| LoopEnd.QuittingLoopCanEnd | u-toolbox/src/u-toolbox/concurrency/thread.cpp:58-82 | from every moment of a quitting, awake loop its own steps, and those of posters in its way, lead to its end; without a limit its IsQuitting test is the end |
| LoopQuit.QuitLeavesOnlyLatePosts | u-toolbox/src/u-toolbox/concurrency/thread.cpp:250-267 | a loop at its IsQuitting test has dispatched all its last drain saw; what remains was pushed since |
| LoopDrain.QuitDispatchesQueuedIff | u-toolbox/src/u-toolbox/concurrency/thread.cpp:250-267 | in every run that breaks for quitting, a task queued at any earlier moment since the last test has been dispatched if and only if the loop was not, at that moment, between releasing the mutex and the test |
| LoopDrain.QuitDispatchesDueTimersIff | u-toolbox/src/u-toolbox/concurrency/thread.cpp:250-267 | the same for a pending timer, whatever was posted since: it has been dispatched if and only if, in addition, it is due by the loop's last clock reading |
| LoopExits.ReturnsFourWays | u-toolbox/src/u-toolbox/concurrency/thread.cpp:265-295 | a step of a running ProcessMessages makes it return if and only if it is the IsQuitting test of a stopped loop, the end of a task with the time left negative as an int, the end of a wait with its budget over, or a failed epoll_wait; no return dispatches or drops anything |
| LoopExits.WaitEndsThreeWays | u-toolbox/src/u-toolbox/net/physical_socket_server.cpp:424-471 | a step makes the wait of the loop return true if and only if it is the loop test with the flag down, a poll that timed out, or the clock after a round with the time over; other events and interrupts leave it waiting |
| LoopExits.WaitReturnDispatchesQueuedIff | u-toolbox/src/u-toolbox/concurrency/thread.cpp:282-294 | in every run that returns out of a wait, a task queued at an earlier moment since the wait before has been dispatched if and only if the loop had not yet released its mutex to wait |
| LoopExits.ReturnLeavesTheRest | u-toolbox/src/u-toolbox/concurrency/thread.cpp:58-82 | after every return, the task once at place z of the queue has been dispatched if and only if more tasks were dispatched since than stood before it, and is still queued otherwise |
| LoopQuit.StuckForever | u-toolbox/src/u-toolbox/concurrency/thread.cpp:228-233 | a stuck loop stays stuck whatever threads, clock and Quit do |
| LoopQuit.LeavesPollIffNotStuck | u-toolbox/src/u-toolbox/concurrency/thread.cpp:228-233 | in every run a polling loop can be woken by the program's own steps if and only if it is not stuck |
| LoopQuit.QuitMayHang | u-toolbox/src/u-toolbox/concurrency/thread.cpp:228-233 | from a new thread object a stuck loop is reachable by calling Quit |
| LoopQuit.LatePostMayBeStranded | u-toolbox/src/u-toolbox/concurrency/thread.cpp:111-120 | a post that tested IsQuitting in time may remain queued after the loop ended |
| LoopWitnesses.CompletedPostMayBeStranded | u-toolbox/src/u-toolbox/concurrency/thread.cpp:250-267 | from a new thread object: a post that has returned, then Quit, and the loop is over with the task still queued |
| ReactorRegistry.UpdateTouches | u-toolbox/src/u-toolbox/net/physical_socket_server.cpp:154-169 | Update leaves the kernel with exactly the interest of a registered dispatcher, through MOD and, on ENOENT, ADD; it touches nothing else |
| ReactorRegistry.AddRegisters | u-toolbox/src/u-toolbox/net/physical_socket_server.cpp:115-133 | Add registers under a new key and makes the kernel watch for exactly the interest |
| ReactorRegistry.SetEnabledKeeps | u-toolbox/src/u-toolbox/net/dispatchers/socket_dispatcher.cpp:211-243 | a change of interest keeps registry and mirror, in a batch and out of one |
| ReactorRegistry.CloseKeeps | u-toolbox/src/u-toolbox/net/dispatchers/socket_dispatcher.cpp:164-177 | Close keeps registry and mirror and touches no other dispatcher |
| ReactorRegistry.CreateKeeps | u-toolbox/src/u-toolbox/net/sockets/physical_socket.cpp:54-66 | Create keeps registry and mirror, whatever ::socket and setsockopt return |
| ReactorRegistry.ConnectKeeps | u-toolbox/src/u-toolbox/net/sockets/physical_socket.cpp:288-313 | Connect keeps registry and mirror for every outcome |
| ReactorRegistry.AcceptKeeps | u-toolbox/src/u-toolbox/net/sockets/physical_socket.cpp:192-209 | Accept keeps registry and mirror, whatever ::accept and setsockopt return |
| ReactorRegistry.OpKeeps | u-toolbox/src/u-toolbox/net/sockets/physical_socket.cpp:54-223 | every operation on every socket keeps registry, epoll table, batches and mirror, and reissues no key |
| ReactorRegistry.OpsKeep | u-toolbox/src/u-toolbox/net/dispatchers/socket_dispatcher.cpp:136-158 | so does everything a slot can do |
| ReactorSlots.SparedByOp | u-toolbox/src/u-toolbox/net/sockets/physical_socket.cpp:54-223 | an operation leaves every dispatcher it is not one on as it was, with its key |
| ReactorOps.CloseReleases | u-toolbox/src/u-toolbox/net/dispatchers/socket_dispatcher.cpp:164-177 | outside a batch, Close takes exactly the descriptor, its key and its epoll entry away, and leaves a closed socket that asks for nothing; on a closed one it does nothing |
| ReactorOps.CreateLeaves | u-toolbox/src/u-toolbox/net/sockets/physical_socket.cpp:54-66 | outside a batch, whatever ::socket and setsockopt return, Create leaves the descriptor it got, the kind asked for, and a datagram socket asking for both directions; if it fails, registry and epoll table are those after Close |
| ReactorOps.CreateSocketIsWhole | u-toolbox/src/u-toolbox/net/physical_socket_server.cpp:66-76 | CreateSocket adds a closed socket registered under the next key and watched for both directions, or if ::socket or setsockopt fails gives the descriptor back and changes nothing else |
| ReactorOps.AcceptIsWhole | u-toolbox/src/u-toolbox/net/sockets/physical_socket.cpp:192-209 | Accept asks for more whatever happens, then adds a connected, registered, watched socket, or gives the descriptor back if setsockopt fails, or adds none if ::accept fails |
| ReactorKeys.CallsKeepKeys | u-toolbox/src/u-toolbox/net/physical_socket_server.cpp:115-169 | over every sequence of Add, Remove, Update and Close the maps are inverse, keys are below the counter and never reissued, and every epoll entry belongs to the registered dispatcher with its key and descriptor |
| ReactorKeys.CloseForgetsIffOpen | u-toolbox/src/u-toolbox/net/dispatchers/socket_dispatcher.cpp:164-177 | Close takes a dispatcher out of the registry if and only if it had a descriptor or was not in it |
| ReactorKeys.ReaddedHasNewKey | u-toolbox/src/u-toolbox/net/physical_socket_server.cpp:115-152 | a dispatcher taken out and put back has a new key, and the old one never names anybody again |
| ReactorEvents.OnEventKeeps | u-toolbox/src/u-toolbox/net/dispatchers/socket_dispatcher.cpp:121-162 | OnEvent keeps registry and mirror, whatever the slots do |
| ReactorEvents.FinishMirrorsIff | u-toolbox/src/u-toolbox/net/dispatchers/socket_dispatcher.cpp:203-209 | the end of a batch leaves the mirror right if and only if the interest changed or the kernel had the saved one |
| ReactorBatching.MirrorFailsIff | u-toolbox/src/u-toolbox/net/dispatchers/socket_dispatcher.cpp:121-162 | OnEvent leaves the kernel wrong about its socket, still registered, if and only if a slot registered it anew in this OnEvent, for something, and it asks for nothing in the end |
| ReactorEvents.DeliveredIffRegistered | u-toolbox/src/u-toolbox/net/physical_socket_server.cpp:441-460 | an event reaches the dispatcher registered under its key, if there is one and something is reported |
| ReactorEvents.NoStaleEvent | u-toolbox/src/u-toolbox/net/physical_socket_server.cpp:439-461 | the n-th event of a batch is delivered, with the flags its report tells, if and only if its key is still registered, to a dispatcher registered under it with the same descriptor ever since the batch was fetched |
| ReactorEvents.RegistryMirrorsKernel | u-toolbox/src/u-toolbox/net/physical_socket_server.cpp:337-411 | over every run from a new server the maps are inverse, every epoll entry belongs to its registered dispatcher, and the kernel is wrong about a registered dispatcher if and only if it was last registered within its own OnEvent, for something, with no Update since |
| ReactorEvents.ClosedIsForgotten | u-toolbox/src/u-toolbox/net/dispatchers/socket_dispatcher.cpp:164-177 | after Close neither a key nor an epoll entry names the dispatcher or its descriptor |
| ReactorEvents.WakeUpStaysArmed | u-toolbox/src/u-toolbox/net/dispatchers/signaler.cpp:21-25 | over every run the wake-up descriptor stays in the epoll table, for input, under key 0 |
| ReactorBatching.BatchingRefinesEager | u-toolbox/src/u-toolbox/net/dispatchers/socket_dispatcher.cpp:121-162 | OnEvent ends with the sockets, registry and kernel masks of a version that updates epoll after each change; only its own mask is the one it was registered with, if that was done by a slot and it asks for nothing |
| ReactorLimits.AtMostOneUpdate | u-toolbox/src/u-toolbox/net/dispatchers/socket_dispatcher.cpp:121-162 | OnEvent causes at most one Update of its dispatcher; for each reported flag it fires the signal and performs exactly the slots of that signal, once, in the order connect, accept, read, write, close, and no other slot, whatever the slots do |
| ReactorLimits.UnreportedSlotsDoNotRun | u-toolbox/src/u-toolbox/net/dispatchers/socket_dispatcher.cpp:136-158 | two sets of slots that agree on the reported flags make OnEvent end in the same world |
| ReactorActs.PassPerforms | u-toolbox/src/u-toolbox/net/physical_socket_server.cpp:440-461 | a pass over epoll events performs, event by event, exactly the slots of the flags that each tells of a dispatcher still registered under its key |
| ReactorActs.VisitsPerform | u-toolbox/src/u-toolbox/net/physical_socket_server.cpp:296-316 | a pass of WaitSelect likewise, with the bits still set when a key is reached |
| ReactorLimits.MirrorSurvivesOnEvent | u-toolbox/src/u-toolbox/net/dispatchers/socket_dispatcher.cpp:121-162 | if no slot creates or connects its own socket, all kernel masks are those of eager updating and the mirror is right |
| ReactorWitness.ReopenedStaysWatched | u-toolbox/src/u-toolbox/net/dispatchers/socket_dispatcher.cpp:171-173 | the exception occurs: a new server, one stream socket, one event, and the socket stays watched though it asks for nothing |
| ReactorWitness.ConnectedUnwatched | u-toolbox/src/u-toolbox/net/sockets/physical_socket.cpp:289-313 | a new server, a socket closed and connected twice, setsockopt failing the first time: it is connected and asks for input and output, without a key and without an epoll entry |
| ReactorDeaf.UnregisteredHearsNothing | u-toolbox/src/u-toolbox/net/physical_socket_server.cpp:439-461 | a socket with a descriptor that is not registered stays so, unwatched, and no event reaches it, over every run in which nobody closes or re-creates it |
| ReactorInterest.RunsLeaveResting | u-toolbox/src/u-toolbox/net/physical_socket_server.cpp:115-169 | between the moves of every run from a new server every socket meets what ConnectArms and ListenArms require |
| ReactorInterest.CreateArms | u-toolbox/src/u-toolbox/net/sockets/physical_socket.cpp:54-66 | outside a batch, Create that succeeds registers under a new key and the kernel watches for the interest left |
| ReactorInterest.CreateRegistersIff | u-toolbox/src/u-toolbox/net/dispatchers/socket_dispatcher.cpp:41-70 | in a batch or out of one, Create registers if and only if it succeeds; if only setsockopt fails the descriptor stays open |
| ReactorInterest.ConnectArms | u-toolbox/src/u-toolbox/net/sockets/physical_socket.cpp:289-313 | Connect does nothing unless the socket is closed; outside a batch, on every closed socket, registered or not, with a descriptor or without: ::connect is called unless no socket can be made; when it succeeds or is under way the kernel watches both directions if and only if the socket was registered or is one Connect made; when it fails nothing else happened |
| ReactorInterest.ConnectRegistersIff | u-toolbox/src/u-toolbox/net/sockets/physical_socket.cpp:88-97 | for every state and outcome, in a batch or out of one, Connect registers exactly the socket it makes; one that has a descriptor and is not registered stays so |
| ReactorInterest.ListenArms | u-toolbox/src/u-toolbox/net/sockets/physical_socket.cpp:180-190 | outside a batch, a listening socket is watched for input if and only if it is registered, and input on it is reported as something to accept; without a descriptor, or if ::listen fails, nothing happens |
| ReactorInterest.AcceptArms | u-toolbox/src/u-toolbox/net/physical_socket_server.cpp:78-88 | the accepted socket is new, connected, registered under a new key and watched for both directions, also from a slot of the listening socket's own OnEvent; the listening one asks for more |
| ReactorSlots.EventDisarms | u-toolbox/src/u-toolbox/net/dispatchers/socket_dispatcher.cpp:121-162 | an event whose slots touch only other sockets disarms exactly what it reports, leaves the state that the flags tell, and the kernel ends up right if it was right before |
| ReactorInterest.RecvRearms | u-toolbox/src/u-toolbox/net/sockets/physical_socket.cpp:138-158 | a read that did not fail has the socket ask for input again, in a batch and out of one; outside one the kernel watches for it if and only if the socket is registered |
| ReactorSlots.RearmedSlotIsWatched | u-toolbox/src/u-toolbox/net/dispatchers/socket_dispatcher.cpp:121-162 | if a read slot reads without failing, or an accept slot accepts, and no slot closes or re-creates the socket, then after OnEvent the kernel watches it for input, whatever else the slots do |
| ReactorInterest.FlagsTell | u-toolbox/src/u-toolbox/net/physical_socket_server.cpp:191-215 | a failure is told as a close and never as success; input and output are each told once, as what the socket waits for |
| ReactorSelect.SelectDeliversOnce | u-toolbox/src/u-toolbox/net/physical_socket_server.cpp:296-316 | whatever keys the vector has accumulated, a key gets one event, with the flags its own bits tell, if it is registered when first reached and its descriptor was reported, else none |
| ReactorSelect.ReadyIsServedOnce | u-toolbox/src/u-toolbox/net/physical_socket_server.cpp:253-316 | whoever is registered when a round starts gets exactly that one event in it if due, in spite of keys left by earlier rounds |
| ReactorSelect.FlagsIffReported | u-toolbox/src/u-toolbox/net/physical_socket_server.cpp:191-219 | a reported descriptor always yields an event, an unreported one never |
| ReactorWaits.PassLowersFlagIff | u-toolbox/src/u-toolbox/net/physical_socket_server.cpp:440-461 | a pass lowers flag_wait_ if and only if the wake-up is among its events, wherever, whatever slots do |
| ReactorWaits.WakeUpEndsTheWait | u-toolbox/src/u-toolbox/net/physical_socket_server.cpp:424-471 | of the rounds of epoll_wait, the first that reports the wake-up ends the wait at the latest, as woken, or as timed out if its clock says so; a wait that ends as woken ends at one that reports it |
| ReactorWaits.WakeUpEndsSelect | u-toolbox/src/u-toolbox/net/physical_socket_server.cpp:250-318 | a wait by select ends as woken in the first round that reports the wake-up descriptor as readable, and in no other |
| Reactor.Signaler.Signal | u-toolbox/src/u-toolbox/net/dispatchers/signaler.cpp:34-44 | leaves exactly one byte in the pipe, however often it is called |
| Reactor.Signaler.OnEvent | u-toolbox/src/u-toolbox/net/dispatchers/signaler.cpp:52-63 | empties the pipe and clears the shared flag |
| Reactor.SocketDispatcher.SetEnabledEvents | u-toolbox/src/u-toolbox/net/dispatchers/socket_dispatcher.cpp:211-217 | the fields change in place and the kernel is told, or not within a batch, exactly as SetEnabledKeeps needs |
| Reactor.SocketDispatcher.Close | u-toolbox/src/u-toolbox/net/dispatchers/socket_dispatcher.cpp:164-177 | zeroing the saved interest, leaving the registry and giving up the descriptor, in that order, is the step ClosedIsForgotten speaks of |
| Reactor.SocketDispatcher.Create | u-toolbox/src/u-toolbox/net/dispatchers/socket_dispatcher.cpp:58-70 | closing first, then opening and registering in place is the step CreateArms speaks of, for every failure |
| Reactor.SocketDispatcher.Connect | u-toolbox/src/u-toolbox/net/sockets/physical_socket.cpp:88-97 | the branches over state, descriptor and outcome amount to the step ConnectArms speaks of |
| Reactor.SocketDispatcher.Accept | u-toolbox/src/u-toolbox/net/sockets/physical_socket.cpp:192-209 | asking for more and wrapping the new descriptor is the step AcceptArms speaks of; older objects keep their places |
| Reactor.SocketDispatcher.OnEvent | u-toolbox/src/u-toolbox/net/dispatchers/socket_dispatcher.cpp:121-162 | with slots that change any object, the batch in place ends in the world NoStaleEvent speaks of and has performed exactly the slots of the reported flags; for a settled object that stays registered, the kernel then knows its interest if and only if it was not opened anew and silenced |
| Reactor.PhysicalSocketServer.Add | u-toolbox/src/u-toolbox/net/physical_socket_server.cpp:115-133 | the two maps, the counter and the table change together as AddRegisters has it; a second Add changes nothing |
| Reactor.PhysicalSocketServer.Remove | u-toolbox/src/u-toolbox/net/physical_socket_server.cpp:135-152 | both maps and the table forget the dispatcher as RemoveKeepsKeys has it; a second Remove changes nothing |
| Reactor.PhysicalSocketServer.UpdateEpoll | u-toolbox/src/u-toolbox/net/physical_socket_server.cpp:378-411 | MOD and, on ENOENT, ADD leave the table UpdateTouches speaks of |
| Reactor.PhysicalSocketServer.ReadyFlags | u-toolbox/src/u-toolbox/net/physical_socket_server.cpp:191-215 | the flags computed step by step are those FlagsTell speaks of |
| Reactor.PhysicalSocketServer.WaitEpoll | u-toolbox/src/u-toolbox/net/physical_socket_server.cpp:413-472 | the server ends as the passes over what the consumed rounds reported make it, all of them and in order; it consumes the rounds up to the first that brings an end, and that is the end; each call of epoll_wait gets what is left as its timeout; from a server in order, the first wake-up ends the wait, and the kernel afterwards watches every registered object for what it asks, with the one exception |
| Reactor.PhysicalSocketServer.Serve | u-toolbox/src/u-toolbox/net/physical_socket_server.cpp:115-169 | whatever a program does with a new server, the maps of the object are inverse and the kernel watches every registered object for what it asks, with the one exception |
| Reactor.PhysicalSocketServer.CollectKeys | u-toolbox/src/u-toolbox/net/physical_socket_server.cpp:259-280 | every registered key is appended, and the fd_sets hold exactly the descriptors that ask |
| Reactor.PhysicalSocketServer.VisitKeys | u-toolbox/src/u-toolbox/net/physical_socket_server.cpp:296-316 | the loop over accumulated keys is the pass SelectDeliversOnce speaks of |
| Reactor.PhysicalSocketServer.SelectRound | u-toolbox/src/u-toolbox/net/physical_socket_server.cpp:253-317 | the round appends every registered key and visits all with the bits that select reported of the descriptors asked for; every object registered when it starts gets exactly one event if it is due when its key is reached, else none; the server stays in order |
| Reactor.PhysicalSocketServer.WaitSelect | u-toolbox/src/u-toolbox/net/physical_socket_server.cpp:235-320 | each round is taken on what the one before left, up to the first that brings an end, and that is the end: woken exactly at the first that reports the wake-up descriptor; every registered object stays watched for what it asks, with the one exception |
| Events.SignalsAreConserved | u-toolbox/src/u-toolbox/concurrency/event.cpp:21-45 | an auto-reset event hands out no more successes than signals and keeps the one left over |
| Events.SetBetweenSuccesses | u-toolbox/src/u-toolbox/concurrency/event.cpp:36-45 | between two successful waits on an auto-reset event there is a Set |
| Events.ManualStaysSignaled | u-toolbox/src/u-toolbox/concurrency/event.cpp:21-45 | a manual-reset event stays signaled from a Set to the next Reset |
| Events.GivingUpChangesNothing | u-toolbox/src/u-toolbox/concurrency/event.cpp:47-58 | a wait that timed out neither consumes nor loses a signal |
| Events.RunIsOk | u-toolbox/src/u-toolbox/concurrency/event.cpp:21-64 | in every interleaving of any number of callers the mutex is exclusive and the results are those of a sequential history |
| Events.AutoResetConserves | u-toolbox/src/u-toolbox/concurrency/event.cpp:21-64 | in every interleaving: conservation, and a Set between any two successes |
| Events.ManualResetPersists | u-toolbox/src/u-toolbox/concurrency/event.cpp:21-64 | in every interleaving: a Set lasts until a Reset |
| Events.GivingUpKeepsStatus | u-toolbox/src/u-toolbox/concurrency/event.cpp:54-59 | a waiter that timed out leaves without looking at the status again |
| Events.NoSleeperMissesSet | u-toolbox/src/u-toolbox/concurrency/event.cpp:24-26 | in every interleaving nobody sleeps on a signaled event once the setter released the mutex |
| Events.EveryCallIsAnswered | u-toolbox/src/u-toolbox/concurrency/event.cpp:21-64 | in every interleaving each call, by the time it returns, has left exactly one entry in the history: Set a set, Reset a reset, Wait its own success, or a giving up if it has a limit |
| Events.SomebodyGoesOn | u-toolbox/src/u-toolbox/concurrency/event.cpp:21-64 | in every interleaving a thread inside a call that does not sleep can take a step, or the one that holds the mutex can |
| Events.Event.Wait | u-toolbox/src/u-toolbox/concurrency/event.cpp:47-64 | with other threads acting during every sleep: the history is what they did in the sleeps it took, then its own entry; it takes the sleeps, and ends, as WaitEnds has it, which WaitEndsInOneWay and SetEndsTheWait are about |
| Events.WaitEndsInOneWay | u-toolbox/src/u-toolbox/concurrency/event.cpp:54-63 | how often a wait sleeps and what it returns is determined: it gives up at the first sleep that fails, succeeds at the first after which the event is signaled, or at once if it was, and sleeps on only if all sleeps were neither |
| Events.SetEndsTheWait | u-toolbox/src/u-toolbox/concurrency/event.cpp:21-63 | a sleep in which the last thing that happened is a Set ends the wait at the latest, with success unless it failed |
| IpAddresses.LessIsTotalOrder | u-toolbox/src/u-toolbox/net/ip_address.cpp:128-152 | operator< is a strict total order whose ties are what operator== calls equal |
| IpAddresses.LessMeans | u-toolbox/src/u-toolbox/net/ip_address.cpp:128-152 | operator< puts the unspecified address first, IPv4 before IPv6, and within a family is the dictionary order of the bytes |
| IpAddresses.HostOrderIsByteOrder | u-toolbox/src/u-toolbox/net/ip_address.cpp:99-107 | comparing host-order integers is comparing bytes from the first on |
| IpAddresses.HostOrderRoundTrip | u-toolbox/src/u-toolbox/net/ip_address.h:29-33 | the host-order constructor undoes the host-order reading |
| IpAddresses.MappingPreservesOrder | u-toolbox/src/u-toolbox/net/ip_address.cpp:87-97 | the IPv4-mapped form of section 2.5.5.2 of RFC 4291 keeps order and identity of IPv4 addresses |
| IpAddresses.MappingPreservesAny | u-toolbox/src/u-toolbox/net/ip_address.cpp:205-219 | the mapped form is "any" exactly if the address is, or is unspecified |
| SocketAddresses.LessIsStrictWeakOrder | u-toolbox/src/u-toolbox/net/socket_address.cpp:200-212 | operator< is a strict weak order in spite of its three branches |
| SocketAddresses.LessAddressMeans | u-toolbox/src/u-toolbox/net/socket_address.cpp:200-212 | operator< goes by address, then by the dictionary order of host names where the address is "any" or missing, else by port |
| SocketAddresses.SameKeyMeans | u-toolbox/src/u-toolbox/net/socket_address.cpp:200-212 | what the order ignores: the port of "any" addresses, the host name of specified ones |
| SocketAddresses.EqualsItselfIff | u-toolbox/src/u-toolbox/net/socket_address.cpp:194-220 | operator== means equal in all three parts and neither "any" nor unspecified, so an address equals itself exactly then; equality is finer than the order |
| SocketAddresses.PortRoundTrip | u-toolbox/src/u-toolbox/net/socket_address.cpp:153-155 | strtoul reads back every printed port |
| SocketAddresses.StrtoulReads | u-toolbox/src/u-toolbox/net/socket_address.cpp:153-155 | strtoul skips spaces, reads a sign and a number whatever follows it, negates modulo 2^64 and saturates |
| SocketAddresses.BracketedHostParsed | u-toolbox/src/u-toolbox/net/socket_address.cpp:147-160 | a host in brackets ends at the first closing one, and the port starts after the next colon, whatever stands between |
| SocketAddresses.PlainHostParsed | u-toolbox/src/u-toolbox/net/socket_address.cpp:161-169 | a host without brackets ends at the first colon, and the rest is the port |
| SocketAddresses.ParseFailsIff | u-toolbox/src/u-toolbox/net/socket_address.cpp:144-172 | FromString returns false, and assigns nothing, exactly if there is no colon where the port should start; an unclosed bracket gives true and assigns nothing |
| SocketAddresses.TextRoundTrip | u-toolbox/src/u-toolbox/net/socket_address.cpp:122-172 | without a host name, parsing the printed form recovers address and port for every family, and never an equal address |
| SocketAddresses.HostnameRoundTripIff | u-toolbox/src/u-toolbox/net/socket_address.cpp:136-172 | a host name survives the trip if and only if it has no colon and no leading bracket |
| SocketAddresses.SockAddrRoundTripIff | u-toolbox/src/u-toolbox/net/socket_address.cpp:237-263 | through sockaddr_in the port always survives and the address exactly if it is IPv4 |
| SocketAddresses.SockAddrHoldsNetworkBytes | u-toolbox/src/u-toolbox/net/socket_address.cpp:237-251 | in memory sockaddr_in holds port and address in network order, zeros for "any", and for IPv6 the first four bytes |
| SocketAddresses.StorageHoldsNetworkBytes | u-toolbox/src/u-toolbox/net/socket_address.cpp:265-293 | so does sockaddr_storage, with all of an IPv6 address and its scope |
| SocketAddresses.StorageRoundTripIff | u-toolbox/src/u-toolbox/net/socket_address.cpp:265-322 | through sockaddr_storage IPv6 survives and IPv4 is reversed, so it survives exactly if it reads the same backwards |
| SocketAddresses.SocketAddress.FromString | u-toolbox/src/u-toolbox/net/socket_address.cpp:144-172 | the method parses as the function the round trips are about, and throws on the empty string |
| SocketAddresses.SocketAddress.FillSockAddr | u-toolbox/src/u-toolbox/net/socket_address.cpp:237-251 | whatever the family, AF_INET in the end |
| SocketAddresses.SocketAddress.AssignSockAddr | u-toolbox/src/u-toolbox/net/socket_address.cpp:253-263 | assigns address and port, keeps the host name, refuses other families |
| Allocators.BucketsCountLive | u-toolbox/src/u-toolbox/memory/memory.h:259-283 | over every run of matched calls each bucket is the count and byte sum of its live allocations, modulo 2^64 |
| Allocators.MatchedFreeIsNormal | u-toolbox/src/u-toolbox/memory/memory.h:271-283 | while the live allocations fit into the address space the counters are exact and both checks of Free pass |
| Allocators.FreeIsNormalIff | u-toolbox/src/u-toolbox/memory/memory.h:271-283 | while they fit, the two checks of Free pass if and only if something of that usage is live and has no fewer bytes in all |
| Allocators.TrackedAllocator.NumAllocations | u-toolbox/src/u-toolbox/memory/memory.h:232-238 | the total over the buckets is the number of live allocations |
| Allocators.TrackedAllocator.BytesAllocated | u-toolbox/src/u-toolbox/memory/memory.h:240-246 | the total over the buckets is the byte sum of the live allocations |
| Allocators.TrackedAllocator.Free | u-toolbox/src/u-toolbox/memory/memory.h:271-283 | removes the allocation from its bucket, and tells whether its checks passed |
| Allocators.TrackedAllocator.MakeUniqueN | u-toolbox/src/u-toolbox/memory/memory.h:171-188 | allocates what its deleter will free, and nothing for a count of 0 |
| Allocators.TrackedAllocator.Delete | u-toolbox/src/u-toolbox/memory/memory.h:121-133 | frees exactly what MakeUniqueN allocated |
| Allocators.TrackedAllocator.StlDeallocate | u-toolbox/src/u-toolbox/memory/memory.h:354-370 | frees exactly what allocate requested |

## Left out

- TaskQueues.Thread.Get: the waits are given as outcomes, each with what other threads did meanwhile; when they run out the method says so. The step system of LoopModel has no such limit.
- TaskQueues.Thread.ProcessMessages: runs at most as many tasks as it is given turns; LoopModel has no such limit. Both take any `cms`, not only the two that the source checks for.
- MessageHeaps.MessageHeap.Push: the vector of the priority queue is a sequence, not an array with spare capacity; the sift is the textbook one, since the standard library's own is not part of this model.
- ReactorSelect.SelectDeliversOnce: descriptors fit into an fd_set; the source asserts `fd <= FD_SETSIZE`, which admits one too many. On Linux `Wait` never reaches `WaitSelect`.
- Reactor.PhysicalSocketServer.VisitKeys: `process_io` is true; the one-dispatcher pass of WaitSelect is left out.
- Reactor.PhysicalSocketServer.WaitEpoll: the calls of epoll_wait are given as rounds, each with what it reports and the clock after it; when they run out the method says so.
- Reactor.PhysicalSocketServer.WaitSelect: likewise for the calls of select; the timeout, which the source passes anew in each round, is one of their outcomes.
- LoopEnd.MaximalQuittingRunEnds: no fairness is assumed of the scheduler; the loop ends in every run that is continued while it can be.
- ReactorEvents.RegistryMirrorsKernel: slots and callers do not call Add, Remove or Update of the socket server themselves, which only dispatchers do; ReactorKeys covers such calls for the registry, not for the mirror.
- Events.Event.Wait: the time to wait is a failure at any moment; `give_up_after` is passed as an absolute time in the source, so it gives no duration.
- SocketAddresses.TextRoundTrip: `inet_ntop` and `inet_pton` are parameters.
- Classes of one hierarchy: PhysicalSocket is folded into SocketDispatcher, and the Signaler's entry in the registry is dispatcher 0. Dispatchers are known by their number of creation; objects are never deallocated, so `delete` is modelled by what the destructor does.
- `WaitPollOneDispatcher`, and `Wait` with `process_io` false; a socket server whose epoll descriptor is invalid.
- The 64-bit dispatcher key is unbounded.
- A slot does not call `Wait`, and OnEvent of a socket does not run within itself. Slots and tasks that post to their own loop count as one more poster.
- Errors kept in `error_`, `Bind`, `Send`, `SendTo`, `RecvFrom`, socket options and `TranslateOption`. `Send` re-arms output under a condition that is never true.
- `ConditionVariable`, `WaitGroup`, `ThreadLocal`, lock wrappers, thread creation and joining, the current-queue setter, slow-dispatch warnings, logging.
- The demonstration server in `main.cpp`, signals and slots themselves, `Finally`, `AlignUp`, `Hash`, `HashIP`, loopback and private address tests.
- Unmatched calls of `Free`, guards and alignment of allocations, constructors and destructors of the objects in them.
