/**
 The task loop and its wake-up protocol as a labelled step system: any number of posting threads, one loop
 thread inside ProcessMessages, the two mutexes, the self-pipe, a clock. One step is one access to shared state.
 */
module LoopModel {
  import opened DelayedMessages
  import opened TaskQueues

  /** The clock counts nanoseconds; the program reads it in milliseconds or microseconds. */
  function Millis(ns: nat): nat {
    ns / 1_000_000
  }

  function Micros(ns: nat): nat {
    ns / 1_000
  }

  /** What a poster is about to push. */
  datatype Entry =
    | NowEntry(task: Task)
    | LaterEntry(task: Task, delayMs: int, runTimeMs: int)

  /** Where a poster stands in PostTaskImpl or PostDelayedTaskImpl, then WakeUp and Signaler::Signal. */
  datatype PosterPc =
    | Idle
    | Passed(task: Task, delayMs: int, timed: bool)  // IsQuitting() answered false
    | Want(entry: Entry)                             // run time computed, waiting for the queue mutex
    | Holding(entry: Entry)                          // owns the queue mutex
    | PushedHolding                                  // pushed, still owns it
    | Announce                                       // released it, waiting for the signaler mutex
    | SigHeld                                        // owns the signaler mutex
    | SigWrote                                       // wrote the byte, flag not set yet
    | SigSet                                         // f_signaled_ is true, still owns the mutex

  /** Where the loop thread stands in ProcessMessages, Get, WaitEpoll and Signaler::OnEvent. */
  datatype LoopPc =
    | Out                  // not inside ProcessMessages
    | Top                  // the head of the loop of Get
    | Locked               // owns the queue mutex
    | Drained              // ProcessDelayedMessage returned
    | Popped(task: Task)   // took the front task, still owns the mutex
    | Run(task: Task)      // Get returned it
    | Ran                  // dispatched
    | Released             // found no task, released the mutex
    | Arm                  // timeout chosen, entering Wait
    | Raise                // about to set flag_wait_
    | LoopTest             // the loop condition of WaitEpoll
    | Poll                 // blocked in epoll_wait
    | Batch(wake: bool)    // processing events; wake tells whether the pipe is among them
    | SigOwned             // OnEvent owns the signaler mutex
    | SigRead              // read the pipe
    | SigCleared           // f_signaled_ is false
    | SigLowered           // flag_wait_ is false, still owns the mutex
    | Recalc               // recomputing the timeout
    | Woke                 // Wait returned true

  datatype Owner = Free | ByLoop | ByPoster(p: nat)

  /** The loop thread's variables in ProcessMessages and Get. */
  datatype GetVars = GetVars(cms: int, msEnd: int, cmsWait: int, msStart: int, msCurrent: int, gap: int)

  /** The loop thread's variables in Wait and WaitEpoll; timeout and pollAt describe the epoll_wait call. */
  datatype WaitVars = WaitVars(cmsNext: int, waitArg: int, msStop: int, msWait: int, timeout: int, pollAt: int)

  datatype Signaler = Signaler(mutex: Owner, pipe: nat, signaled: bool)

  /** An element that entered messages_, with where it came from. */
  datatype Item = Immediate(task: Task) | Timed(msg: DelayedMessage)

  /** The history of a run; no step depends on it. */
  datatype Log = Log(
    acceptedNow: seq<Task>,
    acceptedLater: seq<DelayedMessage>,
    pushed: seq<Item>,
    dispatched: seq<Task>)

  /** More history: |pushed| at the last drain, and whether anything was posted since the last clock read or drain. */
  datatype Marks = Marks(drained: nat, sinceRead: bool, sinceDrain: bool)

  datatype State = State(
    q: Queues,
    stop: bool,
    mutex: Owner,
    sig: Signaler,
    flagWait: bool,
    posters: map<nat, PosterPc>,
    pc: LoopPc,
    get: GetVars,
    wait: WaitVars,
    now: nat,
    nextId: nat,
    log: Log,
    marks: Marks)

  /** A thread that never posted is idle. */
  function PcOf(posters: map<nat, PosterPc>, p: nat): PosterPc {
    if p in posters then posters[p] else Idle
  }

  function At(s: State, p: nat, pc: PosterPc): State {
    s.(posters := s.posters[p := pc])
  }

  function ItemTask(i: Item): Task {
    match i
    case Immediate(t) => t
    case Timed(m) => m.functor
  }

  function Erase(items: seq<Item>): (r: seq<Task>) {
    seq(|items|, i requires 0 <= i < |items| => ItemTask(items[i]))
  }

  function TimedItems(due: seq<DelayedMessage>): (r: seq<Item>) {
    seq(|due|, i requires 0 <= i < |due| => Timed(due[i]))
  }

  datatype PosterStep =
    | Test(timed: bool, delayMs: int)
    | Stamp
    | Lock
    | Push
    | Unlock
    | LockSignaler
    | Write
    | SetSignaled
    | UnlockSignaler

  /** Steps of ProcessMessages and Get. */
  datatype GetStep =
    | Start(cms: int)
    | LockQueue
    | Drain(due: seq<DelayedMessage>, rest: multiset<DelayedMessage>, gap: int)
    | Take
    | Release
    | Dispatch
    | Next
    | TestQuit
    | Return

  /** Steps of WaitEpoll. */
  datatype WaitStep =
    | EnterWait
    | RaiseFlag
    | TestFlag
    | PollTimeout
    | PollInterrupted
    | PollFailed
    | PollEvents(wake: bool)
    | SkipBatch
    | Recompute

  /** Steps of Signaler::OnEvent. */
  datatype EventStep =
    | TakeSignaler
    | ReadPipe
    | ClearSignaled
    | LowerFlag
    | LeaveSignaler

  datatype Label =
    | ByThread(p: nat, ps: PosterStep)
    | InGet(gs: GetStep)
    | InWait(ws: WaitStep)
    | InOnEvent(es: EventStep)
    | Tick(ns: nat)
    | SetStop(value: bool)  // Quit or Restart, by any thread

  predicate PosterEnabled(s: State, p: nat, ps: PosterStep) {
    match ps
    case Test(timed, delayMs) => PcOf(s.posters, p) == Idle && IsInt32(delayMs)
    case Stamp => PcOf(s.posters, p).Passed?
    case Lock => PcOf(s.posters, p).Want? && s.mutex == Free
    case Push => PcOf(s.posters, p).Holding?
    case Unlock => PcOf(s.posters, p) == PushedHolding
    case LockSignaler => PcOf(s.posters, p) == Announce && s.sig.mutex == Free
    case Write => PcOf(s.posters, p) == SigHeld
    case SetSignaled => PcOf(s.posters, p) == SigWrote
    case UnlockSignaler => PcOf(s.posters, p) == SigSet
  }

  function PushEntry(s: State, e: Entry): State {
    match e
    case NowEntry(t) =>
      s.(q := WithTask(s.q, t),
         marks := s.marks.(sinceRead := true, sinceDrain := true),
         log := s.log.(acceptedNow := s.log.acceptedNow + [t], pushed := s.log.pushed + [Immediate(t)]))
    case LaterEntry(t, d, r) =>
      s.(q := WithTimer(s.q, t, d, r),
         marks := s.marks.(sinceRead := true, sinceDrain := true),
         log := s.log.(acceptedLater := s.log.acceptedLater + [DelayedMessage(d, r, s.q.nextNum, t)]))
  }

  function PosterApply(s: State, p: nat, ps: PosterStep): State
    requires PosterEnabled(s, p, ps)
  {
    match ps
    case Test(timed, delayMs) =>
      if s.stop then s
      else At(s, p, Passed(Task(s.nextId), delayMs, timed)).(nextId := s.nextId + 1)
    case Stamp =>
      var pc := PcOf(s.posters, p);
      var entry := if pc.timed then LaterEntry(pc.task, pc.delayMs, Millis(s.now) + pc.delayMs) else NowEntry(pc.task);
      At(s, p, Want(entry))
    case Lock => At(s, p, Holding(PcOf(s.posters, p).entry)).(mutex := ByPoster(p))
    case Push => At(PushEntry(s, PcOf(s.posters, p).entry), p, PushedHolding)
    case Unlock => At(s, p, Announce).(mutex := Free)
    case LockSignaler => At(s, p, SigHeld).(sig := s.sig.(mutex := ByPoster(p)))
    case Write =>
      if s.sig.signaled then At(s, p, SigSet)
      else At(s, p, SigWrote).(sig := s.sig.(pipe := s.sig.pipe + 1))
    case SetSignaled => At(s, p, SigSet).(sig := s.sig.(signaled := true))
    case UnlockSignaler => At(s, p, Idle).(sig := s.sig.(mutex := Free))
  }

  /** The head of Get: read the clock and start over. */
  function EnterGet(s: State, cmsWait: int): State {
    s.(pc := Top,
       get := s.get.(cmsWait := cmsWait, msStart := Millis(s.now), msCurrent := Millis(s.now)),
       marks := s.marks.(sinceRead := false))
  }

  ghost predicate GetEnabled(s: State, gs: GetStep) {
    match gs
    case Start(cms) => s.pc == Out && IsInt32(cms)
    case LockQueue => s.pc == Top && s.mutex == Free
    case Drain(due, rest, gap) =>
      s.pc == Locked && IsDrain(s.q.delayed, s.get.msCurrent, due, rest) && IsGap(rest, s.get.msCurrent, gap)
    case Take => s.pc == Drained && s.q.messages != []
    case Release => s.pc.Popped? || (s.pc == Drained && s.q.messages == [])
    case Dispatch => s.pc.Run?
    case Next => s.pc == Ran
    case TestQuit => s.pc == Released
    case Return => s.pc == Woke
  }

  function GetApply(s: State, gs: GetStep): State
    requires GetEnabled(s, gs)
  {
    match gs
    case Start(cms) =>
      EnterGet(s.(get := s.get.(cms := cms, msEnd := if cms == FOREVER then 0 else Millis(s.now) + cms)), cms)
    case LockQueue => s.(pc := Locked, mutex := ByLoop)
    case Drain(due, rest, gap) =>
      s.(pc := Drained,
         q := s.q.(messages := s.q.messages + Functors(due), delayed := rest),
         get := s.get.(gap := gap),
         log := s.log.(pushed := s.log.pushed + TimedItems(due)),
         marks := s.marks.(drained := |s.log.pushed| + |due|, sinceDrain := false))
    case Take => s.(pc := Popped(s.q.messages[0]), q := s.q.(messages := s.q.messages[1..]))
    case Release => s.(pc := if s.pc.Popped? then Run(s.pc.task) else Released, mutex := Free)
    case Dispatch => s.(pc := Ran, log := s.log.(dispatched := s.log.dispatched + [s.pc.task]))
    case Next =>
      if s.get.cms == FOREVER then EnterGet(s, FOREVER)
      else
        var left := ToInt32(s.get.msEnd - Millis(s.now));
        if left < 0 then s.(pc := Out) else EnterGet(s, left)
    case TestQuit =>
      if s.stop then s.(pc := Out)
      else s.(pc := Arm,
              wait := s.wait.(cmsNext := WaitTimeout(s.get.cmsWait, s.get.msCurrent - s.get.msStart, s.get.gap)))
    case Return =>
      var ms := Millis(s.now);
      var over := s.get.cmsWait != FOREVER && s.get.cmsWait <= ms - s.get.msStart;
      s.(pc := if over then Out else Top,
         get := s.get.(msCurrent := ms),
         marks := s.marks.(sinceRead := false))
  }

  predicate WaitEnabled(s: State, ws: WaitStep) {
    match ws
    case EnterWait => s.pc == Arm
    case RaiseFlag => s.pc == Raise
    case TestFlag => s.pc == LoopTest
    case PollTimeout => s.pc == Poll && 0 <= s.wait.timeout && s.wait.pollAt + s.wait.timeout <= Millis(s.now)
    case PollInterrupted => s.pc == Poll
    case PollFailed => s.pc == Poll
    case PollEvents(wake) => s.pc == Poll && (wake ==> 0 < s.sig.pipe)
    case SkipBatch => s.pc == Batch(false)
    case Recompute => s.pc == Recalc
  }

  function WaitApply(s: State, ws: WaitStep): State
    requires WaitEnabled(s, ws)
  {
    match ws
    case EnterWait =>
      var arg := ToInt32(s.wait.cmsNext);
      s.(pc := Raise,
         wait := s.wait.(waitArg := arg, msWait := arg,
                         msStop := if arg == FOREVER then -1 else Millis(s.now) + arg))
    case RaiseFlag => s.(pc := LoopTest, flagWait := true)
    case TestFlag =>
      if s.flagWait
      then s.(pc := Poll, wait := s.wait.(timeout := ToInt32(s.wait.msWait), pollAt := Millis(s.now)))
      else s.(pc := Woke)
    case PollTimeout => s.(pc := Woke)
    case PollInterrupted => s.(pc := Recalc)
    case PollFailed => s.(pc := Out)
    case PollEvents(wake) => s.(pc := Batch(wake))
    case SkipBatch => s.(pc := Recalc)
    case Recompute =>
      if s.wait.waitArg == FOREVER then s.(pc := LoopTest)
      else
        var left := s.wait.msStop - Micros(s.now);
        s.(pc := if left <= 0 then Woke else LoopTest, wait := s.wait.(msWait := left))
  }

  predicate EventEnabled(s: State, es: EventStep) {
    match es
    case TakeSignaler => s.pc == Batch(true) && s.sig.mutex == Free
    case ReadPipe => s.pc == SigOwned
    case ClearSignaled => s.pc == SigRead
    case LowerFlag => s.pc == SigCleared
    case LeaveSignaler => s.pc == SigLowered
  }

  function EventApply(s: State, es: EventStep): State
    requires EventEnabled(s, es)
  {
    match es
    case TakeSignaler => s.(pc := SigOwned, sig := s.sig.(mutex := ByLoop))
    case ReadPipe =>
      if s.sig.signaled
      then s.(pc := SigRead, sig := s.sig.(pipe := if s.sig.pipe < 4 then 0 else s.sig.pipe - 4))
      else s.(pc := SigCleared)
    case ClearSignaled => s.(pc := SigCleared, sig := s.sig.(signaled := false))
    case LowerFlag => s.(pc := SigLowered, flagWait := false)
    case LeaveSignaler => s.(pc := Recalc, sig := s.sig.(mutex := Free))
  }

  ghost predicate Enabled(s: State, l: Label) {
    match l
    case ByThread(p, ps) => PosterEnabled(s, p, ps)
    case InGet(gs) => GetEnabled(s, gs)
    case InWait(ws) => WaitEnabled(s, ws)
    case InOnEvent(es) => EventEnabled(s, es)
    case Tick(ns) => true
    case SetStop(value) => true
  }

  ghost function Apply(s: State, l: Label): State
    requires Enabled(s, l)
  {
    match l
    case ByThread(p, ps) => PosterApply(s, p, ps)
    case InGet(gs) => GetApply(s, gs)
    case InWait(ws) => WaitApply(s, ws)
    case InOnEvent(es) => EventApply(s, es)
    case Tick(ns) => s.(now := s.now + ns)
    case SetStop(value) => s.(stop := value)
  }

  /** A thread object just built: empty queues, nobody posting, the loop not started. */
  ghost predicate Init(s: State) {
    && s.q == Queues([], multiset{}, 1)
    && s.mutex == Free
    && s.sig == Signaler(Free, 0, false)
    && !s.flagWait
    && s.posters == map[]
    && s.pc == Out
    && s.get.msCurrent == 0
    && s.nextId == 0
    && s.log == Log([], [], [], [])
    && s.marks == Marks(0, false, false)
  }

  /** One more state than labels; consecutive states are related by the label between them. */
  ghost predicate IsRun(states: seq<State>, labels: seq<Label>) {
    && |states| == |labels| + 1
    && forall i {:trigger labels[i]} :: 0 <= i < |labels| ==>
         Enabled(states[i], labels[i]) && states[i + 1] == Apply(states[i], labels[i])
  }
}
