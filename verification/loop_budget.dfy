/** The time limits of the loop, from the labels and the clock alone: what a call was given is what it keeps to. */
module LoopBudget {
  import opened DelayedMessages
  import opened TaskQueues
  import opened LoopModel
  import opened WakeupProtocol
  import opened TimerProtocol
  import opened LoopHistory
  import opened LoopOrder
  import opened LoopRuns
  import opened LoopDrain

  /** The clock in milliseconds at state n. */
  function Clock(states: seq<State>, n: nat): nat
    requires n < |states|
  {
    Millis(states[n].now)
  }

  // ----- one call, one Get -----

  predicate IsStart(l: Label) {
    l.InGet? && l.gs.Start?
  }

  predicate EntersGet(l: Label) {
    IsStart(l) || l == InGet(Next)
  }

  /** After b and before n nobody calls ProcessMessages. */
  ghost predicate OneCall(labels: seq<Label>, b: nat, n: nat) {
    b < n <= |labels| && forall j :: b < j < n ==> !IsStart(labels[j])
  }

  /** After b and before n the loop does not enter Get. */
  ghost predicate OneGet(labels: seq<Label>, b: nat, n: nat) {
    b < n <= |labels| && forall j :: b < j < n ==> !EntersGet(labels[j])
  }

  ghost predicate SameCall(s: State, s': State) {
    s'.get.cms == s.get.cms && s'.get.msEnd == s.get.msEnd
  }

  ghost predicate SameGet(s: State, s': State) {
    SameCall(s, s') && s'.get.cmsWait == s.get.cmsWait && s'.get.msStart == s.get.msStart
  }

  lemma CallStays(s: State, l: Label)
    requires Enabled(s, l) && !IsStart(l)
    ensures SameCall(s, Apply(s, l))
    ensures l != InGet(Next) ==> SameGet(s, Apply(s, l))
  {
    if !l.InGet? {
      GetVarsStay(s, l);
    }
  }

  lemma {:induction false} CallLasts(states: seq<State>, labels: seq<Label>, k: nat, n: nat)
    requires IsRun(states, labels) && k <= n <= |labels| && forall j :: k <= j < n ==> !IsStart(labels[j])
    ensures SameCall(states[k], states[n])
    decreases n - k
  {
    if k < n {
      var s, l := StepAt(states, labels, k);
      CallStays(s, l);
      CallLasts(states, labels, k + 1, n);
    }
  }

  lemma {:induction false} GetLasts(states: seq<State>, labels: seq<Label>, k: nat, n: nat)
    requires IsRun(states, labels) && k <= n <= |labels| && forall j :: k <= j < n ==> !EntersGet(labels[j])
    ensures SameGet(states[k], states[n])
    decreases n - k
  {
    if k < n {
      var s, l := StepAt(states, labels, k);
      CallStays(s, l);
      GetLasts(states, labels, k + 1, n);
    }
  }

  // ----- what a limit means -----

  /**
   At n the loop keeps to a Get that may last until `end`, within a call that may last until `callEnd`. Without a
   wake-up on its way it polls no longer than until then; it returns from a wait exactly if the end has come; and it
   returns after a task exactly if the rest of the call, as an int, is negative.
   */
  ghost predicate KeepsTo(states: seq<State>, labels: seq<Label>, n: nat, end: int, callEnd: int)
    requires n <= |labels| < |states|
  {
    var s := states[n];
    && (s.pc == Poll && !WakePending(s) ==>
          0 <= s.wait.timeout && (s.wait.timeout <= end - s.get.msCurrent || s.wait.timeout == 0))
    && (n < |labels| && labels[n] == InGet(Return) ==> (states[n + 1].pc == Out <==> end <= Clock(states, n)))
    && (n < |labels| && labels[n] == InGet(Next) ==>
          (states[n + 1].pc == Out <==> ToInt32(callEnd - Clock(states, n)) < 0))
  }

  lemma BudgetKeepsTo(states: seq<State>, labels: seq<Label>, n: nat, end: int, callEnd: int)
    requires IsWholeRun(states, labels) && n <= |labels|
    requires states[n].get.cms != FOREVER && states[n].get.msEnd == callEnd
    requires states[n].get.cmsWait != FOREVER && states[n].get.msStart + states[n].get.cmsWait == end
    ensures KeepsTo(states, labels, n, end, callEnd)
  {
    PollKeepsTo(states, labels, n, end);
    if n < |labels| {
      var s, l := StepAt(states, labels, n);
      ReturnsInTime(s, l, end, callEnd);
    }
  }

  lemma PollKeepsTo(states: seq<State>, labels: seq<Label>, n: nat, end: int)
    requires IsWholeRun(states, labels) && n <= |labels|
    requires states[n].get.cmsWait != FOREVER && states[n].get.msStart + states[n].get.cmsWait == end
    ensures var s := states[n];
            s.pc == Poll && !WakePending(s) ==>
              0 <= s.wait.timeout && (s.wait.timeout <= end - s.get.msCurrent || s.wait.timeout == 0)
  {
    RunIsOk(states, labels, n);
    if states[n].pc == Poll && !WakePending(states[n]) {
      PollIsCovered(states[n]);
    }
  }

  lemma ReturnsInTime(s: State, l: Label, end: int, callEnd: int)
    requires Enabled(s, l) && s.get.cms != FOREVER && s.get.msEnd == callEnd
    requires s.get.cmsWait != FOREVER && s.get.msStart + s.get.cmsWait == end
    ensures l == InGet(Return) ==> (Apply(s, l).pc == Out <==> end <= Millis(s.now))
    ensures l == InGet(Next) ==> (Apply(s, l).pc == Out <==> ToInt32(callEnd - Millis(s.now)) < 0)
  {
  }

  /**
   ProcessMessages(cms) with a limit, called at b: until it has run a task, it keeps to the clock at b plus cms. A call
   with 0 in particular never sleeps.
   */
  lemma CallKeepsToItsLimit(states: seq<State>, labels: seq<Label>, b: nat, n: nat, cms: int)
    requires IsWholeRun(states, labels) && OneGet(labels, b, n)
    requires labels[b] == InGet(Start(cms)) && cms != FOREVER
    ensures KeepsTo(states, labels, n, Clock(states, b) + cms, Clock(states, b) + cms)
  {
    var s, l := StepAt(states, labels, b);
    GetLasts(states, labels, b + 1, n);
    BudgetKeepsTo(states, labels, n, Clock(states, b) + cms, Clock(states, b) + cms);
  }

  /**
   The same after a task was run, at e: what is left of the limit, converted to an int, is the limit of the next Get,
   unless it is negative, and then the call is over. It is kept to unless it happens to be kForever, which is negative.
   */
  lemma NextKeepsToTheRest(states: seq<State>, labels: seq<Label>, b: nat, e: nat, n: nat, cms: int)
    requires IsWholeRun(states, labels) && OneCall(labels, b, e + 1) && OneGet(labels, e, n)
    requires labels[b] == InGet(Start(cms)) && cms != FOREVER && labels[e] == InGet(Next)
    ensures var callEnd := Clock(states, b) + cms;
            var left := ToInt32(callEnd - Clock(states, e));
            && (states[e + 1].pc == Out <==> left < 0)
            && (0 <= left ==> KeepsTo(states, labels, n, Clock(states, e) + left, callEnd))
  {
    var s0, _ := StepAt(states, labels, b);
    CallLasts(states, labels, b + 1, e);
    var s, l := StepAt(states, labels, e);
    GetLasts(states, labels, e + 1, n);
    var left := ToInt32(Clock(states, b) + cms - Clock(states, e));
    if 0 <= left {
      BudgetKeepsTo(states, labels, n, Clock(states, e) + left, Clock(states, b) + cms);
    }
  }

  /** ProcessMessages(kForever) never returns because of the time, and polls without limit if there is no timer. */
  lemma ForeverHasNoLimit(states: seq<State>, labels: seq<Label>, b: nat, n: nat)
    requires IsWholeRun(states, labels) && OneCall(labels, b, n) && labels[b] == InGet(Start(FOREVER))
    ensures n < |labels| && (labels[n] == InGet(Return) || labels[n] == InGet(Next)) ==> states[n + 1].pc == Top
    ensures var s := states[n];
            s.pc == Poll && !WakePending(s) && s.q.delayed == multiset{} ==> s.wait.timeout < 0
  {
    EveryGetIsForever(states, labels, b, n);
    if n < |labels| {
      var s, l := StepAt(states, labels, n);
      ForeverGoesOn(s, l);
    }
    RunIsOk(states, labels, n);
    UnboundedPoll(states[n]);
  }

  lemma ForeverGoesOn(s: State, l: Label)
    requires Enabled(s, l) && s.get.cms == FOREVER && s.get.cmsWait == FOREVER
    ensures l == InGet(Return) || l == InGet(Next) ==> Apply(s, l).pc == Top
  {
  }

  lemma {:induction false} EveryGetIsForever(states: seq<State>, labels: seq<Label>, b: nat, n: nat)
    requires IsWholeRun(states, labels) && OneCall(labels, b, n) && labels[b] == InGet(Start(FOREVER))
    ensures states[n].get.cms == FOREVER && states[n].get.cmsWait == FOREVER
    decreases n
  {
    var s, l := StepAt(states, labels, n - 1);
    if b < n - 1 {
      EveryGetIsForever(states, labels, b, n - 1);
      CallStays(s, l);
    }
  }

  lemma UnboundedPoll(s: State)
    requires ProtocolOk(s) && s.get.cmsWait == FOREVER
    ensures s.pc == Poll && !WakePending(s) && s.q.delayed == multiset{} ==> s.wait.timeout < 0
  {
    if s.pc == Poll && !WakePending(s) && s.q.delayed == multiset{} {
      assert Listening(s) && !s.marks.sinceRead && !s.marks.sinceDrain;
    }
  }

  // ----- readings of the clock -----

  /** Steps at which Get reads the clock. */
  predicate Reads(l: Label) {
    EntersGet(l) || l == InGet(Return)
  }

  lemma ReadingStays(s: State, l: Label)
    requires Enabled(s, l) && !Reads(l)
    ensures Apply(s, l).get.msCurrent == s.get.msCurrent
  {
    if !l.InGet? {
      GetVarsStay(s, l);
    }
  }

  lemma {:induction false} ReadingLasts(states: seq<State>, labels: seq<Label>, k: nat, n: nat)
    requires IsRun(states, labels) && k <= n <= |labels| && forall j :: k <= j < n ==> !Reads(labels[j])
    ensures states[n].get.msCurrent == states[k].get.msCurrent
    decreases n - k
  {
    if k < n {
      var s, l := StepAt(states, labels, k);
      ReadingStays(s, l);
      ReadingLasts(states, labels, k + 1, n);
    }
  }

  /** What the loop takes for the time is the clock when it last came to the head of Get's loop. */
  lemma ReadingIsTheClock(states: seq<State>, labels: seq<Label>, r: nat, n: nat)
    requires IsRun(states, labels) && r < n <= |labels| && Reads(labels[r]) && states[r + 1].pc != Out
    requires forall j :: r < j < n ==> !Reads(labels[j])
    ensures states[n].get.msCurrent == Clock(states, r)
  {
    var s, l := StepAt(states, labels, r);
    ReadingLasts(states, labels, r + 1, n);
  }

  /** A drain takes exactly those pending timers that had come due when the loop last read the clock. */
  lemma DrainTakesWhatWasDue(states: seq<State>, labels: seq<Label>, r: nat, n: nat, m: DelayedMessage)
    requires IsWholeRun(states, labels) && r < n < |labels| && Reads(labels[r]) && states[r + 1].pc != Out
    requires forall j :: r < j < n ==> !Reads(labels[j])
    requires labels[n].InGet? && labels[n].gs.Drain? && m in states[n].q.delayed
    ensures m in labels[n].gs.due <==> m.runTimeMs <= Clock(states, r)
    ensures m.functor in states[n + 1].q.messages <==> m.runTimeMs <= Clock(states, r)
    ensures m in states[n + 1].q.delayed <==> Clock(states, r) < m.runTimeMs
  {
    ReadingIsTheClock(states, labels, r, n);
    RunIsOk(states, labels, n);
    RunIsOk(states, labels, n + 1);
    var s, l := StepAt(states, labels, n);
    DueComesFromHeap(s.q.delayed, s.get.msCurrent, l.gs.due, l.gs.rest, m);
    DueOnlyIfDue(s.q.delayed, s.get.msCurrent, l.gs.due, l.gs.rest, m);
    if m in l.gs.due {
      DueIsQueued(s.q.messages, l.gs.due, m);
    } else if m.functor in states[n + 1].q.messages {
      var y := QueuedIsPushed(states[n + 1], m.functor);
    }
  }

  lemma DueOnlyIfDue(heap: multiset<DelayedMessage>, now: int, due: seq<DelayedMessage>,
                     rest: multiset<DelayedMessage>, m: DelayedMessage)
    requires IsDrain(heap, now, due, rest) && m in heap && heap[m] == 1
    ensures m in due <==> m.runTimeMs <= now
    ensures m in rest <==> now < m.runTimeMs
  {
    assert m in multiset(due) <==> m in due;
    assert m in due || m in rest;
  }

  lemma DueIsQueued(messages: seq<Task>, due: seq<DelayedMessage>, m: DelayedMessage)
    requires m in due
    ensures m.functor in messages + Functors(due)
  {
    var k :| 0 <= k < |due| && due[k] == m;
    assert (messages + Functors(due))[|messages| + k] == m.functor;
  }

  // ----- within a wait -----

  /** After e and before n the loop does not enter Wait. */
  ghost predicate OneWait(labels: seq<Label>, e: nat, n: nat) {
    e < n <= |labels| && forall j :: e < j < n ==> labels[j] != InWait(EnterWait)
  }

  predicate InWaitCall(pc: LoopPc) {
    pc.Raise? || InEpoll(pc)
  }

  lemma StopStays(s: State, l: Label)
    requires Enabled(s, l) && l != InWait(EnterWait) && InWaitCall(Apply(s, l).pc)
    ensures InWaitCall(s.pc)
    ensures Apply(s, l).wait.waitArg == s.wait.waitArg && Apply(s, l).wait.msStop == s.wait.msStop
  {
    match l
    case ByThread(p, ps) => PostersLeaveBudget(s, p, ps);
    case InGet(gs) => GetLeavesWait(s, gs);
    case InWait(ws) => WaitKeepsStop(s, ws);
    case InOnEvent(es) =>
    case Tick(ns) =>
    case SetStop(v) =>
  }

  lemma GetLeavesWait(s: State, gs: GetStep)
    requires GetEnabled(s, gs)
    ensures !InWaitCall(GetApply(s, gs).pc)
  {
  }

  lemma WaitKeepsStop(s: State, ws: WaitStep)
    requires WaitEnabled(s, ws) && ws != EnterWait
    ensures InWaitCall(s.pc) && WaitApply(s, ws).wait.waitArg == s.wait.waitArg
    ensures WaitApply(s, ws).wait.msStop == s.wait.msStop
  {
  }

  lemma {:induction false} StopLasts(states: seq<State>, labels: seq<Label>, e: nat, n: nat)
    requires IsRun(states, labels) && OneWait(labels, e, n) && labels[e] == InWait(EnterWait)
    requires InWaitCall(states[n].pc)
    ensures states[n].wait.waitArg == states[e + 1].wait.waitArg && states[n].wait.msStop == states[e + 1].wait.msStop
    decreases n
  {
    if e + 1 < n {
      var s, l := StepAt(states, labels, n - 1);
      StopStays(s, l);
      StopLasts(states, labels, e, n - 1);
    }
  }

  /**
   A round of a wait that was entered at e with a timeout: the wait is over exactly if the clock at e in milliseconds
   plus the timeout, less the clock now in microseconds, is not positive; else the next poll waits for that much.
   Without a timeout it goes on. The timeout is the int conversion of what Get chose.
   */
  lemma RoundKeepsToTheTimeout(states: seq<State>, labels: seq<Label>, e: nat, n: nat)
    requires IsRun(states, labels) && OneWait(labels, e, n) && n < |labels|
    requires labels[e] == InWait(EnterWait) && labels[n] == InWait(Recompute)
    ensures var arg := ToInt32(states[e].wait.cmsNext);
            var left := Clock(states, e) + arg - Micros(states[n].now);
            && (states[n + 1].pc == Woke <==> arg != FOREVER && left <= 0)
            && (states[n + 1].pc != Woke ==> states[n + 1].pc == LoopTest)
            && (arg != FOREVER && 0 < left ==> states[n + 1].wait.msWait == left)
  {
    var s0, _ := StepAt(states, labels, e);
    var s, l := StepAt(states, labels, n);
    StopLasts(states, labels, e, n);
  }

  /** What Get chose is the limit of the timers and of its budget, from its last reading of the clock. */
  lemma TimeoutIsChosen(states: seq<State>, labels: seq<Label>, n: nat)
    requires IsWholeRun(states, labels) && n < |labels| && labels[n] == InWait(EnterWait)
    ensures var s := states[n];
            s.wait.cmsNext == WaitTimeout(s.get.cmsWait, s.get.msCurrent - s.get.msStart, s.get.gap)
  {
    RunIsOk(states, labels, n);
    var s, l := StepAt(states, labels, n);
  }

  /** A poll that times out has lasted its timeout. */
  lemma PollLastsItsTimeout(states: seq<State>, labels: seq<Label>, p: nat, n: nat)
    requires IsRun(states, labels) && p < n < |labels|
    requires labels[p] == InWait(TestFlag) && states[p].flagWait && labels[n] == InWait(PollTimeout)
    requires forall j :: p < j < n ==> !(labels[j].InWait? || labels[j].InGet? || labels[j].InOnEvent?)
    ensures 0 <= ToInt32(states[p].wait.msWait) && Clock(states, p) + ToInt32(states[p].wait.msWait) <= Clock(states, n)
  {
    var s0, _ := StepAt(states, labels, p);
    OthersLeaveWait(states, labels, p + 1, n);
    var s, l := StepAt(states, labels, n);
  }

  lemma {:induction false} OthersLeaveWait(states: seq<State>, labels: seq<Label>, k: nat, n: nat)
    requires IsRun(states, labels) && k <= n <= |labels|
    requires forall j :: k <= j < n ==> !(labels[j].InWait? || labels[j].InGet? || labels[j].InOnEvent?)
    ensures states[n].wait == states[k].wait && states[n].pc == states[k].pc
    decreases n - k
  {
    if k < n {
      var s, l := StepAt(states, labels, k);
      if l.ByThread? {
        assert PosterApply(s, l.p, l.ps).pc == s.pc && PosterApply(s, l.p, l.ps).wait == s.wait;
      }
      OthersLeaveWait(states, labels, k + 1, n);
    }
  }
}
