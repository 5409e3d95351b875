/** What stays queued when ProcessMessages returns in other ways than by its IsQuitting test, and after any return. */
module LoopExits {
  import opened DelayedMessages
  import opened TaskQueues
  import opened LoopModel
  import opened WakeupProtocol
  import opened TimerProtocol
  import opened LoopHistory
  import opened LoopOrder
  import opened LoopRuns
  import opened LoopDrain
  import opened LoopProgress

  // ----- any return -----

  /**
   However ProcessMessages returned, be it for quitting, because time ran out, or because epoll_wait failed: the task
   that stood at place z of the queue at an earlier moment k has been dispatched if and only if more tasks were
   dispatched since than stood before it, and is still queued otherwise. Nothing is lost at a return.
   */
  lemma ReturnLeavesTheRest(states: seq<State>, labels: seq<Label>, k: nat, n: nat, z: nat)
    requires IsWholeRun(states, labels) && k <= n < |states| && states[n].pc == Out
    requires z < |states[k].q.messages|
    ensures var t, s, s' := states[k].q.messages[z], states[k], states[n];
            && (t in s'.log.dispatched <==> |s'.log.dispatched| - |s.log.dispatched| > |Hand(s.pc)| + z)
            && (t in s'.q.messages <==> t !in s'.log.dispatched)
  {
    RunIsOk(states, labels, k);
    RunIsOk(states, labels, n);
    var y := PlaceInPushOrder(states[k], z);
    PushedStays(states, labels, k, n);
    PlaceTells(states[n], y);
  }

  /** Outside ProcessMessages the y-th task pushed is dispatched if y tells so, and queued otherwise. */
  lemma PlaceTells(s: State, y: nat)
    requires Conserved(s) && UniqueOk(s) && s.pc == Out && y < |s.log.pushed|
    ensures var t := ItemTask(s.log.pushed[y]);
            && (t in s.log.dispatched <==> y < |s.log.dispatched|)
            && (t in s.q.messages <==> t !in s.log.dispatched)
  {
    var t, d := ItemTask(s.log.pushed[y]), |s.log.dispatched|;
    assert Erase(s.log.pushed) == s.log.dispatched + s.q.messages;
    assert Erase(s.log.pushed)[y] == t;
    if y < d {
      assert s.log.dispatched[y] == t;
    } else {
      assert s.q.messages[y - d] == t;
    }
    OnlyOnce(s, y);
  }

  lemma OnlyOnce(s: State, y: nat)
    requires Conserved(s) && UniqueOk(s) && s.pc == Out && y < |s.log.pushed|
    ensures ItemTask(s.log.pushed[y]) in s.log.dispatched ==> y < |s.log.dispatched|
    ensures ItemTask(s.log.pushed[y]) in s.q.messages ==> |s.log.dispatched| <= y
  {
    var t := ItemTask(s.log.pushed[y]);
    if t in s.log.dispatched {
      var x :| 0 <= x < |s.log.dispatched| && s.log.dispatched[x] == t;
      DispatchedIsPushed(s, x);
      assert x == y;
    }
    if t in s.q.messages {
      var x := QueuedIsPushed(s, t);
      assert x == y;
    }
  }

  // ----- a return out of a wait -----

  /** From the release of the mutex to the return of Wait. */
  predicate Waiting(pc: LoopPc) {
    AfterRelease(pc) || pc == Woke
  }

  /** Steps by which the loop comes out of a wait. */
  predicate LeavesWait(l: Label) {
    l == InGet(Return) || l == InWait(PollFailed)
  }

  /** Between k and n the loop comes out of no wait, and does not return. */
  ghost predicate SameWait(states: seq<State>, labels: seq<Label>, k: nat, n: nat) {
    && n <= |labels| < |states|
    && forall j :: k <= j < n ==> !LeavesWait(labels[j]) && (states[j].pc != Out ==> states[j + 1].pc != Out)
  }

  /** The first n pushes are dispatched by the time the loop waits. */
  ghost predicate Collects(s: State, n: nat) {
    n <= |s.log.pushed| && (Waiting(s.pc) ==> n <= |s.log.dispatched|)
  }

  lemma CollectsKept(s: State, l: Label, n: nat)
    requires Collects(s, n) && Conserved(s) && Enabled(s, l)
    ensures Collects(Apply(s, l), n)
  {
    if l.InGet? {
      CollectsKeptByGet(s, l.gs, n);
    } else {
      OthersStayOutside(s, l);
    }
  }

  lemma CollectsKeptByGet(s: State, gs: GetStep, n: nat)
    requires Collects(s, n) && Conserved(s) && GetEnabled(s, gs)
    ensures Collects(GetApply(s, gs), n)
  {
    if s.pc == Drained && gs.Release? {
      ReleasesEmpty(s);
    }
  }

  lemma ReleasesEmpty(s: State)
    requires Conserved(s) && s.pc == Drained && s.q.messages == []
    ensures |s.log.pushed| == |s.log.dispatched|
  {
    assert |Erase(s.log.pushed)| == |s.log.dispatched|;
  }

  /** Only Get itself starts to wait, or dispatches. */
  lemma OthersStayOutside(s: State, l: Label)
    requires Enabled(s, l) && !l.InGet?
    ensures Waiting(Apply(s, l).pc) ==> Waiting(s.pc)
    ensures Apply(s, l).log.dispatched == s.log.dispatched && |s.log.pushed| <= |Apply(s, l).log.pushed|
  {
    if l.ByThread? {
      assert PosterApply(s, l.p, l.ps).pc == s.pc;
    }
    if !(l.ByThread? && l.ps.Push?) {
      QuietStep(s, l);
    }
  }

  lemma {:induction false} CollectsFrom(states: seq<State>, labels: seq<Label>, k: nat, n: nat, pushes: nat)
    requires IsWholeRun(states, labels) && k <= n < |states| && Collects(states[k], pushes)
    ensures Collects(states[n], pushes)
    decreases n - k
  {
    if k < n {
      CollectsStep(states, labels, k, pushes);
      CollectsFrom(states, labels, k + 1, n, pushes);
    }
  }

  lemma CollectsStep(states: seq<State>, labels: seq<Label>, n: nat, pushes: nat)
    requires IsWholeRun(states, labels) && n < |labels| && Collects(states[n], pushes)
    ensures Collects(states[n + 1], pushes)
  {
    ConservedAt(states, labels, n);
    var s, l := StepAt(states, labels, n);
    CollectsKept(s, l, pushes);
  }

  lemma ConservedAt(states: seq<State>, labels: seq<Label>, n: nat)
    requires IsWholeRun(states, labels) && n < |states|
    ensures Conserved(states[n])
  {
    RunIsOk(states, labels, n);
  }

  /** A loop that stays in its wait dispatches nothing. */
  ghost predicate Waits(s: State, s': State) {
    Waiting(s.pc) && Waiting(s'.pc) && s'.log.dispatched == s.log.dispatched
  }

  lemma WaitsOn(s: State, l: Label)
    requires Waiting(s.pc) && Enabled(s, l) && !LeavesWait(l) && Apply(s, l).pc != Out
    ensures Waits(s, Apply(s, l))
  {
    if l.InGet? {
      GetWaitsOn(s, l.gs);
    } else {
      OthersStayOutside(s, l);
      OthersWaitOn(s, l);
    }
  }

  lemma GetWaitsOn(s: State, gs: GetStep)
    requires Waiting(s.pc) && GetEnabled(s, gs) && gs != Return && GetApply(s, gs).pc != Out
    ensures Waits(s, GetApply(s, gs))
  {
  }

  lemma OthersWaitOn(s: State, l: Label)
    requires Waiting(s.pc) && Enabled(s, l) && !l.InGet? && l != InWait(PollFailed)
    ensures Waiting(Apply(s, l).pc)
  {
    if l.ByThread? {
      PostersStayAway(s, l.p, l.ps);
    }
  }

  lemma {:induction false} WaitsThrough(states: seq<State>, labels: seq<Label>, k: nat, n: nat)
    requires IsRun(states, labels) && k <= n < |states| && Waiting(states[k].pc)
    requires SameWait(states, labels, k, n)
    ensures Waits(states[k], states[n])
    decreases n - k
  {
    if k < n {
      WaitsOnAt(states, labels, k, n);
      WaitsThrough(states, labels, k + 1, n);
    }
  }

  lemma WaitsOnAt(states: seq<State>, labels: seq<Label>, k: nat, n: nat)
    requires IsRun(states, labels) && k < n < |states| && Waiting(states[k].pc)
    requires SameWait(states, labels, k, n)
    ensures Waits(states[k], states[k + 1]) && SameWait(states, labels, k + 1, n)
  {
    var s, l := StepAt(states, labels, k);
    WaitsOn(s, l);
  }

  /**
   A loop that comes out of a wait to return, because time ran out in it or because epoll_wait failed: what was queued
   at an earlier moment k since the wait before has been dispatched if and only if the loop had not yet released its
   mutex to wait at k.
   */
  lemma WaitReturnDispatchesQueuedIff(states: seq<State>, labels: seq<Label>, k: nat, n: nat, t: Task)
    requires IsWholeRun(states, labels) && k <= n < |labels|
    requires LeavesWait(labels[n]) && states[n + 1].pc == Out
    requires SameWait(states, labels, k, n)
    requires t in states[k].q.messages
    ensures t in states[n + 1].log.dispatched <==> !Waiting(states[k].pc)
  {
    var s, l := StepAt(states, labels, n);
    RunIsOk(states, labels, k);
    RunIsOk(states, labels, n);
    ReturnDispatchesNothing(s, l);
    if Waiting(states[k].pc) {
      WaitsThrough(states, labels, k, n);
      QueuedIsNotDispatched(states[k], t);
    } else {
      var y := QueuedIsPushed(states[k], t);
      CollectsFrom(states, labels, k, n, |states[k].log.pushed|);
      PushedStays(states, labels, k, n);
      DispatchedIsPushed(s, y);
    }
  }

  lemma ReturnDispatchesNothing(s: State, l: Label)
    requires Enabled(s, l) && LeavesWait(l)
    ensures Waiting(s.pc) && Apply(s, l).log == s.log
  {
  }

  /**
   There are four ways to return, each under its condition, and none dispatches anything: the IsQuitting test, a task
   or a wait after which time is up, and a failed epoll_wait. LoopBudget says what the two conditions on time come to.
   */
  lemma ReturnsFourWays(s: State, l: Label)
    requires s.pc != Out && Enabled(s, l)
    ensures Apply(s, l).pc == Out <==>
              || (l == InGet(TestQuit) && s.stop)
              || (l == InGet(Next) && s.get.cms != FOREVER && ToInt32(s.get.msEnd - Millis(s.now)) < 0)
              || (l == InGet(Return) && s.get.cmsWait != FOREVER && s.get.msStart + s.get.cmsWait <= Millis(s.now))
              || l == InWait(PollFailed)
    ensures Apply(s, l).pc == Out ==> Apply(s, l).log == s.log && Apply(s, l).q == s.q
  {
    OnlyTheLoopReturns(s, l);
    if l.InGet? {
      GetReturns(s, l.gs);
    }
  }

  lemma OnlyTheLoopReturns(s: State, l: Label)
    requires s.pc != Out && Enabled(s, l)
    ensures Apply(s, l).pc == Out ==> l.InGet? || l == InWait(PollFailed)
  {
    if l.ByThread? {
      PostersStayAway(s, l.p, l.ps);
    }
  }

  lemma GetReturns(s: State, gs: GetStep)
    requires s.pc != Out && GetEnabled(s, gs)
    ensures GetApply(s, gs).pc == Out <==>
              || (gs == TestQuit && s.stop)
              || (gs == Next && s.get.cms != FOREVER && ToInt32(s.get.msEnd - Millis(s.now)) < 0)
              || (gs == Return && s.get.cmsWait != FOREVER && s.get.msStart + s.get.cmsWait <= Millis(s.now))
    ensures GetApply(s, gs).pc == Out ==> GetApply(s, gs).log == s.log && GetApply(s, gs).q == s.q
  {
  }

  /**
   The wait ends well in three ways: its test finds the flag down, epoll_wait reports nothing in time, or time is up
   after a round. Events that are not the wake-up, and signals that interrupt the poll, leave it waiting.
   */
  lemma WaitEndsThreeWays(s: State, l: Label)
    requires s.pc != Woke && Enabled(s, l)
    ensures Apply(s, l).pc == Woke <==>
              || (l == InWait(TestFlag) && !s.flagWait)
              || l == InWait(PollTimeout)
              || (l == InWait(Recompute) && s.wait.waitArg != FOREVER && s.wait.msStop <= Micros(s.now))
  {
    if l.ByThread? {
      PostersStayAway(s, l.p, l.ps);
    } else if l.InGet? {
      GetNeverWakes(s, l.gs);
    }
  }

  lemma GetNeverWakes(s: State, gs: GetStep)
    requires GetEnabled(s, gs)
    ensures GetApply(s, gs).pc != Woke
  {
  }
}
