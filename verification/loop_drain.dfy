/** What Get still dispatches before it breaks for Quit, and exactly what it does not. */
module LoopDrain {
  import opened DelayedMessages
  import opened TaskQueues
  import opened LoopModel
  import opened WakeupProtocol
  import opened TimerProtocol
  import opened LoopHistory
  import opened LoopOrder
  import opened LoopRuns

  lemma StepAt(states: seq<State>, labels: seq<Label>, n: nat) returns (s: State, l: Label)
    requires IsRun(states, labels) && n < |labels|
    ensures s == states[n] && l == labels[n] && Enabled(s, l) && states[n + 1] == Apply(s, l)
  {
    s, l := states[n], labels[n];
  }

  // ----- what the last drain saw -----

  /** Whoever is past the drain, still inside Get and before its IsQuitting test, has drained the first n pushes. */
  ghost predicate Covers(s: State, n: nat) {
    n <= |s.log.pushed| && (s.pc.Drained? || s.pc.Released? ==> n <= s.marks.drained)
  }

  lemma CoversKept(s: State, l: Label, n: nat)
    requires Covers(s, n) && Enabled(s, l)
    ensures Covers(Apply(s, l), n)
  {
    if l.InGet? {
      CoversKeptByGet(s, l.gs, n);
    } else if !(l.ByThread? && l.ps.Push?) {
      QuietStep(s, l);
    }
  }

  lemma CoversKeptByGet(s: State, gs: GetStep, n: nat)
    requires Covers(s, n) && GetEnabled(s, gs)
    ensures Covers(GetApply(s, gs), n)
  {
  }

  lemma {:induction false} CoversFrom(states: seq<State>, labels: seq<Label>, k: nat, n: nat, pushes: nat)
    requires IsRun(states, labels) && k <= n < |states| && Covers(states[k], pushes)
    ensures Covers(states[n], pushes)
    decreases n
  {
    if k < n {
      CoversFrom(states, labels, k, n - 1, pushes);
      CoversKept(states[n - 1], labels[n - 1], pushes);
    }
  }

  /** After the last drain only immediate tasks were pushed. */
  ghost predicate LateItemsOk(s: State) {
    forall x :: s.marks.drained <= x < |s.log.pushed| ==> s.log.pushed[x].Immediate?
  }

  lemma LateItemsKept(s: State, l: Label)
    requires LateItemsOk(s) && Enabled(s, l)
    ensures LateItemsOk(Apply(s, l))
  {
    if !l.InGet? && !(l.ByThread? && l.ps.Push?) {
      QuietStep(s, l);
    }
  }

  lemma {:induction false} LateItemsInRun(states: seq<State>, labels: seq<Label>, n: nat)
    requires IsWholeRun(states, labels) && n < |states|
    ensures LateItemsOk(states[n])
    decreases n
  {
    if n > 0 {
      LateItemsInRun(states, labels, n - 1);
      LateItemsKept(states[n - 1], labels[n - 1]);
    }
  }

  // ----- a loop between its release of the mutex and its test -----

  /** The loop does not come to its IsQuitting test between k and n. */
  ghost predicate NoTest(labels: seq<Label>, k: nat, n: nat) {
    n <= |labels| && forall j :: k <= j < n ==> labels[j] != InGet(TestQuit)
  }

  /** The loop stands at its test in both, and took neither task nor timer in between. */
  ghost predicate Stands(s: State, s': State) {
    s.pc == Released && s'.pc == Released && s'.log.dispatched == s.log.dispatched && s.q.delayed <= s'.q.delayed
  }

  lemma StandsTwice(s: State, s1: State, s2: State)
    requires Stands(s, s1) && Stands(s1, s2)
    ensures Stands(s, s2)
  {
  }

  /** While the loop stands at its IsQuitting test it dispatches nothing and takes no timer. */
  lemma {:induction false} StandsAtTest(states: seq<State>, labels: seq<Label>, k: nat, n: nat)
    requires IsRun(states, labels) && k <= n < |states| && states[k].pc == Released
    requires NoTest(labels, k, n)
    ensures Stands(states[k], states[n])
    decreases n - k
  {
    if k < n {
      StandsAtTestStep(states, labels, k);
      StandsAtTest(states, labels, k + 1, n);
      StandsTwice(states[k], states[k + 1], states[n]);
    }
  }

  lemma StandsAtTestStep(states: seq<State>, labels: seq<Label>, n: nat)
    requires IsRun(states, labels) && n < |labels| && states[n].pc == Released && labels[n] != InGet(TestQuit)
    ensures Stands(states[n], states[n + 1])
  {
    var s, l := StepAt(states, labels, n);
    OnlyPostsAtTest(s, l);
  }

  lemma OnlyPostsAtTest(s: State, l: Label)
    requires s.pc == Released && Enabled(s, l) && l != InGet(TestQuit)
    ensures var s' := Apply(s, l);
            s'.pc == Released && s'.log.dispatched == s.log.dispatched && s.q.delayed <= s'.q.delayed
  {
    if !(l.ByThread? && l.ps.Push?) {
      QuietStep(s, l);
    }
  }

  // ----- queued tasks -----

  /**
   A loop that breaks for quitting: what was queued at an earlier moment k, say when stop_ was set, has been dispatched
   if and only if the loop was not, at k, between releasing the mutex and this very test. Posts that had returned long
   before Quit are no better off than others.
   */
  lemma QuitDispatchesQueuedIff(states: seq<State>, labels: seq<Label>, k: nat, n: nat, t: Task)
    requires IsWholeRun(states, labels) && k <= n < |labels|
    requires labels[n] == InGet(TestQuit) && states[n].stop
    requires NoTest(labels, k, n)
    requires t in states[k].q.messages
    ensures states[n + 1].pc == Out
    ensures t in states[n + 1].log.dispatched <==> states[k].pc != Released
  {
    RunIsOk(states, labels, k);
    RunIsOk(states, labels, n);
    assert Enabled(states[n], labels[n]);
    var y := QueuedIsPushed(states[k], t);
    if states[k].pc == Released {
      StandsAtTest(states, labels, k, n);
      QueuedIsNotDispatched(states[k], t);
    } else {
      CoversFrom(states, labels, k, n, |states[k].log.pushed|);
      PushedStays(states, labels, k, n);
      DispatchedIsPushed(states[n], y);
    }
  }

  lemma QueuedIsPushed(s: State, t: Task) returns (y: nat)
    requires Conserved(s) && t in s.q.messages
    ensures |s.log.dispatched| <= y < |s.log.pushed| && ItemTask(s.log.pushed[y]) == t
  {
    var z :| 0 <= z < |s.q.messages| && s.q.messages[z] == t;
    y := |s.log.dispatched + Hand(s.pc)| + z;
    assert (s.log.dispatched + Hand(s.pc) + s.q.messages)[y] == t;
    assert Erase(s.log.pushed)[y] == t;
  }

  lemma QueuedIsNotDispatched(s: State, t: Task)
    requires Conserved(s) && UniqueOk(s) && t in s.q.messages
    ensures t !in s.log.dispatched
  {
    var y := QueuedIsPushed(s, t);
    forall x | 0 <= x < |s.log.dispatched|
      ensures s.log.dispatched[x] != t
    {
      DispatchedIsPushed(s, x);
    }
  }

  lemma {:induction false} PushedStays(states: seq<State>, labels: seq<Label>, k: nat, n: nat)
    requires IsRun(states, labels) && k <= n < |states|
    ensures states[k].log.pushed <= states[n].log.pushed
    decreases n - k
  {
    if k < n {
      PushedGrows(states, labels, k);
      PushedStays(states, labels, k + 1, n);
    }
  }

  lemma PushedGrows(states: seq<State>, labels: seq<Label>, n: nat)
    requires IsRun(states, labels) && n < |labels|
    ensures states[n].log.pushed <= states[n + 1].log.pushed
  {
    var s, l := StepAt(states, labels, n);
    if !(l.InGet? && l.gs.Drain?) {
      OtherStepsPush(s, l);
    }
  }

  // ----- timers -----

  /** A timer followed through a run: pending, or out and due by the loop's clock; drained if it was due. */
  ghost predicate Follows(s: State, m: DelayedMessage) {
    && (m in s.q.delayed || (Timed(m) in s.log.pushed && m.runTimeMs <= s.get.msCurrent))
    && ((s.pc.Drained? || s.pc.Released?) && m in s.q.delayed ==> s.get.msCurrent < m.runTimeMs)
  }

  lemma FollowsKept(s: State, l: Label, m: DelayedMessage)
    requires Follows(s, m) && s.get.msCurrent <= Millis(s.now) && Enabled(s, l) && UniqueOk(Apply(s, l))
    ensures Follows(Apply(s, l), m)
  {
    if l.InGet? && l.gs.Drain? {
      FollowsThroughDrain(s, l.gs.due, l.gs.rest, l.gs.gap, m);
    } else if l.InGet? {
      FollowsThroughGet(s, l.gs, m);
    } else if l.ByThread? && l.ps.Push? {
      FollowsThroughPush(s, l.p, m);
    } else {
      QuietStep(s, l);
      GetVarsStay(s, l);
    }
  }

  lemma FollowsThroughGet(s: State, gs: GetStep, m: DelayedMessage)
    requires Follows(s, m) && s.get.msCurrent <= Millis(s.now) && GetEnabled(s, gs) && !gs.Drain?
    ensures Follows(GetApply(s, gs), m)
  {
    var s' := GetApply(s, gs);
    assert s'.q.delayed == s.q.delayed && s'.log.pushed == s.log.pushed && s.get.msCurrent <= s'.get.msCurrent;
  }

  lemma GetVarsStay(s: State, l: Label)
    requires Enabled(s, l) && !l.InGet?
    ensures Apply(s, l).get == s.get
    ensures Apply(s, l).pc.Drained? || Apply(s, l).pc.Released? ==> Apply(s, l).pc == s.pc
  {
    if l.InWait? {
      WaitFrame(s, l.ws);
    } else if l.ByThread? {
      assert PosterApply(s, l.p, l.ps).get == s.get && PosterApply(s, l.p, l.ps).pc == s.pc;
    }
  }

  lemma FollowsThroughDrain(s: State, due: seq<DelayedMessage>, rest: multiset<DelayedMessage>, gap: int,
                            m: DelayedMessage)
    requires Follows(s, m) && GetEnabled(s, Drain(due, rest, gap))
    ensures Follows(GetApply(s, Drain(due, rest, gap)), m)
  {
    if m in s.q.delayed {
      DueComesFromHeap(s.q.delayed, s.get.msCurrent, due, rest, m);
    }
    DrainPushes(s.log.pushed, due, m);
    assert m in due || m in rest || Timed(m) in s.log.pushed;
  }

  lemma FollowsThroughPush(s: State, p: nat, m: DelayedMessage)
    requires Follows(s, m) && PosterEnabled(s, p, Push) && UniqueOk(PosterApply(s, p, Push))
    ensures Follows(PosterApply(s, p, Push), m)
  {
    var s' := PosterApply(s, p, Push);
    assert s'.get == s.get && s'.pc == s.pc && s.q.delayed <= s'.q.delayed && s.log.pushed <= s'.log.pushed;
    if m !in s.q.delayed {
      assert Timed(m) in s'.log.pushed;
      OutIsNotPending(s', m);
    }
  }

  lemma OutIsNotPending(s: State, m: DelayedMessage)
    requires UniqueOk(s) && Timed(m) in s.log.pushed
    ensures m !in s.q.delayed
  {
    var x :| 0 <= x < |s.log.pushed| && s.log.pushed[x] == Timed(m);
    assert ItemTask(s.log.pushed[x]) == m.functor;
  }

  lemma {:induction false} FollowsFrom(states: seq<State>, labels: seq<Label>, k: nat, n: nat, m: DelayedMessage)
    requires IsWholeRun(states, labels) && k <= n < |states| && Follows(states[k], m)
    ensures Follows(states[n], m)
    decreases n
  {
    if k < n {
      FollowsFrom(states, labels, k, n - 1, m);
      FollowsStep(states, labels, n - 1, m);
    }
  }

  lemma FollowsStep(states: seq<State>, labels: seq<Label>, n: nat, m: DelayedMessage)
    requires IsWholeRun(states, labels) && n < |labels| && Follows(states[n], m)
    ensures Follows(states[n + 1], m)
  {
    var s, l := StepOfRun(states, labels, n);
    FollowsKept(s, l, m);
  }

  lemma StepOfRun(states: seq<State>, labels: seq<Label>, n: nat) returns (s: State, l: Label)
    requires IsWholeRun(states, labels) && n < |labels|
    ensures s == states[n] && l == labels[n] && Enabled(s, l) && states[n + 1] == Apply(s, l)
    ensures s.get.msCurrent <= Millis(s.now) && UniqueOk(Apply(s, l))
  {
    s, l := states[n], labels[n];
    RunIsOk(states, labels, n);
    RunIsOk(states, labels, n + 1);
  }

  /** Before its test, the loop has dispatched exactly those timers that are no longer pending. */
  lemma DispatchedIffOut(s: State, m: DelayedMessage)
    requires LoopOk(s) && LateItemsOk(s) && s.pc == Released
    requires m in s.q.delayed || Timed(m) in s.log.pushed
    ensures m.functor in s.log.dispatched <==> m !in s.q.delayed
  {
    if Timed(m) in s.log.pushed {
      OutIsNotPending(s, m);
      var x :| 0 <= x < |s.log.pushed| && s.log.pushed[x] == Timed(m);
      assert x < s.marks.drained;
      DispatchedIsPushed(s, x);
    } else {
      forall x | 0 <= x < |s.log.dispatched|
        ensures s.log.dispatched[x] != m.functor
      {
        DispatchedIsPushed(s, x);
      }
    }
  }

  /**
   A loop that breaks for quitting: a timer that was pending at an earlier moment k has been dispatched if and only if
   the loop was not between releasing the mutex and this test at k, and the timer is due by the loop's last reading of
   the clock, whatever was posted in between.
   */
  lemma QuitDispatchesDueTimersIff(states: seq<State>, labels: seq<Label>, k: nat, n: nat, m: DelayedMessage)
    requires IsWholeRun(states, labels) && k <= n < |labels|
    requires labels[n] == InGet(TestQuit) && states[n].stop
    requires NoTest(labels, k, n)
    requires m in states[k].q.delayed
    ensures states[n + 1].pc == Out
    ensures m.functor in states[n + 1].log.dispatched <==>
              states[k].pc != Released && m.runTimeMs <= states[n].get.msCurrent
  {
    RunIsOk(states, labels, k);
    RunIsOk(states, labels, n);
    LateItemsInRun(states, labels, n);
    assert Enabled(states[n], labels[n]);
    if states[k].pc == Released {
      StandsAtTest(states, labels, k, n);
      DispatchedIffOut(states[n], m);
    } else {
      PendingAtDrained(states[k], m);
      FollowsFrom(states, labels, k, n, m);
      DispatchedIffOut(states[n], m);
    }
  }

  /** What a drain leaves pending is not due. */
  lemma PendingAtDrained(s: State, m: DelayedMessage)
    requires LoopOk(s) && s.pc != Released && m in s.q.delayed
    ensures Follows(s, m)
  {
  }
}
