/** Progress: whatever is queued is dispatched within a bounded number of the loop's steps, unless the loop ends. */
module LoopProgress {
  import opened DelayedMessages
  import opened TaskQueues
  import opened LoopModel
  import opened WakeupProtocol
  import opened TimerProtocol
  import opened LoopHistory
  import opened LoopOrder
  import opened LoopRuns
  import opened LoopQuit
  import opened LoopDrain
  import opened LoopEnd

  // ----- the distance to a task -----

  /** Steps of the loop to the next dispatch, if there is something to dispatch and each poll tells of the wake-up. */
  function Phase(pc: LoopPc, flagWait: bool): nat {
    match pc
    case Out => 0
    case Run(_) => 1
    case Popped(_) => 2
    case Drained => 3
    case Locked => 4
    case Top => 5
    case Ran => 6
    case Woke => 6
    case LoopTest => if flagWait then 15 else 7
    case Recalc => if flagWait then 16 else 8
    case SigLowered => 9
    case SigCleared => 10
    case SigRead => 11
    case SigOwned => 12
    case Batch(wake) => if wake then 13 else if flagWait then 17 else 9
    case Poll => 14
    case Raise => 16
    case Arm => 17
    case Released => 18
  }

  /** How far the loop is from dispatching the y-th task of the push order. */
  function Distance(s: State, y: nat): int {
    6 * (y - |s.log.dispatched|) + Phase(s.pc, s.flagWait)
  }

  /** A poll that brings nothing to the loop: it is interrupted, or tells only of other descriptors. */
  predicate IsIdle(l: Label) {
    l == InWait(PollInterrupted) || l == InWait(PollEvents(false))
  }

  /** What one step costs the loop; an idle poll is paid for with the round it starts. */
  function Cost(l: Label): int {
    (if IsLoopLabel(l) then 1 else 0) - (if IsIdle(l) then 4 else 0)
  }

  /** The y-th task is pushed and not dispatched, and the loop is running. */
  ghost predicate Due(s: State, y: nat) {
    |s.log.dispatched| <= y < |s.log.pushed| && s.pc != Out
  }

  lemma StepComesCloser(s: State, l: Label, y: nat)
    requires SignalerOk(s) && Conserved(s) && Enabled(s, l) && Due(s, y) && Apply(s, l).pc != Out
    ensures Cost(l) + Distance(Apply(s, l), y) <= Distance(s, y)
  {
    match l
    case InGet(gs) => GetComesCloser(s, gs, y);
    case InWait(ws) => WaitComesCloser(s, ws);
    case InOnEvent(es) => EventComesCloser(s, es);
    case ByThread(p, ps) => PostersStayAway(s, p, ps);
    case Tick(ns) =>
    case SetStop(v) =>
  }

  lemma GetComesCloser(s: State, gs: GetStep, y: nat)
    requires Conserved(s) && GetEnabled(s, gs) && Due(s, y) && GetApply(s, gs).pc != Out
    ensures 1 + Distance(GetApply(s, gs), y) <= Distance(s, y)
  {
    if s.pc == Drained {
      assert |Erase(s.log.pushed)| == |s.log.dispatched| + |s.q.messages|;
    }
  }

  lemma WaitComesCloser(s: State, ws: WaitStep)
    requires WaitEnabled(s, ws) && WaitApply(s, ws).pc != Out
    ensures var s' := WaitApply(s, ws);
            && s'.log.dispatched == s.log.dispatched
            && Cost(InWait(ws)) + Phase(s'.pc, s'.flagWait) <= Phase(s.pc, s.flagWait)
  {
  }

  lemma EventComesCloser(s: State, es: EventStep)
    requires WakeSeen(s) && EventEnabled(s, es)
    ensures var s' := EventApply(s, es);
            && s'.log.dispatched == s.log.dispatched && s'.pc != Out
            && 1 + Phase(s'.pc, s'.flagWait) <= Phase(s.pc, s.flagWait)
  {
  }

  lemma PostersStayAway(s: State, p: nat, ps: PosterStep)
    requires PosterEnabled(s, p, ps)
    ensures var s' := PosterApply(s, p, ps);
            s'.pc == s.pc && s'.flagWait == s.flagWait && s'.log.dispatched == s.log.dispatched
  {
  }

  // ----- runs -----

  /** Idle polls among the labels. */
  function IdlePolls(labels: seq<Label>): nat {
    if labels == [] then 0
    else IdlePolls(labels[..|labels| - 1]) + if IsIdle(labels[|labels| - 1]) then 1 else 0
  }

  /** The steps of the loop from k to n, less four for each poll that brought nothing. */
  function Effort(labels: seq<Label>, k: nat, n: nat): int
    requires k <= n <= |labels|
  {
    LoopSteps(labels[k..n]) - 4 * IdlePolls(labels[k..n])
  }

  lemma OneMoreLabel(labels: seq<Label>, k: nat, n: nat)
    requires k <= n < |labels|
    ensures Effort(labels, k, n + 1) == Effort(labels, k, n) + Cost(labels[n])
  {
    assert labels[k..n + 1][..n - k] == labels[k..n];
  }

  /** Between k and n the loop is never outside ProcessMessages. */
  ghost predicate Running(states: seq<State>, k: nat, n: nat) {
    n < |states| && forall j :: k <= j <= n ==> states[j].pc != Out
  }

  /** The effort from k to n brought the loop closer to the y-th task, if that is not dispatched yet. */
  ghost predicate ComesCloser(states: seq<State>, labels: seq<Label>, k: nat, n: nat, y: nat)
    requires k <= n <= |labels| < |states|
  {
    |states[n].log.dispatched| <= y ==>
      Effort(labels, k, n) + Distance(states[n], y) <= Distance(states[k], y)
  }

  /**
   A task that is queued at k, anywhere in the queue, is dispatched by n, or else the loop ended in between or has not
   yet taken the steps this bounds: six for each task before it, a few for the task itself and for coming out of a
   wait, and four for each poll that brought nothing. What posters do in the meantime does not matter.
   */
  lemma {:induction false} QueuedIsDispatchedSoon(states: seq<State>, labels: seq<Label>, k: nat, n: nat, y: nat)
    requires IsWholeRun(states, labels) && k <= n && Running(states, k, n)
    requires |states[k].log.dispatched| <= y < |states[k].log.pushed|
    ensures ComesCloser(states, labels, k, n, y)
    decreases n
  {
    if k == n {
      NoEffort(states, labels, k, y);
    } else {
      StillRunning(states, k, n);
      QueuedIsDispatchedSoon(states, labels, k, n - 1, y);
      LastStepComesCloser(states, labels, k, n, y);
    }
  }

  lemma NoEffort(states: seq<State>, labels: seq<Label>, k: nat, y: nat)
    requires k <= |labels| < |states|
    ensures ComesCloser(states, labels, k, k, y)
  {
    assert labels[k..k] == [];
  }

  lemma StillRunning(states: seq<State>, k: nat, n: nat)
    requires k < n && Running(states, k, n)
    ensures Running(states, k, n - 1) && states[n - 1].pc != Out && states[n].pc != Out
  {
  }

  lemma LastStepComesCloser(states: seq<State>, labels: seq<Label>, k: nat, n: nat, y: nat)
    requires IsWholeRun(states, labels) && k < n <= |labels| && states[n - 1].pc != Out && states[n].pc != Out
    requires y < |states[k].log.pushed| && ComesCloser(states, labels, k, n - 1, y)
    ensures ComesCloser(states, labels, k, n, y)
  {
    OneMoreLabel(labels, k, n - 1);
    if |states[n].log.dispatched| <= y {
      LastStep(states, labels, k, n - 1, y);
      Closer(Effort(labels, k, n - 1), Cost(labels[n - 1]),
             Distance(states[k], y), Distance(states[n - 1], y), Distance(states[n], y));
    }
  }

  lemma Closer(effort: int, cost: int, first: int, before: int, after: int)
    requires effort + before <= first && cost + after <= before
    ensures effort + cost + after <= first
  {
  }

  lemma LastStep(states: seq<State>, labels: seq<Label>, k: nat, n: nat, y: nat)
    requires IsWholeRun(states, labels) && k <= n < |labels| && states[n].pc != Out && states[n + 1].pc != Out
    requires y < |states[k].log.pushed| && |states[n + 1].log.dispatched| <= y
    ensures |states[n].log.dispatched| <= y && Cost(labels[n]) + Distance(states[n + 1], y) <= Distance(states[n], y)
  {
    var s, l := StepAt(states, labels, n);
    RunIsOk(states, labels, n);
    PushedStays(states, labels, k, n);
    DispatchedGrows(s, l);
    StepComesCloser(s, l, y);
  }

  lemma DispatchedGrows(s: State, l: Label)
    requires Enabled(s, l)
    ensures |s.log.dispatched| <= |Apply(s, l).log.dispatched|
  {
    if !l.InGet? && !(l.ByThread? && l.ps.Push?) {
      QuietStep(s, l);
    }
  }

  /**
   In the words of a caller: once the loop took more than 6 * z + 18 steps and four for each idle poll, the task at
   place z of the queue has been dispatched, or the loop has ended.
   */
  lemma QueuePlaceBoundsSteps(states: seq<State>, labels: seq<Label>, k: nat, n: nat, z: nat)
    requires IsWholeRun(states, labels) && k <= n && Running(states, k, n)
    requires z < |states[k].q.messages|
    requires Effort(labels, k, n) >= 6 * (z + |Hand(states[k].pc)|) + 18
    ensures states[k].q.messages[z] in states[n].log.dispatched
  {
    RunIsOk(states, labels, k);
    var y := PlaceInPushOrder(states[k], z);
    QueuedIsDispatchedSoon(states, labels, k, n, y);
    PhaseIsPositive(states[k]);
    PhaseIsPositive(states[n]);
    PushedStays(states, labels, k, n);
    RunIsOk(states, labels, n);
    DispatchedIsPushed(states[n], y);
  }

  lemma PlaceInPushOrder(s: State, z: nat) returns (y: nat)
    requires Conserved(s) && z < |s.q.messages|
    ensures y == |s.log.dispatched| + |Hand(s.pc)| + z < |s.log.pushed|
    ensures ItemTask(s.log.pushed[y]) == s.q.messages[z]
  {
    var ahead := s.log.dispatched + Hand(s.pc);
    y := |ahead| + z;
    assert (ahead + s.q.messages)[y] == s.q.messages[z];
    assert Erase(s.log.pushed)[y] == s.q.messages[z];
  }

  lemma PhaseIsPositive(s: State)
    requires s.pc != Out
    ensures 1 <= Phase(s.pc, s.flagWait) <= 18
  {
  }

  // ----- the steps can be taken -----

  /** The loop can take a step that counts. */
  ghost predicate LoopAdvances(s: State) {
    exists l: Label :: IsLoopLabel(l) && !IsIdle(l) && l != InWait(PollFailed) && Enabled(s, l)
  }

  /** A poster in the middle of a post can go on. */
  ghost predicate PostGoesOn(s: State) {
    exists p: nat, ps: PosterStep :: !ps.Test? && PosterEnabled(s, p, ps)
  }

  lemma OwnerGoesOn(s: State, p: nat)
    requires OwnsQueue(PcOf(s.posters, p)) || OwnsSignaler(PcOf(s.posters, p))
    ensures PostGoesOn(s)
  {
    var ps :=
      match PcOf(s.posters, p)
      case Holding(_) => Push
      case PushedHolding => Unlock
      case SigHeld => Write
      case SigWrote => SetSignaled
      case _ => UnlockSignaler;
    assert PosterEnabled(s, p, ps);
  }

  lemma AnnouncerGoesOn(s: State, p: nat)
    requires LocksOk(s) && Announcing(PcOf(s.posters, p)) && s.sig.mutex != ByLoop
    ensures PostGoesOn(s)
  {
    if PcOf(s.posters, p) == Announce && s.sig.mutex == Free {
      assert PosterEnabled(s, p, LockSignaler);
    } else if PcOf(s.posters, p) == Announce {
      OwnerGoesOn(s, s.sig.mutex.p);
    } else {
      OwnerGoesOn(s, p);
    }
  }

  /**
   While something is queued or in hand a running loop is never stuck: it can take a step that counts, or it waits for
   a post that is under way and can go on, to leave a mutex or to write the byte.
   */
  lemma LoopWithWorkAdvances(s: State)
    requires ProtocolOk(s) && s.pc != Out && (s.q.messages != [] || Hand(s.pc) != [])
    ensures LoopAdvances(s) || PostGoesOn(s)
  {
    if Awake(s.pc) {
      AwakeAdvances(s);
    } else {
      AsleepAdvances(s);
    }
  }

  lemma AwakeAdvances(s: State)
    requires LocksOk(s) && Awake(s.pc)
    ensures LoopAdvances(s) || PostGoesOn(s)
  {
    AwakeCanStep(s);
    if LoopCanStep(s) {
      var gs: GetStep :| !gs.Start? && GetEnabled(s, gs);
      assert Enabled(s, InGet(gs));
    } else {
      var p :| s.mutex == ByPoster(p) && CanRelease(s, p);
      OwnerGoesOn(s, p);
    }
  }

  lemma AsleepAdvances(s: State)
    requires ProtocolOk(s) && s.pc != Out && !Awake(s.pc) && s.q.messages != []
    ensures LoopAdvances(s) || PostGoesOn(s)
  {
    match s.pc
    case Arm => assert Enabled(s, InWait(EnterWait));
    case Raise => assert Enabled(s, InWait(RaiseFlag));
    case LoopTest => assert Enabled(s, InWait(TestFlag));
    case Recalc => assert Enabled(s, InWait(Recompute));
    case Poll => PollAdvances(s);
    case Batch(wake) => BatchAdvances(s, wake);
    case SigOwned => assert Enabled(s, InOnEvent(ReadPipe));
    case SigRead => assert Enabled(s, InOnEvent(ClearSignaled));
    case SigCleared => assert Enabled(s, InOnEvent(LowerFlag));
    case SigLowered => assert Enabled(s, InOnEvent(LeaveSignaler));
  }

  lemma PollAdvances(s: State)
    requires ProtocolOk(s) && s.pc == Poll && s.q.messages != []
    ensures LoopAdvances(s) || PostGoesOn(s)
  {
    if !WakePending(s) {
      PollIsCovered(s);
    }
    if s.sig.pipe > 0 {
      assert Enabled(s, InWait(PollEvents(true)));
    } else {
      var p :| Announcing(PcOf(s.posters, p));
      AnnouncerGoesOn(s, p);
    }
  }

  lemma BatchAdvances(s: State, wake: bool)
    requires LocksOk(s) && s.pc == Batch(wake)
    ensures LoopAdvances(s) || PostGoesOn(s)
  {
    if !wake {
      assert Enabled(s, InWait(SkipBatch));
    } else if s.sig.mutex == Free {
      assert Enabled(s, InOnEvent(TakeSignaler));
    } else {
      assert s.sig.mutex.ByPoster?;
      OwnerGoesOn(s, s.sig.mutex.p);
    }
  }

  /** Hence a run that neither the loop nor a post under way can go on with has nothing left to run, or has ended. */
  lemma RestingLoopIsIdle(states: seq<State>, labels: seq<Label>)
    requires IsWholeRun(states, labels)
    requires !LoopAdvances(states[|labels|]) && !PostGoesOn(states[|labels|])
    ensures var s := states[|labels|];
            s.pc == Out || (s.q.messages == [] && |s.log.dispatched| == |s.log.pushed|)
  {
    RunIsOk(states, labels, |labels|);
    var s := states[|labels|];
    if s.pc != Out {
      if s.q.messages != [] || Hand(s.pc) != [] {
        LoopWithWorkAdvances(s);
      }
      assert |Erase(s.log.pushed)| == |s.log.dispatched|;
    }
  }
}
