/** What Quit does and does not achieve. */
module LoopQuit {
  import opened DelayedMessages
  import opened TaskQueues
  import opened LoopModel
  import opened WakeupProtocol
  import opened TimerProtocol
  import opened LoopHistory
  import opened LoopOrder
  import opened LoopRuns

  // ----- the work left -----

  predicate Carries(pc: PosterPc) {
    pc.Passed? || pc.Want? || pc.Holding?
  }

  /** Posters past their IsQuitting test that have not pushed yet. */
  function InFlight(posters: map<nat, PosterPc>): set<nat> {
    set p | p in posters && Carries(posters[p])
  }

  /** How many tasks the loop may still run once it quits. */
  function Load(s: State): nat {
    |InFlight(s.posters)| + |s.q.messages| + |s.q.delayed| + |Hand(s.pc)|
  }

  lemma InFlightAfter(posters: map<nat, PosterPc>, p: nat, pc: PosterPc)
    ensures var before := p in posters && Carries(posters[p]);
            |InFlight(posters[p := pc])| ==
              |InFlight(posters)| - (if before then 1 else 0) + (if Carries(pc) then 1 else 0)
  {
    var others := InFlight(posters) - {p};
    assert InFlight(posters[p := pc]) == if Carries(pc) then others + {p} else others;
    assert InFlight(posters) == if p in posters && Carries(posters[p]) then others + {p} else others;
  }

  /** While the stop flag is set, no task is added or lost: what is dispatched is what the load loses. */
  lemma QuittingConservesLoad(s: State, l: Label)
    requires s.stop && Enabled(s, l) && Apply(s, l).stop
    ensures Load(Apply(s, l)) + |Apply(s, l).log.dispatched| == Load(s) + |s.log.dispatched|
  {
    var s' := Apply(s, l);
    if l.ByThread? {
      LoadKeptByThread(s, l.p, l.ps);
    } else if l.InGet? {
      GetFrame(s, l.gs);
      LoadKeptByGet(s, l.gs);
    } else {
      QuietStep(s, l);
      assert s'.posters == s.posters;
    }
  }

  lemma LoadKeptByThread(s: State, p: nat, ps: PosterStep)
    requires s.stop && PosterEnabled(s, p, ps)
    ensures var s' := PosterApply(s, p, ps);
            Load(s') == Load(s) && s'.log.dispatched == s.log.dispatched && s'.pc == s.pc
  {
    var s' := PosterApply(s, p, ps);
    InFlightAfter(s.posters, p, PcOf(s'.posters, p));
    if ps.Push? {
      assert s'.posters == s.posters[p := PushedHolding];
    } else {
      QuietPosterStep(s, p, ps);
      assert s'.posters == s.posters || s'.posters == s.posters[p := PcOf(s'.posters, p)];
    }
  }

  lemma LoadKeptByGet(s: State, gs: GetStep)
    requires GetEnabled(s, gs)
    ensures var s' := GetApply(s, gs);
            Load(s') + |s'.log.dispatched| == Load(s) + |s.log.dispatched|
  {
    GetFrame(s, gs);
    if gs.Drain? {
      assert |s.q.delayed| == |multiset(gs.due)| + |gs.rest|;
    }
  }

  // ----- the loop ends -----

  /** Outside SocketServer::Wait. */
  predicate Awake(pc: LoopPc) {
    match pc
    case Top => true
    case Locked => true
    case Drained => true
    case Popped(_) => true
    case Run(_) => true
    case Ran => true
    case Released => true
    case Woke => true
    case _ => false
  }

  function PcRank(pc: LoopPc): nat {
    match pc
    case Ran => 8
    case Woke => 7
    case Top => 6
    case Locked => 5
    case Drained => 4
    case Popped(_) => 3
    case Released => 3
    case Run(_) => 2
    case _ => 0
  }

  function Rank(s: State): nat {
    10 * Load(s) + PcRank(s.pc)
  }

  /** Once quitting, the awake loop never goes to sleep again and every step brings it closer to its end. */
  lemma QuittingLoopDescends(s: State, gs: GetStep)
    requires s.stop && Awake(s.pc) && GetEnabled(s, gs)
    ensures var s' := GetApply(s, gs);
            (Awake(s'.pc) || s'.pc == Out) && Rank(s') < Rank(s)
  {
    LoadKeptByGet(s, gs);
    QuittingStaysAwake(s, gs);
  }

  /** Each step goes on to a pc of smaller rank, but for the dispatch of a task, which takes it off the load. */
  lemma QuittingStaysAwake(s: State, gs: GetStep)
    requires s.stop && Awake(s.pc) && GetEnabled(s, gs)
    ensures var s' := GetApply(s, gs);
            && (Awake(s'.pc) || s'.pc == Out)
            && (PcRank(s'.pc) < PcRank(s.pc) || |s'.log.dispatched| > |s.log.dispatched|)
  {
  }

  predicate IsLoopLabel(l: Label) {
    l.InGet? || l.InWait? || l.InOnEvent?
  }

  function LoopSteps(labels: seq<Label>): nat {
    if labels == [] then 0
    else LoopSteps(labels[..|labels| - 1]) + if IsLoopLabel(labels[|labels| - 1]) then 1 else 0
  }

  /**
   From any moment at which the loop is awake and quitting, it takes at most Rank many further steps, and runs at
   most Load many further tasks, until ProcessMessages returns, however the posters interleave.
   */
  lemma {:induction false} QuittingLoopTerminates(states: seq<State>, labels: seq<Label>)
    requires IsRun(states, labels)
    requires forall k :: 0 <= k < |states| ==> states[k].stop
    requires forall k :: 0 <= k < |labels| ==> !(labels[k].InGet? && labels[k].gs.Start?)
    requires Awake(states[0].pc) || states[0].pc == Out
    ensures var last := states[|labels|];
            && (Awake(last.pc) || last.pc == Out)
            && LoopSteps(labels) + Rank(last) <= Rank(states[0])
            && |last.log.dispatched| <= |states[0].log.dispatched| + Load(states[0])
            && Load(last) + |last.log.dispatched| == Load(states[0]) + |states[0].log.dispatched|
    decreases |labels|
  {
    if labels != [] {
      var n := |labels| - 1;
      QuittingLoopTerminates(states[..n + 1], labels[..n]);
      assert states[..n + 1][n] == states[n];
      var s, l := states[n], labels[n];
      assert states[n + 1] == Apply(s, l) && states[n + 1].stop;
      QuittingConservesLoad(s, l);
      if l.InGet? {
        QuittingLoopDescends(s, l.gs);
      } else {
        SleepersOnly(s, l);
      }
    }
  }

  lemma SleepersOnly(s: State, l: Label)
    requires Enabled(s, l) && !l.InGet? && (Awake(s.pc) || s.pc == Out)
    ensures !IsLoopLabel(l) && Apply(s, l).pc == s.pc && Apply(s, l).log.dispatched == s.log.dispatched
  {
    if !(l.ByThread? && l.ps.Push?) {
      QuietStep(s, l);
    }
  }

  // ----- what is left behind -----

  /**
   When Get leaves because of Quit, everything pushed by its last drain has been dispatched; what remains queued was
   pushed since, be it before or after the call of Quit. If nothing was, nothing is queued and no timer was due.
   */
  lemma QuitLeavesOnlyLatePosts(states: seq<State>, labels: seq<Label>, k: nat)
    requires IsWholeRun(states, labels) && k < |states|
    requires states[k].pc == Released
    ensures var s := states[k];
            && s.marks.drained <= |s.log.pushed|
            && s.log.dispatched == Erase(s.log.pushed)[..s.marks.drained]
            && s.q.messages == Erase(s.log.pushed)[s.marks.drained..]
            && (!s.marks.sinceDrain ==>
                  s.q.messages == [] && forall m :: m in s.q.delayed ==> s.get.msCurrent < m.runTimeMs)
  {
    RunIsOk(states, labels, k);
    var s := states[k];
    assert Erase(s.log.pushed) == s.log.dispatched + s.q.messages;
    assert Erase(s.log.pushed)[..|s.log.dispatched|] == s.log.dispatched;
  }

  // ----- a sleeping loop and Quit -----

  /** Input/output on other descriptors, signals, failures of epoll_wait, Restart: not done by the protocol itself. */
  predicate External(l: Label) {
    || l == InWait(PollInterrupted) || l == InWait(PollFailed) || l == InWait(PollEvents(false))
    || l == SetStop(false)
  }

  /** Quitting, asleep without a limit, no byte, and no poster on its way. */
  ghost predicate Stuck(s: State) {
    s.stop && s.pc == Poll && s.sig.pipe == 0 && s.wait.timeout < 0 && forall p :: PcOf(s.posters, p) == Idle
  }

  /** Nothing the program does by itself ever wakes such a loop: Quit writes no byte, and later posts are dropped. */
  lemma {:induction false} StuckForever(states: seq<State>, labels: seq<Label>)
    requires IsRun(states, labels) && Stuck(states[0])
    requires forall k :: 0 <= k < |labels| ==> !External(labels[k])
    ensures Stuck(states[|labels|])
    decreases |labels|
  {
    if labels != [] {
      var n := |labels| - 1;
      StuckForever(states[..n + 1], labels[..n]);
      assert states[..n + 1][n] == states[n];
      if labels[n].ByThread? {
        assert PcOf(states[n].posters, labels[n].p) == Idle;
      }
    }
  }

  ghost predicate Reaches(s: State, labels: seq<Label>, s': State)
    decreases |labels|
  {
    if labels == [] then s == s'
    else Enabled(s, labels[0]) && Reaches(Apply(s, labels[0]), labels[1..], s')
  }

  lemma ReachesCons(s: State, l: Label, labels: seq<Label>, s': State)
    requires Enabled(s, l) && Reaches(Apply(s, l), labels, s')
    ensures Reaches(s, [l] + labels, s')
  {
    assert ([l] + labels)[1..] == labels;
  }

  /** Some schedule of the program's own steps gets the loop out of epoll_wait. */
  ghost predicate CanLeavePoll(s: State) {
    exists labels, s' :: Reaches(s, labels, s') && s'.pc != Poll && forall l :: l in labels ==> !External(l)
  }

  lemma {:induction false} StuckReachesOnlyStuck(s: State, labels: seq<Label>, s': State)
    requires Stuck(s) && Reaches(s, labels, s') && forall l :: l in labels ==> !External(l)
    ensures Stuck(s')
    decreases |labels|
  {
    if labels != [] {
      var l := labels[0];
      assert l in labels;
      if l.ByThread? {
        assert PcOf(s.posters, l.p) == Idle;
      }
      assert Stuck(Apply(s, l));
      StuckReachesOnlyStuck(Apply(s, l), labels[1..], s');
    }
  }

  ghost predicate SomeAt(s: State, pc: PosterPc) {
    exists p :: PcOf(s.posters, p) == pc
  }

  /** How many steps of one poster separate a polling loop from its wake-up. */
  ghost function Stage(s: State): nat {
    if s.sig.pipe > 0 || s.wait.timeout >= 0 then 0
    else if SomeAt(s, SigHeld) then 1
    else if SomeAt(s, Announce) then 2
    else if SomeAt(s, PushedHolding) then 3
    else if exists p :: PcOf(s.posters, p).Holding? then 4
    else if exists p :: PcOf(s.posters, p).Want? then 5
    else if exists p :: PcOf(s.posters, p).Passed? then 6
    else 7
  }

  /** The step that the poster furthest ahead takes next. */
  ghost predicate IsWakingStep(s: State, p: nat, ps: PosterStep) {
    && PosterEnabled(s, p, ps)
    && match Stage(s)
       case 0 => false
       case 1 => ps.Write? && !s.sig.signaled
       case 2 => ps.LockSignaler?
       case 3 => ps.Unlock?
       case 4 => ps.Push?
       case 5 => ps.Lock?
       case 6 => ps.Stamp?
       case _ => ps == Test(false, 0) && !s.stop
  }

  /** Mutual exclusion makes that step possible: whoever could hold the mutex would be further ahead. */
  lemma SomeWakingStep(s: State) returns (p: nat, ps: PosterStep)
    requires SignalerOk(s) && s.pc == Poll && !Stuck(s) && Stage(s) > 0
    ensures IsWakingStep(s, p, ps)
  {
    match Stage(s) {
      case 1 =>
        p, ps :| PcOf(s.posters, p) == SigHeld && ps == Write;
        HolderMayWrite(s, p);
      case 2 =>
        p, ps :| PcOf(s.posters, p) == Announce && ps == LockSignaler;
        SignalerMutexIsFree(s);
      case 3 =>
        p, ps :| PcOf(s.posters, p) == PushedHolding && ps == Unlock;
      case 4 =>
        p, ps :| PcOf(s.posters, p).Holding? && ps == Push;
      case 5 =>
        p, ps :| PcOf(s.posters, p).Want? && ps == Lock;
        QueueMutexIsFree(s);
      case 6 =>
        p, ps :| PcOf(s.posters, p).Passed? && ps == Stamp;
      case _ =>
        AllIdle(s);
        p, ps := 0, Test(false, 0);
    }
  }

  lemma HolderMayWrite(s: State, p: nat)
    requires SignalerOk(s) && s.pc == Poll && s.sig.pipe == 0 && PcOf(s.posters, p) == SigHeld
    ensures !s.sig.signaled
  {
    assert OwnsSignaler(PcOf(s.posters, p));
    assert forall q :: PcOf(s.posters, q) == SigWrote ==> OwnsSignaler(PcOf(s.posters, q));
  }

  lemma QueueMutexIsFree(s: State)
    requires LocksOk(s) && s.pc == Poll && !SomeAt(s, PushedHolding)
    requires forall p :: !PcOf(s.posters, p).Holding?
    ensures s.mutex == Free
  {
    forall q ensures !OwnsQueue(PcOf(s.posters, q)) {
      assert PcOf(s.posters, q) != PushedHolding;
    }
  }

  lemma SignalerMutexIsFree(s: State)
    requires SignalerOk(s) && s.pc == Poll && s.sig.pipe == 0 && !SomeAt(s, SigHeld)
    ensures s.sig.mutex == Free
  {
    forall q ensures !OwnsSignaler(PcOf(s.posters, q)) {
      assert PcOf(s.posters, q) != SigHeld;
    }
  }

  lemma AllIdle(s: State)
    requires SignalerOk(s) && s.pc == Poll && Stage(s) == 7
    ensures forall p :: PcOf(s.posters, p) == Idle
  {
    forall p ensures PcOf(s.posters, p) == Idle {
      assert PcOf(s.posters, p) != SigHeld && PcOf(s.posters, p) != Announce && PcOf(s.posters, p) != PushedHolding;
    }
  }

  lemma WakingStepAdvances(s: State, p: nat, ps: PosterStep)
    requires s.pc == Poll && IsWakingStep(s, p, ps)
    ensures var s' := PosterApply(s, p, ps);
            Stage(s') < Stage(s) && s'.pc == Poll && !Stuck(s')
  {
    var s' := PosterApply(s, p, ps);
    var pc := PcOf(s'.posters, p);
    assert pc == PcOf(s'.posters, p);
    assert s'.wait == s.wait && s'.pc == s.pc;
    assert pc != Idle || s'.sig.pipe > 0;
  }

  lemma CanLeavePollUnlessStuck(s: State)
    requires LoopOk(s) && s.pc == Poll && !Stuck(s)
    ensures CanLeavePoll(s)
    decreases Stage(s)
  {
    if s.sig.pipe > 0 {
      ByteIsSeen(s);
    } else if s.wait.timeout >= 0 {
      TimeoutElapses(s);
    } else {
      var p, ps := SomeWakingStep(s);
      var l := ByThread(p, ps);
      WakingStepAdvances(s, p, ps);
      LoopOkKept(s, l);
      CanLeavePollUnlessStuck(Apply(s, l));
      CanLeavePollFrom(s, l);
    }
  }

  lemma CanLeavePollFrom(s: State, l: Label)
    requires Enabled(s, l) && !External(l) && CanLeavePoll(Apply(s, l))
    ensures CanLeavePoll(s)
  {
    var labels, s' :| Reaches(Apply(s, l), labels, s') && s'.pc != Poll && forall e :: e in labels ==> !External(e);
    ReachesCons(s, l, labels, s');
  }

  lemma ByteIsSeen(s: State)
    requires s.pc == Poll && s.sig.pipe > 0
    ensures CanLeavePoll(s)
  {
    var l := InWait(PollEvents(true));
    assert Reaches(Apply(s, l), [], Apply(s, l));
    ReachesCons(s, l, [], Apply(s, l));
  }

  lemma TimeoutElapses(s: State)
    requires s.pc == Poll && s.wait.timeout >= 0
    ensures CanLeavePoll(s)
  {
    var ms := s.wait.pollAt + s.wait.timeout;
    var tick := Tick(if ms < 0 then 0 else ms * 1_000_000);
    var s1 := Apply(s, tick);
    var l := InWait(PollTimeout);
    assert ms <= Millis(s1.now);
    assert Reaches(Apply(s1, l), [], Apply(s1, l));
    ReachesCons(s1, l, [], Apply(s1, l));
    ReachesCons(s, tick, [l], Apply(s1, l));
  }

  /**
   When a polling loop can still be woken by the program itself: always, unless it is quitting, asleep without a
   limit, and every poster that passed its IsQuitting test is done.
   */
  lemma LeavesPollIffNotStuck(states: seq<State>, labels: seq<Label>, k: nat)
    requires IsWholeRun(states, labels) && k < |states| && states[k].pc == Poll
    ensures CanLeavePoll(states[k]) <==> !Stuck(states[k])
  {
    RunIsOk(states, labels, k);
    if Stuck(states[k]) {
      if CanLeavePoll(states[k]) {
        var ls, s' :| Reaches(states[k], ls, s') && s'.pc != Poll && forall l :: l in ls ==> !External(l);
        StuckReachesOnlyStuck(states[k], ls, s');
      }
    } else {
      CanLeavePollUnlessStuck(states[k]);
    }
  }

  lemma {:induction false} ReachesJoins(s: State, first: seq<Label>, s1: State, second: seq<Label>, s2: State)
    requires Reaches(s, first, s1) && Reaches(s1, second, s2)
    ensures Reaches(s, first + second, s2)
    decreases |first|
  {
    if first == [] {
      assert first + second == second;
    } else {
      ReachesJoins(Apply(s, first[0]), first[1..], s1, second, s2);
      assert (first + second)[1..] == first[1..] + second;
    }
  }

  lemma FirstCheck(s: State) returns (labels: seq<Label>, s': State)
    requires Init(s)
    ensures Reaches(s, labels, s')
    ensures s'.pc == Released && s'.get.cmsWait == FOREVER && s'.get.gap == FOREVER
    ensures s'.stop == s.stop && s'.posters == map[] && s'.sig == s.sig
    ensures s'.mutex == Free && s'.q == s.q && s'.nextId == s.nextId && s'.log.dispatched == []
  {
    var l1, l2 := InGet(Start(FOREVER)), InGet(LockQueue);
    var l3, l4 := InGet(Drain([], multiset{}, FOREVER)), InGet(Release);
    var s1 := Apply(s, l1);
    var s2 := Apply(s1, l2);
    assert IsDrain(s2.q.delayed, s2.get.msCurrent, [], multiset{});
    var s3 := Apply(s2, l3);
    assert s3.q.messages == [];
    s' := Apply(s3, l4);
    assert Reaches(s', [], s');
    ReachesCons(s3, l4, [], s');
    ReachesCons(s2, l3, [l4], s');
    ReachesCons(s1, l2, [l3] + [l4], s');
    ReachesCons(s, l1, [l2] + ([l3] + [l4]), s');
    labels := [l1] + ([l2] + ([l3] + [l4]));
  }

  lemma FallAsleep(s: State) returns (labels: seq<Label>, s': State)
    requires s.pc == Released && s.get.cmsWait == FOREVER && s.get.gap == FOREVER && !s.stop
    requires s.posters == map[] && s.sig.pipe == 0
    ensures Reaches(s, labels, s') && Stuck(s')
  {
    var l1, l2, l3, l4 := InGet(TestQuit), InWait(EnterWait), InWait(RaiseFlag), InWait(TestFlag);
    var l5 := SetStop(true);
    var s1 := Apply(s, l1);
    var s2 := Apply(s1, l2);
    var s3 := Apply(s2, l3);
    var s4 := Apply(s3, l4);
    s' := Apply(s4, l5);
    assert forall p :: PcOf(s'.posters, p) == Idle;
    assert Reaches(s', [], s');
    ReachesCons(s4, l5, [], s');
    ReachesCons(s3, l4, [l5], s');
    ReachesCons(s2, l3, [l4] + [l5], s');
    ReachesCons(s1, l2, [l3] + ([l4] + [l5]), s');
    ReachesCons(s, l1, [l2] + ([l3] + ([l4] + [l5])), s');
    labels := [l1] + ([l2] + ([l3] + ([l4] + [l5])));
  }

  /** Quitting a loop that sleeps over empty queues leaves it stuck. */
  lemma QuitMayHang(s: State)
    requires Init(s) && !s.stop
    ensures exists labels, s' :: Reaches(s, labels, s') && Stuck(s')
  {
    var first, s1 := FirstCheck(s);
    var second, s2 := FallAsleep(s1);
    ReachesJoins(s, first, s1, second, s2);
  }

  /** A post is on its way when the loop looks at the stop flag. */
  lemma PassesThenQuits(s: State) returns (labels: seq<Label>, s': State)
    requires s.pc == Released && !s.stop && s.posters == map[] && s.nextId == 0
    requires s.q.messages == [] && s.mutex == Free
    ensures Reaches(s, labels, s')
    ensures s'.stop && s'.pc == Out && s'.q.messages == [] && s'.mutex == Free
    ensures PcOf(s'.posters, 0) == Want(NowEntry(Task(0)))
  {
    var l1, l2, l3, l4 := ByThread(0, Test(false, 0)), ByThread(0, Stamp), SetStop(true), InGet(TestQuit);
    var s1 := Apply(s, l1);
    assert PcOf(s1.posters, 0) == Passed(Task(0), 0, false);
    var s2 := Apply(s1, l2);
    var s3 := Apply(s2, l3);
    s' := Apply(s3, l4);
    assert Reaches(s', [], s');
    ReachesCons(s3, l4, [], s');
    ReachesCons(s2, l3, [l4], s');
    ReachesCons(s1, l2, [l3] + [l4], s');
    ReachesCons(s, l1, [l2] + ([l3] + [l4]), s');
    labels := [l1] + ([l2] + ([l3] + [l4]));
  }

  lemma PushesInVain(s: State) returns (labels: seq<Label>, s': State)
    requires s.stop && s.pc == Out && s.q.messages == [] && s.mutex == Free
    requires PcOf(s.posters, 0) == Want(NowEntry(Task(0)))
    ensures Reaches(s, labels, s') && s'.stop && s'.pc == Out && s'.q.messages == [Task(0)]
  {
    var l1, l2 := ByThread(0, Lock), ByThread(0, Push);
    var s1 := Apply(s, l1);
    assert PcOf(s1.posters, 0) == Holding(NowEntry(Task(0)));
    s' := Apply(s1, l2);
    assert Reaches(s', [], s');
    ReachesCons(s1, l2, [], s');
    ReachesCons(s, l1, [l2], s');
    labels := [l1] + [l2];
  }

  /** A post that passed its IsQuitting test in time may still be too late: its task stays queued, the loop is over. */
  lemma LatePostMayBeStranded(s: State)
    requires Init(s) && !s.stop
    ensures exists labels, s' :: Reaches(s, labels, s') && s'.stop && s'.pc == Out && s'.q.messages == [Task(0)]
  {
    var first, s1 := FirstCheck(s);
    var second, s2 := PassesThenQuits(s1);
    var third, s3 := PushesInVain(s2);
    ReachesJoins(s, first, s1, second, s2);
    ReachesJoins(s, first + second, s2, third, s3);
  }
}
