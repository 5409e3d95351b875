/** What a post does, from the labels and the clock alone: the task that was posted, as it was posted, or nothing. */
module LoopPosts {
  import opened DelayedMessages
  import opened TaskQueues
  import opened LoopModel
  import opened WakeupProtocol
  import opened TimerProtocol
  import opened LoopHistory
  import opened LoopOrder
  import opened LoopRuns
  import opened LoopDrain
  import opened LoopBudget

  // ----- the steps of one post -----

  /** After k and before n thread p takes no step. */
  ghost predicate StandsStill(labels: seq<Label>, p: nat, k: nat, n: nat) {
    k < n <= |labels| && forall j :: k < j < n ==> !(labels[j].ByThread? && labels[j].p == p)
  }

  lemma {:induction false} ThreadStays(states: seq<State>, labels: seq<Label>, p: nat, k: nat, n: nat)
    requires IsRun(states, labels) && k <= n <= |labels|
    requires forall j :: k <= j < n ==> !(labels[j].ByThread? && labels[j].p == p)
    ensures PcOf(states[n].posters, p) == PcOf(states[k].posters, p)
    decreases n - k
  {
    if k < n {
      var s, l := StepAt(states, labels, k);
      OthersLeaveThread(s, l, p);
      ThreadStays(states, labels, p, k + 1, n);
    }
  }

  lemma OthersLeaveThread(s: State, l: Label, p: nat)
    requires Enabled(s, l) && !(l.ByThread? && l.p == p)
    ensures PcOf(Apply(s, l).posters, p) == PcOf(s.posters, p)
  {
    match l
    case ByThread(q, ps) => OtherPostersStay(s, q, ps);
    case InGet(gs) => GetFrame(s, gs);
    case InWait(ws) => WaitFrame(s, ws);
    case InOnEvent(es) =>
    case Tick(ns) =>
    case SetStop(v) =>
  }

  /** The four steps of a post up to its push: test, run time, lock, push, with nothing else of thread p in between. */
  ghost predicate IsPost(labels: seq<Label>, p: nat, timed: bool, d: int, a: nat, b: nat, c: nat, e: nat) {
    && StandsStill(labels, p, a, b) && StandsStill(labels, p, b, c) && StandsStill(labels, p, c, e) && e < |labels|
    && labels[a] == ByThread(p, Test(timed, d)) && labels[b] == ByThread(p, Stamp)
    && labels[c] == ByThread(p, Lock) && labels[e] == ByThread(p, Push)
  }

  /** What a post brings, given the clock at which it computed the run time. */
  function Posted(t: Task, timed: bool, d: int, clock: int): Entry {
    if timed then LaterEntry(t, d, clock + d) else NowEntry(t)
  }

  /**
   A post whose IsQuitting test failed does nothing. Any other brings a new task: an immediate one goes to the end of
   the task queue; a delayed one becomes pending for the clock at its second step plus its delay, under the next number.
   */
  lemma PostBringsItsTask(states: seq<State>, labels: seq<Label>, p: nat, timed: bool, d: int,
                          a: nat, b: nat, c: nat, e: nat)
    requires IsRun(states, labels) && IsPost(labels, p, timed, d, a, b, c, e) && !states[a].stop
    ensures var s, s', t := states[e], states[e + 1], Task(states[a].nextId);
            && (!timed ==>
                  && s'.q == s.q.(messages := s.q.messages + [t])
                  && s'.log.pushed == s.log.pushed + [Immediate(t)] && s'.log.acceptedNow == s.log.acceptedNow + [t]
                  && s'.log.acceptedLater == s.log.acceptedLater)
            && (timed ==>
                  var m := DelayedMessage(d, Clock(states, b) + d, s.q.nextNum, t);
                  && s'.q.messages == s.q.messages && s'.q.delayed == s.q.delayed + multiset{m}
                  && s'.q.nextNum == (s.q.nextNum + 1) % NUMBER_MODULUS
                  && s'.log.acceptedLater == s.log.acceptedLater + [m] && s'.log.pushed == s.log.pushed
                  && s'.log.acceptedNow == s.log.acceptedNow)
  {
    StampedEntry(states, labels, p, timed, d, a, b);
    var s2, _ := StepAt(states, labels, c);
    ThreadStays(states, labels, p, b + 1, c);
    ThreadStays(states, labels, p, c + 1, e);
    var s3, l3 := StepAt(states, labels, e);
    PushEffect(s3, p);
  }

  lemma StampedEntry(states: seq<State>, labels: seq<Label>, p: nat, timed: bool, d: int, a: nat, b: nat)
    requires IsRun(states, labels) && StandsStill(labels, p, a, b) && b < |labels|
    requires labels[a] == ByThread(p, Test(timed, d)) && !states[a].stop && labels[b] == ByThread(p, Stamp)
    ensures PcOf(states[b + 1].posters, p) == Want(Posted(Task(states[a].nextId), timed, d, Clock(states, b)))
  {
    var s0, _ := StepAt(states, labels, a);
    ThreadStays(states, labels, p, a + 1, b);
    var s1, _ := StepAt(states, labels, b);
  }

  lemma PushEffect(s: State, p: nat)
    requires PosterEnabled(s, p, Push)
    ensures var s', e := PosterApply(s, p, Push), PcOf(s.posters, p).entry;
            match e
            case NowEntry(t) =>
              && s'.q == s.q.(messages := s.q.messages + [t])
              && s'.log.pushed == s.log.pushed + [Immediate(t)] && s'.log.acceptedNow == s.log.acceptedNow + [t]
              && s'.log.acceptedLater == s.log.acceptedLater
            case LaterEntry(t, d, r) =>
              var m := DelayedMessage(d, r, s.q.nextNum, t);
              && s'.q.messages == s.q.messages && s'.q.delayed == s.q.delayed + multiset{m}
              && s'.q.nextNum == (s.q.nextNum + 1) % NUMBER_MODULUS
              && s'.log.acceptedLater == s.log.acceptedLater + [m] && s'.log.pushed == s.log.pushed
              && s'.log.acceptedNow == s.log.acceptedNow
  {
  }

  /** The test of a post while the stop flag is set changes nothing at all. */
  lemma RefusedPostDoesNothing(s: State, p: nat, timed: bool, d: int)
    requires Enabled(s, ByThread(p, Test(timed, d))) && s.stop
    ensures Apply(s, ByThread(p, Test(timed, d))) == s
  {
  }

  // ----- the two flags -----

  /** stop_ is what the last call of Quit or Restart made it. */
  lemma {:induction false} StopIsAsSet(states: seq<State>, labels: seq<Label>, k: nat, n: nat, value: bool)
    requires IsRun(states, labels) && k < n <= |labels| && labels[k] == SetStop(value)
    requires forall j :: k < j < n ==> !labels[j].SetStop?
    ensures states[n].stop == value
    decreases n
  {
    var s, l := StepAt(states, labels, n - 1);
    if k + 1 < n {
      StopIsAsSet(states, labels, k, n - 1, value);
      OthersLeaveStop(s, l);
    }
  }

  lemma OthersLeaveStop(s: State, l: Label)
    requires Enabled(s, l) && !l.SetStop?
    ensures Apply(s, l).stop == s.stop
  {
    match l
    case ByThread(p, ps) => ThreadsLeaveFlags(s, p, ps);
    case InGet(gs) => GetFrame(s, gs);
    case InWait(ws) => WaitFrame(s, ws);
    case InOnEvent(es) =>
    case Tick(ns) =>
  }

  lemma ThreadsLeaveFlags(s: State, p: nat, ps: PosterStep)
    requires PosterEnabled(s, p, ps)
    ensures PosterApply(s, p, ps).stop == s.stop && PosterApply(s, p, ps).flagWait == s.flagWait
  {
  }

  predicate SetsFlag(l: Label) {
    l == InWait(RaiseFlag) || l == InOnEvent(LowerFlag)
  }

  /** flag_wait_ is up exactly if a wait was entered since OnEvent of the Signaler last cleared it. */
  lemma {:induction false} FlagIsAsSet(states: seq<State>, labels: seq<Label>, k: nat, n: nat)
    requires IsRun(states, labels) && k < n <= |labels| && SetsFlag(labels[k])
    requires forall j :: k < j < n ==> !SetsFlag(labels[j])
    ensures states[n].flagWait <==> labels[k] == InWait(RaiseFlag)
    decreases n
  {
    var s, l := StepAt(states, labels, n - 1);
    if k + 1 < n {
      FlagIsAsSet(states, labels, k, n - 1);
      OthersLeaveFlag(s, l);
    }
  }

  lemma OthersLeaveFlag(s: State, l: Label)
    requires Enabled(s, l) && !SetsFlag(l)
    ensures Apply(s, l).flagWait == s.flagWait
  {
    match l
    case ByThread(p, ps) => ThreadsLeaveFlags(s, p, ps);
    case InGet(gs) => GetFrame(s, gs);
    case InWait(ws) =>
    case InOnEvent(es) =>
    case Tick(ns) =>
    case SetStop(v) =>
  }

  // ----- the task from then on -----

  /** Wherever task t is, it is as it was posted. */
  ghost predicate Faithful(s: State, t: Task, timed: bool, d: int, r: int) {
    && t.Task? && Known(t, s.nextId)
    && (forall p :: TaskOf(PcOf(s.posters, p)) == t ==> HoldsAs(PcOf(s.posters, p), t, timed, d, r))
    && (forall m :: m in s.q.delayed && m.functor == t ==> timed && m.delayMs == d && m.runTimeMs == r)
    && (forall x :: 0 <= x < |s.log.pushed| && ItemTask(s.log.pushed[x]) == t ==> ItemAs(s.log.pushed[x], timed, d, r))
  }

  predicate HoldsAs(pc: PosterPc, t: Task, timed: bool, d: int, r: int) {
    (pc.Want? || pc.Holding?) && pc.entry == if timed then LaterEntry(t, d, r) else NowEntry(t)
  }

  predicate ItemAs(i: Item, timed: bool, d: int, r: int) {
    match i
    case Immediate(_) => !timed
    case Timed(m) => timed && m.delayMs == d && m.runTimeMs == r
  }

  lemma FaithfulKept(s: State, l: Label, t: Task, timed: bool, d: int, r: int)
    requires Faithful(s, t, timed, d, r) && Enabled(s, l)
    ensures Faithful(Apply(s, l), t, timed, d, r)
  {
    if l.ByThread? {
      if l.ps.Push? {
        FaithfulKeptByPush(s, l.p, t, timed, d, r);
      } else {
        FaithfulKeptByThread(s, l.p, l.ps, t, timed, d, r);
      }
    } else if l.InGet? {
      if l.gs.Drain? {
        FaithfulKeptByDrain(s, l.gs.due, l.gs.rest, l.gs.gap, t, timed, d, r);
      } else {
        FaithfulKeptByGet(s, l.gs, t, timed, d, r);
      }
    } else {
      FaithfulKeptByQuietStep(s, l, t, timed, d, r);
    }
  }

  lemma FaithfulKeptByQuietStep(s: State, l: Label, t: Task, timed: bool, d: int, r: int)
    requires Faithful(s, t, timed, d, r) && Enabled(s, l) && !l.ByThread? && !l.InGet?
    ensures Faithful(Apply(s, l), t, timed, d, r)
  {
    QuietStep(s, l);
    assert Apply(s, l).posters == s.posters && Apply(s, l).nextId == s.nextId;
  }

  lemma FaithfulKeptByThread(s: State, p: nat, ps: PosterStep, t: Task, timed: bool, d: int, r: int)
    requires Faithful(s, t, timed, d, r) && PosterEnabled(s, p, ps) && !ps.Push?
    ensures Faithful(PosterApply(s, p, ps), t, timed, d, r)
  {
    QuietPosterStep(s, p, ps);
    OtherPostersStay(s, p, ps);
    HeldTaskStays(s, p, ps);
    OwnStepIsFaithful(s, p, ps, t, timed, d, r);
  }

  lemma OwnStepIsFaithful(s: State, p: nat, ps: PosterStep, t: Task, timed: bool, d: int, r: int)
    requires t.Task? && Known(t, s.nextId) && PosterEnabled(s, p, ps) && !ps.Push?
    requires TaskOf(PcOf(s.posters, p)) == t ==> HoldsAs(PcOf(s.posters, p), t, timed, d, r)
    ensures var pc := PcOf(PosterApply(s, p, ps).posters, p);
            TaskOf(pc) == t ==> HoldsAs(pc, t, timed, d, r)
  {
  }

  lemma FaithfulKeptByPush(s: State, p: nat, t: Task, timed: bool, d: int, r: int)
    requires Faithful(s, t, timed, d, r) && PosterEnabled(s, p, Push)
    ensures Faithful(PosterApply(s, p, Push), t, timed, d, r)
  {
    OtherPostersStay(s, p, Push);
    PushEffect(s, p);
  }

  lemma FaithfulKeptByGet(s: State, gs: GetStep, t: Task, timed: bool, d: int, r: int)
    requires Faithful(s, t, timed, d, r) && GetEnabled(s, gs) && !gs.Drain?
    ensures Faithful(GetApply(s, gs), t, timed, d, r)
  {
    GetFrame(s, gs);
    assert GetApply(s, gs).q.delayed == s.q.delayed && GetApply(s, gs).log.pushed == s.log.pushed;
  }

  lemma FaithfulKeptByDrain(s: State, due: seq<DelayedMessage>, rest: multiset<DelayedMessage>, gap: int,
                            t: Task, timed: bool, d: int, r: int)
    requires Faithful(s, t, timed, d, r) && GetEnabled(s, Drain(due, rest, gap))
    ensures Faithful(GetApply(s, Drain(due, rest, gap)), t, timed, d, r)
  {
    var s' := GetApply(s, Drain(due, rest, gap));
    forall x | 0 <= x < |s'.log.pushed| && ItemTask(s'.log.pushed[x]) == t
      ensures ItemAs(s'.log.pushed[x], timed, d, r)
    {
      if x >= |s.log.pushed| {
        DueComesFromHeap(s.q.delayed, s.get.msCurrent, due, rest, due[x - |s.log.pushed|]);
      }
    }
    forall m | m in s'.q.delayed && m.functor == t
      ensures timed && m.delayMs == d && m.runTimeMs == r
    {
      DueComesFromHeap(s.q.delayed, s.get.msCurrent, due, rest, m);
    }
  }

  lemma {:induction false} FaithfulFrom(states: seq<State>, labels: seq<Label>, k: nat, n: nat,
                                        t: Task, timed: bool, d: int, r: int)
    requires IsRun(states, labels) && k <= n <= |labels| && Faithful(states[k], t, timed, d, r)
    ensures Faithful(states[n], t, timed, d, r)
    decreases n - k
  {
    if k < n {
      var s, l := StepAt(states, labels, k);
      FaithfulKept(s, l, t, timed, d, r);
      FaithfulFrom(states, labels, k + 1, n, t, timed, d, r);
    }
  }

  lemma StampedIsFaithful(states: seq<State>, labels: seq<Label>, p: nat, timed: bool, d: int, a: nat, b: nat)
    requires IsWholeRun(states, labels) && StandsStill(labels, p, a, b) && b < |labels|
    requires labels[a] == ByThread(p, Test(timed, d)) && !states[a].stop && labels[b] == ByThread(p, Stamp)
    ensures Faithful(states[b + 1], Task(states[a].nextId), timed, d, Clock(states, b) + d)
  {
    StampedEntry(states, labels, p, timed, d, a, b);
    RunIsOk(states, labels, b + 1);
    var s, t := states[b + 1], Task(states[a].nextId);
    assert TaskOf(PcOf(s.posters, p)) == t;
  }

  /**
   A task posted with a delay by thread p is not dispatched before the clock at which its post computed the run time,
   and hence the clock at which it was posted, plus the delay, in any run. It never becomes an immediate task.
   */
  lemma DelayIsKept(states: seq<State>, labels: seq<Label>, p: nat, d: int, a: nat, b: nat, n: nat)
    requires IsWholeRun(states, labels) && StandsStill(labels, p, a, b) && b < n <= |labels|
    requires labels[a] == ByThread(p, Test(true, d)) && !states[a].stop && labels[b] == ByThread(p, Stamp)
    ensures var t := Task(states[a].nextId);
            && (t in states[n].log.dispatched || t in states[n].q.messages ==>
                  Clock(states, a) + d <= Clock(states, b) + d <= Clock(states, n))
            && t !in states[n].log.acceptedNow
  {
    var t := Task(states[a].nextId);
    StampedIsFaithful(states, labels, p, true, d, a, b);
    FaithfulFrom(states, labels, b + 1, n, t, true, d, Clock(states, b) + d);
    ClockGrows(states, labels, a, b);
    RunIsOk(states, labels, n);
    OutWasDue(states[n], t, d, Clock(states, b) + d);
  }

  lemma OutWasDue(s: State, t: Task, d: int, r: int)
    requires Conserved(s) && NeverEarly(s) && Faithful(s, t, true, d, r)
    ensures t in s.log.dispatched || t in s.q.messages ==> r <= Millis(s.now)
    ensures t !in s.log.acceptedNow
  {
    if t in s.log.dispatched {
      var x :| 0 <= x < |s.log.dispatched| && s.log.dispatched[x] == t;
      DispatchedIsPushed(s, x);
      assert s.log.pushed[x] in s.log.pushed;
    }
    if t in s.q.messages {
      var y := QueuedIsPushed(s, t);
      assert s.log.pushed[y] in s.log.pushed;
    }
    if t in s.log.acceptedNow {
      var i :| 0 <= i < |Immediates(s.log.pushed)| && Immediates(s.log.pushed)[i] == t;
      var x := ImmediateAt(s.log.pushed, i);
      assert false;
    }
  }

  lemma {:induction false} ClockGrows(states: seq<State>, labels: seq<Label>, k: nat, n: nat)
    requires IsRun(states, labels) && k <= n <= |labels|
    ensures Clock(states, k) <= Clock(states, n)
    decreases n - k
  {
    if k < n {
      var s, l := StepAt(states, labels, k);
      ClockStep(s, l);
      ClockGrows(states, labels, k + 1, n);
    }
  }

  lemma ClockStep(s: State, l: Label)
    requires Enabled(s, l)
    ensures Millis(s.now) <= Millis(Apply(s, l).now)
  {
    match l
    case ByThread(p, ps) => assert PosterApply(s, p, ps).now == s.now;
    case InGet(gs) => GetFrame(s, gs);
    case InWait(ws) => WaitFrame(s, ws);
    case InOnEvent(es) =>
    case Tick(ns) => ClockIsMonotone(s.now, ns);
    case SetStop(v) =>
  }
}
