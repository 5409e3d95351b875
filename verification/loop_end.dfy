/** A quitting loop does end: it is never stuck, so every run that cannot go on has left ProcessMessages. */
module LoopEnd {
  import opened DelayedMessages
  import opened TaskQueues
  import opened LoopModel
  import opened WakeupProtocol
  import opened LoopHistory
  import opened LoopQuit

  // ----- a drain can always be done -----

  lemma {:induction false} EarliestExists(heap: multiset<DelayedMessage>) returns (m: DelayedMessage)
    requires heap != multiset{}
    ensures IsEarliest(m, heap)
    decreases |heap|
  {
    var any :| any in heap;
    var rest := heap - multiset{any};
    assert forall x :: x in heap ==> x == any || x in rest;
    m := any;
    if rest != multiset{} {
      var e := EarliestExists(rest);
      m := if NoLater(any, e) then any else e;
      forall x | x in heap
        ensures NoLater(m, x)
      {
        NoLaterIsTotalPreorder(any, e, x);
        NoLaterIsTotalPreorder(e, any, x);
      }
    }
  }

  /** Whatever is pending and whatever the clock shows, there is something ProcessDelayedMessage does. */
  lemma {:induction false} DrainExists(heap: multiset<DelayedMessage>, now: int)
    returns (due: seq<DelayedMessage>, rest: multiset<DelayedMessage>, gap: int)
    ensures IsDrain(heap, now, due, rest) && IsGap(rest, now, gap)
    decreases |heap|
  {
    if heap == multiset{} {
      due, rest, gap := [], heap, FOREVER;
    } else {
      var m := EarliestExists(heap);
      if now < m.runTimeMs {
        due, rest, gap := [], heap, m.runTimeMs - now;
        LaterOnly(heap, m, now);
      } else {
        var later;
        later, rest, gap := DrainExists(heap - multiset{m}, now);
        due := [m] + later;
        FirstOfDrain(heap, m, now, later, rest);
      }
    }
  }

  lemma LaterOnly(heap: multiset<DelayedMessage>, m: DelayedMessage, now: int)
    requires IsEarliest(m, heap) && now < m.runTimeMs
    ensures IsDrain(heap, now, [], heap) && IsGap(heap, now, m.runTimeMs - now)
  {
    forall x | x in heap
      ensures m.runTimeMs <= x.runTimeMs
    {
      assert NoLater(m, x);
    }
  }

  lemma FirstOfDrain(heap: multiset<DelayedMessage>, m: DelayedMessage, now: int,
                     later: seq<DelayedMessage>, rest: multiset<DelayedMessage>)
    requires IsEarliest(m, heap) && m.runTimeMs <= now && IsDrain(heap - multiset{m}, now, later, rest)
    ensures IsDrain(heap, now, [m] + later, rest)
  {
    assert heap == multiset{m} + (heap - multiset{m});
    forall i | 0 <= i < |later|
      ensures NoLater(m, later[i])
    {
      assert later[i] in multiset(later);
      assert later[i] in heap;
    }
  }

  // ----- an awake loop can step -----

  /** A poster that holds the queue mutex and can go on. */
  predicate CanRelease(s: State, p: nat) {
    PosterEnabled(s, p, Push) || PosterEnabled(s, p, Unlock)
  }

  /** The loop itself can take a step, other than being started. */
  ghost predicate LoopCanStep(s: State) {
    exists gs: GetStep :: !gs.Start? && GetEnabled(s, gs)
  }

  /** An awake loop can step, unless it waits for a poster to leave the queue mutex, and that poster can. */
  lemma AwakeCanStep(s: State)
    requires LocksOk(s) && Awake(s.pc)
    ensures LoopCanStep(s) || (s.pc == Top && exists p :: s.mutex == ByPoster(p) && CanRelease(s, p))
  {
    match s.pc
    case Top =>
      if s.mutex == Free {
        assert GetEnabled(s, LockQueue);
      } else {
        assert s.mutex.ByPoster?;
        assert OwnsQueue(PcOf(s.posters, s.mutex.p));
        assert CanRelease(s, s.mutex.p);
      }
    case Locked =>
      var due, rest, gap := DrainExists(s.q.delayed, s.get.msCurrent);
      assert GetEnabled(s, Drain(due, rest, gap));
    case Drained =>
      assert GetEnabled(s, Take) || GetEnabled(s, Release);
    case Popped(_) => assert GetEnabled(s, Release);
    case Run(_) => assert GetEnabled(s, Dispatch);
    case Ran => assert GetEnabled(s, Next);
    case Released => assert GetEnabled(s, TestQuit);
    case Woke => assert GetEnabled(s, Return);
  }

  /**
   Together with the bound of QuittingLoopTerminates: a run of a quitting loop that cannot be continued, by the loop
   or by a poster that holds up the queue mutex, has ended in the return of ProcessMessages.
   */
  lemma MaximalQuittingRunEnds(states: seq<State>, labels: seq<Label>)
    requires IsRun(states, labels) && LocksOk(states[0])
    requires forall k :: 0 <= k < |states| ==> states[k].stop
    requires forall k :: 0 <= k < |labels| ==> !(labels[k].InGet? && labels[k].gs.Start?)
    requires Awake(states[0].pc) || states[0].pc == Out
    requires !LoopCanStep(states[|labels|]) && forall p :: !CanRelease(states[|labels|], p)
    ensures states[|labels|].pc == Out
  {
    QuittingLoopTerminates(states, labels);
    LocksInRun(states, labels, |labels|);
    if Awake(states[|labels|].pc) {
      AwakeCanStep(states[|labels|]);
    }
  }

  lemma {:induction false} LocksInRun(states: seq<State>, labels: seq<Label>, n: nat)
    requires IsRun(states, labels) && LocksOk(states[0]) && n < |states|
    ensures LocksOk(states[n])
    decreases n
  {
    if n > 0 {
      LocksInRun(states, labels, n - 1);
      LocksKept(states[n - 1], labels[n - 1]);
    }
  }

  // ----- a schedule that ends -----

  /** How many steps of its owner the queue mutex is away from being free. */
  function Hold(s: State): nat {
    match s.mutex
    case ByPoster(p) => if PcOf(s.posters, p).Holding? then 2 else 1
    case _ => 0
  }

  /** The last label, and no other, is the loop's IsQuitting test. */
  predicate EndsAtTest(labels: seq<Label>) {
    && labels != [] && labels[|labels| - 1] == InGet(TestQuit)
    && forall j :: 0 <= j < |labels| - 1 ==> labels[j] != InGet(TestQuit)
  }

  lemma EndsAtTestCons(l: Label, more: seq<Label>)
    requires l != InGet(TestQuit) && EndsAtTest(more)
    ensures EndsAtTest([l] + more)
  {
  }

  /** Without a time limit, and with nothing to return from, only the test ends a quitting loop. */
  lemma OnlyTestEnds(s: State, gs: GetStep)
    requires s.stop && GetEnabled(s, gs) && !gs.Start? && s.get.cms == FOREVER && s.pc != Woke
    ensures var s' := GetApply(s, gs); s'.get.cms == FOREVER && s'.pc != Woke && (s'.pc == Out <==> gs == TestQuit)
  {
  }

  /** From every moment of a quitting, awake loop its own steps, and those of posters in its way, lead to its end. */
  lemma {:induction false} QuittingLoopCanEnd(s: State) returns (labels: seq<Label>, s': State)
    requires LocksOk(s) && s.stop && (Awake(s.pc) || s.pc == Out)
    ensures Reaches(s, labels, s') && s'.pc == Out
    ensures forall l :: l in labels ==> l.InGet? || (l.ByThread? && (l.ps.Push? || l.ps.Unlock?))
    ensures s.pc == Out ==> labels == []
    ensures s.get.cms == FOREVER && s.pc != Woke && s.pc != Out ==> EndsAtTest(labels)
    decreases Rank(s), Hold(s)
  {
    if s.pc == Out {
      labels, s' := [], s;
    } else {
      AwakeCanStep(s);
      if LoopCanStep(s) {
        var gs: GetStep :| !gs.Start? && GetEnabled(s, gs);
        QuittingLoopDescends(s, gs);
        LocksKeptByGet(s, gs);
        GetFrame(s, gs);
        var more;
        more, s' := QuittingLoopCanEnd(GetApply(s, gs));
        ReachesCons(s, InGet(gs), more, s');
        labels := [InGet(gs)] + more;
        if s.get.cms == FOREVER && s.pc != Woke {
          OnlyTestEnds(s, gs);
          if gs != TestQuit {
            EndsAtTestCons(InGet(gs), more);
          }
        }
      } else {
        var p :| s.mutex == ByPoster(p) && CanRelease(s, p);
        var ps := if PosterEnabled(s, p, Push) then Push else Unlock;
        LocksKeptByThread(s, p, ps);
        LoadKeptByThread(s, p, ps);
        ReleaseAdvances(s, p, ps);
        var more;
        more, s' := QuittingLoopCanEnd(PosterApply(s, p, ps));
        ReachesCons(s, ByThread(p, ps), more, s');
        labels := [ByThread(p, ps)] + more;
      }
    }
  }

  lemma ReleaseAdvances(s: State, p: nat, ps: PosterStep)
    requires s.mutex == ByPoster(p) && (ps == Push || ps == Unlock) && PosterEnabled(s, p, ps)
    ensures var s' := PosterApply(s, p, ps);
            Hold(s') < Hold(s) && s'.stop == s.stop && s'.pc == s.pc && s'.get == s.get
  {
  }
}
