/** Runs that exist: a post that had returned before Quit is stranded, and the message counter wraps. */
module LoopWitnesses {
  import opened DelayedMessages
  import opened TaskQueues
  import opened LoopModel
  import opened WakeupProtocol
  import opened TimerProtocol
  import opened LoopHistory
  import opened LoopOrder
  import opened LoopRuns
  import opened LoopQuit
  import opened LoopDrain
  import opened LoopEnd

  // ----- schedules -----

  /** A schedule is a run. */
  lemma {:induction false} ReachesIsRun(s: State, labels: seq<Label>, s': State) returns (states: seq<State>)
    requires Reaches(s, labels, s')
    ensures IsRun(states, labels) && states[0] == s && states[|labels|] == s'
    decreases |labels|
  {
    if labels == [] {
      states := [s];
    } else {
      var rest := ReachesIsRun(Apply(s, labels[0]), labels[1..], s');
      states := [s] + rest;
      forall i | 0 <= i < |labels|
        ensures Enabled(states[i], labels[i]) && states[i + 1] == Apply(states[i], labels[i])
      {
        if i > 0 {
          assert labels[i] == labels[1..][i - 1] && states[i] == rest[i - 1] && states[i + 1] == rest[i];
        }
      }
    }
  }

  // ----- one post, from its test to its return -----

  /** No thread is posting and nobody holds a mutex. */
  ghost predicate AtRest(s: State) {
    && (forall p :: PcOf(s.posters, p) == Idle)
    && s.mutex == Free && s.sig.mutex == Free
  }

  function Posted(q: Queues, timed: bool, t: Task, d: int, now: nat): Queues {
    if timed then WithTimer(q, t, d, Millis(now) + d) else WithTask(q, t)
  }

  /** Thread 0 posts while the loop stands where it stands; then it has returned. */
  lemma PostReturns(s: State, timed: bool, d: int) returns (labels: seq<Label>, s': State)
    requires AtRest(s) && !s.stop && IsInt32(d)
    ensures Reaches(s, labels, s') && AtRest(s') && s'.pc == s.pc && s'.stop == s.stop && s'.now == s.now
    ensures s'.log.dispatched == s.log.dispatched
    ensures s'.q == Posted(s.q, timed, Task(s.nextId), d, s.now) && s'.nextId == s.nextId + 1
    ensures timed ==> s'.log.acceptedLater ==
                        s.log.acceptedLater + [DelayedMessage(d, Millis(s.now) + d, s.q.nextNum, Task(s.nextId))]
  {
    var first, s1 := PostPushes(s, timed, d);
    var second, s2 := PostSignals(s1);
    ReachesJoins(s, first, s1, second, s2);
    labels, s' := first + second, s2;
    forall p ensures PcOf(s'.posters, p) == Idle {
      if p != 0 {
        assert PcOf(s.posters, p) == Idle;
      }
    }
  }

  /** What thread 0 is about to push. */
  function EntryOf(s: State, timed: bool, d: int): Entry {
    if timed then LaterEntry(Task(s.nextId), d, Millis(s.now) + d) else NowEntry(Task(s.nextId))
  }

  lemma PostPasses(s: State, timed: bool, d: int) returns (labels: seq<Label>, s': State)
    requires AtRest(s) && !s.stop && IsInt32(d)
    ensures Reaches(s, labels, s')
    ensures s' == s.(posters := s.posters[0 := Want(EntryOf(s, timed, d))], nextId := s.nextId + 1)
  {
    assert PcOf(s.posters, 0) == Idle;
    var l1, l2 := ByThread(0, Test(timed, d)), ByThread(0, Stamp);
    var s1 := Apply(s, l1);
    s' := Apply(s1, l2);
    assert s.posters[0 := Passed(Task(s.nextId), d, timed)][0 := Want(EntryOf(s, timed, d))] ==
           s.posters[0 := Want(EntryOf(s, timed, d))];
    assert Reaches(s', [], s');
    ReachesCons(s1, l2, [], s');
    ReachesCons(s, l1, [l2], s');
    labels := [l1] + [l2];
  }

  lemma WantPushes(s: State) returns (labels: seq<Label>, s': State)
    requires PcOf(s.posters, 0).Want? && s.mutex == Free
    ensures Reaches(s, labels, s')
    ensures s' == PushEntry(s, PcOf(s.posters, 0).entry).(posters := s.posters[0 := Announce])
  {
    var l1, l2, l3 := ByThread(0, Lock), ByThread(0, Push), ByThread(0, Unlock);
    var s1 := Apply(s, l1);
    var s2 := Apply(s1, l2);
    s' := Apply(s2, l3);
    assert s1.posters[0 := PushedHolding][0 := Announce] == s.posters[0 := Announce];
    assert Reaches(s', [], s');
    ReachesCons(s2, l3, [], s');
    ReachesCons(s1, l2, [l3], s');
    ReachesCons(s, l1, [l2] + [l3], s');
    labels := [l1] + ([l2] + [l3]);
  }

  lemma EntryEffect(s: State, s1: State, timed: bool, d: int)
    requires s1.q == s.q && s1.log == s.log && s1.now == s.now
    ensures var s' := PushEntry(s1, EntryOf(s, timed, d));
            && s'.q == Posted(s.q, timed, Task(s.nextId), d, s.now)
            && s'.log.dispatched == s.log.dispatched
            && (timed ==>
                  var m := DelayedMessage(d, Millis(s.now) + d, s.q.nextNum, Task(s.nextId));
                  s'.log.acceptedLater == s.log.acceptedLater + [m])
  {
  }

  lemma PostPushes(s: State, timed: bool, d: int) returns (labels: seq<Label>, s': State)
    requires AtRest(s) && !s.stop && IsInt32(d)
    ensures Reaches(s, labels, s') && s'.posters == s.posters[0 := Announce]
    ensures s'.pc == s.pc && s'.stop == s.stop && s'.now == s.now && s'.sig == s.sig && s'.mutex == Free
    ensures s'.q == Posted(s.q, timed, Task(s.nextId), d, s.now) && s'.nextId == s.nextId + 1
    ensures s'.log.dispatched == s.log.dispatched
    ensures timed ==> s'.log.acceptedLater ==
                        s.log.acceptedLater + [DelayedMessage(d, Millis(s.now) + d, s.q.nextNum, Task(s.nextId))]
  {
    var first, s1 := PostPasses(s, timed, d);
    var second, s2 := WantPushes(s1);
    ReachesJoins(s, first, s1, second, s2);
    EntryEffect(s, s1, timed, d);
    labels, s' := first + second, s2;
    assert s.posters[0 := Want(EntryOf(s, timed, d))][0 := Announce] == s.posters[0 := Announce];
  }

  lemma PostSignals(s: State) returns (labels: seq<Label>, s': State)
    requires PcOf(s.posters, 0) == Announce && s.sig.mutex == Free
    ensures Reaches(s, labels, s') && s'.posters == s.posters[0 := Idle] && s'.sig.mutex == Free
    ensures s'.pc == s.pc && s'.stop == s.stop && s'.now == s.now && s'.mutex == s.mutex
    ensures s'.q == s.q && s'.nextId == s.nextId && s'.log == s.log
  {
    var l1, l2, l3, l4 :=
      ByThread(0, LockSignaler), ByThread(0, Write), ByThread(0, SetSignaled), ByThread(0, UnlockSignaler);
    var s1 := Apply(s, l1);
    var s2 := Apply(s1, l2);
    var s3 := if s.sig.signaled then s2 else Apply(s2, l3);
    s' := Apply(s3, l4);
    assert Reaches(s', [], s');
    ReachesCons(s3, l4, [], s');
    labels := [l4];
    if !s.sig.signaled {
      ReachesCons(s2, l3, labels, s');
      labels := [l3] + labels;
    }
    ReachesCons(s1, l2, labels, s');
    labels := [l2] + labels;
    ReachesCons(s, l1, labels, s');
    labels := [l1] + labels;
  }

  // ----- a completed post is stranded -----

  /**
   PostTask(t) returns, nobody else posts, then Quit is called: with the loop between its release of the mutex and its
   IsQuitting test, t stays in the queue and the loop is over.
   */
  lemma CompletedPostMayBeStranded(s: State)
    requires Init(s) && !s.stop
    ensures exists before, s1, s2 ::
              && Reaches(s, before, s1) && AtRest(s1) && !s1.stop && s1.q.messages == [Task(0)]
              && Reaches(s1, [SetStop(true), InGet(TestQuit)], s2)
              && s2.pc == Out && s2.q.messages == [Task(0)] && s2.log.dispatched == []
  {
    var first, s0 := FirstCheck(s);
    assert AtRest(s0);
    var second, s1 := PostReturns(s0, false, 0);
    ReachesJoins(s, first, s0, second, s1);
    var quit, test := SetStop(true), InGet(TestQuit);
    var sq := Apply(s1, quit);
    var s2 := Apply(sq, test);
    assert Reaches(s2, [], s2);
    ReachesCons(sq, test, [], s2);
    ReachesCons(s1, quit, [test], s2);
    assert [quit] + [test] == [quit, test];
  }

  // ----- the counter wraps -----

  /** n timers with no delay, posted one after the other before the loop is started. */
  lemma {:induction false} ManyPosts(s: State, n: nat) returns (labels: seq<Label>, s': State)
    requires Init(s) && !s.stop
    ensures Reaches(s, labels, s') && AtRest(s') && !s'.stop && s'.pc == Out && s'.now == s.now
    ensures |s'.log.acceptedLater| == n
    ensures forall m :: m in s'.log.acceptedLater ==> m in s'.q.delayed && m.runTimeMs == Millis(s.now)
    decreases n
  {
    if n == 0 {
      labels, s' := [], s;
      assert forall p :: PcOf(s.posters, p) == Idle;
    } else {
      var first, s1 := ManyPosts(s, n - 1);
      var last, s2 := PostReturns(s1, true, 0);
      ReachesJoins(s, first, s1, last, s2);
      StillPending(s1, s2, 0, Task(s1.nextId), Millis(s.now));
      labels, s' := first + last, s2;
    }
  }

  /** One more timer for the time t. */
  lemma StillPending(s1: State, s2: State, d: int, task: Task, t: int)
    requires forall m :: m in s1.log.acceptedLater ==> m in s1.q.delayed && m.runTimeMs == t
    requires s2.q == WithTimer(s1.q, task, d, t)
    requires s2.log.acceptedLater == s1.log.acceptedLater + [DelayedMessage(d, t, s1.q.nextNum, task)]
    ensures |s2.log.acceptedLater| == |s1.log.acceptedLater| + 1
    ensures forall m :: m in s2.log.acceptedLater ==> m in s2.q.delayed && m.runTimeMs == t
  {
  }

  /** There is a run in which two timers for the same time are pending with the counter wrapped between them. */
  lemma WrapIsReachable(s: State) returns (labels: seq<Label>, s': State, i: nat, j: nat)
    requires Init(s) && !s.stop
    ensures Reaches(s, labels, s') && AtRest(s') && s'.pc == Out && !s'.stop
    ensures i < j < i + NUMBER_MODULUS && PendingPair(s', i, j) && !SameLap(i, j)
    ensures s'.log.acceptedLater[i].runTimeMs <= Millis(s'.now)
  {
    labels, s' := ManyPosts(s, NUMBER_MODULUS);
    i, j := NUMBER_MODULUS - 2, NUMBER_MODULUS - 1;
    assert s'.log.acceptedLater[i] in s'.log.acceptedLater && s'.log.acceptedLater[j] in s'.log.acceptedLater;
  }

  /** A loop started without a limit and told to quit runs until its test, and is over. */
  lemma RunsUntilTest(s: State) returns (s1: State, more: seq<Label>, s': State)
    requires AtRest(s) && s.pc == Out
    ensures Enabled(s, InGet(Start(FOREVER))) && s1 == Apply(s, InGet(Start(FOREVER)))
    ensures Reaches(s1, more, s') && s'.pc == Out && EndsAtTest(more)
  {
    s1 := Apply(s, InGet(Start(FOREVER)));
    var s2 := Apply(s1, SetStop(true));
    assert LocksOk(s2);
    var rest;
    rest, s' := QuittingLoopCanEnd(s2);
    ReachesCons(s1, SetStop(true), rest, s');
    EndsAtTestCons(SetStop(true), rest);
    more := [SetStop(true)] + rest;
  }

  /** In a run that goes on from state k until the first IsQuitting test, and then is over, what was due at k runs. */
  lemma DueAtStartRuns(states: seq<State>, labels: seq<Label>, k: nat, m: DelayedMessage)
    requires IsWholeRun(states, labels) && k < |labels| && EndsAtTest(labels[k..])
    requires states[|labels|].pc == Out && states[k].pc == Top
    requires m in states[k].q.delayed && m.runTimeMs <= states[k].get.msCurrent
    ensures m.functor in states[|labels|].log.dispatched
  {
    var n := |labels| - 1;
    assert labels[n] == labels[k..][n - k];
    forall j | k <= j < n
      ensures labels[j] != InGet(TestQuit)
    {
      assert labels[j] == labels[k..][j - k];
    }
    assert Enabled(states[n], labels[n]) && states[n + 1] == Apply(states[n], labels[n]);
    ReadingsGrow(states, labels, k, n);
    QuitDispatchesDueTimersIff(states, labels, k, n, m);
  }

  /** Get never reads the clock backwards. */
  lemma {:induction false} ReadingsGrow(states: seq<State>, labels: seq<Label>, k: nat, n: nat)
    requires IsWholeRun(states, labels) && k <= n < |states|
    ensures states[k].get.msCurrent <= states[n].get.msCurrent
    decreases n - k
  {
    if k < n {
      var s, l := StepOfRun(states, labels, k);
      ReadingGrows(s, l);
      ReadingsGrow(states, labels, k + 1, n);
    }
  }

  lemma ReadingGrows(s: State, l: Label)
    requires Enabled(s, l) && s.get.msCurrent <= Millis(s.now)
    ensures s.get.msCurrent <= Apply(s, l).get.msCurrent
  {
    if !l.InGet? {
      GetVarsStay(s, l);
    }
  }

  /** The counter does reverse timers: in some run, of two timers for the same time the later posted one runs first. */
  lemma WrapReversesARun(s: State) returns (states: seq<State>, labels: seq<Label>, i: nat, j: nat, x: nat, y: nat)
    requires Init(s) && !s.stop
    ensures IsWholeRun(states, labels) && states[0] == s
    ensures var log := states[|labels|].log;
            && i < j < |log.acceptedLater| && log.acceptedLater[i].runTimeMs == log.acceptedLater[j].runTimeMs
            && x < y < |log.dispatched|
            && log.dispatched[x] == log.acceptedLater[j].functor && log.dispatched[y] == log.acceptedLater[i].functor
  {
    var posts, s';
    posts, s', i, j := WrapIsReachable(s);
    var s1, more, s2 := RunsUntilTest(s');
    labels, states := OneRun(s, posts, s', InGet(Start(FOREVER)), more, s2);
    var k, n := |posts| + 1, |labels|;
    DueAtStartRuns(states, labels, k, s'.log.acceptedLater[i]);
    EqualTimesFollowPostingIff(states, labels, k, n, i, j);
    AcceptedStays(states, labels, k, n);
    y :| 0 <= y < |states[n].log.dispatched| && states[n].log.dispatched[y] == s'.log.acceptedLater[i].functor;
    x :| 0 <= x < y && states[n].log.dispatched[x] == s'.log.acceptedLater[j].functor;
  }

  lemma {:induction false} AcceptedStays(states: seq<State>, labels: seq<Label>, k: nat, n: nat)
    requires IsRun(states, labels) && k <= n < |states|
    ensures states[k].log.acceptedLater <= states[n].log.acceptedLater
    decreases n - k
  {
    if k < n {
      var s, l := StepAt(states, labels, k);
      AcceptedOnlyGrows(s, l);
      AcceptedStays(states, labels, k + 1, n);
    }
  }

  /** Two schedules and a step between them are one run. */
  lemma OneRun(s: State, first: seq<Label>, s1: State, l: Label, second: seq<Label>, s2: State)
    returns (labels: seq<Label>, states: seq<State>)
    requires Init(s) && Reaches(s, first, s1) && Enabled(s1, l) && Reaches(Apply(s1, l), second, s2)
    ensures IsWholeRun(states, labels) && labels == first + [l] + second
    ensures states[0] == s && states[|first| + 1] == Apply(s1, l) && states[|labels|] == s2
    ensures labels[|first| + 1..] == second
  {
    var before := ReachesIsRun(s, first, s1);
    var after := ReachesIsRun(Apply(s1, l), second, s2);
    labels := first + [l] + second;
    states := before + after;
    forall k | 0 <= k < |labels|
      ensures Enabled(states[k], labels[k]) && states[k + 1] == Apply(states[k], labels[k])
    {
      if k < |first| {
        assert labels[k] == first[k] && states[k] == before[k] && states[k + 1] == before[k + 1];
      } else if k > |first| {
        assert labels[k] == second[k - |first| - 1] && states[k] == after[k - |before|];
      }
    }
  }
}
