/** The theorems about whole runs of the task loop. */
module LoopRuns {
  import opened DelayedMessages
  import opened TaskQueues
  import opened LoopModel
  import opened WakeupProtocol
  import opened TimerProtocol
  import opened LoopHistory
  import opened LoopOrder

  ghost predicate LoopOk(s: State) {
    && ProtocolOk(s)
    && Conserved(s) && DrainMarkOk(s) && NeverEarly(s) && NumbersOk(s)
    && UniqueOk(s) && KeysOrdered(s)
  }

  lemma LoopOkInitially(s: State)
    requires Init(s)
    ensures LoopOk(s)
  {
    ProtocolHoldsInitially(s);
    assert forall p :: PcOf(s.posters, p) == Idle;
  }

  lemma LoopOkKept(s: State, l: Label)
    requires LoopOk(s) && Enabled(s, l)
    ensures LoopOk(Apply(s, l))
  {
    ProtocolKept(s, l);
    ConservedKept(s, l);
    DrainMarkKept(s, l);
    NeverEarlyKept(s, l);
    NumbersKept(s, l);
    UniqueKept(s, l);
    KeysOrderedKept(s, l);
  }

  ghost predicate IsWholeRun(states: seq<State>, labels: seq<Label>) {
    IsRun(states, labels) && Init(states[0])
  }

  lemma {:induction false} RunIsOk(states: seq<State>, labels: seq<Label>, k: nat)
    requires IsWholeRun(states, labels) && k < |states|
    ensures LoopOk(states[k])
    decreases k
  {
    if k == 0 {
      LoopOkInitially(states[0]);
    } else {
      RunIsOk(states, labels, k - 1);
      LoopOkKept(states[k - 1], labels[k - 1]);
    }
  }

  // ----- waking up -----

  /** epoll_wait has no reason to return: no byte in the pipe, and its timeout has not passed. */
  predicate Blocked(s: State) {
    && s.pc == Poll
    && s.sig.pipe == 0
    && (s.wait.timeout < 0 || Millis(s.now) < s.wait.pollAt + s.wait.timeout)
  }

  /** Every poster that pushed has made sure of the wake-up byte. */
  ghost predicate PostersDone(s: State) {
    forall p :: !Announcing(PcOf(s.posters, p))
  }

  /** The loop never sleeps over a queued task, nor past a timer, nor past its budget. */
  lemma NeverBlockedWithWork(states: seq<State>, labels: seq<Label>, k: nat)
    requires IsWholeRun(states, labels) && k < |states|
    requires Blocked(states[k]) && PostersDone(states[k])
    ensures var s := states[k];
            && s.q.messages == []
            && (forall m :: m in s.q.delayed ==> 0 <= s.wait.timeout <= m.runTimeMs - s.get.msCurrent)
            && (s.wait.timeout < 0 ==> s.q.delayed == multiset{} && s.get.cmsWait == FOREVER)
            && (s.get.cmsWait != FOREVER ==>
                  0 <= s.wait.timeout &&
                  (s.wait.timeout <= s.get.cmsWait - (s.get.msCurrent - s.get.msStart) || s.wait.timeout == 0))
  {
    RunIsOk(states, labels, k);
    PollIsCovered(states[k]);
  }

  /** The pipe never holds more than one byte, and outside the critical sections it mirrors f_signaled_. */
  lemma SelfPipe(states: seq<State>, labels: seq<Label>, k: nat)
    requires IsWholeRun(states, labels) && k < |states|
    ensures var s := states[k];
            && s.sig.pipe <= 1
            && (s.sig.mutex == Free ==> (s.sig.pipe == 1 <==> s.sig.signaled))
            && (forall p :: PcOf(s.posters, p) == SigHeld && !s.sig.signaled ==> s.sig.pipe == 0)
            && (s.pc == SigOwned ==> s.sig.signaled && s.sig.pipe == 1)
  {
    RunIsOk(states, labels, k);
    var s := states[k];
    assert SignalerOk(s);
    assert forall p :: PcOf(s.posters, p) == SigWrote ==> OwnsSignaler(PcOf(s.posters, p));
    assert forall p :: PcOf(s.posters, p) == SigHeld ==> OwnsSignaler(PcOf(s.posters, p));
  }

  // ----- exactly once, in order, never early -----

  /** No task runs twice; what was pushed but has not run is in hand or queued, in push order. */
  lemma ExactlyOnce(states: seq<State>, labels: seq<Label>, k: nat)
    requires IsWholeRun(states, labels) && k < |states|
    ensures var s := states[k];
            && (forall x, y :: 0 <= x < y < |s.log.dispatched| ==> s.log.dispatched[x] != s.log.dispatched[y])
            && s.log.dispatched + Hand(s.pc) + s.q.messages == Erase(s.log.pushed)
            && Immediates(s.log.pushed) == s.log.acceptedNow
            && multiset(Timers(s.log.pushed)) + s.q.delayed == multiset(s.log.acceptedLater)
  {
    RunIsOk(states, labels, k);
    var s := states[k];
    forall x | 0 <= x < |s.log.dispatched|
      ensures s.log.dispatched[x] == ItemTask(s.log.pushed[x])
    {
      DispatchedIsPushed(s, x);
    }
  }

  lemma DispatchedIsPushed(s: State, x: nat)
    requires Conserved(s) && x < |s.log.dispatched|
    ensures x < |s.log.pushed| && s.log.dispatched[x] == ItemTask(s.log.pushed[x])
  {
    assert Erase(s.log.pushed)[x] == (s.log.dispatched + Hand(s.pc) + s.q.messages)[x];
  }

  /** A timer that was dispatched had come due by the clock. */
  lemma NeverDispatchedEarly(states: seq<State>, labels: seq<Label>, k: nat, x: nat)
    requires IsWholeRun(states, labels) && k < |states|
    requires x < |states[k].log.dispatched|
    ensures var s := states[k];
            && x < |s.log.pushed| && s.log.dispatched[x] == ItemTask(s.log.pushed[x])
            && (s.log.pushed[x].Timed? ==> s.log.pushed[x].msg.runTimeMs <= Millis(s.now))
  {
    RunIsOk(states, labels, k);
    DispatchedIsPushed(states[k], x);
    assert states[k].log.pushed[x] in states[k].log.pushed;
  }

  /** b's task has been dispatched only if a's was, earlier. */
  ghost predicate RunsFirst(s: State, a: Task, b: Task) {
    forall y :: 0 <= y < |s.log.dispatched| && s.log.dispatched[y] == b ==>
                  exists x :: 0 <= x < y && s.log.dispatched[x] == a
  }

  lemma PushedBeforeRunsFirst(s: State, i: Item, j: Item)
    requires Conserved(s) && UniqueOk(s)
    requires j in s.log.pushed ==>
               exists x, y :: 0 <= x < y < |s.log.pushed| && s.log.pushed[x] == i && s.log.pushed[y] == j
    requires forall k :: k in s.log.pushed && ItemTask(k) == ItemTask(j) ==> k == j
    ensures RunsFirst(s, ItemTask(i), ItemTask(j))
  {
    forall y | 0 <= y < |s.log.dispatched| && s.log.dispatched[y] == ItemTask(j)
      ensures exists x :: 0 <= x < y && s.log.dispatched[x] == ItemTask(i)
    {
      DispatchedIsPushed(s, y);
      assert s.log.pushed[y] in s.log.pushed;
      var x, y' :| 0 <= x < y' < |s.log.pushed| && s.log.pushed[x] == i && s.log.pushed[y'] == j;
      assert y == y';
      DispatchedIsPushed(s, x);
    }
  }

  /** Immediate tasks run in the order in which they were accepted. */
  lemma ImmediateTasksRunInOrder(states: seq<State>, labels: seq<Label>, k: nat, i: nat, j: nat)
    requires IsWholeRun(states, labels) && k < |states|
    requires i < j < |states[k].log.acceptedNow|
    ensures RunsFirst(states[k], states[k].log.acceptedNow[i], states[k].log.acceptedNow[j])
  {
    RunIsOk(states, labels, k);
    var s := states[k];
    var x, y := ImmediatesKeepOrder(s.log.pushed, i, j);
    forall e | e in s.log.pushed && ItemTask(e) == s.log.acceptedNow[j]
      ensures e == Immediate(s.log.acceptedNow[j])
    {
      var z :| 0 <= z < |s.log.pushed| && s.log.pushed[z] == e;
      assert z == y;
    }
    PushedBeforeRunsFirst(s, Immediate(s.log.acceptedNow[i]), Immediate(s.log.acceptedNow[j]));
  }

  lemma {:induction false} ImmediatesKeepOrder(items: seq<Item>, i: nat, j: nat) returns (x: nat, y: nat)
    requires i < j < |Immediates(items)|
    ensures x < y < |items|
    ensures items[x] == Immediate(Immediates(items)[i]) && items[y] == Immediate(Immediates(items)[j])
    decreases |items|
  {
    var rest := items[..|items| - 1];
    if j < |Immediates(rest)| {
      x, y := ImmediatesKeepOrder(rest, i, j);
    } else {
      y := |items| - 1;
      x := ImmediateAt(rest, i);
    }
  }

  lemma {:induction false} ImmediateAt(items: seq<Item>, i: nat) returns (x: nat)
    requires i < |Immediates(items)|
    ensures x < |items| && items[x] == Immediate(Immediates(items)[i])
    decreases |items|
  {
    var rest := items[..|items| - 1];
    if i < |Immediates(rest)| {
      x := ImmediateAt(rest, i);
    } else {
      x := |items| - 1;
    }
  }

  /** The message counter did not wrap between the i-th and the j-th accepted timer. */
  predicate SameLap(i: nat, j: nat) {
    (i + 1) / NUMBER_MODULUS == (j + 1) / NUMBER_MODULUS
  }

  /**
   A timer accepted earlier runs first if it is due earlier, however many were posted, or if it is due at the same
   time and the message numbers have not wrapped between the two.
   */
  lemma TimersRunInOrder(states: seq<State>, labels: seq<Label>, k: nat, i: nat, j: nat)
    requires IsWholeRun(states, labels) && k < |states| && i < j < |states[k].log.acceptedLater|
    requires var a, b := states[k].log.acceptedLater[i], states[k].log.acceptedLater[j];
             a.runTimeMs < b.runTimeMs || (a.runTimeMs == b.runTimeMs && SameLap(i, j))
    ensures RunsFirst(states[k], states[k].log.acceptedLater[i].functor, states[k].log.acceptedLater[j].functor)
  {
    RunIsOk(states, labels, k);
    var s := states[k];
    NumbersKeepOrderIff(s, i, j);
    TimersWithKeysRunFirst(s, s.log.acceptedLater[i], s.log.acceptedLater[j], i, j);
  }

  /** Of two accepted timers in the same lap of the counter the earlier one has the smaller number. */
  lemma NumbersKeepOrderIff(s: State, i: nat, j: nat)
    requires NumbersOk(s) && i < j < |s.log.acceptedLater|
    ensures SameLap(i, j) ==> s.log.acceptedLater[i].messageNumber < s.log.acceptedLater[j].messageNumber
    ensures j < i + NUMBER_MODULUS ==>
              s.log.acceptedLater[i].messageNumber != s.log.acceptedLater[j].messageNumber &&
              (s.log.acceptedLater[i].messageNumber < s.log.acceptedLater[j].messageNumber <==> SameLap(i, j))
  {
    NumbersOrderedUnlessWrapped(i, j);
  }

  lemma TimersWithKeysRunFirst(s: State, a: DelayedMessage, b: DelayedMessage, i: nat, j: nat)
    requires LoopOk(s) && i < j < |s.log.acceptedLater|
    requires a == s.log.acceptedLater[i] && b == s.log.acceptedLater[j] && Less(b, a)
    ensures RunsFirst(s, a.functor, b.functor)
  {
    assert OutFirst(s, a, b);
    OutFirstRunsFirst(s, a, b, j);
  }

  lemma OnlyItemOf(s: State, b: DelayedMessage)
    requires UniqueOk(s) && (b in s.q.delayed || Timed(b) in s.log.pushed)
    ensures forall e :: e in s.log.pushed && ItemTask(e) == b.functor ==> e == Timed(b)
  {
    if Timed(b) in s.log.pushed {
      var y :| 0 <= y < |s.log.pushed| && s.log.pushed[y] == Timed(b);
      forall z | 0 <= z < |s.log.pushed| && ItemTask(s.log.pushed[z]) == b.functor
        ensures z == y
      {
      }
    }
  }

  lemma OutFirstRunsFirst(s: State, a: DelayedMessage, b: DelayedMessage, j: nat)
    requires LoopOk(s) && j < |s.log.acceptedLater| && b == s.log.acceptedLater[j] && OutFirst(s, a, b)
    ensures RunsFirst(s, a.functor, b.functor)
  {
    AcceptedIsSomewhere(s, j);
    OnlyItemOf(s, b);
    PushedBeforeRunsFirst(s, Timed(a), Timed(b));
  }

  /** Two timers that are pending together run in the order of (run time, message number), wrapped or not. */
  lemma {:induction false} PendingTogetherRunInKeyOrder(states: seq<State>, labels: seq<Label>, k: nat, n: nat,
                                                        a: DelayedMessage, b: DelayedMessage)
    requires IsWholeRun(states, labels) && k <= n < |states|
    requires a in states[k].q.delayed && b in states[k].q.delayed && Less(b, a)
    ensures RunsFirst(states[n], a.functor, b.functor)
  {
    RunIsOk(states, labels, k);
    assert b in multiset(states[k].log.acceptedLater);
    var j :| 0 <= j < |states[k].log.acceptedLater| && states[k].log.acceptedLater[j] == b;
    PairStaysOrdered(states, labels, k, n, a, b, j);
    RunIsOk(states, labels, n);
    OutFirstRunsFirst(states[n], a, b, j);
  }

  lemma {:induction false} PairStaysOrdered(states: seq<State>, labels: seq<Label>, k: nat, n: nat,
                                            a: DelayedMessage, b: DelayedMessage, j: nat)
    requires IsWholeRun(states, labels) && k <= n < |states|
    requires a in states[k].q.delayed && b in states[k].q.delayed && Less(b, a)
    requires j < |states[k].log.acceptedLater| && states[k].log.acceptedLater[j] == b
    ensures PairOk(states[n], a, b)
    ensures j < |states[n].log.acceptedLater| && states[n].log.acceptedLater[j] == b
    decreases n
  {
    if n == k {
      RunIsOk(states, labels, k);
      PendingIsNotOut(states[k], b);
    } else {
      PairStaysOrdered(states, labels, k, n - 1, a, b, j);
      PairKept(states[n - 1], labels[n - 1], a, b);
      AcceptedOnlyGrows(states[n - 1], labels[n - 1]);
    }
  }

  lemma PendingIsNotOut(s: State, m: DelayedMessage)
    requires UniqueOk(s) && m in s.q.delayed
    ensures Timed(m) !in s.log.pushed
  {
    forall x | 0 <= x < |s.log.pushed|
      ensures s.log.pushed[x] != Timed(m)
    {
      assert ItemTask(s.log.pushed[x]) != m.functor;
    }
  }

  lemma AcceptedOnlyGrows(s: State, l: Label)
    requires Enabled(s, l)
    ensures s.log.acceptedLater <= Apply(s, l).log.acceptedLater
  {
    if !(l.InGet? && l.gs.Drain?) {
      OtherStepsPush(s, l);
    }
  }

  /** The numbers of two posts in the same lap are ordered, and those of posts fewer than 2^32 apart only then. */
  lemma NumbersOrderedUnlessWrapped(i: nat, j: nat)
    requires i < j
    ensures SameLap(i, j) ==> (i + 1) % NUMBER_MODULUS < (j + 1) % NUMBER_MODULUS
    ensures j < i + NUMBER_MODULUS ==>
              (i + 1) % NUMBER_MODULUS != (j + 1) % NUMBER_MODULUS &&
              ((i + 1) % NUMBER_MODULUS < (j + 1) % NUMBER_MODULUS <==> SameLap(i, j))
  {
  }

  /** The i-th and the j-th accepted timer are pending, for the same time. */
  ghost predicate PendingPair(s: State, i: nat, j: nat) {
    && i < |s.log.acceptedLater| && j < |s.log.acceptedLater|
    && s.log.acceptedLater[i] in s.q.delayed && s.log.acceptedLater[j] in s.q.delayed
    && s.log.acceptedLater[i].runTimeMs == s.log.acceptedLater[j].runTimeMs
  }

  /**
   Timers for the same time that are pending together, fewer than 2^32 posts apart, are dispatched in the order of
   posting if and only if the counter did not wrap between them; otherwise in the reverse order.
   */
  lemma EqualTimesFollowPostingIff(states: seq<State>, labels: seq<Label>, k: nat, n: nat, i: nat, j: nat)
    requires IsWholeRun(states, labels) && k <= n < |states|
    requires i < j < i + NUMBER_MODULUS && PendingPair(states[k], i, j)
    ensures var a, b := states[k].log.acceptedLater[i].functor, states[k].log.acceptedLater[j].functor;
            && (SameLap(i, j) ==> RunsFirst(states[n], a, b))
            && (!SameLap(i, j) ==> RunsFirst(states[n], b, a))
            && forall x, y :: 0 <= x < |states[n].log.dispatched| && 0 <= y < |states[n].log.dispatched| &&
                              states[n].log.dispatched[x] == a && states[n].log.dispatched[y] == b ==>
                                (x < y <==> SameLap(i, j))
  {
    var a, b := states[k].log.acceptedLater[i], states[k].log.acceptedLater[j];
    RunIsOk(states, labels, k);
    NumbersKeepOrderIff(states[k], i, j);
    if SameLap(i, j) {
      PendingTogetherRunInKeyOrder(states, labels, k, n, a, b);
    } else {
      PendingTogetherRunInKeyOrder(states, labels, k, n, b, a);
    }
    ExactlyOnce(states, labels, n);
  }
}
