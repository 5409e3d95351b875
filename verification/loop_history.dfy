/** Where every accepted task is, at every moment of a run, and in which order tasks are dispatched. */
module LoopHistory {
  import opened DelayedMessages
  import opened TaskQueues
  import opened LoopModel
  import opened WakeupProtocol
  import opened TimerProtocol

  // ----- the two kinds of items in the push history -----

  function Immediates(items: seq<Item>): (r: seq<Task>) {
    if items == [] then []
    else if items[|items| - 1].Immediate? then Immediates(items[..|items| - 1]) + [items[|items| - 1].task]
    else Immediates(items[..|items| - 1])
  }

  function Timers(items: seq<Item>): (r: seq<DelayedMessage>) {
    if items == [] then []
    else if items[|items| - 1].Timed? then Timers(items[..|items| - 1]) + [items[|items| - 1].msg]
    else Timers(items[..|items| - 1])
  }

  lemma KindsOfAppend(items: seq<Item>, i: Item)
    ensures Immediates(items + [i]) == if i.Immediate? then Immediates(items) + [i.task] else Immediates(items)
    ensures Timers(items + [i]) == if i.Timed? then Timers(items) + [i.msg] else Timers(items)
    ensures Erase(items + [i]) == Erase(items) + [ItemTask(i)]
  {
    assert (items + [i])[..|items|] == items;
  }

  lemma {:induction false} KindsOfDrain(items: seq<Item>, due: seq<DelayedMessage>)
    ensures Immediates(items + TimedItems(due)) == Immediates(items)
    ensures Timers(items + TimedItems(due)) == Timers(items) + due
    ensures Erase(items + TimedItems(due)) == Erase(items) + Functors(due)
    decreases |due|
  {
    if due == [] {
      assert items + TimedItems(due) == items;
      assert Erase(items) + Functors(due) == Erase(items);
      assert Timers(items) + due == Timers(items);
    } else {
      var rest, last := due[..|due| - 1], due[|due| - 1];
      assert due == rest + [last];
      KindsOfDrain(items, rest);
      KindsOfAppend(items + TimedItems(rest), Timed(last));
      FunctorsAppend(rest, last);
      assert items + TimedItems(due) == (items + TimedItems(rest)) + [Timed(last)];
      assert Timers(items) + due == (Timers(items) + rest) + [last];
      assert Erase(items) + Functors(due) == (Erase(items) + Functors(rest)) + [last.functor];
    }
  }

  lemma {:induction false} TimersAreMembers(items: seq<Item>, m: DelayedMessage)
    ensures m in Timers(items) <==> Timed(m) in items
    decreases |items|
  {
    if items != [] {
      var rest := items[..|items| - 1];
      TimersAreMembers(rest, m);
      assert items == rest + [items[|items| - 1]];
    }
  }

  // ----- conservation -----

  /** The task between messages_ and its dispatch. */
  function Hand(pc: LoopPc): seq<Task> {
    match pc
    case Popped(t) => [t]
    case Run(t) => [t]
    case _ => []
  }

  /** Every accepted task is dispatched, in hand, queued or pending, exactly as often as it was accepted. */
  ghost predicate Conserved(s: State) {
    && Erase(s.log.pushed) == s.log.dispatched + Hand(s.pc) + s.q.messages
    && Immediates(s.log.pushed) == s.log.acceptedNow
    && multiset(Timers(s.log.pushed)) + s.q.delayed == multiset(s.log.acceptedLater)
  }

  /** Outside Get and outside a push, neither queue, nor the task in hand, nor the history moves. */
  lemma QuietStep(s: State, l: Label)
    requires Enabled(s, l) && !l.InGet? && !(l.ByThread? && l.ps.Push?)
    ensures var s' := Apply(s, l);
            s'.q == s.q && s'.log == s.log && s'.marks == s.marks && Hand(s'.pc) == Hand(s.pc)
  {
    if l.ByThread? {
      QuietPosterStep(s, l.p, l.ps);
    } else if l.InWait? {
      WaitFrame(s, l.ws);
    }
  }

  lemma QuietPosterStep(s: State, p: nat, ps: PosterStep)
    requires PosterEnabled(s, p, ps) && !ps.Push?
    ensures var s' := PosterApply(s, p, ps);
            && s'.q == s.q && s'.log == s.log && s'.marks == s.marks && s'.pc == s.pc
            && s'.now == s.now && s'.stop == s.stop
  {
  }

  lemma ConservedKept(s: State, l: Label)
    requires Conserved(s) && Enabled(s, l)
    ensures Conserved(Apply(s, l))
  {
    if l.InGet? {
      ConservedKeptByGet(s, l.gs);
    } else if l.ByThread? && l.ps.Push? {
      ConservedKeptByPush(s, l.p);
    } else {
      QuietStep(s, l);
    }
  }

  lemma ConservedKeptByPush(s: State, p: nat)
    requires Conserved(s) && PosterEnabled(s, p, Push)
    ensures Conserved(PosterApply(s, p, Push))
  {
    var s' := PosterApply(s, p, Push);
    match PcOf(s.posters, p).entry
    case NowEntry(t) =>
      KindsOfAppend(s.log.pushed, Immediate(t));
      assert s'.log.pushed == s.log.pushed + [Immediate(t)];
      assert s'.q.messages == s.q.messages + [t];
    case LaterEntry(t, d, r) =>
      var m := DelayedMessage(d, r, s.q.nextNum, t);
      assert s'.log.acceptedLater == s.log.acceptedLater + [m];
      assert s'.q.delayed == s.q.delayed + multiset{m};
  }

  lemma ConservedKeptByGet(s: State, gs: GetStep)
    requires Conserved(s) && GetEnabled(s, gs)
    ensures Conserved(GetApply(s, gs))
  {
    match gs
    case Drain(due, rest, gap) => ConservedKeptByDrain(s, due, rest, gap);
    case Take => ConservedKeptByTake(s);
    case Dispatch => ConservedKeptByDispatch(s);
    case _ => QuietGetStep(s, gs);
  }

  /** The other steps of Get move no task. */
  lemma QuietGetStep(s: State, gs: GetStep)
    requires GetEnabled(s, gs) && !gs.Drain? && !gs.Take? && !gs.Dispatch?
    ensures var s' := GetApply(s, gs);
            s'.q == s.q && s'.log == s.log && Hand(s'.pc) == Hand(s.pc)
  {
  }

  lemma ConservedKeptByDispatch(s: State)
    requires Conserved(s) && GetEnabled(s, Dispatch)
    ensures Conserved(GetApply(s, Dispatch))
  {
  }

  lemma ConservedKeptByTake(s: State)
    requires Conserved(s) && GetEnabled(s, Take)
    ensures Conserved(GetApply(s, Take))
  {
    assert s.q.messages == [s.q.messages[0]] + s.q.messages[1..];
  }

  lemma ConservedKeptByDrain(s: State, due: seq<DelayedMessage>, rest: multiset<DelayedMessage>, gap: int)
    requires Conserved(s) && GetEnabled(s, Drain(due, rest, gap))
    ensures Conserved(GetApply(s, Drain(due, rest, gap)))
  {
    KindsOfDrain(s.log.pushed, due);
    MovedTimersBalance(Timers(s.log.pushed), due, rest, s.q.delayed, multiset(s.log.acceptedLater));
    MovedTasksBalance(Erase(s.log.pushed), s.log.dispatched, s.q.messages, Functors(due));
  }

  lemma MovedTimersBalance(moved: seq<DelayedMessage>, due: seq<DelayedMessage>, rest: multiset<DelayedMessage>,
                           delayed: multiset<DelayedMessage>, accepted: multiset<DelayedMessage>)
    requires multiset(due) + rest == delayed && multiset(moved) + delayed == accepted
    ensures multiset(moved + due) + rest == accepted
  {
  }

  lemma MovedTasksBalance(pushed: seq<Task>, dispatched: seq<Task>, queued: seq<Task>, more: seq<Task>)
    requires pushed == dispatched + [] + queued
    ensures pushed + more == dispatched + [] + (queued + more)
  {
  }

  // ----- dispatch and the last drain -----

  ghost predicate DrainMarkOk(s: State) {
    && s.marks.drained <= |s.log.pushed|
    && (s.pc.Drained? ==> s.marks.drained == |s.log.pushed| && !s.marks.sinceDrain)
    && (AfterRelease(s.pc) ==> |s.log.dispatched| == s.marks.drained)
  }

  lemma DrainMarkKept(s: State, l: Label)
    requires DrainMarkOk(s) && Conserved(s) && LocksOk(s) && Enabled(s, l)
    ensures DrainMarkOk(Apply(s, l))
  {
    if l.InGet? {
      DrainMarkKeptByGet(s, l.gs);
    } else if l.ByThread? && l.ps.Push? {
      assert OwnsQueue(PcOf(s.posters, l.p)) <==> s.mutex == ByPoster(l.p);
    } else {
      QuietStep(s, l);
      assert Apply(s, l).pc.Drained? ==> s.pc.Drained?;
      assert AfterRelease(Apply(s, l).pc) ==> AfterRelease(s.pc);
    }
  }

  lemma DrainMarkKeptByGet(s: State, gs: GetStep)
    requires DrainMarkOk(s) && Conserved(s) && GetEnabled(s, gs)
    ensures DrainMarkOk(GetApply(s, gs))
  {
    if gs.Drain? {
      DrainMarkKeptByDrain(s, gs.due, gs.rest, gs.gap);
    } else if s.pc == Drained && s.q.messages == [] {
      assert |Erase(s.log.pushed)| == |s.log.dispatched|;
    }
  }

  lemma DrainMarkKeptByDrain(s: State, due: seq<DelayedMessage>, rest: multiset<DelayedMessage>, gap: int)
    requires DrainMarkOk(s) && GetEnabled(s, Drain(due, rest, gap))
    ensures DrainMarkOk(GetApply(s, Drain(due, rest, gap)))
  {
  }

  // ----- never early -----

  ghost predicate NeverEarly(s: State) {
    forall m :: Timed(m) in s.log.pushed ==> m.runTimeMs <= Millis(s.now)
  }

  lemma NeverEarlyKept(s: State, l: Label)
    requires NeverEarly(s) && s.get.msCurrent <= Millis(s.now) && Enabled(s, l)
    ensures NeverEarly(Apply(s, l))
  {
    var s' := Apply(s, l);
    assert Millis(s.now) <= Millis(s'.now) by {
      if l.Tick? {
        ClockIsMonotone(s.now, l.ns);
      }
    }
    if l.InGet? && l.gs.Drain? {
      assert s'.log.pushed == s.log.pushed + TimedItems(l.gs.due);
    } else if l.InGet? || (l.ByThread? && l.ps.Push?) {
      assert s'.log.pushed == s.log.pushed || (exists t :: s'.log.pushed == s.log.pushed + [Immediate(t)]);
    } else {
      QuietStep(s, l);
    }
  }

  // ----- message numbers -----

  /** Timers are numbered in the order of their acceptance, modulo the width of the counter. */
  ghost predicate NumbersOk(s: State) {
    && s.q.nextNum == (|s.log.acceptedLater| + 1) % NUMBER_MODULUS
    && forall k :: 0 <= k < |s.log.acceptedLater| ==>
         s.log.acceptedLater[k].messageNumber == (k + 1) % NUMBER_MODULUS
  }

  lemma NextNumber(n: nat)
    ensures (n % NUMBER_MODULUS + 1) % NUMBER_MODULUS == (n + 1) % NUMBER_MODULUS
  {
  }

  lemma NumbersKept(s: State, l: Label)
    requires NumbersOk(s) && Enabled(s, l)
    ensures NumbersOk(Apply(s, l))
  {
    if l.ByThread? && l.ps.Push? {
      NextNumber(|s.log.acceptedLater| + 1);
    } else if l.InGet? {
      var s' := GetApply(s, l.gs);
      assert s'.q.nextNum == s.q.nextNum && s'.log.acceptedLater == s.log.acceptedLater;
    } else {
      QuietStep(s, l);
    }
  }
}
