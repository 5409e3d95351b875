/** Every posted functor is in one place at a time, and timers leave the queue in the order of their keys. */
module LoopOrder {
  import opened DelayedMessages
  import opened TaskQueues
  import opened LoopModel
  import opened WakeupProtocol
  import opened LoopHistory

  // ----- one place at a time -----

  function TaskOf(pc: PosterPc): Task {
    match pc
    case Passed(t, _, _) => t
    case Want(e) => e.task
    case Holding(e) => e.task
    case _ => NoTask
  }

  predicate Known(t: Task, nextId: nat) {
    t.Task? && t.id < nextId
  }

  /** The functors still with their posters differ from each other and from all that were pushed. */
  ghost predicate PostersUnique(s: State) {
    && (forall p :: TaskOf(PcOf(s.posters, p)).Task? ==> Known(TaskOf(PcOf(s.posters, p)), s.nextId))
    && (forall p, q :: p != q && TaskOf(PcOf(s.posters, p)).Task? ==>
          TaskOf(PcOf(s.posters, p)) != TaskOf(PcOf(s.posters, q)))
    && (forall p, x :: 0 <= x < |s.log.pushed| && TaskOf(PcOf(s.posters, p)).Task? ==>
          TaskOf(PcOf(s.posters, p)) != ItemTask(s.log.pushed[x]))
    && (forall p, m :: m in s.q.delayed && TaskOf(PcOf(s.posters, p)).Task? ==>
          TaskOf(PcOf(s.posters, p)) != m.functor)
    && (forall p :: (PcOf(s.posters, p).Passed? || PcOf(s.posters, p).Want? || PcOf(s.posters, p).Holding?) ==>
          TaskOf(PcOf(s.posters, p)).Task?)
  }

  ghost predicate QueuesUnique(pushed: seq<Item>, delayed: multiset<DelayedMessage>, nextId: nat) {
    && (forall x :: 0 <= x < |pushed| ==> Known(ItemTask(pushed[x]), nextId))
    && (forall m :: m in delayed ==> Known(m.functor, nextId) && delayed[m] == 1)
    && (forall x, y :: 0 <= x < y < |pushed| ==> ItemTask(pushed[x]) != ItemTask(pushed[y]))
    && (forall x, m :: 0 <= x < |pushed| && m in delayed ==> ItemTask(pushed[x]) != m.functor)
    && (forall m, n :: m in delayed && n in delayed && m.functor == n.functor ==> m == n)
  }

  ghost predicate UniqueOk(s: State) {
    PostersUnique(s) && QueuesUnique(s.log.pushed, s.q.delayed, s.nextId)
  }

  lemma DueIsDistinct(heap: multiset<DelayedMessage>, now: int,
                      due: seq<DelayedMessage>, rest: multiset<DelayedMessage>, k: nat, l: nat)
    requires IsDrain(heap, now, due, rest) && k < l < |due|
    requires forall m :: m in heap ==> heap[m] == 1
    ensures due[k] in heap && due[l] in heap && due[k] != due[l] && due[k] !in rest
  {
    assert due[k] in multiset(due) && due[l] in multiset(due);
    if due[k] == due[l] {
      RepeatCountsTwice(due, k, l);
    }
  }

  lemma RepeatCountsTwice(due: seq<DelayedMessage>, k: nat, l: nat)
    requires k < l < |due| && due[k] == due[l]
    ensures multiset(due)[due[k]] >= 2
  {
    assert due == due[..l] + [due[l]] + due[l + 1..];
    assert due[k] == due[..l][k];
    assert due[k] in multiset(due[..l]);
  }

  lemma DueComesFromHeap(heap: multiset<DelayedMessage>, now: int,
                         due: seq<DelayedMessage>, rest: multiset<DelayedMessage>, m: DelayedMessage)
    requires IsDrain(heap, now, due, rest)
    ensures m in due || m in rest <==> m in heap
    ensures m in due ==> m !in rest
  {
    assert m in due <==> m in multiset(due);
    if m in due {
      assert m.runTimeMs <= now;
    }
  }

  lemma QueuesUniqueAfterDrain(pushed: seq<Item>, heap: multiset<DelayedMessage>, nextId: nat, now: int,
                               due: seq<DelayedMessage>, rest: multiset<DelayedMessage>)
    requires QueuesUnique(pushed, heap, nextId) && IsDrain(heap, now, due, rest)
    ensures QueuesUnique(pushed + TimedItems(due), rest, nextId)
  {
    var pushed' := pushed + TimedItems(due);
    forall m | m in rest ensures m in heap && rest[m] == 1 {
      assert heap[m] == multiset(due)[m] + rest[m];
    }
    forall k | 0 <= k < |due| ensures due[k] in heap && due[k] !in rest {
      DueComesFromHeap(heap, now, due, rest, due[k]);
    }
    forall x, y | 0 <= x < y < |pushed'|
      ensures ItemTask(pushed'[x]) != ItemTask(pushed'[y])
    {
      if |pushed| <= x {
        DueIsDistinct(heap, now, due, rest, x - |pushed|, y - |pushed|);
      }
    }
  }

  lemma UniqueKept(s: State, l: Label)
    requires UniqueOk(s) && Enabled(s, l)
    ensures UniqueOk(Apply(s, l))
  {
    var s' := Apply(s, l);
    if l.ByThread? {
      UniqueKeptByThread(s, l.p, l.ps);
    } else if l.InGet? {
      UniqueKeptByGet(s, l.gs);
    } else {
      QuietStep(s, l);
      assert s'.posters == s.posters && s'.nextId == s.nextId;
    }
  }

  lemma UniqueKeptByGet(s: State, gs: GetStep)
    requires UniqueOk(s) && GetEnabled(s, gs)
    ensures UniqueOk(GetApply(s, gs))
  {
    GetFrame(s, gs);
    if gs.Drain? {
      UniqueKeptByDrain(s, gs.due, gs.rest, gs.gap);
    } else {
      assert GetApply(s, gs).log.pushed == s.log.pushed && GetApply(s, gs).q.delayed == s.q.delayed;
    }
  }

  lemma UniqueKeptByDrain(s: State, due: seq<DelayedMessage>, rest: multiset<DelayedMessage>, gap: int)
    requires UniqueOk(s) && GetEnabled(s, Drain(due, rest, gap))
    ensures UniqueOk(GetApply(s, Drain(due, rest, gap)))
  {
    var s' := GetApply(s, Drain(due, rest, gap));
    QueuesUniqueAfterDrain(s.log.pushed, s.q.delayed, s.nextId, s.get.msCurrent, due, rest);
    forall p, m | m in rest && TaskOf(PcOf(s.posters, p)).Task?
      ensures TaskOf(PcOf(s.posters, p)) != m.functor
    {
      DueComesFromHeap(s.q.delayed, s.get.msCurrent, due, rest, m);
    }
    forall p, x | 0 <= x < |s'.log.pushed| && TaskOf(PcOf(s.posters, p)).Task?
      ensures TaskOf(PcOf(s.posters, p)) != ItemTask(s'.log.pushed[x])
    {
      if x >= |s.log.pushed| {
        DueComesFromHeap(s.q.delayed, s.get.msCurrent, due, rest, due[x - |s.log.pushed|]);
      }
    }
  }

  lemma UniqueKeptByThread(s: State, p: nat, ps: PosterStep)
    requires UniqueOk(s) && PosterEnabled(s, p, ps)
    ensures UniqueOk(PosterApply(s, p, ps))
  {
    if ps.Push? {
      match PcOf(s.posters, p).entry
      case NowEntry(t) => UniqueKeptByPushNow(s, p, t);
      case LaterEntry(t, d, r) => UniqueKeptByPushLater(s, p, t, d, r);
    } else {
      UniqueKeptByQuietStep(s, p, ps);
    }
  }

  lemma UniqueKeptByQuietStep(s: State, p: nat, ps: PosterStep)
    requires UniqueOk(s) && PosterEnabled(s, p, ps) && !ps.Push?
    ensures UniqueOk(PosterApply(s, p, ps))
  {
    QuietPosterStep(s, p, ps);
    OtherPostersStay(s, p, ps);
    HeldTaskStays(s, p, ps);
  }

  /** What a thread holds is what it held, or the next new task. */
  lemma HeldTaskStays(s: State, p: nat, ps: PosterStep)
    requires PosterEnabled(s, p, ps) && !ps.Push?
    ensures var s' := PosterApply(s, p, ps);
            var t, t' := TaskOf(PcOf(s.posters, p)), TaskOf(PcOf(s'.posters, p));
            s.nextId <= s'.nextId && (t' == t || !t'.Task? || (t' == Task(s.nextId) && s'.nextId == s.nextId + 1))
  {
  }

  lemma OtherPostersStay(s: State, p: nat, ps: PosterStep)
    requires PosterEnabled(s, p, ps)
    ensures forall q :: q != p ==> PcOf(PosterApply(s, p, ps).posters, q) == PcOf(s.posters, q)
  {
  }

  lemma UniqueKeptByPushNow(s: State, p: nat, t: Task)
    requires UniqueOk(s) && PcOf(s.posters, p) == Holding(NowEntry(t))
    ensures UniqueOk(PosterApply(s, p, Push))
  {
    var s' := PosterApply(s, p, Push);
    OtherPostersStay(s, p, Push);
    assert t == TaskOf(PcOf(s.posters, p));
    assert s'.log.pushed == s.log.pushed + [Immediate(t)] && s'.q.delayed == s.q.delayed;
    assert TaskOf(PcOf(s'.posters, p)) == NoTask;
  }

  lemma UniqueKeptByPushLater(s: State, p: nat, t: Task, d: int, r: int)
    requires UniqueOk(s) && PcOf(s.posters, p) == Holding(LaterEntry(t, d, r))
    ensures UniqueOk(PosterApply(s, p, Push))
  {
    var s' := PosterApply(s, p, Push);
    OtherPostersStay(s, p, Push);
    var m := DelayedMessage(d, r, s.q.nextNum, t);
    assert t == TaskOf(PcOf(s.posters, p));
    assert s'.log.pushed == s.log.pushed && s'.q.delayed == s.q.delayed + multiset{m};
    assert TaskOf(PcOf(s'.posters, p)) == NoTask;
    assert m !in s.q.delayed;
  }

  // ----- order -----

  /** a precedes b in the push history, hence in dispatch. */
  ghost predicate PushedBefore(pushed: seq<Item>, a: DelayedMessage, b: DelayedMessage) {
    exists x, y :: 0 <= x < y < |pushed| && pushed[x] == Timed(a) && pushed[y] == Timed(b)
  }

  /** Once b is out, so is a, and earlier. */
  ghost predicate OutFirst(s: State, a: DelayedMessage, b: DelayedMessage) {
    Timed(b) in s.log.pushed ==> PushedBefore(s.log.pushed, a, b)
  }

  /** Of two timers that both were accepted, the earlier posted one leaves first unless its key is not smaller. */
  ghost predicate KeysOrdered(s: State) {
    forall i, j :: 0 <= i < j < |s.log.acceptedLater| && Less(s.log.acceptedLater[j], s.log.acceptedLater[i]) ==>
                     OutFirst(s, s.log.acceptedLater[i], s.log.acceptedLater[j])
  }

  lemma PushedBeforeGrows(pushed: seq<Item>, more: seq<Item>, a: DelayedMessage, b: DelayedMessage)
    requires PushedBefore(pushed, a, b)
    ensures PushedBefore(pushed + more, a, b)
  {
    var x, y :| 0 <= x < y < |pushed| && pushed[x] == Timed(a) && pushed[y] == Timed(b);
    assert (pushed + more)[x] == Timed(a) && (pushed + more)[y] == Timed(b);
  }

  /** A drain that takes b takes a before it, or a was taken by an earlier drain. */
  lemma DrainKeepsOrder(pushed: seq<Item>, heap: multiset<DelayedMessage>, now: int, due: seq<DelayedMessage>,
                        rest: multiset<DelayedMessage>, a: DelayedMessage, b: DelayedMessage)
    requires IsDrain(heap, now, due, rest)
    requires Less(b, a)
    requires a in heap || Timed(a) in pushed
    requires Timed(b) in pushed ==> PushedBefore(pushed, a, b)
    ensures Timed(b) in pushed + TimedItems(due) ==> PushedBefore(pushed + TimedItems(due), a, b)
  {
    var pushed' := pushed + TimedItems(due);
    if Timed(b) in pushed {
      PushedBeforeGrows(pushed, TimedItems(due), a, b);
    } else if Timed(b) in pushed' {
      var y :| 0 <= y < |due| && due[y] == b;
      assert pushed'[|pushed| + y] == Timed(b);
      if Timed(a) in pushed {
        var x :| 0 <= x < |pushed| && pushed[x] == Timed(a);
        assert pushed'[x] == Timed(a);
      } else {
        DueComesFromHeap(heap, now, due, rest, a);
        assert b.runTimeMs <= now;
        var x :| 0 <= x < |due| && due[x] == a;
        assert x < y;
        assert pushed'[|pushed| + x] == Timed(a);
      }
    }
  }

  /** Two timers pending at once: the one with the smaller key leaves first, whatever happens next. */
  ghost predicate PairOk(s: State, a: DelayedMessage, b: DelayedMessage) {
    && (a in s.q.delayed || Timed(a) in s.log.pushed)
    && (b in s.q.delayed || Timed(b) in s.log.pushed)
    && OutFirst(s, a, b)
  }

  lemma PairKept(s: State, l: Label, a: DelayedMessage, b: DelayedMessage)
    requires Less(b, a) && PairOk(s, a, b) && Enabled(s, l)
    ensures PairOk(Apply(s, l), a, b)
  {
    var s' := Apply(s, l);
    if l.InGet? && l.gs.Drain? {
      DrainKeepsOrder(s.log.pushed, s.q.delayed, s.get.msCurrent, l.gs.due, l.gs.rest, a, b);
      DueComesFromHeap(s.q.delayed, s.get.msCurrent, l.gs.due, l.gs.rest, a);
      DueComesFromHeap(s.q.delayed, s.get.msCurrent, l.gs.due, l.gs.rest, b);
      DrainPushes(s.log.pushed, l.gs.due, a);
      DrainPushes(s.log.pushed, l.gs.due, b);
      assert s'.log.pushed == s.log.pushed + TimedItems(l.gs.due);
    } else {
      OtherStepsPush(s, l);
      if s'.log.pushed != s.log.pushed {
        var t :| s'.log.pushed == s.log.pushed + [Immediate(t)];
        if PushedBefore(s.log.pushed, a, b) {
          PushedBeforeGrows(s.log.pushed, [Immediate(t)], a, b);
        }
      }
    }
  }

  lemma DrainPushes(pushed: seq<Item>, due: seq<DelayedMessage>, m: DelayedMessage)
    ensures Timed(m) in pushed || m in due ==> Timed(m) in pushed + TimedItems(due)
  {
    if m in due {
      var k :| 0 <= k < |due| && due[k] == m;
      assert (pushed + TimedItems(due))[|pushed| + k] == Timed(m);
    }
  }

  /** Any other step pushes at most one immediate task and only adds to the timer queue. */
  lemma OtherStepsPush(s: State, l: Label)
    requires Enabled(s, l) && !(l.InGet? && l.gs.Drain?)
    ensures var s' := Apply(s, l);
            && (s'.log.pushed == s.log.pushed || exists t :: s'.log.pushed == s.log.pushed + [Immediate(t)])
            && s.q.delayed <= s'.q.delayed
            && (s'.log.acceptedLater == s.log.acceptedLater ||
                (l.ByThread? && l.ps.Push? && PcOf(s.posters, l.p).Holding? && PcOf(s.posters, l.p).entry.LaterEntry? &&
                 s'.log.pushed == s.log.pushed &&
                 exists m: DelayedMessage :: m.functor == TaskOf(PcOf(s.posters, l.p)) &&
                             s'.log.acceptedLater == s.log.acceptedLater + [m]))
  {
    if !l.InGet? && !(l.ByThread? && l.ps.Push?) {
      QuietStep(s, l);
    }
  }

  lemma KeysOrderedKept(s: State, l: Label)
    requires KeysOrdered(s) && UniqueOk(s) && Conserved(s) && Enabled(s, l)
    ensures KeysOrdered(Apply(s, l))
  {
    var accepted := Apply(s, l).log.acceptedLater;
    forall i, j | 0 <= i < j < |accepted| && Less(accepted[j], accepted[i])
      ensures OutFirst(Apply(s, l), accepted[i], accepted[j])
    {
      AnyPairOrdered(s, l, i, j);
    }
  }

  lemma AnyPairOrdered(s: State, l: Label, i: nat, j: nat)
    requires KeysOrdered(s) && UniqueOk(s) && Conserved(s) && Enabled(s, l)
    requires var accepted := Apply(s, l).log.acceptedLater; i < j < |accepted| && Less(accepted[j], accepted[i])
    ensures OutFirst(Apply(s, l), Apply(s, l).log.acceptedLater[i], Apply(s, l).log.acceptedLater[j])
  {
    if j < |s.log.acceptedLater| {
      AcceptedStays(s, l);
      OldPairKept(s, l, i, j);
    } else {
      NewPairOrdered(s, l, i, j);
    }
  }

  lemma AcceptedStays(s: State, l: Label)
    requires Enabled(s, l)
    ensures s.log.acceptedLater <= Apply(s, l).log.acceptedLater
  {
    if !(l.InGet? && l.gs.Drain?) {
      OtherStepsPush(s, l);
    }
  }

  lemma NewPairOrdered(s: State, l: Label, i: nat, j: nat)
    requires UniqueOk(s) && Enabled(s, l) && |s.log.acceptedLater| <= j < |Apply(s, l).log.acceptedLater| && i < j
    ensures OutFirst(Apply(s, l), Apply(s, l).log.acceptedLater[i], Apply(s, l).log.acceptedLater[j])
  {
    NewestIsPending(s, l);
  }

  lemma OldPairKept(s: State, l: Label, i: nat, j: nat)
    requires Conserved(s) && Enabled(s, l) && i < j < |s.log.acceptedLater|
    requires Less(s.log.acceptedLater[j], s.log.acceptedLater[i])
    requires KeysOrdered(s)
    ensures |s.log.acceptedLater| <= |Apply(s, l).log.acceptedLater|
    ensures Apply(s, l).log.acceptedLater[i] == s.log.acceptedLater[i]
    ensures Apply(s, l).log.acceptedLater[j] == s.log.acceptedLater[j]
    ensures OutFirst(Apply(s, l), s.log.acceptedLater[i], s.log.acceptedLater[j])
  {
    assert OutFirst(s, s.log.acceptedLater[i], s.log.acceptedLater[j]);
    AcceptedIsSomewhere(s, i);
    AcceptedIsSomewhere(s, j);
    PairKept(s, l, s.log.acceptedLater[i], s.log.acceptedLater[j]);
    if !(l.InGet? && l.gs.Drain?) {
      OtherStepsPush(s, l);
    }
  }

  lemma AcceptedIsSomewhere(s: State, k: nat)
    requires Conserved(s) && k < |s.log.acceptedLater|
    ensures s.log.acceptedLater[k] in s.q.delayed || Timed(s.log.acceptedLater[k]) in s.log.pushed
  {
    var m := s.log.acceptedLater[k];
    assert m in multiset(s.log.acceptedLater);
    assert m in multiset(Timers(s.log.pushed)) || m in s.q.delayed;
    assert m in multiset(Timers(s.log.pushed)) <==> m in Timers(s.log.pushed);
    TimersAreMembers(s.log.pushed, m);
  }

  /** A timer just accepted is not out yet. */
  lemma NewestIsPending(s: State, l: Label)
    requires UniqueOk(s) && Enabled(s, l)
    requires |Apply(s, l).log.acceptedLater| > |s.log.acceptedLater|
    ensures |Apply(s, l).log.acceptedLater| == |s.log.acceptedLater| + 1
    ensures Timed(Apply(s, l).log.acceptedLater[|s.log.acceptedLater|]) !in Apply(s, l).log.pushed
  {
    OtherStepsPush(s, l);
    var s' := Apply(s, l);
    var m: DelayedMessage :|
      && m.functor == TaskOf(PcOf(s.posters, l.p))
      && s'.log.acceptedLater == s.log.acceptedLater + [m];
  }
}
