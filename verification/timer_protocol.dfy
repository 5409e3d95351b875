/** The timeout the loop sleeps with covers every timer and every task it has not been woken for. */
module TimerProtocol {
  import opened DelayedMessages
  import opened TaskQueues
  import opened LoopModel
  import opened WakeupProtocol

  // ----- timers and clock readings -----

  /** When a delayed message was posted, by the clock. */
  function PostedAt(m: DelayedMessage): int {
    m.runTimeMs - m.delayMs
  }

  ghost predicate StampsOk(s: State) {
    && s.get.msCurrent <= Millis(s.now)
    && (forall m :: m in s.q.delayed ==> IsInt32(m.delayMs) && PostedAt(m) <= Millis(s.now))
    // a timer stamped after the loop's clock reading was pushed after it
    && (forall m :: m in s.q.delayed && s.get.msCurrent < PostedAt(m) ==> s.marks.sinceRead)
  }

  predicate StampOk(pc: PosterPc, now: nat) {
    match pc
    case Passed(_, d, _) => IsInt32(d)
    case Want(LaterEntry(_, d, r)) => IsInt32(d) && r - d <= Millis(now)
    case Holding(LaterEntry(_, d, r)) => IsInt32(d) && r - d <= Millis(now)
    case _ => true
  }

  ghost predicate PostersStampsOk(s: State) {
    forall p :: StampOk(PcOf(s.posters, p), s.now)
  }

  lemma ClockIsMonotone(now: nat, ns: nat)
    ensures Millis(now) <= Millis(now + ns)
    ensures Millis(now) <= Micros(now)
  {
  }

  lemma StampsKept(s: State, l: Label)
    requires StampsOk(s) && PostersStampsOk(s) && Enabled(s, l)
    ensures StampsOk(Apply(s, l)) && PostersStampsOk(Apply(s, l))
  {
    match l
    case ByThread(p, ps) => StampsKeptByThread(s, p, ps);
    case InGet(gs) => StampsKeptByGet(s, gs);
    case InWait(ws) =>
      WaitFrame(s, ws);
      assert WaitApply(s, ws).get == s.get;
    case InOnEvent(es) =>
    case Tick(ns) =>
      ClockIsMonotone(s.now, ns);
      forall p ensures StampOk(PcOf(s.posters, p), s.now + ns) {
        assert StampOk(PcOf(s.posters, p), s.now);
      }
    case SetStop(v) =>
  }

  lemma StampsKeptByThread(s: State, p: nat, ps: PosterStep)
    requires StampsOk(s) && PostersStampsOk(s) && PosterEnabled(s, p, ps)
    ensures StampsOk(PosterApply(s, p, ps)) && PostersStampsOk(PosterApply(s, p, ps))
  {
    var s' := PosterApply(s, p, ps);
    assert StampOk(PcOf(s.posters, p), s.now);
    assert StampOk(PcOf(s'.posters, p), s.now);
    forall q ensures StampOk(PcOf(s'.posters, q), s'.now) {
      if q != p {
        assert PcOf(s'.posters, q) == PcOf(s.posters, q);
        assert StampOk(PcOf(s.posters, q), s.now);
      }
    }
  }

  lemma StampsKeptByGet(s: State, gs: GetStep)
    requires StampsOk(s) && PostersStampsOk(s) && GetEnabled(s, gs)
    ensures StampsOk(GetApply(s, gs)) && PostersStampsOk(GetApply(s, gs))
  {
    GetFrame(s, gs);
    var s' := GetApply(s, gs);
    if gs.Drain? {
      forall m | m in s'.q.delayed ensures m in s.q.delayed {}
    }
  }

  // ----- what the last drain left behind -----

  predicate AfterDrain(pc: LoopPc) {
    pc.Drained? || AfterRelease(pc)
  }

  predicate AfterRelease(pc: LoopPc) {
    pc.Released? || pc.Arm? || pc.Raise? || InEpoll(pc)
  }

  predicate InEpoll(pc: LoopPc) {
    pc.LoopTest? || pc.Poll? || pc.Batch? || LoopOwnsSignaler(pc) || pc.Recalc?
  }

  ghost predicate CoverOk(s: State) {
    && (AfterDrain(s.pc) && s.marks.sinceDrain ==> s.marks.sinceRead)
    && (AfterDrain(s.pc) && !s.marks.sinceDrain ==> IsGap(s.q.delayed, s.get.msCurrent, s.get.gap))
    && (AfterRelease(s.pc) && !s.marks.sinceDrain ==> s.q.messages == [])
  }

  lemma CoverKept(s: State, l: Label)
    requires LocksOk(s) && CoverOk(s) && Enabled(s, l)
    ensures CoverOk(Apply(s, l))
  {
    match l
    case ByThread(p, ps) => CoverKeptByThread(s, p, ps);
    case InGet(gs) => CoverKeptByGet(s, gs);
    case InWait(ws) =>
      WaitFrame(s, ws);
      assert WaitApply(s, ws).get == s.get;
    case InOnEvent(es) =>
    case Tick(ns) =>
    case SetStop(v) =>
  }

  lemma CoverKeptByThread(s: State, p: nat, ps: PosterStep)
    requires LocksOk(s) && CoverOk(s) && PosterEnabled(s, p, ps)
    ensures CoverOk(PosterApply(s, p, ps))
  {
    var s' := PosterApply(s, p, ps);
    if !ps.Push? {
      assert s'.q == s.q && s'.pc == s.pc && s'.marks == s.marks && s'.get == s.get;
    } else {
      assert OwnsQueue(PcOf(s.posters, p)) <==> s.mutex == ByPoster(p);
      assert s'.pc == s.pc && s'.marks.sinceRead && s'.marks.sinceDrain;
    }
  }

  lemma CoverKeptByGet(s: State, gs: GetStep)
    requires CoverOk(s) && GetEnabled(s, gs)
    ensures CoverOk(GetApply(s, gs))
  {
    if gs.Drain? {
      CoverAfterDrain(s, gs);
    } else if AfterDrain(GetApply(s, gs).pc) {
      CoverStays(s, gs);
    }
  }

  lemma CoverAfterDrain(s: State, gs: GetStep)
    requires GetEnabled(s, gs) && gs.Drain?
    ensures CoverOk(GetApply(s, gs))
  {
  }

  lemma CoverStays(s: State, gs: GetStep)
    requires GetEnabled(s, gs) && !gs.Drain? && AfterDrain(GetApply(s, gs).pc)
    ensures var s' := GetApply(s, gs);
            && AfterDrain(s.pc) && s'.q == s.q && s'.get == s.get && s'.marks == s.marks
            && (AfterRelease(s.pc) || s.q.messages == [])
  {
  }

  // ----- the timeout -----

  ghost predicate BudgetOk(s: State) {
    && (s.pc != Out ==> IsInt32(s.get.cmsWait) && s.get.msStart <= s.get.msCurrent)
    && (s.pc.Arm? || s.pc.Raise? || InEpoll(s.pc) ==>
          s.wait.cmsNext == WaitTimeout(s.get.cmsWait, s.get.msCurrent - s.get.msStart, s.get.gap))
  }

  ghost predicate ArmedOk(s: State) {
    && (s.pc.Raise? || InEpoll(s.pc) ==>
          && s.wait.waitArg == ToInt32(s.wait.cmsNext)
          && (s.wait.waitArg != FOREVER ==> s.wait.msStop <= Millis(s.now) + s.wait.waitArg)
          && (s.wait.msWait == s.wait.waitArg || 0 < s.wait.msWait <= s.wait.waitArg))
    && (InEpoll(s.pc) && !s.pc.LoopTest? ==> s.wait.timeout == ToInt32(s.wait.msWait))
  }

  lemma BudgetKept(s: State, l: Label)
    requires BudgetOk(s) && s.get.msCurrent <= Millis(s.now) && Enabled(s, l)
    ensures BudgetOk(Apply(s, l))
  {
    match l
    case ByThread(p, ps) => PostersLeaveBudget(s, p, ps);
    case InGet(gs) => BudgetKeptByGet(s, gs);
    case InWait(ws) => assert WaitApply(s, ws).get == s.get;
    case InOnEvent(es) =>
    case Tick(ns) =>
    case SetStop(v) =>
  }

  lemma PostersLeaveBudget(s: State, p: nat, ps: PosterStep)
    requires PosterEnabled(s, p, ps)
    ensures var s' := PosterApply(s, p, ps); s'.pc == s.pc && s'.get == s.get && s'.wait == s.wait
  {
  }

  lemma BudgetKeptByGet(s: State, gs: GetStep)
    requires BudgetOk(s) && s.get.msCurrent <= Millis(s.now) && GetEnabled(s, gs)
    ensures BudgetOk(GetApply(s, gs))
  {
  }

  lemma ArmedKept(s: State, l: Label)
    requires ArmedOk(s) && Enabled(s, l)
    ensures ArmedOk(Apply(s, l))
  {
    match l
    case ByThread(p, ps) =>
      var s' := PosterApply(s, p, ps);
      assert s'.pc == s.pc && s'.wait == s.wait && s'.now == s.now;
    case InGet(gs) =>
      assert var pc := GetApply(s, gs).pc; !pc.Raise? && !InEpoll(pc);
    case InWait(ws) => ArmedKeptByWait(s, ws);
    case InOnEvent(es) =>
    case Tick(ns) => ClockIsMonotone(s.now, ns);
    case SetStop(v) =>
  }

  lemma ArmedKeptByWait(s: State, ws: WaitStep)
    requires ArmedOk(s) && WaitEnabled(s, ws)
    ensures ArmedOk(WaitApply(s, ws))
  {
    ClockIsMonotone(s.now, 0);
  }

  // ----- the whole invariant, and what it gives -----

  ghost predicate ProtocolOk(s: State) {
    WakeOk(s) && StampsOk(s) && PostersStampsOk(s) && CoverOk(s) && BudgetOk(s) && ArmedOk(s)
  }

  lemma ProtocolHoldsInitially(s: State)
    requires Init(s)
    ensures ProtocolOk(s)
  {
    assert forall p :: PcOf(s.posters, p) == Idle;
  }

  lemma ProtocolKept(s: State, l: Label)
    requires ProtocolOk(s) && Enabled(s, l)
    ensures ProtocolOk(Apply(s, l))
  {
    WakeKept(s, l);
    StampsKept(s, l);
    CoverKept(s, l);
    BudgetKept(s, l);
    ArmedKept(s, l);
  }

  /**
   With no wake-up on its way, a polling loop has nothing queued, and sleeps no longer than until the earliest
   timer and no longer than its budget. The narrowing of the timeout to an int never matters here.
   */
  lemma PollIsCovered(s: State)
    requires ProtocolOk(s) && s.pc == Poll && !WakePending(s)
    ensures s.q.messages == []
    ensures forall m :: m in s.q.delayed ==> 0 <= s.wait.timeout <= m.runTimeMs - s.get.msCurrent
    ensures s.get.cmsWait != FOREVER ==>
              && 0 <= s.wait.timeout
              && (s.wait.timeout <= s.get.cmsWait - (s.get.msCurrent - s.get.msStart) || s.wait.timeout == 0)
    ensures s.wait.timeout < 0 ==> s.q.delayed == multiset{} && s.get.cmsWait == FOREVER
  {
    assert Listening(s) && !s.marks.sinceRead && !s.marks.sinceDrain;
    var elapsed := s.get.msCurrent - s.get.msStart;
    WaitTimeoutCoversTimers(s.get.cmsWait, elapsed, s.q.delayed, s.get.msCurrent, s.get.gap);
    assert IsInt32(s.wait.cmsNext) by {
      if s.q.delayed != multiset{} {
        var m :| m in s.q.delayed && s.get.gap == m.runTimeMs - s.get.msCurrent;
        assert PostedAt(m) <= s.get.msCurrent;
      }
    }
  }
}
