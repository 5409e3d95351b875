/** What every step of the task loop keeps: mutual exclusion, the self-pipe, and a wake-up for everything posted. */
module WakeupProtocol {
  import opened DelayedMessages
  import opened TaskQueues
  import opened LoopModel

  // ----- what the steps of one function leave alone -----

  lemma GetFrame(s: State, gs: GetStep)
    requires GetEnabled(s, gs)
    ensures var s' := GetApply(s, gs);
            && s'.posters == s.posters && s'.now == s.now && s'.stop == s.stop && s'.nextId == s.nextId
            && s'.sig == s.sig && s'.flagWait == s.flagWait
  {
  }

  lemma WaitFrame(s: State, ws: WaitStep)
    requires WaitEnabled(s, ws)
    ensures var s' := WaitApply(s, ws);
            && s'.posters == s.posters && s'.now == s.now && s'.stop == s.stop && s'.nextId == s.nextId
            && s'.q == s.q && s'.log == s.log && s'.marks == s.marks && s'.mutex == s.mutex && s'.sig == s.sig
            && (!ws.RaiseFlag? ==> s'.flagWait == s.flagWait)
  {
  }

  // ----- mutual exclusion -----

  predicate OwnsQueue(pc: PosterPc) {
    pc.Holding? || pc.PushedHolding?
  }

  predicate OwnsSignaler(pc: PosterPc) {
    pc.SigHeld? || pc.SigWrote? || pc.SigSet?
  }

  predicate LoopOwnsQueue(pc: LoopPc) {
    pc.Locked? || pc.Drained? || pc.Popped?
  }

  predicate LoopOwnsSignaler(pc: LoopPc) {
    pc.SigOwned? || pc.SigRead? || pc.SigCleared? || pc.SigLowered?
  }

  ghost predicate LocksOk(s: State) {
    && (forall p :: OwnsQueue(PcOf(s.posters, p)) <==> s.mutex == ByPoster(p))
    && (forall p :: OwnsSignaler(PcOf(s.posters, p)) <==> s.sig.mutex == ByPoster(p))
    && (LoopOwnsQueue(s.pc) <==> s.mutex == ByLoop)
    && (LoopOwnsSignaler(s.pc) <==> s.sig.mutex == ByLoop)
  }

  lemma LocksKeptByThread(s: State, p: nat, ps: PosterStep)
    requires LocksOk(s) && PosterEnabled(s, p, ps)
    ensures LocksOk(PosterApply(s, p, ps))
  {
    var s' := PosterApply(s, p, ps);
    assert s'.pc == s.pc;
    assert OwnsQueue(PcOf(s.posters, p)) <==> s.mutex == ByPoster(p);
    assert OwnsSignaler(PcOf(s.posters, p)) <==> s.sig.mutex == ByPoster(p);
    assert OwnsQueue(PcOf(s'.posters, p)) <==> s'.mutex == ByPoster(p);
    assert OwnsSignaler(PcOf(s'.posters, p)) <==> s'.sig.mutex == ByPoster(p);
    forall q
      ensures OwnsQueue(PcOf(s'.posters, q)) <==> s'.mutex == ByPoster(q)
      ensures OwnsSignaler(PcOf(s'.posters, q)) <==> s'.sig.mutex == ByPoster(q)
    {
      if q != p {
        assert PcOf(s'.posters, q) == PcOf(s.posters, q);
      }
    }
  }

  lemma LocksKept(s: State, l: Label)
    requires LocksOk(s) && Enabled(s, l)
    ensures LocksOk(Apply(s, l))
  {
    match l
    case ByThread(p, ps) => LocksKeptByThread(s, p, ps);
    case InGet(gs) => LocksKeptByGet(s, gs);
    case InWait(ws) => LocksKeptByWait(s, ws);
    case InOnEvent(es) =>
    case Tick(ns) =>
    case SetStop(v) =>
  }

  lemma LocksKeptByGet(s: State, gs: GetStep)
    requires LocksOk(s) && GetEnabled(s, gs)
    ensures LocksOk(GetApply(s, gs))
  {
    GetFrame(s, gs);
  }

  lemma LocksKeptByWait(s: State, ws: WaitStep)
    requires LocksOk(s) && WaitEnabled(s, ws)
    ensures LocksOk(WaitApply(s, ws))
  {
    WaitFrame(s, ws);
  }

  // ----- the self-pipe -----

  /** The pipe holds one byte exactly when f_signaled_ is set, except between the two halves of a write or a read. */
  ghost predicate PipeOk(s: State) {
    if exists p :: PcOf(s.posters, p) == SigWrote then s.sig.pipe == 1 && !s.sig.signaled
    else if s.pc == SigRead then s.sig.pipe == 0 && s.sig.signaled
    else s.sig.pipe == if s.sig.signaled then 1 else 0
  }

  /** Reaching OnEvent means a byte was seen, and only the loop removes bytes. */
  ghost predicate WakeSeen(s: State) {
    && (s.pc == Batch(true) ==> s.sig.pipe == 1)
    && (s.pc == SigOwned ==> s.sig.signaled)
    && (forall p :: PcOf(s.posters, p) == SigSet ==> s.sig.signaled)
    && (s.pc.SigCleared? || s.pc.SigLowered? ==> !s.sig.signaled)
    && (s.pc.SigLowered? ==> !s.flagWait)
  }

  ghost predicate SignalerOk(s: State) {
    LocksOk(s) && PipeOk(s) && WakeSeen(s)
  }

  lemma SignalerKeptByThread(s: State, p: nat, ps: PosterStep)
    requires SignalerOk(s) && PosterEnabled(s, p, ps)
    ensures SignalerOk(PosterApply(s, p, ps))
  {
    LocksKeptByThread(s, p, ps);
    PipeKeptByThread(s, p, ps);
    SeenKeptByThread(s, p, ps);
  }

  lemma PipeKeptByThread(s: State, p: nat, ps: PosterStep)
    requires SignalerOk(s) && PosterEnabled(s, p, ps)
    ensures PipeOk(PosterApply(s, p, ps))
  {
    var s' := PosterApply(s, p, ps);
    forall q ensures q != p ==> PcOf(s'.posters, q) == PcOf(s.posters, q) {}
    assert OwnsSignaler(PcOf(s.posters, p)) <==> s.sig.mutex == ByPoster(p);
    assert forall q :: PcOf(s.posters, q) == SigWrote ==> OwnsSignaler(PcOf(s.posters, q));
    if ps.Write? && !s.sig.signaled {
      assert PcOf(s'.posters, p) == SigWrote;
    }
  }

  lemma SeenKeptByThread(s: State, p: nat, ps: PosterStep)
    requires SignalerOk(s) && PosterEnabled(s, p, ps)
    ensures WakeSeen(PosterApply(s, p, ps))
  {
    var s' := PosterApply(s, p, ps);
    forall q ensures q != p ==> PcOf(s'.posters, q) == PcOf(s.posters, q) {}
    assert OwnsSignaler(PcOf(s.posters, p)) <==> s.sig.mutex == ByPoster(p);
  }

  lemma SignalerKeptByGet(s: State, gs: GetStep)
    requires SignalerOk(s) && GetEnabled(s, gs)
    ensures SignalerOk(GetApply(s, gs))
  {
    LocksKeptByGet(s, gs);
    GetFrame(s, gs);
  }

  lemma SignalerKeptByWait(s: State, ws: WaitStep)
    requires SignalerOk(s) && WaitEnabled(s, ws)
    ensures SignalerOk(WaitApply(s, ws))
  {
    LocksKeptByWait(s, ws);
    WaitFrame(s, ws);
  }

  lemma SignalerKeptByOnEvent(s: State, es: EventStep)
    requires SignalerOk(s) && EventEnabled(s, es)
    ensures SignalerOk(EventApply(s, es))
  {
    LocksKept(s, InOnEvent(es));
    assert forall q :: PcOf(s.posters, q) == SigWrote ==> OwnsSignaler(PcOf(s.posters, q));
  }

  lemma SignalerKept(s: State, l: Label)
    requires SignalerOk(s) && Enabled(s, l)
    ensures SignalerOk(Apply(s, l))
  {
    match l
    case ByThread(p, ps) => SignalerKeptByThread(s, p, ps);
    case InGet(gs) => SignalerKeptByGet(s, gs);
    case InWait(ws) => SignalerKeptByWait(s, ws);
    case InOnEvent(es) => SignalerKeptByOnEvent(s, es);
    case Tick(ns) =>
    case SetStop(v) =>
  }

  // ----- no lost wake-up -----

  /** The poster has pushed and has yet to make sure that the pipe holds a byte. */
  predicate Announcing(pc: PosterPc) {
    pc.PushedHolding? || pc.Announce? || pc.SigHeld?
  }

  ghost predicate WakePending(s: State) {
    s.sig.pipe > 0 || exists p :: Announcing(PcOf(s.posters, p))
  }

  /** From reading the clock until the wake byte is consumed: what is posted now must still wake the loop. */
  predicate Listening(s: State) {
    match s.pc
    case Top => true
    case Locked => true
    case Drained => true
    case Released => true
    case Arm => true
    case Raise => true
    case LoopTest => s.flagWait
    case Poll => true
    case Batch(_) => true
    case SigOwned => true
    case Recalc => s.flagWait
    case _ => false
  }

  ghost predicate NoLostWakeup(s: State) {
    s.marks.sinceRead && Listening(s) ==> WakePending(s)
  }

  ghost predicate WakeOk(s: State) {
    SignalerOk(s) && NoLostWakeup(s)
  }

  lemma WakeKeptByThread(s: State, p: nat, ps: PosterStep)
    requires WakeOk(s) && PosterEnabled(s, p, ps)
    ensures NoLostWakeup(PosterApply(s, p, ps))
  {
    var s' := PosterApply(s, p, ps);
    forall q ensures q != p ==> PcOf(s'.posters, q) == PcOf(s.posters, q) {}
    if ps.Push? {
      assert Announcing(PcOf(s'.posters, p));
    } else if s'.marks.sinceRead && Listening(s') {
      if s.sig.pipe == 0 {
        var q :| Announcing(PcOf(s.posters, q));
        assert q != p ==> Announcing(PcOf(s'.posters, q));
        if q == p && !ps.Write? {
          assert Announcing(PcOf(s'.posters, p));
        }
      }
    }
  }

  lemma WakeKeptByGet(s: State, gs: GetStep)
    requires WakeOk(s) && GetEnabled(s, gs)
    ensures NoLostWakeup(GetApply(s, gs))
  {
    GetFrame(s, gs);
  }

  lemma WakeKeptByWait(s: State, ws: WaitStep)
    requires WakeOk(s) && WaitEnabled(s, ws)
    ensures NoLostWakeup(WaitApply(s, ws))
  {
    WaitFrame(s, ws);
  }

  lemma WakeKept(s: State, l: Label)
    requires WakeOk(s) && Enabled(s, l)
    ensures WakeOk(Apply(s, l))
  {
    SignalerKept(s, l);
    match l
    case ByThread(p, ps) => WakeKeptByThread(s, p, ps);
    case InGet(gs) => WakeKeptByGet(s, gs);
    case InWait(ws) => WakeKeptByWait(s, ws);
    case InOnEvent(es) =>
    case Tick(ns) =>
    case SetStop(v) =>
  }
}
