/** What slots leave armed: an event disarms what it reports, and a slot that reads or accepts arms it again. */
module ReactorSlots {
  import opened ReactorModel
  import opened ReactorRegistry
  import opened ReactorEvents
  import opened ReactorBatching
  import opened ReactorLimits
  import opened ReactorInterest

  // ----- operations on other sockets -----

  /** Dispatcher i is as it was, with its key. */
  ghost predicate Spared(w: World, w': World, i: nat) {
    && i < |w.socks| <= |w'.socks| && w'.socks[i] == w.socks[i]
    && (i in w'.keyOf <==> i in w.keyOf) && (i in w.keyOf ==> w'.keyOf[i] == w.keyOf[i])
  }

  lemma SparedBySetEnabled(w: World, i: nat, j: nat, events: bv8)
    requires i < |w.socks| && j < |w.socks| && i != j
    ensures Spared(w, SetEnabledEvents(w, j, events), i)
  {
    SetEnabledTable(w, j, events);
  }

  lemma SparedByEnable(w: World, i: nat, j: nat, state: ConnState, events: bv8)
    requires i < |w.socks| && j < |w.socks| && i != j
    ensures Spared(w, EnableEvents(WithSock(w, j, w.socks[j].(state := state)), j, events), i)
  {
    var w1 := WithSock(w, j, w.socks[j].(state := state));
    SparedBySetEnabled(w1, i, j, With(w1.socks[j].enabled, events));
  }

  lemma SparedByClose(w: World, i: nat, j: nat)
    requires i < |w.socks| && j < |w.socks| && i != j
    ensures Spared(w, Close(w, j), i)
  {
    if w.socks[j].fd != INVALID_SOCKET {
      var saved := SavedOnClose(w.socks[j].saved);
      UnregisterFields(w, j, saved);
      SparedBySetEnabled(Unregister(w, j, saved), i, j, 0);
    }
  }

  lemma SparedByAdd(w: World, i: nat, j: nat)
    requires i < |w.socks| && j < |w.socks| && i != j
    ensures Spared(w, Add(w, j), i)
  {
  }

  lemma SparedByCreate(w: World, i: nat, j: nat, dgram: bool, fd: int, optOk: bool)
    requires i < |w.socks| && j < |w.socks| && i != j
    ensures Spared(w, Create(w, j, dgram, fd, optOk).0, i)
  {
    SparedByClose(w, i, j);
    var w1 := Close(w, j);
    var w2 := GiveFd(w1, j, Granted(w1, fd), dgram);
    SparedBySetEnabled(w2, i, j, DE_READ | DE_WRITE);
    SparedByAdd(OpenSocket(w1, j, dgram, fd), i, j);
  }

  lemma SparedByConnected(w: World, i: nat, j: nat, outcome: ConnectOutcome)
    requires i < |w.socks| && j < |w.socks| && i != j
    ensures Spared(w, Connected(w, j, outcome), i)
  {
    SparedByEnable(w, i, j, CsConnected, DE_READ | DE_WRITE);
    SparedByEnable(w, i, j, CsConnecting, DE_READ | DE_WRITE | DE_CONNECT);
  }

  lemma SparedByConnect(w: World, i: nat, j: nat, fd: int, optOk: bool, outcome: ConnectOutcome)
    requires i < |w.socks| && j < |w.socks| && i != j
    ensures Spared(w, Connect(w, j, fd, optOk, outcome), i)
  {
    SparedByConnected(w, i, j, outcome);
    SparedByCreate(w, i, j, false, fd, optOk);
    SparedByConnected(Create(w, j, false, fd, optOk).0, i, j, outcome);
  }

  lemma SparedByWrap(w: World, i: nat, fd: int, optOk: bool)
    requires i < |w.socks|
    ensures Spared(w, WrapSocket(w, fd, optOk), i)
  {
    var j := |w.socks|;
    var made := Wrapping(w, fd);
    SparedByAdd(made, i, j);
    SparedByClose(made, i, j);
  }

  lemma SparedByCreateSocket(w: World, i: nat, dgram: bool, fd: int, optOk: bool)
    requires i < |w.socks|
    ensures Spared(w, CreateSocket(w, dgram, fd, optOk), i)
  {
    var j := |w.socks|;
    var made := w.(socks := w.socks + [Sock(INVALID_SOCKET, false, CsClosed, DE_READ | DE_WRITE, NoBatch)]);
    SparedByCreate(made, i, j, dgram, fd, optOk);
    SparedByClose(Create(made, j, dgram, fd, optOk).0, i, j);
  }

  /** The operation is one on dispatcher i. */
  predicate Names(op: Op, i: nat) {
    !op.CreateSocketOp? && op.who == i
  }

  /** An operation changes nothing about the dispatchers it is not one on. */
  lemma SparedByOp(w: World, i: nat, op: Op)
    requires i < |w.socks| && !Names(op, i)
    ensures Spared(w, ApplyOp(w, op), i)
  {
    if op.CreateSocketOp? {
      SparedByCreateSocket(w, i, op.dgram, op.fd, op.optOk);
    } else if IsSocket(w, op.who) {
      match op
      case CreateOp(j, dgram, fd, optOk) => SparedByCreate(w, i, j, dgram, fd, optOk);
      case ConnectOp(j, fd, optOk, outcome) => SparedByConnect(w, i, j, fd, optOk, outcome);
      case ListenOp(j, ok) => SparedByEnable(w, i, j, CsConnecting, DE_ACCEPT);
      case AcceptOp(j, fd, optOk) =>
        SparedBySetEnabled(w, i, j, With(w.socks[j].enabled, DE_ACCEPT));
        SparedByWrap(EnableEvents(w, j, DE_ACCEPT), i, fd, optOk);
      case RecvOp(j, outcome) => SparedBySetEnabled(w, i, j, With(w.socks[j].enabled, DE_READ));
      case CloseOp(j) => SparedByClose(w, i, j);
    }
  }

  // ----- operations that leave a socket open -----

  predicate KeepsOpen(op: Op, i: nat) {
    !((op.CloseOp? || op.CreateOp?) && op.who == i)
  }

  /** Dispatcher i is registered and has a descriptor. */
  ghost predicate IsOpen(w: World, i: nat) {
    IsSocket(w, i) && i in w.keyOf && w.socks[i].fd != INVALID_SOCKET
  }

  /** It still is, with the same descriptor, and asks for no less. */
  ghost predicate Retains(w: World, w': World, i: nat) {
    && IsOpen(w, i) && IsOpen(w', i) && w'.socks[i].fd == w.socks[i].fd
    && Covers(w'.socks[i].enabled, w.socks[i].enabled)
  }

  predicate Covers(more: bv8, less: bv8) {
    more & less == less
  }

  lemma RetainsByOp(w: World, i: nat, op: Op)
    requires IsOpen(w, i) && KeepsOpen(op, i)
    ensures Retains(w, ApplyOp(w, op), i)
  {
    if !Names(op, i) {
      SparedByOp(w, i, op);
    } else {
      RetainsByOwnOp(w, i, op);
    }
  }

  lemma RetainsByOwnOp(w: World, i: nat, op: Op)
    requires IsOpen(w, i) && KeepsOpen(op, i) && Names(op, i)
    ensures Retains(w, ApplyOp(w, op), i)
  {
    match op
    case ConnectOp(_, fd, optOk, outcome) => RetainsByConnect(w, i, fd, optOk, outcome);
    case ListenOp(_, ok) =>
      RetainsByEnable(w, i, CsConnecting, DE_ACCEPT);
      OrCovers(w.socks[i].enabled, 0);
    case AcceptOp(_, fd, optOk) => RetainsByAccept(w, i, fd, optOk);
    case RecvOp(_, outcome) => RetainsByRecv(w, i, outcome);
  }

  lemma RetainsByConnect(w: World, i: nat, fd: int, optOk: bool, outcome: ConnectOutcome)
    requires IsOpen(w, i)
    ensures Retains(w, Connect(w, i, fd, optOk, outcome), i)
  {
    RetainsByEnable(w, i, CsConnected, DE_READ | DE_WRITE);
    RetainsByEnable(w, i, CsConnecting, DE_READ | DE_WRITE | DE_CONNECT);
  }

  lemma RetainsByAccept(w: World, i: nat, fd: int, optOk: bool)
    requires IsOpen(w, i)
    ensures Retains(w, Accept(w, i, fd, optOk), i)
    ensures Accept(w, i, fd, optOk).socks[i].enabled == w.socks[i].enabled | DE_ACCEPT
  {
    EnableEffect(w, i, DE_ACCEPT);
    OrCovers(w.socks[i].enabled, DE_ACCEPT);
    SparedByAccepted(EnableEvents(w, i, DE_ACCEPT), i, fd, optOk);
    assert Accept(w, i, fd, optOk) == Accepted(EnableEvents(w, i, DE_ACCEPT), i, fd, optOk);
  }

  lemma SparedByAccepted(w: World, i: nat, fd: int, optOk: bool)
    requires i < |w.socks|
    ensures Spared(w, Accepted(w, i, fd, optOk), i)
  {
    SparedByWrap(w, i, fd, optOk);
  }

  lemma RetainsByRecv(w: World, i: nat, outcome: RecvOutcome)
    requires IsOpen(w, i)
    ensures Retains(w, Recv(w, i, outcome), i)
  {
    EnableEffect(w, i, DE_READ);
    OrCovers(w.socks[i].enabled, DE_READ);
  }

  lemma OrCovers(enabled: bv8, events: bv8)
    ensures Covers(enabled | events, enabled) && Covers(enabled, enabled)
  {
  }

  lemma RetainsByEnable(w: World, i: nat, state: ConnState, events: bv8)
    requires IsOpen(w, i)
    ensures Retains(w, EnableEvents(WithSock(w, i, w.socks[i].(state := state)), i, events), i)
  {
    EnableEffect(WithSock(w, i, w.socks[i].(state := state)), i, events);
    OrCovers(w.socks[i].enabled, events);
  }

  // ----- rearming -----

  /** The operation asks anew for what the flag reports, whatever else it does. */
  predicate Rearms(op: Op, i: nat, flag: bv8) {
    || (flag == DE_READ && op.RecvOp? && op.who == i && op.got != RecvError)
    || (flag == DE_ACCEPT && op.AcceptOp? && op.who == i)
  }

  /** Still open, and asking for the flag. */
  ghost predicate Asking(w: World, i: nat, flag: bv8) {
    IsOpen(w, i) && w.socks[i].enabled & flag != 0
  }

  lemma RearmedByOp(w: World, i: nat, op: Op, flag: bv8)
    requires IsOpen(w, i) && Rearms(op, i, flag)
    ensures Asking(ApplyOp(w, op), i, flag)
  {
    RetainsByOwnOp(w, i, op);
    match op
    case RecvOp(_, outcome) => EnableEffect(w, i, DE_READ);
    case AcceptOp(_, fd, optOk) => RetainsByAccept(w, i, fd, optOk);
  }

  lemma AskingStays(w: World, w': World, i: nat, flag: bv8)
    requires Retains(w, w', i) && Asking(w, i, flag)
    ensures Asking(w', i, flag)
  {
    var more, less := w'.socks[i].enabled, w.socks[i].enabled;
    assert more & less & flag == more & flag & less;
  }

  ghost predicate AllKeepOpen(ops: seq<Op>, i: nat) {
    forall op :: op in ops ==> KeepsOpen(op, i)
  }

  /** A slot that keeps the socket open keeps it asking, and one that rearms makes it ask. */
  lemma {:induction false} AskingAfterOps(w: World, i: nat, ops: seq<Op>, flag: bv8)
    requires IsOpen(w, i) && AllKeepOpen(ops, i)
    ensures IsOpen(RunOps(w, ops), i)
    ensures Asking(w, i, flag) || (exists op :: op in ops && Rearms(op, i, flag)) ==> Asking(RunOps(w, ops), i, flag)
    decreases |ops|
  {
    if ops != [] {
      var before, last := ops[..|ops| - 1], ops[|ops| - 1];
      AskingAfterOps(w, i, before, flag);
      var w1 := Note(RunOps(w, before), Did(last));
      RetainsByOp(w1, i, last);
      if Rearms(last, i, flag) {
        RearmedByOp(w1, i, last, flag);
      } else if Asking(w1, i, flag) {
        AskingStays(w1, ApplyOp(w1, last), i, flag);
      } else {
        assert forall op :: op in ops ==> op in before || op == last;
      }
    }
  }

  lemma DisableKeepsOpen(w: World, i: nat, flag: bv8)
    requires IsOpen(w, i)
    ensures var w' := Announce(DisableEvents(w, i, flag), i, flag);
            IsOpen(w', i) && w'.socks[i] == w.socks[i].(enabled := Without(w.socks[i].enabled, flag))
  {
    SetEnabledTable(w, i, Without(w.socks[i].enabled, flag));
  }

  /** One stanza of OnEvent: what its slots rearm is asked for, and what was asked for is, unless it is this flag. */
  lemma AskingAfterFire(w: World, i: nat, ff: bv8, fired: bv8, slots: seq<Op>, flag: bv8)
    requires IsOpen(w, i) && AllKeepOpen(slots, i)
    ensures IsOpen(Fire(w, i, ff, fired, slots), i)
    ensures Asking(w, i, flag) && flag & fired == 0 ==> Asking(Fire(w, i, ff, fired, slots), i, flag)
    ensures ff & fired != 0 && (exists op :: op in slots && Rearms(op, i, flag)) ==>
              Asking(Fire(w, i, ff, fired, slots), i, flag)
  {
    DisableKeepsOpen(w, i, fired);
    WithoutKeeps(w.socks[i].enabled, fired, flag);
    AskingAfterOps(Announce(DisableEvents(w, i, fired), i, fired), i, slots, flag);
  }

  lemma WithoutKeeps(enabled: bv8, fired: bv8, flag: bv8)
    ensures flag & fired == 0 && enabled & flag != 0 ==> Without(enabled, fired) & flag != 0
  {
  }

  /** All slots leave the socket open. */
  ghost predicate HandlersKeepOpen(h: Handlers, i: nat) {
    && AllKeepOpen(h.onConnect, i) && AllKeepOpen(h.onAccept, i) && AllKeepOpen(h.onRead, i)
    && AllKeepOpen(h.onWrite, i) && AllKeepOpen(h.onClose, i)
  }

  function SlotsOf(h: Handlers, flag: bv8): seq<Op> {
    if flag == DE_ACCEPT then h.onAccept else h.onRead
  }

  lemma AskingAfterAll(w: World, i: nat, ff: bv8, h: Handlers, flag: bv8)
    requires IsOpen(w, i) && HandlersKeepOpen(h, i) && (flag == DE_ACCEPT || flag == DE_READ) && ff & flag != 0
    requires exists op :: op in SlotsOf(h, flag) && Rearms(op, i, flag)
    ensures Asking(FireAll(w, i, ff, h), i, flag)
  {
    AskingAfterFire(w, i, ff, DE_CONNECT, h.onConnect, flag);
    var w1 := Fire(w, i, ff, DE_CONNECT, h.onConnect);
    AskingAfterFire(w1, i, ff, DE_ACCEPT, h.onAccept, flag);
    var w2 := Fire(w1, i, ff, DE_ACCEPT, h.onAccept);
    AskingAfterFire(w2, i, ff, DE_READ, h.onRead, flag);
    var w3 := Fire(w2, i, ff, DE_READ, h.onRead);
    AskingAfterFire(w3, i, ff, DE_WRITE, h.onWrite, flag);
    var w4 := Fire(w3, i, ff, DE_WRITE, h.onWrite);
    AskingAfterFire(w4, i, ff, DE_CLOSE, h.onClose, flag);
  }

  /**
   A read slot that reads without failing, or an accept slot that accepts, leaves the kernel watching the socket for
   input after OnEvent, whatever else the slots do, as long as none of them closes or re-creates the socket.
   */
  lemma RearmedSlotIsWatched(w: World, i: nat, ff: bv8, h: Handlers, flag: bv8)
    requires Mirrors(w) && Resting(w, i) && i in w.keyOf
    requires HandlersKeepOpen(h, i) && (flag == DE_ACCEPT || flag == DE_READ) && ff & flag != 0
    requires exists op :: op in SlotsOf(h, flag) && Rearms(op, i, flag)
    ensures var w' := OnEvent(w, i, ff, h);
            && i in w'.keyOf && w'.socks[i].enabled & flag != 0
            && Mask(w'.epoll, w'.socks[i].fd) == GetEpollEvents(w'.socks[i].enabled)
            && Mask(w'.epoll, w'.socks[i].fd) & EPOLLIN != 0
  {
    var w0 := StartBatch(EnterEvent(w, i, ff), i);
    AskingAfterAll(w0, i, ff, h, flag);
    FinishKeepsSock(FireAll(w0, i, ff, h), i);
    AsksForInput(OnEvent(w, i, ff, h).socks[i].enabled, flag);
    OnEventKeeps(w, i, ff, h);
    assert Watched(OnEvent(w, i, ff, h), i);
  }

  lemma FinishKeepsSock(w: World, i: nat)
    requires i < |w.socks|
    ensures var w' := FinishBatch(w, i);
            w'.keyOf == w.keyOf && |w'.socks| == |w.socks| && w'.socks[i] == w.socks[i].(saved := NoBatch)
  {
    UpdateKeepsSocks(WithSock(w, i, w.socks[i].(saved := NoBatch)), i);
  }

  lemma UpdateKeepsSocks(w: World, i: nat)
    requires i < |w.socks|
    ensures Update(w, i).socks == w.socks && Update(w, i).keyOf == w.keyOf
  {
  }

  lemma AsksForInput(enabled: bv8, flag: bv8)
    requires (flag == DE_ACCEPT || flag == DE_READ) && enabled & flag != 0
    ensures GetEpollEvents(enabled) & EPOLLIN != 0
  {
  }

  // ----- disarming -----

  ghost predicate NoneNames(ops: seq<Op>, i: nat) {
    forall op :: op in ops ==> !Names(op, i)
  }

  /** No slot touches the socket the event is for. */
  ghost predicate HandlersSpare(h: Handlers, i: nat) {
    && NoneNames(h.onConnect, i) && NoneNames(h.onAccept, i) && NoneNames(h.onRead, i)
    && NoneNames(h.onWrite, i) && NoneNames(h.onClose, i)
  }

  lemma {:induction false} SparedByOps(w: World, i: nat, ops: seq<Op>)
    requires i < |w.socks| && NoneNames(ops, i)
    ensures Spared(w, RunOps(w, ops), i)
    decreases |ops|
  {
    if ops != [] {
      SparedByOps(w, i, ops[..|ops| - 1]);
      SparedByOp(Note(RunOps(w, ops[..|ops| - 1]), Did(ops[|ops| - 1])), i, ops[|ops| - 1]);
    }
  }

  /** The flag is dropped if it is reported, and left alone otherwise. */
  function Dropped(enabled: bv8, ff: bv8, flag: bv8): bv8 {
    if ff & flag != 0 then Without(enabled, flag) else enabled
  }

  lemma FireDrops(w: World, i: nat, ff: bv8, flag: bv8, slots: seq<Op>)
    requires IsOpen(w, i) && NoneNames(slots, i)
    ensures var w' := Fire(w, i, ff, flag, slots);
            IsOpen(w', i) && w'.socks[i] == w.socks[i].(enabled := Dropped(w.socks[i].enabled, ff, flag))
  {
    DisableKeepsOpen(w, i, flag);
    SparedByOps(Announce(DisableEvents(w, i, flag), i, flag), i, slots);
  }

  lemma FiveFlags(enabled: bv8, ff: bv8)
    requires ff & !(DE_READ | DE_WRITE | DE_CONNECT | DE_CLOSE | DE_ACCEPT) == 0
    ensures var rest := Dropped(Dropped(Dropped(enabled, ff, DE_CONNECT), ff, DE_ACCEPT), ff, DE_READ);
            Dropped(Dropped(rest, ff, DE_WRITE), ff, DE_CLOSE) == Without(enabled, ff)
  {
  }

  lemma AllFlagsDrop(w: World, i: nat, ff: bv8, h: Handlers)
    requires IsOpen(w, i) && HandlersSpare(h, i)
    requires ff & !(DE_READ | DE_WRITE | DE_CONNECT | DE_CLOSE | DE_ACCEPT) == 0
    ensures var w' := FireAll(w, i, ff, h);
            IsOpen(w', i) && w'.socks[i] == w.socks[i].(enabled := Without(w.socks[i].enabled, ff))
  {
    FireDrops(w, i, ff, DE_CONNECT, h.onConnect);
    var w1 := Fire(w, i, ff, DE_CONNECT, h.onConnect);
    FireDrops(w1, i, ff, DE_ACCEPT, h.onAccept);
    var w2 := Fire(w1, i, ff, DE_ACCEPT, h.onAccept);
    FireDrops(w2, i, ff, DE_READ, h.onRead);
    var w3 := Fire(w2, i, ff, DE_READ, h.onRead);
    FireDrops(w3, i, ff, DE_WRITE, h.onWrite);
    var w4 := Fire(w3, i, ff, DE_WRITE, h.onWrite);
    FireDrops(w4, i, ff, DE_CLOSE, h.onClose);
    FiveFlags(w.socks[i].enabled, ff);
  }

  lemma SparingNeverRebuilds(h: Handlers, i: nat)
    requires HandlersSpare(h, i)
    ensures NeverRebuilds(h, i)
  {
  }

  /**
   OnEvent disarms exactly what it reports, if the slots only touch other sockets, and the kernel is told: it ends up
   right if it was right before, and otherwise the socket still asks for nothing.
   */
  lemma EventDisarms(w: World, i: nat, ff: bv8, h: Handlers)
    requires Mirrors(w) && Resting(w, i) && i in w.keyOf && HandlersSpare(h, i)
    requires ff & !(DE_READ | DE_WRITE | DE_CONNECT | DE_CLOSE | DE_ACCEPT) == 0
    ensures var w' := OnEvent(w, i, ff, h);
            && i in w'.keyOf
            && w'.socks[i] == w.socks[i].(enabled := w.socks[i].enabled & !ff,
                                          state := if ff & DE_CLOSE != 0 then CsClosed
                                                   else if ff & DE_CONNECT != 0 then CsConnected
                                                   else w.socks[i].state)
            && Watched(w', i) && (Mirrored(w, i) ==> Mirrored(w', i))
  {
    var w0 := StartBatch(EnterEvent(w, i, ff), i);
    AllFlagsDrop(w0, i, ff, h);
    FinishKeepsSock(FireAll(w0, i, ff, h), i);
    OnEventKeeps(w, i, ff, h);
    if Mirrored(w, i) {
      SparingNeverRebuilds(h, i);
      MirrorSurvivesOnEvent(w, i, ff, h);
    }
  }
}
