/** A socket with a descriptor that is not registered hears nothing, whatever is done with it short of closing it. */
module ReactorDeaf {
  import opened ReactorModel
  import opened ReactorRegistry
  import opened ReactorEvents
  import opened ReactorBatching
  import opened ReactorInterest
  import opened ReactorSlots

  /** The socket has a descriptor, but the registry does not know it. */
  ghost predicate Deaf(w: World, i: nat) {
    IsSocket(w, i) && i !in w.keyOf && w.socks[i].fd != INVALID_SOCKET
  }

  // ----- operations -----

  lemma DeafAfterEnable(w: World, i: nat, state: ConnState, events: bv8)
    requires Deaf(w, i)
    ensures Deaf(EnableEvents(WithSock(w, i, w.socks[i].(state := state)), i, events), i)
  {
    EnableEffect(WithSock(w, i, w.socks[i].(state := state)), i, events);
  }

  lemma DeafAfterAccept(w: World, i: nat, fd: int, optOk: bool)
    requires Deaf(w, i)
    ensures Deaf(Accept(w, i, fd, optOk), i)
  {
    EnableEffect(w, i, DE_ACCEPT);
    SparedByAccepted(EnableEvents(w, i, DE_ACCEPT), i, fd, optOk);
  }

  lemma DeafAfterOwnOp(w: World, i: nat, op: Op)
    requires Deaf(w, i) && KeepsOpen(op, i) && Names(op, i)
    ensures Deaf(ApplyOp(w, op), i)
  {
    match op
    case ConnectOp(_, fd, optOk, outcome) =>
      DeafAfterEnable(w, i, CsConnected, DE_READ | DE_WRITE);
      DeafAfterEnable(w, i, CsConnecting, DE_READ | DE_WRITE | DE_CONNECT);
    case ListenOp(_, ok) => DeafAfterEnable(w, i, CsConnecting, DE_ACCEPT);
    case AcceptOp(_, fd, optOk) => DeafAfterAccept(w, i, fd, optOk);
    case RecvOp(_, outcome) => EnableEffect(w, i, DE_READ);
  }

  lemma DeafAfterOp(w: World, i: nat, op: Op)
    requires Deaf(w, i) && KeepsOpen(op, i)
    ensures Deaf(ApplyOp(w, op), i)
  {
    if Names(op, i) {
      DeafAfterOwnOp(w, i, op);
    } else {
      SparedByOp(w, i, op);
    }
  }

  lemma {:induction false} DeafAfterOps(w: World, i: nat, ops: seq<Op>)
    requires Deaf(w, i) && AllKeepOpen(ops, i)
    ensures Deaf(RunOps(w, ops), i)
    decreases |ops|
  {
    if ops != [] {
      DeafAfterOps(w, i, ops[..|ops| - 1]);
      DeafAfterOp(Note(RunOps(w, ops[..|ops| - 1]), Did(ops[|ops| - 1])), i, ops[|ops| - 1]);
    }
  }

  // ----- events of others -----

  lemma DeafAfterFire(w: World, i: nat, j: nat, ff: bv8, flag: bv8, slots: seq<Op>)
    requires Deaf(w, i) && j < |w.socks| && j != i && AllKeepOpen(slots, i)
    ensures Deaf(Fire(w, j, ff, flag, slots), i)
  {
    SparedBySetEnabled(w, i, j, Without(w.socks[j].enabled, flag));
    DeafAfterOps(Announce(DisableEvents(w, j, flag), j, flag), i, slots);
  }

  lemma DeafAfterFireAll(w: World, i: nat, j: nat, ff: bv8, h: Handlers)
    requires Deaf(w, i) && j < |w.socks| && j != i && HandlersKeepOpen(h, i)
    ensures Deaf(FireAll(w, j, ff, h), i)
  {
    DeafAfterFire(w, i, j, ff, DE_CONNECT, h.onConnect);
    var w1 := Fire(w, j, ff, DE_CONNECT, h.onConnect);
    DeafAfterFire(w1, i, j, ff, DE_ACCEPT, h.onAccept);
    var w2 := Fire(w1, j, ff, DE_ACCEPT, h.onAccept);
    DeafAfterFire(w2, i, j, ff, DE_READ, h.onRead);
    var w3 := Fire(w2, j, ff, DE_READ, h.onRead);
    DeafAfterFire(w3, i, j, ff, DE_WRITE, h.onWrite);
    DeafAfterFire(Fire(w3, j, ff, DE_WRITE, h.onWrite), i, j, ff, DE_CLOSE, h.onClose);
  }

  lemma DeafAfterOnEvent(w: World, i: nat, j: nat, ff: bv8, h: Handlers)
    requires Deaf(w, i) && j < |w.socks| && j != i && HandlersKeepOpen(h, i)
    ensures Deaf(OnEvent(w, j, ff, h), i)
  {
    var w1 := StartBatch(EnterEvent(w, j, ff), j);
    DeafAfterFireAll(w1, i, j, ff, h);
    var w2 := FireAll(w1, j, ff, h);
    UpdateKeepsSocks(WithSock(w2, j, w2.socks[j].(saved := NoBatch)), j);
  }

  // ----- runs -----

  /** From the n-th entry on the log names only others. */
  ghost predicate OnlyOthers(log: seq<(nat, nat, bv8)>, n: nat, i: nat) {
    forall m :: n <= m < |log| ==> log[m].1 != i
  }

  /** From w to w' the socket stayed as it was in this respect, and no event reached it. */
  ghost predicate HeardNothing(w: World, w': World, i: nat) {
    Deaf(w', i) && w.hist.delivered <= w'.hist.delivered && OnlyOthers(w'.hist.delivered, |w.hist.delivered|, i)
  }

  lemma HeardNothingTwice(w: World, w1: World, w2: World, i: nat)
    requires HeardNothing(w, w1, i) && HeardNothing(w1, w2, i)
    ensures HeardNothing(w, w2, i)
  {
    forall m | |w.hist.delivered| <= m < |w2.hist.delivered|
      ensures w2.hist.delivered[m].1 != i
    {
      if m < |w1.hist.delivered| {
        assert w2.hist.delivered[m] == w1.hist.delivered[m];
      }
    }
  }

  /** No slot closes or re-creates the socket. */
  ghost predicate EventsKeepOpen(events: seq<Event>, i: nat) {
    forall e :: e in events ==> HandlersKeepOpen(e.handlers, i)
  }

  ghost predicate MoveKeepsOpen(m: Move, i: nat) {
    match m
    case Do(op) => KeepsOpen(op, i)
    case Pass(events) => EventsKeepOpen(events, i)
  }

  lemma EventPassesBy(w: World, i: nat, e: Event)
    requires Consistent(w) && Calm(w) && Deaf(w, i) && HandlersKeepOpen(e.handlers, i)
    ensures HeardNothing(w, DeliverEvent(w, e), i)
  {
    if e.key in w.byKey && w.byKey[e.key] < |w.socks| {
      var j := w.byKey[e.key];
      assert j in w.keyOf && j != i;
      DeafAfterEvents(w, i, e.key, j, e.report, e.handlers);
      ProcessEventsServes(w, e.key, j, e.report, e.handlers);
    }
  }

  lemma DeafAfterEvents(w: World, i: nat, key: nat, j: nat, r: Report, h: Handlers)
    requires Consistent(w) && Calm(w) && Deaf(w, i) && HandlersKeepOpen(h, i) && j in w.keyOf && j != i && j < |w.socks|
    ensures Deaf(ProcessEvents(w, key, j, r, h), i)
  {
    var ff := EventFlags(w, j, r);
    DeafAfterOnEvent(w.(hist := w.hist.(delivered := w.hist.delivered + [(key, j, ff)])), i, j, ff, h);
  }

  lemma {:induction false} PassPassesBy(w: World, i: nat, events: seq<Event>)
    requires Consistent(w) && Calm(w) && Deaf(w, i) && EventsKeepOpen(events, i)
    ensures HeardNothing(w, ProcessBatch(w, events), i)
    decreases |events|
  {
    if events != [] {
      var before, last := events[..|events| - 1], events[|events| - 1];
      PassPassesBy(w, i, before);
      BatchServes(w, before);
      EventPassesBy(ProcessBatch(w, before), i, last);
      HeardNothingTwice(w, ProcessBatch(w, before), ProcessBatch(w, events), i);
    }
  }

  lemma MovePassesBy(w: World, i: nat, m: Move)
    requires Consistent(w) && Calm(w) && Deaf(w, i) && MoveKeepsOpen(m, i)
    ensures HeardNothing(w, MakeMove(w, m), i)
  {
    match m
    case Do(op) =>
      DeafAfterOp(w, i, op);
      OpKeeps(w, op);
    case Pass(events) => PassPassesBy(w, i, events);
  }

  /**
   A socket that has a descriptor and is not registered stays so, unwatched, and no event ever reaches it, over every
   run in which nobody closes or re-creates it, however often it is told to connect, listen, accept or receive.
   */
  lemma {:induction false} UnregisteredHearsNothing(w: World, i: nat, moves: seq<Move>)
    requires Consistent(w) && Calm(w) && Deaf(w, i)
    requires forall m :: m in moves ==> MoveKeepsOpen(m, i)
    ensures var w' := RunMoves(w, moves);
            HeardNothing(w, w', i) && w'.socks[i].fd !in w'.epoll
    decreases |moves|
  {
    RunServes(w, moves);
    var w' := RunMoves(w, moves);
    if moves != [] {
      var before, last := moves[..|moves| - 1], moves[|moves| - 1];
      UnregisteredHearsNothing(w, i, before);
      RunServes(w, before);
      MovePassesBy(RunMoves(w, before), i, last);
      HeardNothingTwice(w, RunMoves(w, before), w', i);
    }
    if w'.socks[i].fd in w'.epoll {
      EntryKey(w', i);
      assert false;
    }
  }
}
