/** How much a batch saves, when the mirror can fail, and what a caller can do to be sure it does not. */
module ReactorLimits {
  import opened ReactorModel
  import opened ReactorRegistry
  import opened ReactorEvents
  import opened ReactorBatching

  // ----- at most one update -----

  /** How often Update was called for dispatcher i. */
  ghost function UpdatesOf(w: World, i: nat): nat {
    multiset(w.hist.updates)[i]
  }

  ghost function RebuildsOf(w: World, i: nat): nat {
    multiset(w.hist.rebuilds)[i]
  }

  /** Dispatcher i stays in its batch, nobody calls Update for it, and no signal is fired nor any slot run. */
  ghost predicate Quiet(w: World, w': World, i: nat) {
    && i < |w.socks| <= |w'.socks|
    && w.socks[i].saved.Batched? && w'.socks[i].saved.Batched?
    && UpdatesOf(w', i) == UpdatesOf(w, i)
    && w'.hist.acts == w.hist.acts
  }

  lemma QuietSetEnabled(w: World, i: nat, j: nat, events: bv8)
    requires i < |w.socks| && j < |w.socks| && w.socks[i].saved.Batched?
    ensures Quiet(w, SetEnabledEvents(w, j, events), i)
  {
    if j != i {
      QuietUpdate(WithSock(w, j, w.socks[j].(enabled := events)), i, j);
    }
  }

  lemma QuietUpdate(w: World, i: nat, j: nat)
    requires i < |w.socks| && j < |w.socks| && i != j && w.socks[i].saved.Batched?
    ensures Quiet(w, Update(w, j), i)
  {
    assert multiset(w.hist.updates + [j]) == multiset(w.hist.updates) + multiset{j};
  }

  lemma QuietClose(w: World, i: nat, j: nat)
    requires i < |w.socks| && j < |w.socks| && w.socks[i].saved.Batched?
    ensures Quiet(w, Close(w, j), i)
  {
    if w.socks[j].fd != INVALID_SOCKET {
      var w1 := Unregister(w, j, SavedOnClose(w.socks[j].saved));
      QuietSetEnabled(w1, i, j, 0);
    }
  }

  lemma QuietCreate(w: World, i: nat, j: nat, dgram: bool, fd: int, optOk: bool)
    requires i < |w.socks| && j < |w.socks| && w.socks[i].saved.Batched?
    ensures Quiet(w, Create(w, j, dgram, fd, optOk).0, i)
  {
    QuietClose(w, i, j);
    var w1 := Close(w, j);
    QuietOpen(w1, i, j, dgram, fd);
    QuietAdd(OpenSocket(w1, j, dgram, fd), i, j);
  }

  lemma QuietAdd(w: World, i: nat, j: nat)
    requires i < |w.socks| && j < |w.socks| && w.socks[i].saved.Batched?
    ensures Quiet(w, Add(w, j), i)
  {
  }

  lemma QuietOpen(w: World, i: nat, j: nat, dgram: bool, fd: int)
    requires i < |w.socks| && j < |w.socks| && w.socks[i].saved.Batched?
    ensures Quiet(w, OpenSocket(w, j, dgram, fd), i)
  {
    if dgram {
      var granted := Granted(w, fd);
      QuietSetEnabled(GiveFd(w, j, granted, dgram), i, j, DE_READ | DE_WRITE);
    }
  }

  lemma QuietEnable(w: World, i: nat, j: nat, state: ConnState, events: bv8)
    requires i < |w.socks| && j < |w.socks| && w.socks[i].saved.Batched?
    ensures Quiet(w, EnableEvents(WithSock(w, j, w.socks[j].(state := state)), j, events), i)
  {
    var w1 := WithSock(w, j, w.socks[j].(state := state));
    QuietSetEnabled(w1, i, j, With(w1.socks[j].enabled, events));
  }

  lemma QuietConnected(w: World, i: nat, j: nat, outcome: ConnectOutcome)
    requires i < |w.socks| && j < |w.socks| && w.socks[i].saved.Batched?
    ensures Quiet(w, Connected(w, j, outcome), i)
  {
    QuietEnable(w, i, j, CsConnected, DE_READ | DE_WRITE);
    QuietEnable(w, i, j, CsConnecting, DE_READ | DE_WRITE | DE_CONNECT);
  }

  lemma QuietConnect(w: World, i: nat, j: nat, fd: int, optOk: bool, outcome: ConnectOutcome)
    requires i < |w.socks| && j < |w.socks| && w.socks[i].saved.Batched?
    ensures Quiet(w, Connect(w, j, fd, optOk, outcome), i)
  {
    QuietConnected(w, i, j, outcome);
    QuietCreate(w, i, j, false, fd, optOk);
    QuietConnected(Create(w, j, false, fd, optOk).0, i, j, outcome);
  }

  lemma QuietWrap(w: World, i: nat, fd: int, optOk: bool)
    requires i < |w.socks| && w.socks[i].saved.Batched?
    ensures Quiet(w, WrapSocket(w, fd, optOk), i)
  {
    var j := |w.socks|;
    var made := Wrapping(w, fd);
    QuietAdd(made, i, j);
    QuietClose(made, i, j);
  }

  lemma QuietAccept(w: World, i: nat, j: nat, fd: int, optOk: bool)
    requires i < |w.socks| && j < |w.socks| && w.socks[i].saved.Batched?
    ensures Quiet(w, Accept(w, j, fd, optOk), i)
  {
    QuietSetEnabled(w, i, j, With(w.socks[j].enabled, DE_ACCEPT));
    QuietWrap(EnableEvents(w, j, DE_ACCEPT), i, fd, optOk);
  }

  lemma QuietCreateSocket(w: World, i: nat, dgram: bool, fd: int, optOk: bool)
    requires i < |w.socks| && w.socks[i].saved.Batched?
    ensures Quiet(w, CreateSocket(w, dgram, fd, optOk), i)
  {
    var j := |w.socks|;
    var made := w.(socks := w.socks + [Sock(INVALID_SOCKET, false, CsClosed, DE_READ | DE_WRITE, NoBatch)]);
    QuietCreate(made, i, j, dgram, fd, optOk);
    QuietClose(Create(made, j, dgram, fd, optOk).0, i, j);
  }

  lemma QuietOp(w: World, i: nat, op: Op)
    requires i < |w.socks| && w.socks[i].saved.Batched?
    ensures Quiet(w, ApplyOp(w, op), i)
  {
    if op.CreateSocketOp? {
      QuietCreateSocket(w, i, op.dgram, op.fd, op.optOk);
    } else if IsSocket(w, op.who) {
      match op
      case CreateOp(j, dgram, fd, optOk) => QuietCreate(w, i, j, dgram, fd, optOk);
      case ConnectOp(j, fd, optOk, outcome) => QuietConnect(w, i, j, fd, optOk, outcome);
      case ListenOp(j, ok) => QuietEnable(w, i, j, CsConnecting, DE_ACCEPT);
      case AcceptOp(j, fd, optOk) => QuietAccept(w, i, j, fd, optOk);
      case RecvOp(j, outcome) => QuietSetEnabled(w, i, j, With(w.socks[j].enabled, DE_READ));
      case CloseOp(j) => QuietClose(w, i, j);
    }
  }

  function Dids(ops: seq<Op>): (r: seq<Act>)
    ensures |r| == |ops| && forall k :: 0 <= k < |ops| ==> r[k] == Did(ops[k])
  {
    seq(|ops|, k requires 0 <= k < |ops| => Did(ops[k]))
  }

  /** What OnEvent does for one flag: if it is reported, it fires its signal, and the slots run one after the other. */
  function ActsOf(i: nat, ff: bv8, flag: bv8, slots: seq<Op>): seq<Act> {
    if ff & flag != 0 then [Fired(i, flag)] + Dids(slots) else []
  }

  /** What OnEvent does: for each reported flag the slots of its signal, in this order, and nothing else. */
  function EventActs(i: nat, ff: bv8, h: Handlers): seq<Act> {
    ActsOf(i, ff, DE_CONNECT, h.onConnect) + ActsOf(i, ff, DE_ACCEPT, h.onAccept) + ActsOf(i, ff, DE_READ, h.onRead) +
    ActsOf(i, ff, DE_WRITE, h.onWrite) + ActsOf(i, ff, DE_CLOSE, h.onClose)
  }

  /** Still in its batch, without an Update, after the given acts. */
  ghost predicate QuietBut(w: World, w': World, i: nat, acts: seq<Act>) {
    && i < |w.socks| <= |w'.socks|
    && w.socks[i].saved.Batched? && w'.socks[i].saved.Batched?
    && UpdatesOf(w', i) == UpdatesOf(w, i)
    && w'.hist.acts == w.hist.acts + acts
  }

  lemma {:induction false} QuietOps(w: World, i: nat, ops: seq<Op>)
    requires i < |w.socks| && w.socks[i].saved.Batched?
    ensures QuietBut(w, RunOps(w, ops), i, Dids(ops))
    decreases |ops|
  {
    if ops == [] {
      assert w.hist.acts + Dids(ops) == w.hist.acts;
    } else {
      var before, last := ops[..|ops| - 1], ops[|ops| - 1];
      QuietOps(w, i, before);
      QuietOp(Note(RunOps(w, before), Did(last)), i, last);
      assert Dids(ops) == Dids(before) + [Did(last)];
    }
  }

  lemma FireIsQuiet(w: World, i: nat, ff: bv8, flag: bv8, slots: seq<Op>)
    requires i < |w.socks| && w.socks[i].saved.Batched?
    ensures QuietBut(w, Fire(w, i, ff, flag, slots), i, ActsOf(i, ff, flag, slots))
  {
    QuietSetEnabled(w, i, i, Without(w.socks[i].enabled, flag));
    QuietOps(Announce(DisableEvents(w, i, flag), i, flag), i, slots);
  }

  lemma FireAllIsQuiet(w: World, i: nat, ff: bv8, h: Handlers)
    requires i < |w.socks| && w.socks[i].saved.Batched?
    ensures QuietBut(w, FireAll(w, i, ff, h), i, EventActs(i, ff, h))
  {
    var a1, a2 := ActsOf(i, ff, DE_CONNECT, h.onConnect), ActsOf(i, ff, DE_ACCEPT, h.onAccept);
    var a3, a4 := ActsOf(i, ff, DE_READ, h.onRead), ActsOf(i, ff, DE_WRITE, h.onWrite);
    var a5 := ActsOf(i, ff, DE_CLOSE, h.onClose);
    FireIsQuiet(w, i, ff, DE_CONNECT, h.onConnect);
    var w1 := Fire(w, i, ff, DE_CONNECT, h.onConnect);
    FireIsQuiet(w1, i, ff, DE_ACCEPT, h.onAccept);
    var w2 := Fire(w1, i, ff, DE_ACCEPT, h.onAccept);
    QuietTwice(w, w1, w2, i, a1, a2);
    FireIsQuiet(w2, i, ff, DE_READ, h.onRead);
    var w3 := Fire(w2, i, ff, DE_READ, h.onRead);
    QuietTwice(w, w2, w3, i, a1 + a2, a3);
    FireIsQuiet(w3, i, ff, DE_WRITE, h.onWrite);
    var w4 := Fire(w3, i, ff, DE_WRITE, h.onWrite);
    QuietTwice(w, w3, w4, i, a1 + a2 + a3, a4);
    FireIsQuiet(w4, i, ff, DE_CLOSE, h.onClose);
    QuietTwice(w, w4, Fire(w4, i, ff, DE_CLOSE, h.onClose), i, a1 + a2 + a3 + a4, a5);
  }

  lemma QuietTwice(w: World, w1: World, w2: World, i: nat, first: seq<Act>, second: seq<Act>)
    requires QuietBut(w, w1, i, first) && QuietBut(w1, w2, i, second)
    ensures QuietBut(w, w2, i, first + second)
  {
  }

  /**
   However many changes of interest the slots make, OnEvent itself causes at most one Update of its dispatcher. For
   each reported flag it fires the signal and runs exactly the slots of that signal, once, in the order connect, accept,
   read, write, close, even if the slots of an earlier one closed the socket; no other slot runs.
   */
  lemma AtMostOneUpdate(w: World, i: nat, ff: bv8, h: Handlers)
    requires IsSocket(w, i)
    ensures var w' := OnEvent(w, i, ff, h);
            && UpdatesOf(w, i) <= UpdatesOf(w', i) <= UpdatesOf(w, i) + 1
            && w'.hist.acts == w.hist.acts + EventActs(i, ff, h)
  {
    var w0 := StartBatch(EnterEvent(w, i, ff), i);
    FireAllIsQuiet(w0, i, ff, h);
    FinishUpdatesOnce(FireAll(w0, i, ff, h), i);
  }

  lemma FinishUpdatesOnce(w: World, i: nat)
    requires i < |w.socks|
    ensures UpdatesOf(w, i) <= UpdatesOf(FinishBatch(w, i), i) <= UpdatesOf(w, i) + 1
    ensures FinishBatch(w, i).hist.acts == w.hist.acts
  {
    UpdateFields(WithSock(w, i, w.socks[i].(saved := NoBatch)), i);
  }

  /** The slots of the reported flags. */
  predicate SameReported(ff: bv8, h: Handlers, h': Handlers) {
    && (ff & DE_CONNECT != 0 ==> h.onConnect == h'.onConnect)
    && (ff & DE_ACCEPT != 0 ==> h.onAccept == h'.onAccept)
    && (ff & DE_READ != 0 ==> h.onRead == h'.onRead)
    && (ff & DE_WRITE != 0 ==> h.onWrite == h'.onWrite)
    && (ff & DE_CLOSE != 0 ==> h.onClose == h'.onClose)
  }

  /** The slots of a flag that is not reported make no difference at all. */
  lemma UnreportedSlotsDoNotRun(w: World, i: nat, ff: bv8, h: Handlers, h': Handlers)
    requires i < |w.socks| && SameReported(ff, h, h')
    ensures OnEvent(w, i, ff, h) == OnEvent(w, i, ff, h')
  {
    var w0 := StartBatch(EnterEvent(w, i, ff), i);
    var w1 := Fire(w0, i, ff, DE_CONNECT, h.onConnect);
    assert w1 == Fire(w0, i, ff, DE_CONNECT, h'.onConnect);
    var w2 := Fire(w1, i, ff, DE_ACCEPT, h.onAccept);
    assert w2 == Fire(w1, i, ff, DE_ACCEPT, h'.onAccept);
    var w3 := Fire(w2, i, ff, DE_READ, h.onRead);
    assert w3 == Fire(w2, i, ff, DE_READ, h'.onRead);
    var w4 := Fire(w3, i, ff, DE_WRITE, h.onWrite);
    assert w4 == Fire(w3, i, ff, DE_WRITE, h'.onWrite);
    assert Fire(w4, i, ff, DE_CLOSE, h.onClose) == Fire(w4, i, ff, DE_CLOSE, h'.onClose);
  }

  // ----- who is registered anew -----

  /** The operations that may give dispatcher i a new registration. */
  predicate MayRebuild(op: Op, i: nat) {
    (op.CreateOp? || op.ConnectOp?) && op.who == i
  }

  ghost predicate NotRebuilt(w: World, w': World, i: nat) {
    |w.socks| <= |w'.socks| && RebuildsOf(w', i) == RebuildsOf(w, i)
  }

  lemma NotRebuiltByAdd(w: World, i: nat, j: nat)
    requires j < |w.socks| && (j == i ==> w.socks[j].saved == NoBatch)
    ensures NotRebuilt(w, Add(w, j), i)
  {
  }

  lemma NotRebuiltByCreate(w: World, i: nat, j: nat, dgram: bool, fd: int, optOk: bool)
    requires j < |w.socks| && j != i
    ensures NotRebuilt(w, Create(w, j, dgram, fd, optOk).0, i)
  {
    var w2 := OpenSocket(Close(w, j), j, dgram, fd);
    CloseKeepsRebuilds(w, j);
    OpenKeepsRebuilds(Close(w, j), j, dgram, fd);
    NotRebuiltByAdd(w2, i, j);
  }

  lemma SetEnabledKeepsRebuilds(w: World, j: nat, events: bv8)
    requires j < |w.socks|
    ensures SetEnabledEvents(w, j, events).hist.rebuilds == w.hist.rebuilds
  {
  }

  lemma CloseKeepsRebuilds(w: World, j: nat)
    requires j < |w.socks|
    ensures Close(w, j).hist.rebuilds == w.hist.rebuilds
  {
    if w.socks[j].fd != INVALID_SOCKET {
      SetEnabledKeepsRebuilds(Unregister(w, j, SavedOnClose(w.socks[j].saved)), j, 0);
    }
  }

  lemma OpenKeepsRebuilds(w: World, j: nat, dgram: bool, fd: int)
    requires j < |w.socks|
    ensures OpenSocket(w, j, dgram, fd).hist.rebuilds == w.hist.rebuilds
  {
    if dgram {
      SetEnabledKeepsRebuilds(GiveFd(w, j, Granted(w, fd), dgram), j, DE_READ | DE_WRITE);
    }
  }

  lemma ConnectedKeepsRebuilds(w: World, j: nat, outcome: ConnectOutcome)
    requires j < |w.socks|
    ensures Connected(w, j, outcome).hist.rebuilds == w.hist.rebuilds
  {
    EnableKeepsRebuilds(w, j, CsConnected, DE_READ | DE_WRITE);
    EnableKeepsRebuilds(w, j, CsConnecting, DE_READ | DE_WRITE | DE_CONNECT);
  }

  lemma EnableKeepsRebuilds(w: World, j: nat, state: ConnState, events: bv8)
    requires j < |w.socks|
    ensures EnableEvents(WithSock(w, j, w.socks[j].(state := state)), j, events).hist.rebuilds == w.hist.rebuilds
  {
    var w1 := WithSock(w, j, w.socks[j].(state := state));
    SetEnabledKeepsRebuilds(w1, j, With(w1.socks[j].enabled, events));
  }

  lemma NotRebuiltByAccept(w: World, i: nat, j: nat, fd: int, optOk: bool)
    requires i < |w.socks| && j < |w.socks|
    ensures NotRebuilt(w, Accept(w, j, fd, optOk), i)
  {
    var w1 := EnableEvents(w, j, DE_ACCEPT);
    assert w1.hist.rebuilds == w.hist.rebuilds;
    var made := Wrapping(w1, fd);
    NotRebuiltByAdd(made, i, |w1.socks|);
    CloseKeepsRebuilds(made, |w1.socks|);
  }

  lemma NotRebuiltByOp(w: World, i: nat, op: Op)
    requires i < |w.socks| && !MayRebuild(op, i)
    ensures NotRebuilt(w, ApplyOp(w, op), i)
  {
    if op.CreateSocketOp? {
      var made := w.(socks := w.socks + [Sock(INVALID_SOCKET, false, CsClosed, DE_READ | DE_WRITE, NoBatch)]);
      NotRebuiltByCreate(made, i, |w.socks|, op.dgram, op.fd, op.optOk);
      CloseKeepsRebuilds(Create(made, |w.socks|, op.dgram, op.fd, op.optOk).0, |w.socks|);
    } else if IsSocket(w, op.who) {
      match op
      case CreateOp(j, dgram, fd, optOk) => NotRebuiltByCreate(w, i, j, dgram, fd, optOk);
      case ConnectOp(j, fd, optOk, outcome) => NotRebuiltByConnect(w, i, j, fd, optOk, outcome);
      case ListenOp(j, ok) => EnableKeepsRebuilds(w, j, CsConnecting, DE_ACCEPT);
      case AcceptOp(j, fd, optOk) => NotRebuiltByAccept(w, i, j, fd, optOk);
      case RecvOp(j, outcome) => SetEnabledKeepsRebuilds(w, j, With(w.socks[j].enabled, DE_READ));
      case CloseOp(j) => CloseKeepsRebuilds(w, j);
    }
  }

  lemma NotRebuiltByConnect(w: World, i: nat, j: nat, fd: int, optOk: bool, outcome: ConnectOutcome)
    requires i < |w.socks| && j < |w.socks| && i != j
    ensures NotRebuilt(w, Connect(w, j, fd, optOk, outcome), i)
  {
    NotRebuiltByCreate(w, i, j, false, fd, optOk);
    ConnectedKeepsRebuilds(w, j, outcome);
    ConnectedKeepsRebuilds(Create(w, j, false, fd, optOk).0, j, outcome);
  }

  lemma {:induction false} NotRebuiltByOps(w: World, i: nat, ops: seq<Op>)
    requires i < |w.socks| && forall op :: op in ops ==> !MayRebuild(op, i)
    ensures NotRebuilt(w, RunOps(w, ops), i)
    decreases |ops|
  {
    if ops != [] {
      NotRebuiltByOps(w, i, ops[..|ops| - 1]);
      NotRebuiltByOp(Note(RunOps(w, ops[..|ops| - 1]), Did(ops[|ops| - 1])), i, ops[|ops| - 1]);
    }
  }

  lemma NotRebuiltByFire(w: World, i: nat, ff: bv8, flag: bv8, slots: seq<Op>)
    requires i < |w.socks| && forall op :: op in slots ==> !MayRebuild(op, i)
    ensures NotRebuilt(w, Fire(w, i, ff, flag, slots), i)
  {
    SetEnabledKeepsRebuilds(w, i, Without(w.socks[i].enabled, flag));
    NotRebuiltByOps(Announce(DisableEvents(w, i, flag), i, flag), i, slots);
  }

  ghost predicate NeverRebuilds(h: Handlers, i: nat) {
    forall op :: op in h.onConnect + h.onAccept + h.onRead + h.onWrite + h.onClose ==> !MayRebuild(op, i)
  }

  lemma NotRebuiltByOnEvent(w: World, i: nat, ff: bv8, h: Handlers)
    requires i < |w.socks| && NeverRebuilds(h, i)
    ensures RebuildsOf(OnEvent(w, i, ff, h), i) == RebuildsOf(w, i)
  {
    var w0 := StartBatch(EnterEvent(w, i, ff), i);
    NotRebuiltByFire(w0, i, ff, DE_CONNECT, h.onConnect);
    var w1 := Fire(w0, i, ff, DE_CONNECT, h.onConnect);
    NotRebuiltByFire(w1, i, ff, DE_ACCEPT, h.onAccept);
    var w2 := Fire(w1, i, ff, DE_ACCEPT, h.onAccept);
    NotRebuiltByFire(w2, i, ff, DE_READ, h.onRead);
    var w3 := Fire(w2, i, ff, DE_READ, h.onRead);
    NotRebuiltByFire(w3, i, ff, DE_WRITE, h.onWrite);
    var w4 := Fire(w3, i, ff, DE_WRITE, h.onWrite);
    NotRebuiltByFire(w4, i, ff, DE_CLOSE, h.onClose);
    FinishBatchKeepsHistory(Fire(w4, i, ff, DE_CLOSE, h.onClose), i);
  }

  lemma CountTellsRebuilt(w: World, w': World, i: nat)
    requires w.hist.rebuilds <= w'.hist.rebuilds && RebuildsOf(w', i) == RebuildsOf(w, i)
    ensures !Rebuilt(w', |w.hist.rebuilds|, i)
  {
    var n := |w.hist.rebuilds|;
    assert w'.hist.rebuilds == w.hist.rebuilds + w'.hist.rebuilds[n..];
    assert multiset(w'.hist.rebuilds[n..])[i] == 0;
  }

  /**
   When the slots never create or connect the socket they are called for, the exception is gone: batching is eager
   updating, and the kernel ends up watching the socket for exactly what it enabled.
   */
  lemma MirrorSurvivesOnEvent(w: World, i: nat, ff: bv8, h: Handlers)
    requires Consistent(w) && IsSocket(w, i) && i in w.keyOf && w.socks[i].saved == NoBatch && Mirrored(w, i)
    requires NeverRebuilds(h, i)
    ensures var batched, eager := OnEvent(w, i, ff, h), EagerOnEvent(w, i, ff, h);
            && SameButKernel(batched, eager)
            && (forall fd :: Mask(batched.epoll, fd) == Mask(eager.epoll, fd))
            && (i in batched.keyOf ==> Mirrored(batched, i))
  {
    NotRebuiltInEvent(w, i, ff, h);
    BatchingRefinesEager(w, i, ff, h);
    MirrorFailsIff(w, i, ff, h);
  }

  lemma NotRebuiltInEvent(w: World, i: nat, ff: bv8, h: Handlers)
    requires Consistent(w) && IsSocket(w, i) && i in w.keyOf && w.socks[i].saved == NoBatch && NeverRebuilds(h, i)
    ensures !Rebuilt(OnEvent(w, i, ff, h), |w.hist.rebuilds|, i)
  {
    OnEventKeeps(w, i, ff, h);
    NotRebuiltByOnEvent(w, i, ff, h);
    CountTellsRebuilt(w, OnEvent(w, i, ff, h), i);
  }
}
