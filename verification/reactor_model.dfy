/**
 The dispatcher registry, its mirror in the kernel's epoll table, and the sockets that follow it, as a function of
 the world. Dispatchers are numbered in the order of their creation; number 0 is the Signaler of the socket server.
 */
module ReactorModel {

  // ----- events -----

  const DE_READ: bv8 := 0x01
  const DE_WRITE: bv8 := 0x02
  const DE_CONNECT: bv8 := 0x04
  const DE_CLOSE: bv8 := 0x08
  const DE_ACCEPT: bv8 := 0x10

  const EPOLLIN: bv8 := 0x01
  const EPOLLOUT: bv8 := 0x04

  function GetEpollEvents(ff: bv8): bv8 {
    (if ff & (DE_READ | DE_ACCEPT) != 0 then EPOLLIN else 0) |
    (if ff & (DE_WRITE | DE_CONNECT) != 0 then EPOLLOUT else 0)
  }

  // ----- the kernel -----

  const INVALID_SOCKET: int := -1

  /** What epoll_ctl stores for a descriptor. */
  datatype Entry = Entry(mask: bv8, key: nat)

  datatype Errno = Success | ENOENT | EEXIST

  function CtlAdd(table: map<int, Entry>, fd: int, e: Entry): (map<int, Entry>, Errno) {
    if fd in table then (table, EEXIST) else (table[fd := e], Success)
  }

  function CtlMod(table: map<int, Entry>, fd: int, e: Entry): (map<int, Entry>, Errno) {
    if fd in table then (table[fd := e], Success) else (table, ENOENT)
  }

  function CtlDel(table: map<int, Entry>, fd: int): (map<int, Entry>, Errno) {
    if fd in table then (table - {fd}, Success) else (table, ENOENT)
  }

  // ----- the world -----

  datatype ConnState = CsClosed | CsConnecting | CsConnected

  datatype Saved = NoBatch | Batched(events: bv8)

  /** The fields of a SocketDispatcher and its PhysicalSocket; saved is saved_enabled_events_, with NoBatch for -1. */
  datatype Sock = Sock(fd: int, udp: bool, state: ConnState, enabled: bv8, saved: Saved)

  /** What happened, for the statements of properties only. */
  datatype History = History(
    updates: seq<nat>,             // dispatchers for which PhysicalSocketServer::Update was called
    rebuilds: seq<nat>,            // dispatchers registered anew while their own OnEvent was running
    masks: map<nat, bv8>,          // the interest with which that last happened to each
    anew: set<nat>,                // those to whom that happened, with no Add or Update of them since
    delivered: seq<(nat, nat, bv8)>,  // keys of events that reached OnEvent, with the dispatcher and the flags
    acts: seq<Act>)                // signals that OnEvent fired, and what their slots did

  /** A signal fired by a dispatcher for a flag, or an operation a slot performed. */
  datatype Act = Fired(who: nat, flag: bv8) | Did(op: Op)

  datatype World = World(
    socks: seq<Sock>,
    nextKey: nat,
    byKey: map<nat, nat>,
    keyOf: map<nat, nat>,
    epoll: map<int, Entry>,
    open: map<int, nat>,  // the open descriptors, each with the dispatcher that holds it
    flagWait: bool,
    hist: History)

  function LogRebuild(h: History, i: nat, mask: bv8): History {
    h.(rebuilds := h.rebuilds + [i], masks := h.masks[i := mask], anew := h.anew + {i})
  }

  function LogAdd(h: History, i: nat): History {
    h.(anew := h.anew - {i})
  }

  function LogUpdate(h: History, i: nat): History {
    h.(updates := h.updates + [i], anew := h.anew - {i})
  }

  /** The interest with which dispatcher i was last registered within its own OnEvent. */
  function RebuiltMask(w: World, i: nat): bv8 {
    if i in w.hist.masks then w.hist.masks[i] else 0
  }

  predicate IsSocket(w: World, i: nat) {
    0 < i < |w.socks|
  }

  function WithSock(w: World, i: nat, s: Sock): World
    requires i < |w.socks|
  {
    w.(socks := w.socks[i := s])
  }

  /** The mask the kernel watches a descriptor with; a descriptor that is not in the table counts as mask 0. */
  function Mask(table: map<int, Entry>, fd: int): bv8 {
    if fd in table then table[fd].mask else 0
  }

  // ----- PhysicalSocketServer -----

  function AddEpoll(w: World, i: nat, key: nat): World
    requires i < |w.socks|
  {
    var fd, mask := w.socks[i].fd, GetEpollEvents(w.socks[i].enabled);
    if fd == INVALID_SOCKET || mask == 0 then w
    else w.(epoll := CtlAdd(w.epoll, fd, Entry(mask, key)).0)
  }

  function RemoveEpoll(w: World, i: nat): World
    requires i < |w.socks|
  {
    if w.socks[i].fd == INVALID_SOCKET then w else w.(epoll := CtlDel(w.epoll, w.socks[i].fd).0)
  }

  function UpdateEpoll(w: World, i: nat, key: nat): World
    requires i < |w.socks|
  {
    var fd, mask := w.socks[i].fd, GetEpollEvents(w.socks[i].enabled);
    if fd == INVALID_SOCKET then w
    else
      var (modified, err) := CtlMod(w.epoll, fd, Entry(mask, key));
      if mask != 0 && err == ENOENT
      then w.(epoll := CtlAdd(w.epoll, fd, Entry(mask, key)).0)
      else w.(epoll := modified)
  }

  function Add(w: World, i: nat): World
    requires i < |w.socks|
  {
    if i in w.keyOf then w
    else
      AddEpoll(w.(nextKey := w.nextKey + 1,
                  byKey := w.byKey[w.nextKey := i],
                  keyOf := w.keyOf[i := w.nextKey],
                  hist := if w.socks[i].saved == NoBatch then LogAdd(w.hist, i)
                          else LogRebuild(w.hist, i, GetEpollEvents(w.socks[i].enabled))),
               i, w.nextKey)
  }

  function Remove(w: World, i: nat): World
    requires i < |w.socks|
  {
    if i !in w.keyOf then w
    else RemoveEpoll(w.(byKey := w.byKey - {w.keyOf[i]}, keyOf := w.keyOf - {i}), i)
  }

  function Update(w: World, i: nat): World
    requires i < |w.socks|
  {
    var called := w.(hist := LogUpdate(w.hist, i));
    if i !in w.keyOf then called else UpdateEpoll(called, i, w.keyOf[i])
  }

  // ----- SocketDispatcher: interest -----

  function MayBeUpdateDispatcher(w: World, i: nat, oldEvents: bv8): (r: World)
    requires i < |w.socks|
    ensures |r.socks| == |w.socks|
  {
    if GetEpollEvents(w.socks[i].enabled) != GetEpollEvents(oldEvents) && w.socks[i].saved == NoBatch
    then Update(w, i) else w
  }

  function SetEnabledEvents(w: World, i: nat, events: bv8): (r: World)
    requires i < |w.socks|
    ensures |r.socks| == |w.socks|
  {
    MayBeUpdateDispatcher(WithSock(w, i, w.socks[i].(enabled := events)), i, w.socks[i].enabled)
  }

  function With(enabled: bv8, events: bv8): bv8 {
    enabled | events
  }

  function EnableEvents(w: World, i: nat, events: bv8): World
    requires i < |w.socks|
  {
    SetEnabledEvents(w, i, With(w.socks[i].enabled, events))
  }

  function Without(enabled: bv8, events: bv8): bv8 {
    enabled & !events
  }

  function DisableEvents(w: World, i: nat, events: bv8): World
    requires i < |w.socks|
  {
    SetEnabledEvents(w, i, Without(w.socks[i].enabled, events))
  }

  // ----- SocketDispatcher and PhysicalSocket: operations -----

  function SavedOnClose(s: Saved): Saved {
    if s == NoBatch then NoBatch else Batched(0)
  }

  /** ::close, after which the kernel watches the descriptor no more. */
  function ReleaseFd(w: World, i: nat): World
    requires i < |w.socks|
  {
    var fd := w.socks[i].fd;
    WithSock(w, i, w.socks[i].(fd := INVALID_SOCKET, state := CsClosed))
      .(open := w.open - {fd}, epoll := w.epoll - {fd})
  }

  function Close(w: World, i: nat): (r: World)
    requires i < |w.socks|
    ensures |r.socks| == |w.socks|
  {
    var s := w.socks[i];
    if s.fd == INVALID_SOCKET then w
    else SetEnabledEvents(ReleaseFd(Remove(WithSock(w, i, s.(saved := SavedOnClose(s.saved))), i), i), i, 0)
  }

  /** The descriptor a system call returns: the proposed one if it is not in use, else an error. */
  function Granted(w: World, fd: int): int {
    if 0 <= fd && fd !in w.open then fd else INVALID_SOCKET
  }

  /** PhysicalSocket::Create after its Close: ::socket, and the events of a datagram socket. */
  function OpenSocket(w: World, i: nat, dgram: bool, fd: int): World
    requires i < |w.socks|
  {
    var granted := Granted(w, fd);
    var made := WithSock(w, i, w.socks[i].(fd := granted, udp := dgram));
    var owned := if granted == INVALID_SOCKET then made else made.(open := made.open[granted := i]);
    if dgram then SetEnabledEvents(owned, i, DE_READ | DE_WRITE) else owned
  }

  /** optOk tells whether setsockopt succeeds in Initialize. */
  function Create(w: World, i: nat, dgram: bool, fd: int, optOk: bool): (r: (World, bool))
    requires i < |w.socks|
    ensures |r.0.socks| == |w.socks|
  {
    var made := OpenSocket(Close(w, i), i, dgram, fd);
    if made.socks[i].fd == INVALID_SOCKET || !optOk then (made, false)
    else (Add(made, i), true)
  }

  datatype ConnectOutcome = ConnectOk | ConnectBlocking | ConnectFailed

  /** The end of DoConnect, once there is a socket: ::connect and its outcome. */
  function Connected(w: World, i: nat, outcome: ConnectOutcome): World
    requires i < |w.socks|
  {
    match outcome
    case ConnectOk => EnableEvents(WithSock(w, i, w.socks[i].(state := CsConnected)), i, DE_READ | DE_WRITE)
    case ConnectBlocking =>
      EnableEvents(WithSock(w, i, w.socks[i].(state := CsConnecting)), i, DE_READ | DE_WRITE | DE_CONNECT)
    case ConnectFailed => w
  }

  function DoConnect(w: World, i: nat, fd: int, optOk: bool, outcome: ConnectOutcome): World
    requires i < |w.socks|
  {
    if w.socks[i].fd != INVALID_SOCKET then Connected(w, i, outcome)
    else
      var (created, ok) := Create(w, i, false, fd, optOk);
      if ok then Connected(created, i, outcome) else created
  }

  function Connect(w: World, i: nat, fd: int, optOk: bool, outcome: ConnectOutcome): World
    requires i < |w.socks|
  {
    if w.socks[i].state != CsClosed then w else DoConnect(w, i, fd, optOk, outcome)
  }

  function Listen(w: World, i: nat, ok: bool): World
    requires i < |w.socks|
  {
    if w.socks[i].fd == INVALID_SOCKET || !ok then w
    else EnableEvents(WithSock(w, i, w.socks[i].(state := CsConnecting)), i, DE_ACCEPT)
  }

  /** PhysicalSocketServer::WrapSocket; a dispatcher whose Initialize fails is deleted, which closes it. */
  function WrapSocket(w: World, fd: int, optOk: bool): World
  {
    if optOk then Add(Wrapping(w, fd), |w.socks|) else Close(Wrapping(w, fd), |w.socks|)
  }

  /** A dispatcher for a connected descriptor, not registered yet. */
  function Wrapping(w: World, fd: int): (r: World)
    ensures |r.socks| == |w.socks| + 1
  {
    w.(socks := w.socks + [Sock(fd, false, CsConnected, DE_READ | DE_WRITE, NoBatch)], open := w.open[fd := |w.socks|])
  }

  /** Accept once it has asked for more: ::accept and the new dispatcher. */
  function Accepted(w: World, i: nat, fd: int, optOk: bool): World
    requires i < |w.socks|
  {
    if w.socks[i].fd == INVALID_SOCKET || Granted(w, fd) == INVALID_SOCKET then w
    else WrapSocket(w, fd, optOk)
  }

  function Accept(w: World, i: nat, fd: int, optOk: bool): World
    requires i < |w.socks|
  {
    Accepted(EnableEvents(w, i, DE_ACCEPT), i, fd, optOk)
  }

  datatype RecvOutcome = RecvData | RecvEof | RecvBlocking | RecvError

  function Recv(w: World, i: nat, outcome: RecvOutcome): World
    requires i < |w.socks|
  {
    var failed := outcome == RecvError || w.socks[i].fd == INVALID_SOCKET;
    if failed && !w.socks[i].udp then w else EnableEvents(w, i, DE_READ)
  }

  /** PhysicalSocketServer::CreateSocket. */
  function CreateSocket(w: World, dgram: bool, fd: int, optOk: bool): World
  {
    var i := |w.socks|;
    var made := w.(socks := w.socks + [Sock(INVALID_SOCKET, false, CsClosed, DE_READ | DE_WRITE, NoBatch)]);
    var (created, ok) := Create(made, i, dgram, fd, optOk);
    if ok then created else Close(created, i)
  }

  // ----- what a handler may do -----

  datatype Op =
    | CreateOp(who: nat, dgram: bool, fd: int, optOk: bool)
    | ConnectOp(who: nat, fd: int, optOk: bool, result: ConnectOutcome)
    | ListenOp(who: nat, ok: bool)
    | AcceptOp(who: nat, fd: int, optOk: bool)
    | RecvOp(who: nat, got: RecvOutcome)
    | CloseOp(who: nat)
    | CreateSocketOp(dgram: bool, fd: int, optOk: bool)

  function ApplyOp(w: World, op: Op): (r: World)
    ensures |w.socks| <= |r.socks|
  {
    if op.CreateSocketOp? then CreateSocket(w, op.dgram, op.fd, op.optOk)
    else if !IsSocket(w, op.who) then w
    else match op
      case CreateOp(i, dgram, fd, optOk) => Create(w, i, dgram, fd, optOk).0
      case ConnectOp(i, fd, optOk, outcome) => Connect(w, i, fd, optOk, outcome)
      case ListenOp(i, ok) => Listen(w, i, ok)
      case AcceptOp(i, fd, optOk) => Accept(w, i, fd, optOk)
      case RecvOp(i, outcome) => Recv(w, i, outcome)
      case CloseOp(i) => Close(w, i)
  }

  function Note(w: World, act: Act): World {
    w.(hist := w.hist.(acts := w.hist.acts + [act]))
  }

  /** One operation of a slot, noted. */
  function RunOp(w: World, op: Op): (r: World)
    ensures |w.socks| <= |r.socks|
  {
    ApplyOp(Note(w, Did(op)), op)
  }

  /** What a slot does, in order. */
  function RunOps(w: World, ops: seq<Op>): (r: World)
    ensures |w.socks| <= |r.socks|
    decreases |ops|
  {
    if ops == [] then w else RunOp(RunOps(w, ops[..|ops| - 1]), ops[|ops| - 1])
  }

  /** What the slots of the four signals do when OnEvent fires them. */
  datatype Handlers = Handlers(
    onConnect: seq<Op>, onAccept: seq<Op>, onRead: seq<Op>, onWrite: seq<Op>, onClose: seq<Op>)

  // ----- OnEvent -----

  function StartBatch(w: World, i: nat): World
    requires i < |w.socks|
  {
    WithSock(w, i, w.socks[i].(saved := Batched(w.socks[i].enabled)))
  }

  /** The int -1 read back as a uint8_t is 0xFF. */
  function SavedAsEvents(s: Saved): bv8 {
    match s
    case NoBatch => 0xFF
    case Batched(events) => events
  }

  function FinishBatch(w: World, i: nat): (r: World)
    requires i < |w.socks|
    ensures |r.socks| == |w.socks|
  {
    MayBeUpdateDispatcher(WithSock(w, i, w.socks[i].(saved := NoBatch)), i, SavedAsEvents(w.socks[i].saved))
  }

  function Announce(w: World, i: nat, flag: bv8): World {
    Note(w, Fired(i, flag))
  }

  /** One stanza of OnEvent: if the flag is reported, disable it and fire its signal. */
  function Fire(w: World, i: nat, ff: bv8, flag: bv8, slots: seq<Op>): (r: World)
    requires i < |w.socks|
    ensures |w.socks| <= |r.socks|
  {
    if ff & flag != 0 then RunOps(Announce(DisableEvents(w, i, flag), i, flag), slots) else w
  }

  function FireAll(w: World, i: nat, ff: bv8, h: Handlers): (r: World)
    requires i < |w.socks|
    ensures |w.socks| <= |r.socks|
  {
    var w1 := Fire(w, i, ff, DE_CONNECT, h.onConnect);
    var w2 := Fire(w1, i, ff, DE_ACCEPT, h.onAccept);
    var w3 := Fire(w2, i, ff, DE_READ, h.onRead);
    var w4 := Fire(w3, i, ff, DE_WRITE, h.onWrite);
    Fire(w4, i, ff, DE_CLOSE, h.onClose)
  }

  function StateAfter(state: ConnState, ff: bv8): ConnState {
    if ff & DE_CLOSE != 0 then CsClosed
    else if ff & DE_CONNECT != 0 then CsConnected
    else state
  }

  function EnterEvent(w: World, i: nat, ff: bv8): World
    requires i < |w.socks|
  {
    WithSock(w, i, w.socks[i].(state := StateAfter(w.socks[i].state, ff)))
  }

  function OnEvent(w: World, i: nat, ff: bv8, h: Handlers): (r: World)
    requires i < |w.socks|
    ensures |w.socks| <= |r.socks|
  {
    FinishBatch(FireAll(StartBatch(EnterEvent(w, i, ff), i), i, ff, h), i)
  }

  /** OnEvent without batching: every change of interest goes to the kernel at once. */
  function EagerOnEvent(w: World, i: nat, ff: bv8, h: Handlers): (r: World)
    requires i < |w.socks|
    ensures |w.socks| <= |r.socks|
  {
    FireAll(EnterEvent(w, i, ff), i, ff, h)
  }

  /** Signaler::OnEvent, as far as the socket server is concerned. */
  function SignalerOnEvent(w: World): World {
    w.(flagWait := false)
  }

  // ----- dispatch -----

  /** What a wait reports about a descriptor; errcode is what getsockopt yields, eof what a peeking recv finds. */
  datatype Report = Report(readable: bool, writable: bool, checkError: bool, errcode: int, eof: bool)

  function IsDescriptorClosed(w: World, i: nat, eof: bool): bool
    requires i < |w.socks|
  {
    if i == 0 then false
    else if w.socks[i].udp then w.socks[i].fd == INVALID_SOCKET
    else eof
  }

  predicate IsFailed(r: Report) {
    r.checkError && r.errcode != 0
  }

  function ReadFlags(w: World, i: nat, r: Report): bv8
    requires i < |w.socks|
  {
    if !r.readable then 0
    else if IsFailed(r) || IsDescriptorClosed(w, i, r.eof) then DE_CLOSE
    else if w.socks[i].enabled & DE_ACCEPT != 0 then DE_ACCEPT
    else DE_READ
  }

  function WriteFlags(w: World, i: nat, r: Report): bv8
    requires i < |w.socks|
  {
    if !r.writable then 0
    else if w.socks[i].enabled & DE_CONNECT == 0 then DE_WRITE
    else if IsFailed(r) then 0
    else DE_CONNECT
  }

  function EventFlags(w: World, i: nat, r: Report): bv8
    requires i < |w.socks|
  {
    ReadFlags(w, i, r) | WriteFlags(w, i, r) | (if IsFailed(r) then DE_CLOSE else 0)
  }

  function ProcessEvents(w: World, key: nat, i: nat, r: Report, h: Handlers): World
    requires i < |w.socks|
  {
    var ff := EventFlags(w, i, r);
    if ff == 0 then w
    else
      var logged := w.(hist := w.hist.(delivered := w.hist.delivered + [(key, i, ff)]));
      if i == 0 then SignalerOnEvent(logged) else OnEvent(logged, i, ff, h)
  }

  /** An epoll event, together with what the slots will do if it is delivered. */
  datatype Event = Event(key: nat, report: Report, handlers: Handlers)

  function DeliverEvent(w: World, e: Event): World {
    if e.key in w.byKey && w.byKey[e.key] < |w.socks|
    then ProcessEvents(w, e.key, w.byKey[e.key], e.report, e.handlers)
    else w
  }

  /** One pass of WaitEpoll over the events epoll_wait returned. */
  function ProcessBatch(w: World, events: seq<Event>): World
    decreases |events|
  {
    if events == [] then w else DeliverEvent(ProcessBatch(w, events[..|events| - 1]), events[|events| - 1])
  }

  /** The world after the constructor of PhysicalSocketServer, whose Signaler registers first. */
  predicate InitWorld(w: World) {
    && |w.socks| == 1
    && w.socks[0].enabled == DE_READ && w.socks[0].saved == NoBatch && 0 <= w.socks[0].fd
    && w.open == map[w.socks[0].fd := 0]
    && w.nextKey == 1 && w.byKey == map[0 := 0] && w.keyOf == map[0 := 0]
    && w.epoll == map[w.socks[0].fd := Entry(EPOLLIN, 0)]
    && w.hist == History([], [], map[], {}, [], [])
  }
}
