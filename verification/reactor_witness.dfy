/** Runs of a new server: one in which a socket stays watched for nothing, one in which a connected one never is. */
module ReactorWitness {
  import opened ReactorModel
  import opened ReactorRegistry
  import opened ReactorEvents
  import opened ReactorBatching

  /** A server just made, whose Signaler reads from descriptor 3. */
  function NewServer(): World {
    World([Sock(3, false, CsConnected, DE_READ, NoBatch)], 1, map[0 := 0], map[0 := 0],
          map[3 := Entry(EPOLLIN, 0)], map[3 := 0], false, History([], [], map[], {}, [], []))
  }

  /** The server and one socket, which is registered under `key` and watched for `mask`. */
  predicate Registered(w: World, s: Sock, key: nat, mask: bv8) {
    && |w.socks| == 2 && w.socks[0] == NewServer().socks[0] && w.socks[1] == s
    && w.nextKey == key + 1
    && w.byKey == map[0 := 0, key := 1] && w.keyOf == map[0 := 0, 1 := key]
    && w.open == map[3 := 0, s.fd := 1]
    && w.epoll == map[3 := Entry(EPOLLIN, 0), s.fd := Entry(mask, key)]
  }

  /** The server and one socket without a descriptor; the next key is `next`. */
  predicate Unregistered(w: World, s: Sock, next: nat) {
    && |w.socks| == 2 && w.socks[0] == NewServer().socks[0] && w.socks[1] == s && s.fd == INVALID_SOCKET
    && w.nextKey == next
    && w.byKey == map[0 := 0] && w.keyOf == map[0 := 0] && w.open == map[3 := 0]
    && w.epoll == map[3 := Entry(EPOLLIN, 0)]
  }

  // ----- operations on the one socket -----

  lemma Closes(w: World, s: Sock, key: nat, mask: bv8)
    requires Registered(w, s, key, mask) && s.fd > 3 && key > 0
    ensures Unregistered(Close(w, 1), Sock(INVALID_SOCKET, s.udp, CsClosed, 0, SavedOnClose(s.saved)), key + 1)
  {
    var w1 := Unregister(w, 1, SavedOnClose(s.saved));
    UnregisterFields(w, 1, SavedOnClose(s.saved));
    assert w1.byKey == map[0 := 0] && w1.keyOf == map[0 := 0] && w1.open == map[3 := 0];
    assert w1.epoll == map[3 := Entry(EPOLLIN, 0)];
    SetEnabledUnregistered(w1, w1.socks[1], key + 1, 0);
  }

  lemma SetEnabledUnregistered(w: World, s: Sock, next: nat, events: bv8)
    requires Unregistered(w, s, next)
    ensures Unregistered(SetEnabledEvents(w, 1, events), s.(enabled := events), next)
  {
  }

  lemma Opens(w: World, s: Sock, next: nat, dgram: bool, fd: int)
    requires Unregistered(w, s, next) && fd > 3
    ensures var w' := OpenSocket(w, 1, dgram, fd);
            && |w'.socks| == 2 && w'.socks[0] == w.socks[0]
            && w'.socks[1] == s.(fd := fd, udp := dgram, enabled := if dgram then DE_READ | DE_WRITE else s.enabled)
            && w'.nextKey == next && w'.byKey == w.byKey && w'.keyOf == w.keyOf && w'.epoll == w.epoll
            && w'.open == map[3 := 0, fd := 1]
  {
  }

  lemma Creates(w: World, s: Sock, next: nat, dgram: bool, fd: int)
    requires Unregistered(w, s, next) && fd > 3 && next > 0
    requires GetEpollEvents(if dgram then DE_READ | DE_WRITE else s.enabled) != 0
    ensures var enabled := if dgram then DE_READ | DE_WRITE else s.enabled;
            && Create(w, 1, dgram, fd, true).1
            && Registered(Create(w, 1, dgram, fd, true).0, s.(fd := fd, udp := dgram, enabled := enabled),
                          next, GetEpollEvents(enabled))
  {
    Opens(w, s, next, dgram, fd);
    AddFields(OpenSocket(w, 1, dgram, fd), 1);
  }

  // ----- the slot -----

  /** The slot closes its socket, opens it for datagrams, closes that, asks to read, and opens it as a stream again. */
  function ReopeningOps(): seq<Op> {
    ClosingOps() + [RecvOp(1, RecvError)] + [CreateOp(1, false, 5, true)]
  }

  function ClosingOps(): seq<Op> {
    [CloseOp(1), CreateOp(1, true, 5, true), CloseOp(1)]
  }

  function ReopeningSlots(): Handlers {
    Handlers(ReopeningOps(), [], [], [], [])
  }

  lemma OneMoreOp(w: World, ops: seq<Op>, n: nat) returns (w': World)
    requires n < |ops|
    ensures w' == RunOps(w, ops[..n + 1]) == RunOp(RunOps(w, ops[..n]), ops[n])
  {
    assert ops[..n + 1][..n] == ops[..n];
    w' := RunOps(w, ops[..n + 1]);
  }

  lemma OpCloses(w: World, s: Sock, key: nat, mask: bv8)
    requires Registered(w, s, key, mask) && s.fd > 3 && key > 0
    ensures Unregistered(RunOp(w, CloseOp(1)),
                         Sock(INVALID_SOCKET, s.udp, CsClosed, 0, SavedOnClose(s.saved)), key + 1)
  {
    Closes(Note(w, Did(CloseOp(1))), s, key, mask);
  }

  lemma OpCreates(w: World, s: Sock, next: nat, dgram: bool)
    requires Unregistered(w, s, next) && next > 0
    requires GetEpollEvents(if dgram then DE_READ | DE_WRITE else s.enabled) != 0
    ensures var enabled := if dgram then DE_READ | DE_WRITE else s.enabled;
            Registered(RunOp(w, CreateOp(1, dgram, 5, true)), s.(fd := 5, udp := dgram, enabled := enabled),
                       next, GetEpollEvents(enabled))
  {
    Creates(Note(w, Did(CreateOp(1, dgram, 5, true))), s, next, dgram, 5);
  }

  lemma OpReads(w: World, s: Sock, next: nat)
    requires Unregistered(w, s, next) && s.udp
    ensures Unregistered(RunOp(w, RecvOp(1, RecvError)), s.(enabled := s.enabled | DE_READ), next)
  {
    SetEnabledUnregistered(Note(w, Did(RecvOp(1, RecvError))), s, next, s.enabled | DE_READ);
  }

  /** The socket within its batch, before the slot runs. */
  predicate Entered(w: World) {
    Registered(w, Sock(4, false, CsConnected, DE_READ | DE_WRITE, Batched(DE_READ | DE_WRITE | DE_CONNECT)),
               1, EPOLLIN | EPOLLOUT)
  }

  lemma SlotClosesTwice(w: World)
    requires Entered(w)
    ensures Unregistered(RunOps(w, ClosingOps()), Sock(INVALID_SOCKET, true, CsClosed, 0, Batched(0)), 3)
  {
    var ops := ClosingOps();
    assert ops[..0] == [] && ops[..3] == ops;
    OpCloses(w, w.socks[1], 1, EPOLLIN | EPOLLOUT);
    var w1 := OneMoreOp(w, ops, 0);
    OpCreates(w1, Sock(INVALID_SOCKET, false, CsClosed, 0, Batched(0)), 2, true);
    var w2 := OneMoreOp(w, ops, 1);
    OpCloses(w2, Sock(5, true, CsClosed, DE_READ | DE_WRITE, Batched(0)), 2, EPOLLIN | EPOLLOUT);
    var w3 := OneMoreOp(w, ops, 2);
  }

  lemma LastTwoOps(w: World, ops: seq<Op>, a: Op, b: Op)
    ensures RunOps(w, ops + [a] + [b]) == RunOp(RunOp(RunOps(w, ops), a), b)
  {
    assert (ops + [a] + [b])[..|ops| + 1] == ops + [a];
    assert (ops + [a])[..|ops|] == ops;
  }

  lemma ReadsAndCreates(w: World)
    requires Unregistered(w, Sock(INVALID_SOCKET, true, CsClosed, 0, Batched(0)), 3)
    ensures Registered(RunOp(RunOp(w, RecvOp(1, RecvError)), CreateOp(1, false, 5, true)),
                       Sock(5, false, CsClosed, DE_READ, Batched(0)), 3, EPOLLIN)
  {
    OpReads(w, Sock(INVALID_SOCKET, true, CsClosed, 0, Batched(0)), 3);
    OpCreates(RunOp(w, RecvOp(1, RecvError)), Sock(INVALID_SOCKET, true, CsClosed, DE_READ, Batched(0)), 3, false);
  }

  /** Within its batch the socket ends up registered anew, as a stream socket that asks to read. */
  lemma SlotReopens(w: World)
    requires Entered(w)
    ensures Registered(RunOps(w, ReopeningOps()), Sock(5, false, CsClosed, DE_READ, Batched(0)), 3, EPOLLIN)
  {
    SlotClosesTwice(w);
    ReadsAndCreates(RunOps(w, ClosingOps()));
    LastTwoOps(w, ClosingOps(), RecvOp(1, RecvError), CreateOp(1, false, 5, true));
  }

  // ----- the event -----

  lemma Disarms(w: World, s: Sock, key: nat, mask: bv8, flag: bv8)
    requires Registered(w, s, key, mask) && s.saved.Batched?
    ensures Registered(Announce(DisableEvents(w, 1, flag), 1, flag), s.(enabled := Without(s.enabled, flag)), key, mask)
  {
  }

  lemma OnlyTwoFlags(w: World, h: Handlers)
    requires 1 < |w.socks| && h.onRead == []
    ensures FireAll(w, 1, DE_CONNECT | DE_READ, h) ==
            Announce(DisableEvents(Fire(w, 1, DE_CONNECT | DE_READ, DE_CONNECT, h.onConnect), 1, DE_READ), 1, DE_READ)
  {
  }

  lemma Enters(w: World)
    requires Registered(w, Sock(4, false, CsConnecting, DE_READ | DE_WRITE | DE_CONNECT, NoBatch),
                        1, EPOLLIN | EPOLLOUT)
    ensures Registered(StartBatch(EnterEvent(w, 1, DE_CONNECT | DE_READ), 1),
                       Sock(4, false, CsConnected, DE_READ | DE_WRITE | DE_CONNECT,
                            Batched(DE_READ | DE_WRITE | DE_CONNECT)), 1, EPOLLIN | EPOLLOUT)
  {
  }

  lemma Finishes(w: World)
    requires Registered(w, Sock(5, false, CsClosed, 0, Batched(0)), 3, EPOLLIN)
    ensures Registered(FinishBatch(w, 1), Sock(5, false, CsClosed, 0, NoBatch), 3, EPOLLIN)
  {
  }

  lemma EventReopens(w: World)
    requires Registered(w, Sock(4, false, CsConnecting, DE_READ | DE_WRITE | DE_CONNECT, NoBatch),
                        1, EPOLLIN | EPOLLOUT)
    ensures Registered(OnEvent(w, 1, DE_CONNECT | DE_READ, ReopeningSlots()), Sock(5, false, CsClosed, 0, NoBatch),
                       3, EPOLLIN)
  {
    var ff := DE_CONNECT | DE_READ;
    Enters(w);
    var w1 := StartBatch(EnterEvent(w, 1, ff), 1);
    Disarms(w1, w1.socks[1], 1, EPOLLIN | EPOLLOUT, DE_CONNECT);
    var w2 := Announce(DisableEvents(w1, 1, DE_CONNECT), 1, DE_CONNECT);
    SlotReopens(w2);
    var w3 := RunOps(w2, ReopeningOps());
    assert Fire(w1, 1, ff, DE_CONNECT, ReopeningOps()) == w3;
    Disarms(w3, w3.socks[1], 3, EPOLLIN, DE_READ);
    OnlyTwoFlags(w1, ReopeningSlots());
    Finishes(Announce(DisableEvents(w3, 1, DE_READ), 1, DE_READ));
  }

  // ----- the run -----

  /** Make a stream socket, connect it, and handle one event that says it is connected and has input. */
  function ReopeningRun(): seq<Move> {
    [Do(CreateSocketOp(false, 4, true)), Do(ConnectOp(1, 4, true, ConnectBlocking)),
     Pass([Event(1, Report(true, true, false, 0, false), ReopeningSlots())])]
  }

  lemma SocketIsMade()
    ensures Registered(CreateSocket(NewServer(), false, 4, true),
                       Sock(4, false, CsClosed, DE_READ | DE_WRITE, NoBatch), 1, EPOLLIN | EPOLLOUT)
  {
    var s := Sock(INVALID_SOCKET, false, CsClosed, DE_READ | DE_WRITE, NoBatch);
    Creates(NewServer().(socks := NewServer().socks + [s]), s, 1, false, 4);
  }

  lemma SocketConnects(w: World)
    requires Registered(w, Sock(4, false, CsClosed, DE_READ | DE_WRITE, NoBatch), 1, EPOLLIN | EPOLLOUT)
    ensures Registered(Connect(w, 1, 4, true, ConnectBlocking),
                       Sock(4, false, CsConnecting, DE_READ | DE_WRITE | DE_CONNECT, NoBatch), 1, EPOLLIN | EPOLLOUT)
  {
  }

  lemma EventIsDelivered(w: World, e: Event)
    requires Registered(w, Sock(4, false, CsConnecting, DE_READ | DE_WRITE | DE_CONNECT, NoBatch),
                        1, EPOLLIN | EPOLLOUT)
    requires e == Event(1, Report(true, true, false, 0, false), ReopeningSlots())
    ensures Registered(DeliverEvent(w, e), Sock(5, false, CsClosed, 0, NoBatch), 3, EPOLLIN)
  {
    assert EventFlags(w, 1, e.report) == DE_CONNECT | DE_READ;
    EventReopens(w.(hist := w.hist.(delivered := w.hist.delivered + [(1, 1, DE_CONNECT | DE_READ)])));
  }

  lemma RunIsMoves(w: World, moves: seq<Move>, n: nat)
    requires n < |moves|
    ensures RunMoves(w, moves[..n + 1]) == MakeMove(RunMoves(w, moves[..n]), moves[n])
  {
    assert moves[..n + 1][..n] == moves[..n];
  }

  /**
   The exception to the mirror occurs: a new server, one stream socket, one event, and the kernel watches the socket
   for input though it asks for nothing.
   */
  lemma ReopenedStaysWatched()
    ensures InitWorld(NewServer())
    ensures var w := RunMoves(NewServer(), ReopeningRun());
            && |w.socks| == 2 && w.socks[1].enabled == 0 && w.socks[1].saved == NoBatch
            && 1 in w.keyOf && Mask(w.epoll, w.socks[1].fd) == EPOLLIN
  {
    var moves := ReopeningRun();
    RunIsMoves(NewServer(), moves, 0);
    RunIsMoves(NewServer(), moves, 1);
    RunIsMoves(NewServer(), moves, 2);
    assert moves[..3] == moves && moves[..0] == [];
    SocketIsMade();
    var w1 := RunMoves(NewServer(), moves[..1]);
    assert w1 == CreateSocket(NewServer(), false, 4, true);
    SocketConnects(w1);
    var w2 := RunMoves(NewServer(), moves[..2]);
    assert w2 == Connect(w1, 1, 4, true, ConnectBlocking);
    var events := moves[2].events;
    EventIsDelivered(w2, events[0]);
    assert events[..0] == [];
    assert ProcessBatch(w2, events) == DeliverEvent(w2, events[0]);
  }

  // ----- a connected socket nobody watches -----

  /** Make a socket, close it, and connect it twice; setsockopt fails the first time. */
  function DeafRun(): seq<Move> {
    [Do(CreateSocketOp(false, 4, true)), Do(CloseOp(1)), Do(ConnectOp(1, 5, false, ConnectOk)),
     Do(ConnectOp(1, 6, true, ConnectOk))]
  }

  /** The socket has descriptor 5, and neither the registry nor the kernel knows it. */
  predicate OpenUnregistered(w: World, s: Sock) {
    && |w.socks| == 2 && w.socks[1] == s && s.fd == 5
    && w.keyOf == map[0 := 0] && w.byKey == map[0 := 0] && w.epoll == map[3 := Entry(EPOLLIN, 0)]
  }

  lemma FirstConnectFails(w: World)
    requires Unregistered(w, Sock(INVALID_SOCKET, false, CsClosed, 0, NoBatch), 2)
    ensures OpenUnregistered(Connect(w, 1, 5, false, ConnectOk), Sock(5, false, CsClosed, 0, NoBatch))
  {
    Opens(w, w.socks[1], 2, false, 5);
    assert Close(w, 1) == w;
  }

  lemma SecondConnectSucceeds(w: World)
    requires OpenUnregistered(w, Sock(5, false, CsClosed, 0, NoBatch))
    ensures OpenUnregistered(Connect(w, 1, 6, true, ConnectOk),
                             Sock(5, false, CsConnected, DE_READ | DE_WRITE, NoBatch))
  {
  }

  /**
   A connect that succeeds need not be watched: the socket is connected and asks for input and output, and neither has
   it a key nor its descriptor an entry in the epoll table.
   */
  lemma ConnectedUnwatched()
    ensures InitWorld(NewServer())
    ensures var w := RunMoves(NewServer(), DeafRun());
            && |w.socks| == 2 && w.socks[1] == Sock(5, false, CsConnected, DE_READ | DE_WRITE, NoBatch)
            && 1 !in w.keyOf && 5 !in w.epoll
  {
    var moves := DeafRun();
    assert moves[..0] == [] && moves[..4] == moves;
    RunIsMoves(NewServer(), moves, 0);
    RunIsMoves(NewServer(), moves, 1);
    RunIsMoves(NewServer(), moves, 2);
    RunIsMoves(NewServer(), moves, 3);
    SocketIsMade();
    var w1 := RunMoves(NewServer(), moves[..1]);
    assert w1 == CreateSocket(NewServer(), false, 4, true);
    Closes(w1, w1.socks[1], 1, EPOLLIN | EPOLLOUT);
    var w2 := RunMoves(NewServer(), moves[..2]);
    assert w2 == Close(w1, 1);
    FirstConnectFails(w2);
    var w3 := RunMoves(NewServer(), moves[..3]);
    assert w3 == Connect(w2, 1, 5, false, ConnectOk);
    SecondConnectSucceeds(w3);
    assert RunMoves(NewServer(), moves) == Connect(w3, 1, 6, true, ConnectOk);
  }
}
