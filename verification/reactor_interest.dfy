/** What a socket asks for reaches the kernel: operations arm their descriptor, and what events tell. */
module ReactorInterest {
  import opened ReactorModel
  import opened ReactorRegistry
  import opened ReactorEvents

  /** A registered socket outside any batch whose interest the kernel knows. */
  ghost predicate Settled(w: World, i: nat) {
    && Consistent(w) && IsSocket(w, i) && i in w.keyOf
    && w.socks[i].saved == NoBatch && Mirrored(w, i)
  }

  /** The kernel watches exactly for `mask` on the descriptor of i, and reports it under its key. */
  ghost predicate Armed(w: World, i: nat, mask: bv8) {
    && i < |w.socks| && i in w.keyOf
    && Mask(w.epoll, w.socks[i].fd) == mask
    && (mask != 0 ==> w.socks[i].fd in w.epoll && w.epoll[w.socks[i].fd] == Entry(mask, w.keyOf[i]))
  }

  /**
   Any socket outside a batch: if it is registered, the kernel is right about it, or it is the one exception. It may
   have a descriptor and not be registered, as a failed setsockopt leaves it.
   */
  ghost predicate Resting(w: World, i: nat) {
    && Consistent(w) && IsSocket(w, i) && w.socks[i].saved == NoBatch
    && (i in w.keyOf ==> Watched(w, i))
  }

  /** If i is registered the kernel watches exactly for `mask` and reports it under its key, if not for nothing. */
  ghost predicate ArmedIfRegistered(w: World, i: nat, mask: bv8) {
    i < |w.socks| && if i in w.keyOf then Armed(w, i, mask) else Mask(w.epoll, w.socks[i].fd) == 0
  }

  lemma RestingIsArmed(w: World, i: nat)
    requires Resting(w, i) && GetEpollEvents(w.socks[i].enabled) != 0
    ensures ArmedIfRegistered(w, i, GetEpollEvents(w.socks[i].enabled))
    ensures i in w.keyOf ==> Settled(w, i)
  {
    if w.socks[i].fd in w.epoll {
      EntryKey(w, i);
    }
  }

  lemma SettledIsArmed(w: World, i: nat)
    requires Settled(w, i)
    ensures Armed(w, i, GetEpollEvents(w.socks[i].enabled))
  {
    if w.socks[i].fd in w.epoll {
      EntryKey(w, i);
    }
  }

  /** Asking for more, after a change of state as Connect and Listen make it. */
  lemma EnableRests(w: World, i: nat, state: ConnState, events: bv8)
    requires Resting(w, i)
    ensures var w' := EnableEvents(WithSock(w, i, w.socks[i].(state := state)), i, events);
            && Resting(w', i) && w'.keyOf == w.keyOf
            && w'.socks[i] == w.socks[i].(state := state, enabled := w.socks[i].enabled | events)
  {
    var w1 := WithSock(w, i, w.socks[i].(state := state));
    SetStateKeeps(w, i, state);
    SetEnabledKeeps(w1, i, With(w1.socks[i].enabled, events));
    SetEnabledTouches(w1, i, With(w1.socks[i].enabled, events));
  }

  /** Asking for input or output reaches the kernel if and only if the socket is registered. */
  lemma EnableArms(w: World, i: nat, state: ConnState, events: bv8)
    requires Resting(w, i) && GetEpollEvents(events) != 0
    ensures var w' := EnableEvents(WithSock(w, i, w.socks[i].(state := state)), i, events);
            && Resting(w', i) && w'.keyOf == w.keyOf
            && w'.socks[i] == w.socks[i].(state := state, enabled := w.socks[i].enabled | events)
            && ArmedIfRegistered(w', i, GetEpollEvents(w'.socks[i].enabled))
            && (i in w'.keyOf ==> Settled(w', i))
  {
    EnableRests(w, i, state, events);
    MoreAsks(w.socks[i].enabled, events);
    RestingIsArmed(EnableEvents(WithSock(w, i, w.socks[i].(state := state)), i, events), i);
  }

  lemma MoreAsks(enabled: bv8, events: bv8)
    ensures GetEpollEvents(enabled | events) == GetEpollEvents(enabled) | GetEpollEvents(events)
    ensures GetEpollEvents(events) != 0 ==> GetEpollEvents(enabled | events) != 0
  {
  }

  /** Between the moves of every run every socket is of this kind. */
  lemma RunsLeaveResting(w: World, moves: seq<Move>, i: nat)
    requires InitWorld(w) && IsSocket(RunMoves(w, moves), i)
    ensures Resting(RunMoves(w, moves), i)
  {
    InitIsConsistent(w);
    RunServes(w, moves);
  }

  // ----- operations arm -----

  /** What Close leaves of a dispatcher outside a batch: all its interest is gone, if it had a descriptor. */
  function AfterClose(s: Sock): Sock {
    if s.fd == INVALID_SOCKET then s else s.(fd := INVALID_SOCKET, state := CsClosed, enabled := 0)
  }

  /**
   Create registers the dispatcher under a new key. A datagram socket is watched for both directions at once, a stream
   socket for what is left of its interest: both directions if it never had a descriptor, nothing if it had.
   */
  lemma CreateArms(w: World, i: nat, dgram: bool, fd: int)
    requires Consistent(w) && IsSocket(w, i) && w.socks[i].saved == NoBatch
    requires Granted(Close(w, i), fd) == fd != INVALID_SOCKET
    ensures var (w', ok) := Create(w, i, dgram, fd, true);
            var enabled := if dgram then DE_READ | DE_WRITE else AfterClose(w.socks[i]).enabled;
            && ok && Settled(w', i) && Resting(w', i)
            && w'.socks[i] == AfterClose(w.socks[i]).(fd := fd, udp := dgram, enabled := enabled)
            && w'.keyOf[i] == w.nextKey
            && Armed(w', i, GetEpollEvents(enabled))
  {
    CloseKeeps(w, i);
    var w1 := Close(w, i);
    ClosedSock(w, i);
    OpenSocketKeeps(w1, i, dgram, fd);
    var w2 := OpenSocket(w1, i, dgram, fd);
    OpenedSock(w1, i, dgram, fd);
    AddRegisters(w2, i);
    AddKeeps(w2, i);
    SettledIsArmed(Add(w2, i), i);
  }

  lemma ClosedSock(w: World, i: nat)
    requires Consistent(w) && IsSocket(w, i) && w.socks[i].saved == NoBatch
    ensures var w' := Close(w, i);
            w'.socks[i] == AfterClose(w.socks[i]) && w'.nextKey == w.nextKey
  {
    if w.socks[i].fd != INVALID_SOCKET {
      var w1 := Unregister(w, i, NoBatch);
      UnregisterDrops(w, i, NoBatch);
      DroppingKeeps(w, w1, i);
      SetEnabledTouches(w1, i, 0);
      UnregisteredSock(w, i);
    }
  }

  lemma UnregisteredSock(w: World, i: nat)
    requires i < |w.socks| && w.socks[i].saved == NoBatch
    ensures Unregister(w, i, NoBatch).socks[i] == w.socks[i].(fd := INVALID_SOCKET, state := CsClosed)
  {
    RemoveLeavesRest(WithSock(w, i, w.socks[i]), i);
  }

  lemma OpenedSock(w: World, i: nat, dgram: bool, fd: int)
    requires Consistent(w) && IsSocket(w, i) && w.socks[i].fd == INVALID_SOCKET && Granted(w, fd) == fd
    ensures var w' := OpenSocket(w, i, dgram, fd);
            && w'.socks[i] == w.socks[i].(fd := fd, udp := dgram,
                                          enabled := if dgram then DE_READ | DE_WRITE else w.socks[i].enabled)
            && w'.nextKey == w.nextKey
  {
    GiveFdKeeps(w, i, fd, dgram);
    if dgram {
      SetEnabledTouches(GiveFd(w, i, fd, dgram), i, DE_READ | DE_WRITE);
    }
  }

  /** Create registers if and only if it succeeds. If only setsockopt fails, it leaves the descriptor open. */
  lemma CreateRegistersIff(w: World, i: nat, dgram: bool, fd: int, optOk: bool)
    requires Consistent(w) && IsSocket(w, i)
    ensures var (w', ok) := Create(w, i, dgram, fd, optOk);
            && (ok <==> i in w'.keyOf)
            && (ok <==> Granted(Close(w, i), fd) != INVALID_SOCKET && optOk)
            && w'.socks[i].fd == Granted(Close(w, i), fd)
  {
    CloseKeeps(w, i);
    var w1 := Close(w, i);
    OpenSocketKeeps(w1, i, dgram, fd);
    if Granted(w1, fd) != INVALID_SOCKET && optOk {
      AddKeeps(OpenSocket(w1, i, dgram, fd), i);
    }
  }

  /** The world in which ::connect is called, if it is: DoConnect first makes a socket if there is none. */
  function ReadyToConnect(w: World, i: nat, fd: int, optOk: bool): (World, bool)
    requires i < |w.socks|
  {
    if w.socks[i].fd != INVALID_SOCKET then (w, true) else Create(w, i, false, fd, optOk)
  }

  /**
   What Connect does to the registration of a socket in any state, for every outcome, in a batch or out of one: it
   registers only the socket it makes. One that has a descriptor and is not registered stays so, and one whose
   setsockopt fails becomes so.
   */
  lemma ConnectRegistersIff(w: World, i: nat, fd: int, optOk: bool, outcome: ConnectOutcome)
    requires Consistent(w) && IsSocket(w, i)
    ensures var w', s := Connect(w, i, fd, optOk, outcome), w.socks[i];
            var makes := s.state == CsClosed && s.fd == INVALID_SOCKET && Granted(w, fd) != INVALID_SOCKET;
            && (i in w'.keyOf <==> i in w.keyOf || (makes && optOk))
            && (w'.socks[i].fd != INVALID_SOCKET <==> s.fd != INVALID_SOCKET || makes)
  {
    if w.socks[i].state == CsClosed {
      var (ready, called) := ReadyToConnect(w, i, fd, optOk);
      if w.socks[i].fd == INVALID_SOCKET {
        assert Close(w, i) == w;
        CreateRegistersIff(w, i, false, fd, optOk);
        CreateKeeps(w, i, false, fd, optOk);
      }
      if called {
        ConnectedEffect(ready, i, outcome);
      }
    }
  }

  lemma ConnectedEffect(w: World, i: nat, outcome: ConnectOutcome)
    requires i < |w.socks|
    ensures var w' := Connected(w, i, outcome);
            && w'.keyOf == w.keyOf && |w'.socks| == |w.socks| && w'.socks[i].fd == w.socks[i].fd
  {
    match outcome
    case ConnectOk => EnableEffect(WithSock(w, i, w.socks[i].(state := CsConnected)), i, DE_READ | DE_WRITE);
    case ConnectBlocking =>
      EnableEffect(WithSock(w, i, w.socks[i].(state := CsConnecting)), i, DE_READ | DE_WRITE | DE_CONNECT);
    case ConnectFailed =>
  }

  /**
   Connect does nothing unless the socket is closed. On a closed socket outside a batch, registered or not, with a
   descriptor or without, for every result of every system call: ::connect is called unless there is no descriptor and
   none can be made. If it then succeeds or is under way the state says so, and the kernel watches both directions if
   and only if the socket was registered or is one that Connect made; otherwise it watches nothing. If it fails, all
   that happened is the making of the socket.
   */
  lemma ConnectArms(w: World, i: nat, fd: int, optOk: bool, outcome: ConnectOutcome)
    requires Resting(w, i)
    ensures w.socks[i].state != CsClosed ==> ApplyOp(w, ConnectOp(i, fd, optOk, outcome)) == w
    ensures w.socks[i].state == CsClosed ==>
            var w', (ready, called) := ApplyOp(w, ConnectOp(i, fd, optOk, outcome)), ReadyToConnect(w, i, fd, optOk);
            && (called <==> w.socks[i].fd != INVALID_SOCKET || (Granted(w, fd) != INVALID_SOCKET && optOk))
            && (i in w'.keyOf <==> i in w.keyOf || (w.socks[i].fd == INVALID_SOCKET && called))
            && Resting(ready, i) && Resting(w', i) && ready.socks[i].enabled == w.socks[i].enabled
            && (!called || outcome.ConnectFailed? ==> w' == ready)
            && (called && !outcome.ConnectFailed? ==>
                  && (Mask(w'.epoll, w'.socks[i].fd) == EPOLLIN | EPOLLOUT <==> i in w'.keyOf)
                  && ArmedIfRegistered(w', i, EPOLLIN | EPOLLOUT)
                  && w'.socks[i].state == (if outcome.ConnectOk? then CsConnected else CsConnecting)
                  && (outcome.ConnectBlocking? ==> w'.socks[i].enabled & DE_CONNECT != 0))
  {
    ConnectRegistersIff(w, i, fd, optOk, outcome);
    ReadyRests(w, i, fd, optOk);
    var (ready, called) := ReadyToConnect(w, i, fd, optOk);
    if called {
      ConnectedArms(ready, i, outcome);
    }
  }

  lemma ReadyRests(w: World, i: nat, fd: int, optOk: bool)
    requires Resting(w, i)
    ensures var (ready, called) := ReadyToConnect(w, i, fd, optOk);
            && (called <==> w.socks[i].fd != INVALID_SOCKET || (Granted(w, fd) != INVALID_SOCKET && optOk))
            && Resting(ready, i) && ready.socks[i].enabled == w.socks[i].enabled
  {
    if w.socks[i].fd == INVALID_SOCKET {
      assert Close(w, i) == w;
      if Granted(w, fd) != INVALID_SOCKET && optOk {
        CreateArms(w, i, false, fd);
      } else {
        OpenSocketKeeps(w, i, false, fd);
      }
    }
  }

  lemma ConnectedArms(w: World, i: nat, outcome: ConnectOutcome)
    requires Resting(w, i)
    ensures var w' := Connected(w, i, outcome);
            && Resting(w', i) && w'.keyOf == w.keyOf
            && (outcome.ConnectFailed? ==> w' == w)
            && (!outcome.ConnectFailed? ==>
                  && ArmedIfRegistered(w', i, EPOLLIN | EPOLLOUT)
                  && w'.socks[i].state == (if outcome.ConnectOk? then CsConnected else CsConnecting)
                  && (outcome.ConnectBlocking? ==> w'.socks[i].enabled & DE_CONNECT != 0))
  {
    BothDirections(w.socks[i].enabled);
    match outcome
    case ConnectOk => EnableArms(w, i, CsConnected, DE_READ | DE_WRITE);
    case ConnectBlocking => EnableArms(w, i, CsConnecting, DE_READ | DE_WRITE | DE_CONNECT);
    case ConnectFailed =>
  }

  lemma BothDirections(enabled: bv8)
    ensures GetEpollEvents(enabled | (DE_READ | DE_WRITE)) == EPOLLIN | EPOLLOUT
    ensures GetEpollEvents(enabled | (DE_READ | DE_WRITE | DE_CONNECT)) == EPOLLIN | EPOLLOUT
    ensures (enabled | (DE_READ | DE_WRITE | DE_CONNECT)) & DE_CONNECT != 0
  {
  }

  /**
   A listening socket outside a batch is watched for input if and only if it is registered, and input on it is reported
   as something to accept. If ::listen fails, or there is no descriptor, nothing changes.
   */
  lemma ListenArms(w: World, i: nat, ok: bool, r: Report)
    requires Resting(w, i) && r.readable && !IsFailed(r) && !IsDescriptorClosed(w, i, r.eof)
    ensures var w' := ApplyOp(w, ListenOp(i, ok));
            && (w.socks[i].fd == INVALID_SOCKET || !ok ==> w' == w)
            && (w.socks[i].fd != INVALID_SOCKET && ok ==>
                  && Resting(w', i) && w'.socks[i].state == CsConnecting
                  && (i in w'.keyOf <==> i in w.keyOf)
                  && (Mask(w'.epoll, w'.socks[i].fd) & EPOLLIN != 0 <==> i in w.keyOf)
                  && ReadFlags(w', i, r) == DE_ACCEPT)
  {
    AppliesListen(w, i, ok);
    EnableArms(w, i, CsConnecting, DE_ACCEPT);
    AcceptIsInput(w.socks[i].enabled);
  }

  lemma AppliesListen(w: World, i: nat, ok: bool)
    requires IsSocket(w, i)
    ensures ApplyOp(w, ListenOp(i, ok)) ==
            if w.socks[i].fd == INVALID_SOCKET || !ok then w
            else EnableEvents(WithSock(w, i, w.socks[i].(state := CsConnecting)), i, DE_ACCEPT)
  {
  }

  lemma AcceptIsInput(enabled: bv8)
    ensures (enabled | DE_ACCEPT) & DE_ACCEPT != 0
    ensures GetEpollEvents(enabled | DE_ACCEPT) & EPOLLIN != 0
  {
  }

  /**
   The dispatcher made by Accept is new, connected, registered under a new key and watched for both directions, also
   when a slot calls Accept within the listening socket's own OnEvent. The listening socket asks for more.
   */
  lemma AcceptArms(w: World, i: nat, fd: int)
    requires Consistent(w) && IsSocket(w, i) && w.socks[i].fd != INVALID_SOCKET
    requires Granted(w, fd) == fd != INVALID_SOCKET
    ensures var w', j := Accept(w, i, fd, true), |w.socks|;
            && |w'.socks| == j + 1
            && w'.socks[j] == Sock(fd, false, CsConnected, DE_READ | DE_WRITE, NoBatch)
            && j in w'.keyOf && w'.keyOf[j] == w.nextKey
            && Settled(w', j) && Armed(w', j, EPOLLIN | EPOLLOUT)
            && w'.socks[i] == w.socks[i].(enabled := w.socks[i].enabled | DE_ACCEPT)
            && (i in w'.keyOf <==> i in w.keyOf)
  {
    EnableKeeps(w, i, DE_ACCEPT);
    EnableEffect(w, i, DE_ACCEPT);
    AcceptWraps(w, i, fd);
    WrapArms(EnableEvents(w, i, DE_ACCEPT), fd);
  }

  lemma EnableEffect(w: World, i: nat, events: bv8)
    requires i < |w.socks|
    ensures var w' := EnableEvents(w, i, events);
            && w'.socks == w.socks[i := w.socks[i].(enabled := w.socks[i].enabled | events)]
            && w'.open == w.open && w'.nextKey == w.nextKey && w'.keyOf == w.keyOf
  {
  }

  lemma AcceptWraps(w: World, i: nat, fd: int)
    requires i < |w.socks| && w.socks[i].fd != INVALID_SOCKET && Granted(w, fd) == fd != INVALID_SOCKET
    ensures Accept(w, i, fd, true) == WrapSocket(EnableEvents(w, i, DE_ACCEPT), fd, true)
  {
  }

  lemma WrapArms(w: World, fd: int)
    requires Consistent(w) && 0 <= fd && fd !in w.open
    ensures var w', j := WrapSocket(w, fd, true), |w.socks|;
            && w'.socks == w.socks + [Sock(fd, false, CsConnected, DE_READ | DE_WRITE, NoBatch)]
            && j in w'.keyOf && w'.keyOf == w.keyOf[j := w.nextKey]
            && Settled(w', j) && Armed(w', j, EPOLLIN | EPOLLOUT)
  {
    var j := |w.socks|;
    var s := Sock(fd, false, CsConnected, DE_READ | DE_WRITE, NoBatch);
    NewSockKeeps(w, s);
    var w1 := WithNewSock(w, s);
    assert j !in w1.keyOf;
    AddRegisters(w1, j);
    AddKeeps(w1, j);
    SettledIsArmed(Add(w1, j), j);
  }

  // ----- reading rearms -----

  /**
   After a read that got data, the end of the stream or nothing yet, the socket asks for input again; outside a batch
   the kernel then watches for it if and only if the socket is registered. In a batch the kernel learns at the end, as
   RearmedSlotIsWatched says.
   */
  lemma RecvRearms(w: World, i: nat, outcome: RecvOutcome)
    requires Consistent(w) && IsSocket(w, i)
    ensures var w' := ApplyOp(w, RecvOp(i, outcome));
            var rearms := (outcome != RecvError && w.socks[i].fd != INVALID_SOCKET) || w.socks[i].udp;
            && (i in w'.keyOf <==> i in w.keyOf)
            && (rearms ==> w'.socks[i] == w.socks[i].(enabled := w.socks[i].enabled | DE_READ))
            && (!rearms ==> w' == w)
            && (rearms && Resting(w, i) ==> (Mask(w'.epoll, w'.socks[i].fd) & EPOLLIN != 0 <==> i in w.keyOf))
  {
    AppliesRecv(w, i, outcome);
    EnableEffect(w, i, DE_READ);
    if Resting(w, i) {
      ReadingRests(w, i);
    }
  }

  lemma AppliesRecv(w: World, i: nat, outcome: RecvOutcome)
    requires IsSocket(w, i)
    ensures var rearms := (outcome != RecvError && w.socks[i].fd != INVALID_SOCKET) || w.socks[i].udp;
            ApplyOp(w, RecvOp(i, outcome)) == if rearms then EnableEvents(w, i, DE_READ) else w
  {
  }

  lemma ReadingRests(w: World, i: nat)
    requires Resting(w, i)
    ensures var w' := EnableEvents(w, i, DE_READ);
            Mask(w'.epoll, w'.socks[i].fd) & EPOLLIN != 0 <==> i in w.keyOf
  {
    assert WithSock(w, i, w.socks[i].(state := w.socks[i].state)) == w;
    EnableArms(w, i, w.socks[i].state, DE_READ);
    ReadIsInput(w.socks[i].enabled);
  }

  lemma ReadIsInput(enabled: bv8)
    ensures GetEpollEvents(enabled | DE_READ) & EPOLLIN != 0
  {
  }

  /**
   What an event tells: a failure is always told as a close and never as success; input is told once, as a close,
   something to accept, or something to read; output once, as the end of a connect or as room to write.
   */
  lemma FlagsTell(w: World, i: nat, r: Report)
    requires i < |w.socks|
    ensures var ff := EventFlags(w, i, r);
            && (IsFailed(r) ==> ff & DE_CLOSE != 0 && ff & (DE_READ | DE_ACCEPT | DE_CONNECT) == 0)
            && (ff & DE_CLOSE != 0 <==>
                  || IsFailed(r)
                  || (r.readable && i != 0 && if w.socks[i].udp then w.socks[i].fd == INVALID_SOCKET else r.eof))
            && (r.readable && ff & DE_CLOSE == 0 ==>
                  && (ff & DE_READ != 0 <==> ff & DE_ACCEPT == 0)
                  && (ff & DE_ACCEPT != 0 <==> w.socks[i].enabled & DE_ACCEPT != 0))
            && (ff & (DE_READ | DE_ACCEPT) != 0 ==> r.readable)
            && (ff & (DE_WRITE | DE_CONNECT) != 0 ==> r.writable)
            && (r.writable ==> (ff & DE_WRITE != 0 <==> w.socks[i].enabled & DE_CONNECT == 0))
            && (r.writable && !IsFailed(r) ==> (ff & DE_CONNECT != 0 <==> w.socks[i].enabled & DE_CONNECT != 0))
            && ff & !(DE_READ | DE_WRITE | DE_CONNECT | DE_CLOSE | DE_ACCEPT) == 0
  {
  }
}
