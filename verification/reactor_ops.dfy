/** What the operations on sockets leave when a system call in them fails, and what they leave alone. */
module ReactorOps {
  import opened ReactorModel
  import opened ReactorRegistry
  import opened ReactorEvents
  import opened ReactorBatching
  import opened ReactorInterest
  import opened ReactorSlots

  /** One more dispatcher, which is registered under the next key and watched for both directions. */
  ghost predicate Gains(w: World, w': World, s: Sock) {
    var j := |w.socks|;
    && w'.socks == w.socks + [s] && w'.keyOf == w.keyOf[j := w.nextKey]
    && w'.open == w.open[s.fd := j]
    && Settled(w', j) && Armed(w', j, EPOLLIN | EPOLLOUT)
  }

  /** One more dispatcher, which has no descriptor; the one it had is closed again, and all else is as it was. */
  ghost predicate GainsNothing(w: World, w': World) {
    && |w'.socks| == |w.socks| + 1 && w'.socks[..|w.socks|] == w.socks
    && w'.socks[|w.socks|].fd == INVALID_SOCKET && w'.socks[|w.socks|].state == CsClosed
    && w'.keyOf == w.keyOf && w'.byKey == w.byKey && w'.open == w.open && w'.epoll == w.epoll
  }

  /** Close gives the descriptor back and all interest up; on a closed socket it does nothing. */
  lemma CloseReleases(w: World, i: nat)
    requires Consistent(w) && IsSocket(w, i) && w.socks[i].saved == NoBatch
    ensures var w', fd := ApplyOp(w, CloseOp(i)), w.socks[i].fd;
            && (fd == INVALID_SOCKET ==> w' == w)
            && (fd != INVALID_SOCKET ==>
                  && w'.socks == w.socks[i := w.socks[i].(fd := INVALID_SOCKET, state := CsClosed, enabled := 0)]
                  && w'.keyOf == w.keyOf - {i} && w'.byKey == (map k | k in w.byKey && w.byKey[k] != i :: w.byKey[k])
                  && w'.open == w.open - {fd} && w'.epoll == w.epoll - {fd} && w'.nextKey == w.nextKey)
  {
    if w.socks[i].fd != INVALID_SOCKET {
      UnregisterFields(w, i, NoBatch);
      SilencedFields(Unregister(w, i, NoBatch), i);
      KeyIsGone(w, i);
    }
  }

  /** Giving up the interest of a dispatcher that is not registered. */
  lemma SilencedFields(w: World, i: nat)
    requires i < |w.socks| && i !in w.keyOf
    ensures var w' := SetEnabledEvents(w, i, 0);
            && w' == w.(socks := w.socks[i := w.socks[i].(enabled := 0)], hist := w'.hist)
  {
    UpdateFields(WithSock(w, i, w.socks[i].(enabled := 0)), i);
  }

  lemma KeyIsGone(w: World, i: nat)
    requires RegistryOk(w)
    ensures (if i in w.keyOf then w.byKey - {w.keyOf[i]} else w.byKey) ==
            map k | k in w.byKey && w.byKey[k] != i :: w.byKey[k]
    ensures i !in w.keyOf ==> w.keyOf - {i} == w.keyOf
  {
    if i in w.keyOf {
      assert forall k :: k in w.byKey && w.byKey[k] == i ==> k == w.keyOf[i];
    } else {
      assert forall k :: k in w.byKey ==> w.byKey[k] != i;
    }
  }

  /**
   Create outside a batch, whatever socket and setsockopt return: the dispatcher has the descriptor granted, of the kind
   asked for, with the interest that CreateArms describes.
   */
  lemma CreateLeaves(w: World, i: nat, dgram: bool, fd: int, optOk: bool)
    requires Consistent(w) && IsSocket(w, i) && w.socks[i].saved == NoBatch
    ensures var w', closed := Create(w, i, dgram, fd, optOk).0, Close(w, i);
            var granted := Granted(closed, fd);
            && w'.socks == closed.socks[i := closed.socks[i].(fd := granted, udp := dgram,
                             enabled := if dgram then DE_READ | DE_WRITE else closed.socks[i].enabled)]
            && w'.open == (if granted == INVALID_SOCKET then closed.open else closed.open[granted := i])
            && (granted == INVALID_SOCKET || !optOk ==> w'.keyOf == closed.keyOf && w'.epoll == closed.epoll)
  {
    var closed := Close(w, i);
    CloseKeeps(w, i);
    OpenedFields(closed, i, dgram, fd);
  }

  lemma OpenedFields(w: World, i: nat, dgram: bool, fd: int)
    requires Consistent(w) && IsSocket(w, i) && w.socks[i].fd == INVALID_SOCKET
    ensures var w', granted := OpenSocket(w, i, dgram, fd), Granted(w, fd);
            && w'.socks == w.socks[i := w.socks[i].(fd := granted, udp := dgram,
                             enabled := if dgram then DE_READ | DE_WRITE else w.socks[i].enabled)]
            && w'.open == (if granted == INVALID_SOCKET then w.open else w.open[granted := i])
            && w'.keyOf == w.keyOf && w'.byKey == w.byKey && w'.epoll == w.epoll && w'.nextKey == w.nextKey
  {
    var made := GiveFd(w, i, Granted(w, fd), dgram);
    assert i !in w.keyOf;
    UpdateFields(WithSock(made, i, made.socks[i].(enabled := DE_READ | DE_WRITE)), i);
  }

  /** CreateSocket makes a registered socket, or one that is closed again, and then nothing else has changed. */
  lemma CreateSocketIsWhole(w: World, dgram: bool, fd: int, optOk: bool)
    requires Consistent(w)
    ensures var w' := ApplyOp(w, CreateSocketOp(dgram, fd, optOk));
            if Granted(w, fd) != INVALID_SOCKET && optOk
            then Gains(w, w', Sock(fd, dgram, CsClosed, DE_READ | DE_WRITE, NoBatch))
            else GainsNothing(w, w')
  {
    if Granted(w, fd) != INVALID_SOCKET && optOk {
      CreateSocketGains(w, dgram, fd);
    } else {
      CreateSocketFails(w, dgram, fd, optOk);
    }
  }

  lemma CreateSocketGains(w: World, dgram: bool, fd: int)
    requires Consistent(w) && Granted(w, fd) != INVALID_SOCKET
    ensures Gains(w, CreateSocket(w, dgram, fd, true), Sock(fd, dgram, CsClosed, DE_READ | DE_WRITE, NoBatch))
  {
    var j := |w.socks|;
    var s := Sock(INVALID_SOCKET, false, CsClosed, DE_READ | DE_WRITE, NoBatch);
    var made := WithNewSock(w, s);
    NewSockKeeps(w, s);
    assert Close(made, j) == made && j !in made.keyOf;
    OpenedFields(made, j, dgram, fd);
    OpenSocketKeeps(made, j, dgram, fd);
    AddingGains(w, OpenSocket(made, j, dgram, fd), Sock(fd, dgram, CsClosed, DE_READ | DE_WRITE, NoBatch));
  }

  /** Registering a dispatcher that alone is new, and asks for both directions. */
  lemma AddingGains(w: World, made: World, s: Sock)
    requires Consistent(made) && made.socks == w.socks + [s] && w.socks != [] && |w.socks| !in made.keyOf
    requires s.saved == NoBatch && s.enabled == DE_READ | DE_WRITE && s.fd != INVALID_SOCKET
    requires made.keyOf == w.keyOf && made.nextKey == w.nextKey && made.open == w.open[s.fd := |w.socks|]
    ensures Gains(w, Add(made, |w.socks|), s)
  {
    var j := |w.socks|;
    AddRegisters(made, j);
    AddKeeps(made, j);
    SettledIsArmed(Add(made, j), j);
  }

  lemma CreateSocketFails(w: World, dgram: bool, fd: int, optOk: bool)
    requires Consistent(w) && (Granted(w, fd) == INVALID_SOCKET || !optOk)
    ensures GainsNothing(w, CreateSocket(w, dgram, fd, optOk))
  {
    var j := |w.socks|;
    var s := Sock(INVALID_SOCKET, false, CsClosed, DE_READ | DE_WRITE, NoBatch);
    var made := WithNewSock(w, s);
    NewSockKeeps(w, s);
    assert Close(made, j) == made && j !in made.keyOf;
    OpenedFields(made, j, dgram, fd);
    OpenSocketKeeps(made, j, dgram, fd);
    ClosingTakesBack(w, OpenSocket(made, j, dgram, fd));
  }

  /** Closing a dispatcher that is not registered, and that alone is new, leaves nothing of it. */
  lemma ClosingTakesBack(w: World, made: World)
    requires Consistent(w) && Consistent(made) && |made.socks| == |w.socks| + 1
    requires made.socks[..|w.socks|] == w.socks && made.socks[|w.socks|].saved == NoBatch
    requires made.keyOf == w.keyOf && made.byKey == w.byKey && made.epoll == w.epoll && |w.socks| !in w.keyOf
    requires var s := made.socks[|w.socks|];
             if s.fd == INVALID_SOCKET then made.open == w.open && s.state == CsClosed
             else s.fd !in w.open && made.open == w.open[s.fd := |w.socks|]
    ensures |w.socks| > 0 && GainsNothing(w, Close(made, |w.socks|))
  {
    var j := |w.socks|;
    CloseReleases(made, j);
    if made.socks[j].fd != INVALID_SOCKET {
      assert w.open[made.socks[j].fd := j] - {made.socks[j].fd} == w.open;
      UnownedEntry(w, made.socks[j].fd);
      KeyIsGone(made, j);
    }
  }

  lemma UnownedEntry(w: World, fd: int)
    requires Consistent(w) && fd !in w.open
    ensures w.epoll - {fd} == w.epoll
  {
    forall f | f in w.epoll
      ensures f in w.open
    {
      var i := w.byKey[w.epoll[f].key];
      assert i in w.keyOf && w.socks[i].fd == f;
    }
  }

  /**
   Accept asks for more to accept, whatever happens; then it makes a registered socket of the descriptor it got, or
   closes that again if setsockopt fails, or makes nothing if there was none to get.
   */
  lemma AcceptIsWhole(w: World, i: nat, fd: int, optOk: bool)
    requires Consistent(w) && IsSocket(w, i)
    ensures var asked, w' := EnableEvents(w, i, DE_ACCEPT), ApplyOp(w, AcceptOp(i, fd, optOk));
            && asked.socks == w.socks[i := w.socks[i].(enabled := w.socks[i].enabled | DE_ACCEPT)]
            && asked.open == w.open && asked.keyOf == w.keyOf
            && if w.socks[i].fd == INVALID_SOCKET || Granted(w, fd) == INVALID_SOCKET then w' == asked
               else if optOk then Gains(asked, w', Sock(fd, false, CsConnected, DE_READ | DE_WRITE, NoBatch))
               else GainsNothing(asked, w')
  {
    var asked := EnableEvents(w, i, DE_ACCEPT);
    AppliesAccept(w, AcceptOp(i, fd, optOk));
    AcceptAsksFirst(w, i, fd, optOk);
    EnableKeeps(w, i, DE_ACCEPT);
    EnableEffect(w, i, DE_ACCEPT);
    if w.socks[i].fd != INVALID_SOCKET && Granted(w, fd) != INVALID_SOCKET {
      WrapIsWhole(asked, fd, optOk);
    }
  }

  lemma AcceptAsksFirst(w: World, i: nat, fd: int, optOk: bool)
    requires i < |w.socks|
    ensures var asked := EnableEvents(w, i, DE_ACCEPT);
            Accept(w, i, fd, optOk) ==
            if asked.socks[i].fd == INVALID_SOCKET || Granted(asked, fd) == INVALID_SOCKET then asked
            else WrapSocket(asked, fd, optOk)
  {
  }

  lemma WrapIsWhole(w: World, fd: int, optOk: bool)
    requires Consistent(w) && 0 <= fd && fd !in w.open
    ensures var w' := WrapSocket(w, fd, optOk);
            if optOk then Gains(w, w', Sock(fd, false, CsConnected, DE_READ | DE_WRITE, NoBatch))
            else GainsNothing(w, w')
  {
    var j := |w.socks|;
    var s := Sock(fd, false, CsConnected, DE_READ | DE_WRITE, NoBatch);
    NewSockKeeps(w, s);
    var made := WithNewSock(w, s);
    if optOk {
      AddingGains(w, made, s);
    } else {
      assert j !in w.keyOf;
      ClosingTakesBack(w, made);
    }
  }
}
