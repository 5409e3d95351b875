/** Batching interest updates during OnEvent has the same outcome as updating the kernel after every change. */
module ReactorBatching {
  import opened ReactorModel
  import opened ReactorRegistry
  import opened ReactorEvents

  /** Dispatcher i was registered anew since the history had n rebuilds. */
  predicate Rebuilt(w: World, n: nat, i: nat) {
    n <= |w.hist.rebuilds| && i in w.hist.rebuilds[n..]
  }

  /** As far as dispatcher i is concerned, neither changed. */
  predicate SameRebuilds(w: World, w': World, n: nat, i: nat) {
    (Rebuilt(w', n, i) <==> Rebuilt(w, n, i)) && RebuiltMask(w', i) == RebuiltMask(w, i)
  }

  /**
   wb runs dispatcher i's OnEvent with batching, we without: they differ in saved_enabled_events_ and in what the
   kernel knows about i's descriptor, which is the current interest in we and the saved one in wb. Once i registered
   anew in the batch nothing is saved, and the kernel knows in wb what it was told then.
   */
  ghost predicate Sim(wb: World, we: World, i: nat, n: nat) {
    && Consistent(wb) && Consistent(we) && IsSocket(wb, i) && n <= |wb.hist.rebuilds|
    && SameSocks(wb, we, i) && SameMaps(wb, we)
    && TablesAgree(wb, we, wb.socks[i].fd)
    && OwnMasks(wb, we, i, n)
  }

  ghost predicate OwnMasks(wb: World, we: World, i: nat, n: nat)
    requires i < |wb.socks| && i < |we.socks|
  {
    i in wb.keyOf ==>
      && Mirrored(we, i)
      && if Rebuilt(wb, n, i)
         then wb.socks[i].saved == Batched(0) && Mask(wb.epoll, wb.socks[i].fd) == RebuiltMask(wb, i)
         else Mirrored(wb, i)
  }

  ghost predicate SameSocks(wb: World, we: World, i: nat)
    requires i < |wb.socks|
  {
    wb.socks[i].saved.Batched? && we.socks == wb.socks[i := wb.socks[i].(saved := NoBatch)]
  }

  ghost predicate SameMaps(wb: World, we: World) {
    we.nextKey == wb.nextKey && we.byKey == wb.byKey && we.keyOf == wb.keyOf && we.open == wb.open
  }

  ghost predicate TablesAgree(wb: World, we: World, except: int) {
    forall fd :: fd != except ==>
      && (fd in wb.epoll <==> fd in we.epoll)
      && (fd in wb.epoll ==> wb.epoll[fd] == we.epoll[fd])
  }

  lemma SimStarts(w: World, i: nat)
    requires Consistent(w) && IsSocket(w, i) && i in w.keyOf && w.socks[i].saved == NoBatch && Mirrored(w, i)
    ensures Sim(StartBatch(w, i), w, i, |w.hist.rebuilds|)
  {
    StartBatchKeeps(w, i);
    assert w.socks == StartBatch(w, i).socks[i := w.socks[i]];
  }

  // ----- primitives -----

  lemma SetEnabledEffect(w: World, i: nat, events: bv8)
    requires Consistent(w) && IsSocket(w, i)
    ensures var w' := SetEnabledEvents(w, i, events);
            && Consistent(w') && SameMaps(w, w')
            && w'.socks == w.socks[i := w.socks[i].(enabled := events)]
  {
    SetEnabledKeeps(w, i, events);
  }

  lemma SimSetEnabled(wb: World, we: World, i: nat, j: nat, events: bv8, n: nat)
    requires Sim(wb, we, i, n) && IsSocket(wb, j)
    ensures Sim(SetEnabledEvents(wb, j, events), SetEnabledEvents(we, j, events), i, n)
  {
    SetEnabledEffect(wb, j, events);
    SetEnabledEffect(we, j, events);
    var wb', we' := SetEnabledEvents(wb, j, events), SetEnabledEvents(we, j, events);
    assert SameSocks(wb', we', i);
    if j == i {
      SimUpdateOwn(wb, we, i, events, n);
    } else {
      SimUpdateOther(wb, we, i, j, events, n);
    }
  }

  /** The dispatcher's own change reaches the kernel only without batching. */
  lemma SimUpdateOwn(wb: World, we: World, i: nat, events: bv8, n: nat)
    requires Sim(wb, we, i, n)
    ensures var wb', we' := SetEnabledEvents(wb, i, events), SetEnabledEvents(we, i, events);
            && TablesAgree(wb', we', wb.socks[i].fd)
            && OwnMasks(wb', we', i, n)
  {
    SetEnabledTouches(wb, i, events);
    SetEnabledTouches(we, i, events);
    SetEnabledTable(wb, i, events);
  }

  lemma SetEnabledTable(w: World, j: nat, events: bv8)
    requires j < |w.socks|
    ensures var w1, w' := WithSock(w, j, w.socks[j].(enabled := events)), SetEnabledEvents(w, j, events);
            && w'.socks == w1.socks && w'.keyOf == w.keyOf
            && w'.hist.rebuilds == w.hist.rebuilds && w'.hist.masks == w.hist.masks
            && var changed := GetEpollEvents(events) != GetEpollEvents(w.socks[j].enabled);
               w'.epoll == if changed && w.socks[j].saved == NoBatch then Update(w1, j).epoll else w.epoll
  {
    UpdateFields(WithSock(w, j, w.socks[j].(enabled := events)), j);
  }

  /** Another dispatcher's change reaches the kernel in both or in neither. */
  lemma SimUpdateOther(wb: World, we: World, i: nat, j: nat, events: bv8, n: nat)
    requires Sim(wb, we, i, n) && IsSocket(wb, j) && j != i
    ensures var wb', we' := SetEnabledEvents(wb, j, events), SetEnabledEvents(we, j, events);
            && TablesAgree(wb', we', wb.socks[i].fd)
            && OwnMasks(wb', we', i, n)
  {
    SimAgrees(wb, we, i, j, n);
    if wb.socks[j].fd != INVALID_SOCKET {
      DistinctDescriptors(wb, i, j);
    }
    SetEnabledAlike(wb, we, j, events, wb.socks[i].fd);
    OwnMasksStay(wb, we, SetEnabledEvents(wb, j, events), SetEnabledEvents(we, j, events), i, n);
  }

  lemma SetEnabledAlike(wb: World, we: World, j: nat, events: bv8, x: int)
    requires j < |wb.socks| && j < |we.socks| && wb.socks[j] == we.socks[j]
    requires wb.socks[j].fd == x ==> x == INVALID_SOCKET
    requires wb.keyOf == we.keyOf && TablesAgree(wb, we, x)
    ensures var wb', we' := SetEnabledEvents(wb, j, events), SetEnabledEvents(we, j, events);
            && TablesAgree(wb', we', x)
            && Mask(wb'.epoll, x) == Mask(wb.epoll, x) && Mask(we'.epoll, x) == Mask(we.epoll, x)
            && wb'.hist.rebuilds == wb.hist.rebuilds && wb'.hist.masks == wb.hist.masks
            && wb'.keyOf == wb.keyOf && we'.keyOf == we.keyOf
            && wb'.socks == wb.socks[j := wb.socks[j].(enabled := events)]
            && we'.socks == we.socks[j := we.socks[j].(enabled := events)]
  {
    SetEnabledTable(wb, j, events);
    SetEnabledTable(we, j, events);
    var wb1 := WithSock(wb, j, wb.socks[j].(enabled := events));
    var we1 := WithSock(we, j, we.socks[j].(enabled := events));
    if wb.socks[j].fd == INVALID_SOCKET {
      UpdateFields(wb1, j);
      UpdateFields(we1, j);
    } else {
      UpdatesAlike(wb1, we1, j, x);
    }
  }

  /** Nothing about dispatcher i changed. */
  lemma OwnMasksStay(wb: World, we: World, wb': World, we': World, i: nat, n: nat)
    requires i < |wb.socks| && i < |we.socks| && OwnMasks(wb, we, i, n)
    requires i < |wb'.socks| && i < |we'.socks|
    requires i in wb'.keyOf ==> i in wb.keyOf && wb'.socks[i] == wb.socks[i] && we'.socks[i] == we.socks[i]
    requires SameRebuilds(wb, wb', n, i)
    requires Mask(wb'.epoll, wb.socks[i].fd) == Mask(wb.epoll, wb.socks[i].fd)
    requires Mask(we'.epoll, we.socks[i].fd) == Mask(we.epoll, we.socks[i].fd)
    ensures OwnMasks(wb', we', i, n)
  {
  }

  lemma DistinctDescriptors(w: World, i: nat, j: nat)
    requires Consistent(w) && i < |w.socks| && j < |w.socks| && i != j && w.socks[j].fd != INVALID_SOCKET
    ensures w.socks[i].fd != w.socks[j].fd
  {
  }

  lemma SimAgrees(wb: World, we: World, i: nat, j: nat, n: nat)
    requires Sim(wb, we, i, n) && j < |wb.socks|
    ensures j < |we.socks| && we.socks[j] == wb.socks[j].(saved := we.socks[j].saved)
    ensures j != i ==> we.socks[j] == wb.socks[j]
  {
  }

  lemma UpdatesAlike(wb: World, we: World, j: nat, x: int)
    requires j < |wb.socks| && j < |we.socks| && wb.socks[j] == we.socks[j]
    requires wb.socks[j].fd != x && wb.keyOf == we.keyOf && TablesAgree(wb, we, x)
    ensures TablesAgree(Update(wb, j), Update(we, j), x)
    ensures Mask(Update(wb, j).epoll, x) == Mask(wb.epoll, x)
    ensures Mask(Update(we, j).epoll, x) == Mask(we.epoll, x)
  {
    UpdateFields(wb, j);
    UpdateFields(we, j);
    assert wb.socks[j].fd in wb.epoll <==> wb.socks[j].fd in we.epoll;
  }

  lemma SimSetState(wb: World, we: World, i: nat, j: nat, state: ConnState, n: nat)
    requires Sim(wb, we, i, n) && IsSocket(wb, j)
    ensures Sim(WithSock(wb, j, wb.socks[j].(state := state)), WithSock(we, j, we.socks[j].(state := state)), i, n)
  {
    SetStateStaysConsistent(wb, j, state);
    SetStateStaysConsistent(we, j, state);
    SetStateAlike(wb, we, i, j, state);
  }

  lemma SetStateAlike(wb: World, we: World, i: nat, j: nat, state: ConnState)
    requires i < |wb.socks| && SameSocks(wb, we, i) && j < |wb.socks|
    ensures SameSocks(WithSock(wb, j, wb.socks[j].(state := state)), WithSock(we, j, we.socks[j].(state := state)), i)
  {
    assert j != i ==> we.socks[j] == wb.socks[j];
  }

  lemma SetStateStaysConsistent(w: World, i: nat, state: ConnState)
    requires Consistent(w) && IsSocket(w, i)
    ensures Consistent(WithSock(w, i, w.socks[i].(state := state)))
  {
    SetStateKeeps(w, i, state);
  }

  lemma UnregisterEffect(w: World, i: nat)
    requires Consistent(w) && IsSocket(w, i) && w.socks[i].fd != INVALID_SOCKET
    ensures Consistent(Unregister(w, i, SavedOnClose(w.socks[i].saved)))
  {
    UnregisterDrops(w, i, SavedOnClose(w.socks[i].saved));
    DroppingKeeps(w, Unregister(w, i, SavedOnClose(w.socks[i].saved)), i);
  }

  lemma UnregisterFields(w: World, i: nat, saved: Saved)
    requires i < |w.socks| && w.socks[i].fd != INVALID_SOCKET
    ensures var w' := Unregister(w, i, saved);
            && w'.socks == w.socks[i := w.socks[i].(saved := saved, fd := INVALID_SOCKET, state := CsClosed)]
            && w'.byKey == (if i in w.keyOf then w.byKey - {w.keyOf[i]} else w.byKey)
            && w'.keyOf == (if i in w.keyOf then w.keyOf - {i} else w.keyOf)
            && w'.open == w.open - {w.socks[i].fd} && w'.nextKey == w.nextKey
            && w'.epoll == w.epoll - {w.socks[i].fd} && w'.hist == w.hist
  {
  }

  lemma SimUnregister(wb: World, we: World, i: nat, j: nat, n: nat)
    requires Sim(wb, we, i, n) && IsSocket(wb, j) && wb.socks[j].fd != INVALID_SOCKET
    ensures Sim(Unregister(wb, j, SavedOnClose(wb.socks[j].saved)),
                Unregister(we, j, SavedOnClose(we.socks[j].saved)), i, n)
  {
    SimAgrees(wb, we, i, j, n);
    UnregisterEffect(wb, j);
    UnregisterEffect(we, j);
    SimUnregisteredFields(wb, we, i, j);
    SimUnregisteredTables(wb, we, i, j, n);
  }

  lemma SimUnregisteredFields(wb: World, we: World, i: nat, j: nat)
    requires IsSocket(wb, i) && SameSocks(wb, we, i) && SameMaps(wb, we)
    requires j < |wb.socks| && wb.socks[j].fd != INVALID_SOCKET
    ensures var wb' := Unregister(wb, j, SavedOnClose(wb.socks[j].saved));
            var we' := Unregister(we, j, SavedOnClose(we.socks[j].saved));
            IsSocket(wb', i) && SameSocks(wb', we', i) && SameMaps(wb', we')
  {
    UnregisterFields(wb, j, SavedOnClose(wb.socks[j].saved));
    UnregisterFields(we, j, SavedOnClose(we.socks[j].saved));
  }

  lemma SimUnregisteredTables(wb: World, we: World, i: nat, j: nat, n: nat)
    requires Sim(wb, we, i, n) && IsSocket(wb, j) && wb.socks[j].fd != INVALID_SOCKET && j < |we.socks|
    ensures var wb' := Unregister(wb, j, SavedOnClose(wb.socks[j].saved));
            var we' := Unregister(we, j, SavedOnClose(we.socks[j].saved));
            && TablesAgree(wb', we', wb'.socks[i].fd)
            && OwnMasks(wb', we', i, n)
  {
    SimAgrees(wb, we, i, j, n);
    var sb, se := SavedOnClose(wb.socks[j].saved), SavedOnClose(we.socks[j].saved);
    UnregisterFields(wb, j, sb);
    UnregisterFields(we, j, se);
    if j != i {
      DistinctDescriptors(wb, i, j);
      UnregisterSparesOthers(wb, i, j, sb);
      UnregisterSparesOthers(we, i, j, se);
      OwnMasksStay(wb, we, Unregister(wb, j, sb), Unregister(we, j, se), i, n);
    }
    ForgettingAlike(wb, we, Unregister(wb, j, sb), Unregister(we, j, se),
                    wb.socks[i].fd, wb.socks[j].fd, Unregister(wb, j, sb).socks[i].fd);
  }

  lemma UnregisterSparesOthers(w: World, i: nat, j: nat, saved: Saved)
    requires i < |w.socks| && j < |w.socks| && i != j
    requires w.socks[j].fd != INVALID_SOCKET && w.socks[i].fd != w.socks[j].fd
    ensures var w' := Unregister(w, j, saved);
            && w'.socks[i] == w.socks[i] && (i in w'.keyOf ==> i in w.keyOf)
            && Mask(w'.epoll, w.socks[i].fd) == Mask(w.epoll, w.socks[i].fd)
  {
    UnregisterFields(w, j, saved);
  }

  lemma ForgettingAlike(wb: World, we: World, wb': World, we': World, x: int, fd: int, x': int)
    requires TablesAgree(wb, we, x) && (x' == x || fd == x)
    requires wb'.epoll == wb.epoll - {fd} && we'.epoll == we.epoll - {fd}
    ensures TablesAgree(wb', we', x')
  {
  }

  lemma SimGiveFd(wb: World, we: World, i: nat, j: nat, fd: int, udp: bool, n: nat)
    requires Sim(wb, we, i, n) && IsSocket(wb, j) && wb.socks[j].fd == INVALID_SOCKET
    requires fd == INVALID_SOCKET || (0 <= fd && fd !in wb.open)
    ensures Sim(GiveFd(wb, j, fd, udp), GiveFd(we, j, fd, udp), i, n)
  {
    GiveFdStaysConsistent(wb, j, fd, udp);
    GiveFdStaysConsistent(we, j, fd, udp);
    GiveFdAlike(wb, we, i, j, fd, udp);
    SimTablesStay(wb, we, GiveFd(wb, j, fd, udp), GiveFd(we, j, fd, udp), i, n);
  }

  lemma GiveFdAlike(wb: World, we: World, i: nat, j: nat, fd: int, udp: bool)
    requires i < |wb.socks| && SameSocks(wb, we, i) && SameMaps(wb, we) && j < |wb.socks|
    ensures SameSocks(GiveFd(wb, j, fd, udp), GiveFd(we, j, fd, udp), i)
    ensures SameMaps(GiveFd(wb, j, fd, udp), GiveFd(we, j, fd, udp))
  {
  }

  lemma GiveFdStaysConsistent(w: World, i: nat, fd: int, udp: bool)
    requires Consistent(w) && IsSocket(w, i) && w.socks[i].fd == INVALID_SOCKET
    requires fd == INVALID_SOCKET || (0 <= fd && fd !in w.open)
    ensures Consistent(GiveFd(w, i, fd, udp)) && i !in w.keyOf
  {
    GiveFdKeepsTables(w, i, fd, udp);
  }

  /** Only the descriptor of an unregistered dispatcher changed. */
  lemma SimTablesStay(wb: World, we: World, wb': World, we': World, i: nat, n: nat)
    requires Sim(wb, we, i, n) && |wb'.socks| >= |wb.socks| && |we'.socks| >= |we.socks|
    requires wb'.epoll == wb.epoll && we'.epoll == we.epoll && wb'.keyOf == wb.keyOf && we'.keyOf == we.keyOf
    requires wb'.hist == wb.hist
    requires i in wb.keyOf ==> wb'.socks[i] == wb.socks[i] && we'.socks[i] == we.socks[i]
    ensures TablesAgree(wb', we', wb'.socks[i].fd)
    ensures OwnMasks(wb', we', i, n)
  {
    if i !in wb.keyOf {
      OwnEntryImpliesRegistered(wb, i);
      OwnEntryImpliesRegistered(we, i);
    }
  }

  lemma OwnEntryImpliesRegistered(w: World, i: nat)
    requires Consistent(w) && i < |w.socks| && i !in w.keyOf
    ensures w.socks[i].fd !in w.epoll
  {
    if w.socks[i].fd in w.epoll {
      EntryKey(w, i);
    }
  }

  lemma AddFields(w: World, j: nat)
    requires j < |w.socks| && j !in w.keyOf && w.socks[j].fd != INVALID_SOCKET && w.socks[j].fd !in w.epoll
    ensures var w', mask := Add(w, j), GetEpollEvents(w.socks[j].enabled);
            && w'.socks == w.socks && w'.open == w.open && w'.nextKey == w.nextKey + 1
            && w'.byKey == w.byKey[w.nextKey := j] && w'.keyOf == w.keyOf[j := w.nextKey]
            && w'.epoll == if mask == 0 then w.epoll else w.epoll[w.socks[j].fd := Entry(mask, w.nextKey)]
  {
  }

  lemma AddStaysConsistent(w: World, j: nat)
    requires Consistent(w) && IsSocket(w, j) && w.socks[j].fd != INVALID_SOCKET && j !in w.keyOf
    ensures Consistent(Add(w, j))
  {
    AddKeeps(w, j);
  }

  lemma SimAdd(wb: World, we: World, i: nat, j: nat, n: nat)
    requires Sim(wb, we, i, n) && IsSocket(wb, j) && wb.socks[j].fd != INVALID_SOCKET && j !in wb.keyOf
    ensures Sim(Add(wb, j), Add(we, j), i, n)
  {
    SimAgrees(wb, we, i, j, n);
    AddStaysConsistent(wb, j);
    AddStaysConsistent(we, j);
    OwnEntryImpliesRegistered(wb, j);
    OwnEntryImpliesRegistered(we, j);
    AddLogsRebuild(wb, j, n);
    if j == i {
      SimAddedOwn(wb, we, i, n);
    } else {
      SimAdded(wb, we, i, j, n);
    }
  }

  lemma SimAdded(wb: World, we: World, i: nat, j: nat, n: nat)
    requires Sim(wb, we, i, n) && IsSocket(wb, j) && j != i && wb.socks[j].fd != INVALID_SOCKET && j !in wb.keyOf
    requires j < |we.socks| && wb.socks[j].fd !in wb.epoll && wb.socks[j].fd !in we.epoll
    ensures var wb', we' := Add(wb, j), Add(we, j);
            && SameSocks(wb', we', i) && SameMaps(wb', we')
            && TablesAgree(wb', we', wb.socks[i].fd)
            && OwnMasks(wb', we', i, n)
  {
    SimAgrees(wb, we, i, j, n);
    DistinctDescriptors(wb, i, j);
    AddFields(wb, j);
    AddFields(we, j);
    AddLogsRebuild(wb, j, n);
    AddLogsOthers(wb, i, j, n);
    OwnMasksStay(wb, we, Add(wb, j), Add(we, j), i, n);
  }

  /** The dispatcher registers anew within its own batch. */
  lemma SimAddedOwn(wb: World, we: World, i: nat, n: nat)
    requires Sim(wb, we, i, n) && wb.socks[i].fd != INVALID_SOCKET && i !in wb.keyOf
    requires wb.socks[i].fd !in wb.epoll && wb.socks[i].fd !in we.epoll
    ensures var wb', we' := Add(wb, i), Add(we, i);
            && SameSocks(wb', we', i) && SameMaps(wb', we')
            && TablesAgree(wb', we', wb.socks[i].fd)
            && OwnMasks(wb', we', i, n)
  {
    SimAgrees(wb, we, i, i, n);
    AddFields(wb, i);
    AddFields(we, i);
    AddLogsRebuild(wb, i, n);
  }

  lemma NewSockStaysConsistent(w: World, s: Sock)
    requires Consistent(w) && s.saved == NoBatch
    requires s.fd == INVALID_SOCKET || (0 <= s.fd && s.fd !in w.open)
    ensures Consistent(WithNewSock(w, s))
  {
    NewSockKeeps(w, s);
  }

  lemma SimNewSock(wb: World, we: World, i: nat, s: Sock, n: nat)
    requires Sim(wb, we, i, n) && s.saved == NoBatch
    requires s.fd == INVALID_SOCKET || (0 <= s.fd && s.fd !in wb.open)
    ensures Sim(WithNewSock(wb, s), WithNewSock(we, s), i, n)
  {
    NewSockStaysConsistent(wb, s);
    NewSockStaysConsistent(we, s);
    assert SameSocks(WithNewSock(wb, s), WithNewSock(we, s), i);
  }

  // ----- operations -----

  lemma SimClose(wb: World, we: World, i: nat, j: nat, n: nat)
    requires Sim(wb, we, i, n) && IsSocket(wb, j)
    ensures Sim(Close(wb, j), Close(we, j), i, n)
  {
    if wb.socks[j].fd != INVALID_SOCKET {
      SimUnregister(wb, we, i, j, n);
      var wb1 := Unregister(wb, j, SavedOnClose(wb.socks[j].saved));
      var we1 := Unregister(we, j, SavedOnClose(we.socks[j].saved));
      SimSetEnabled(wb1, we1, i, j, 0, n);
    }
  }

  lemma OpenIsGive(w: World, j: nat, dgram: bool, fd: int)
    requires j < |w.socks|
    ensures var given := GiveFd(w, j, Granted(w, fd), dgram);
            OpenSocket(w, j, dgram, fd) == if dgram then SetEnabledEvents(given, j, DE_READ | DE_WRITE) else given
  {
  }

  lemma SimOpenSocket(wb: World, we: World, i: nat, j: nat, dgram: bool, fd: int, n: nat)
    requires Sim(wb, we, i, n) && IsSocket(wb, j) && wb.socks[j].fd == INVALID_SOCKET
    ensures Sim(OpenSocket(wb, j, dgram, fd), OpenSocket(we, j, dgram, fd), i, n)
  {
    var granted := Granted(wb, fd);
    OpenIsGive(wb, j, dgram, fd);
    OpenIsGive(we, j, dgram, fd);
    SimGiveFd(wb, we, i, j, granted, dgram, n);
    if dgram {
      SimSetEnabled(GiveFd(wb, j, granted, dgram), GiveFd(we, j, granted, dgram), i, j, DE_READ | DE_WRITE, n);
    }
  }

  lemma SimCreate(wb: World, we: World, i: nat, j: nat, dgram: bool, fd: int, optOk: bool, n: nat)
    requires Sim(wb, we, i, n) && IsSocket(wb, j)
    ensures Sim(Create(wb, j, dgram, fd, optOk).0, Create(we, j, dgram, fd, optOk).0, i, n)
    ensures Create(wb, j, dgram, fd, optOk).1 == Create(we, j, dgram, fd, optOk).1
  {
    SimClose(wb, we, i, j, n);
    CloseKeeps(wb, j);
    var wb1, we1 := Close(wb, j), Close(we, j);
    SimOpenSocket(wb1, we1, i, j, dgram, fd, n);
    OpenSocketKeeps(wb1, j, dgram, fd);
    var wb2, we2 := OpenSocket(wb1, j, dgram, fd), OpenSocket(we1, j, dgram, fd);
    GrantedAlike(wb2, we2, i, j, fd, n);
    if wb2.socks[j].fd != INVALID_SOCKET && optOk {
      SimAdd(wb2, we2, i, j, n);
    }
  }

  lemma AddLogsRebuild(w: World, i: nat, n: nat)
    requires i < |w.socks| && i !in w.keyOf && n <= |w.hist.rebuilds|
    ensures w.hist.rebuilds <= Add(w, i).hist.rebuilds
    ensures w.socks[i].saved.Batched? ==>
              Rebuilt(Add(w, i), n, i) && RebuiltMask(Add(w, i), i) == GetEpollEvents(w.socks[i].enabled)
  {
    var log := Add(w, i).hist.rebuilds;
    if w.socks[i].saved.Batched? {
      assert log == w.hist.rebuilds + [i];
      assert log[|log| - 1] in log[n..];
    }
  }

  lemma SimEnable(wb: World, we: World, i: nat, j: nat, events: bv8, n: nat)
    requires Sim(wb, we, i, n) && IsSocket(wb, j)
    ensures Sim(EnableEvents(wb, j, events), EnableEvents(we, j, events), i, n)
  {
    SimEnabledAlike(wb, we, i, j, n);
    SimSetEnabled(wb, we, i, j, With(wb.socks[j].enabled, events), n);
  }

  lemma SimEnabledAlike(wb: World, we: World, i: nat, j: nat, n: nat)
    requires Sim(wb, we, i, n) && j < |wb.socks|
    ensures j < |we.socks| && we.socks[j].enabled == wb.socks[j].enabled
  {
    SimAgrees(wb, we, i, j, n);
  }

  lemma SimEnableWithState(wb: World, we: World, i: nat, j: nat, state: ConnState, events: bv8, n: nat)
    requires Sim(wb, we, i, n) && IsSocket(wb, j)
    ensures Sim(EnableEvents(WithSock(wb, j, wb.socks[j].(state := state)), j, events),
                EnableEvents(WithSock(we, j, we.socks[j].(state := state)), j, events), i, n)
  {
    SimSetState(wb, we, i, j, state, n);
    var wb1, we1 := WithSock(wb, j, wb.socks[j].(state := state)), WithSock(we, j, we.socks[j].(state := state));
    SimEnable(wb1, we1, i, j, events, n);
  }

  lemma SimConnect(wb: World, we: World, i: nat, j: nat, fd: int, optOk: bool, outcome: ConnectOutcome, n: nat)
    requires Sim(wb, we, i, n) && IsSocket(wb, j)
    ensures Sim(Connect(wb, j, fd, optOk, outcome), Connect(we, j, fd, optOk, outcome), i, n)
  {
    SimAgrees(wb, we, i, j, n);
    if wb.socks[j].state == CsClosed {
      if wb.socks[j].fd == INVALID_SOCKET {
        SimConnectCreates(wb, we, i, j, fd, optOk, outcome, n);
      } else {
        SimConnected(wb, we, i, j, outcome, n);
      }
    }
  }

  lemma SimConnected(wb: World, we: World, i: nat, j: nat, outcome: ConnectOutcome, n: nat)
    requires Sim(wb, we, i, n) && IsSocket(wb, j)
    ensures Sim(Connected(wb, j, outcome), Connected(we, j, outcome), i, n)
  {
    match outcome
    case ConnectOk => SimEnableWithState(wb, we, i, j, CsConnected, DE_READ | DE_WRITE, n);
    case ConnectBlocking => SimEnableWithState(wb, we, i, j, CsConnecting, DE_READ | DE_WRITE | DE_CONNECT, n);
    case ConnectFailed =>
  }

  lemma SimConnectCreates(wb: World, we: World, i: nat, j: nat, fd: int, optOk: bool, outcome: ConnectOutcome, n: nat)
    requires Sim(wb, we, i, n) && IsSocket(wb, j) && wb.socks[j].fd == INVALID_SOCKET
    ensures Sim(DoConnect(wb, j, fd, optOk, outcome), DoConnect(we, j, fd, optOk, outcome), i, n)
  {
    SimAgrees(wb, we, i, j, n);
    SimCreate(wb, we, i, j, false, fd, optOk, n);
    var (wb1, okb) := Create(wb, j, false, fd, optOk);
    if okb {
      SimConnected(wb1, Create(we, j, false, fd, optOk).0, i, j, outcome, n);
    }
  }

  lemma AddLogsOthers(w: World, i: nat, j: nat, n: nat)
    requires j < |w.socks| && i != j && n <= |w.hist.rebuilds|
    ensures SameRebuilds(w, Add(w, j), n, i)
  {
    var log, log' := w.hist.rebuilds, Add(w, j).hist.rebuilds;
    if log' != log {
      assert log' == log + [j];
      assert log'[n..] == log[n..] + [j];
    }
  }

  lemma SimAccept(wb: World, we: World, i: nat, j: nat, fd: int, optOk: bool, n: nat)
    requires Sim(wb, we, i, n) && IsSocket(wb, j)
    ensures Sim(Accept(wb, j, fd, optOk), Accept(we, j, fd, optOk), i, n)
  {
    SimEnable(wb, we, i, j, DE_ACCEPT, n);
    SimAccepted(EnableEvents(wb, j, DE_ACCEPT), EnableEvents(we, j, DE_ACCEPT), i, j, fd, optOk, n);
  }

  lemma SimAccepted(wb: World, we: World, i: nat, j: nat, fd: int, optOk: bool, n: nat)
    requires Sim(wb, we, i, n) && IsSocket(wb, j) && j < |we.socks|
    ensures Sim(Accepted(wb, j, fd, optOk), Accepted(we, j, fd, optOk), i, n)
  {
    GrantedAlike(wb, we, i, j, fd, n);
    if wb.socks[j].fd != INVALID_SOCKET && Granted(wb, fd) != INVALID_SOCKET {
      SimWrapSocket(wb, we, i, fd, optOk, n);
    }
  }

  lemma GrantedAlike(wb: World, we: World, i: nat, j: nat, fd: int, n: nat)
    requires Sim(wb, we, i, n) && j < |wb.socks| && j < |we.socks|
    ensures we.socks[j].fd == wb.socks[j].fd && Granted(we, fd) == Granted(wb, fd)
  {
    SimAgrees(wb, we, i, j, n);
  }

  lemma SimWrapSocket(wb: World, we: World, i: nat, fd: int, optOk: bool, n: nat)
    requires Sim(wb, we, i, n) && 0 <= fd && fd !in wb.open
    ensures Sim(WrapSocket(wb, fd, optOk), WrapSocket(we, fd, optOk), i, n)
  {
    var j := |wb.socks|;
    var s := Sock(fd, false, CsConnected, DE_READ | DE_WRITE, NoBatch);
    SimNewSock(wb, we, i, s, n);
    var wb1, we1 := WithNewSock(wb, s), WithNewSock(we, s);
    assert j !in wb.keyOf;
    if optOk {
      SimAdd(wb1, we1, i, j, n);
    } else {
      SimClose(wb1, we1, i, j, n);
    }
  }

  lemma SimCreateSocket(wb: World, we: World, i: nat, dgram: bool, fd: int, optOk: bool, n: nat)
    requires Sim(wb, we, i, n)
    ensures Sim(CreateSocket(wb, dgram, fd, optOk), CreateSocket(we, dgram, fd, optOk), i, n)
  {
    var j := |wb.socks|;
    var s := Sock(INVALID_SOCKET, false, CsClosed, DE_READ | DE_WRITE, NoBatch);
    SimNewSock(wb, we, i, s, n);
    var wb1, we1 := WithNewSock(wb, s), WithNewSock(we, s);
    NewSockKeeps(wb, s);
    CreateKeeps(wb1, j, dgram, fd, optOk);
    SimCreate(wb1, we1, i, j, dgram, fd, optOk, n);
    var (wb2, okb) := Create(wb1, j, dgram, fd, optOk);
    if !okb {
      SimClose(wb2, Create(we1, j, dgram, fd, optOk).0, i, j, n);
    }
  }

  lemma SimRecv(wb: World, we: World, i: nat, j: nat, outcome: RecvOutcome, n: nat)
    requires Sim(wb, we, i, n) && IsSocket(wb, j)
    ensures Sim(Recv(wb, j, outcome), Recv(we, j, outcome), i, n)
  {
    SimAgrees(wb, we, i, j, n);
    SimEnable(wb, we, i, j, DE_READ, n);
  }

  lemma SimListen(wb: World, we: World, i: nat, j: nat, ok: bool, n: nat)
    requires Sim(wb, we, i, n) && IsSocket(wb, j)
    ensures Sim(Listen(wb, j, ok), Listen(we, j, ok), i, n)
  {
    SimAgrees(wb, we, i, j, n);
    SimEnableWithState(wb, we, i, j, CsConnecting, DE_ACCEPT, n);
  }

  lemma SimOp(wb: World, we: World, i: nat, op: Op, n: nat)
    requires Sim(wb, we, i, n)
    ensures Sim(ApplyOp(wb, op), ApplyOp(we, op), i, n)
  {
    if op.CreateSocketOp? {
      SimCreateSocket(wb, we, i, op.dgram, op.fd, op.optOk, n);
    } else if IsSocket(wb, op.who) {
      SimSocketOp(wb, we, i, op, n);
    }
  }

  lemma SimSocketOp(wb: World, we: World, i: nat, op: Op, n: nat)
    requires Sim(wb, we, i, n) && !op.CreateSocketOp? && IsSocket(wb, op.who)
    ensures Sim(ApplyOp(wb, op), ApplyOp(we, op), i, n)
  {
    if op.CreateOp? || op.ConnectOp? || op.CloseOp? {
      SimOpenOrClose(wb, we, i, op, n);
    } else {
      SimAskingOp(wb, we, i, op, n);
    }
  }

  lemma SimOpenOrClose(wb: World, we: World, i: nat, op: Op, n: nat)
    requires Sim(wb, we, i, n) && (op.CreateOp? || op.ConnectOp? || op.CloseOp?) && IsSocket(wb, op.who)
    ensures Sim(ApplyOp(wb, op), ApplyOp(we, op), i, n)
  {
    match op
    case CreateOp(j, dgram, fd, optOk) => SimCreate(wb, we, i, j, dgram, fd, optOk, n);
    case ConnectOp(j, fd, optOk, outcome) => SimConnect(wb, we, i, j, fd, optOk, outcome, n);
    case CloseOp(j) => SimClose(wb, we, i, j, n);
  }

  lemma SimAskingOp(wb: World, we: World, i: nat, op: Op, n: nat)
    requires Sim(wb, we, i, n) && (op.ListenOp? || op.AcceptOp? || op.RecvOp?) && IsSocket(wb, op.who)
    ensures Sim(ApplyOp(wb, op), ApplyOp(we, op), i, n)
  {
    if op.ListenOp? {
      SimListen(wb, we, i, op.who, op.ok, n);
    } else if op.AcceptOp? {
      SimAcceptOp(wb, we, i, op, n);
    } else {
      SimRecv(wb, we, i, op.who, op.got, n);
    }
  }

  lemma SimAcceptOp(wb: World, we: World, i: nat, op: Op, n: nat)
    requires Sim(wb, we, i, n) && op.AcceptOp? && IsSocket(wb, op.who)
    ensures Sim(ApplyOp(wb, op), ApplyOp(we, op), i, n)
  {
    SimAccept(wb, we, i, op.who, op.fd, op.optOk, n);
    AppliesAccept(wb, op);
    AppliesAccept(we, op);
  }

  lemma AppliesAccept(w: World, op: Op)
    requires op.AcceptOp? && IsSocket(w, op.who)
    ensures ApplyOp(w, op) == Accept(w, op.who, op.fd, op.optOk)
  {
  }

  lemma {:induction false} SimOps(wb: World, we: World, i: nat, ops: seq<Op>, n: nat)
    requires Sim(wb, we, i, n)
    ensures Sim(RunOps(wb, ops), RunOps(we, ops), i, n)
    decreases |ops|
  {
    if ops != [] {
      var before, last := ops[..|ops| - 1], ops[|ops| - 1];
      SimOps(wb, we, i, before, n);
      var wb1, we1 := RunOps(wb, before), RunOps(we, before);
      SimNote(wb1, we1, i, Did(last), n);
      SimOp(Note(wb1, Did(last)), Note(we1, Did(last)), i, last, n);
    }
  }

  lemma SimDisable(wb: World, we: World, i: nat, events: bv8, n: nat)
    requires Sim(wb, we, i, n)
    ensures Sim(DisableEvents(wb, i, events), DisableEvents(we, i, events), i, n)
  {
    SimEnabledAlike(wb, we, i, i, n);
    SimSetEnabled(wb, we, i, i, Without(wb.socks[i].enabled, events), n);
  }

  lemma SimFire(wb: World, we: World, i: nat, ff: bv8, flag: bv8, slots: seq<Op>, n: nat)
    requires Sim(wb, we, i, n)
    ensures Sim(Fire(wb, i, ff, flag, slots), Fire(we, i, ff, flag, slots), i, n)
  {
    if ff & flag != 0 {
      SimDisable(wb, we, i, flag, n);
      var wb1, we1 := DisableEvents(wb, i, flag), DisableEvents(we, i, flag);
      SimAnnounce(wb1, we1, i, flag, n);
      SimOps(Announce(wb1, i, flag), Announce(we1, i, flag), i, slots, n);
    }
  }

  lemma SimAnnounce(wb: World, we: World, i: nat, flag: bv8, n: nat)
    requires Sim(wb, we, i, n)
    ensures Sim(Announce(wb, i, flag), Announce(we, i, flag), i, n)
  {
    SimNote(wb, we, i, Fired(i, flag), n);
  }

  lemma SimNote(wb: World, we: World, i: nat, act: Act, n: nat)
    requires Sim(wb, we, i, n)
    ensures Sim(Note(wb, act), Note(we, act), i, n)
  {
    NoteKeeps(wb, act);
    NoteKeeps(we, act);
  }

  lemma SimFireAll(wb: World, we: World, i: nat, ff: bv8, h: Handlers, n: nat)
    requires Sim(wb, we, i, n)
    ensures Sim(FireAll(wb, i, ff, h), FireAll(we, i, ff, h), i, n)
  {
    SimFire(wb, we, i, ff, DE_CONNECT, h.onConnect, n);
    var b1, e1 := Fire(wb, i, ff, DE_CONNECT, h.onConnect), Fire(we, i, ff, DE_CONNECT, h.onConnect);
    SimFire(b1, e1, i, ff, DE_ACCEPT, h.onAccept, n);
    var b2, e2 := Fire(b1, i, ff, DE_ACCEPT, h.onAccept), Fire(e1, i, ff, DE_ACCEPT, h.onAccept);
    SimFire(b2, e2, i, ff, DE_READ, h.onRead, n);
    var b3, e3 := Fire(b2, i, ff, DE_READ, h.onRead), Fire(e2, i, ff, DE_READ, h.onRead);
    SimFire(b3, e3, i, ff, DE_WRITE, h.onWrite, n);
    var b4, e4 := Fire(b3, i, ff, DE_WRITE, h.onWrite), Fire(e3, i, ff, DE_WRITE, h.onWrite);
    SimFire(b4, e4, i, ff, DE_CLOSE, h.onClose, n);
  }

  /** The worlds agree in everything but what the kernel knows. */
  ghost predicate SameButKernel(a: World, b: World) {
    && a.socks == b.socks && a.byKey == b.byKey && a.keyOf == b.keyOf && a.nextKey == b.nextKey && a.open == b.open
  }

  /** The mask that batching leaves, given the one that eager updating leaves. */
  function BatchedMask(w: World, n: nat, i: nat, eager: bv8): bv8 {
    if i in w.keyOf && Rebuilt(w, n, i) && eager == 0 then RebuiltMask(w, i) else eager
  }

  /**
   The same dispatchers, the same registry and the same kernel masks, but for dispatcher i's own mask: if a slot
   registered it anew and it then asks for nothing, which the eager version tells the kernel, the batched one leaves
   it as it was registered.
   */
  ghost predicate RefinesEager(batched: World, eager: World, n: nat, i: nat)
    requires i < |eager.socks|
  {
    var fd := eager.socks[i].fd;
    && SameButKernel(batched, eager)
    && (forall other :: other != fd ==> Mask(batched.epoll, other) == Mask(eager.epoll, other))
    && (i in eager.keyOf ==> Mirrored(eager, i))
    && Mask(batched.epoll, fd) == BatchedMask(batched, n, i, Mask(eager.epoll, fd))
  }

  /**
   Batching refines eager updating: for every set of reported flags and whatever the slots do, OnEvent ends like a
   version that updates epoll after each change.
   */
  lemma BatchingRefinesEager(w: World, i: nat, ff: bv8, h: Handlers)
    requires Consistent(w) && IsSocket(w, i) && i in w.keyOf && w.socks[i].saved == NoBatch && Mirrored(w, i)
    ensures RefinesEager(OnEvent(w, i, ff, h), EagerOnEvent(w, i, ff, h), |w.hist.rebuilds|, i)
  {
    EnterEventKeeps(w, i, ff);
    var w1 := EnterEvent(w, i, ff);
    SimStarts(w1, i);
    SimFireAll(StartBatch(w1, i), w1, i, ff, h, |w.hist.rebuilds|);
    SimEnds(FireAll(StartBatch(w1, i), i, ff, h), FireAll(w1, i, ff, h), i, |w.hist.rebuilds|);
  }

  /**
   Exactly when the mirror fails: from a world in which the kernel is right about a socket, OnEvent leaves it wrong
   about the socket, still registered, if and only if a slot of this OnEvent registered it anew, for something, and
   at the end it asks for nothing.
   */
  lemma MirrorFailsIff(w: World, i: nat, ff: bv8, h: Handlers)
    requires Consistent(w) && IsSocket(w, i) && i in w.keyOf && w.socks[i].saved == NoBatch && Mirrored(w, i)
    ensures var w' := OnEvent(w, i, ff, h);
            i in w'.keyOf ==>
              (Mask(w'.epoll, w'.socks[i].fd) != GetEpollEvents(w'.socks[i].enabled) <==>
                && Rebuilt(w', |w.hist.rebuilds|, i)
                && RebuiltMask(w', i) != 0
                && GetEpollEvents(w'.socks[i].enabled) == 0)
  {
    BatchingRefinesEager(w, i, ff, h);
    OnEventKeeps(w, i, ff, h);
    assert SameBatch(w.socks[i].saved, OnEvent(w, i, ff, h).socks[i].saved);
  }

  lemma FinishBatchKeepsHistory(w: World, i: nat)
    requires i < |w.socks|
    ensures FinishBatch(w, i).hist.rebuilds == w.hist.rebuilds
    ensures FinishBatch(w, i).hist.masks == w.hist.masks && FinishBatch(w, i).keyOf == w.keyOf
  {
    UpdateFields(WithSock(w, i, w.socks[i].(saved := NoBatch)), i);
  }

  lemma SimEnds(wb: World, we: World, i: nat, n: nat)
    requires Sim(wb, we, i, n)
    ensures RefinesEager(FinishBatch(wb, i), we, n, i)
  {
    FinishBatchKeepsHistory(wb, i);
    FinishBatchTouches(wb, i);
    var w' := FinishBatch(wb, i);
    assert w'.socks == we.socks;
    forall fd | fd != we.socks[i].fd
      ensures Mask(w'.epoll, fd) == Mask(we.epoll, fd)
    {
      assert fd in wb.epoll <==> fd in we.epoll;
    }
    if i in wb.keyOf {
      if Rebuilt(wb, n, i) {
        OwnMaskAtEnd(wb, i);
      }
    } else {
      TouchingKeepsTables(wb, w', i);
      OwnEntryImpliesRegistered(w', i);
      OwnEntryImpliesRegistered(we, i);
    }
  }

  /** A batch that has nothing saved ends with the right mask, unless nothing is asked for; then the mask stays. */
  lemma OwnMaskAtEnd(w: World, i: nat)
    requires Consistent(w) && IsSocket(w, i) && i in w.keyOf && w.socks[i].saved == Batched(0)
    ensures var w', interest := FinishBatch(w, i), GetEpollEvents(w.socks[i].enabled);
            Mask(w'.epoll, w.socks[i].fd) == if interest == 0 then Mask(w.epoll, w.socks[i].fd) else interest
  {
    UpdateTouches(WithSock(w, i, w.socks[i].(saved := NoBatch)), i);
  }
}
