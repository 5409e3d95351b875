/** What every operation on dispatchers keeps: the registry, the epoll table, the mirror between the two. */
module ReactorRegistry {
  import opened ReactorModel

  // ----- the registry -----

  /** The two maps are inverse to each other and every key was issued. */
  ghost predicate RegistryOk(w: World) {
    && (forall k :: k in w.byKey ==> w.byKey[k] in w.keyOf && w.keyOf[w.byKey[k]] == k && k < w.nextKey)
    && (forall i :: i in w.keyOf ==> w.keyOf[i] in w.byKey && w.byKey[w.keyOf[i]] == i)
    && (forall i :: i in w.keyOf ==> i < |w.socks| && w.socks[i].fd != INVALID_SOCKET)
  }

  /** A dispatcher's descriptor is open and belongs to it alone. */
  ghost predicate DescriptorsOk(w: World) {
    forall i :: 0 <= i < |w.socks| && w.socks[i].fd != INVALID_SOCKET ==>
      0 <= w.socks[i].fd && w.socks[i].fd in w.open && w.open[w.socks[i].fd] == i
  }

  /** Every entry of the epoll table belongs to the registered dispatcher with that descriptor and that key. */
  ghost predicate TableOk(w: World) {
    forall fd :: fd in w.epoll ==>
      && w.epoll[fd].key in w.byKey
      && w.byKey[w.epoll[fd].key] < |w.socks|
      && w.socks[w.byKey[w.epoll[fd].key]].fd == fd
  }

  /** The Signaler stays registered under key 0, asking for DE_READ, never in a batch. */
  ghost predicate SignalerRegistered(w: World) {
    && 0 < |w.socks| && 0 in w.keyOf && w.keyOf[0] == 0
    && w.socks[0].enabled == DE_READ && w.socks[0].saved == NoBatch
    && 0 !in w.hist.anew
  }

  predicate NothingSaved(s: Saved) {
    s == NoBatch || s == Batched(0)
  }

  /** Who lost its registration within its own batch has nothing saved. */
  ghost predicate BatchesOk(w: World) {
    forall i :: 0 <= i < |w.socks| && i !in w.keyOf ==> NothingSaved(w.socks[i].saved)
  }

  ghost predicate Consistent(w: World) {
    RegistryOk(w) && DescriptorsOk(w) && TableOk(w) && SignalerRegistered(w) && BatchesOk(w)
  }

  // ----- the mirror -----

  /** The interest the kernel should know: the enabled events, or within a batch those saved at its start. */
  function Published(s: Sock): bv8 {
    match s.saved
    case NoBatch => GetEpollEvents(s.enabled)
    case Batched(events) => GetEpollEvents(events)
  }

  predicate Mirrored(w: World, i: nat)
    requires i < |w.socks|
  {
    Mask(w.epoll, w.socks[i].fd) == Published(w.socks[i])
  }

  /**
   The kernel watches for exactly the published interest, but for a dispatcher that was registered anew within its own
   OnEvent, with no Add or Update of it since: it asks for nothing, and is watched as it was registered.
   */
  predicate Watched(w: World, i: nat)
    requires i < |w.socks|
  {
    if i in w.hist.anew
    then Published(w.socks[i]) == 0 && Mask(w.epoll, w.socks[i].fd) == RebuiltMask(w, i)
    else Mirrored(w, i)
  }

  ghost predicate Mirrors(w: World) {
    forall i :: i in w.keyOf && i < |w.socks| ==> Watched(w, i)
  }

  // ----- what only grows -----

  predicate SameBatch(a: Saved, b: Saved) {
    a.NoBatch? <==> b.NoBatch?
  }

  /**
   Keys are never reissued: a key that was issued before and is registered now was registered then, to the same
   dispatcher with the same descriptor.
   */
  ghost predicate KeysEvolve(w: World, w': World) {
    && w.nextKey <= w'.nextKey
    && forall k :: k in w'.byKey && k < w.nextKey ==>
         && k in w.byKey && w.byKey[k] == w'.byKey[k]
         && (w.byKey[k] < |w.socks| && w.byKey[k] < |w'.socks| ==>
               w.socks[w.byKey[k]].fd == w'.socks[w.byKey[k]].fd)
  }

  ghost predicate SocksEvolve(w: World, w': World) {
    && |w.socks| <= |w'.socks|
    && (forall i :: 0 <= i < |w.socks| ==> SameBatch(w.socks[i].saved, w'.socks[i].saved))
    && (forall i :: |w.socks| <= i < |w'.socks| ==> w'.socks[i].saved == NoBatch)
    && w.hist.rebuilds <= w'.hist.rebuilds
    && w.hist.delivered == w'.hist.delivered
    && w.flagWait == w'.flagWait
  }

  /** An operation that starts in a consistent world ends in one and breaks no mirror. */
  ghost predicate Keeps(w: World, w': World) {
    && Consistent(w')
    && (Mirrors(w) ==> Mirrors(w'))
    && KeysEvolve(w, w')
    && SocksEvolve(w, w')
  }

  lemma KeepsSelf(w: World)
    requires Consistent(w)
    ensures Keeps(w, w)
  {
  }

  lemma KeysEvolveTwice(w: World, w1: World, w2: World)
    requires KeysEvolve(w, w1) && KeysEvolve(w1, w2) && |w.socks| <= |w1.socks| <= |w2.socks|
    ensures KeysEvolve(w, w2)
  {
    forall k | k in w2.byKey && k < w.nextKey
      ensures k in w.byKey && w.byKey[k] == w2.byKey[k]
      ensures w.byKey[k] < |w.socks| && w.byKey[k] < |w2.socks| ==>
                w.socks[w.byKey[k]].fd == w2.socks[w.byKey[k]].fd
    {
      assert k in w1.byKey && w1.byKey[k] == w2.byKey[k];
      assert k in w.byKey && w.byKey[k] == w1.byKey[k];
    }
  }

  lemma SocksEvolveTwice(w: World, w1: World, w2: World)
    requires SocksEvolve(w, w1) && SocksEvolve(w1, w2)
    ensures SocksEvolve(w, w2)
  {
    forall i | 0 <= i < |w.socks| ensures SameBatch(w.socks[i].saved, w2.socks[i].saved) {
      assert SameBatch(w.socks[i].saved, w1.socks[i].saved);
    }
  }

  lemma KeepsTwice(w: World, w1: World, w2: World)
    requires Keeps(w, w1) && Keeps(w1, w2)
    ensures Keeps(w, w2)
  {
    KeysEvolveTwice(w, w1, w2);
    SocksEvolveTwice(w, w1, w2);
  }

  // ----- one dispatcher at a time -----

  /** w' is w but for dispatcher i's record and the table entry of its descriptor. */
  ghost predicate TouchesOnly(w: World, w': World, i: nat) {
    && |w'.socks| == |w.socks| && i < |w.socks|
    && (forall j :: 0 <= j < |w.socks| && j != i ==> w'.socks[j] == w.socks[j])
    && w'.nextKey == w.nextKey && w'.byKey == w.byKey && w'.keyOf == w.keyOf
    && w'.open == w.open && w'.flagWait == w.flagWait
    && w'.hist.rebuilds == w.hist.rebuilds && w'.hist.masks == w.hist.masks
    && (forall j :: j != i ==> (j in w'.hist.anew <==> j in w.hist.anew))
    && w'.hist.delivered == w.hist.delivered
    && w'.socks[i].fd == w.socks[i].fd
    && (forall fd :: fd != w.socks[i].fd ==> (fd in w'.epoll <==> fd in w.epoll))
    && (forall fd :: fd != w.socks[i].fd && fd in w.epoll ==> w'.epoll[fd] == w.epoll[fd])
    && (w.socks[i].fd in w'.epoll ==> i in w.keyOf && w'.epoll[w.socks[i].fd].key == w.keyOf[i])
  }

  lemma TouchingKeeps(w: World, w': World, i: nat)
    requires Consistent(w) && TouchesOnly(w, w', i) && i != 0
    requires w'.socks[i].saved == w.socks[i].saved
    requires i in w.keyOf && Mirrors(w) ==> Watched(w', i)
    ensures Keeps(w, w')
  {
    assert TableOk(w') by {
      forall fd | fd in w'.epoll
        ensures w'.epoll[fd].key in w'.byKey && w'.byKey[w'.epoll[fd].key] < |w'.socks|
        ensures w'.socks[w'.byKey[w'.epoll[fd].key]].fd == fd
      {
        if fd != w.socks[i].fd {
          assert fd in w.epoll;
        }
      }
    }
    forall j | Mirrors(w) && j in w'.keyOf && j < |w'.socks|
      ensures Watched(w', j)
    {
      if j != i {
        assert Watched(w, j);
        assert w.socks[j].fd != w.socks[i].fd;
      }
    }
  }

  /** Whoever holds a descriptor in the table is its dispatcher. */
  lemma EntryKey(w: World, i: nat)
    requires Consistent(w) && i < |w.socks| && w.socks[i].fd in w.epoll
    ensures i in w.keyOf && w.epoll[w.socks[i].fd].key == w.keyOf[i]
  {
    var fd := w.socks[i].fd;
    var j := w.byKey[w.epoll[fd].key];
    assert w.socks[j].fd == fd;
    assert fd != INVALID_SOCKET;
    assert i == j;
  }

  lemma UpdateTouches(w: World, i: nat)
    requires Consistent(w) && i < |w.socks|
    ensures TouchesOnly(w, Update(w, i), i)
    ensures Update(w, i).socks == w.socks
    ensures i in w.keyOf ==> Mask(Update(w, i).epoll, w.socks[i].fd) == GetEpollEvents(w.socks[i].enabled)
    ensures i !in w.keyOf ==> Update(w, i).epoll == w.epoll
  {
    UpdateFields(w, i);
    if w.socks[i].fd in w.epoll {
      EntryKey(w, i);
    }
  }

  /** MOD, and ADD if that finds no entry. */
  lemma UpdateFields(w: World, i: nat)
    requires i < |w.socks|
    ensures var w', fd, mask := Update(w, i), w.socks[i].fd, GetEpollEvents(w.socks[i].enabled);
            && w' == w.(epoll := w'.epoll, hist := w'.hist)
            && w'.hist == LogUpdate(w.hist, i)
            && w'.epoll == if i in w.keyOf && fd != INVALID_SOCKET && (fd in w.epoll || mask != 0)
                           then w.epoll[fd := Entry(mask, w.keyOf[i])] else w.epoll
  {
  }

  /** Changing the interest of a dispatcher leaves the mirror right, in a batch or out of one. */
  lemma SetEnabledKeeps(w: World, i: nat, events: bv8)
    requires Consistent(w) && IsSocket(w, i)
    ensures var w' := SetEnabledEvents(w, i, events);
            && Keeps(w, w') && TouchesOnly(w, w', i)
            && w'.socks[i] == w.socks[i].(enabled := events)
  {
    SetEnabledTouches(w, i, events);
    var w' := SetEnabledEvents(w, i, events);
    if i in w.keyOf && Mirrors(w) {
      assert Watched(w, i);
    }
    TouchingKeeps(w, w', i);
  }

  lemma SetEnabledTouches(w: World, i: nat, events: bv8)
    requires Consistent(w) && IsSocket(w, i)
    ensures var w' := SetEnabledEvents(w, i, events);
            && TouchesOnly(w, w', i)
            && w'.socks[i] == w.socks[i].(enabled := events)
            && (i in w.keyOf && Mirrored(w, i) ==> Mirrored(w', i))
            && (i in w.keyOf && Watched(w, i) ==> Watched(w', i))
  {
    var w1 := WithSock(w, i, w.socks[i].(enabled := events));
    assert Consistent(w1);
    MayBeUpdateTouches(w1, i, w.socks[i].enabled);
    if w.socks[i].fd in w.epoll {
      EntryKey(w, i);
    }
  }

  /** Either nothing happens, or the kernel is told of the new interest. */
  lemma MayBeUpdateTouches(w: World, i: nat, oldEvents: bv8)
    requires Consistent(w) && i < |w.socks|
    ensures var w' := MayBeUpdateDispatcher(w, i, oldEvents);
            var changed := GetEpollEvents(w.socks[i].enabled) != GetEpollEvents(oldEvents);
            && TouchesOnly(w, w', i) && w'.socks == w.socks
            && (!changed || w.socks[i].saved != NoBatch ==> w' == w)
            && (changed && w.socks[i].saved == NoBatch && i in w.keyOf ==> Mirrored(w', i) && Watched(w', i))
  {
    UpdateTouches(w, i);
    UpdateFields(w, i);
    if w.socks[i].fd in w.epoll {
      EntryKey(w, i);
    }
  }

  lemma EnableKeeps(w: World, i: nat, events: bv8)
    requires Consistent(w) && IsSocket(w, i)
    ensures Keeps(w, EnableEvents(w, i, events)) && |EnableEvents(w, i, events).socks| == |w.socks|
  {
    SetEnabledKeeps(w, i, With(w.socks[i].enabled, events));
  }

  /** Changing a dispatcher's connection state concerns nothing else. */
  lemma SetStateKeeps(w: World, i: nat, state: ConnState)
    requires Consistent(w) && IsSocket(w, i)
    ensures Keeps(w, WithSock(w, i, w.socks[i].(state := state)))
  {
    if w.socks[i].fd in w.epoll {
      EntryKey(w, i);
    }
    TouchingKeeps(w, WithSock(w, i, w.socks[i].(state := state)), i);
  }

  // ----- registering, unregistering -----

  /** w' is w with dispatcher i registered under a new key. */
  ghost predicate Registers(w: World, w': World, i: nat) {
    && i < |w.socks| && i !in w.keyOf
    && w'.socks == w.socks && w'.open == w.open && w'.flagWait == w.flagWait
    && w'.nextKey == w.nextKey + 1
    && w'.byKey == w.byKey[w.nextKey := i] && w'.keyOf == w.keyOf[i := w.nextKey]
    && (forall fd :: fd != w.socks[i].fd ==> (fd in w'.epoll <==> fd in w.epoll))
    && (forall fd :: fd != w.socks[i].fd && fd in w.epoll ==> w'.epoll[fd] == w.epoll[fd])
    && (w.socks[i].fd in w'.epoll ==> w'.epoll[w.socks[i].fd].key == w.nextKey)
    && Mask(w'.epoll, w.socks[i].fd) == GetEpollEvents(w.socks[i].enabled)
    && w'.hist.delivered == w.hist.delivered && w.hist.rebuilds <= w'.hist.rebuilds
    && w'.hist.anew == (if w.socks[i].saved == NoBatch then w.hist.anew - {i} else w.hist.anew + {i})
    && (w.socks[i].saved != NoBatch ==> RebuiltMask(w', i) == GetEpollEvents(w.socks[i].enabled))
    && (forall j :: j != i ==> RebuiltMask(w', j) == RebuiltMask(w, j))
  }

  lemma AddRegisters(w: World, i: nat)
    requires Consistent(w) && i < |w.socks| && w.socks[i].fd != INVALID_SOCKET && i !in w.keyOf
    ensures Registers(w, Add(w, i), i)
  {
    if w.socks[i].fd in w.epoll {
      EntryKey(w, i);
    }
  }

  lemma RegisteringKeepsTables(w: World, w': World, i: nat)
    requires Consistent(w) && Registers(w, w', i) && w.socks[i].fd != INVALID_SOCKET && i != 0
    ensures RegistryOk(w') && TableOk(w')
  {
    assert w.nextKey !in w.byKey;
    forall fd | fd in w'.epoll
      ensures w'.epoll[fd].key in w'.byKey && w'.byKey[w'.epoll[fd].key] < |w'.socks|
      ensures w'.socks[w'.byKey[w'.epoll[fd].key]].fd == fd
    {
      if fd != w.socks[i].fd {
        assert fd in w.epoll && w.epoll[fd].key != w.nextKey;
      }
    }
  }

  lemma RegisteringKeepsMirrors(w: World, w': World, i: nat)
    requires Consistent(w) && Registers(w, w', i) && Mirrors(w)
    ensures Mirrors(w')
  {
    forall j | j in w'.keyOf && j < |w'.socks|
      ensures Watched(w', j)
    {
      if j != i {
        assert Watched(w, j);
        assert w.socks[j].fd != w.socks[i].fd;
      }
    }
  }

  lemma AddKeeps(w: World, i: nat)
    requires Consistent(w) && IsSocket(w, i) && w.socks[i].fd != INVALID_SOCKET && i !in w.keyOf
    ensures Keeps(w, Add(w, i)) && Add(w, i).socks == w.socks && i in Add(w, i).keyOf
  {
    var w' := Add(w, i);
    AddRegisters(w, i);
    RegisteringKeepsTables(w, w', i);
    if Mirrors(w) {
      RegisteringKeepsMirrors(w, w', i);
    }
  }

  /** w' is w after the registry and the kernel forgot dispatcher i, which gave up its descriptor. */
  ghost predicate Drops(w: World, w': World, i: nat) {
    && i < |w.socks| && |w'.socks| == |w.socks|
    && (forall j :: 0 <= j < |w.socks| && j != i ==> w'.socks[j] == w.socks[j])
    && w'.socks[i].fd == INVALID_SOCKET && SameBatch(w.socks[i].saved, w'.socks[i].saved)
    && NothingSaved(w'.socks[i].saved)
    && w'.open == w.open - {w.socks[i].fd}
    && (forall k :: k in w'.byKey <==> k in w.byKey && w.byKey[k] != i)
    && (forall k :: k in w'.byKey ==> w'.byKey[k] == w.byKey[k])
    && (forall j :: j in w'.keyOf <==> j in w.keyOf && j != i)
    && (forall j :: j in w'.keyOf ==> w'.keyOf[j] == w.keyOf[j])
    && (forall fd :: fd in w'.epoll <==> fd in w.epoll && fd != w.socks[i].fd)
    && (forall fd :: fd in w'.epoll ==> w'.epoll[fd] == w.epoll[fd])
    && w'.nextKey == w.nextKey && w'.hist == w.hist && w'.flagWait == w.flagWait
  }

  lemma DroppingKeepsTables(w: World, w': World, i: nat)
    requires Consistent(w) && Drops(w, w', i) && w.socks[i].fd != INVALID_SOCKET && i != 0
    ensures RegistryOk(w') && DescriptorsOk(w') && TableOk(w') && BatchesOk(w')
  {
    forall fd | fd in w'.epoll
      ensures w'.epoll[fd].key in w'.byKey && w'.byKey[w'.epoll[fd].key] < |w'.socks|
      ensures w'.socks[w'.byKey[w'.epoll[fd].key]].fd == fd
    {
      assert fd in w.epoll && w.byKey[w.epoll[fd].key] != i;
    }
  }

  lemma DroppingKeepsMirrors(w: World, w': World, i: nat)
    requires Consistent(w) && Drops(w, w', i) && Mirrors(w)
    ensures Mirrors(w')
  {
    forall j | j in w'.keyOf && j < |w'.socks|
      ensures Watched(w', j)
    {
      assert j != i && Watched(w, j);
      assert w.socks[j].fd != w.socks[i].fd;
    }
  }

  /** The middle of Close: after it, neither the registry nor the kernel knows the dispatcher or its descriptor. */
  function Unregister(w: World, i: nat, saved: Saved): World
    requires i < |w.socks|
  {
    ReleaseFd(Remove(WithSock(w, i, w.socks[i].(saved := saved)), i), i)
  }

  lemma UnregisterDrops(w: World, i: nat, saved: Saved)
    requires Consistent(w) && i < |w.socks| && w.socks[i].fd != INVALID_SOCKET
    requires saved == SavedOnClose(w.socks[i].saved)
    ensures Drops(w, Unregister(w, i, saved), i)
    ensures Unregister(w, i, saved).socks[i].saved == saved
  {
    var w1 := WithSock(w, i, w.socks[i].(saved := saved));
    RemoveForgets(w1, i);
    RemoveLeavesRest(w1, i);
  }

  lemma RemoveLeavesRest(w: World, i: nat)
    requires i < |w.socks|
    ensures var w' := Remove(w, i);
            && w'.socks == w.socks && w'.open == w.open && w'.hist == w.hist
            && w'.nextKey == w.nextKey && w'.flagWait == w.flagWait
  {
  }

  lemma RemoveForgets(w: World, i: nat)
    requires RegistryOk(w) && i < |w.socks| && w.socks[i].fd != INVALID_SOCKET
    ensures var w' := Remove(w, i);
            && (forall k :: k in w'.byKey <==> k in w.byKey && w.byKey[k] != i)
            && (forall k :: k in w'.byKey ==> w'.byKey[k] == w.byKey[k])
            && (forall j :: j in w'.keyOf <==> j in w.keyOf && j != i)
            && (forall j :: j in w'.keyOf ==> w'.keyOf[j] == w.keyOf[j])
            && (forall fd :: fd != w.socks[i].fd ==> (fd in w'.epoll <==> fd in w.epoll))
            && (forall fd :: fd in w'.epoll ==> fd in w.epoll && w'.epoll[fd] == w.epoll[fd])
  {
    if i in w.keyOf {
      assert forall k :: k in w.byKey && w.byKey[k] == i ==> k == w.keyOf[i];
    } else {
      assert forall k :: k in w.byKey ==> w.byKey[k] != i;
    }
  }

  lemma DroppingKeeps(w: World, w': World, i: nat)
    requires Consistent(w) && Drops(w, w', i) && w.socks[i].fd != INVALID_SOCKET && i != 0
    ensures Keeps(w, w')
  {
    DroppingKeepsTables(w, w', i);
    DroppingEvolves(w, w', i);
    if Mirrors(w) {
      DroppingKeepsMirrors(w, w', i);
    }
  }

  lemma DroppingEvolves(w: World, w': World, i: nat)
    requires Drops(w, w', i)
    ensures KeysEvolve(w, w') && SocksEvolve(w, w')
  {
    forall j | 0 <= j < |w.socks| ensures SameBatch(w.socks[j].saved, w'.socks[j].saved) {}
  }

  lemma CloseKeeps(w: World, i: nat)
    requires Consistent(w) && IsSocket(w, i)
    ensures var w' := Close(w, i);
            && Keeps(w, w') && |w'.socks| == |w.socks|
            && i !in w'.keyOf && w'.socks[i].fd == INVALID_SOCKET
            && (forall j :: 0 <= j < |w.socks| && j != i ==> w'.socks[j] == w.socks[j])
            && (w.socks[i].fd != INVALID_SOCKET ==> w'.socks[i].saved == SavedOnClose(w.socks[i].saved))
  {
    if w.socks[i].fd == INVALID_SOCKET {
      KeepsSelf(w);
    } else {
      var saved := SavedOnClose(w.socks[i].saved);
      var w1 := Unregister(w, i, saved);
      UnregisterDrops(w, i, saved);
      DroppingKeeps(w, w1, i);
      SetEnabledKeeps(w1, i, 0);
      KeepsTwice(w, w1, SetEnabledEvents(w1, i, 0));
    }
  }

  // ----- operations -----

  function GiveFd(w: World, i: nat, fd: int, udp: bool): World
    requires i < |w.socks|
  {
    WithSock(w, i, w.socks[i].(fd := fd, udp := udp))
      .(open := if fd == INVALID_SOCKET then w.open else w.open[fd := i])
  }

  /** Giving a descriptor to a dispatcher that has none. */
  lemma GiveFdKeeps(w: World, i: nat, fd: int, udp: bool)
    requires Consistent(w) && IsSocket(w, i) && w.socks[i].fd == INVALID_SOCKET
    requires fd == INVALID_SOCKET || (0 <= fd && fd !in w.open)
    ensures Keeps(w, GiveFd(w, i, fd, udp))
  {
    var w' := GiveFd(w, i, fd, udp);
    assert i !in w.keyOf;
    GiveFdKeepsTables(w, i, fd, udp);
    if Mirrors(w) {
      forall j | j in w'.keyOf && j < |w'.socks|
        ensures Watched(w', j)
      {
        assert Watched(w, j);
      }
    }
  }

  lemma GiveFdKeepsTables(w: World, i: nat, fd: int, udp: bool)
    requires Consistent(w) && IsSocket(w, i) && w.socks[i].fd == INVALID_SOCKET
    requires fd == INVALID_SOCKET || (0 <= fd && fd !in w.open)
    ensures var w' := GiveFd(w, i, fd, udp);
            Consistent(w') && KeysEvolve(w, w')
  {
    var w' := GiveFd(w, i, fd, udp);
    assert forall k :: k in w.byKey ==> w.byKey[k] != i;
    assert forall j :: 0 <= j < |w.socks| && j != i ==> w'.socks[j] == w.socks[j];
  }

  lemma OpenSocketKeeps(w: World, i: nat, dgram: bool, fd: int)
    requires Consistent(w) && IsSocket(w, i) && w.socks[i].fd == INVALID_SOCKET
    ensures var w' := OpenSocket(w, i, dgram, fd);
            && Keeps(w, w') && |w'.socks| == |w.socks| && w'.keyOf == w.keyOf
            && w'.socks[i].fd == Granted(w, fd)
  {
    var granted := Granted(w, fd);
    GiveFdKeeps(w, i, granted, dgram);
    var owned := GiveFd(w, i, granted, dgram);
    if dgram {
      SetEnabledKeeps(owned, i, DE_READ | DE_WRITE);
      KeepsTwice(w, owned, SetEnabledEvents(owned, i, DE_READ | DE_WRITE));
    }
  }

  lemma CreateKeeps(w: World, i: nat, dgram: bool, fd: int, optOk: bool)
    requires Consistent(w) && IsSocket(w, i)
    ensures Keeps(w, Create(w, i, dgram, fd, optOk).0)
    ensures |Create(w, i, dgram, fd, optOk).0.socks| == |w.socks|
  {
    CloseKeeps(w, i);
    var w1 := Close(w, i);
    OpenSocketKeeps(w1, i, dgram, fd);
    var w2 := OpenSocket(w1, i, dgram, fd);
    KeepsTwice(w, w1, w2);
    if w2.socks[i].fd != INVALID_SOCKET && optOk {
      AddKeeps(w2, i);
      KeepsTwice(w, w2, Add(w2, i));
    }
  }

  lemma EnableWithStateKeeps(w: World, i: nat, state: ConnState, events: bv8)
    requires Consistent(w) && IsSocket(w, i)
    ensures Keeps(w, EnableEvents(WithSock(w, i, w.socks[i].(state := state)), i, events))
  {
    var w1 := WithSock(w, i, w.socks[i].(state := state));
    SetStateKeeps(w, i, state);
    EnableKeeps(w1, i, events);
    KeepsTwice(w, w1, EnableEvents(w1, i, events));
  }

  lemma ConnectedKeeps(w: World, i: nat, outcome: ConnectOutcome)
    requires Consistent(w) && IsSocket(w, i)
    ensures Keeps(w, Connected(w, i, outcome))
  {
    match outcome
    case ConnectOk => EnableWithStateKeeps(w, i, CsConnected, DE_READ | DE_WRITE);
    case ConnectBlocking => EnableWithStateKeeps(w, i, CsConnecting, DE_READ | DE_WRITE | DE_CONNECT);
    case ConnectFailed => KeepsSelf(w);
  }

  lemma ConnectKeeps(w: World, i: nat, fd: int, optOk: bool, outcome: ConnectOutcome)
    requires Consistent(w) && IsSocket(w, i)
    ensures Keeps(w, Connect(w, i, fd, optOk, outcome))
  {
    if w.socks[i].state != CsClosed {
      KeepsSelf(w);
    } else if w.socks[i].fd != INVALID_SOCKET {
      ConnectedKeeps(w, i, outcome);
    } else {
      CreateKeeps(w, i, false, fd, optOk);
      var (created, ok) := Create(w, i, false, fd, optOk);
      if ok {
        ConnectedKeeps(created, i, outcome);
        KeepsTwice(w, created, Connected(created, i, outcome));
      }
    }
  }

  function WithNewSock(w: World, s: Sock): World {
    w.(socks := w.socks + [s], open := if s.fd == INVALID_SOCKET then w.open else w.open[s.fd := |w.socks|])
  }

  /** A dispatcher just made, not registered yet. */
  lemma NewSockKeeps(w: World, s: Sock)
    requires Consistent(w) && s.saved == NoBatch
    requires s.fd == INVALID_SOCKET || (0 <= s.fd && s.fd !in w.open)
    ensures Keeps(w, WithNewSock(w, s))
  {
    var w' := WithNewSock(w, s);
    assert |w.socks| !in w.keyOf;
    forall j | Mirrors(w) && j in w'.keyOf && j < |w'.socks|
      ensures Watched(w', j)
    {
      assert Watched(w, j);
    }
  }

  lemma WrapSocketKeeps(w: World, fd: int, optOk: bool)
    requires Consistent(w) && 0 <= fd && fd !in w.open
    ensures Keeps(w, WrapSocket(w, fd, optOk))
  {
    var i := |w.socks|;
    var s := Sock(fd, false, CsConnected, DE_READ | DE_WRITE, NoBatch);
    NewSockKeeps(w, s);
    var w1 := WithNewSock(w, s);
    assert i !in w1.keyOf;
    if optOk {
      AddKeeps(w1, i);
      KeepsTwice(w, w1, Add(w1, i));
    } else {
      CloseKeeps(w1, i);
      KeepsTwice(w, w1, Close(w1, i));
    }
  }

  lemma AcceptKeeps(w: World, i: nat, fd: int, optOk: bool)
    requires Consistent(w) && IsSocket(w, i)
    ensures Keeps(w, Accept(w, i, fd, optOk))
  {
    var w1 := EnableEvents(w, i, DE_ACCEPT);
    EnableKeeps(w, i, DE_ACCEPT);
    if w1.socks[i].fd != INVALID_SOCKET && Granted(w1, fd) != INVALID_SOCKET {
      WrapSocketKeeps(w1, fd, optOk);
      KeepsTwice(w, w1, WrapSocket(w1, fd, optOk));
    }
  }

  lemma CreateSocketKeeps(w: World, dgram: bool, fd: int, optOk: bool)
    requires Consistent(w)
    ensures Keeps(w, CreateSocket(w, dgram, fd, optOk))
  {
    var i := |w.socks|;
    var s := Sock(INVALID_SOCKET, false, CsClosed, DE_READ | DE_WRITE, NoBatch);
    NewSockKeeps(w, s);
    var w1 := WithNewSock(w, s);
    CreateKeeps(w1, i, dgram, fd, optOk);
    var (w2, ok) := Create(w1, i, dgram, fd, optOk);
    KeepsTwice(w, w1, w2);
    if !ok {
      CloseKeeps(w2, i);
      KeepsTwice(w, w2, Close(w2, i));
    }
  }

  /** Whatever a handler does to whichever dispatcher keeps the registry and the mirror. */
  lemma OpKeeps(w: World, op: Op)
    requires Consistent(w)
    ensures Keeps(w, ApplyOp(w, op))
  {
    KeepsSelf(w);
    if op.CreateSocketOp? {
      CreateSocketKeeps(w, op.dgram, op.fd, op.optOk);
    } else if IsSocket(w, op.who) {
      match op
      case CreateOp(i, dgram, fd, optOk) => CreateKeeps(w, i, dgram, fd, optOk);
      case ConnectOp(i, fd, optOk, outcome) => ConnectKeeps(w, i, fd, optOk, outcome);
      case ListenOp(i, ok) => EnableWithStateKeeps(w, i, CsConnecting, DE_ACCEPT);
      case AcceptOp(i, fd, optOk) => AcceptKeeps(w, i, fd, optOk);
      case RecvOp(i, outcome) => EnableKeeps(w, i, DE_READ);
      case CloseOp(i) => CloseKeeps(w, i);
    }
  }

  /** The log of signals and of what slots do concerns nothing else. */
  lemma NoteKeeps(w: World, act: Act)
    requires Consistent(w)
    ensures Keeps(w, Note(w, act))
  {
    var w' := Note(w, act);
    forall j | Mirrors(w) && j in w'.keyOf && j < |w'.socks|
      ensures Watched(w', j)
    {
      assert Watched(w, j);
    }
  }

  lemma {:induction false} OpsKeep(w: World, ops: seq<Op>)
    requires Consistent(w)
    ensures Keeps(w, RunOps(w, ops))
    decreases |ops|
  {
    if ops == [] {
      KeepsSelf(w);
    } else {
      var before := ops[..|ops| - 1];
      OpsKeep(w, before);
      var last := ops[|ops| - 1];
      var w1, w2 := RunOps(w, before), Note(RunOps(w, before), Did(last));
      NoteKeeps(w1, Did(last));
      OpKeeps(w2, last);
      KeepsTwice(w, w1, w2);
      KeepsTwice(w, w2, RunOps(w, ops));
    }
  }
}
