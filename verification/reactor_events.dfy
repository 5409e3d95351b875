/** Event dispatch: batched interest updates, stale events, and whole runs of the socket server. */
module ReactorEvents {
  import opened ReactorModel
  import opened ReactorRegistry

  // ----- OnEvent -----

  lemma EnterEventKeeps(w: World, i: nat, ff: bv8)
    requires Consistent(w) && IsSocket(w, i)
    ensures Keeps(w, EnterEvent(w, i, ff))
  {
    SetStateKeeps(w, i, StateAfter(w.socks[i].state, ff));
  }

  lemma DisableKeeps(w: World, i: nat, events: bv8)
    requires Consistent(w) && IsSocket(w, i)
    ensures Keeps(w, DisableEvents(w, i, events))
  {
    SetEnabledKeeps(w, i, Without(w.socks[i].enabled, events));
  }

  lemma FireKeeps(w: World, i: nat, ff: bv8, flag: bv8, slots: seq<Op>)
    requires Consistent(w) && IsSocket(w, i)
    ensures Keeps(w, Fire(w, i, ff, flag, slots))
  {
    KeepsSelf(w);
    if ff & flag != 0 {
      var w1 := DisableEvents(w, i, flag);
      DisableKeeps(w, i, flag);
      AnnounceKeeps(w1, i, flag);
      var w2 := Announce(w1, i, flag);
      KeepsTwice(w, w1, w2);
      OpsKeep(w2, slots);
      KeepsTwice(w, w2, RunOps(w2, slots));
    }
  }

  lemma AnnounceKeeps(w: World, i: nat, flag: bv8)
    requires Consistent(w)
    ensures Keeps(w, Announce(w, i, flag))
  {
    NoteKeeps(w, Fired(i, flag));
  }

  lemma FireAllKeeps(w: World, i: nat, ff: bv8, h: Handlers)
    requires Consistent(w) && IsSocket(w, i)
    ensures Keeps(w, FireAll(w, i, ff, h))
  {
    FireKeeps(w, i, ff, DE_CONNECT, h.onConnect);
    var w1 := Fire(w, i, ff, DE_CONNECT, h.onConnect);
    FireKeeps(w1, i, ff, DE_ACCEPT, h.onAccept);
    var w2 := Fire(w1, i, ff, DE_ACCEPT, h.onAccept);
    KeepsTwice(w, w1, w2);
    FireKeeps(w2, i, ff, DE_READ, h.onRead);
    var w3 := Fire(w2, i, ff, DE_READ, h.onRead);
    KeepsTwice(w, w2, w3);
    FireKeeps(w3, i, ff, DE_WRITE, h.onWrite);
    var w4 := Fire(w3, i, ff, DE_WRITE, h.onWrite);
    KeepsTwice(w, w3, w4);
    FireKeeps(w4, i, ff, DE_CLOSE, h.onClose);
    KeepsTwice(w, w4, Fire(w4, i, ff, DE_CLOSE, h.onClose));
  }

  /** Opening a batch publishes nothing new. */
  lemma StartBatchKeeps(w: World, i: nat)
    requires Consistent(w) && IsSocket(w, i) && i in w.keyOf && w.socks[i].saved == NoBatch
    ensures var w' := StartBatch(w, i);
            Consistent(w') && KeysEvolve(w, w') && (Mirrors(w) ==> Mirrors(w'))
  {
    var w' := StartBatch(w, i);
    forall j | Mirrors(w) && j in w'.keyOf && j < |w'.socks|
      ensures Watched(w', j)
    {
      assert Watched(w, j);
    }
  }

  /** Closing a batch republishes the interest if it changed. */
  lemma FinishBatchTouches(w: World, i: nat)
    requires Consistent(w) && IsSocket(w, i) && w.socks[i].saved.Batched?
    ensures var w' := FinishBatch(w, i);
            && TouchesOnly(w, w', i)
            && w'.socks[i] == w.socks[i].(saved := NoBatch)
            && (i in w.keyOf && Mirrored(w, i) ==> Mirrored(w', i))
            && (i in w.keyOf && Watched(w, i) ==> Watched(w', i))
  {
    var w1 := WithSock(w, i, w.socks[i].(saved := NoBatch));
    if w.socks[i].fd in w.epoll {
      EntryKey(w, i);
    }
    EndBatchIsConsistent(w, i);
    MayBeUpdateTouches(w1, i, SavedAsEvents(w.socks[i].saved));
  }

  lemma EndBatchIsConsistent(w: World, i: nat)
    requires Consistent(w) && IsSocket(w, i)
    ensures Consistent(WithSock(w, i, w.socks[i].(saved := NoBatch)))
  {
  }

  lemma TouchingKeepsTables(w: World, w': World, i: nat)
    requires Consistent(w) && TouchesOnly(w, w', i) && i != 0 && w'.socks[i].saved == NoBatch
    ensures Consistent(w') && KeysEvolve(w, w')
  {
    forall fd | fd in w'.epoll
      ensures w'.epoll[fd].key in w'.byKey && w'.byKey[w'.epoll[fd].key] < |w'.socks|
      ensures w'.socks[w'.byKey[w'.epoll[fd].key]].fd == fd
    {
      if fd != w.socks[i].fd {
        assert fd in w.epoll;
      }
    }
  }

  lemma TouchingKeepsMirrors(w: World, w': World, i: nat)
    requires Consistent(w) && TouchesOnly(w, w', i) && Mirrors(w)
    requires i in w.keyOf ==> Watched(w', i)
    ensures Mirrors(w')
  {
    forall j | j in w'.keyOf && j < |w'.socks|
      ensures Watched(w', j)
    {
      if j != i {
        assert Watched(w, j);
        assert w.socks[j].fd != w.socks[i].fd;
      }
    }
  }

  /** OnEvent keeps the registry and the mirror, whatever the slots do. */
  lemma OnEventKeeps(w: World, i: nat, ff: bv8, h: Handlers)
    requires Consistent(w) && IsSocket(w, i) && i in w.keyOf && w.socks[i].saved == NoBatch
    ensures Keeps(w, OnEvent(w, i, ff, h))
  {
    EnterEventKeeps(w, i, ff);
    var w1 := EnterEvent(w, i, ff);
    StartBatchKeeps(w1, i);
    var w2 := StartBatch(w1, i);
    FireAllKeeps(w2, i, ff, h);
    var w3 := FireAll(w2, i, ff, h);
    FinishBatchTouches(w3, i);
    var w4 := FinishBatch(w3, i);
    TouchingKeepsTables(w3, w4, i);
    if Mirrors(w) {
      if i in w3.keyOf {
        assert Watched(w3, i);
      }
      TouchingKeepsMirrors(w3, w4, i);
    }
    KeysEvolveTwice(w, w1, w2);
    KeysEvolveTwice(w, w2, w3);
    KeysEvolveTwice(w, w3, w4);
    OnEventSocks(w, w1, w2, w3, w4, i);
  }

  lemma OnEventSocks(w: World, w1: World, w2: World, w3: World, w4: World, i: nat)
    requires SocksEvolve(w, w1) && i < |w.socks| && w.socks[i].saved == NoBatch
    requires |w2.socks| == |w1.socks| && w2.hist == w1.hist
    requires w2.socks == w1.socks[i := w1.socks[i].(saved := w2.socks[i].saved)]
    requires w2.flagWait == w1.flagWait
    requires SocksEvolve(w2, w3) && TouchesOnly(w3, w4, i) && w4.socks[i].saved == NoBatch
    ensures SocksEvolve(w, w4)
  {
    forall j | 0 <= j < |w.socks|
      ensures SameBatch(w.socks[j].saved, w4.socks[j].saved)
    {
      if j != i {
        assert SameBatch(w.socks[j].saved, w1.socks[j].saved);
        assert SameBatch(w2.socks[j].saved, w3.socks[j].saved);
      }
    }
    forall j | |w.socks| <= j < |w4.socks|
      ensures w4.socks[j].saved == NoBatch
    {
      if j < |w1.socks| {
        assert SameBatch(w2.socks[j].saved, w3.socks[j].saved);
      }
    }
  }

  // ----- when the mirror fails -----

  /** At the end of a batch the mirror is right if and only if the interest changed or the kernel had the saved one. */
  lemma FinishMirrorsIff(w: World, i: nat)
    requires Consistent(w) && IsSocket(w, i) && i in w.keyOf && w.socks[i].saved.Batched?
    ensures Mirrored(FinishBatch(w, i), i) <==>
              || GetEpollEvents(w.socks[i].enabled) != GetEpollEvents(w.socks[i].saved.events)
              || Mirrored(w, i)
  {
    UpdateTouches(WithSock(w, i, w.socks[i].(saved := NoBatch)), i);
  }

  // ----- dispatch -----

  /** No batch is open. */
  ghost predicate Calm(w: World) {
    forall i :: 0 <= i < |w.socks| ==> w.socks[i].saved == NoBatch
  }

  /** What a dispatch pass keeps: all that operations keep, while it delivers events. */
  ghost predicate Serves(w: World, w': World) {
    && Consistent(w') && Calm(w')
    && (Mirrors(w) ==> Mirrors(w'))
    && KeysEvolve(w, w')
    && |w.socks| <= |w'.socks|
    && w.hist.rebuilds <= w'.hist.rebuilds
    && w.hist.delivered <= w'.hist.delivered
  }

  lemma ServesTwice(w: World, w1: World, w2: World)
    requires Serves(w, w1) && Serves(w1, w2)
    ensures Serves(w, w2)
  {
    KeysEvolveTwice(w, w1, w2);
  }

  lemma KeepsServes(w: World, w': World)
    requires Consistent(w) && Calm(w) && Keeps(w, w')
    ensures Serves(w, w')
  {
    forall i | 0 <= i < |w'.socks| ensures w'.socks[i].saved == NoBatch {
      if i < |w.socks| {
        assert SameBatch(w.socks[i].saved, w'.socks[i].saved);
      }
    }
  }

  lemma ProcessEventsServes(w: World, key: nat, i: nat, r: Report, h: Handlers)
    requires Consistent(w) && Calm(w) && i in w.keyOf
    ensures i < |w.socks|
    ensures var w' := ProcessEvents(w, key, i, r, h);
            && Serves(w, w')
            && w'.hist.delivered ==
               w.hist.delivered + if EventFlags(w, i, r) == 0 then [] else [(key, i, EventFlags(w, i, r))]
  {
    var ff := EventFlags(w, i, r);
    if ff != 0 {
      var logged := w.(hist := w.hist.(delivered := w.hist.delivered + [(key, i, ff)]));
      LoggedServes(w, logged);
      if i != 0 {
        OnEventServes(logged, i, ff, h);
        ServesTwice(w, logged, OnEvent(logged, i, ff, h));
      } else {
        LoggedServes(w, SignalerOnEvent(logged));
      }
    } else {
      ServesSelf(w);
    }
  }

  lemma OnEventServes(w: World, i: nat, ff: bv8, h: Handlers)
    requires Consistent(w) && Calm(w) && i in w.keyOf && i != 0
    ensures var w' := OnEvent(w, i, ff, h);
            Serves(w, w') && w'.hist.delivered == w.hist.delivered
  {
    OnEventKeeps(w, i, ff, h);
    KeepsServes(w, OnEvent(w, i, ff, h));
  }

  lemma LoggedServes(w: World, w': World)
    requires Consistent(w) && Calm(w) && w.hist.delivered <= w'.hist.delivered
    requires w' == w.(flagWait := w'.flagWait, hist := w.hist.(delivered := w'.hist.delivered))
    ensures Serves(w, w')
  {
    forall j | Mirrors(w) && j in w'.keyOf && j < |w'.socks|
      ensures Watched(w', j)
    {
      assert Watched(w, j);
    }
  }

  lemma DeliverServes(w: World, e: Event)
    requires Consistent(w) && Calm(w)
    ensures Serves(w, DeliverEvent(w, e))
  {
    if e.key in w.byKey && w.byKey[e.key] < |w.socks| {
      ProcessEventsServes(w, e.key, w.byKey[e.key], e.report, e.handlers);
    }
  }

  lemma {:induction false} BatchServes(w: World, events: seq<Event>)
    requires Consistent(w) && Calm(w)
    ensures Serves(w, ProcessBatch(w, events))
    decreases |events|
  {
    if events != [] {
      var before := events[..|events| - 1];
      BatchServes(w, before);
      var w1 := ProcessBatch(w, before);
      DeliverServes(w1, events[|events| - 1]);
      ServesTwice(w, w1, ProcessBatch(w, events));
    }
  }

  /** The world after the first m events of a batch. */
  function After(w: World, events: seq<Event>, m: nat): World
    requires m <= |events|
  {
    ProcessBatch(w, events[..m])
  }

  lemma AfterStep(w: World, events: seq<Event>, m: nat)
    requires m < |events|
    ensures After(w, events, m + 1) == DeliverEvent(After(w, events, m), events[m])
    ensures After(w, events, 0) == w
  {
    assert events[..m + 1][..m] == events[..m];
  }

  lemma {:induction false} AfterServes(w: World, events: seq<Event>, m: nat, n: nat)
    requires Consistent(w) && Calm(w) && m <= n <= |events|
    ensures Serves(w, After(w, events, m)) && Serves(After(w, events, m), After(w, events, n))
    decreases n - m
  {
    BatchServes(w, events[..m]);
    var wm := After(w, events, m);
    if m == n {
      ServesSelf(wm);
    } else {
      AfterServes(w, events, m + 1, n);
      AfterStep(w, events, m);
      DeliverServes(wm, events[m]);
      ServesTwice(wm, After(w, events, m + 1), After(w, events, n));
    }
  }

  lemma ServesSelf(w: World)
    requires Consistent(w) && Calm(w)
    ensures Serves(w, w)
  {
  }

  // ----- stale events -----

  predicate RegisteredAs(w: World, k: nat, i: nat, fd: int) {
    k in w.byKey && w.byKey[k] == i && i < |w.socks| && w.socks[i].fd == fd
  }

  /** A key that is registered later was registered before, in the same way. */
  lemma RegisteredBefore(w: World, w': World, k: nat, i: nat, fd: int)
    requires Consistent(w) && Consistent(w') && KeysEvolve(w, w') && |w.socks| <= |w'.socks|
    requires k < w.nextKey && RegisteredAs(w', k, i, fd)
    ensures RegisteredAs(w, k, i, fd)
  {
    assert k in w.byKey && w.byKey[k] == i;
    assert i in w.keyOf;
  }

  /** One event: delivered, with its key, exactly when the key is registered and something is reported. */
  lemma DeliveredIffRegistered(w: World, e: Event)
    requires Consistent(w) && Calm(w)
    ensures var w' := DeliverEvent(w, e);
            if e.key in w.byKey then
              var i := w.byKey[e.key];
              && RegisteredAs(w, e.key, i, w.socks[i].fd)
              && w'.hist.delivered ==
                   w.hist.delivered +
                   (if EventFlags(w, i, e.report) == 0 then [] else [(e.key, i, EventFlags(w, i, e.report))])
            else w' == w
  {
    if e.key in w.byKey {
      assert w.byKey[e.key] in w.keyOf;
      ProcessEventsServes(w, e.key, w.byKey[e.key], e.report, e.handlers);
    }
  }

  /**
   The n-th event of a batch is delivered if and only if its key is still registered and reports something, and then
   to the dispatcher the key was issued to, which has been registered with the same descriptor at every moment since
   the batch was fetched. Handlers may close, re-create and accept whatever they like.
   */
  lemma NoStaleEvent(w: World, events: seq<Event>, n: nat)
    requires Consistent(w) && Calm(w) && n < |events| && events[n].key < w.nextKey
    ensures var wn := After(w, events, n);
            var delivered := After(w, events, n + 1).hist.delivered;
            var k := events[n].key;
            if k in wn.byKey && wn.byKey[k] < |wn.socks| && EventFlags(wn, wn.byKey[k], events[n].report) != 0 then
              && delivered == wn.hist.delivered + [(k, wn.byKey[k], EventFlags(wn, wn.byKey[k], events[n].report))]
              && forall m :: 0 <= m <= n ==>
                   RegisteredAs(After(w, events, m), k, wn.byKey[k], wn.socks[wn.byKey[k]].fd)
            else delivered == wn.hist.delivered
  {
    var wn, k := After(w, events, n), events[n].key;
    AfterServes(w, events, 0, n);
    AfterStep(w, events, n);
    DeliveredIffRegistered(wn, events[n]);
    if k in wn.byKey && wn.byKey[k] < |wn.socks| {
      var i, fd := wn.byKey[k], wn.socks[wn.byKey[k]].fd;
      forall m | 0 <= m <= n
        ensures RegisteredAs(After(w, events, m), k, i, fd)
      {
        AfterServes(w, events, m, n);
        RegisteredBefore(After(w, events, m), wn, k, i, fd);
      }
    }
  }

  // ----- whole runs -----

  /** What the application and the loop do with a socket server: operations, and passes over epoll events. */
  datatype Move = Do(op: Op) | Pass(events: seq<Event>)

  function MakeMove(w: World, m: Move): World {
    match m
    case Do(op) => ApplyOp(w, op)
    case Pass(events) => ProcessBatch(w, events)
  }

  function RunMoves(w: World, moves: seq<Move>): World
    decreases |moves|
  {
    if moves == [] then w else MakeMove(RunMoves(w, moves[..|moves| - 1]), moves[|moves| - 1])
  }

  lemma {:induction false} RunServes(w: World, moves: seq<Move>)
    requires Consistent(w) && Calm(w)
    ensures Serves(w, RunMoves(w, moves))
    decreases |moves|
  {
    if moves == [] {
      KeepsSelf(w);
      KeepsServes(w, w);
    } else {
      var before, last := moves[..|moves| - 1], moves[|moves| - 1];
      RunServes(w, before);
      var w1 := RunMoves(w, before);
      match last
      case Do(op) =>
        OpKeeps(w1, op);
        KeepsServes(w1, ApplyOp(w1, op));
        ServesTwice(w, w1, ApplyOp(w1, op));
      case Pass(events) =>
        BatchServes(w1, events);
        ServesTwice(w, w1, ProcessBatch(w1, events));
    }
  }

  lemma InitIsConsistent(w: World)
    requires InitWorld(w)
    ensures Consistent(w) && Calm(w) && Mirrors(w)
  {
  }

  /**
   Over every run: the two maps stay inverse, keys stay below the counter, every entry of the epoll table belongs to
   a registered dispatcher with that key and descriptor, and the kernel is right about what every registered
   dispatcher asks for. It is wrong if and only if the dispatcher was last registered within its own OnEvent, for
   something, with no Update of it since; then it asks for nothing, and is watched for what it was registered for.
   */
  lemma RegistryMirrorsKernel(w: World, moves: seq<Move>)
    requires InitWorld(w)
    ensures var w' := RunMoves(w, moves);
            && RegistryOk(w') && TableOk(w')
            && forall i :: i in w'.keyOf ==>
                 && i < |w'.socks|
                 && var interest, mask := GetEpollEvents(w'.socks[i].enabled), Mask(w'.epoll, w'.socks[i].fd);
                    && (mask != interest <==> i in w'.hist.anew && RebuiltMask(w', i) != 0)
                    && (mask != interest ==> interest == 0 && mask == RebuiltMask(w', i))
  {
    InitIsConsistent(w);
    RunServes(w, moves);
    var w' := RunMoves(w, moves);
    forall i | i in w'.keyOf
      ensures i < |w'.socks| && w'.socks[i].saved == NoBatch && Watched(w', i)
    {
    }
  }

  /** Closing leaves nothing behind: neither key nor epoll entry names the dispatcher, nor its old descriptor. */
  lemma ClosedIsForgotten(w: World, i: nat)
    requires Consistent(w) && IsSocket(w, i)
    ensures var w' := Close(w, i);
            && i !in w'.keyOf && w'.socks[i].fd == INVALID_SOCKET
            && (forall k :: k in w'.byKey ==> w'.byKey[k] != i)
            && w.socks[i].fd !in w'.epoll
  {
    CloseKeeps(w, i);
    var w' := Close(w, i);
    forall fd | fd in w'.epoll
      ensures fd != w.socks[i].fd
    {
      var j := w'.byKey[w'.epoll[fd].key];
      assert j in w'.keyOf && w'.socks[j].fd == fd;
      assert w'.socks[j] == w.socks[j];
    }
  }

  /** The wake-up descriptor stays armed, under key 0, through every run: a byte in the pipe is always reported. */
  lemma WakeUpStaysArmed(w: World, moves: seq<Move>)
    requires InitWorld(w)
    ensures var w' := RunMoves(w, moves);
            && 0 < |w'.socks| && w'.socks[0].fd == w.socks[0].fd
            && w.socks[0].fd in w'.epoll && w'.epoll[w.socks[0].fd] == Entry(EPOLLIN, 0)
            && 0 in w'.byKey && w'.byKey[0] == 0
  {
    InitIsConsistent(w);
    RunServes(w, moves);
    var w' := RunMoves(w, moves);
    assert Watched(w', 0) && Mirrored(w', 0);
    assert w'.byKey[w'.keyOf[0]] == 0;
    EntryKey(w', 0);
  }
}
