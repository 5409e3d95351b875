/**
 PhysicalSocketServer, SocketDispatcher and Signaler as they are: objects whose methods change their fields in place.
 Each method is proved against the function of the same name in ReactorModel, ReactorEvents or ReactorSelect, so what
 is proved about worlds there holds of the objects here. PhysicalSocket, the base class, is part of SocketDispatcher.
 */
module Reactor {
  import Spec = ReactorModel
  import opened ReactorModel
  import opened ReactorRegistry
  import opened ReactorEvents
  import opened ReactorBatching
  import opened ReactorLimits
  import opened ReactorSelect
  import opened ReactorWaits
  import TaskQueues

  /** A bool that two objects share. */
  class Flag {
    var up: bool

    constructor ()
      ensures !up
    {
      up := false;
    }
  }

  /** The coalescing self-pipe. */
  class Signaler {
    const flagToClear: Flag
    var signaled: bool
    var pipe: nat  // bytes in the pipe

    constructor (flagToClear: Flag)
      ensures Valid() && !signaled && this.flagToClear == flagToClear
    {
      this.flagToClear, signaled, pipe := flagToClear, false, 0;
    }

    ghost predicate Valid()
      reads this
    {
      pipe == if signaled then 1 else 0
    }

    /** ::write of one byte. */
    method Write() returns (res: nat)
      modifies this`pipe
      ensures pipe == old(pipe) + 1 && res == 1
    {
      pipe := pipe + 1;
      return 1;
    }

    /** ::read into a buffer of four bytes. */
    method Read() returns (res: nat)
      modifies this`pipe
      ensures res == (if old(pipe) < 4 then old(pipe) else 4) && pipe == old(pipe) - res
    {
      res := if pipe < 4 then pipe else 4;
      pipe := pipe - res;
    }

    /** However often it is called, one byte is in the pipe. */
    method Signal()
      requires Valid()
      modifies this
      ensures Valid() && signaled
    {
      if !signaled {
        var res := Write();
        assert res == 1;
        signaled := true;
      }
    }

    method OnEvent()
      requires Valid()
      modifies this, flagToClear
      ensures Valid() && !signaled && !flagToClear.up
    {
      if signaled {
        var res := Read();
        assert res == 1;
        signaled := false;
      }
      flagToClear.up := false;
    }
  }

  class SocketDispatcher {
    const id: nat
    const server: PhysicalSocketServer
    var fd: int
    var udp: bool
    var state: ConnState
    var enabled: bv8
    var saved: Saved

    constructor (id: nat, server: PhysicalSocketServer, fd: int)
      ensures this.id == id && this.server == server
      ensures Record() ==
              Sock(fd, false, if fd == INVALID_SOCKET then CsClosed else CsConnected, DE_READ | DE_WRITE, NoBatch)
    {
      this.id, this.server, this.fd, udp := id, server, fd, false;
      state := if fd == INVALID_SOCKET then CsClosed else CsConnected;
      enabled, saved := DE_READ | DE_WRITE, NoBatch;
    }

    ghost function Record(): Sock
      reads this
    {
      Sock(fd, udp, state, enabled, saved)
    }

    /** The server knows this dispatcher under its number. */
    ghost predicate Ready()
      reads server, server.dispatchers
    {
      server.Valid() && id < |server.dispatchers| && server.dispatchers[id] == this
    }

    // ----- interest -----

    method MayBeUpdateDispatcher(oldEvents: bv8)
      requires Ready()
      modifies server`epoll, server`hist
      ensures Ready() && server.View() == Spec.MayBeUpdateDispatcher(old(server.View()), id, oldEvents)
    {
      if GetEpollEvents(enabled) != GetEpollEvents(oldEvents) && saved == NoBatch {
        server.Update(this);
      }
    }

    method SetEnabledEvents(events: bv8)
      requires Ready()
      modifies this`enabled, server`epoll, server`hist
      ensures Ready() && server.View() == Spec.SetEnabledEvents(old(server.View()), id, events)
    {
      var oldEvents := enabled;
      enabled := events;
      server.OneChanged(this);
      MayBeUpdateDispatcher(oldEvents);
    }

    method EnableEvents(events: bv8)
      requires Ready()
      modifies this`enabled, server`epoll, server`hist
      ensures Ready() && server.View() == Spec.EnableEvents(old(server.View()), id, events)
    {
      var oldEvents := enabled;
      enabled := enabled | events;
      server.OneChanged(this);
      MayBeUpdateDispatcher(oldEvents);
    }

    method DisableEvents(events: bv8)
      requires Ready()
      modifies this`enabled, server`epoll, server`hist
      ensures Ready() && server.View() == Spec.DisableEvents(old(server.View()), id, events)
    {
      var oldEvents := enabled;
      enabled := enabled & !events;
      server.OneChanged(this);
      MayBeUpdateDispatcher(oldEvents);
    }

    // ----- operations -----

    method Close()
      requires Ready()
      modifies this, server`nextKey, server`byKey, server`keyOf, server`epoll, server`open, server`hist
      ensures Ready() && server.View() == Spec.Close(old(server.View()), id)
    {
      if fd == INVALID_SOCKET {
        return;
      }
      if saved != NoBatch {
        saved := Batched(0);
      }
      server.OneChanged(this);
      server.Remove(this);
      ReleaseFd();
      SetEnabledEvents(0);
    }

    /** ::close and what PhysicalSocket::Close does to its fields. */
    method ReleaseFd()
      requires Ready()
      modifies this`fd, this`state, server`open, server`epoll
      ensures Ready() && server.View() == Spec.ReleaseFd(old(server.View()), id)
    {
      server.CloseDescriptor(fd);
      label Closed:
      fd := INVALID_SOCKET;
      state := CsClosed;
      server.OneChanged@Closed(this);
    }

    /** ::socket returns newFd if that is free, and an error otherwise. */
    method OpenSocket(dgram: bool, newFd: int)
      requires Ready()
      modifies this, server`open, server`epoll, server`hist
      ensures Ready() && server.View() == Spec.OpenSocket(old(server.View()), id, dgram, newFd)
    {
      fd := if 0 <= newFd && newFd !in server.open then newFd else INVALID_SOCKET;
      udp := dgram;
      server.OneChanged(this);
      if fd != INVALID_SOCKET {
        server.open := server.open[fd := id];
      }
      assert server.View() == GiveFd(old(server.View()), id, fd, udp);
      if udp {
        SetEnabledEvents(DE_READ | DE_WRITE);
      }
    }

    method Create(dgram: bool, newFd: int, optOk: bool) returns (ok: bool)
      requires Ready()
      modifies this, server`nextKey, server`byKey, server`keyOf, server`epoll, server`open, server`hist
      ensures Ready() && (server.View(), ok) == Spec.Create(old(server.View()), id, dgram, newFd, optOk)
    {
      Close();
      OpenSocket(dgram, newFd);
      if fd == INVALID_SOCKET || !optOk {
        return false;
      }
      server.Add(this);
      return true;
    }

    method Connect(newFd: int, optOk: bool, outcome: ConnectOutcome)
      requires Ready()
      modifies this, server`nextKey, server`byKey, server`keyOf, server`epoll, server`open, server`hist
      ensures Ready() && server.View() == Spec.Connect(old(server.View()), id, newFd, optOk, outcome)
    {
      if state != CsClosed {
        return;
      }
      DoConnect(newFd, optOk, outcome);
    }

    method DoConnect(newFd: int, optOk: bool, outcome: ConnectOutcome)
      requires Ready()
      modifies this, server`nextKey, server`byKey, server`keyOf, server`epoll, server`open, server`hist
      ensures Ready() && server.View() == Spec.DoConnect(old(server.View()), id, newFd, optOk, outcome)
    {
      if fd == INVALID_SOCKET {
        var ok := Create(false, newFd, optOk);
        if !ok {
          return;
        }
      }
      Connected(outcome);
    }

    method Connected(outcome: ConnectOutcome)
      requires Ready()
      modifies this`state, this`enabled, server`epoll, server`hist
      ensures Ready() && server.View() == Spec.Connected(old(server.View()), id, outcome)
    {
      var events := DE_READ | DE_WRITE;
      match outcome {
        case ConnectOk => state := CsConnected;
        case ConnectBlocking =>
          state := CsConnecting;
          events := events | DE_CONNECT;
        case ConnectFailed => return;
      }
      server.OneChanged(this);
      EnableEvents(events);
    }

    method Listen(ok: bool)
      requires Ready()
      modifies this`state, this`enabled, server`epoll, server`hist
      ensures Ready() && server.View() == Spec.Listen(old(server.View()), id, ok)
    {
      if fd != INVALID_SOCKET && ok {
        state := CsConnecting;
        server.OneChanged(this);
        EnableEvents(DE_ACCEPT);
      }
    }

    method Accept(newFd: int, optOk: bool)
      requires Ready()
      modifies this`enabled, server
      ensures Ready() && server.Grew() && server.View() == Spec.Accept(old(server.View()), id, newFd, optOk)
    {
      EnableEvents(DE_ACCEPT);
      if fd == INVALID_SOCKET || newFd < 0 || newFd in server.open {
        return;
      }
      server.WrapSocket(newFd, optOk);
    }

    method Recv(outcome: RecvOutcome)
      requires Ready()
      modifies this`enabled, server`epoll, server`hist
      ensures Ready() && server.View() == Spec.Recv(old(server.View()), id, outcome)
    {
      var success := outcome != RecvError && fd != INVALID_SOCKET;
      if udp || success {
        EnableEvents(DE_READ);
      }
    }

    /** A call that a slot makes on this socket. */
    method Perform(op: Op)
      requires Ready() && 0 < id && !op.CreateSocketOp? && op.who == id
      modifies this, server
      ensures Ready() && server.Grew() && server.View() == Spec.ApplyOp(old(server.View()), op)
    {
      match op
      case CreateOp(_, dgram, newFd, optOk) => var _ := Create(dgram, newFd, optOk);
      case ConnectOp(_, newFd, optOk, outcome) => Connect(newFd, optOk, outcome);
      case ListenOp(_, ok) => Listen(ok);
      case AcceptOp(_, newFd, optOk) => Accept(newFd, optOk);
      case RecvOp(_, outcome) => Recv(outcome);
      case CloseOp(_) => Close();
    }

    // ----- events -----

    method StartBatchedEventUpdates()
      requires Ready()
      modifies this`saved
      ensures Ready() && server.View() == Spec.StartBatch(old(server.View()), id)
    {
      saved := Batched(enabled);
      server.OneChanged(this);
    }

    method FinishBatchedEventUpdates()
      requires Ready()
      modifies this`saved, server`epoll, server`hist
      ensures Ready() && server.View() == Spec.FinishBatch(old(server.View()), id)
    {
      var oldEvents := SavedAsEvents(saved);
      saved := NoBatch;
      server.OneChanged(this);
      MayBeUpdateDispatcher(oldEvents);
    }

    /** Fires one signal, whose slots run the given operations. */
    method Fire(ff: bv8, flag: bv8, slots: seq<Op>)
      requires Ready()
      modifies server, server.dispatchers
      ensures Ready() && server.Grew() && server.View() == Spec.Fire(old(server.View()), id, ff, flag, slots)
    {
      if ff & flag != 0 {
        DisableEvents(flag);
        server.TakeNote(Fired(id, flag));
        server.RunOps(slots);
      }
    }

    method FireAll(ff: bv8, h: Handlers)
      requires Ready()
      modifies server, server.dispatchers
      ensures Ready() && server.Grew() && server.View() == Spec.FireAll(old(server.View()), id, ff, h)
    {
      Fire(ff, DE_CONNECT, h.onConnect);
      FireInput(ff, h);
      FireOutput(ff, h);
    }

    method FireInput(ff: bv8, h: Handlers)
      requires Ready()
      modifies server, server.dispatchers
      ensures Ready() && server.Grew()
      ensures server.View() ==
              Spec.Fire(Spec.Fire(old(server.View()), id, ff, DE_ACCEPT, h.onAccept), id, ff, DE_READ, h.onRead)
    {
      Fire(ff, DE_ACCEPT, h.onAccept);
      Fire(ff, DE_READ, h.onRead);
    }

    method FireOutput(ff: bv8, h: Handlers)
      requires Ready()
      modifies server, server.dispatchers
      ensures Ready() && server.Grew()
      ensures server.View() ==
              Spec.Fire(Spec.Fire(old(server.View()), id, ff, DE_WRITE, h.onWrite), id, ff, DE_CLOSE, h.onClose)
    {
      Fire(ff, DE_WRITE, h.onWrite);
      Fire(ff, DE_CLOSE, h.onClose);
    }

    method EnterEvent(ff: bv8)
      requires Ready()
      modifies this`state
      ensures Ready() && server.View() == Spec.EnterEvent(old(server.View()), id, ff)
    {
      if ff & DE_CONNECT != 0 {
        state := CsConnected;
      }
      if ff & DE_CLOSE != 0 {
        state := CsClosed;
      }
      server.OneChanged(this);
    }

    /** The rest of OnEvent: the kernel hears of all that the slots change when they are done. */
    method FireInBatch(ff: bv8, h: Handlers)
      requires Ready()
      modifies server, server.dispatchers
      ensures Ready() && server.Grew()
      ensures server.View() == Spec.FinishBatch(Spec.FireAll(Spec.StartBatch(old(server.View()), id), id, ff, h), id)
    {
      StartBatchedEventUpdates();
      FireAll(ff, h);
      FinishBatchedEventUpdates();
    }

    /** The kernel watches this object's descriptor for exactly what the object asks. */
    ghost predicate KernelKnows()
      reads this, server
    {
      Mask(server.epoll, fd) == GetEpollEvents(enabled)
    }

    /** Nobody is in the middle of an event, and the kernel watches this registered socket as it asks. */
    ghost predicate Settled()
      reads this, server, server.flagWait, server.dispatchers
    {
      Consistent(server.View()) && 0 < id && id in server.keyOf && saved == NoBatch && KernelKnows()
    }

    /** Slots opened this socket anew since there were n such openings, and then took back what they had asked for. */
    ghost predicate Silenced(n: nat)
      reads this, server
    {
      && (exists m :: n <= m < |server.hist.rebuilds| && server.hist.rebuilds[m] == id)
      && id in server.hist.masks && server.hist.masks[id] != 0 && GetEpollEvents(enabled) == 0
    }

    method OnEvent(ff: bv8, h: Handlers)
      requires Ready()
      modifies server, server.dispatchers
      ensures Ready() && server.Grew() && server.View() == Spec.OnEvent(old(server.View()), id, ff, h)
      ensures 0 < id ==> server.hist.acts == old(server.hist).acts + EventActs(id, ff, h)
      ensures old(Settled()) && id in server.keyOf ==>
                (KernelKnows() <==> !Silenced(|old(server.hist).rebuilds|))
    {
      EnterEvent(ff);
      FireInBatch(ff, h);
      if 0 < id {
        ActsAreTheSlots(old(server.View()), ff, h);
      }
      if old(Settled()) {
        KernelKnowsIff(old(server.View()), ff, h);
      }
    }

    lemma ActsAreTheSlots(w: World, ff: bv8, h: Handlers)
      requires 0 < id < |w.socks| && server.View() == Spec.OnEvent(w, id, ff, h)
      ensures server.hist.acts == w.hist.acts + EventActs(id, ff, h)
    {
      AtMostOneUpdate(w, id, ff, h);
    }

    lemma KernelKnowsIff(w: World, ff: bv8, h: Handlers)
      requires Ready() && Consistent(w) && 0 < id < |w.socks| && id in w.keyOf
      requires w.socks[id].saved == NoBatch && Mask(w.epoll, w.socks[id].fd) == GetEpollEvents(w.socks[id].enabled)
      requires server.View() == Spec.OnEvent(w, id, ff, h)
      ensures id in server.keyOf ==> (KernelKnows() <==> !Silenced(|w.hist.rebuilds|))
    {
      MirrorFailsIff(w, id, ff, h);
      assert server.View().socks[id] == Record();
    }
  }

  class PhysicalSocketServer {
    var dispatchers: seq<SocketDispatcher>  // all that were ever made; the first stands for the Signaler
    var nextKey: nat
    var byKey: map<nat, nat>
    var keyOf: map<nat, nat>
    const flagWait: Flag
    const signaler: Signaler
    var currentKeys: seq<nat>
    var epoll: map<int, Entry>  // the kernel's interest table
    var open: map<int, nat>     // the kernel's open descriptors
    ghost var hist: History

    /** signalFd is the reading end of the Signaler's pipe. */
    constructor (signalFd: int)
      requires 0 <= signalFd
      ensures Valid() && SignalerOk() && fresh(dispatchers) && fresh(flagWait) && fresh(signaler)
      ensures InitWorld(View()) && currentKeys == []
    {
      var flag := new Flag();
      flagWait := flag;
      signaler := new Signaler(flag);
      nextKey, byKey, keyOf, currentKeys := 0, map[], map[], [];
      epoll, open, hist, dispatchers := map[], map[], History([], [], map[], {}, [], []), [];
      new;
      AddSignaler(signalFd);
    }

    /** What the constructor of Signaler does to the server. */
    method AddSignaler(signalFd: int)
      requires 0 <= signalFd && dispatchers == [] && nextKey == 0 && byKey == map[] && keyOf == map[] && !flagWait.up
      requires epoll == map[] && open == map[] && hist == History([], [], map[], {}, [], [])
      modifies this`dispatchers, this`open, this`nextKey, this`byKey, this`keyOf, this`epoll, this`hist
      ensures Valid() && fresh(dispatchers) && InitWorld(View())
    {
      var first := new SocketDispatcher(0, this, signalFd);
      first.enabled := DE_READ;
      open := open[signalFd := 0];
      dispatchers := [first];
      assert View() == NewWorld(signalFd) by {
        assert Records(dispatchers) == [first.Record()];
      }
      Add(first);
      FirstAddInitializes(signalFd);
    }

    /** The world in which the Signaler registers. */
    static ghost function NewWorld(signalFd: int): World {
      World([Sock(signalFd, false, CsConnected, DE_READ, NoBatch)], 0, map[], map[], map[], map[signalFd := 0], false,
            History([], [], map[], {}, [], []))
    }

    static lemma FirstAddInitializes(signalFd: int)
      requires 0 <= signalFd
      ensures InitWorld(Spec.Add(NewWorld(signalFd), 0))
    {
    }

    ghost predicate Valid()
      reads this, dispatchers
    {
      forall i :: 0 <= i < |dispatchers| ==> dispatchers[i].id == i && dispatchers[i].server == this
    }

    /** The Signaler clears the flag of this server, and its pipe holds what it should. */
    ghost predicate SignalerOk()
      reads signaler
    {
      signaler.Valid() && signaler.flagToClear == flagWait
    }

    static ghost function Records(ds: seq<SocketDispatcher>): (r: seq<Sock>)
      reads ds
      ensures |r| == |ds| && forall i :: 0 <= i < |ds| ==> r[i] == ds[i].Record()
    {
      seq(|ds|, i requires 0 <= i < |ds| reads ds => ds[i].Record())
    }

    ghost function View(): World
      reads this, flagWait, dispatchers
    {
      World(Records(dispatchers), nextKey, byKey, keyOf, epoll, open, flagWait.up, hist)
    }

    /** Dispatchers are only ever added, and those added are new objects. */
    twostate predicate OnlyAdded()
      reads this
    {
      && old(dispatchers) <= dispatchers
      && forall i :: |old(dispatchers)| <= i < |dispatchers| ==> fresh(dispatchers[i])
    }

    /** What was added before and what was added since are both new. */
    twostate lemma StillOnlyAdded(new before: seq<SocketDispatcher>)
      requires old(dispatchers) <= before <= dispatchers
      requires forall i :: |old(dispatchers)| <= i < |before| ==> fresh(before[i])
      requires forall i :: |before| <= i < |dispatchers| ==> fresh(dispatchers[i])
      ensures OnlyAdded()
    {
    }

    twostate predicate Grew()
      reads this
    {
      OnlyAdded() && currentKeys == old(currentKeys)
    }

    /** Registry, descriptors and epoll table fit together, and no batch is open. */
    ghost predicate InOrder()
      reads this, flagWait, dispatchers
    {
      Consistent(View()) && Calm(View()) && Mirrors(View())
    }

    /** The kernel watches every registered object for exactly what it asks, with the one exception. */
    ghost predicate WatchedAsAsked()
      reads this, dispatchers
    {
      forall i :: i in keyOf ==>
        && i < |dispatchers| && keyOf[i] in byKey && byKey[keyOf[i]] == i
        && var interest := GetEpollEvents(dispatchers[i].enabled);
           if i in hist.anew && i in hist.masks then interest == 0 && Mask(epoll, dispatchers[i].fd) == hist.masks[i]
           else Mask(epoll, dispatchers[i].fd) == interest
    }

    lemma OrderMeansWatched()
      requires InOrder()
      ensures WatchedAsAsked()
    {
      forall i | i in keyOf
        ensures i < |dispatchers| && Watched(View(), i) && View().socks[i] == dispatchers[i].Record()
        ensures dispatchers[i].saved == NoBatch
      {
        assert i < |View().socks|;
      }
    }

    twostate lemma OneChanged(d: SocketDispatcher)
      requires old(d.Ready()) && d.server == this && unchanged(this) && unchanged(flagWait)
      requires forall i :: 0 <= i < |dispatchers| && i != d.id ==> unchanged(dispatchers[i])
      ensures d.Ready() && View() == WithSock(old(View()), d.id, d.Record())
    {
      assert Records(dispatchers) == old(Records(dispatchers))[d.id := d.Record()];
    }

    // ----- the registry -----

    method Add(d: SocketDispatcher)
      requires d.Ready() && d.server == this
      modifies this`nextKey, this`byKey, this`keyOf, this`epoll, this`hist
      ensures d.Ready() && View() == Spec.Add(old(View()), d.id)
    {
      if d.id in keyOf {
        return;
      }
      var key := nextKey;
      nextKey := nextKey + 1;
      byKey := byKey[key := d.id];
      keyOf := keyOf[d.id := key];
      if d.saved != NoBatch {
        hist := LogRebuild(hist, d.id, GetEpollEvents(d.enabled));
      } else {
        hist := LogAdd(hist, d.id);
      }
      assert View() == old(View()).(nextKey := nextKey, byKey := byKey, keyOf := keyOf, hist := hist);
      AddEpoll(d, key);
    }

    method Remove(d: SocketDispatcher)
      requires d.Ready() && d.server == this
      modifies this`byKey, this`keyOf, this`epoll
      ensures d.Ready() && View() == Spec.Remove(old(View()), d.id)
    {
      if d.id !in keyOf {
        return;
      }
      var key := keyOf[d.id];
      keyOf := keyOf - {d.id};
      byKey := byKey - {key};
      RemoveEpoll(d);
    }

    method Update(d: SocketDispatcher)
      requires d.Ready() && d.server == this
      modifies this`epoll, this`hist
      ensures d.Ready() && View() == Spec.Update(old(View()), d.id)
    {
      hist := LogUpdate(hist, d.id);
      if d.id in keyOf {
        UpdateEpoll(d, keyOf[d.id]);
      }
    }

    method AddEpoll(d: SocketDispatcher, key: nat)
      requires d.Ready() && d.server == this
      modifies this`epoll
      ensures d.Ready() && View() == Spec.AddEpoll(old(View()), d.id, key)
    {
      if d.fd == INVALID_SOCKET {
        return;
      }
      var event := Entry(GetEpollEvents(d.enabled), key);
      if event.mask == 0 {
        return;
      }
      var _ := EpollCtlAdd(d.fd, event);
    }

    method RemoveEpoll(d: SocketDispatcher)
      requires d.Ready() && d.server == this
      modifies this`epoll
      ensures d.Ready() && View() == Spec.RemoveEpoll(old(View()), d.id)
    {
      if d.fd == INVALID_SOCKET {
        return;
      }
      var _ := EpollCtlDel(d.fd);
    }

    method UpdateEpoll(d: SocketDispatcher, key: nat)
      requires d.Ready() && d.server == this
      modifies this`epoll
      ensures d.Ready() && View() == Spec.UpdateEpoll(old(View()), d.id, key)
    {
      if d.fd == INVALID_SOCKET {
        return;
      }
      var event := Entry(GetEpollEvents(d.enabled), key);
      var err := EpollCtlMod(d.fd, event);
      if event.mask != 0 && err == ENOENT {
        err := EpollCtlAdd(d.fd, event);
      }
    }

    // ----- the kernel -----

    method EpollCtlAdd(fd: int, event: Entry) returns (err: Errno)
      modifies this`epoll
      ensures (epoll, err) == CtlAdd(old(epoll), fd, event)
    {
      if fd in epoll {
        return EEXIST;
      }
      epoll := epoll[fd := event];
      return Success;
    }

    method EpollCtlMod(fd: int, event: Entry) returns (err: Errno)
      modifies this`epoll
      ensures (epoll, err) == CtlMod(old(epoll), fd, event)
    {
      if fd !in epoll {
        return ENOENT;
      }
      epoll := epoll[fd := event];
      return Success;
    }

    method EpollCtlDel(fd: int) returns (err: Errno)
      modifies this`epoll
      ensures (epoll, err) == CtlDel(old(epoll), fd)
    {
      if fd !in epoll {
        return ENOENT;
      }
      epoll := epoll - {fd};
      return Success;
    }

    /** ::close; the kernel watches the descriptor no more. */
    method CloseDescriptor(fd: int)
      modifies this`epoll, this`open
      ensures open == old(open) - {fd} && epoll == old(epoll) - {fd}
    {
      open := open - {fd};
      epoll := epoll - {fd};
    }

    /** The kernel hands a descriptor out. */
    method Own(fd: int, id: nat)
      modifies this`open
      ensures View() == old(View()).(open := old(open)[fd := id])
    {
      open := open[fd := id];
    }

    // ----- sockets -----

    method NewDispatcher(fd: int) returns (d: SocketDispatcher)
      requires Valid()
      modifies this`dispatchers
      ensures d.Ready() && d.server == this && fresh(d) && d.id == |old(dispatchers)|
      ensures dispatchers == old(dispatchers) + [d]
      ensures View() == old(View()).(socks := old(View()).socks + [d.Record()])
      ensures d.Record() ==
              Sock(fd, false, if fd == INVALID_SOCKET then CsClosed else CsConnected, DE_READ | DE_WRITE, NoBatch)
    {
      d := new SocketDispatcher(|dispatchers|, this, fd);
      assert Records(dispatchers) == old(Records(dispatchers));
      dispatchers := dispatchers + [d];
      assert Records(dispatchers) == old(Records(dispatchers)) + [d.Record()];
    }

    method CreateSocket(dgram: bool, fd: int, optOk: bool)
      requires Valid()
      modifies this
      ensures Valid() && Grew() && View() == Spec.CreateSocket(old(View()), dgram, fd, optOk)
    {
      var d := NewDispatcher(INVALID_SOCKET);
      var ok := d.Create(dgram, fd, optOk);
      if !ok {
        d.Close();
      }
    }

    /** A dispatcher for a descriptor that ::accept just returned, not registered yet. */
    method Wrap(fd: int) returns (d: SocketDispatcher)
      requires Valid() && 0 <= fd
      modifies this`dispatchers, this`open
      ensures d.Ready() && d.server == this && fresh(d) && d.id == |old(dispatchers)|
      ensures dispatchers == old(dispatchers) + [d] && View() == Spec.Wrapping(old(View()), fd)
    {
      d := NewDispatcher(fd);
      Own(fd, d.id);
    }

    /** fd is the descriptor ::accept just returned. */
    method WrapSocket(fd: int, optOk: bool)
      requires Valid() && 0 <= fd
      modifies this
      ensures Valid() && Grew() && View() == Spec.WrapSocket(old(View()), fd, optOk)
    {
      var d := Wrap(fd);
      if optOk {
        Add(d);
      } else {
        d.Close();
      }
    }

    // ----- what slots do -----

    ghost method TakeNote(act: Act)
      modifies this`hist
      ensures View() == Note(old(View()), act)
    {
      hist := hist.(acts := hist.acts + [act]);
    }

    method ApplyOp(op: Op)
      requires Valid()
      modifies this, dispatchers
      ensures Valid() && Grew() && View() == Spec.ApplyOp(old(View()), op)
    {
      if op.CreateSocketOp? {
        CreateSocket(op.dgram, op.fd, op.optOk);
      } else if 0 < op.who < |dispatchers| {
        dispatchers[op.who].Perform(op);
      }
    }

    method RunOps(ops: seq<Op>)
      requires Valid()
      modifies this, dispatchers
      ensures Valid() && Grew() && View() == Spec.RunOps(old(View()), ops)
    {
      for n := 0 to |ops|
        invariant Valid() && Grew()
        invariant View() == Spec.RunOps(old(View()), ops[..n])
      {
        assert ops[..n + 1][..n] == ops[..n];
        TakeNote(Did(ops[n]));
        ApplyOp(ops[n]);
      }
      assert ops[..|ops|] == ops;
    }

    // ----- dispatch -----

    method ReadyFlags(d: SocketDispatcher, r: Report) returns (ff: bv8)
      requires d.Ready() && d.server == this
      ensures ff == EventFlags(View(), d.id, r)
    {
      var errcode := if r.checkError then r.errcode else 0;
      var closed := d.id != 0 && if d.udp then d.fd == INVALID_SOCKET else r.eof;
      ff := 0;
      if r.readable {
        if errcode != 0 || closed {
          ff := ff | DE_CLOSE;
        } else if d.enabled & DE_ACCEPT != 0 {
          ff := ff | DE_ACCEPT;
        } else {
          ff := ff | DE_READ;
        }
      }
      assert ff == ReadFlags(View(), d.id, r);
      if r.writable {
        if d.enabled & DE_CONNECT != 0 {
          if errcode == 0 {
            ff := ff | DE_CONNECT;
          }
        } else {
          ff := ff | DE_WRITE;
        }
      }
      assert ff == ReadFlags(View(), d.id, r) | WriteFlags(View(), d.id, r);
      if errcode != 0 {
        ff := ff | DE_CLOSE;
      }
    }

    method ProcessEvents(key: nat, d: SocketDispatcher, r: Report, h: Handlers)
      requires d.Ready() && d.server == this && SignalerOk()
      modifies this, dispatchers, flagWait, signaler
      ensures Valid() && SignalerOk() && Grew()
      ensures View() == Spec.ProcessEvents(old(View()), key, d.id, r, h)
    {
      var ff := ReadyFlags(d, r);
      if ff != 0 {
        hist := hist.(delivered := hist.delivered + [(key, d.id, ff)]);
        assert View() == old(View()).(hist := old(hist).(delivered := old(hist).delivered + [(key, d.id, ff)]));
        if d.id == 0 {
          signaler.OnEvent();
        } else {
          d.OnEvent(ff, h);
        }
      }
    }

    method DeliverEvent(e: Event)
      requires Valid() && SignalerOk()
      modifies this, dispatchers, flagWait, signaler
      ensures Valid() && SignalerOk() && Grew() && View() == Spec.DeliverEvent(old(View()), e)
    {
      if e.key !in byKey || |dispatchers| <= byKey[e.key] {
        return;
      }
      ProcessEvents(e.key, dispatchers[byKey[e.key]], e.report, e.handlers);
    }

    method ProcessBatch(events: seq<Event>)
      requires Valid() && SignalerOk()
      modifies this, dispatchers, flagWait, signaler
      ensures Valid() && SignalerOk() && Grew() && View() == Spec.ProcessBatch(old(View()), events)
    {
      for n := 0 to |events|
        invariant Valid() && SignalerOk() && Grew()
        invariant View() == Spec.ProcessBatch(old(View()), events[..n])
      {
        assert events[..n + 1][..n] == events[..n];
        DeliverEvent(events[n]);
      }
      assert events[..|events|] == events;
    }

    method RaiseFlag()
      requires Valid()
      modifies flagWait
      ensures Valid() && View() == old(View()).(flagWait := true) && flagWait.up
      ensures old(InOrder()) ==> InOrder()
    {
      flagWait.up := true;
      if old(InOrder()) {
        LoggedServes(old(View()), View());
      }
    }

    /** Passes after the flag was raised leave everything in order. */
    lemma PassesKeepOrder(w: World, passes: seq<Move>)
      requires Consistent(w) && Calm(w) && Mirrors(w) && View() == RunMoves(w.(flagWait := true), passes)
      ensures InOrder() && WatchedAsAsked()
    {
      LoggedServes(w, w.(flagWait := true));
      RunServes(w.(flagWait := true), passes);
      OrderMeansWatched();
    }

    /** The server is what these rounds make of it, from w. */
    ghost predicate Consumed(w: World, rounds: seq<EpollRound>)
      reads this, flagWait, dispatchers
    {
      View() == RunMoves(w, PassesOf(rounds))
    }

    /** One call of epoll_wait and the pass over what it reports. */
    method ConsumeRound(ghost w: World, rounds: seq<EpollRound>, n: nat)
      requires Valid() && SignalerOk() && n < |rounds| && Consumed(w, rounds[..n])
      modifies this, dispatchers, flagWait, signaler
      ensures Valid() && SignalerOk() && Grew() && Consumed(w, rounds[..n + 1])
      ensures flagWait.up == FlagAfter(w, rounds, n + 1)
    {
      OneRoundMore(rounds, n);
      match rounds[n] {
        case Reported(events, _) =>
          ProcessBatch(events);
          LastPass(w, PassesOf(rounds[..n]), events);
        case _ =>
          assert PassesOf(rounds[..n + 1]) == PassesOf(rounds[..n]);
      }
    }

    /** What follows a call of epoll_wait and its pass: an error or nothing reported, and the clock. */
    static method TestRound(r: EpollRound, cmsWait: int, startMs: int, msBefore: int)
      returns (end: WaitEnd, msWait: int)
      ensures end == PollTest(r, cmsWait, startMs)
      ensures end.Woken? ==> msWait == if cmsWait == -1 then msBefore else startMs + cmsWait - r.nowUs
    {
      var msStop := if cmsWait == -1 then -1 else startMs + cmsWait;
      end, msWait := Woken, msBefore;
      if r.PollFailed? {
        return Failed, msWait;
      }
      if r.NoneReported? {
        return TimedOut, msWait;
      }
      if cmsWait != -1 {
        msWait := msStop - r.nowUs;
        if msWait <= 0 {
          return TimedOut, msWait;
        }
      }
    }

    /** A round, taken with what is left of the wait; end is Woken if the loop goes on to its test. */
    method TakeRound(ghost w: World, cmsWait: int, startMs: int, rounds: seq<EpollRound>, ghost timeouts: seq<int>,
                     n: nat, msWait: int)
      returns (end: WaitEnd, msLeft: int, ghost more: seq<int>)
      requires Valid() && SignalerOk() && n < |rounds| && Consumed(w, rounds[..n])
      requires GotTo(w, cmsWait, startMs, rounds, n, timeouts) && FlagAfter(w, rounds, n)
      requires msWait == MsLeft(cmsWait, startMs, rounds, n)
      modifies this, dispatchers, flagWait, signaler
      ensures Valid() && SignalerOk() && Grew() && Consumed(w, rounds[..n + 1])
      ensures flagWait.up == FlagAfter(w, rounds, n + 1)
      ensures EpollAfter(w, cmsWait, startMs, rounds, n + 1, more, end)
      ensures end.Woken? ==> msLeft == MsLeft(cmsWait, startMs, rounds, n + 1)
    {
      more := timeouts + [TaskQueues.ToInt32(msWait)];
      NextRound(w, cmsWait, startMs, rounds, n, timeouts);
      ConsumeRound(w, rounds, n);
      end, msLeft := TestRound(rounds[n], cmsWait, startMs, msWait);
    }

    /** The loop of WaitEpoll, which the rounds stand for: it consumes those up to the first that brings an end. */
    method PollUntil(cmsWait: int, startMs: int, rounds: seq<EpollRound>)
      returns (end: WaitEnd, ghost used: nat, ghost timeouts: seq<int>)
      requires Valid() && SignalerOk() && flagWait.up
      modifies this, dispatchers, flagWait, signaler
      ensures Valid() && SignalerOk() && Grew()
      ensures EpollEnds(old(View()), cmsWait, startMs, rounds, used, end)
      ensures Consumed(old(View()), rounds[..used]) && flagWait.up == FlagAfter(old(View()), rounds, used)
      ensures |timeouts| == used && Sleeps(cmsWait, startMs, rounds, timeouts)
    {
      ghost var w := View();
      var msWait := cmsWait;
      end, timeouts := Woken, [];
      var n := 0;
      while flagWait.up
        invariant Valid() && SignalerOk() && Grew() && end == Woken
        invariant GotTo(w, cmsWait, startMs, rounds, n, timeouts) && Consumed(w, rounds[..n])
        invariant flagWait.up == FlagAfter(w, rounds, n) && msWait == MsLeft(cmsWait, startMs, rounds, n)
        decreases |rounds| - n
      {
        if n == |rounds| {
          LoopTestEnds(w, cmsWait, startMs, rounds, n, timeouts);
          return StillWaiting, n, timeouts;
        }
        end, msWait, timeouts := TakeRound(w, cmsWait, startMs, rounds, timeouts, n, msWait);
        n := n + 1;
        if end != Woken {
          return end, n, timeouts;
        }
      }
      LoopTestEnds(w, cmsWait, startMs, rounds, n, timeouts);
      used := n;
    }

    /** If all was in order, it is, and the first wake-up ended the wait. */
    lemma OrderedWait(w: World, cmsWait: int, startMs: int, rounds: seq<EpollRound>, used: nat, end: WaitEnd)
      requires Consistent(w) && Calm(w) && Mirrors(w)
      requires EpollEnds(w.(flagWait := true), cmsWait, startMs, rounds, used, end)
      requires Consumed(w.(flagWait := true), rounds[..used])
      ensures InOrder() && WatchedAsAsked() && WakesAtTheFirst(cmsWait, startMs, rounds, used, end)
    {
      PassesKeepOrder(w, PassesOf(rounds[..used]));
      LoggedServes(w, w.(flagWait := true));
      WakeUpEndsTheWait(w.(flagWait := true), cmsWait, startMs, rounds, used, end);
    }

    /**
     WaitEpoll raises the flag and polls. If all is in order, the first round to report the wake-up ends the wait,
     unless one before it fails or runs out of time.
     */
    method WaitEpoll(cmsWait: int, startMs: int, rounds: seq<EpollRound>)
      returns (end: WaitEnd, ghost used: nat, ghost timeouts: seq<int>)
      requires Valid() && SignalerOk()
      modifies this, dispatchers, flagWait, signaler
      ensures Valid() && SignalerOk() && Grew()
      ensures EpollEnds(old(View()).(flagWait := true), cmsWait, startMs, rounds, used, end)
      ensures Consumed(old(View()).(flagWait := true), rounds[..used])
      ensures |timeouts| == used && Sleeps(cmsWait, startMs, rounds, timeouts)
      ensures end.Woken? ==> !flagWait.up
      ensures end.StillWaiting? ==> flagWait.up
      ensures old(InOrder()) ==>
                InOrder() && WatchedAsAsked() && WakesAtTheFirst(cmsWait, startMs, rounds, used, end)
    {
      RaiseFlag();
      end, used, timeouts := PollUntil(cmsWait, startMs, rounds);
      ghost var w := old(View()).(flagWait := true);
      EndTellsFlag(w, cmsWait, startMs, rounds, used, end);
      if old(InOrder()) {
        OrderedWait(old(View()), cmsWait, startMs, rounds, used, end);
      }
    }

    /** Whatever a program does with a new server: the registry and the kernel agree about the objects. */
    method Serve(moves: seq<Move>)
      requires Valid() && SignalerOk() && InitWorld(View())
      modifies this, dispatchers, flagWait, signaler
      ensures Valid() && SignalerOk() && Grew() && View() == RunMoves(old(View()), moves)
      ensures forall k :: k in byKey ==> byKey[k] in keyOf && keyOf[byKey[k]] == k && k < nextKey
      ensures InOrder() && WatchedAsAsked()
    {
      for n := 0 to |moves|
        invariant Valid() && SignalerOk() && Grew()
        invariant View() == RunMoves(old(View()), moves[..n])
      {
        assert moves[..n + 1][..n] == moves[..n];
        match moves[n]
        case Do(op) => ApplyOp(op);
        case Pass(events) => ProcessBatch(events);
      }
      assert moves[..|moves|] == moves;
      InitIsConsistent(old(View()));
      RunServes(old(View()), moves);
      OrderMeansWatched();
    }

    // ----- WaitSelect -----

    /** Key k is registered, and its dispatcher wants to be told when it can read, or accept, on descriptor fd. */
    ghost predicate AsksToRead(k: nat, fd: int)
      reads this`byKey, this`dispatchers, dispatchers
    {
      && k in byKey && byKey[k] < |dispatchers|
      && dispatchers[byKey[k]].fd == fd && dispatchers[byKey[k]].enabled & (DE_READ | DE_ACCEPT) != 0
    }

    ghost predicate AsksToWrite(k: nat, fd: int)
      reads this`byKey, this`dispatchers, dispatchers
    {
      && k in byKey && byKey[k] < |dispatchers|
      && dispatchers[byKey[k]].fd == fd && dispatchers[byKey[k]].enabled & (DE_WRITE | DE_CONNECT) != 0
    }

    /** Somebody registered is to be told when it can read from fd. */
    ghost predicate WantedToRead(fd: int)
      reads this`byKey, this`dispatchers, dispatchers
    {
      exists k :: AsksToRead(k, fd)
    }

    ghost predicate WantedToWrite(fd: int)
      reads this`byKey, this`dispatchers, dispatchers
    {
      exists k :: AsksToWrite(k, fd)
    }

    /** Appends every registered key, in some order, and collects the descriptors to select on. */
    method CollectKeys() returns (added: seq<nat>, forRead: set<int>, forWrite: set<int>)
      requires Valid() && forall k :: k in byKey ==> byKey[k] < |dispatchers|
      modifies this`currentKeys
      ensures Valid() && View() == old(View()) && currentKeys == old(currentKeys) + added
      ensures forall k :: k in byKey <==> k in added
      ensures forall fd :: fd in forRead <==> WantedToRead(fd)
      ensures forall fd :: fd in forWrite <==> WantedToWrite(fd)
    {
      added, forRead, forWrite := [], {}, {};
      var rest := byKey.Keys;
      while rest != {}
        invariant rest <= byKey.Keys && currentKeys == old(currentKeys) + added
        invariant forall k :: k in byKey && k !in rest <==> k in added
        invariant forall fd :: fd in forRead <==> exists k :: AsksToRead(k, fd) && k !in rest
        invariant forall fd :: fd in forWrite <==> exists k :: AsksToWrite(k, fd) && k !in rest
      {
        var key :| key in rest;
        var d := dispatchers[byKey[key]];
        currentKeys := currentKeys + [key];
        added := added + [key];
        if d.enabled & (DE_READ | DE_ACCEPT) != 0 {
          forRead := forRead + {d.fd};
          assert AsksToRead(key, d.fd);
        }
        if d.enabled & (DE_WRITE | DE_CONNECT) != 0 {
          forWrite := forWrite + {d.fd};
          assert AsksToWrite(key, d.fd);
        }
        rest := rest - {key};
      }
    }

    lemma WantedAgrees(fd: int)
      requires Valid()
      ensures WantedToRead(fd) <==> Wanted(View(), fd, DE_READ | DE_ACCEPT)
      ensures WantedToWrite(fd) <==> Wanted(View(), fd, DE_WRITE | DE_CONNECT)
    {
      if WantedToRead(fd) {
        var k :| AsksToRead(k, fd);
        assert Asks(View(), k, fd, DE_READ | DE_ACCEPT);
      }
      if Wanted(View(), fd, DE_READ | DE_ACCEPT) {
        var k :| Asks(View(), k, fd, DE_READ | DE_ACCEPT);
        assert AsksToRead(k, fd);
      }
      if WantedToWrite(fd) {
        var k :| AsksToWrite(k, fd);
        assert Asks(View(), k, fd, DE_WRITE | DE_CONNECT);
      }
      if Wanted(View(), fd, DE_WRITE | DE_CONNECT) {
        var k :| Asks(View(), k, fd, DE_WRITE | DE_CONNECT);
        assert AsksToWrite(k, fd);
      }
    }

    /** Ask select about everybody registered; the objects stay as they are, and it fills in the fd_sets. */
    method AskSelect(outcome: SelectOutcome) returns (added: seq<nat>, readable: set<int>, writable: set<int>)
      requires Valid() && InOrder()
      modifies this`currentKeys
      ensures Valid() && View() == old(View()) && InOrder()
      ensures currentKeys == old(currentKeys) + added
      ensures forall k :: k in byKey <==> k in added
      ensures outcome.Ready? ==> Sel(View(), readable, writable) == SelectedIn(View(), outcome)
    {
      assert |View().socks| == |dispatchers|;
      added, readable, writable := CollectKeys();
      if outcome.Ready? {
        readable, writable := readable * outcome.read, writable * outcome.write;
        forall fd
          ensures fd in readable <==> fd in outcome.read && Wanted(View(), fd, DE_READ | DE_ACCEPT)
          ensures fd in writable <==> fd in outcome.write && Wanted(View(), fd, DE_WRITE | DE_CONNECT)
        {
          WantedAgrees(fd);
        }
      }
    }

    /** One key of the pass: look it up, read and clear the bits of its descriptor, process what they say. */
    method VisitKey(v: Visit, readable: set<int>, writable: set<int>)
      returns (readable': set<int>, writable': set<int>)
      requires Valid() && SignalerOk()
      modifies this, dispatchers, flagWait, signaler
      ensures Valid() && SignalerOk() && Grew()
      ensures Sel(View(), readable', writable') == ReactorSelect.VisitKey(Sel(old(View()), readable, writable), v)
    {
      readable', writable' := readable, writable;
      if v.key in byKey && byKey[v.key] < |dispatchers| {
        var d := dispatchers[byKey[v.key]];
        var fd := d.fd;
        var isRead, isWrite := fd in readable, fd in writable;
        readable' := readable - {fd};
        writable' := writable - {fd};
        ProcessEvents(v.key, d, Report(isRead, isWrite, isRead || isWrite, v.errcode, v.eof), v.handlers);
      }
    }

    /** The pass over all accumulated keys once select filled in the fd_sets; nothing clears currentKeys. */
    method VisitKeys(readable: set<int>, writable: set<int>, probes: nat -> Probe)
      requires Valid() && SignalerOk()
      modifies this, dispatchers, flagWait, signaler
      ensures Valid() && SignalerOk() && Grew()
      ensures View() == VisitAll(Sel(old(View()), readable, writable), VisitsOf(currentKeys, probes)).w
    {
      var fdsRead, fdsWrite := readable, writable;
      var visits := VisitsOf(currentKeys, probes);
      for n := 0 to |visits|
        invariant Valid() && SignalerOk() && Grew()
        invariant Sel(View(), fdsRead, fdsWrite) == VisitAll(Sel(old(View()), readable, writable), visits[..n])
      {
        assert visits[..n + 1][..n] == visits[..n];
        fdsRead, fdsWrite := VisitKey(visits[n], fdsRead, fdsWrite);
      }
      assert visits[..|visits|] == visits;
    }

    /** added is what this round appended, so everybody registered gets a turn. */
    method VisitReported(readable: set<int>, writable: set<int>, probes: nat -> Probe, ghost added: seq<nat>)
      requires Valid() && SignalerOk() && InOrder()
      requires |added| <= |currentKeys| && currentKeys[|currentKeys| - |added|..] == added
      requires forall k :: k in byKey ==> k in added
      modifies this, dispatchers, flagWait, signaler
      ensures Valid() && SignalerOk() && Grew() && InOrder()
      ensures var s, visits := Sel(old(View()), readable, writable), VisitsOf(currentKeys, probes);
              View() == VisitAll(s, visits).w && EveryoneServedOnce(s, visits)
    {
      ghost var s, visits := Sel(View(), readable, writable), VisitsOf(currentKeys, probes);
      ghost var left := currentKeys[..|currentKeys| - |added|];
      assert currentKeys == left + added;
      VisitKeys(readable, writable, probes);
      AllAreServedOnce(s, left, added, visits);
      AllVisitsServe(s, visits);
    }

    /**
     One round of the loop of WaitSelect: ask select about every registered object, and serve those it reported. Every
     object registered when the round starts gets exactly one event if it is due when its key is first reached, else
     none.
     */
    method SelectRound(outcome: SelectOutcome) returns (ghost turn: SelectTurn)
      requires Valid() && SignalerOk() && InOrder()
      modifies this, dispatchers, flagWait, signaler
      ensures Valid() && SignalerOk() && OnlyAdded() && InOrder()
      ensures turn == SelectTurn(old(View()), currentKeys, View()) && TurnIs(outcome, old(currentKeys), turn)
      ensures outcome.Ready? ==>
                EveryoneServedOnce(SelectedIn(old(View()), outcome), VisitsOf(currentKeys, outcome.probes))
    {
      var added, readable, writable := AskSelect(outcome);
      assert currentKeys[|old(currentKeys)|..] == added;
      if outcome.Ready? {
        VisitReported(readable, writable, outcome.probes, added);
      }
      turn := SelectTurn(old(View()), currentKeys, View());
    }

    /** The server is what these turns make of it, from w and the keys left over. */
    ghost predicate Turned(w: World, left: seq<nat>, turns: seq<SelectTurn>)
      reads this, flagWait, dispatchers
    {
      View() == WorldAt(w, turns, |turns|) && currentKeys == KeysAt(left, turns, |turns|)
    }

    lemma TurnsKeepOrder(w: World, left: seq<nat>, rounds: seq<SelectOutcome>, turns: seq<SelectTurn>)
      requires Consistent(w) && Calm(w) && Mirrors(w) && TurnsTaken(w, left, rounds, turns) && Turned(w, left, turns)
      ensures InOrder()
    {
      TurnsServe(w, left, rounds, turns, |turns|);
    }

    /** One turn of the loop of WaitSelect. */
    method TakeTurn(ghost w: World, ghost left: seq<nat>, rounds: seq<SelectOutcome>, ghost turns: seq<SelectTurn>,
                    n: nat)
      returns (ghost more: seq<SelectTurn>)
      requires Valid() && SignalerOk() && flagWait.up && n == |turns| < |rounds|
      requires Consistent(w) && Calm(w) && Mirrors(w)
      requires SelectGotTo(w, left, rounds, turns) && Turned(w, left, turns)
      modifies this, dispatchers, flagWait, signaler
      ensures Valid() && SignalerOk() && OnlyAdded()
      ensures |more| == n + 1 && Turned(w, left, more) && SelectAfter(w, left, rounds, more, TestOf(rounds[n]))
    {
      TurnsKeepOrder(w, left, rounds, turns);
      ghost var turn := SelectRound(rounds[n]);
      OneTurnMore(w, left, rounds, turns, turn);
      more := turns + [turn];
    }

    /** A turn, and the tests that may end the wait after it; end is Woken if the loop goes on. */
    method TakeAndTest(ghost w: World, ghost left: seq<nat>, rounds: seq<SelectOutcome>, ghost turns: seq<SelectTurn>,
                       n: nat)
      returns (end: WaitEnd, ghost more: seq<SelectTurn>)
      requires Valid() && SignalerOk() && flagWait.up && n == |turns| < |rounds|
      requires Consistent(w) && Calm(w) && Mirrors(w)
      requires SelectGotTo(w, left, rounds, turns) && Turned(w, left, turns)
      modifies this, dispatchers, flagWait, signaler
      ensures Valid() && SignalerOk() && OnlyAdded()
      ensures |more| == n + 1 && Turned(w, left, more) && SelectAfter(w, left, rounds, more, end)
    {
      more := TakeTurn(w, left, rounds, turns, n);
      end := Woken;
      if rounds[n].SelectFailed? {
        end := Failed;
      } else if rounds[n].NothingReady? {
        end := TimedOut;
      }
    }

    /** The loop of WaitSelect. */
    method SelectUntil(rounds: seq<SelectOutcome>) returns (end: WaitEnd, ghost turns: seq<SelectTurn>)
      requires Valid() && SignalerOk() && InOrder() && flagWait.up
      modifies this, dispatchers, flagWait, signaler
      ensures Valid() && SignalerOk() && OnlyAdded()
      ensures SelectEnds(old(View()), old(currentKeys), rounds, turns, end)
      ensures Turned(old(View()), old(currentKeys), turns)
    {
      ghost var w, left := View(), currentKeys;
      end, turns := Woken, [];
      var n := 0;
      while flagWait.up
        invariant Valid() && SignalerOk() && OnlyAdded() && end == Woken && |turns| == n
        invariant SelectGotTo(w, left, rounds, turns) && Turned(w, left, turns)
        decreases |rounds| - n
      {
        if n == |rounds| {
          SelectTestEnds(w, left, rounds, turns);
          return StillWaiting, turns;
        }
        ghost var before := dispatchers;
        end, turns := TakeAndTest(w, left, rounds, turns, n);
        StillOnlyAdded(before);
        if end != Woken {
          return;
        }
        n := n + 1;
      }
      SelectTestEnds(w, left, rounds, turns);
    }

    /** WaitSelect; a round is what one call of select yields, together with what the slots then do. */
    method WaitSelect(rounds: seq<SelectOutcome>) returns (end: WaitEnd, ghost turns: seq<SelectTurn>)
      requires Valid() && SignalerOk() && InOrder()
      modifies this, dispatchers, flagWait, signaler
      ensures Valid() && SignalerOk() && OnlyAdded() && InOrder() && WatchedAsAsked()
      ensures SelectEnds(old(View()).(flagWait := true), old(currentKeys), rounds, turns, end)
      ensures Turned(old(View()).(flagWait := true), old(currentKeys), turns)
      ensures end.Woken? ==> !flagWait.up
      ensures end.StillWaiting? ==> flagWait.up
      ensures old(dispatchers) != [] && forall k :: 0 <= k < |turns| ==>
                (SelectWakes(rounds[k], old(dispatchers[0].fd)) <==> end.Woken? && k == |turns| - 1)
    {
      RaiseFlag();
      end, turns := SelectUntil(rounds);
      ghost var w := old(View()).(flagWait := true);
      LoggedServes(old(View()), w);
      TurnsKeepOrder(w, old(currentKeys), rounds, turns);
      WakeUpEndsSelect(w, old(currentKeys), rounds, turns, end);
      SelectTellsFlag(w, old(currentKeys), rounds, turns, end);
      OrderMeansWatched();
    }
  }
}
