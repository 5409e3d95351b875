/** A pass of WaitSelect over keys that accumulate from round to round and are never cleared. */
module ReactorSelect {
  import opened ReactorModel
  import opened ReactorRegistry
  import opened ReactorEvents

  /** The world together with the two fd_sets that select filled in. */
  datatype Sel = Sel(w: World, readable: set<int>, writable: set<int>)

  /** A key of current_dispatcher_keys_, with what getsockopt and recv find when it is reached and what the slots do. */
  datatype Visit = Visit(key: nat, errcode: int, eof: bool, handlers: Handlers)

  function VisitKey(s: Sel, v: Visit): Sel {
    if v.key in s.w.byKey && s.w.byKey[v.key] < |s.w.socks| then
      var i := s.w.byKey[v.key];
      var fd := s.w.socks[i].fd;
      var r, w := fd in s.readable, fd in s.writable;
      Sel(ProcessEvents(s.w, v.key, i, Report(r, w, r || w, v.errcode, v.eof), v.handlers),
          s.readable - {fd}, s.writable - {fd})
    else s
  }

  function VisitAll(s: Sel, visits: seq<Visit>): Sel
    decreases |visits|
  {
    if visits == [] then s else VisitKey(VisitAll(s, visits[..|visits| - 1]), visits[|visits| - 1])
  }

  /** The events delivered under key k, each with the dispatcher and the flags. */
  function UnderKey(log: seq<(nat, nat, bv8)>, k: nat): seq<(nat, nat, bv8)>
    decreases |log|
  {
    if log == [] then []
    else UnderKey(log[..|log| - 1], k) + if log[|log| - 1].0 == k then [log[|log| - 1]] else []
  }

  lemma UnderKeyAppend(log: seq<(nat, nat, bv8)>, e: (nat, nat, bv8), k: nat)
    ensures UnderKey(log + [e], k) == UnderKey(log, k) + if e.0 == k then [e] else []
  {
    assert (log + [e])[..|log|] == log;
  }

  /** Where key k is reached first; the number of visits if it never is. */
  function FirstVisit(visits: seq<Visit>, k: nat): (n: nat)
    ensures n <= |visits|
    ensures n < |visits| ==> visits[n].key == k
    ensures forall m :: 0 <= m < n ==> visits[m].key != k
    decreases |visits|
  {
    if visits == [] then 0
    else
      var n := FirstVisit(visits[..|visits| - 1], k);
      if n < |visits| - 1 || visits[|visits| - 1].key == k then n else |visits|
  }

  /** The key is registered when it is reached, and select reported its descriptor. */
  predicate Due(s: Sel, readable: set<int>, writable: set<int>, k: nat) {
    && k in s.w.byKey && s.w.byKey[k] < |s.w.socks|
    && (s.w.socks[s.w.byKey[k]].fd in readable || s.w.socks[s.w.byKey[k]].fd in writable)
  }

  /**
   What a visit of key k delivers, if it is registered then and select filled in these fd_sets: one event with the flags
   that its bits tell, or none if it has no bit.
   */
  function DueEvent(s: Sel, readable: set<int>, writable: set<int>, k: nat, v: Visit): seq<(nat, nat, bv8)> {
    if Due(s, readable, writable, k) then
      var i := s.w.byKey[k];
      var r, w := s.w.socks[i].fd in readable, s.w.socks[i].fd in writable;
      [(k, i, EventFlags(s.w, i, Report(r, w, r || w, v.errcode, v.eof)))]
    else []
  }

  /** A reported descriptor always yields an event, an unreported one never does. */
  lemma FlagsIffReported(w: World, i: nat, r: bool, wr: bool, errcode: int, eof: bool)
    requires i < |w.socks|
    ensures EventFlags(w, i, Report(r, wr, r || wr, errcode, eof)) != 0 <==> r || wr
  {
  }

  /** The bits of a registered key are those of the fd_sets until its visit, and clear from then on. */
  ghost predicate BitsOk(s0: Sel, s: Sel, k: nat, visited: bool) {
    k in s.w.byKey && s.w.byKey[k] < |s.w.socks| ==>
      var fd := s.w.socks[s.w.byKey[k]].fd;
      if visited then fd !in s.readable && fd !in s.writable
      else (fd in s.readable <==> fd in s0.readable) && (fd in s.writable <==> fd in s0.writable)
  }

  lemma VisitServes(s: Sel, v: Visit)
    requires Consistent(s.w) && Calm(s.w)
    ensures Serves(s.w, VisitKey(s, v).w)
  {
    if v.key in s.w.byKey && s.w.byKey[v.key] < |s.w.socks| {
      var i := s.w.byKey[v.key];
      var fd := s.w.socks[i].fd;
      var r, w := fd in s.readable, fd in s.writable;
      ProcessEventsServes(s.w, v.key, i, Report(r, w, r || w, v.errcode, v.eof), v.handlers);
    } else {
      ServesSelf(s.w);
    }
  }

  /** One visit delivers exactly if its key is registered and has a bit set. */
  lemma VisitDelivers(s: Sel, v: Visit, k: nat)
    requires Consistent(s.w) && Calm(s.w)
    ensures UnderKey(VisitKey(s, v).w.hist.delivered, k) ==
            UnderKey(s.w.hist.delivered, k) + if v.key == k then DueEvent(s, s.readable, s.writable, k, v) else []
  {
    if v.key in s.w.byKey && s.w.byKey[v.key] < |s.w.socks| {
      var i := s.w.byKey[v.key];
      var fd := s.w.socks[i].fd;
      var r, w := fd in s.readable, fd in s.writable;
      FlagsIffReported(s.w, i, r, w, v.errcode, v.eof);
      ProcessEventsServes(s.w, v.key, i, Report(r, w, r || w, v.errcode, v.eof), v.handlers);
      UnderKeyAppend(s.w.hist.delivered, (v.key, i, EventFlags(s.w, i, Report(r, w, r || w, v.errcode, v.eof))), k);
    }
  }

  /** Another key's visit clears no bit of k, since registered dispatchers have distinct descriptors. */
  lemma VisitKeepsBits(s0: Sel, s: Sel, v: Visit, k: nat, visited: bool)
    requires Consistent(s.w) && Calm(s.w) && k < s.w.nextKey && BitsOk(s0, s, k, visited)
    ensures BitsOk(s0, VisitKey(s, v), k, visited || v.key == k)
  {
    VisitServes(s, v);
    var s' := VisitKey(s, v);
    if k in s'.w.byKey && s'.w.byKey[k] < |s'.w.socks| {
      var i := s'.w.byKey[k];
      RegisteredBefore(s.w, s'.w, k, i, s'.w.socks[i].fd);
      if v.key in s.w.byKey && v.key != k {
        assert s.w.byKey[v.key] != i;
        assert s.w.byKey[v.key] in s.w.keyOf && i in s.w.keyOf;
        assert s.w.socks[s.w.byKey[v.key]].fd != s.w.socks[i].fd;
      }
    }
  }

  lemma {:induction false} PassKeepsBits(s: Sel, visits: seq<Visit>, k: nat)
    requires Consistent(s.w) && Calm(s.w) && k < s.w.nextKey
    ensures Serves(s.w, VisitAll(s, visits).w)
    ensures BitsOk(s, VisitAll(s, visits), k, FirstVisit(visits, k) < |visits|)
    decreases |visits|
  {
    if visits == [] {
      ServesSelf(s.w);
    } else {
      var before, last := visits[..|visits| - 1], visits[|visits| - 1];
      PassKeepsBits(s, before, k);
      var s1 := VisitAll(s, before);
      VisitServes(s1, last);
      ServesTwice(s.w, s1.w, VisitAll(s, visits).w);
      VisitKeepsBits(s, s1, last, k, FirstVisit(before, k) < |before|);
    }
  }

  /**
   However many duplicates and dead keys the vector has accumulated, a pass delivers an event under key k exactly
   once if k is still registered when it is first reached and select reported its descriptor, and never otherwise.
   A key issued during the pass is not in the vector, even if its dispatcher got a reported descriptor number.
   */
  lemma {:induction false} SelectDeliversOnce(s: Sel, visits: seq<Visit>, k: nat)
    requires Consistent(s.w) && Calm(s.w) && k < s.w.nextKey
    ensures UnderKey(VisitAll(s, visits).w.hist.delivered, k) ==
            UnderKey(s.w.hist.delivered, k) + FirstVisitDelivers(s, visits, k)
    decreases |visits|
  {
    if visits != [] {
      SelectDeliversOnce(s, visits[..|visits| - 1], k);
      LastVisitDelivers(s, visits, k);
      DeliveriesSplit(s, visits, k);
    }
  }

  lemma DeliveriesSplit(s: Sel, visits: seq<Visit>, k: nat)
    requires visits != []
    ensures var before, last := visits[..|visits| - 1], visits[|visits| - 1];
            FirstVisitDelivers(s, visits, k) == FirstVisitDelivers(s, before, k) + LastDelivers(s, before, last, k)
  {
    FirstVisitSplits(visits, k);
  }

  function FirstVisitDelivers(s: Sel, visits: seq<Visit>, k: nat): seq<(nat, nat, bv8)> {
    var n := FirstVisit(visits, k);
    if n < |visits| then DueEvent(VisitAll(s, visits[..n]), s.readable, s.writable, k, visits[n]) else []
  }

  /** What a visit after these delivers under key k: nothing unless it is the first of that key. */
  function LastDelivers(s: Sel, before: seq<Visit>, last: Visit, k: nat): seq<(nat, nat, bv8)> {
    if FirstVisit(before, k) == |before| && last.key == k
    then DueEvent(VisitAll(s, before), s.readable, s.writable, k, last)
    else []
  }

  lemma LastVisitDelivers(s: Sel, visits: seq<Visit>, k: nat)
    requires Consistent(s.w) && Calm(s.w) && k < s.w.nextKey && visits != []
    ensures var before, last := visits[..|visits| - 1], visits[|visits| - 1];
            var s1 := VisitAll(s, before);
            UnderKey(VisitAll(s, visits).w.hist.delivered, k) ==
            UnderKey(s1.w.hist.delivered, k) + LastDelivers(s, before, last, k)
  {
    var before, last := visits[..|visits| - 1], visits[|visits| - 1];
    PassKeepsBits(s, before, k);
    LastVisitCounts(s, VisitAll(s, before), last, k, FirstVisit(before, k) < |before|);
  }

  lemma FirstVisitSplits(visits: seq<Visit>, k: nat)
    requires visits != []
    ensures var before := visits[..|visits| - 1];
            var n := FirstVisit(before, k);
            && FirstVisit(visits, k) == (if n < |before| || visits[|before|].key == k then n else |visits|)
            && visits[..n] == before[..n]
  {
  }

  lemma LastVisitCounts(s0: Sel, s: Sel, v: Visit, k: nat, visited: bool)
    requires Consistent(s.w) && Calm(s.w) && BitsOk(s0, s, k, visited)
    ensures UnderKey(VisitKey(s, v).w.hist.delivered, k) ==
            UnderKey(s.w.hist.delivered, k) +
              if !visited && v.key == k then DueEvent(s, s0.readable, s0.writable, k, v) else []
  {
    VisitDelivers(s, v, k);
  }

  function KeysOf(visits: seq<Visit>): seq<nat> {
    seq(|visits|, n requires 0 <= n < |visits| => visits[n].key)
  }

  /** What getsockopt and recv find when a key is reached, and what the slots then do. */
  datatype Probe = Probe(errcode: int, eof: bool, handlers: Handlers)

  function VisitsOf(keys: seq<nat>, probes: nat -> Probe): (r: seq<Visit>)
    ensures KeysOf(r) == keys
  {
    seq(|keys|, n requires 0 <= n < |keys| =>
      Visit(keys[n], probes(n).errcode, probes(n).eof, probes(n).handlers))
  }

  /** The pass reaches key k, and delivers one event under it if it is due when it is first reached, else none. */
  ghost predicate ServedOnce(s: Sel, visits: seq<Visit>, k: nat) {
    var n := FirstVisit(visits, k);
    && n < |visits|
    && UnderKey(VisitAll(s, visits).w.hist.delivered, k) ==
       UnderKey(s.w.hist.delivered, k) + DueEvent(VisitAll(s, visits[..n]), s.readable, s.writable, k, visits[n])
  }

  /** A pass keeps what every pass over events keeps. */
  lemma AllVisitsServe(s: Sel, visits: seq<Visit>)
    requires Consistent(s.w) && Calm(s.w)
    ensures Serves(s.w, VisitAll(s, visits).w)
  {
    PassKeepsBits(s, visits, 0);
  }

  /**
   One round of WaitSelect: the vector holds what earlier rounds left in it and, once more, every registered key.
   Whoever is registered when the round starts is then served once if it is due when its key is first reached.
   */
  lemma ReadyIsServedOnce(s: Sel, left: seq<nat>, added: seq<nat>, visits: seq<Visit>, i: nat)
    requires Consistent(s.w) && Calm(s.w)
    requires KeysOf(visits) == left + added && forall k :: k in s.w.byKey ==> k in added
    requires i in s.w.keyOf
    ensures ServedOnce(s, visits, s.w.keyOf[i])
  {
    var k := s.w.keyOf[i];
    SelectDeliversOnce(s, visits, k);
    assert k in KeysOf(visits);
    var m :| 0 <= m < |visits| && KeysOf(visits)[m] == k;
    assert visits[m].key == k;
  }

  ghost predicate EveryoneServedOnce(s: Sel, visits: seq<Visit>) {
    forall i :: i in s.w.keyOf ==> ServedOnce(s, visits, s.w.keyOf[i])
  }

  /** Hence every dispatcher registered when the round starts is served once. */
  lemma AllAreServedOnce(s: Sel, left: seq<nat>, added: seq<nat>, visits: seq<Visit>)
    requires Consistent(s.w) && Calm(s.w)
    requires KeysOf(visits) == left + added && forall k :: k in s.w.byKey ==> k in added
    ensures EveryoneServedOnce(s, visits)
  {
    forall i | i in s.w.keyOf
      ensures ServedOnce(s, visits, s.w.keyOf[i])
    {
      ReadyIsServedOnce(s, left, added, visits, i);
    }
  }
}
