/** The registry under arbitrary calls of Add, Remove, Update and Close, in any order and by anybody. */
module ReactorKeys {
  import opened ReactorModel
  import opened ReactorRegistry

  datatype Call = AddCall(who: nat) | RemoveCall(who: nat) | UpdateCall(who: nat) | CloseCall(who: nat)

  function MakeCall(w: World, c: Call): (r: World)
    ensures |r.socks| == |w.socks|
  {
    if |w.socks| <= c.who then w
    else match c
      case AddCall(i) => Add(w, i)
      case RemoveCall(i) => Remove(w, i)
      case UpdateCall(i) => Update(w, i)
      case CloseCall(i) => Close(w, i)
  }

  function RunCalls(w: World, calls: seq<Call>): (r: World)
    ensures |r.socks| == |w.socks|
    decreases |calls|
  {
    if calls == [] then w else MakeCall(RunCalls(w, calls[..|calls| - 1]), calls[|calls| - 1])
  }

  /** The two maps are inverse to each other, and every key in them was issued. */
  ghost predicate Inverse(w: World) {
    && (forall k :: k in w.byKey ==> w.byKey[k] in w.keyOf && w.keyOf[w.byKey[k]] == k && k < w.nextKey)
    && (forall i :: i in w.keyOf ==> w.keyOf[i] in w.byKey && w.byKey[w.keyOf[i]] == i && i < |w.socks|)
  }

  /** Every entry of the epoll table belongs to a registered dispatcher with that key and that descriptor. */
  ghost predicate EntriesOwned(w: World) {
    forall fd :: fd in w.epoll ==>
      && fd != INVALID_SOCKET
      && w.epoll[fd].key in w.byKey
      && w.byKey[w.epoll[fd].key] < |w.socks|
      && w.socks[w.byKey[w.epoll[fd].key]].fd == fd
  }

  ghost predicate KeysOk(w: World, w': World) {
    Inverse(w') && EntriesOwned(w') && KeysEvolve(w, w') && |w'.socks| == |w.socks|
  }

  /** Writing an entry for a descriptor under the key of its dispatcher. */
  lemma EntryKeepsOwners(w: World, i: nat, table: map<int, Entry>)
    requires EntriesOwned(w) && i in w.keyOf && i < |w.socks| && w.keyOf[i] in w.byKey && w.byKey[w.keyOf[i]] == i
    requires forall fd :: fd in table && fd !in w.epoll ==> fd == w.socks[i].fd && fd != INVALID_SOCKET
    requires forall fd :: fd in table ==>
               (fd in w.epoll && table[fd] == w.epoll[fd]) || (fd == w.socks[i].fd && table[fd].key == w.keyOf[i])
    ensures EntriesOwned(w.(epoll := table))
  {
  }

  lemma AddEpollKeepsKeys(w: World, i: nat)
    requires Inverse(w) && EntriesOwned(w) && i < |w.socks| && i in w.keyOf
    ensures KeysOk(w, AddEpoll(w, i, w.keyOf[i]))
  {
    EntryKeepsOwners(w, i, AddEpoll(w, i, w.keyOf[i]).epoll);
  }

  lemma AddKeepsKeys(w: World, i: nat)
    requires Inverse(w) && EntriesOwned(w) && i < |w.socks|
    ensures KeysOk(w, Add(w, i))
  {
    assert w.nextKey !in w.byKey;
    if i !in w.keyOf {
      RegisterKeepsKeys(w, i, Add(w, i).hist);
      var w1 := w.(nextKey := w.nextKey + 1, byKey := w.byKey[w.nextKey := i], keyOf := w.keyOf[i := w.nextKey],
                   hist := Add(w, i).hist);
      AddEpollKeepsKeys(w1, i);
      AddFactors(w, i, w1);
      KeysOkTwice(w, w1, Add(w, i));
    }
  }

  lemma AddFactors(w: World, i: nat, w1: World)
    requires i < |w.socks| && i !in w.keyOf
    requires w1 == w.(nextKey := w.nextKey + 1, byKey := w.byKey[w.nextKey := i], keyOf := w.keyOf[i := w.nextKey],
                      hist := Add(w, i).hist)
    ensures Add(w, i) == AddEpoll(w1, i, w.nextKey)
  {
  }

  lemma RegisterKeepsKeys(w: World, i: nat, hist: History)
    requires Inverse(w) && EntriesOwned(w) && i < |w.socks| && i !in w.keyOf && w.nextKey !in w.byKey
    ensures KeysOk(w, w.(nextKey := w.nextKey + 1, byKey := w.byKey[w.nextKey := i], keyOf := w.keyOf[i := w.nextKey],
                         hist := hist))
  {
  }

  lemma RemoveKeepsKeys(w: World, i: nat)
    requires Inverse(w) && EntriesOwned(w) && i < |w.socks|
    ensures KeysOk(w, Remove(w, i)) && i !in Remove(w, i).keyOf
  {
    if i in w.keyOf {
      RemovedOwners(w, i, Remove(w, i));
    }
  }

  lemma RemovedOwners(w: World, i: nat, w': World)
    requires Inverse(w) && EntriesOwned(w) && i < |w.socks| && i in w.keyOf
    requires w'.byKey == w.byKey - {w.keyOf[i]} && w'.socks == w.socks && w'.epoll == w.epoll - {w.socks[i].fd}
    ensures EntriesOwned(w')
  {
    forall fd | fd in w'.epoll
      ensures fd != INVALID_SOCKET && w'.epoll[fd].key in w'.byKey && w'.byKey[w'.epoll[fd].key] < |w'.socks|
      ensures w'.socks[w'.byKey[w'.epoll[fd].key]].fd == fd
    {
      assert fd in w.epoll;
    }
  }

  lemma UpdateEpollKeepsKeys(w: World, i: nat)
    requires Inverse(w) && EntriesOwned(w) && i < |w.socks| && i in w.keyOf
    ensures KeysOk(w, UpdateEpoll(w, i, w.keyOf[i])) && UpdateEpoll(w, i, w.keyOf[i]).keyOf == w.keyOf
  {
    var w' := UpdateEpoll(w, i, w.keyOf[i]);
    assert w' == w.(epoll := w'.epoll);
    var entry := Entry(GetEpollEvents(w.socks[i].enabled), w.keyOf[i]);
    assert w'.epoll == w.epoll || w'.epoll == w.epoll[w.socks[i].fd := entry];
    EntryKeepsOwners(w, i, w'.epoll);
  }

  lemma UpdateKeepsKeys(w: World, i: nat)
    requires Inverse(w) && EntriesOwned(w) && i < |w.socks|
    ensures KeysOk(w, Update(w, i)) && Update(w, i).keyOf == w.keyOf
  {
    if i in w.keyOf {
      UpdateEpollKeepsKeys(w.(hist := LogUpdate(w.hist, i)), i);
    }
  }

  /** What Close does once the dispatcher is out of the registry. */
  lemma ReleaseKeepsKeys(w: World, i: nat)
    requires Inverse(w) && EntriesOwned(w) && i < |w.socks| && i !in w.keyOf
    ensures KeysOk(w, ReleaseFd(w, i)) && ReleaseFd(w, i).keyOf == w.keyOf
  {
  }

  lemma SetSavedKeepsKeys(w: World, i: nat, saved: Saved)
    requires Inverse(w) && EntriesOwned(w) && i < |w.socks|
    ensures KeysOk(w, WithSock(w, i, w.socks[i].(saved := saved)))
  {
  }

  lemma SetEnabledKeepsKeys(w: World, i: nat, events: bv8)
    requires Inverse(w) && EntriesOwned(w) && i < |w.socks|
    ensures KeysOk(w, SetEnabledEvents(w, i, events)) && SetEnabledEvents(w, i, events).keyOf == w.keyOf
  {
    var w1 := WithSock(w, i, w.socks[i].(enabled := events));
    SetInterestKeepsKeys(w, i, events);
    UpdateKeepsKeys(w1, i);
    KeysOkTwice(w, w1, Update(w1, i));
  }

  lemma SetInterestKeepsKeys(w: World, i: nat, events: bv8)
    requires Inverse(w) && EntriesOwned(w) && i < |w.socks|
    ensures KeysOk(w, WithSock(w, i, w.socks[i].(enabled := events)))
  {
  }

  lemma KeysOkTwice(w: World, w1: World, w2: World)
    requires KeysOk(w, w1) && KeysOk(w1, w2)
    ensures KeysOk(w, w2)
  {
    KeysEvolveTwice(w, w1, w2);
  }

  /** Close takes the dispatcher out of the registry if and only if it had a descriptor or was not in it anyway. */
  lemma CloseForgetsIffOpen(w: World, i: nat)
    requires Inverse(w) && EntriesOwned(w) && i < |w.socks|
    ensures KeysOk(w, Close(w, i))
    ensures i !in Close(w, i).keyOf <==> (w.socks[i].fd != INVALID_SOCKET || i !in w.keyOf)
  {
    if w.socks[i].fd != INVALID_SOCKET {
      var w1 := WithSock(w, i, w.socks[i].(saved := SavedOnClose(w.socks[i].saved)));
      SetSavedKeepsKeys(w, i, SavedOnClose(w.socks[i].saved));
      RemoveKeepsKeys(w1, i);
      var w2 := Remove(w1, i);
      KeysOkTwice(w, w1, w2);
      ReleaseKeepsKeys(w2, i);
      var w3 := ReleaseFd(w2, i);
      KeysOkTwice(w, w2, w3);
      SetEnabledKeepsKeys(w3, i, 0);
      KeysOkTwice(w, w3, SetEnabledEvents(w3, i, 0));
    }
  }

  lemma CallKeepsKeys(w: World, c: Call)
    requires Inverse(w) && EntriesOwned(w)
    ensures KeysOk(w, MakeCall(w, c))
  {
    if c.who < |w.socks| {
      match c
      case AddCall(i) => AddKeepsKeys(w, i);
      case RemoveCall(i) => RemoveKeepsKeys(w, i);
      case UpdateCall(i) => UpdateKeepsKeys(w, i);
      case CloseCall(i) => CloseForgetsIffOpen(w, i);
    }
  }

  /**
   Over every sequence of calls the maps stay inverse, every key stays below the counter, no key is reissued, and
   every epoll entry belongs to the registered dispatcher with its key and descriptor. Nothing is assumed about who
   calls what: dispatchers may be added without a descriptor, share one, or be removed in the middle of a batch.
   */
  lemma {:induction false} CallsKeepKeys(w: World, calls: seq<Call>)
    requires Inverse(w) && EntriesOwned(w)
    ensures KeysOk(w, RunCalls(w, calls))
    decreases |calls|
  {
    if calls != [] {
      var before := calls[..|calls| - 1];
      CallsKeepKeys(w, before);
      var w1 := RunCalls(w, before);
      CallKeepsKeys(w1, calls[|calls| - 1]);
      KeysOkTwice(w, w1, RunCalls(w, calls));
    }
  }

  /** Whoever is taken out and put back answers to a new key: an event under the old one finds nobody. */
  lemma ReaddedHasNewKey(w: World, i: nat, between: seq<Call>, later: seq<Call>)
    requires Inverse(w) && EntriesOwned(w) && i in w.keyOf
    ensures i < |w.socks|
    ensures var back := Add(RunCalls(Remove(w, i), between), i);
            && i in back.keyOf && back.keyOf[i] != w.keyOf[i]
            && w.keyOf[i] !in RunCalls(back, later).byKey
  {
    var w1 := Remove(w, i);
    RemoveKeepsKeys(w, i);
    CallsKeepKeys(w1, between);
    var w2 := RunCalls(w1, between);
    AddKeepsKeys(w2, i);
    CallsKeepKeys(Add(w2, i), later);
    RemovedKeyIsGone(w, i);
    StaysGone(w1, w2, w.keyOf[i]);
    StaysGone(w2, Add(w2, i), w.keyOf[i]);
    StaysGone(Add(w2, i), RunCalls(Add(w2, i), later), w.keyOf[i]);
    AddRegistersKey(w2, i);
  }

  lemma RemovedKeyIsGone(w: World, i: nat)
    requires Inverse(w) && i in w.keyOf && i < |w.socks|
    ensures w.keyOf[i] !in Remove(w, i).byKey && w.keyOf[i] < Remove(w, i).nextKey
  {
  }

  lemma StaysGone(w: World, w': World, k: nat)
    requires KeysOk(w, w') && k !in w.byKey && k < w.nextKey
    ensures k !in w'.byKey && k < w'.nextKey
  {
  }

  lemma AddRegistersKey(w: World, i: nat)
    requires i < |w.socks| && KeysOk(w, Add(w, i))
    ensures i in Add(w, i).keyOf && Add(w, i).keyOf[i] in Add(w, i).byKey
  {
  }
}
