/** Delayed messages, their order, and what one pass over the timer queue must do. */
module DelayedMessages {

  /** A std::function; NoTask is the empty one. The id tells the functors of different posts apart. */
  datatype Task = NoTask | Task(id: nat)

  /** The "no timeout" sentinel of Thread and SocketServer. */
  const FOREVER: int := -1

  /** message_number is a uint32_t. */
  const NUMBER_MODULUS: nat := 0x1_0000_0000

  datatype DelayedMessage = DelayedMessage(
    delayMs: int,
    runTimeMs: int,
    messageNumber: nat,
    functor: Task)

  /** DelayedMessage::operator<. It is reversed, so that the greatest element of a priority queue is the earliest. */
  predicate Less(lhs: DelayedMessage, rhs: DelayedMessage) {
    || rhs.runTimeMs < lhs.runTimeMs
    || (rhs.runTimeMs == lhs.runTimeMs && rhs.messageNumber < lhs.messageNumber)
  }

  /** a does not run after b: the lexicographic order on (run time, number). */
  predicate NoLater(a: DelayedMessage, b: DelayedMessage) {
    !Less(a, b)
  }

  ghost predicate Sorted(s: seq<DelayedMessage>) {
    forall i, j :: 0 <= i < j < |s| ==> NoLater(s[i], s[j])
  }

  /** due is what leaves heap when the clock shows now, in order; rest is what stays. */
  ghost predicate IsDrain(heap: multiset<DelayedMessage>, now: int,
                          due: seq<DelayedMessage>, rest: multiset<DelayedMessage>)
  {
    && multiset(due) + rest == heap
    && Sorted(due)
    && (forall m :: m in due ==> m.runTimeMs <= now)
    && (forall m :: m in rest ==> now < m.runTimeMs)
  }

  /** A drain in progress: due left heap in order and nothing in rest precedes any of it. */
  ghost predicate Draining(heap: multiset<DelayedMessage>, now: int,
                           due: seq<DelayedMessage>, rest: multiset<DelayedMessage>)
  {
    && multiset(due) + rest == heap
    && Sorted(due)
    && (forall m :: m in due ==> m.runTimeMs <= now)
    && (forall a, b :: a in due && b in rest ==> NoLater(a, b))
  }

  ghost predicate IsEarliest(m: DelayedMessage, heap: multiset<DelayedMessage>) {
    m in heap && forall x :: x in heap ==> NoLater(m, x)
  }

  lemma DrainingStep(heap: multiset<DelayedMessage>, now: int,
                     due: seq<DelayedMessage>, rest: multiset<DelayedMessage>, top: DelayedMessage)
    requires Draining(heap, now, due, rest)
    requires IsEarliest(top, rest) && top.runTimeMs <= now
    ensures Draining(heap, now, due + [top], rest - multiset{top})
  {
    assert rest == multiset{top} + (rest - multiset{top});
    forall a, b | a in due + [top] && b in rest - multiset{top}
      ensures NoLater(a, b)
    {
      assert b in rest;
    }
    forall i, j | 0 <= i < j < |due + [top]|
      ensures NoLater((due + [top])[i], (due + [top])[j])
    {
      assert due[i] in due;
    }
  }

  lemma DrainingEnds(heap: multiset<DelayedMessage>, now: int,
                     due: seq<DelayedMessage>, rest: multiset<DelayedMessage>, top: DelayedMessage)
    requires Draining(heap, now, due, rest)
    requires IsEarliest(top, rest) && now < top.runTimeMs
    ensures IsDrain(heap, now, due, rest) && IsGap(rest, now, top.runTimeMs - now)
  {
    forall m | m in rest
      ensures top.runTimeMs <= m.runTimeMs
    {
      assert NoLater(top, m);
    }
  }

  lemma DrainingEmpties(heap: multiset<DelayedMessage>, now: int, due: seq<DelayedMessage>)
    requires Draining(heap, now, due, multiset{})
    ensures IsDrain(heap, now, due, multiset{}) && IsGap(multiset{}, now, FOREVER)
  {
  }

  /** gap is the time from now to the earliest message of rest, or FOREVER exactly when there is none. */
  ghost predicate IsGap(rest: multiset<DelayedMessage>, now: int, gap: int) {
    if rest == multiset{} then
      gap == FOREVER
    else
      && 1 <= gap
      && (forall m :: m in rest ==> gap <= m.runTimeMs - now)
      && (exists m :: m in rest && gap == m.runTimeMs - now)
  }

  /** No two messages share run time and number. */
  ghost predicate DistinctKeys(heap: multiset<DelayedMessage>) {
    forall a, b :: a in heap && b in heap && NoLater(a, b) && NoLater(b, a) ==> a == b
  }

  lemma NoLaterIsTotalPreorder(a: DelayedMessage, b: DelayedMessage, c: DelayedMessage)
    ensures NoLater(a, b) || NoLater(b, a)
    ensures NoLater(a, b) && NoLater(b, c) ==> NoLater(a, c)
    ensures NoLater(a, b) && NoLater(b, a) <==> a.runTimeMs == b.runTimeMs && a.messageNumber == b.messageNumber
  {
  }

  /** Nothing but the heap and the clock decides which messages leave and, keys being distinct, in which order. */
  lemma {:induction false} DrainIsUnique(heap: multiset<DelayedMessage>, now: int,
                                         due1: seq<DelayedMessage>, rest1: multiset<DelayedMessage>,
                                         due2: seq<DelayedMessage>, rest2: multiset<DelayedMessage>)
    requires IsDrain(heap, now, due1, rest1) && IsDrain(heap, now, due2, rest2)
    requires DistinctKeys(heap)
    ensures due1 == due2 && rest1 == rest2
  {
    assert rest1 == rest2 by {
      forall m ensures rest1[m] == rest2[m] {
        assert heap[m] == multiset(due1)[m] + rest1[m] == multiset(due2)[m] + rest2[m];
        assert m in due1 <==> m in multiset(due1);
        assert m in due2 <==> m in multiset(due2);
        if m in heap {
          assert m in multiset(due1) || m in rest1;
          assert m in multiset(due2) || m in rest2;
        }
      }
    }
    assert multiset(due1) == heap - rest1;
    assert multiset(due2) == heap - rest2;
    SortedIsUnique(due1, due2, heap);
  }

  lemma SortedHeadIsFirst(s: seq<DelayedMessage>, m: DelayedMessage)
    requires Sorted(s) && m in s
    ensures NoLater(s[0], m)
  {
    var i :| 0 <= i < |s| && s[i] == m;
    if i == 0 {
      NoLaterIsTotalPreorder(m, m, m);
    }
  }

  lemma {:induction false} SortedIsUnique(a: seq<DelayedMessage>, b: seq<DelayedMessage>,
                                          heap: multiset<DelayedMessage>)
    requires multiset(a) == multiset(b) <= heap
    requires Sorted(a) && Sorted(b) && DistinctKeys(heap)
    ensures a == b
    decreases |a|
  {
    assert |a| == |multiset(a)| == |multiset(b)| == |b|;
    if a != [] {
      var first := a[0];
      assert first == b[0] by {
        assert first in multiset(b) && b[0] in multiset(a);
        SortedHeadIsFirst(a, b[0]);
        SortedHeadIsFirst(b, first);
        assert first in heap && b[0] in heap;
      }
      assert a == [first] + a[1..];
      assert b == [first] + b[1..];
      assert multiset(a) == multiset{first} + multiset(a[1..]);
      assert multiset(b) == multiset{first} + multiset(b[1..]);
      assert multiset(a[1..]) == multiset(b[1..]) by {
        assert multiset(a[1..]) == multiset(a) - multiset{first};
        assert multiset(b[1..]) == multiset(b) - multiset{first};
      }
      assert multiset(a[1..]) <= heap;
      SortedIsUnique(a[1..], b[1..], heap);
    }
  }
}
