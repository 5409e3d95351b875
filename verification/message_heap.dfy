/** std::priority_queue<DelayedMessage>: a binary heap laid out in a vector. */
module MessageHeaps {
  import opened DelayedMessages

  function Parent(i: nat): (p: nat)
    requires 0 < i
    ensures p < i
  {
    (i - 1) / 2
  }

  /** No message runs before the one at its parent position; position `hole` is exempt. */
  ghost predicate HeapExceptAt(data: seq<DelayedMessage>, hole: int) {
    forall i: nat :: 0 < i < |data| && i != hole ==> NoLater(data[Parent(i)], data[i])
  }

  ghost predicate HeapExceptBelow(data: seq<DelayedMessage>, hole: int) {
    forall i: nat :: 0 < i < |data| && Parent(i) != hole ==> NoLater(data[Parent(i)], data[i])
  }

  /** What lies below `hole` does not run before what lies above it. */
  ghost predicate SpansHole(data: seq<DelayedMessage>, hole: nat) {
    forall i: nat :: 0 < hole < i < |data| && Parent(i) == hole ==> NoLater(data[Parent(hole)], data[i])
  }

  ghost predicate IsHeap(data: seq<DelayedMessage>) {
    HeapExceptAt(data, -1)
  }

  /** The front of the heap is a message that no other message precedes. */
  lemma {:induction false} FrontIsEarliest(data: seq<DelayedMessage>, i: nat)
    requires IsHeap(data) && i < |data|
    ensures NoLater(data[0], data[i])
    decreases i
  {
    if i > 0 {
      FrontIsEarliest(data, Parent(i));
      NoLaterIsTotalPreorder(data[0], data[Parent(i)], data[i]);
    }
  }

  lemma SwapKeepsContents(data: seq<DelayedMessage>, i: nat, j: nat)
    requires i < |data| && j < |data|
    ensures multiset(data[i := data[j]][j := data[i]]) == multiset(data)
  {
  }

  class MessageHeap {
    var data: seq<DelayedMessage>

    constructor ()
      ensures Valid() && data == []
    {
      data := [];
    }

    ghost predicate Valid()
      reads this
    {
      IsHeap(data)
    }

    ghost function Contents(): multiset<DelayedMessage>
      reads this
    {
      multiset(data)
    }

    function Top(): (m: DelayedMessage)
      requires data != []
      reads this
    {
      data[0]
    }

    method Push(m: DelayedMessage)
      requires Valid()
      modifies this
      ensures Valid()
      ensures Contents() == old(Contents()) + multiset{m}
    {
      data := data + [m];
      var i := |data| - 1;
      while i > 0
        invariant 0 <= i < |data|
        invariant HeapExceptAt(data, i) && SpansHole(data, i)
        invariant multiset(data) == old(multiset(data)) + multiset{m}
      {
        if NoLater(data[Parent(i)], data[i]) {
          return;
        }
        SwapKeepsContents(data, Parent(i), i);
        SwapUp(data, i);
        data := data[Parent(i) := data[i]][i := data[Parent(i)]];
        i := Parent(i);
      }
    }

    method Pop()
      requires Valid() && data != []
      modifies this
      ensures Valid()
      ensures Contents() == old(Contents()) - multiset{old(data[0])}
    {
      var last := |data| - 1;
      SwapKeepsContents(data, 0, last);
      var swapped := data[0 := data[last]][last := data[0]];
      assert swapped == swapped[..last] + [data[0]];
      data := swapped[..last];
      var i := 0;
      while true
        invariant 0 <= i <= |data|
        invariant HeapExceptBelow(data, i) && SpansHole(data, i)
        invariant multiset(data) == old(multiset(data)) - multiset{old(data[0])}
        decreases |data| - i
      {
        if 2 * i + 1 >= |data| {
          return;
        }
        var child := EarlierChild(data, i);
        if NoLater(data[i], data[child]) {
          return;
        }
        SwapKeepsContents(data, i, child);
        SwapDown(data, i, child);
        data := data[i := data[child]][child := data[i]];
        i := child;
      }
    }
  }

  predicate IsChild(i: nat, c: nat) {
    c > 0 && Parent(c) == i
  }

  /** The child of position i whose message does not run after the other child's. */
  function EarlierChild(data: seq<DelayedMessage>, i: nat): (c: nat)
    requires 2 * i + 1 < |data|
    ensures c < |data| && IsChild(i, c)
    ensures forall j: nat :: 0 < j < |data| && Parent(j) == i ==> NoLater(data[c], data[j])
  {
    if 2 * i + 2 < |data| && NoLater(data[2 * i + 2], data[2 * i + 1]) then 2 * i + 2 else 2 * i + 1
  }

  lemma SwapUp(data: seq<DelayedMessage>, i: nat)
    requires 0 < i < |data|
    requires HeapExceptAt(data, i) && SpansHole(data, i)
    requires !NoLater(data[Parent(i)], data[i])
    ensures var next := data[Parent(i) := data[i]][i := data[Parent(i)]];
            HeapExceptAt(next, Parent(i)) && SpansHole(next, Parent(i))
  {
    var p := Parent(i);
    var next := data[p := data[i]][i := data[p]];
    forall j: nat | 0 < j < |next| && j != p
      ensures NoLater(next[Parent(j)], next[j])
    {
      assert j != i ==> NoLater(data[Parent(j)], data[j]);
    }
    forall j: nat | 0 < p < j < |next| && Parent(j) == p
      ensures NoLater(next[Parent(p)], next[j])
    {
      assert NoLater(data[Parent(p)], data[p]);
      assert j != i ==> NoLater(data[p], data[j]);
    }
  }

  lemma SwapDown(data: seq<DelayedMessage>, i: nat, c: nat)
    requires c < |data| && IsChild(i, c)
    requires forall j: nat :: 0 < j < |data| && Parent(j) == i ==> NoLater(data[c], data[j])
    requires HeapExceptBelow(data, i) && SpansHole(data, i)
    requires !NoLater(data[i], data[c])
    ensures var next := data[i := data[c]][c := data[i]];
            HeapExceptBelow(next, c) && SpansHole(next, c)
  {
    var next := data[i := data[c]][c := data[i]];
    forall j: nat | 0 < j < |next| && Parent(j) != c
      ensures NoLater(next[Parent(j)], next[j])
    {
      if Parent(j) != i {
        assert NoLater(data[Parent(j)], data[j]);
      }
    }
    forall j: nat | 0 < c < j < |next| && Parent(j) == c
      ensures NoLater(next[Parent(c)], next[j])
    {
      assert NoLater(data[Parent(j)], data[j]);
    }
  }
}
