/** TrackedAllocator: what its per-usage counters and totals say about the allocations that are live. */
module Allocators {

  const SIZE_MODULUS: int := 0x1_0000_0000_0000_0000

  type Size = x: int | 0 <= x < SIZE_MODULUS

  datatype Usage = Undefined | OnStack | Created | InVector | InList | InStl

  const USAGE_COUNT := 6

  function IndexOf(u: Usage): (i: nat)
    ensures i < USAGE_COUNT
  {
    match u
    case Undefined => 0
    case OnStack => 1
    case Created => 2
    case InVector => 3
    case InList => 4
    case InStl => 5
  }

  /** The part of an Allocation::Request that is accounted for. */
  datatype Request = Request(size: Size, usage: Usage)

  datatype UsageStats = UsageStats(count: Size, bytes: Size)

  const NO_STATS: seq<UsageStats> :=
    [UsageStats(0, 0), UsageStats(0, 0), UsageStats(0, 0), UsageStats(0, 0), UsageStats(0, 0), UsageStats(0, 0)]

  type Stats = s: seq<UsageStats> | |s| == USAGE_COUNT witness NO_STATS

  // ----- the requests that callers build, with the wrap-around of size_t -----

  function CreateRequest(sizeOfT: Size): Request {
    Request(sizeOfT, Created)
  }

  function DestroyRequest(sizeOfT: Size): Request {
    Request(sizeOfT, Created)
  }

  function MakeUniqueRequest(sizeOfT: Size, count: Size): Request {
    Request(sizeOfT * count % SIZE_MODULUS, Created)
  }

  function DeleterRequest(sizeOfT: Size, count: Size): Request {
    Request(sizeOfT * count % SIZE_MODULUS, Created)
  }

  function BuildRequest(sizeOfT: Size, n: Size): Request {
    Request(sizeOfT * n % SIZE_MODULUS, InStl)
  }

  // ----- live allocations -----

  function CountOf(live: seq<Request>, u: int): nat {
    if live == [] then 0 else CountOf(live[1..], u) + if IndexOf(live[0].usage) == u then 1 else 0
  }

  function BytesOf(live: seq<Request>, u: int): nat {
    if live == [] then 0 else BytesOf(live[1..], u) + if IndexOf(live[0].usage) == u then live[0].size else 0
  }

  function TotalBytes(live: seq<Request>): nat {
    if live == [] then 0 else TotalBytes(live[1..]) + live[0].size
  }

  function Without(live: seq<Request>, i: nat): seq<Request>
    requires i < |live|
  {
    live[..i] + live[i + 1..]
  }

  lemma {:induction false} OneLess(live: seq<Request>, i: nat, u: int)
    requires i < |live|
    ensures CountOf(live, u) == CountOf(Without(live, i), u) + if IndexOf(live[i].usage) == u then 1 else 0
    ensures BytesOf(live, u) == BytesOf(Without(live, i), u) + if IndexOf(live[i].usage) == u then live[i].size else 0
    decreases i
  {
    if i == 0 {
      assert Without(live, 0) == live[1..];
    } else {
      OneLess(live[1..], i - 1, u);
      assert Without(live, i)[1..] == Without(live[1..], i - 1);
    }
  }

  /** One bucket says how many allocations of its usage are live and how many bytes they have. */
  predicate BucketOk(b: UsageStats, live: seq<Request>, u: int) {
    b.count == CountOf(live, u) % SIZE_MODULUS && b.bytes == BytesOf(live, u) % SIZE_MODULUS
  }

  ghost predicate StatsOk(st: Stats, live: seq<Request>) {
    forall u :: 0 <= u < USAGE_COUNT ==> BucketOk(st[u], live, u)
  }

  function Allocated(st: Stats, r: Request): Stats {
    var u := IndexOf(r.usage);
    st[u := UsageStats((st[u].count + 1) % SIZE_MODULUS, (st[u].bytes + r.size) % SIZE_MODULUS)]
  }

  function Freed(st: Stats, r: Request): Stats {
    var u := IndexOf(r.usage);
    st[u := UsageStats((st[u].count - 1) % SIZE_MODULUS, (st[u].bytes - r.size) % SIZE_MODULUS)]
  }

  /** The two checks in Free. */
  predicate FreeIsNormal(st: Stats, r: Request) {
    var u := IndexOf(r.usage);
    st[u].count > 0 && st[u].bytes >= r.size
  }

  lemma AllocateKeeps(st: Stats, live: seq<Request>, r: Request)
    requires StatsOk(st, live)
    ensures StatsOk(Allocated(st, r), [r] + live)
  {
    assert ([r] + live)[1..] == live;
    forall u | 0 <= u < USAGE_COUNT
      ensures BucketOk(Allocated(st, r)[u], [r] + live, u)
    {
      assert BucketOk(st[u], live, u);
      AddModulo(CountOf(live, u), 1);
      AddModulo(BytesOf(live, u), r.size);
    }
  }

  lemma AddModulo(x: nat, y: nat)
    ensures (x % SIZE_MODULUS + y) % SIZE_MODULUS == (x + y) % SIZE_MODULUS
  {
  }

  lemma SubtractModulo(x: nat, y: nat)
    ensures ((x + y) % SIZE_MODULUS - y) % SIZE_MODULUS == x % SIZE_MODULUS
  {
  }

  lemma FreeKeeps(st: Stats, live: seq<Request>, i: nat)
    requires StatsOk(st, live) && i < |live|
    ensures StatsOk(Freed(st, live[i]), Without(live, i))
  {
    forall u | 0 <= u < USAGE_COUNT
      ensures BucketOk(Freed(st, live[i])[u], Without(live, i), u)
    {
      assert BucketOk(st[u], live, u);
      OneLess(live, i, u);
      SubtractModulo(CountOf(Without(live, i), u), 1);
      SubtractModulo(BytesOf(Without(live, i), u), live[i].size);
    }
  }

  // ----- runs -----

  /** A call of Allocate, or of Free for one of the live allocations. */
  datatype Call = New(r: Request) | Delete(i: nat)

  datatype Heap = Heap(stats: Stats, live: seq<Request>)

  function MakeCall(h: Heap, c: Call): Heap {
    match c
    case New(r) => Heap(Allocated(h.stats, r), [r] + h.live)
    case Delete(i) => if i < |h.live| then Heap(Freed(h.stats, h.live[i]), Without(h.live, i)) else h
  }

  function RunCalls(calls: seq<Call>): Heap {
    if calls == [] then Heap(NO_STATS, [])
    else MakeCall(RunCalls(calls[..|calls| - 1]), calls[|calls| - 1])
  }

  /** Over every run of matched calls, every bucket is the count and the byte sum of its live allocations. */
  lemma {:induction false} BucketsCountLive(calls: seq<Call>)
    ensures StatsOk(RunCalls(calls).stats, RunCalls(calls).live)
    decreases |calls|
  {
    if calls != [] {
      var before, last := calls[..|calls| - 1], calls[|calls| - 1];
      BucketsCountLive(before);
      var h := RunCalls(before);
      match last
      case New(r) => AllocateKeeps(h.stats, h.live, r);
      case Delete(i) => if i < |h.live| { FreeKeeps(h.stats, h.live, i); }
    }
  }

  lemma {:induction false} BucketIsPart(live: seq<Request>, u: int)
    ensures CountOf(live, u) <= |live| && BytesOf(live, u) <= TotalBytes(live)
  {
    if live != [] {
      BucketIsPart(live[1..], u);
    }
  }

  /**
   While the live allocations fit into the address space, the two checks of Free fail exactly for what cannot be
   matched: nothing of that usage is live, or fewer bytes than are to be freed.
   */
  lemma FreeIsNormalIff(calls: seq<Call>, r: Request)
    requires var live := RunCalls(calls).live; |live| < SIZE_MODULUS && TotalBytes(live) < SIZE_MODULUS
    ensures var h, u := RunCalls(calls), IndexOf(r.usage);
            FreeIsNormal(h.stats, r) <==> CountOf(h.live, u) > 0 && r.size <= BytesOf(h.live, u)
  {
    BucketsCountLive(calls);
    BucketIsExact(RunCalls(calls), IndexOf(r.usage));
  }

  /** Nothing wraps around while all that is live fits. */
  lemma BucketIsExact(h: Heap, u: nat)
    requires StatsOk(h.stats, h.live) && u < USAGE_COUNT
    requires |h.live| < SIZE_MODULUS && TotalBytes(h.live) < SIZE_MODULUS
    ensures h.stats[u].count == CountOf(h.live, u) && h.stats[u].bytes == BytesOf(h.live, u)
  {
    assert BucketOk(h.stats[u], h.live, u);
    BucketIsPart(h.live, u);
    SmallModulo(CountOf(h.live, u));
    SmallModulo(BytesOf(h.live, u));
  }

  lemma SmallModulo(x: nat)
    requires x < SIZE_MODULUS
    ensures x % SIZE_MODULUS == x
  {
  }

  /**
   While the live allocations fit into the address space, the counters are exact and no matched Free underflows:
   both of its checks pass.
   */
  lemma MatchedFreeIsNormal(calls: seq<Call>, i: nat)
    requires var live := RunCalls(calls).live;
             i < |live| && |live| < SIZE_MODULUS && TotalBytes(live) < SIZE_MODULUS
    ensures var h := RunCalls(calls);
            && FreeIsNormal(h.stats, h.live[i])
            && forall u :: 0 <= u < USAGE_COUNT ==>
                 h.stats[u].count == CountOf(h.live, u) && h.stats[u].bytes == BytesOf(h.live, u)
  {
    var h := RunCalls(calls);
    BucketsCountLive(calls);
    forall u | 0 <= u < USAGE_COUNT
      ensures h.stats[u].count == CountOf(h.live, u) && h.stats[u].bytes == BytesOf(h.live, u)
    {
      BucketIsExact(h, u);
    }
    OneLess(h.live, i, IndexOf(h.live[i].usage));
  }

  // ----- totals -----

  /** The live allocations whose usage comes before bucket n, and their bytes. */
  function CountBelow(live: seq<Request>, n: int): nat {
    if live == [] then 0 else CountBelow(live[1..], n) + if IndexOf(live[0].usage) < n then 1 else 0
  }

  function BytesBelow(live: seq<Request>, n: int): nat {
    if live == [] then 0 else BytesBelow(live[1..], n) + if IndexOf(live[0].usage) < n then live[0].size else 0
  }

  lemma {:induction false} BelowIsSum(live: seq<Request>, n: int)
    ensures CountBelow(live, n + 1) == CountBelow(live, n) + CountOf(live, n)
    ensures BytesBelow(live, n + 1) == BytesBelow(live, n) + BytesOf(live, n)
    ensures CountBelow(live, 0) == 0 && BytesBelow(live, 0) == 0
    ensures CountBelow(live, USAGE_COUNT) == |live| && BytesBelow(live, USAGE_COUNT) == TotalBytes(live)
  {
    if live != [] {
      BelowIsSum(live[1..], n);
    }
  }

  /** The loop of NumAllocations over the first n buckets. */
  function SumCounts(st: Stats, n: nat): Size
    requires n <= USAGE_COUNT
  {
    if n == 0 then 0 else (SumCounts(st, n - 1) + st[n - 1].count) % SIZE_MODULUS
  }

  function SumBytes(st: Stats, n: nat): Size
    requires n <= USAGE_COUNT
  {
    if n == 0 then 0 else (SumBytes(st, n - 1) + st[n - 1].bytes) % SIZE_MODULUS
  }

  lemma AddBothModulo(x: nat, y: nat)
    ensures (x % SIZE_MODULUS + y % SIZE_MODULUS) % SIZE_MODULUS == (x + y) % SIZE_MODULUS
  {
  }

  /** Adding up buckets, with wrap-around, is counting what is live. */
  lemma {:induction false} SumsCountLive(st: Stats, live: seq<Request>, n: nat)
    requires StatsOk(st, live) && n <= USAGE_COUNT
    ensures SumCounts(st, n) == CountBelow(live, n) % SIZE_MODULUS
    ensures SumBytes(st, n) == BytesBelow(live, n) % SIZE_MODULUS
    decreases n
  {
    BelowIsSum(live, n - 1);
    if n > 0 {
      SumsCountLive(st, live, n - 1);
      assert BucketOk(st[n - 1], live, n - 1);
      AddBothModulo(CountBelow(live, n - 1), CountOf(live, n - 1));
      AddBothModulo(BytesBelow(live, n - 1), BytesOf(live, n - 1));
    }
  }

  // ----- the class -----

  class TrackedAllocator {
    const byUsage: array<UsageStats>
    ghost var live: seq<Request>

    constructor ()
      ensures Valid() && fresh(byUsage) && live == []
    {
      byUsage := new UsageStats[USAGE_COUNT](_ => UsageStats(0, 0));
      live := [];
    }

    ghost predicate Valid()
      reads this, byUsage
    {
      byUsage.Length == USAGE_COUNT && StatsOk(byUsage[..], live)
    }

    method Allocate(r: Request)
      requires Valid()
      modifies this, byUsage
      ensures Valid() && live == [r] + old(live) && byUsage[..] == Allocated(old(byUsage[..]), r)
    {
      AllocateKeeps(byUsage[..], live, r);
      var u := IndexOf(r.usage);
      byUsage[u] := UsageStats((byUsage[u].count + 1) % SIZE_MODULUS, (byUsage[u].bytes + r.size) % SIZE_MODULUS);
      live := [r] + live;
    }

    /** Tells whether the checks passed. */
    method Free(r: Request, ghost i: nat) returns (normal: bool)
      requires Valid() && i < |live| && live[i] == r
      modifies this, byUsage
      ensures Valid() && live == Without(old(live), i) && byUsage[..] == Freed(old(byUsage[..]), r)
      ensures normal == FreeIsNormal(old(byUsage[..]), r)
    {
      FreeKeeps(byUsage[..], live, i);
      var u := IndexOf(r.usage);
      normal := byUsage[u].count > 0 && byUsage[u].bytes >= r.size;
      byUsage[u] := UsageStats((byUsage[u].count - 1) % SIZE_MODULUS, (byUsage[u].bytes - r.size) % SIZE_MODULUS);
      live := Without(live, i);
    }

    /** The total over all buckets is the number of live allocations. */
    method NumAllocations() returns (total: Size)
      requires Valid()
      ensures total == |live| % SIZE_MODULUS
    {
      total := 0;
      for u := 0 to byUsage.Length
        invariant total == SumCounts(byUsage[..], u)
      {
        total := (total + byUsage[u].count) % SIZE_MODULUS;
      }
      SumsCountLive(byUsage[..], live, USAGE_COUNT);
      BelowIsSum(live, 0);
    }

    method BytesAllocated() returns (total: Size)
      requires Valid()
      ensures total == TotalBytes(live) % SIZE_MODULUS
    {
      total := 0;
      for u := 0 to byUsage.Length
        invariant total == SumBytes(byUsage[..], u)
      {
        total := (total + byUsage[u].bytes) % SIZE_MODULUS;
      }
      SumsCountLive(byUsage[..], live, USAGE_COUNT);
      BelowIsSum(live, 0);
    }

    method Create(sizeOfT: Size)
      requires Valid()
      modifies this, byUsage
      ensures Valid() && live == [Request(sizeOfT, Created)] + old(live)
    {
      Allocate(CreateRequest(sizeOfT));
    }

    /** No allocation for a count of 0, and then no deleter call either. */
    method MakeUniqueN(sizeOfT: Size, count: Size) returns (made: bool)
      requires Valid()
      modifies this, byUsage
      ensures Valid() && made == (count != 0)
      ensures live == if made then [Request(sizeOfT * count % SIZE_MODULUS, Created)] + old(live) else old(live)
    {
      if count == 0 {
        return false;
      }
      Allocate(MakeUniqueRequest(sizeOfT, count));
      return true;
    }

    /** What Create allocated, Destroy frees: both build the same request. */
    method Destroy(sizeOfT: Size, ghost i: nat) returns (normal: bool)
      requires Valid() && i < |live| && live[i] == Request(sizeOfT, Created)
      modifies this, byUsage
      ensures Valid() && live == Without(old(live), i)
      ensures normal == FreeIsNormal(old(byUsage[..]), old(live[i]))
    {
      normal := Free(DestroyRequest(sizeOfT), i);
    }

    /** Deleter::operator() with the count that MakeUniqueN gave it. */
    method Delete(sizeOfT: Size, count: Size, ghost i: nat) returns (normal: bool)
      requires Valid() && i < |live| && live[i] == Request(sizeOfT * count % SIZE_MODULUS, Created)
      modifies this, byUsage
      ensures Valid() && live == Without(old(live), i)
      ensures normal == FreeIsNormal(old(byUsage[..]), old(live[i]))
    {
      normal := Free(DeleterRequest(sizeOfT, count), i);
    }

    /** StlAllocator::allocate and deallocate on top of this allocator. */
    method StlAllocate(sizeOfT: Size, n: Size)
      requires Valid()
      modifies this, byUsage
      ensures Valid() && live == [Request(sizeOfT * n % SIZE_MODULUS, InStl)] + old(live)
    {
      Allocate(BuildRequest(sizeOfT, n));
    }

    method StlDeallocate(sizeOfT: Size, n: Size, ghost i: nat) returns (normal: bool)
      requires Valid() && i < |live| && live[i] == Request(sizeOfT * n % SIZE_MODULUS, InStl)
      modifies this, byUsage
      ensures Valid() && live == Without(old(live), i)
      ensures normal == FreeIsNormal(old(byUsage[..]), old(live[i]))
    {
      normal := Free(BuildRequest(sizeOfT, n), i);
    }
  }
}
