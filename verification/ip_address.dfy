/** IP addresses as bytes in network order: comparison, the IPv4-mapped form, the host-order integer. */
module IpAddresses {

  type Byte = x: int | 0 <= x < 0x100

  type In4 = b: seq<Byte> | |b| == 4 witness [0, 0, 0, 0]

  type In6 = b: seq<Byte> | |b| == 16 witness [0, 0, 0, 0, 0, 0, 0, 0, 0, 0, 0, 0, 0, 0, 0, 0]

  type UInt16 = x: int | 0 <= x < 0x1_0000

  type UInt32 = x: int | 0 <= x < 0x1_0000_0000

  datatype IPAddress = Unspec | V4(ipv4: In4) | V6(ipv6: In6)

  // ----- integers in memory -----

  /** A uint32_t in the memory of a little-endian machine. */
  function Store32(x: UInt32): In4 {
    [x % 0x100, x / 0x100 % 0x100, x / 0x1_0000 % 0x100, x / 0x100_0000]
  }

  /** A uint16_t there. */
  function Store16(x: UInt16): seq<Byte> {
    [x % 0x100, x / 0x100]
  }

  function Load32(b: In4): UInt32 {
    var b0: int, b1: int, b2: int, b3: int := b[0], b[1], b[2], b[3];
    b0 + 0x100 * b1 + 0x1_0000 * b2 + 0x100_0000 * b3
  }

  /** ntohl and htonl. */
  function Swap32(x: UInt32): UInt32 {
    var b := Store32(x);
    Load32([b[3], b[2], b[1], b[0]])
  }

  /** ntohs and htons. */
  function Swap16(x: UInt16): UInt16 {
    x % 0x100 * 0x100 + x / 0x100
  }

  lemma StoreLoad(b: In4)
    ensures Store32(Load32(b)) == b
  {
    var b0: int, b1: int, b2: int, b3: int := b[0], b[1], b[2], b[3];
    SplitBytes(b0, b1 + 0x100 * b2 + 0x1_0000 * b3);
    SplitBytes(b1, b2 + 0x100 * b3);
    SplitBytes(b2, b3);
    DivideTwice(Load32(b));
  }

  lemma DivideTwice(x: UInt32)
    ensures x / 0x1_0000 == x / 0x100 / 0x100 && x / 0x100_0000 == x / 0x100 / 0x100 / 0x100
  {
  }

  lemma LoadStore(x: UInt32)
    ensures Load32(Store32(x)) == x
  {
    DivideTwice(x);
  }

  lemma SwapLoad(b: In4)
    ensures Swap32(Load32(b)) == Load32([b[3], b[2], b[1], b[0]])
  {
    StoreLoad(b);
  }

  lemma SwapTwice(x: UInt32)
    ensures Swap32(Swap32(x)) == x
  {
    var b := Store32(x);
    SwapLoad([b[3], b[2], b[1], b[0]]);
    LoadStore(x);
  }

  lemma Swap16Twice(x: UInt16)
    ensures Swap16(Swap16(x)) == x
  {
    var low: int, high: int := x % 0x100, x / 0x100;
    SplitBytes(low, high);
    SplitBytes(high, low);
  }

  /** After htons the byte that counts most comes first in memory. */
  lemma NetworkOrder16(x: UInt16)
    ensures Store16(Swap16(x)) == [x / 0x100, x % 0x100]
  {
    SplitBytes(x / 0x100, x % 0x100);
  }

  lemma SplitBytes(low: int, high: int)
    requires 0 <= low < 0x100
    ensures (low + 0x100 * high) % 0x100 == low && (low + 0x100 * high) / 0x100 == high
  {
  }

  /** IPAddress(uint32_t): the constructor from an integer in host order. */
  function FromHostOrder(x: UInt32): IPAddress {
    V4(Store32(Swap32(x)))
  }

  function V4AsHostOrder(ip: IPAddress): UInt32 {
    match ip
    case V4(b) => Swap32(Load32(b))
    case _ => 0
  }

  lemma HostOrderRoundTrip(b: In4)
    ensures FromHostOrder(V4AsHostOrder(V4(b))) == V4(b)
  {
    SwapTwice(Load32(b));
    StoreLoad(b);
  }

  // ----- comparison -----

  /** memcmp(a, b, n) < 0. */
  predicate BytesLess(a: seq<Byte>, b: seq<Byte>)
    requires |a| == |b|
  {
    a != [] && (a[0] < b[0] || (a[0] == b[0] && BytesLess(a[1..], b[1..])))
  }

  function FamilyRank(ip: IPAddress): nat {
    match ip
    case Unspec => 0
    case V4(_) => 1
    case V6(_) => 2
  }

  /** operator==. */
  predicate Equal(a: IPAddress, b: IPAddress) {
    if FamilyRank(a) != FamilyRank(b) then false
    else match a
      case V4(x) => x == b.ipv4
      case V6(x) => x == b.ipv6
      case Unspec => true
  }

  /** operator<. */
  predicate Less(a: IPAddress, b: IPAddress) {
    if FamilyRank(a) != FamilyRank(b) then
      a.Unspec? || (a.V4? && b.V6?)
    else match a
      case V4(_) => V4AsHostOrder(a) < V4AsHostOrder(b)
      case V6(x) => BytesLess(x, b.ipv6)
      case Unspec => false
  }

  lemma {:induction false} BytesTrichotomy(a: seq<Byte>, b: seq<Byte>)
    requires |a| == |b|
    ensures BytesLess(a, b) ==> a != b && !BytesLess(b, a)
    ensures BytesLess(a, b) || BytesLess(b, a) || a == b
    decreases |a|
  {
    if a != [] {
      BytesTrichotomy(a[1..], b[1..]);
      assert a == [a[0]] + a[1..] && b == [b[0]] + b[1..];
    }
  }

  lemma {:induction false} BytesTransitive(a: seq<Byte>, b: seq<Byte>, c: seq<Byte>)
    requires |a| == |b| == |c| && BytesLess(a, b) && BytesLess(b, c)
    ensures BytesLess(a, c)
    decreases |a|
  {
    if a[0] == b[0] == c[0] {
      BytesTransitive(a[1..], b[1..], c[1..]);
    }
  }

  /** Comparing host-order integers is comparing the bytes from the first one on. */
  lemma HostOrderIsByteOrder(a: In4, b: In4)
    ensures V4AsHostOrder(V4(a)) < V4AsHostOrder(V4(b)) <==> BytesLess(a, b)
    ensures V4AsHostOrder(V4(a)) == V4AsHostOrder(V4(b)) <==> a == b
  {
    SwapLoad(a);
    SwapLoad(b);
    FourBytesLess(a, b);
    BytesTrichotomy(a, b);
    FourBytesLess(b, a);
  }

  lemma FourBytesLess(a: In4, b: In4)
    ensures BytesLess(a, b) <==>
              || a[0] < b[0]
              || (a[0] == b[0] && (|| a[1] < b[1]
                                   || (a[1] == b[1] && (a[2] < b[2] || (a[2] == b[2] && a[3] < b[3])))))
  {
    var a1, b1 := a[1..], b[1..];
    var a2, b2 := a1[1..], b1[1..];
    var a3, b3 := a2[1..], b2[1..];
    assert BytesLess(a3, b3) <==> a3[0] < b3[0];
    assert BytesLess(a2, b2) <==> a2[0] < b2[0] || (a2[0] == b2[0] && BytesLess(a3, b3));
    assert BytesLess(a1, b1) <==> a1[0] < b1[0] || (a1[0] == b1[0] && BytesLess(a2, b2));
  }

  /** As in a dictionary: where they first differ, a has the smaller byte. */
  ghost predicate BytesPrecede(a: seq<Byte>, b: seq<Byte>)
    requires |a| == |b|
  {
    exists k :: 0 <= k < |a| && a[..k] == b[..k] && a[k] < b[k]
  }

  lemma HeadsAgree<T>(a: seq<T>, b: seq<T>, k: nat)
    requires 0 < k <= |a| && k <= |b| && a[..k] == b[..k]
    ensures a[0] == b[0]
  {
    assert a[..k][0] == a[0] && b[..k][0] == b[0];
  }

  lemma {:induction false} BytesLessMeans(a: seq<Byte>, b: seq<Byte>)
    requires |a| == |b|
    ensures BytesLess(a, b) <==> BytesPrecede(a, b)
    decreases |a|
  {
    if a != [] && a[0] == b[0] {
      BytesLessMeans(a[1..], b[1..]);
      if BytesPrecede(a[1..], b[1..]) {
        var k :| 0 <= k < |a[1..]| && a[1..][..k] == b[1..][..k] && a[1..][k] < b[1..][k];
        assert a[..k + 1] == [a[0]] + a[1..][..k] && b[..k + 1] == [b[0]] + b[1..][..k];
        assert a[k + 1] < b[k + 1];
      }
      if BytesPrecede(a, b) {
        var k :| 0 <= k < |a| && a[..k] == b[..k] && a[k] < b[k];
        assert a[1..][..k - 1] == a[..k][1..] && b[1..][..k - 1] == b[..k][1..];
        assert a[1..][k - 1] < b[1..][k - 1];
      }
    } else if a != [] {
      if BytesPrecede(a, b) {
        var k :| 0 <= k < |a| && a[..k] == b[..k] && a[k] < b[k];
        if k > 0 {
          HeadsAgree(a, b, k);
        }
      }
      if a[0] < b[0] {
        assert a[..0] == b[..0];
      }
    }
  }

  /** operator<: no address before any, IPv4 before IPv6, and within a family the order of the bytes. */
  lemma LessMeans(a: IPAddress, b: IPAddress)
    ensures Less(a, b) <==>
              || (a.Unspec? && !b.Unspec?)
              || (a.V4? && b.V6?)
              || (a.V4? && b.V4? && BytesPrecede(a.ipv4, b.ipv4))
              || (a.V6? && b.V6? && BytesPrecede(a.ipv6, b.ipv6))
  {
    if a.V4? && b.V4? {
      HostOrderIsByteOrder(a.ipv4, b.ipv4);
      BytesLessMeans(a.ipv4, b.ipv4);
    }
    if a.V6? && b.V6? {
      BytesLessMeans(a.ipv6, b.ipv6);
    }
  }

  /** operator< is a strict total order, and its ties are exactly what operator== calls equal. */
  lemma LessIsTotalOrder(a: IPAddress, b: IPAddress, c: IPAddress)
    ensures !(Less(a, b) && Less(b, a)) && !(Less(a, b) && Equal(a, b))
    ensures Less(a, b) || Less(b, a) || Equal(a, b)
    ensures Less(a, b) && Less(b, c) ==> Less(a, c)
    ensures Equal(a, b) <==> a == b
  {
    if a.V4? && b.V4? {
      HostOrderIsByteOrder(a.ipv4, b.ipv4);
    }
    if a.V6? && b.V6? {
      BytesTrichotomy(a.ipv6, b.ipv6);
      if c.V6? && Less(a, b) && Less(b, c) {
        BytesTransitive(a.ipv6, b.ipv6, c.ipv6);
      }
    }
  }

  // ----- the IPv4-mapped form -----

  const V4_MAPPED_PREFIX: seq<Byte> := [0, 0, 0, 0, 0, 0, 0, 0, 0, 0, 0xFF, 0xFF]

  const ANY6: In6 := [0, 0, 0, 0, 0, 0, 0, 0, 0, 0, 0, 0, 0, 0, 0, 0]

  /** The first four bytes of the union, whichever member was written. */
  function UnionAsIn4(ip: IPAddress): In4 {
    match ip
    case Unspec => [0, 0, 0, 0]
    case V4(b) => b
    case V6(b) => b[..4]
  }

  function AsIPv6Address(ip: IPAddress): IPAddress {
    if ip.V6? then ip else V6(V4_MAPPED_PREFIX + UnionAsIn4(ip))
  }

  predicate IsAny(ip: IPAddress) {
    match ip
    case V4(_) => Equal(ip, FromHostOrder(0))
    case V6(_) => Equal(ip, V6(ANY6)) || Equal(ip, V6(V4_MAPPED_PREFIX + [0, 0, 0, 0]))
    case Unspec => false
  }

  lemma {:induction false} CommonPrefix(p: seq<Byte>, a: seq<Byte>, b: seq<Byte>)
    requires |a| == |b|
    ensures BytesLess(p + a, p + b) <==> BytesLess(a, b)
    decreases |p|
  {
    if p == [] {
      assert p + a == a && p + b == b;
    } else {
      CommonPrefix(p[1..], a, b);
      assert (p + a)[1..] == p[1..] + a && (p + b)[1..] == p[1..] + b;
    }
  }

  /** On IPv4 addresses the mapped form keeps order and identity. */
  lemma MappingPreservesOrder(a: IPAddress, b: IPAddress)
    requires a.V4? && b.V4?
    ensures Less(AsIPv6Address(a), AsIPv6Address(b)) <==> Less(a, b)
    ensures Equal(AsIPv6Address(a), AsIPv6Address(b)) <==> Equal(a, b)
  {
    CommonPrefix(V4_MAPPED_PREFIX, a.ipv4, b.ipv4);
    HostOrderIsByteOrder(a.ipv4, b.ipv4);
    assert a.ipv4 == (V4_MAPPED_PREFIX + a.ipv4)[12..] && b.ipv4 == (V4_MAPPED_PREFIX + b.ipv4)[12..];
  }

  lemma AnyIsZero(b: In4)
    ensures IsAny(V4(b)) <==> b == [0, 0, 0, 0]
  {
    LoadStore(0);
    assert Store32(Swap32(0)) == [0, 0, 0, 0];
  }

  /** The mapped form of an address is "any" exactly if the address is, or if it is not specified at all. */
  lemma MappingPreservesAny(ip: IPAddress)
    ensures IsAny(AsIPv6Address(ip)) <==> IsAny(ip) || ip.Unspec?
  {
    if !ip.V6? {
      var b := UnionAsIn4(ip);
      var mapped := V4_MAPPED_PREFIX + b;
      assert b == mapped[12..];
      assert mapped[10] == 0xFF;
      AnyIsZero(b);
      assert (V4_MAPPED_PREFIX + [0, 0, 0, 0])[12..] == [0, 0, 0, 0];
    }
  }
}
