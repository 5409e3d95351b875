/** Socket addresses: order, equality, and the trips to text and to sockaddr structures and back. */
module SocketAddresses {
  import opened IpAddresses

  /** The fields of a SocketAddress. */
  datatype Address = Address(hostname: string, ip: IPAddress, port: UInt16, scopeId: int, literal: bool)

  function Cleared(): Address {
    Address("", Unspec, 0, 0, false)
  }

  // ----- order and equality -----

  /** operator< of std::string. */
  predicate StringLess(a: string, b: string) {
    b != [] && (a == [] || a[0] < b[0] || (a[0] == b[0] && StringLess(a[1..], b[1..])))
  }

  lemma {:induction false} StringTrichotomy(a: string, b: string)
    ensures StringLess(a, b) ==> a != b && !StringLess(b, a)
    ensures StringLess(a, b) || StringLess(b, a) || a == b
    decreases |a|
  {
    if a != [] && b != [] {
      StringTrichotomy(a[1..], b[1..]);
      assert a == [a[0]] + a[1..] && b == [b[0]] + b[1..];
    }
  }

  lemma {:induction false} StringTransitive(a: string, b: string, c: string)
    requires StringLess(a, b) && StringLess(b, c)
    ensures StringLess(a, c)
    decreases |a|
  {
    if a != [] && a[0] == b[0] == c[0] {
      StringTransitive(a[1..], b[1..], c[1..]);
    }
  }

  predicate EqualIPs(a: Address, b: Address) {
    Equal(a.ip, b.ip) && !IsAny(a.ip) && !a.ip.Unspec? && a.hostname == b.hostname
  }

  /** operator==. */
  predicate EqualAddresses(a: Address, b: Address) {
    EqualIPs(a, b) && a.port == b.port
  }

  /** operator<. */
  predicate LessAddress(a: Address, b: Address) {
    if !Equal(a.ip, b.ip) then Less(a.ip, b.ip)
    else if IsAny(a.ip) || (a.ip.Unspec? && a.hostname != b.hostname) then StringLess(a.hostname, b.hostname)
    else a.port < b.port
  }

  /** As in a dictionary: a is a part of b from its start, or where they first differ a has the smaller character. */
  ghost predicate StringPrecedes(a: string, b: string) {
    exists k :: 0 <= k <= |a| && k < |b| && a[..k] == b[..k] && (k == |a| || a[k] < b[k])
  }

  lemma {:induction false} StringLessMeans(a: string, b: string)
    ensures StringLess(a, b) <==> StringPrecedes(a, b)
    decreases |a|
  {
    if a != [] && b != [] && a[0] == b[0] {
      StringLessMeans(a[1..], b[1..]);
      TailsPrecede(a, b);
    } else {
      HeadsDecide(a, b);
    }
  }

  lemma HeadsDecide(a: string, b: string)
    requires a == [] || b == [] || a[0] != b[0]
    ensures StringPrecedes(a, b) <==> b != [] && (a == [] || a[0] < b[0])
  {
    if b != [] && (a == [] || a[0] < b[0]) {
      assert a[..0] == b[..0];
    }
    if StringPrecedes(a, b) {
      var k :| 0 <= k <= |a| && k < |b| && a[..k] == b[..k] && (k == |a| || a[k] < b[k]);
      if k > 0 {
        HeadsAgree(a, b, k);
      }
    }
  }

  lemma TailsPrecede(a: string, b: string)
    requires a != [] && b != [] && a[0] == b[0]
    ensures StringPrecedes(a, b) <==> StringPrecedes(a[1..], b[1..])
  {
    if StringPrecedes(a, b) {
      var k :| 0 <= k <= |a| && k < |b| && a[..k] == b[..k] && (k == |a| || a[k] < b[k]);
      assert a[1..][..k - 1] == a[..k][1..] && b[1..][..k - 1] == b[..k][1..];
    }
    if StringPrecedes(a[1..], b[1..]) {
      var k :| 0 <= k <= |a[1..]| && k < |b[1..]| && a[1..][..k] == b[1..][..k] &&
               (k == |a[1..]| || a[1..][k] < b[1..][k]);
      assert a[..k + 1] == [a[0]] + a[1..][..k] && b[..k + 1] == [b[0]] + b[1..][..k];
      assert k + 1 == |a| || a[k + 1] < b[k + 1];
    }
  }

  /** operator<: by address; then by host name if the address is any or none, else, or with equal names, by port. */
  lemma LessAddressMeans(a: Address, b: Address)
    ensures LessAddress(a, b) <==>
              || Less(a.ip, b.ip)
              || (a.ip == b.ip &&
                  if IsAny(a.ip) || (a.ip.Unspec? && a.hostname != b.hostname)
                  then StringPrecedes(a.hostname, b.hostname)
                  else a.port < b.port)
  {
    LessIsTotalOrder(a.ip, b.ip, a.ip);
    StringLessMeans(a.hostname, b.hostname);
  }

  /** Neither is less than the other: what an ordered container takes for the same key. */
  predicate SameKey(a: Address, b: Address) {
    !LessAddress(a, b) && !LessAddress(b, a)
  }

  /** What the order looks at: the address, then only the host name, or both it and the port, or only the port. */
  lemma SameKeyMeans(a: Address, b: Address)
    ensures SameKey(a, b) <==>
              && a.ip == b.ip
              && (if IsAny(a.ip) then a.hostname == b.hostname
                  else a.port == b.port && (a.ip.Unspec? ==> a.hostname == b.hostname))
  {
    LessIsTotalOrder(a.ip, b.ip, a.ip);
    StringTrichotomy(a.hostname, b.hostname);
  }

  /** operator< is a strict weak order, in spite of its three branches. */
  lemma LessIsStrictWeakOrder(a: Address, b: Address, c: Address)
    ensures !LessAddress(a, a)
    ensures !(LessAddress(a, b) && LessAddress(b, a))
    ensures LessAddress(a, b) && LessAddress(b, c) ==> LessAddress(a, c)
    ensures SameKey(a, b) && SameKey(b, c) ==> SameKey(a, c)
  {
    SameKeyMeans(a, b);
    SameKeyMeans(b, c);
    SameKeyMeans(a, c);
    LessIsTotalOrder(a.ip, a.ip, a.ip);
    LessIsTotalOrder(a.ip, b.ip, c.ip);
    LessIsTotalOrder(b.ip, c.ip, a.ip);
    LessIsTotalOrder(a.ip, c.ip, b.ip);
    StringTrichotomy(a.hostname, a.hostname);
    StringTrichotomy(a.hostname, b.hostname);
    if LessAddress(a, b) && LessAddress(b, c) {
      LessTransitive(a, b, c);
    }
  }

  lemma LessTransitive(a: Address, b: Address, c: Address)
    requires LessAddress(a, b) && LessAddress(b, c)
    ensures LessAddress(a, c)
  {
    LessIsTotalOrder(a.ip, b.ip, c.ip);
    LessIsTotalOrder(b.ip, a.ip, c.ip);
    LessIsTotalOrder(b.ip, c.ip, a.ip);
    LessIsTotalOrder(a.ip, c.ip, b.ip);
    if a.ip == b.ip == c.ip && StringLess(a.hostname, b.hostname) && StringLess(b.hostname, c.hostname) {
      StringTransitive(a.hostname, b.hostname, c.hostname);
      StringTrichotomy(a.hostname, c.hostname);
    }
    StringTrichotomy(a.hostname, b.hostname);
    StringTrichotomy(b.hostname, c.hostname);
  }

  /** Addresses that operator== calls equal have the same key, but an address equals itself only under a condition. */
  lemma EqualsItselfIff(a: Address, b: Address)
    ensures EqualAddresses(a, a) <==> !IsAny(a.ip) && !a.ip.Unspec?
    ensures EqualAddresses(a, b) <==>
              !IsAny(a.ip) && !a.ip.Unspec? && a.ip == b.ip && a.hostname == b.hostname && a.port == b.port
    ensures EqualAddresses(a, b) ==> SameKey(a, b) && EqualAddresses(b, a)
  {
    LessIsTotalOrder(a.ip, a.ip, a.ip);
    LessIsTotalOrder(a.ip, b.ip, a.ip);
    SameKeyMeans(a, b);
  }

  // ----- text -----

  datatype Option<T> = None | Some(value: T)

  /** The C library's inet_ntop and inet_pton. */
  datatype Inet = Inet(
    ntop4: In4 -> string,
    ntop6: In6 -> string,
    pton4: string -> Option<In4>,
    pton6: string -> Option<In6>)

  /** They are inverse to each other and use the characters that section 3.2.2 of RFC 3986 allows. */
  ghost predicate InverseOk(lib: Inet) {
    && (forall b :: lib.pton4(lib.ntop4(b)) == Some(b))
    && (forall b :: ':' !in lib.ntop4(b) && '[' !in lib.ntop4(b))
    && (forall b :: lib.pton6(lib.ntop6(b)) == Some(b) && lib.pton4(lib.ntop6(b)) == None)
    && (forall b :: ']' !in lib.ntop6(b))
    && lib.pton4("") == None && lib.pton6("") == None
  }

  function IpToString(lib: Inet, ip: IPAddress): string {
    match ip
    case V4(b) => lib.ntop4(b)
    case V6(b) => lib.ntop6(b)
    case Unspec => ""
  }

  function IpFromString(lib: Inet, s: string): IPAddress {
    if lib.pton4(s).Some? then V4(lib.pton4(s).value)
    else if lib.pton6(s).Some? then V6(lib.pton6(s).value)
    else Unspec
  }

  function Digit(d: int): char
    requires 0 <= d < 10
  {
    '0' + d as char
  }

  predicate IsDigit(c: char) {
    '0' <= c <= '9'
  }

  function DigitValue(c: char): nat
    requires IsDigit(c)
  {
    c as int - '0' as int
  }

  /** A number as operator<< prints it. */
  function Decimal(n: nat): (r: string)
    ensures r != [] && forall c :: c in r ==> IsDigit(c)
    decreases n
  {
    if n < 10 then [Digit(n)] else Decimal(n / 10) + [Digit(n % 10)]
  }

  /** The value of the digits that s starts with, read on from acc. */
  function ReadDigits(s: string, acc: nat): nat
    decreases |s|
  {
    if s == [] || !IsDigit(s[0]) then acc else ReadDigits(s[1..], 10 * acc + DigitValue(s[0]))
  }

  predicate IsSpace(c: char) {
    c == ' ' || '\t' <= c <= '\r'
  }

  function SkipSpaces(s: string): string
    decreases |s|
  {
    if s != [] && IsSpace(s[0]) then SkipSpaces(s[1..]) else s
  }

  const ULONG_MODULUS: int := 0x1_0000_0000_0000_0000

  /** strtoul(s, nullptr, 10): spaces, a sign, digits; what does not fit gives ULONG_MAX. */
  function Strtoul(s: string): nat {
    var t := SkipSpaces(s);
    if t != [] && t[0] == '-' then
      var v := ReadDigits(t[1..], 0);
      if ULONG_MODULUS <= v then ULONG_MODULUS - 1 else (ULONG_MODULUS - v) % ULONG_MODULUS
    else
      var v := ReadDigits(if t != [] && t[0] == '+' then t[1..] else t, 0);
      if ULONG_MODULUS <= v then ULONG_MODULUS - 1 else v
  }

  lemma {:induction false} ReadAppended(s: string, c: char, acc: nat)
    requires (forall d :: d in s ==> IsDigit(d)) && IsDigit(c)
    ensures ReadDigits(s + [c], acc) == 10 * ReadDigits(s, acc) + DigitValue(c)
    decreases |s|
  {
    if s == [] {
      assert (s + [c])[1..] == [];
    } else {
      ReadAppended(s[1..], c, 10 * acc + DigitValue(s[0]));
      assert (s + [c])[1..] == s[1..] + [c];
    }
  }

  lemma {:induction false} ReadDecimal(n: nat)
    ensures ReadDigits(Decimal(n), 0) == n
    decreases n
  {
    if n < 10 {
      assert Decimal(n)[1..] == [];
    } else {
      ReadDecimal(n / 10);
      ReadAppended(Decimal(n / 10), Digit(n % 10), 0);
    }
  }

  lemma PortRoundTrip(port: UInt16)
    ensures Strtoul(Decimal(port)) % 0x1_0000 == port
  {
    ReadDecimal(port);
    assert Decimal(port)[0] in Decimal(port);
  }

  predicate AreSpaces(s: string) {
    forall c :: c in s ==> IsSpace(c)
  }

  lemma {:induction false} SpacesSkipped(spaces: string, rest: string)
    requires AreSpaces(spaces) && (rest != "" ==> !IsSpace(rest[0]))
    ensures SkipSpaces(spaces + rest) == rest
    decreases |spaces|
  {
    if spaces == "" {
      assert spaces + rest == rest;
    } else {
      assert (spaces + rest)[1..] == spaces[1..] + rest;
      SpacesSkipped(spaces[1..], rest);
    }
  }

  lemma {:induction false} ReadStops(digits: string, rest: string, acc: nat)
    requires (forall c :: c in digits ==> IsDigit(c)) && (rest != "" ==> !IsDigit(rest[0]))
    ensures ReadDigits(digits + rest, acc) == ReadDigits(digits, acc)
    decreases |digits|
  {
    if digits == "" {
      assert digits + rest == rest;
    } else {
      assert (digits + rest)[1..] == digits[1..] + rest;
      ReadStops(digits[1..], rest, 10 * acc + DigitValue(digits[0]));
    }
  }

  /** What strtoul reads: spaces, one sign or none, a number, and whatever follows it. */
  lemma StrtoulReads(spaces: string, sign: string, n: nat, rest: string)
    requires AreSpaces(spaces) && (sign == "" || sign == "+" || sign == "-") && (rest != "" ==> !IsDigit(rest[0]))
    ensures Strtoul(spaces + (sign + (Decimal(n) + rest))) ==
            if ULONG_MODULUS <= n then ULONG_MODULUS - 1
            else if sign == "-" && n != 0 then ULONG_MODULUS - n
            else n
  {
    var number := Decimal(n) + rest;
    assert number[0] in Decimal(n);
    SpacesSkipped(spaces, sign + number);
    ReadStops(Decimal(n), rest, 0);
    ReadDecimal(n);
    if sign != "" {
      assert (sign + number)[1..] == number;
    } else {
      assert sign + number == number;
    }
  }

  function HostAsURIString(lib: Inet, a: Address): string {
    if a.hostname != "" then a.hostname
    else if a.ip.V6? then "[" + IpToString(lib, a.ip) + "]"
    else IpToString(lib, a.ip)
  }

  function ToString(lib: Inet, a: Address): string {
    HostAsURIString(lib, a) + ":" + Decimal(a.port)
  }

  /** std::string::find; the length of s stands for npos. */
  function Find(s: string, c: char, from: nat): (n: nat)
    requires from <= |s|
    ensures from <= n <= |s|
    ensures n < |s| ==> s[n] == c
    ensures forall k :: from <= k < n ==> s[k] != c
    decreases |s| - from
  {
    if from == |s| || s[from] == c then from else Find(s, c, from + 1)
  }

  lemma {:induction false} FoundAt(s: string, c: char, from: nat, n: nat)
    requires from <= n < |s| && s[n] == c && forall k :: from <= k < n ==> s[k] != c
    ensures Find(s, c, from) == n
    decreases n - from
  {
    if from < n {
      FoundAt(s, c, from + 1, n);
    }
  }

  /** SetIP(const std::string&): the text becomes the host name, whatever it denotes. */
  function WithHost(lib: Inet, a: Address, text: string): Address {
    var ip := IpFromString(lib, text);
    a.(hostname := text, ip := ip, literal := ip != Unspec)
  }

  function WithPort(a: Address, text: string): Address {
    a.(port := Strtoul(text) % 0x1_0000)
  }

  /** What FromString makes of a, and what it returns; an empty string makes it throw. */
  function Parsed(lib: Inet, a: Address, s: string): (Address, bool)
    requires s != ""
  {
    if s[0] == '[' then
      var close := Find(s, ']', 0);
      if close == |s| then (a, true)
      else
        var pos := Find(s, ':', close);
        if pos == |s| then (a, false)
        else (WithHost(lib, WithPort(a, s[pos + 1..]), s[1..close]), true)
    else
      var pos := Find(s, ':', 0);
      if pos == |s| then (a, false)
      else (WithHost(lib, WithPort(a, s[pos + 1..]), s[..pos]), true)
  }

  /** A host that contains no colon and does not start with a bracket ends at the first colon; the port follows. */
  lemma PlainHostParsed(lib: Inet, target: Address, host: string, rest: string)
    requires ':' !in host && (host != "" ==> host[0] != '[')
    ensures Parsed(lib, target, host + ":" + rest) == (WithHost(lib, WithPort(target, rest), host), true)
  {
    var s := host + ":" + rest;
    forall k | 0 <= k < |host| ensures s[k] != ':' {
      assert s[k] == host[k];
    }
    FoundAt(s, ':', 0, |host|);
    assert s[..|host|] == host && s[|host| + 1..] == rest;
  }

  /** A host in brackets ends at the first closing one; what stands between that and the next colon is skipped. */
  lemma BracketedHostParsed(lib: Inet, target: Address, text: string, skipped: string, rest: string)
    requires ']' !in text && ':' !in skipped
    ensures Parsed(lib, target, "[" + text + "]" + skipped + ":" + rest) ==
            (WithHost(lib, WithPort(target, rest), text), true)
  {
    var s := "[" + text + "]" + skipped + ":" + rest;
    var close, colon := |text| + 1, |text| + 2 + |skipped|;
    forall k | 1 <= k < close ensures s[k] != ']' {
      assert s[k] == text[k - 1];
    }
    FoundAt(s, ']', 0, close);
    forall k | close < k < colon ensures s[k] != ':' {
      assert s[k] == skipped[k - close - 1];
    }
    FoundAt(s, ':', close, colon);
    assert s[1..close] == text && s[colon + 1..] == rest;
  }

  /**
   FromString fails, and changes nothing, exactly if the port is missing: there is no colon, or none after the bracket
   that closes the host. A bracket that nothing closes is taken for success, and changes nothing either.
   */
  lemma ParseFailsIff(lib: Inet, a: Address, s: string)
    requires s != ""
    ensures var (b, ok) := Parsed(lib, a, s);
            && (!ok <==> if s[0] != '[' then ':' !in s
                         else exists k :: 0 < k < |s| && s[k] == ']' && ']' !in s[..k] && ':' !in s[k..])
            && (!ok || (s[0] == '[' && ']' !in s) ==> b == a)
  {
    if s[0] != '[' {
      FindTells(s, ':', 0);
    } else {
      var close := Find(s, ']', 0);
      FindTells(s, ']', 0);
      if close < |s| {
        FindTells(s, ':', close);
        assert ']' !in s[..close];
        forall k | 0 < k < |s| && s[k] == ']' && ']' !in s[..k]
          ensures k == close
        {
          AmongTheFirst(s, close, k);
        }
      }
    }
  }

  lemma AmongTheFirst(s: string, i: nat, k: nat)
    requires i < |s| && k <= |s|
    ensures i < k ==> s[i] in s[..k]
  {
    if i < k {
      assert s[..k][i] == s[i];
    }
  }

  lemma FindTells(s: string, c: char, from: nat)
    requires from <= |s|
    ensures Find(s, c, from) == |s| <==> c !in s[from..]
  {
    var n := Find(s, c, from);
    if n < |s| {
      assert s[from..][n - from] == c;
    }
  }

  /**
   Parsing what was printed recovers address and port, for every family, if there is no host name. The text of the
   address then is the host name, so by operator== the result never equals the original.
   */
  lemma TextRoundTrip(lib: Inet, a: Address, target: Address)
    requires InverseOk(lib) && a.hostname == ""
    ensures ToString(lib, a) != ""
    ensures var (b, ok) := Parsed(lib, target, ToString(lib, a));
            && ok && b.ip == a.ip && b.port == a.port
            && b.hostname == IpToString(lib, a.ip) && b.literal == !a.ip.Unspec?
            && !EqualAddresses(a, b)
  {
    var host := IpToString(lib, a.ip);
    if a.ip.V6? {
      assert ToString(lib, a) == "[" + host + "]" + "" + ":" + Decimal(a.port);
      BracketedHostParsed(lib, target, host, "", Decimal(a.port));
    } else {
      PlainHostParsed(lib, target, host, Decimal(a.port));
    }
    PortRoundTrip(a.port);
  }

  /** A host name survives the trip into a cleared address if and only if it has no colon and no leading bracket. */
  lemma HostnameRoundTripIff(lib: Inet, a: Address)
    requires a.hostname != ""
    ensures ToString(lib, a) != ""
    ensures var (b, ok) := Parsed(lib, Cleared(), ToString(lib, a));
            (ok && b.hostname == a.hostname && b.port == a.port) <==> ':' !in a.hostname && a.hostname[0] != '['
  {
    var s, h := ToString(lib, a), a.hostname;
    assert s[..|h|] == h && s[0] == h[0];
    if h[0] == '[' {
      forall n | |h| <= n < |s| ensures s[n] != ']' {
        NoBracketInPort(h, a.port, n);
      }
    } else if ':' in h {
      var k :| 0 <= k < |h| && h[k] == ':';
      assert s[k] == ':';
      assert Find(s, ':', 0) <= k;
    } else {
      PlainHostParsed(lib, Cleared(), h, Decimal(a.port));
      PortRoundTrip(a.port);
    }
  }

  /** What follows the host holds no bracket, so a closing one encloses less than the host. */
  lemma NoBracketInPort(host: string, port: UInt16, n: nat)
    requires |host| <= n < |host + ":" + Decimal(port)|
    ensures (host + ":" + Decimal(port))[n] != ']'
  {
    if |host| < n {
      var c := Decimal(port)[n - |host| - 1];
      assert c in Decimal(port);
      assert (host + ":" + Decimal(port))[n] == c;
    }
  }

  // ----- sockaddr -----

  const AF_UNSPEC: int := 0
  const AF_INET: int := 2

  /** sin_port and sin_addr.s_addr hold what they hold in memory, in network order. */
  datatype SockAddrIn = SockAddrIn(family: int, port: UInt16, addr: UInt32)

  /** The family is AF_INET whatever the address; a byte of IPv6 is taken for one of IPv4. */
  function ToSockAddr(a: Address): SockAddrIn {
    SockAddrIn(AF_INET, Swap16(a.port), if IsAny(a.ip) then 0 else Load32(UnionAsIn4(a.ip)))
  }

  function FromSockAddr(a: Address, s: SockAddrIn): (Address, bool) {
    if s.family != AF_INET then (a, false)
    else (a.(ip := FromHostOrder(Swap32(s.addr)), port := Swap16(s.port), literal := false), true)
  }

  /** The trip through sockaddr_in always recovers the port, and the address exactly if it is IPv4. */
  lemma SockAddrRoundTripIff(a: Address, target: Address)
    ensures var (b, ok) := FromSockAddr(target, ToSockAddr(a));
            ok && b.port == a.port && b.hostname == target.hostname && (b.ip == a.ip <==> a.ip.V4?)
  {
    Swap16Twice(a.port);
    if a.ip.V4? {
      HostOrderRoundTrip(a.ip.ipv4);
      AnyIsZero(a.ip.ipv4);
    }
  }

  /** In memory the structure holds the port and the address as they go over the network. */
  lemma SockAddrHoldsNetworkBytes(a: Address)
    ensures var s := ToSockAddr(a);
            && s.family == AF_INET && Store16(s.port) == [a.port / 0x100, a.port % 0x100]
            && (a.ip.V4? ==> Store32(s.addr) == a.ip.ipv4)
            && (a.ip.V6? ==> Store32(s.addr) == if IsAny(a.ip) then [0, 0, 0, 0] else a.ip.ipv6[..4])
            && (a.ip.Unspec? ==> Store32(s.addr) == [0, 0, 0, 0])
  {
    NetworkOrder16(a.port);
    StoreLoad(UnionAsIn4(a.ip));
    if a.ip.V4? {
      AnyIsZero(a.ip.ipv4);
    }
    assert Store32(0) == [0, 0, 0, 0];
  }

  datatype SockAddrStorage =
    | Storage4(port: UInt16, addr: UInt32)
    | Storage6(port: UInt16, addr6: In6, scopeId: int)
    | StorageOther

  function ToSockAddrStorage(a: Address): SockAddrStorage {
    match a.ip
    case V4(b) => Storage4(Swap16(a.port), Load32(b))
    case V6(b) => Storage6(Swap16(a.port), b, a.scopeId)
    case Unspec => StorageOther
  }

  lemma StorageHoldsNetworkBytes(a: Address)
    ensures var s := ToSockAddrStorage(a);
            && (a.ip.V4? ==> s.Storage4? && Store32(s.addr) == a.ip.ipv4)
            && (a.ip.V6? ==> s == Storage6(s.port, a.ip.ipv6, a.scopeId))
            && (!a.ip.Unspec? ==> Store16(s.port) == [a.port / 0x100, a.port % 0x100])
            && (a.ip.Unspec? ==> s == StorageOther)
  {
    NetworkOrder16(a.port);
    if a.ip.V4? {
      StoreLoad(a.ip.ipv4);
    }
  }

  /** SocketAddressFromSockAddrStorage: the address and port it assigns, or nothing if it returns false. */
  function FromSockAddrStorage(s: SockAddrStorage): Option<(IPAddress, UInt16)> {
    match s
    case Storage4(port, addr) => Some((FromHostOrder(addr), Swap16(port)))
    case Storage6(port, addr6, _) => Some((V6(addr6), Swap16(port)))
    case StorageOther => None
  }

  /**
   The trip through sockaddr_storage recovers IPv6 addresses and every port, but reverses the bytes of IPv4
   addresses: it recovers exactly those that read the same backwards.
   */
  lemma StorageRoundTripIff(a: Address)
    ensures var r := FromSockAddrStorage(ToSockAddrStorage(a));
            && (r.None? <==> a.ip.Unspec?)
            && (r.Some? ==> r.value.1 == a.port)
            && (a.ip.V6? ==> r.value.0 == a.ip)
            && (a.ip.V4? ==>
                  var b := a.ip.ipv4;
                  && r.value.0 == V4([b[3], b[2], b[1], b[0]])
                  && (r.value.0 == a.ip <==> b[0] == b[3] && b[1] == b[2]))
  {
    Swap16Twice(a.port);
    if a.ip.V4? {
      var b := a.ip.ipv4;
      SwapLoad(b);
      StoreLoad([b[3], b[2], b[1], b[0]]);
      assert [b[3], b[2], b[1], b[0]] == b <==> b[0] == b[3] && b[1] == b[2];
    }
  }

  // ----- the class -----

  datatype ParseOutcome = Returned(ok: bool) | Thrown

  class SocketAddress {
    var hostname: string
    var ip: IPAddress
    var port: UInt16
    var scopeId: int
    var literal: bool

    constructor ()
      ensures View() == Cleared()
    {
      hostname, ip, port, scopeId, literal := "", Unspec, 0, 0, false;
    }

    /** Leaves the scope id and the literal flag as they happen to be. */
    constructor FromParts(ip: IPAddress, port: int)
      ensures View() == Address("", ip, port % 0x1_0000, scopeId, literal)
    {
      hostname, this.ip, this.port := "", ip, port % 0x1_0000;
    }

    function View(): Address
      reads this
    {
      Address(hostname, ip, port, scopeId, literal)
    }

    method Clear()
      modifies this
      ensures View() == Cleared()
    {
      hostname, ip, port, scopeId, literal := "", Unspec, 0, 0, false;
    }

    method SetHost(lib: Inet, text: string)
      modifies this`hostname, this`ip, this`literal
      ensures View() == WithHost(lib, old(View()), text)
    {
      hostname := text;
      ip := IpFromString(lib, text);
      literal := ip != Unspec;
      if !literal {
        ip := Unspec;
      }
    }

    /** The conversion to uint16_t. */
    method SetPort(newPort: int)
      modifies this`port
      ensures View() == old(View()).(port := newPort % 0x1_0000)
    {
      port := newPort % 0x1_0000;
    }

    method FromString(lib: Inet, s: string) returns (r: ParseOutcome)
      modifies this
      ensures s == "" ==> r == Thrown && View() == old(View())
      ensures s != "" ==> r.Returned? && (View(), r.ok) == Parsed(lib, old(View()), s)
    {
      if s == "" {
        return Thrown;
      }
      if s[0] == '[' {
        var close := Find(s, ']', 0);
        if close != |s| {
          var pos := Find(s, ':', close);
          if pos == |s| {
            return Returned(false);
          }
          SetPort(Strtoul(s[pos + 1..]));
          SetHost(lib, s[1..close]);
        }
      } else {
        var pos := Find(s, ':', 0);
        if pos == |s| {
          return Returned(false);
        }
        SetPort(Strtoul(s[pos + 1..]));
        SetHost(lib, s[..pos]);
      }
      return Returned(true);
    }

    method FillSockAddr() returns (s: SockAddrIn)
      ensures s == ToSockAddr(View())
    {
      s := SockAddrIn(0, 0, 0);
      if !ip.V4? {
        s := s.(family := AF_UNSPEC);
      }
      s := s.(family := AF_INET, port := Swap16(port));
      if IsAny(ip) {
        s := s.(addr := 0);
      } else {
        s := s.(addr := Load32(UnionAsIn4(ip)));
      }
    }

    method AssignSockAddr(s: SockAddrIn) returns (ok: bool)
      modifies this
      ensures (View(), ok) == FromSockAddr(old(View()), s)
    {
      if s.family != AF_INET {
        return false;
      }
      ip := FromHostOrder(Swap32(s.addr));
      SetPort(Swap16(s.port));
      literal := false;
      return true;
    }
  }
}
