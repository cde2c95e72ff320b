/** Classification of network addresses and the default public-target policy (src/policy.rs). */
module AddressPolicy {
  import opened Bits

  type Octet = x: nat | x < 0x100
  type Segment = x: nat | x < 0x1_0000

  datatype Ipv4Addr = Ipv4Addr(a: Octet, b: Octet, c: Octet, d: Octet) {
    function Value(): (v: nat)
      ensures v < 0x1_0000_0000
    {
      a * 0x100_0000 + b * 0x1_0000 + c * 0x100 + d
    }
  }

  datatype Ipv6Addr = Ipv6Addr(s0: Segment, s1: Segment, s2: Segment, s3: Segment,
                               s4: Segment, s5: Segment, s6: Segment, s7: Segment) {
    function Value(): (v: nat)
      ensures v < 0x1_0000_0000_0000_0000_0000_0000_0000_0000
    {
      s0 * 0x1_0000_0000_0000_0000_0000_0000_0000 + s1 * 0x1_0000_0000_0000_0000_0000_0000
      + s2 * 0x1_0000_0000_0000_0000_0000 + s3 * 0x1_0000_0000_0000_0000
      + s4 * 0x1_0000_0000_0000 + s5 * 0x1_0000_0000 + s6 * 0x1_0000 + s7
    }

    /** The last four octets read as an IPv4 address. */
    function Embedded(): (v4: Ipv4Addr)
      ensures v4.Value() == s6 * 0x1_0000 + s7
    {
      Ipv4Addr(s6 / 0x100, s6 % 0x100, s7 / 0x100, s7 % 0x100)
    }
  }

  lemma ValueIdentifiesIpv4(a: Ipv4Addr, b: Ipv4Addr)
    ensures a == b <==> a.Value() == b.Value()
  {
    if a.Value() == b.Value() {
      var x2, y2 := a.a * 0x100 + a.b, b.a * 0x100 + b.b;
      var x3, y3 := x2 * 0x100 + a.c, y2 * 0x100 + b.c;
      SameDigits(x3, a.d, y3, b.d, 0x100);
      SameDigits(x2, a.c, y2, b.c, 0x100);
      SameDigits(a.a, a.b, b.a, b.b, 0x100);
    }
  }

  lemma ValueIdentifiesIpv6(a: Ipv6Addr, b: Ipv6Addr)
    ensures a == b <==> a.Value() == b.Value()
  {
    if a.Value() == b.Value() {
      var x1, y1 := a.s0 * 0x1_0000 + a.s1, b.s0 * 0x1_0000 + b.s1;
      var x2, y2 := x1 * 0x1_0000 + a.s2, y1 * 0x1_0000 + b.s2;
      var x3, y3 := x2 * 0x1_0000 + a.s3, y2 * 0x1_0000 + b.s3;
      var x4, y4 := x3 * 0x1_0000 + a.s4, y3 * 0x1_0000 + b.s4;
      var x5, y5 := x4 * 0x1_0000 + a.s5, y4 * 0x1_0000 + b.s5;
      var x6, y6 := x5 * 0x1_0000 + a.s6, y5 * 0x1_0000 + b.s6;
      SameDigits(x6, a.s7, y6, b.s7, 0x1_0000);
      SameDigits(x5, a.s6, y5, b.s6, 0x1_0000);
      SameDigits(x4, a.s5, y4, b.s5, 0x1_0000);
      SameDigits(x3, a.s4, y3, b.s4, 0x1_0000);
      SameDigits(x2, a.s3, y2, b.s3, 0x1_0000);
      SameDigits(x1, a.s2, y1, b.s2, 0x1_0000);
      SameDigits(a.s0, a.s1, b.s0, b.s1, 0x1_0000);
    }
  }

  datatype IpAddr = V4(v4: Ipv4Addr) | V6(v6: Ipv6Addr)

  datatype Classification =
    | Public
    | Unspecified
    | Loopback
    | Private
    | LinkLocal
    | Multicast
    | Broadcast
    | Shared
    | DocumentationOrBenchmark
    | Reserved
    | UniqueLocal
    | DeprecatedSiteLocal
    | LocalTranslation
    | TranslationNonPublic
    | DiscardOnly
    | Dummy
    | Benchmark
    | Documentation
    | SpecialUse
    | Transition

  function ClassifyIpv4(address: Ipv4Addr): Classification {
    var Ipv4Addr(a, b, c, d) := address;
    if a == 0 && b == 0 && c == 0 && d == 0 then Unspecified
    else if a == 127 then Loopback
    else if a == 10 || (a == 172 && 16 <= b <= 31) || (a == 192 && b == 168) then Private
    else if a == 169 && b == 254 then LinkLocal
    else if 224 <= a <= 239 then Multicast
    else if a == 255 && b == 255 && c == 255 && d == 255 then Broadcast
    else if a == 100 && 64 <= b <= 127 then Shared
    else if (a == 192 && b == 0 && c <= 2)
         || (a == 198 && (b == 18 || b == 19 || b == 51))
         || (a == 203 && b == 0 && c == 113) then DocumentationOrBenchmark
    else if a == 0 || a >= 240 then Reserved
    else Public
  }

  predicate Ipv6InPrefix(address: Ipv6Addr, network: Ipv6Addr, prefixLength: nat)
    requires 1 <= prefixLength <= 128
  {
    var mask := ShiftedOnes(128, 128 - prefixLength);
    And(address.Value(), mask) == And(network.Value(), mask)
  }

  predicate IsIpv4Mapped(address: Ipv6Addr) {
    address.s0 == 0 && address.s1 == 0 && address.s2 == 0 && address.s3 == 0 && address.s4 == 0
    && address.s5 == 0xffff
  }

  function ClassifyIpv6(address: Ipv6Addr): Classification {
    if IsIpv4Mapped(address) then ClassifyIpv4(address.Embedded())
    else if address == Ipv6Addr(0, 0, 0, 0, 0, 0, 0, 0) then Unspecified
    else if address == Ipv6Addr(0, 0, 0, 0, 0, 0, 0, 1) then Loopback
    else if And(address.s0, 0xff00) == 0xff00 then Multicast
    else if And(address.s0, 0xfe00) == 0xfc00 then UniqueLocal
    else if And(address.s0, 0xffc0) == 0xfe80 then LinkLocal
    else if Ipv6InPrefix(address, Ipv6Addr(0xfec0, 0, 0, 0, 0, 0, 0, 0), 10) then DeprecatedSiteLocal
    else if Ipv6InPrefix(address, Ipv6Addr(0x0064, 0xff9b, 0x0001, 0, 0, 0, 0, 0), 48) then LocalTranslation
    else if Ipv6InPrefix(address, Ipv6Addr(0x0064, 0xff9b, 0, 0, 0, 0, 0, 0), 96) then
      if ClassifyIpv4(address.Embedded()) == Public then Public else TranslationNonPublic
    else if Ipv6InPrefix(address, Ipv6Addr(0x0100, 0, 0, 0, 0, 0, 0, 0), 64) then DiscardOnly
    else if Ipv6InPrefix(address, Ipv6Addr(0x0100, 0, 0, 0x0001, 0, 0, 0, 0), 64) then Dummy
    else if Ipv6InPrefix(address, Ipv6Addr(0x2001, 0x0002, 0, 0, 0, 0, 0, 0), 48) then Benchmark
    else if Ipv6InPrefix(address, Ipv6Addr(0x2001, 0x0db8, 0, 0, 0, 0, 0, 0), 32)
         || Ipv6InPrefix(address, Ipv6Addr(0x3fff, 0, 0, 0, 0, 0, 0, 0), 20) then Documentation
    else if Ipv6InPrefix(address, Ipv6Addr(0x5f00, 0, 0, 0, 0, 0, 0, 0), 16) then SpecialUse
    else if Ipv6InPrefix(address, Ipv6Addr(0x2001, 0, 0, 0, 0, 0, 0, 0), 23) then
      if IsGloballyReachableIanaSpecial(address) then Public else SpecialUse
    else if Ipv6InPrefix(address, Ipv6Addr(0x2002, 0, 0, 0, 0, 0, 0, 0), 16) then Transition
    else if Ipv6InPrefix(address, Ipv6Addr(0x2000, 0, 0, 0, 0, 0, 0, 0), 3) then Public
    else Reserved
  }

  predicate IsGloballyReachableIanaSpecial(address: Ipv6Addr) {
    || address == Ipv6Addr(0x2001, 0x0001, 0, 0, 0, 0, 0, 0x0001)
    || address == Ipv6Addr(0x2001, 0x0001, 0, 0, 0, 0, 0, 0x0002)
    || address == Ipv6Addr(0x2001, 0x0001, 0, 0, 0, 0, 0, 0x0003)
    || Ipv6InPrefix(address, Ipv6Addr(0x2001, 0x0003, 0, 0, 0, 0, 0, 0), 32)
    || Ipv6InPrefix(address, Ipv6Addr(0x2001, 0x0004, 0x0112, 0, 0, 0, 0, 0), 48)
    || Ipv6InPrefix(address, Ipv6Addr(0x2001, 0x0020, 0, 0, 0, 0, 0, 0), 28)
    || Ipv6InPrefix(address, Ipv6Addr(0x2001, 0x0030, 0, 0, 0, 0, 0, 0), 28)
  }

  function ClassifyIp(address: IpAddr): Classification {
    match address
    case V4(v4) => ClassifyIpv4(v4)
    case V6(v6) => ClassifyIpv6(v6)
  }

  predicate IsIpPermitted(address: IpAddr, allowPrivate: bool) {
    allowPrivate || ClassifyIp(address) == Public
  }
}
