/** The address policy as longest-prefix matching over explicit prefix tables. */
module PrefixTables {
  import opened Bits
  import opened AddressPolicy

  /** A prefix of `length` bits, written as the interval of addresses it covers. */
  datatype Entry = Entry(first: nat, last: nat, length: nat, verdict: Classification) {
    predicate Covers(value: nat) {
      first <= value <= last
    }

    /** The interval is one aligned block of 2^(width - length) addresses. */
    predicate IsPrefix(width: nat) {
      && length <= width
      && first % Pow2(width - length) == 0
      && last == first + Pow2(width - length) - 1
    }
  }

  const V4_ENTRIES: nat := 17
  const V6_OWN_ENTRIES: nat := 24
  const V6_ENTRIES: nat := 58

  function V4Entry(i: nat): Entry
    requires i < V4_ENTRIES
  {
    if i == 0 then Entry(0x0000_0000, 0x0000_0000, 32, Unspecified) else  // 0.0.0.0/32
    if i == 1 then Entry(0x7f00_0000, 0x7fff_ffff, 8, Loopback) else  // 127.0.0.0/8
    if i == 2 then Entry(0x0a00_0000, 0x0aff_ffff, 8, Private) else  // 10.0.0.0/8
    if i == 3 then Entry(0xac10_0000, 0xac1f_ffff, 12, Private) else  // 172.16.0.0/12
    if i == 4 then Entry(0xc0a8_0000, 0xc0a8_ffff, 16, Private) else  // 192.168.0.0/16
    if i == 5 then Entry(0xa9fe_0000, 0xa9fe_ffff, 16, LinkLocal) else  // 169.254.0.0/16
    if i == 6 then Entry(0xe000_0000, 0xefff_ffff, 4, Multicast) else  // 224.0.0.0/4
    if i == 7 then Entry(0xffff_ffff, 0xffff_ffff, 32, Broadcast) else  // 255.255.255.255/32
    if i == 8 then Entry(0x6440_0000, 0x647f_ffff, 10, Shared) else  // 100.64.0.0/10
    if i == 9 then Entry(0xc000_0000, 0xc000_01ff, 23, DocumentationOrBenchmark) else  // 192.0.0.0/23
    if i == 10 then Entry(0xc000_0200, 0xc000_02ff, 24, DocumentationOrBenchmark) else  // 192.0.2.0/24
    if i == 11 then Entry(0xc612_0000, 0xc613_ffff, 15, DocumentationOrBenchmark) else  // 198.18.0.0/15
    if i == 12 then Entry(0xc633_0000, 0xc633_ffff, 16, DocumentationOrBenchmark) else  // 198.51.0.0/16
    if i == 13 then Entry(0xcb00_7100, 0xcb00_71ff, 24, DocumentationOrBenchmark) else  // 203.0.113.0/24
    if i == 14 then Entry(0x0000_0000, 0x00ff_ffff, 8, Reserved) else  // 0.0.0.0/8
    if i == 15 then Entry(0xf000_0000, 0xffff_ffff, 4, Reserved) else  // 240.0.0.0/4
    Entry(0x0000_0000, 0xffff_ffff, 0, Public)  // 0.0.0.0/0
  }

  function V6OwnEntry(i: nat): Entry
    requires i < V6_OWN_ENTRIES
  {
    // ::/128
    if i == 0 then Entry(0x0000_0000_0000_0000_0000_0000_0000_0000, 0x0000_0000_0000_0000_0000_0000_0000_0000,
                         128, Unspecified) else
    // ::1/128
    if i == 1 then Entry(0x0000_0000_0000_0000_0000_0000_0000_0001, 0x0000_0000_0000_0000_0000_0000_0000_0001,
                         128, Loopback) else
    // ff00::/8
    if i == 2 then Entry(0xff00_0000_0000_0000_0000_0000_0000_0000, 0xffff_ffff_ffff_ffff_ffff_ffff_ffff_ffff,
                         8, Multicast) else
    // fc00::/7
    if i == 3 then Entry(0xfc00_0000_0000_0000_0000_0000_0000_0000, 0xfdff_ffff_ffff_ffff_ffff_ffff_ffff_ffff,
                         7, UniqueLocal) else
    // fe80::/10
    if i == 4 then Entry(0xfe80_0000_0000_0000_0000_0000_0000_0000, 0xfebf_ffff_ffff_ffff_ffff_ffff_ffff_ffff,
                         10, LinkLocal) else
    // fec0::/10
    if i == 5 then Entry(0xfec0_0000_0000_0000_0000_0000_0000_0000, 0xfeff_ffff_ffff_ffff_ffff_ffff_ffff_ffff,
                         10, DeprecatedSiteLocal) else
    // 64:ff9b:1::/48
    if i == 6 then Entry(0x0064_ff9b_0001_0000_0000_0000_0000_0000, 0x0064_ff9b_0001_ffff_ffff_ffff_ffff_ffff,
                         48, LocalTranslation) else
    // 100::/64
    if i == 7 then Entry(0x0100_0000_0000_0000_0000_0000_0000_0000, 0x0100_0000_0000_0000_ffff_ffff_ffff_ffff,
                         64, DiscardOnly) else
    // 100:0:0:1::/64
    if i == 8 then Entry(0x0100_0000_0000_0001_0000_0000_0000_0000, 0x0100_0000_0000_0001_ffff_ffff_ffff_ffff,
                         64, Dummy) else
    // 2001:2::/48
    if i == 9 then Entry(0x2001_0002_0000_0000_0000_0000_0000_0000, 0x2001_0002_0000_ffff_ffff_ffff_ffff_ffff,
                         48, Benchmark) else
    // 2001:db8::/32
    if i == 10 then Entry(0x2001_0db8_0000_0000_0000_0000_0000_0000, 0x2001_0db8_ffff_ffff_ffff_ffff_ffff_ffff,
                          32, Documentation) else
    // 3fff::/20
    if i == 11 then Entry(0x3fff_0000_0000_0000_0000_0000_0000_0000, 0x3fff_0fff_ffff_ffff_ffff_ffff_ffff_ffff,
                          20, Documentation) else
    // 5f00::/16
    if i == 12 then Entry(0x5f00_0000_0000_0000_0000_0000_0000_0000, 0x5f00_ffff_ffff_ffff_ffff_ffff_ffff_ffff,
                          16, SpecialUse) else
    // 2001:1::1/128
    if i == 13 then Entry(0x2001_0001_0000_0000_0000_0000_0000_0001, 0x2001_0001_0000_0000_0000_0000_0000_0001,
                          128, Public) else
    // 2001:1::2/128
    if i == 14 then Entry(0x2001_0001_0000_0000_0000_0000_0000_0002, 0x2001_0001_0000_0000_0000_0000_0000_0002,
                          128, Public) else
    // 2001:1::3/128
    if i == 15 then Entry(0x2001_0001_0000_0000_0000_0000_0000_0003, 0x2001_0001_0000_0000_0000_0000_0000_0003,
                          128, Public) else
    // 2001:3::/32
    if i == 16 then Entry(0x2001_0003_0000_0000_0000_0000_0000_0000, 0x2001_0003_ffff_ffff_ffff_ffff_ffff_ffff,
                          32, Public) else
    // 2001:4:112::/48
    if i == 17 then Entry(0x2001_0004_0112_0000_0000_0000_0000_0000, 0x2001_0004_0112_ffff_ffff_ffff_ffff_ffff,
                          48, Public) else
    // 2001:20::/28
    if i == 18 then Entry(0x2001_0020_0000_0000_0000_0000_0000_0000, 0x2001_002f_ffff_ffff_ffff_ffff_ffff_ffff,
                          28, Public) else
    // 2001:30::/28
    if i == 19 then Entry(0x2001_0030_0000_0000_0000_0000_0000_0000, 0x2001_003f_ffff_ffff_ffff_ffff_ffff_ffff,
                          28, Public) else
    // 2001::/23
    if i == 20 then Entry(0x2001_0000_0000_0000_0000_0000_0000_0000, 0x2001_01ff_ffff_ffff_ffff_ffff_ffff_ffff,
                          23, SpecialUse) else
    // 2002::/16
    if i == 21 then Entry(0x2002_0000_0000_0000_0000_0000_0000_0000, 0x2002_ffff_ffff_ffff_ffff_ffff_ffff_ffff,
                          16, Transition) else
    // 2000::/3
    if i == 22 then Entry(0x2000_0000_0000_0000_0000_0000_0000_0000, 0x3fff_ffff_ffff_ffff_ffff_ffff_ffff_ffff,
                          3, Public) else
    Entry(0x0000_0000_0000_0000_0000_0000_0000_0000, 0xffff_ffff_ffff_ffff_ffff_ffff_ffff_ffff, 0, Reserved)  // ::/0
  }

  /** The IPv4 table moved below a 96-bit IPv6 prefix. */
  function Embed(entry: Entry, network: nat, verdict: Classification): Entry {
    Entry(network + entry.first, network + entry.last, 96 + entry.length, verdict)
  }

  const MAPPED: nat := 0x0000_ffff_0000_0000
  const TRANSLATED: nat := 0x0064_ff9b_0000_0000_0000_0000_0000_0000

  /** Own prefixes, then the IPv4-mapped block, then the well-known translation block. */
  function V6Entry(i: nat): Entry
    requires i < V6_ENTRIES
  {
    if i < 24 then V6OwnEntry(i)
    else if i < 41 then Embed(V4Entry(i - 24), MAPPED, V4Entry(i - 24).verdict)
    else
      var entry := V4Entry(i - 41);
      Embed(entry, TRANSLATED, if entry.verdict == Public then Public else TranslationNonPublic)
  }

  ghost predicate LongestV4(value: nat, i: nat) {
    && i < V4_ENTRIES && V4Entry(i).Covers(value)
    && forall j: nat | j < V4_ENTRIES && j != i && V4Entry(j).Covers(value) :: V4Entry(j).length < V4Entry(i).length
  }

  ghost predicate LongestV6(value: nat, i: nat) {
    && i < V6_ENTRIES && V6Entry(i).Covers(value)
    && forall j: nat | j < V6_ENTRIES && j != i && V6Entry(j).Covers(value) :: V6Entry(j).length < V6Entry(i).length
  }

  /** The first IPv4 row that covers a value. */
  function V4Row(value: nat): nat {
    if value == 0x0000_0000 then 0 else
    if 0x7f00_0000 <= value <= 0x7fff_ffff then 1 else
    if 0x0a00_0000 <= value <= 0x0aff_ffff then 2 else
    if 0xac10_0000 <= value <= 0xac1f_ffff then 3 else
    if 0xc0a8_0000 <= value <= 0xc0a8_ffff then 4 else
    if 0xa9fe_0000 <= value <= 0xa9fe_ffff then 5 else
    if 0xe000_0000 <= value <= 0xefff_ffff then 6 else
    if value == 0xffff_ffff then 7 else
    if 0x6440_0000 <= value <= 0x647f_ffff then 8 else
    if 0xc000_0000 <= value <= 0xc000_01ff then 9 else
    if 0xc000_0200 <= value <= 0xc000_02ff then 10 else
    if 0xc612_0000 <= value <= 0xc613_ffff then 11 else
    if 0xc633_0000 <= value <= 0xc633_ffff then 12 else
    if 0xcb00_7100 <= value <= 0xcb00_71ff then 13 else
    if 0x0000_0000 <= value <= 0x00ff_ffff then 14 else
    if 0xf000_0000 <= value <= 0xffff_ffff then 15 else
    16
  }

  lemma V4RowIsFirst(value: nat, j: nat)
    requires value < 0x1_0000_0000 && j < V4_ENTRIES && V4Entry(j).Covers(value)
    ensures V4Row(value) <= j && V4Entry(V4Row(value)).Covers(value)
  {
  }

  /** Each octet test of the decision list is an interval of values. */
  lemma LeadingOctetTests(address: Ipv4Addr)
    ensures var v, a := address.Value(), address.a;
      && (a == 0 <==> v <= 0x00ff_ffff)
      && (a == 10 <==> 0x0a00_0000 <= v <= 0x0aff_ffff)
      && (a == 127 <==> 0x7f00_0000 <= v <= 0x7fff_ffff)
      && (224 <= a <= 239 <==> 0xe000_0000 <= v <= 0xefff_ffff)
      && (a >= 240 <==> 0xf000_0000 <= v)
  {
  }

  lemma TwoOctetTests(address: Ipv4Addr)
    ensures var v, a, b := address.Value(), address.a, address.b;
      && (a == 100 && 64 <= b <= 127 <==> 0x6440_0000 <= v <= 0x647f_ffff)
      && (a == 169 && b == 254 <==> 0xa9fe_0000 <= v <= 0xa9fe_ffff)
      && (a == 172 && 16 <= b <= 31 <==> 0xac10_0000 <= v <= 0xac1f_ffff)
      && (a == 192 && b == 168 <==> 0xc0a8_0000 <= v <= 0xc0a8_ffff)
      && (a == 198 && (b == 18 || b == 19) <==> 0xc612_0000 <= v <= 0xc613_ffff)
      && (a == 198 && b == 51 <==> 0xc633_0000 <= v <= 0xc633_ffff)
  {
  }

  lemma FullAddressTests(address: Ipv4Addr)
    ensures var v := address.Value(); var Ipv4Addr(a, b, c, d) := address;
      && (a == 0 && b == 0 && c == 0 && d == 0 <==> v == 0)
      && (a == 192 && b == 0 && c <= 2 <==> 0xc000_0000 <= v <= 0xc000_02ff)
      && (a == 203 && b == 0 && c == 113 <==> 0xcb00_7100 <= v <= 0xcb00_71ff)
      && (a == 255 && b == 255 && c == 255 && d == 255 <==> v == 0xffff_ffff)
  {
  }

  lemma V4RowDecides(address: Ipv4Addr)
    ensures V4Row(address.Value()) < V4_ENTRIES
    ensures V4Entry(V4Row(address.Value())).verdict == ClassifyIpv4(address)
  {
    LeadingOctetTests(address);
    TwoOctetTests(address);
    FullAddressTests(address);
    V4RowVerdict(address.Value());
  }

  /** The verdict of the deciding row, by value alone. */
  lemma V4RowVerdict(v: nat)
    requires v < 0x1_0000_0000
    ensures V4Entry(V4Row(v)).verdict ==
      if v == 0 then Unspecified
      else if 0x7f00_0000 <= v <= 0x7fff_ffff then Loopback
      else if 0x0a00_0000 <= v <= 0x0aff_ffff || 0xac10_0000 <= v <= 0xac1f_ffff || 0xc0a8_0000 <= v <= 0xc0a8_ffff then
        Private
      else if 0xa9fe_0000 <= v <= 0xa9fe_ffff then LinkLocal
      else if 0xe000_0000 <= v <= 0xefff_ffff then Multicast
      else if v == 0xffff_ffff then Broadcast
      else if 0x6440_0000 <= v <= 0x647f_ffff then Shared
      else if 0xc000_0000 <= v <= 0xc000_02ff || 0xc612_0000 <= v <= 0xc613_ffff || 0xc633_0000 <= v <= 0xc633_ffff
           || 0xcb00_7100 <= v <= 0xcb00_71ff then DocumentationOrBenchmark
      else if v <= 0x00ff_ffff || 0xf000_0000 <= v then Reserved
      else Public
  {
  }

  lemma V4Nested(i: nat, j: nat)
    requires i < j < V4_ENTRIES
    ensures V4Entry(j).length < V4Entry(i).length
         || V4Entry(i).last < V4Entry(j).first || V4Entry(j).last < V4Entry(i).first
  {
  }

  lemma PowerProduct(m: nat, n: nat, p: nat, q: nat, r: nat)
    requires Pow2(m) == p && Pow2(n) == q && r == p * q
    ensures Pow2(m + n) == r
  {
    PowerSum(m, n);
  }

  lemma SmallPowers()
    ensures Pow2(0) == 0x1
    ensures Pow2(1) == 0x2
    ensures Pow2(2) == 0x4
    ensures Pow2(4) == 0x10
    ensures Pow2(5) == 0x20
    ensures Pow2(6) == 0x40
    ensures Pow2(8) == 0x100
    ensures Pow2(9) == 0x200
  {
    assert Pow2(1) == 2;
    assert Pow2(2) == 4;
    PowerProduct(2, 2, 0x4, 0x4, 0x10);
    PowerProduct(4, 1, 0x10, 0x2, 0x20);
    PowerProduct(4, 2, 0x10, 0x4, 0x40);
    PowerProduct(4, 4, 0x10, 0x10, 0x100);
    PowerProduct(8, 1, 0x100, 0x2, 0x200);
  }

  lemma MediumPowers()
    ensures Pow2(15) == 0x8000
    ensures Pow2(16) == 0x0001_0000
    ensures Pow2(17) == 0x0002_0000
    ensures Pow2(20) == 0x0010_0000
    ensures Pow2(22) == 0x0040_0000
  {
    SmallPowers();
    PowerProduct(9, 6, 0x200, 0x40, 0x8000);
    PowerProduct(8, 8, 0x100, 0x100, 0x0001_0000);
    PowerProduct(16, 1, 0x0001_0000, 0x2, 0x0002_0000);
    PowerProduct(16, 4, 0x0001_0000, 0x10, 0x0010_0000);
    PowerProduct(16, 6, 0x0001_0000, 0x40, 0x0040_0000);
  }

  lemma WordPowers()
    ensures Pow2(24) == 0x0100_0000
    ensures Pow2(28) == 0x1000_0000
    ensures Pow2(32) == 0x0001_0000_0000
    ensures Pow2(64) == 0x0001_0000_0000_0000_0000
    ensures Pow2(96) == 0x0001_0000_0000_0000_0000_0000_0000
  {
    SmallPowers();
    MediumPowers();
    PowerProduct(16, 8, 0x0001_0000, 0x100, 0x0100_0000);
    PowerProduct(24, 4, 0x0100_0000, 0x10, 0x1000_0000);
    PowerProduct(16, 16, 0x0001_0000, 0x0001_0000, 0x0001_0000_0000);
    PowerProduct(32, 32, 0x0001_0000_0000, 0x0001_0000_0000, 0x0001_0000_0000_0000_0000);
    PowerProduct(64, 32, 0x0001_0000_0000_0000_0000, 0x0001_0000_0000, 0x0001_0000_0000_0000_0000_0000_0000);
  }

  lemma LargePowers()
    ensures Pow2(80) == 0x0001_0000_0000_0000_0000_0000
    ensures Pow2(100) == 0x0010_0000_0000_0000_0000_0000_0000
    ensures Pow2(105) == 0x0200_0000_0000_0000_0000_0000_0000
    ensures Pow2(108) == 0x1000_0000_0000_0000_0000_0000_0000
    ensures Pow2(112) == 0x0001_0000_0000_0000_0000_0000_0000_0000
  {
    SmallPowers();
    MediumPowers();
    WordPowers();
    PowerProduct(64, 16, 0x0001_0000_0000_0000_0000, 0x0001_0000, 0x0001_0000_0000_0000_0000_0000);
    PowerProduct(96, 4, 0x0001_0000_0000_0000_0000_0000_0000, 0x10, 0x0010_0000_0000_0000_0000_0000_0000);
    PowerProduct(96, 9, 0x0001_0000_0000_0000_0000_0000_0000, 0x200, 0x0200_0000_0000_0000_0000_0000_0000);
    PowerProduct(100, 8, 0x0010_0000_0000_0000_0000_0000_0000, 0x100, 0x1000_0000_0000_0000_0000_0000_0000);
    PowerProduct(96, 16, 0x0001_0000_0000_0000_0000_0000_0000, 0x0001_0000, 0x0001_0000_0000_0000_0000_0000_0000_0000);
  }

  lemma HugePowers()
    ensures Pow2(118) == 0x0040_0000_0000_0000_0000_0000_0000_0000
    ensures Pow2(120) == 0x0100_0000_0000_0000_0000_0000_0000_0000
    ensures Pow2(121) == 0x0200_0000_0000_0000_0000_0000_0000_0000
    ensures Pow2(125) == 0x2000_0000_0000_0000_0000_0000_0000_0000
    ensures Pow2(128) == 0x0001_0000_0000_0000_0000_0000_0000_0000_0000
  {
    SmallPowers();
    WordPowers();
    LargePowers();
    PowerProduct(112, 6, 0x0001_0000_0000_0000_0000_0000_0000_0000, 0x40, 0x0040_0000_0000_0000_0000_0000_0000_0000);
    PowerProduct(112, 8, 0x0001_0000_0000_0000_0000_0000_0000_0000, 0x100, 0x0100_0000_0000_0000_0000_0000_0000_0000);
    PowerProduct(112, 9, 0x0001_0000_0000_0000_0000_0000_0000_0000, 0x200, 0x0200_0000_0000_0000_0000_0000_0000_0000);
    PowerProduct(120, 5, 0x0100_0000_0000_0000_0000_0000_0000_0000, 0x20, 0x2000_0000_0000_0000_0000_0000_0000_0000);
    PowerProduct(64, 64, 0x0001_0000_0000_0000_0000, 0x0001_0000_0000_0000_0000,
                 0x0001_0000_0000_0000_0000_0000_0000_0000_0000);
  }

  /** The masked comparison of the source holds exactly on the prefix's interval. */
  lemma PrefixTestIsInterval(address: Ipv6Addr, network: Ipv6Addr, length: nat, last: nat)
    requires 1 <= length <= 128
    requires network.Value() % Pow2(128 - length) == 0 && last == network.Value() + Pow2(128 - length) - 1
    ensures Ipv6InPrefix(address, network, length) <==> network.Value() <= address.Value() <= last
  {
    HugePowers();
    MaskedEqualityIsInterval(address.Value(), network.Value(), 128, 128 - length);
  }

  /** The same, of a network and a block size written out. */
  lemma LiteralPrefix(address: Ipv6Addr, network: Ipv6Addr, length: nat, first: nat, size: nat)
    requires 1 <= length <= 128
    requires size > 0 && network.Value() == first && Pow2(128 - length) == size && first % size == 0
    ensures Ipv6InPrefix(address, network, length) <==> first <= address.Value() <= first + size - 1
  {
    hide Ipv6InPrefix, Pow2;
    PrefixTestIsInterval(address, network, length, first + size - 1);
  }

  lemma HugePrefixTests(a: Ipv6Addr)
    ensures var v := a.Value();
      && (Ipv6InPrefix(a, Ipv6Addr(0xfec0, 0, 0, 0, 0, 0, 0, 0), 10)
          <==> 0xfec0_0000_0000_0000_0000_0000_0000_0000 <= v <= 0xfeff_ffff_ffff_ffff_ffff_ffff_ffff_ffff)
      && (Ipv6InPrefix(a, Ipv6Addr(0x2000, 0, 0, 0, 0, 0, 0, 0), 3)
          <==> 0x2000_0000_0000_0000_0000_0000_0000_0000 <= v <= 0x3fff_ffff_ffff_ffff_ffff_ffff_ffff_ffff)
  {
    hide And, ShiftedOnes, Ipv6InPrefix;
    HugePowers();
    LiteralPrefix(a, Ipv6Addr(0xfec0, 0, 0, 0, 0, 0, 0, 0), 10,
                  0xfec0_0000_0000_0000_0000_0000_0000_0000, 0x0040_0000_0000_0000_0000_0000_0000_0000);
    LiteralPrefix(a, Ipv6Addr(0x2000, 0, 0, 0, 0, 0, 0, 0), 3,
                  0x2000_0000_0000_0000_0000_0000_0000_0000, 0x2000_0000_0000_0000_0000_0000_0000_0000);
  }

  lemma LargePrefixTests0(a: Ipv6Addr)
    ensures var v := a.Value();
      && (Ipv6InPrefix(a, Ipv6Addr(0x0064, 0xff9b, 0x0001, 0, 0, 0, 0, 0), 48)
          <==> 0x0064_ff9b_0001_0000_0000_0000_0000_0000 <= v <= 0x0064_ff9b_0001_ffff_ffff_ffff_ffff_ffff)
      && (Ipv6InPrefix(a, Ipv6Addr(0x2001, 0x0002, 0, 0, 0, 0, 0, 0), 48)
          <==> 0x2001_0002_0000_0000_0000_0000_0000_0000 <= v <= 0x2001_0002_0000_ffff_ffff_ffff_ffff_ffff)
  {
    hide And, ShiftedOnes, Ipv6InPrefix;
    LargePowers();
    LiteralPrefix(a, Ipv6Addr(0x0064, 0xff9b, 0x0001, 0, 0, 0, 0, 0), 48,
                  0x0064_ff9b_0001_0000_0000_0000_0000_0000, 0x0001_0000_0000_0000_0000_0000);
    LiteralPrefix(a, Ipv6Addr(0x2001, 0x0002, 0, 0, 0, 0, 0, 0), 48,
                  0x2001_0002_0000_0000_0000_0000_0000_0000, 0x0001_0000_0000_0000_0000_0000);
  }

  lemma LargePrefixTests1(a: Ipv6Addr)
    ensures var v := a.Value();
      && (Ipv6InPrefix(a, Ipv6Addr(0x3fff, 0, 0, 0, 0, 0, 0, 0), 20)
          <==> 0x3fff_0000_0000_0000_0000_0000_0000_0000 <= v <= 0x3fff_0fff_ffff_ffff_ffff_ffff_ffff_ffff)
      && (Ipv6InPrefix(a, Ipv6Addr(0x5f00, 0, 0, 0, 0, 0, 0, 0), 16)
          <==> 0x5f00_0000_0000_0000_0000_0000_0000_0000 <= v <= 0x5f00_ffff_ffff_ffff_ffff_ffff_ffff_ffff)
  {
    hide And, ShiftedOnes, Ipv6InPrefix;
    LargePowers();
    LiteralPrefix(a, Ipv6Addr(0x3fff, 0, 0, 0, 0, 0, 0, 0), 20,
                  0x3fff_0000_0000_0000_0000_0000_0000_0000, 0x1000_0000_0000_0000_0000_0000_0000);
    LiteralPrefix(a, Ipv6Addr(0x5f00, 0, 0, 0, 0, 0, 0, 0), 16,
                  0x5f00_0000_0000_0000_0000_0000_0000_0000, 0x0001_0000_0000_0000_0000_0000_0000_0000);
  }

  lemma LargePrefixTests2(a: Ipv6Addr)
    ensures var v := a.Value();
      && (Ipv6InPrefix(a, Ipv6Addr(0x2001, 0, 0, 0, 0, 0, 0, 0), 23)
          <==> 0x2001_0000_0000_0000_0000_0000_0000_0000 <= v <= 0x2001_01ff_ffff_ffff_ffff_ffff_ffff_ffff)
      && (Ipv6InPrefix(a, Ipv6Addr(0x2002, 0, 0, 0, 0, 0, 0, 0), 16)
          <==> 0x2002_0000_0000_0000_0000_0000_0000_0000 <= v <= 0x2002_ffff_ffff_ffff_ffff_ffff_ffff_ffff)
  {
    hide And, ShiftedOnes, Ipv6InPrefix;
    LargePowers();
    LiteralPrefix(a, Ipv6Addr(0x2001, 0, 0, 0, 0, 0, 0, 0), 23,
                  0x2001_0000_0000_0000_0000_0000_0000_0000, 0x0200_0000_0000_0000_0000_0000_0000);
    LiteralPrefix(a, Ipv6Addr(0x2002, 0, 0, 0, 0, 0, 0, 0), 16,
                  0x2002_0000_0000_0000_0000_0000_0000_0000, 0x0001_0000_0000_0000_0000_0000_0000_0000);
  }

  lemma LargePrefixTests3(a: Ipv6Addr)
    ensures var v := a.Value();
      && (Ipv6InPrefix(a, Ipv6Addr(0x2001, 0x0004, 0x0112, 0, 0, 0, 0, 0), 48)
          <==> 0x2001_0004_0112_0000_0000_0000_0000_0000 <= v <= 0x2001_0004_0112_ffff_ffff_ffff_ffff_ffff)
      && (Ipv6InPrefix(a, Ipv6Addr(0x2001, 0x0020, 0, 0, 0, 0, 0, 0), 28)
          <==> 0x2001_0020_0000_0000_0000_0000_0000_0000 <= v <= 0x2001_002f_ffff_ffff_ffff_ffff_ffff_ffff)
  {
    hide And, ShiftedOnes, Ipv6InPrefix;
    LargePowers();
    LiteralPrefix(a, Ipv6Addr(0x2001, 0x0004, 0x0112, 0, 0, 0, 0, 0), 48,
                  0x2001_0004_0112_0000_0000_0000_0000_0000, 0x0001_0000_0000_0000_0000_0000);
    LiteralPrefix(a, Ipv6Addr(0x2001, 0x0020, 0, 0, 0, 0, 0, 0), 28,
                  0x2001_0020_0000_0000_0000_0000_0000_0000, 0x0010_0000_0000_0000_0000_0000_0000);
  }

  lemma LargePrefixTests4(a: Ipv6Addr)
    ensures var v := a.Value();
      && (Ipv6InPrefix(a, Ipv6Addr(0x2001, 0x0030, 0, 0, 0, 0, 0, 0), 28)
          <==> 0x2001_0030_0000_0000_0000_0000_0000_0000 <= v <= 0x2001_003f_ffff_ffff_ffff_ffff_ffff_ffff)
  {
    hide And, ShiftedOnes, Ipv6InPrefix;
    LargePowers();
    LiteralPrefix(a, Ipv6Addr(0x2001, 0x0030, 0, 0, 0, 0, 0, 0), 28,
                  0x2001_0030_0000_0000_0000_0000_0000_0000, 0x0010_0000_0000_0000_0000_0000_0000);
  }

  lemma WordPrefixTests0(a: Ipv6Addr)
    ensures var v := a.Value();
      && (Ipv6InPrefix(a, Ipv6Addr(0x0064, 0xff9b, 0, 0, 0, 0, 0, 0), 96)
          <==> 0x0064_ff9b_0000_0000_0000_0000_0000_0000 <= v <= 0x0064_ff9b_0000_0000_0000_0000_ffff_ffff)
      && (Ipv6InPrefix(a, Ipv6Addr(0x0100, 0, 0, 0, 0, 0, 0, 0), 64)
          <==> 0x0100_0000_0000_0000_0000_0000_0000_0000 <= v <= 0x0100_0000_0000_0000_ffff_ffff_ffff_ffff)
  {
    hide And, ShiftedOnes, Ipv6InPrefix;
    WordPowers();
    LiteralPrefix(a, Ipv6Addr(0x0064, 0xff9b, 0, 0, 0, 0, 0, 0), 96,
                  0x0064_ff9b_0000_0000_0000_0000_0000_0000, 0x0001_0000_0000);
    LiteralPrefix(a, Ipv6Addr(0x0100, 0, 0, 0, 0, 0, 0, 0), 64,
                  0x0100_0000_0000_0000_0000_0000_0000_0000, 0x0001_0000_0000_0000_0000);
  }

  lemma WordPrefixTests1(a: Ipv6Addr)
    ensures var v := a.Value();
      && (Ipv6InPrefix(a, Ipv6Addr(0x0100, 0, 0, 0x0001, 0, 0, 0, 0), 64)
          <==> 0x0100_0000_0000_0001_0000_0000_0000_0000 <= v <= 0x0100_0000_0000_0001_ffff_ffff_ffff_ffff)
      && (Ipv6InPrefix(a, Ipv6Addr(0x2001, 0x0db8, 0, 0, 0, 0, 0, 0), 32)
          <==> 0x2001_0db8_0000_0000_0000_0000_0000_0000 <= v <= 0x2001_0db8_ffff_ffff_ffff_ffff_ffff_ffff)
  {
    hide And, ShiftedOnes, Ipv6InPrefix;
    WordPowers();
    LiteralPrefix(a, Ipv6Addr(0x0100, 0, 0, 0x0001, 0, 0, 0, 0), 64,
                  0x0100_0000_0000_0001_0000_0000_0000_0000, 0x0001_0000_0000_0000_0000);
    LiteralPrefix(a, Ipv6Addr(0x2001, 0x0db8, 0, 0, 0, 0, 0, 0), 32,
                  0x2001_0db8_0000_0000_0000_0000_0000_0000, 0x0001_0000_0000_0000_0000_0000_0000);
  }

  lemma WordPrefixTests2(a: Ipv6Addr)
    ensures var v := a.Value();
      && (Ipv6InPrefix(a, Ipv6Addr(0x2001, 0x0003, 0, 0, 0, 0, 0, 0), 32)
          <==> 0x2001_0003_0000_0000_0000_0000_0000_0000 <= v <= 0x2001_0003_ffff_ffff_ffff_ffff_ffff_ffff)
  {
    hide And, ShiftedOnes, Ipv6InPrefix;
    WordPowers();
    LiteralPrefix(a, Ipv6Addr(0x2001, 0x0003, 0, 0, 0, 0, 0, 0), 32,
                  0x2001_0003_0000_0000_0000_0000_0000_0000, 0x0001_0000_0000_0000_0000_0000_0000);
  }

  /** The first of the own IPv6 rows that covers a value. */
  function V6OwnRow(value: nat): nat {
    if value == 0x0000_0000_0000_0000_0000_0000_0000_0000 then 0 else
    if value == 0x0000_0000_0000_0000_0000_0000_0000_0001 then 1 else
    if 0xff00_0000_0000_0000_0000_0000_0000_0000 <= value <= 0xffff_ffff_ffff_ffff_ffff_ffff_ffff_ffff then 2 else
    if 0xfc00_0000_0000_0000_0000_0000_0000_0000 <= value <= 0xfdff_ffff_ffff_ffff_ffff_ffff_ffff_ffff then 3 else
    if 0xfe80_0000_0000_0000_0000_0000_0000_0000 <= value <= 0xfebf_ffff_ffff_ffff_ffff_ffff_ffff_ffff then 4 else
    if 0xfec0_0000_0000_0000_0000_0000_0000_0000 <= value <= 0xfeff_ffff_ffff_ffff_ffff_ffff_ffff_ffff then 5 else
    if 0x0064_ff9b_0001_0000_0000_0000_0000_0000 <= value <= 0x0064_ff9b_0001_ffff_ffff_ffff_ffff_ffff then 6 else
    if 0x0100_0000_0000_0000_0000_0000_0000_0000 <= value <= 0x0100_0000_0000_0000_ffff_ffff_ffff_ffff then 7 else
    if 0x0100_0000_0000_0001_0000_0000_0000_0000 <= value <= 0x0100_0000_0000_0001_ffff_ffff_ffff_ffff then 8 else
    if 0x2001_0002_0000_0000_0000_0000_0000_0000 <= value <= 0x2001_0002_0000_ffff_ffff_ffff_ffff_ffff then 9 else
    if 0x2001_0db8_0000_0000_0000_0000_0000_0000 <= value <= 0x2001_0db8_ffff_ffff_ffff_ffff_ffff_ffff then 10 else
    if 0x3fff_0000_0000_0000_0000_0000_0000_0000 <= value <= 0x3fff_0fff_ffff_ffff_ffff_ffff_ffff_ffff then 11 else
    if 0x5f00_0000_0000_0000_0000_0000_0000_0000 <= value <= 0x5f00_ffff_ffff_ffff_ffff_ffff_ffff_ffff then 12 else
    if value == 0x2001_0001_0000_0000_0000_0000_0000_0001 then 13 else
    if value == 0x2001_0001_0000_0000_0000_0000_0000_0002 then 14 else
    if value == 0x2001_0001_0000_0000_0000_0000_0000_0003 then 15 else
    if 0x2001_0003_0000_0000_0000_0000_0000_0000 <= value <= 0x2001_0003_ffff_ffff_ffff_ffff_ffff_ffff then 16 else
    if 0x2001_0004_0112_0000_0000_0000_0000_0000 <= value <= 0x2001_0004_0112_ffff_ffff_ffff_ffff_ffff then 17 else
    if 0x2001_0020_0000_0000_0000_0000_0000_0000 <= value <= 0x2001_002f_ffff_ffff_ffff_ffff_ffff_ffff then 18 else
    if 0x2001_0030_0000_0000_0000_0000_0000_0000 <= value <= 0x2001_003f_ffff_ffff_ffff_ffff_ffff_ffff then 19 else
    if 0x2001_0000_0000_0000_0000_0000_0000_0000 <= value <= 0x2001_01ff_ffff_ffff_ffff_ffff_ffff_ffff then 20 else
    if 0x2002_0000_0000_0000_0000_0000_0000_0000 <= value <= 0x2002_ffff_ffff_ffff_ffff_ffff_ffff_ffff then 21 else
    if 0x2000_0000_0000_0000_0000_0000_0000_0000 <= value <= 0x3fff_ffff_ffff_ffff_ffff_ffff_ffff_ffff then 22 else
    23
  }

  lemma V6OwnRowIsFirst(value: nat, j: nat)
    requires value < 0x1_0000_0000_0000_0000_0000_0000_0000_0000 && j < V6_OWN_ENTRIES && V6OwnEntry(j).Covers(value)
    ensures V6OwnRow(value) <= j && V6OwnEntry(V6OwnRow(value)).Covers(value)
  {
    V6OwnRowIsLeast(value, j);
    V6OwnRowCovers(value);
    hide V6OwnRow, V6OwnEntry;
  }

  lemma V6OwnRowIsLeast(value: nat, j: nat)
    requires j < V6_OWN_ENTRIES && V6OwnEntry(j).Covers(value)
    ensures V6OwnRow(value) <= j
  {
  }

  lemma V6OwnRowCovers(value: nat)
    requires value < 0x1_0000_0000_0000_0000_0000_0000_0000_0000
    ensures V6OwnRow(value) < V6_OWN_ENTRIES && V6OwnEntry(V6OwnRow(value)).Covers(value)
  {
  }

  lemma V6OwnNested(i: nat, j: nat)
    requires i < j < V6_OWN_ENTRIES
    ensures V6OwnEntry(j).length < V6OwnEntry(i).length
         || V6OwnEntry(i).last < V6OwnEntry(j).first || V6OwnEntry(j).last < V6OwnEntry(i).first
  {
  }

  lemma DefaultRowsCoverAll(value: nat)
    ensures value < 0x1_0000_0000 ==> V4Entry(16).Covers(value)
    ensures value < 0x1_0000_0000_0000_0000_0000_0000_0000_0000 ==> V6OwnEntry(23).Covers(value)
  {
  }

  lemma V4RowIsLongest(value: nat)
    requires value < 0x1_0000_0000
    ensures LongestV4(value, V4Row(value))
  {
    hide V4Entry, V4Row;
    DefaultRowsCoverAll(value);
    V4RowIsFirst(value, 16);
    forall j: nat | j < V4_ENTRIES && j != V4Row(value) && V4Entry(j).Covers(value)
      ensures V4Entry(j).length < V4Entry(V4Row(value)).length
    {
      V4RowIsFirst(value, j);
      V4Nested(V4Row(value), j);
    }
  }

  /** The IPv4 decision list is longest-prefix matching in the table, for every address. */
  lemma Ipv4DecisionListIsLongestPrefix(address: Ipv4Addr)
    ensures exists i: nat :: LongestV4(address.Value(), i)
    ensures forall i: nat | LongestV4(address.Value(), i) :: V4Entry(i).verdict == ClassifyIpv4(address)
  {
    V4RowIsLongest(address.Value());
    V4RowDecides(address);
  }

  /** The row of the whole IPv6 table that decides a value. */
  function V6Row(value: nat): (row: nat)
    requires value < 0x1_0000_0000_0000_0000_0000_0000_0000_0000
  {
    if MAPPED <= value < MAPPED + 0x1_0000_0000 then 24 + V4Row(value - MAPPED)
    else if TRANSLATED <= value < TRANSLATED + 0x1_0000_0000 then 41 + V4Row(value - TRANSLATED)
    else V6OwnRow(value)
  }

  lemma V6RowIsLongest(value: nat)
    requires value < 0x1_0000_0000_0000_0000_0000_0000_0000_0000
    ensures LongestV6(value, V6Row(value))
  {
    hide V4Entry, V4Row, V6OwnEntry, V6OwnRow;
    var row := V6Row(value);
    DefaultRowsCoverAll(value);
    V6OwnRowIsFirst(value, 23);
    if MAPPED <= value < MAPPED + 0x1_0000_0000 {
      V4RowIsLongest(value - MAPPED);
    } else if TRANSLATED <= value < TRANSLATED + 0x1_0000_0000 {
      V4RowIsLongest(value - TRANSLATED);
    }
    forall j: nat | j < V6_ENTRIES && j != row && V6Entry(j).Covers(value)
      ensures V6Entry(j).length < V6Entry(row).length
    {
      if j < 24 {
        V6OwnRowIsFirst(value, j);
        if row < 24 {
          V6OwnNested(row, j);
        } else {
          EmbeddedBlocksLieUnderDefaultOnly(value, j);
        }
      } else {
        V4RowsFitTheirBlock(if j < 41 then j - 24 else j - 41);
      }
    }
  }

  lemma V4RowsFitTheirBlock(i: nat)
    requires i < V4_ENTRIES
    ensures V4Entry(i).last < 0x1_0000_0000
  {
  }

  lemma EmbeddedBlocksLieUnderDefaultOnly(value: nat, j: nat)
    requires MAPPED <= value < MAPPED + 0x1_0000_0000 || TRANSLATED <= value < TRANSLATED + 0x1_0000_0000
    requires j < V6_OWN_ENTRIES && V6OwnEntry(j).Covers(value)
    ensures V6OwnEntry(j).length == 0
  {
  }

  /** The masked tests on the leading segment, as intervals of addresses. */
  lemma SegmentMaskTests(a: Ipv6Addr)
    ensures var v := a.Value();
      && (And(a.s0, 0xff00) == 0xff00
          <==> 0xff00_0000_0000_0000_0000_0000_0000_0000 <= v <= 0xffff_ffff_ffff_ffff_ffff_ffff_ffff_ffff)
      && (And(a.s0, 0xfe00) == 0xfc00
          <==> 0xfc00_0000_0000_0000_0000_0000_0000_0000 <= v <= 0xfdff_ffff_ffff_ffff_ffff_ffff_ffff_ffff)
      && (And(a.s0, 0xffc0) == 0xfe80
          <==> 0xfe80_0000_0000_0000_0000_0000_0000_0000 <= v <= 0xfebf_ffff_ffff_ffff_ffff_ffff_ffff_ffff)
  {
    hide And;
    SmallPowers();
    SegmentMask(a.s0, 8, 0x100);
    SegmentMask(a.s0, 9, 0x200);
    SegmentMask(a.s0, 6, 0x40);
  }

  lemma SegmentMask(segment: Segment, shift: nat, block: nat)
    requires shift < 16 && block == Pow2(shift)
    ensures block <= 0x1_0000
    ensures And(segment, 0x1_0000 - block) == segment - segment % block
  {
    MediumPowers();
    MaskClearsLowBits(segment, 16, shift);
  }

  /** The whole-address comparisons, by value. */
  lemma ExactTests(a: Ipv6Addr)
    ensures var v := a.Value();
      && (a == Ipv6Addr(0, 0, 0, 0, 0, 0, 0, 0) <==> v == 0)
      && (a == Ipv6Addr(0, 0, 0, 0, 0, 0, 0, 1) <==> v == 1)
      && (a == Ipv6Addr(0x2001, 0x0001, 0, 0, 0, 0, 0, 0x0001) <==> v == 0x2001_0001_0000_0000_0000_0000_0000_0001)
      && (a == Ipv6Addr(0x2001, 0x0001, 0, 0, 0, 0, 0, 0x0002) <==> v == 0x2001_0001_0000_0000_0000_0000_0000_0002)
      && (a == Ipv6Addr(0x2001, 0x0001, 0, 0, 0, 0, 0, 0x0003) <==> v == 0x2001_0001_0000_0000_0000_0000_0000_0003)
  {
    hide Ipv6Addr.Value;
    OutlierTest(a, Ipv6Addr(0, 0, 0, 0, 0, 0, 0, 0), 0, 0, 0);
    OutlierTest(a, Ipv6Addr(0, 0, 0, 0, 0, 0, 0, 1), 0, 0, 1);
    OutlierTest(a, Ipv6Addr(0x2001, 0x0001, 0, 0, 0, 0, 0, 0x0001), 0x2001, 0x0001, 0x0001);
    OutlierTest(a, Ipv6Addr(0x2001, 0x0001, 0, 0, 0, 0, 0, 0x0002), 0x2001, 0x0001, 0x0002);
    OutlierTest(a, Ipv6Addr(0x2001, 0x0001, 0, 0, 0, 0, 0, 0x0003), 0x2001, 0x0001, 0x0003);
  }

  /** An address with all but its first two and last segments zero. */
  lemma OutlierTest(a: Ipv6Addr, other: Ipv6Addr, s0: Segment, s1: Segment, s7: Segment)
    requires other == Ipv6Addr(s0, s1, 0, 0, 0, 0, 0, s7)
    ensures a == other <==>
      a.Value() == s0 * 0x1_0000_0000_0000_0000_0000_0000_0000 + s1 * 0x1_0000_0000_0000_0000_0000_0000 + s7
  {
    ValueIdentifiesIpv6(a, other);
  }

  /** The leading six segments. */
  function Leading(a: Ipv6Addr): nat {
    ((((a.s0 * 0x1_0000 + a.s1) * 0x1_0000 + a.s2) * 0x1_0000 + a.s3) * 0x1_0000 + a.s4) * 0x1_0000 + a.s5
  }

  lemma ValueOfLeading(a: Ipv6Addr)
    ensures a.Value() == Leading(a) * 0x1_0000_0000 + a.Embedded().Value()
  {
  }

  lemma MappedLeading(a: Ipv6Addr)
    ensures IsIpv4Mapped(a) <==> Leading(a) == 0xffff
  {
    var rest := (((a.s0 * 0x1_0000 + a.s1) * 0x1_0000 + a.s2) * 0x1_0000 + a.s3) * 0x1_0000 + a.s4;
    if Leading(a) == 0xffff {
      SameDigits(rest, a.s5, 0, 0xffff, 0x1_0000);
    }
  }

  lemma BlockOfLeading(leading: nat, low: nat, block: nat)
    requires low < 0x1_0000_0000
    ensures block * 0x1_0000_0000 <= leading * 0x1_0000_0000 + low < block * 0x1_0000_0000 + 0x1_0000_0000
      <==> leading == block
  {
  }

  lemma EmbeddedAddresses(a: Ipv6Addr)
    ensures IsIpv4Mapped(a) <==> MAPPED <= a.Value() < MAPPED + 0x1_0000_0000
    ensures IsIpv4Mapped(a) ==> a.Embedded().Value() == a.Value() - MAPPED
    ensures TRANSLATED <= a.Value() < TRANSLATED + 0x1_0000_0000 ==> a.Embedded().Value() == a.Value() - TRANSLATED
  {
    ValueOfLeading(a);
    MappedLeading(a);
    BlockOfLeading(Leading(a), a.Embedded().Value(), 0xffff);
    BlockOfLeading(Leading(a), a.Embedded().Value(), 0x0064_ff9b_0000_0000_0000_0000);
    hide Leading, IsIpv4Mapped;
  }

  /** The reachable exceptions inside 2001::/23. */
  predicate IsListedException(v: nat) {
    || v == 0x2001_0001_0000_0000_0000_0000_0000_0001
    || v == 0x2001_0001_0000_0000_0000_0000_0000_0002
    || v == 0x2001_0001_0000_0000_0000_0000_0000_0003
    || 0x2001_0003_0000_0000_0000_0000_0000_0000 <= v <= 0x2001_0003_ffff_ffff_ffff_ffff_ffff_ffff
    || 0x2001_0004_0112_0000_0000_0000_0000_0000 <= v <= 0x2001_0004_0112_ffff_ffff_ffff_ffff_ffff
    || 0x2001_0020_0000_0000_0000_0000_0000_0000 <= v <= 0x2001_002f_ffff_ffff_ffff_ffff_ffff_ffff
    || 0x2001_0030_0000_0000_0000_0000_0000_0000 <= v <= 0x2001_003f_ffff_ffff_ffff_ffff_ffff_ffff
  }

  /** The own rows' verdicts, by value alone. */
  lemma V6OwnRowVerdict(v: nat)
    requires v < 0x1_0000_0000_0000_0000_0000_0000_0000_0000
    ensures V6OwnRow(v) < V6_OWN_ENTRIES && V6OwnEntry(V6OwnRow(v)).verdict ==
      if v == 0x0000_0000_0000_0000_0000_0000_0000_0000 then Unspecified
      else if v == 0x0000_0000_0000_0000_0000_0000_0000_0001 then Loopback
      else if 0xff00_0000_0000_0000_0000_0000_0000_0000 <= v <= 0xffff_ffff_ffff_ffff_ffff_ffff_ffff_ffff then Multicast
      else if 0xfc00_0000_0000_0000_0000_0000_0000_0000 <= v <= 0xfdff_ffff_ffff_ffff_ffff_ffff_ffff_ffff then
        UniqueLocal
      else if 0xfe80_0000_0000_0000_0000_0000_0000_0000 <= v <= 0xfebf_ffff_ffff_ffff_ffff_ffff_ffff_ffff then LinkLocal
      else if 0xfec0_0000_0000_0000_0000_0000_0000_0000 <= v <= 0xfeff_ffff_ffff_ffff_ffff_ffff_ffff_ffff then
        DeprecatedSiteLocal
      else if 0x0064_ff9b_0001_0000_0000_0000_0000_0000 <= v <= 0x0064_ff9b_0001_ffff_ffff_ffff_ffff_ffff then
        LocalTranslation
      else if 0x0100_0000_0000_0000_0000_0000_0000_0000 <= v <= 0x0100_0000_0000_0000_ffff_ffff_ffff_ffff then
        DiscardOnly
      else if 0x0100_0000_0000_0001_0000_0000_0000_0000 <= v <= 0x0100_0000_0000_0001_ffff_ffff_ffff_ffff then Dummy
      else if 0x2001_0002_0000_0000_0000_0000_0000_0000 <= v <= 0x2001_0002_0000_ffff_ffff_ffff_ffff_ffff then Benchmark
      else if 0x2001_0db8_0000_0000_0000_0000_0000_0000 <= v <= 0x2001_0db8_ffff_ffff_ffff_ffff_ffff_ffff
           || 0x3fff_0000_0000_0000_0000_0000_0000_0000 <= v <= 0x3fff_0fff_ffff_ffff_ffff_ffff_ffff_ffff then
        Documentation
      else if 0x5f00_0000_0000_0000_0000_0000_0000_0000 <= v <= 0x5f00_ffff_ffff_ffff_ffff_ffff_ffff_ffff then
        SpecialUse
      else if 0x2001_0000_0000_0000_0000_0000_0000_0000 <= v <= 0x2001_01ff_ffff_ffff_ffff_ffff_ffff_ffff then
        if IsListedException(v) then Public else SpecialUse
      else if 0x2002_0000_0000_0000_0000_0000_0000_0000 <= v <= 0x2002_ffff_ffff_ffff_ffff_ffff_ffff_ffff then
        Transition
      else if 0x2000_0000_0000_0000_0000_0000_0000_0000 <= v <= 0x3fff_ffff_ffff_ffff_ffff_ffff_ffff_ffff then Public
      else Reserved
  {
  }

  lemma V6RowDecides(a: Ipv6Addr)
    ensures V6Row(a.Value()) < V6_ENTRIES && V6Entry(V6Row(a.Value())).verdict == ClassifyIpv6(a)
  {
    hide And, Ipv6InPrefix, V4Entry, V4Row, V6OwnEntry, V6OwnRow, ClassifyIpv4;
    var v := a.Value();
    V6RowIsLongest(v);
    EmbeddedAddresses(a);
    V4RowDecides(a.Embedded());
    V6OwnRowVerdict(v);
    ExactTests(a);
    SegmentMaskTests(a);
    HugePrefixTests(a);
    LargePrefixTests0(a);
    LargePrefixTests1(a);
    LargePrefixTests2(a);
    LargePrefixTests3(a);
    LargePrefixTests4(a);
    WordPrefixTests0(a);
    WordPrefixTests1(a);
    WordPrefixTests2(a);
  }

  /** The IPv6 decision list is longest-prefix matching in the table, for every address. */
  lemma Ipv6DecisionListIsLongestPrefix(address: Ipv6Addr)
    ensures exists i: nat :: LongestV6(address.Value(), i)
    ensures forall i: nat | LongestV6(address.Value(), i) :: V6Entry(i).verdict == ClassifyIpv6(address)
  {
    hide V6Entry, V6Row, ClassifyIpv6;
    V6RowIsLongest(address.Value());
    V6RowDecides(address);
  }
}
