/** The address policy against the special-purpose blocks of RFC 6890. */
module SpecialPurposeBlocks {
  import opened Bits
  import opened AddressPolicy
  import opened PrefixTables

  /** Every table row really is one aligned block of its stated prefix length. */
  lemma V4RowsArePrefixes(i: nat)
    requires i < V4_ENTRIES
    ensures V4Entry(i).IsPrefix(32)
  {
    hide Pow2;
    SmallPowers();
    MediumPowers();
    WordPowers();
  }

  lemma EarlyRowsArePrefixes(i: nat)
    requires i < 9
    ensures V6OwnEntry(i).IsPrefix(128)
  {
    hide Pow2;
    SmallPowers();
    WordPowers();
    LargePowers();
    HugePowers();
  }

  lemma MiddleRowsArePrefixes(i: nat)
    requires 9 <= i < 17
    ensures V6OwnEntry(i).IsPrefix(128)
  {
    hide Pow2;
    SmallPowers();
    WordPowers();
    LargePowers();
  }

  lemma LateRowsArePrefixes(i: nat)
    requires 17 <= i < V6_OWN_ENTRIES
    ensures V6OwnEntry(i).IsPrefix(128)
  {
    hide Pow2;
    LargePowers();
    HugePowers();
  }

  lemma V6OwnRowsArePrefixes(i: nat)
    requires i < V6_OWN_ENTRIES
    ensures V6OwnEntry(i).IsPrefix(128)
  {
    hide V6OwnEntry;
    if i < 9 {
      EarlyRowsArePrefixes(i);
    } else if i < 17 {
      MiddleRowsArePrefixes(i);
    } else {
      LateRowsArePrefixes(i);
    }
  }

  lemma EmbeddedRowIsPrefix(entry: Entry, blocks: nat, verdict: Classification)
    requires entry.IsPrefix(32)
    ensures Embed(entry, blocks * 0x1_0000_0000, verdict).IsPrefix(128)
  {
    hide Pow2;
    WordPowers();
    PowerSum(32 - entry.length, entry.length);
    BlockAligned(entry.first, Pow2(32 - entry.length), Pow2(entry.length), blocks);
    assert 128 - (96 + entry.length) == 32 - entry.length;
  }

  lemma BlockAligned(first: nat, size: nat, rest: nat, blocks: nat)
    requires size > 0 && first % size == 0
    ensures (blocks * (size * rest) + first) % size == 0
  {
    var q := first / size;
    assert blocks * (size * rest) == (blocks * rest) * size;
    assert first == q * size;
    Distribute(blocks * rest, q, size);
    RemainderOf(size, blocks * rest + q, 0);
  }

  /** All 58 rows of the IPv6 table, the two embedded IPv4 blocks included, are prefixes. */
  lemma V6RowsArePrefixes(i: nat)
    requires i < V6_ENTRIES
    ensures V6Entry(i).IsPrefix(128)
  {
    hide V4Entry, V6OwnEntry;
    if i < 24 {
      V6OwnRowsArePrefixes(i);
    } else {
      var j := if i < 41 then i - 24 else i - 41;
      V4RowsArePrefixes(j);
      EmbeddedRowIsPrefix(V4Entry(j), 0xffff, V6Entry(i).verdict);
      EmbeddedRowIsPrefix(V4Entry(j), 0x0064_ff9b_0000_0000_0000_0000, V6Entry(i).verdict);
    }
  }

  /** The public IPv4 addresses are exactly those outside the sixteen listed blocks. */
  lemma PublicIpv4IsComplementOfBlocks(address: Ipv4Addr)
    ensures ClassifyIpv4(address) == Public <==> forall j: nat | j < 16 :: !V4Entry(j).Covers(address.Value())
  {
    hide V4Entry, V4Row, ClassifyIpv4;
    var v := address.Value();
    V4RowIsLongest(v);
    V4RowDecides(address);
    OnlyDefaultRowIsPublic(V4Row(v));
    forall j: nat | j < 16 && V4Entry(j).Covers(v) ensures V4Row(v) < 16 {
      V4RowIsFirst(v, j);
    }
  }

  lemma OnlyDefaultRowIsPublic(i: nat)
    requires i < V4_ENTRIES
    ensures V4Entry(i).verdict == Public <==> i == 16
  {
  }

  /** Allowed, every address is permitted; by default exactly those whose longest prefix in the tables is public. */
  lemma PermissionIsExact(address: IpAddr)
    ensures IsIpPermitted(address, true)
    ensures match address
      case V4(v4) =>
        IsIpPermitted(address, false) <==> forall j: nat | j < 16 :: !V4Entry(j).Covers(v4.Value())
      case V6(v6) =>
        IsIpPermitted(address, false) <==> exists i: nat :: LongestV6(v6.Value(), i) && V6Entry(i).verdict == Public
  {
    hide V4Entry, V6Entry, ClassifyIpv4, ClassifyIpv6, LongestV6;
    match address {
      case V4(v4) => PublicIpv4IsComplementOfBlocks(v4);
      case V6(v6) => Ipv6DecisionListIsLongestPrefix(v6);
    }
  }

  /** The IPv4 blocks that section 2.2.2 of RFC 6890 marks as not global. */
  predicate Rfc6890NotGlobalIpv4(v: nat) {
    || v <= 0x00ff_ffff                      // 0.0.0.0/8
    || 0x0a00_0000 <= v <= 0x0aff_ffff       // 10.0.0.0/8
    || 0x6440_0000 <= v <= 0x647f_ffff       // 100.64.0.0/10
    || 0x7f00_0000 <= v <= 0x7fff_ffff       // 127.0.0.0/8
    || 0xa9fe_0000 <= v <= 0xa9fe_ffff       // 169.254.0.0/16
    || 0xac10_0000 <= v <= 0xac1f_ffff       // 172.16.0.0/12
    || 0xc000_0000 <= v <= 0xc000_00ff       // 192.0.0.0/24
    || 0xc000_0200 <= v <= 0xc000_02ff       // 192.0.2.0/24
    || 0xc0a8_0000 <= v <= 0xc0a8_ffff       // 192.168.0.0/16
    || 0xc612_0000 <= v <= 0xc613_ffff       // 198.18.0.0/15
    || 0xc633_6400 <= v <= 0xc633_64ff       // 198.51.100.0/24
    || 0xcb00_7100 <= v <= 0xcb00_71ff       // 203.0.113.0/24
    || 0xf000_0000 <= v <= 0xffff_ffff       // 240.0.0.0/4 and 255.255.255.255/32
  }

  /** No IPv4 address of a block marked not global is ever permitted by default. */
  lemma NotGlobalIpv4IsDenied(address: Ipv4Addr)
    requires Rfc6890NotGlobalIpv4(address.Value())
    ensures !IsIpPermitted(IpAddr.V4(address), false)
  {
    V4RowDecides(address);
    V4RowVerdict(address.Value());
  }

  /** The IPv6 blocks that section 2.2.3 of RFC 6890 marks as not global. */
  predicate Rfc6890NotGlobalIpv6(v: nat) {
    || v <= 1                                                                                    // ::/128, ::1/128
    || MAPPED <= v < MAPPED + 0x1_0000_0000                                                      // ::ffff:0:0/96
    || 0x0100_0000_0000_0000_0000_0000_0000_0000 <= v <= 0x0100_0000_0000_0000_ffff_ffff_ffff_ffff  // 100::/64
    || 0x2001_0000_0000_0000_0000_0000_0000_0000 <= v <= 0x2001_01ff_ffff_ffff_ffff_ffff_ffff_ffff  // 2001::/23
    || 0x2001_0db8_0000_0000_0000_0000_0000_0000 <= v <= 0x2001_0db8_ffff_ffff_ffff_ffff_ffff_ffff  // 2001:db8::/32
    || 0xfc00_0000_0000_0000_0000_0000_0000_0000 <= v <= 0xfdff_ffff_ffff_ffff_ffff_ffff_ffff_ffff  // fc00::/7
    || 0xfe80_0000_0000_0000_0000_0000_0000_0000 <= v <= 0xfebf_ffff_ffff_ffff_ffff_ffff_ffff_ffff  // fe80::/10
  }

  predicate IsMappedPublic(address: Ipv6Addr) {
    IsIpv4Mapped(address) && IsIpPermitted(IpAddr.V4(address.Embedded()), false)
  }

  /**
   * In a block marked not global, an IPv6 address is permitted by default exactly when it maps a public
   * IPv4 address or is one of the listed exceptions inside 2001::/23.
   */
  lemma NotGlobalIpv6IsDeniedExactly(address: Ipv6Addr)
    requires Rfc6890NotGlobalIpv6(address.Value())
    ensures IsIpPermitted(IpAddr.V6(address), false)
      <==> IsMappedPublic(address) || IsListedException(address.Value())
  {
    EmbeddedAddresses(address);
    if IsIpv4Mapped(address) {
      hide ClassifyIpv4, Rfc6890NotGlobalIpv6;
    } else {
      UnmappedNotGlobalIpv6(address);
      hide ClassifyIpv6, Rfc6890NotGlobalIpv6, IsListedException;
    }
  }

  lemma UnmappedNotGlobalIpv6(address: Ipv6Addr)
    requires Rfc6890NotGlobalIpv6(address.Value()) && !IsIpv4Mapped(address)
    ensures ClassifyIpv6(address) == Public <==> IsListedException(address.Value())
  {
    hide ClassifyIpv6, V4Entry, V4Row, V6OwnEntry, V6OwnRow, IsIpv4Mapped;
    V6RowDecides(address);
    EmbeddedAddresses(address);
    V6OwnRowVerdict(address.Value());
  }

  /** The mapped block is marked not global, yet its images of public IPv4 addresses are permitted. */
  lemma MappedPublicAddressIsPermitted()
    ensures var mapped := Ipv6Addr(0, 0, 0, 0, 0, 0xffff, 0x0808, 0x0808);
      Rfc6890NotGlobalIpv6(mapped.Value()) && IsIpPermitted(IpAddr.V6(mapped), false)
  {
    var mapped := Ipv6Addr(0, 0, 0, 0, 0, 0xffff, 0x0808, 0x0808);
    assert mapped.Embedded() == Ipv4Addr(8, 8, 8, 8);
  }

  /** A translated IPv4 address is permitted by default exactly when the embedded address is. */
  lemma TranslatedAddressFollowsEmbedded(address: Ipv6Addr)
    requires TRANSLATED <= address.Value() < TRANSLATED + 0x1_0000_0000
    ensures IsIpPermitted(IpAddr.V6(address), false) <==> IsIpPermitted(IpAddr.V4(address.Embedded()), false)
  {
    hide ClassifyIpv6, ClassifyIpv4, V4Entry, V4Row;
    V6RowDecides(address);
    EmbeddedAddresses(address);
    V4RowDecides(address.Embedded());
  }
}
