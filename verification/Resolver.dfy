/** Canonical order of resolver answers and their selection by policy (src/engine.rs, `resolve_addresses`). */
module Resolver {
  import opened AddressPolicy
  import opened Model

  function NumericValue(ip: IpAddr): nat {
    match ip
    case V4(v4) => v4.Value()
    case V6(v6) => v6.Value()
  }

  /** The order of the sort key (is IPv6, address, port). */
  predicate Precedes(a: SocketAddr, b: SocketAddr) {
    if a.ip.V4? != b.ip.V4? then a.ip.V4?
    else if NumericValue(a.ip) != NumericValue(b.ip) then NumericValue(a.ip) < NumericValue(b.ip)
    else a.port < b.port
  }

  lemma PrecedesIsTotal(a: SocketAddr, b: SocketAddr)
    requires !Precedes(a, b) && !Precedes(b, a)
    ensures a == b
  {
    if a.ip.V4? {
      ValueIdentifiesIpv4(a.ip.v4, b.ip.v4);
    } else {
      ValueIdentifiesIpv6(a.ip.v6, b.ip.v6);
    }
  }

  // ----- The order, digit by digit -----

  function Digits(ip: IpAddr): (digits: seq<nat>)
  {
    match ip
    case V4(v4) => [v4.a, v4.b, v4.c, v4.d]
    case V6(v6) => [v6.s0, v6.s1, v6.s2, v6.s3, v6.s4, v6.s5, v6.s6, v6.s7]
  }

  /** The first digit that differs is smaller. */
  predicate ComesFirst(a: seq<nat>, b: seq<nat>)
    requires |a| == |b|
  {
    exists k | 0 <= k < |a| :: a[k] < b[k] && a[..k] == b[..k]
  }

  /** The number that the digits stand for. */
  function Read(digits: seq<nat>, base: nat): nat {
    if digits == [] then 0 else Appended(Read(digits[..|digits| - 1], base), digits[|digits| - 1], base)
  }

  function Appended(number: nat, digit: nat, base: nat): nat {
    number * base + digit
  }

  predicate AreDigits(digits: seq<nat>, base: nat) {
    forall i | 0 <= i < |digits| :: digits[i] < base
  }

  lemma {:induction false} NextMultiple(x: nat, y: nat, base: nat)
    requires x < y
    ensures x * base + base <= y * base
  {
    assert y * base == (y - 1) * base + base;
    if x < y - 1 {
      NextMultiple(x, y - 1, base);
    }
  }

  lemma OneDigitMore(x: nat, y: nat, i: nat, j: nat, base: nat)
    requires i < base && j < base
    ensures Appended(x, i, base) < Appended(y, j, base) <==> x < y || (x == y && i < j)
  {
    if x < y {
      NextMultiple(x, y, base);
    } else if y < x {
      NextMultiple(y, x, base);
    }
  }

  lemma {:induction false} FirstByDigits(a: seq<nat>, b: seq<nat>, base: nat)
    requires |a| == |b| && AreDigits(a, base) && AreDigits(b, base)
    ensures Read(a, base) < Read(b, base) <==> ComesFirst(a, b)
    ensures Read(a, base) == Read(b, base) <==> a == b
  {
    if a != [] {
      var n := |a| - 1;
      var x, y := Read(a[..n], base), Read(b[..n], base);
      ReadLast(a, base);
      ReadLast(b, base);
      hide Read, ComesFirst, Appended, AreDigits;
      FirstByDigits(a[..n], b[..n], base);
      OneDigitMore(x, y, a[n], b[n], base);
      OneDigitMore(y, x, b[n], a[n], base);
      FirstOneDigitMore(a, b);
      SameOneDigitMore(a, b);
    }
  }

  lemma ReadLast(digits: seq<nat>, base: nat)
    requires digits != [] && AreDigits(digits, base)
    ensures var n := |digits| - 1;
      && Read(digits, base) == Appended(Read(digits[..n], base), digits[n], base)
      && AreDigits(digits[..n], base) && digits[n] < base
  {
  }

  lemma SameOneDigitMore(a: seq<nat>, b: seq<nat>)
    requires |a| == |b| > 0
    ensures var n := |a| - 1; a == b <==> a[..n] == b[..n] && a[n] == b[n]
  {
    var n := |a| - 1;
    assert a == a[..n] + [a[n]] && b == b[..n] + [b[n]];
  }

  lemma FirstOneDigitMore(a: seq<nat>, b: seq<nat>)
    requires |a| == |b| > 0
    ensures var n := |a| - 1;
      ComesFirst(a, b) <==> ComesFirst(a[..n], b[..n]) || (a[..n] == b[..n] && a[n] < b[n])
  {
    var n := |a| - 1;
    if k :| 0 <= k < |a| && a[k] < b[k] && a[..k] == b[..k] {
      if k < n {
        assert a[..n][..k] == a[..k] && b[..n][..k] == b[..k];
        assert a[..n][k] < b[..n][k];
      }
    }
    if k :| 0 <= k < n && a[..n][k] < b[..n][k] && a[..n][..k] == b[..n][..k] {
      assert a[..n][..k] == a[..k] && b[..n][..k] == b[..k];
      assert a[k] < b[k];
    }
  }

  lemma ReadPrefix(digits: seq<nat>, n: nat, base: nat)
    requires n < |digits|
    ensures Read(digits[..n + 1], base) == Read(digits[..n], base) * base + digits[n]
  {
    assert digits[..n + 1][..n] == digits[..n];
  }

  lemma ReadDigits(ip: IpAddr)
    ensures var base := if ip.V4? then 0x100 else 0x1_0000;
      AreDigits(Digits(ip), base) && Read(Digits(ip), base) == NumericValue(ip)
  {
    if ip.V4? {
      ReadIpv4(ip);
    } else {
      ReadIpv6(ip);
    }
  }

  lemma ReadIpv4(ip: IpAddr)
    requires ip.V4?
    ensures Read(Digits(ip), 0x100) == NumericValue(ip)
  {
    var digits := Digits(ip);
    assert Read(digits[..0], 0x100) == 0 && digits[..4] == digits;
    hide Read;
    ReadPrefix(digits, 0, 0x100);
    ReadPrefix(digits, 1, 0x100);
    ReadPrefix(digits, 2, 0x100);
    ReadPrefix(digits, 3, 0x100);
  }

  lemma ReadIpv6(ip: IpAddr)
    requires ip.V6?
    ensures Read(Digits(ip), 0x1_0000) == NumericValue(ip)
  {
    var digits := Digits(ip);
    assert Read(digits[..0], 0x1_0000) == 0 && digits[..8] == digits;
    hide Read;
    ReadPrefix(digits, 0, 0x1_0000);
    ReadPrefix(digits, 1, 0x1_0000);
    ReadPrefix(digits, 2, 0x1_0000);
    ReadPrefix(digits, 3, 0x1_0000);
    ReadPrefix(digits, 4, 0x1_0000);
    ReadPrefix(digits, 5, 0x1_0000);
    ReadPrefix(digits, 6, 0x1_0000);
    ReadPrefix(digits, 7, 0x1_0000);
  }

  /** IPv4 comes before IPv6; addresses of one family are ordered digit by digit, and then by port. */
  lemma PrecedesByDigits(a: SocketAddr, b: SocketAddr)
    ensures Precedes(a, b) <==>
      || (a.ip.V4? && b.ip.V6?)
      || (a.ip.V4? == b.ip.V4? && (ComesFirst(Digits(a.ip), Digits(b.ip)) || (a.ip == b.ip && a.port < b.port)))
  {
    if a.ip.V4? == b.ip.V4? {
      ReadDigits(a.ip);
      ReadDigits(b.ip);
      FirstByDigits(Digits(a.ip), Digits(b.ip), if a.ip.V4? then 0x100 else 0x1_0000);
      DigitsIdentify(a.ip, b.ip);
      hide NumericValue, Read, ComesFirst, Digits;
    }
  }

  lemma DigitsIdentify(a: IpAddr, b: IpAddr)
    requires a.V4? == b.V4?
    ensures Digits(a) == Digits(b) <==> a == b
  {
    var x, y := Digits(a), Digits(b);
    if x == y {
      assert x[0] == y[0] && x[1] == y[1] && x[2] == y[2] && x[3] == y[3];
      assert a.V6? ==> x[4] == y[4] && x[5] == y[5] && x[6] == y[6] && x[7] == y[7];
    }
  }

  ghost predicate StrictlySorted(addresses: seq<SocketAddr>) {
    forall i, j | 0 <= i < j < |addresses| :: Precedes(addresses[i], addresses[j])
  }

  /** Keeps the first occurrence of every answer. */
  method Deduplicate(answers: seq<SocketAddr>) returns (distinct: seq<SocketAddr>)
    ensures forall a :: a in distinct <==> a in answers
    ensures forall i, j | 0 <= i < j < |distinct| :: distinct[i] != distinct[j]
  {
    var seen: set<SocketAddr> := {};
    distinct := [];
    for i := 0 to |answers|
      invariant forall a :: a in seen <==> a in answers[..i]
      invariant forall a :: a in distinct <==> a in seen
      invariant forall j, k | 0 <= j < k < |distinct| :: distinct[j] != distinct[k]
    {
      assert answers[..i + 1] == answers[..i] + [answers[i]];
      if answers[i] !in seen {
        seen := seen + {answers[i]};
        distinct := distinct + [answers[i]];
      }
    }
    assert answers[..|answers|] == answers;
  }

  function Insert(a: SocketAddr, sorted: seq<SocketAddr>): (r: seq<SocketAddr>)
    ensures forall x :: x in r <==> x == a || x in sorted
  {
    if sorted == [] then [a]
    else if Precedes(a, sorted[0]) then [a] + sorted
    else
      assert forall x :: x in sorted <==> x == sorted[0] || x in sorted[1..];
      [sorted[0]] + Insert(a, sorted[1..])
  }

  /** The stable sort by key. */
  function Sort(addresses: seq<SocketAddr>): (r: seq<SocketAddr>)
    ensures forall x :: x in r <==> x in addresses
  {
    if addresses == [] then []
    else
      assert forall x :: x in addresses <==> x == addresses[|addresses| - 1] || x in addresses[..|addresses| - 1];
      Insert(addresses[|addresses| - 1], Sort(addresses[..|addresses| - 1]))
  }

  lemma {:induction false} InsertKeepsOrder(a: SocketAddr, sorted: seq<SocketAddr>)
    requires StrictlySorted(sorted) && a !in sorted
    ensures StrictlySorted(Insert(a, sorted))
  {
    if sorted != [] && !Precedes(a, sorted[0]) {
      if !Precedes(sorted[0], a) {
        PrecedesIsTotal(a, sorted[0]);
      }
      InsertKeepsOrder(a, sorted[1..]);
      var rest := Insert(a, sorted[1..]);
      forall x | x in rest ensures Precedes(sorted[0], x) {
        if x != a {
          assert x in sorted[1..];
        }
      }
    }
  }

  lemma {:induction false} SortOrders(addresses: seq<SocketAddr>)
    requires forall i, j | 0 <= i < j < |addresses| :: addresses[i] != addresses[j]
    ensures StrictlySorted(Sort(addresses))
  {
    if addresses != [] {
      var n := |addresses| - 1;
      SortOrders(addresses[..n]);
      InsertKeepsOrder(addresses[n], Sort(addresses[..n]));
    }
  }

  /** The answers without repeats, in the order of the key. */
  ghost predicate IsCanonical(all: seq<SocketAddr>, answers: seq<SocketAddr>) {
    && StrictlySorted(all)
    && forall a :: a in all <==> a in answers
  }

  lemma OnlyNothingIsCanonicallyEmpty(all: seq<SocketAddr>, answers: seq<SocketAddr>)
    requires IsCanonical(all, answers)
    ensures all == [] <==> answers == []
  {
    assert answers != [] ==> answers[0] in all;
    assert all != [] ==> all[0] in answers;
  }

  method Canonicalize(answers: seq<SocketAddr>) returns (all: seq<SocketAddr>)
    ensures IsCanonical(all, answers)
  {
    var distinct := Deduplicate(answers);
    SortOrders(distinct);
    all := Sort(distinct);
  }

  lemma {:induction false} SortedListsOfOneSetAreEqual(a: seq<SocketAddr>, b: seq<SocketAddr>)
    requires StrictlySorted(a) && StrictlySorted(b)
    requires forall x :: x in a <==> x in b
    ensures a == b
  {
    assert b != [] ==> b[0] in a;
    if a != [] {
      assert a[0] in b;
      assert a[0] == b[0];
      forall x ensures x in a[1..] <==> x in b[1..] {
        assert x in a[1..] <==> x in a && x != a[0] by { TailWithoutHead(a, x); }
        assert x in b[1..] <==> x in b && x != b[0] by { TailWithoutHead(b, x); }
      }
      SortedListsOfOneSetAreEqual(a[1..], b[1..]);
    }
  }

  lemma TailWithoutHead(s: seq<SocketAddr>, x: SocketAddr)
    requires s != [] && StrictlySorted(s)
    ensures x in s[1..] <==> x in s && x != s[0]
  {
    if x in s && x != s[0] {
      var i :| 0 <= i < |s| && s[i] == x;
      assert s[1..][i - 1] == x;
    }
  }

  /** The list depends on the set of answers only, not on their order or repeats. */
  lemma CanonicalListIsDeterminedBySet(first: seq<SocketAddr>, second: seq<SocketAddr>,
                                       answers: seq<SocketAddr>, reordered: seq<SocketAddr>)
    requires IsCanonical(first, answers) && IsCanonical(second, reordered)
    requires forall a :: a in answers <==> a in reordered
    ensures first == second
  {
    SortedListsOfOneSetAreEqual(first, second);
  }

  function KeepPermitted(addresses: seq<SocketAddr>, allowPrivate: bool): (kept: seq<SocketAddr>)
    ensures forall a :: a in kept <==> a in addresses && IsIpPermitted(a.ip, allowPrivate)
  {
    if addresses == [] then []
    else
      assert forall x :: x in addresses <==> x == addresses[0] || x in addresses[1..];
      (if IsIpPermitted(addresses[0].ip, allowPrivate) then [addresses[0]] else [])
      + KeepPermitted(addresses[1..], allowPrivate)
  }

  /** The permitted addresses in list order, at most `maxAddresses` of them. */
  function Permitted(addresses: seq<SocketAddr>, allowPrivate: bool, maxAddresses: nat): (kept: seq<SocketAddr>)
  {
    var kept := KeepPermitted(addresses, allowPrivate);
    if |kept| <= maxAddresses then kept else kept[..maxAddresses]
  }

  lemma {:induction false} KeepingPreservesOrder(addresses: seq<SocketAddr>, allowPrivate: bool)
    requires StrictlySorted(addresses)
    ensures StrictlySorted(KeepPermitted(addresses, allowPrivate))
  {
    if addresses != [] {
      KeepingPreservesOrder(addresses[1..], allowPrivate);
      var rest := KeepPermitted(addresses[1..], allowPrivate);
      forall x | x in rest ensures Precedes(addresses[0], x) {
        assert x in addresses[1..];
      }
    }
  }

  /**
   * The permitted list holds the least permitted addresses: every permitted address that is left out comes
   * after all that are kept, and something is left out only when the list is full.
   */
  lemma PermittedListHoldsTheLeast(addresses: seq<SocketAddr>, allowPrivate: bool, maxAddresses: nat)
    requires StrictlySorted(addresses)
    ensures var kept := Permitted(addresses, allowPrivate, maxAddresses);
      && |kept| <= maxAddresses && StrictlySorted(kept)
      && (forall a | a in kept :: a in addresses && IsIpPermitted(a.ip, allowPrivate))
      && (forall a, k | a in addresses && IsIpPermitted(a.ip, allowPrivate) && a !in kept && k in kept ::
            Precedes(k, a))
      && (forall a | a in addresses && IsIpPermitted(a.ip, allowPrivate) && a !in kept :: |kept| == maxAddresses)
      && (maxAddresses > 0 ==> (kept == [] <==> forall a | a in addresses :: !IsIpPermitted(a.ip, allowPrivate)))
  {
    KeepingPreservesOrder(addresses, allowPrivate);
    var full, kept := KeepPermitted(addresses, allowPrivate), Permitted(addresses, allowPrivate, maxAddresses);
    assert forall m | 0 <= m < |kept| :: kept[m] == full[m];
    forall a, k | a in full && a !in kept && k in kept ensures Precedes(k, a) {
      var i :| 0 <= i < |full| && full[i] == a;
      var j :| 0 <= j < |kept| && kept[j] == k;
      assert i >= |kept| > j;
    }
    if full != [] && maxAddresses > 0 {
      assert kept[0] == full[0];
    }
  }
}
