/** Text operations of the bypass list: splitting, joining, trimming, ASCII case and decimal ports. */
module Text {
  /** The pieces of `text` between occurrences of `separator`; never empty. */
  function Split(text: string, separator: char): (pieces: seq<string>)
    ensures |pieces| >= 1
  {
    if text == "" then [""]
    else
      var rest := Split(text[1..], separator);
      if text[0] == separator then [""] + rest
      else [[text[0]] + rest[0]] + rest[1..]
  }

  function Join(pieces: seq<string>, separator: char): string
    requires |pieces| >= 1
  {
    if |pieces| == 1 then pieces[0]
    else pieces[0] + [separator] + Join(pieces[1..], separator)
  }

  /** One character in front: a new empty piece, or a longer first piece. */
  function Prepend(c: char, pieces: seq<string>, separator: char): (longer: seq<string>)
    requires |pieces| >= 1
    ensures |longer| >= 1
  {
    if c == separator then [""] + pieces else [[c] + pieces[0]] + pieces[1..]
  }

  lemma SplitStep(c: char, text: string, separator: char)
    ensures Split([c] + text, separator) == Prepend(c, Split(text, separator), separator)
  {
    assert ([c] + text)[1..] == text;
  }

  lemma JoinStep(c: char, pieces: seq<string>, separator: char)
    requires |pieces| >= 1
    ensures Join(Prepend(c, pieces, separator), separator) == [c] + Join(pieces, separator)
  {
    assert Prepend(c, pieces, separator)[1..] == if c == separator then pieces else pieces[1..];
  }

  lemma PrependAppend(c: char, left: seq<string>, right: seq<string>, separator: char)
    requires |left| >= 1
    ensures Prepend(c, left + right, separator) == Prepend(c, left, separator) + right
  {
  }

  lemma {:induction false} JoinSplit(text: string, separator: char)
    ensures Join(Split(text, separator), separator) == text
  {
    if text != "" {
      hide Split, Join, Prepend;
      var c, rest := text[0], text[1..];
      assert text == [c] + rest;
      JoinSplit(rest, separator);
      SplitStep(c, rest, separator);
      JoinStep(c, Split(rest, separator), separator);
    }
  }

  lemma {:induction false} SplitAppend(left: string, right: string, separator: char)
    ensures Split(left + [separator] + right, separator) == Split(left, separator) + Split(right, separator)
  {
    if left == "" {
      assert left + [separator] + right == [separator] + right;
      SplitStep(separator, right, separator);
    } else {
      hide Split, Prepend;
      var c, rest := left[0], left[1..];
      var tail := rest + [separator] + right;
      assert left == [c] + rest && left + [separator] + right == [c] + tail;
      SplitAppend(rest, right, separator);
      SplitStep(c, rest, separator);
      SplitStep(c, tail, separator);
      PrependAppend(c, Split(rest, separator), Split(right, separator), separator);
    }
  }

  lemma {:induction false} JoinAppend(left: seq<string>, right: seq<string>, separator: char)
    requires |left| >= 1 && |right| >= 1
    ensures Join(left + right, separator) == Join(left, separator) + [separator] + Join(right, separator)
  {
    if |left| == 1 {
      assert (left + right)[1..] == right;
    } else {
      JoinAppend(left[1..], right, separator);
      assert (left + right)[1..] == left[1..] + right;
    }
  }

  /** No piece holds the separator; with JoinSplit, the pieces are exactly those between its occurrences. */
  lemma {:induction false} PiecesHoldNoSeparator(text: string, separator: char)
    ensures forall i | 0 <= i < |Split(text, separator)| :: separator !in Split(text, separator)[i]
  {
    if text != "" {
      PiecesHoldNoSeparator(text[1..], separator);
    }
  }

  predicate EndsWith<T(==)>(whole: seq<T>, tail: seq<T>) {
    |tail| <= |whole| && whole[|whole| - |tail|..] == tail
  }

  predicate IsWhitespace(c: char) {
    || '\U{0009}' <= c <= '\U{000d}' || c == ' ' || c == '\U{0085}' || c == '\U{00a0}' || c == '\U{1680}'
    || '\U{2000}' <= c <= '\U{200a}' || c == '\U{2028}' || c == '\U{2029}' || c == '\U{202f}'
    || c == '\U{205f}' || c == '\U{3000}'
  }

  function TrimStart(text: string): string {
    if text != "" && IsWhitespace(text[0]) then TrimStart(text[1..]) else text
  }

  function TrimEnd(text: string): string {
    if text != "" && IsWhitespace(text[|text| - 1]) then TrimEnd(text[..|text| - 1]) else text
  }

  function Trim(text: string): string {
    TrimEnd(TrimStart(text))
  }

  predicate IsBlank(text: string) {
    forall i | 0 <= i < |text| :: IsWhitespace(text[i])
  }

  /** Trimming takes white space off both ends, as much as there is, and nothing else. */
  lemma {:induction false} TrimIsExact(text: string) returns (front: string, back: string)
    ensures text == front + Trim(text) + back && IsBlank(front) && IsBlank(back)
    ensures Trim(text) != "" ==> !IsWhitespace(Trim(text)[0]) && !IsWhitespace(Trim(text)[|Trim(text)| - 1])
    ensures Trim(text) == "" <==> IsBlank(text)
  {
    front := TrimStartIsExact(text);
    back := TrimEndIsExact(TrimStart(text));
    var kept := Trim(text);
    assert kept != "" ==> kept[0] == TrimStart(text)[0];
    if kept == "" {
      assert text == front + back;
    } else {
      assert text[|front|] == kept[0];
    }
  }

  lemma {:induction false} TrimStartIsExact(text: string) returns (front: string)
    ensures text == front + TrimStart(text) && IsBlank(front)
    ensures TrimStart(text) != "" ==> !IsWhitespace(TrimStart(text)[0])
  {
    front := "";
    if text != "" && IsWhitespace(text[0]) {
      var rest := TrimStartIsExact(text[1..]);
      front := [text[0]] + rest;
    }
  }

  lemma {:induction false} TrimEndIsExact(text: string) returns (back: string)
    ensures text == TrimEnd(text) + back && IsBlank(back)
    ensures TrimEnd(text) != "" ==> !IsWhitespace(TrimEnd(text)[|TrimEnd(text)| - 1])
  {
    back := "";
    if text != "" && IsWhitespace(text[|text| - 1]) {
      var rest := TrimEndIsExact(text[..|text| - 1]);
      back := rest + [text[|text| - 1]];
    }
  }

  function TrimLeadingDots(text: string): string {
    if text != "" && text[0] == '.' then TrimLeadingDots(text[1..]) else text
  }

  /** Only leading dots go, and all of them. */
  lemma {:induction false} TrimLeadingDotsIsExact(text: string)
    ensures var kept := TrimLeadingDots(text); var n := |text| - |kept|;
      && 0 <= n && kept == text[n..] && (forall i | 0 <= i < n :: text[i] == '.') && (kept != "" ==> kept[0] != '.')
  {
    if text != "" && text[0] == '.' {
      TrimLeadingDotsIsExact(text[1..]);
      var kept := TrimLeadingDots(text);
      assert kept == text[1..][|text| - 1 - |kept|..] == text[|text| - |kept|..];
      assert forall i | 1 <= i < |text| :: text[i] == text[1..][i - 1];
    }
  }

  function LowerChar(c: char): char {
    if 'A' <= c <= 'Z' then (c as int + 32) as char else c
  }

  function Lower(text: string): (lower: string)
    ensures |lower| == |text|
  {
    seq(|text|, i requires 0 <= i < |text| => LowerChar(text[i]))
  }

  /** The characters are the same, or the two cases of one ASCII letter. */
  predicate SameLetter(a: char, b: char) {
    || a == b
    || ('A' <= a <= 'Z' && b as int - a as int == 'a' as int - 'A' as int)
    || ('A' <= b <= 'Z' && a as int - b as int == 'a' as int - 'A' as int)
  }

  lemma FoldingIgnoresCaseOnly(a: string, b: string)
    ensures Lower(a) == Lower(b) <==> |a| == |b| && forall i | 0 <= i < |a| :: SameLetter(a[i], b[i])
  {
    assert forall x: char, y: char :: LowerChar(x) == LowerChar(y) <==> SameLetter(x, y);
    if Lower(a) == Lower(b) {
      forall i | 0 <= i < |a| ensures SameLetter(a[i], b[i]) {
        assert Lower(a)[i] == Lower(b)[i];
      }
    }
  }

  predicate IsDigit(c: char) {
    '0' <= c <= '9'
  }

  predicate AllDigits(text: string) {
    forall i | 0 <= i < |text| :: IsDigit(text[i])
  }

  function Decimal(n: nat): (text: string)
    ensures text != "" && AllDigits(text)
  {
    var digit := [('0' as int + n % 10) as char];
    if n < 10 then digit else Decimal(n / 10) + digit
  }

  /** The number that the digits stand for. */
  function ReadDecimal(text: string): (n: nat)
    requires AllDigits(text)
  {
    if text == "" then 0
    else 10 * ReadDecimal(text[..|text| - 1]) + (text[|text| - 1] as int - '0' as int)
  }

  /** The decimal of a number reads as that number, without leading zeros. */
  lemma {:induction false} DecimalReadsBack(n: nat)
    ensures ReadDecimal(Decimal(n)) == n && (n > 0 ==> Decimal(n)[0] != '0') && (n == 0 ==> Decimal(n) == "0")
  {
    if n >= 10 {
      DecimalReadsBack(n / 10);
      assert Decimal(n)[..|Decimal(n)| - 1] == Decimal(n / 10);
    }
  }

  /** The position of the last `c` in `text`, or -1. */
  function LastIndexOf(text: string, c: char): (i: int)
    ensures -1 <= i < |text|
    ensures i >= 0 ==> text[i] == c
    ensures forall k | i < k < |text| :: text[k] != c
  {
    if text == "" then -1
    else if text[|text| - 1] == c then |text| - 1
    else LastIndexOf(text[..|text| - 1], c)
  }
}

/** The NO_PROXY bypass list (src/policy.rs, `no_proxy_matches`). */
module NoProxy {
  import opened Text

  /** The comparison made once the port has been dealt with. */
  predicate HostMatches(host: string, pattern: string) {
    Lower(host) == Lower(pattern) || EndsWith(Lower(host), ['.'] + Lower(pattern))
  }

  predicate EntryMatches(entry: string, host: string, port: nat) {
    var pattern := Trim(entry);
    if pattern == "" then false
    else if pattern == "*" then true
    else
      var portSuffix := ":" + Decimal(port);
      if EndsWith(pattern, portSuffix) then
        HostMatches(host, TrimLeadingDots(pattern[..|pattern| - |portSuffix|]))
      else
        var colon := LastIndexOf(pattern, ':');
        if colon >= 0 && pattern[colon + 1..] != "" && AllDigits(pattern[colon + 1..]) then false
        else HostMatches(host, TrimLeadingDots(pattern))
  }

  predicate NoProxyMatches(noProxy: string, host: string, port: nat) {
    exists entry | entry in Split(noProxy, ',') :: EntryMatches(entry, host, port)
  }

  /** The dot-separated labels of a name, with ASCII case folded. */
  function Labels(name: string): (labels: seq<string>) {
    Split(Lower(name), '.')
  }

  lemma ConcatenationEndsWith<T>(front: seq<T>, tail: seq<T>)
    ensures EndsWith(front + tail, tail)
  {
  }

  lemma DottedSuffixHasLabelSuffix(host: string, pattern: string)
    requires EndsWith(host, ['.'] + pattern)
    ensures EndsWith(Split(host, '.'), Split(pattern, '.'))
  {
    var front := host[..|host| - |pattern| - 1];
    assert host == front + (['.'] + pattern) == front + ['.'] + pattern;
    SplitAppend(front, pattern, '.');
    ConcatenationEndsWith(Split(front, '.'), Split(pattern, '.'));
  }

  lemma LabelSuffixIsDottedSuffix(host: string, pattern: string)
    requires EndsWith(Split(host, '.'), Split(pattern, '.'))
    ensures host == pattern || EndsWith(host, ['.'] + pattern)
  {
    hide Split;
    var all, tail := Split(host, '.'), Split(pattern, '.');
    var front := all[..|all| - |tail|];
    assert all == front + tail;
    JoinSplit(host, '.');
    JoinSplit(pattern, '.');
    if front == [] {
      assert all == tail;
    } else {
      hide Join;
      JoinAppend(front, tail, '.');
      assert host == Join(front, '.') + (['.'] + pattern);
      ConcatenationEndsWith(Join(front, '.'), ['.'] + pattern);
    }
  }

  /** Being the pattern, or ending in a dot and the pattern, is having its labels as a suffix. */
  lemma DottedSuffixIsLabelSuffix(host: string, pattern: string)
    ensures host == pattern || EndsWith(host, ['.'] + pattern)
      <==> EndsWith(Split(host, '.'), Split(pattern, '.'))
  {
    if host == pattern {
    } else if EndsWith(host, ['.'] + pattern) {
      DottedSuffixHasLabelSuffix(host, pattern);
    } else if EndsWith(Split(host, '.'), Split(pattern, '.')) {
      LabelSuffixIsDottedSuffix(host, pattern);
    }
  }

  lemma HostMatchesIsLabelSuffix(host: string, pattern: string)
    ensures HostMatches(host, pattern) <==> EndsWith(Labels(host), Labels(pattern))
  {
    DottedSuffixIsLabelSuffix(Lower(host), Lower(pattern));
  }

  /** An entry as written: a host part and, when its last colon is followed by digits only, a port. */
  datatype Entry = Entry(hostPart: string, port: string)

  function ReadEntry(pattern: string): Entry {
    var colon := LastIndexOf(pattern, ':');
    if colon >= 0 && pattern[colon + 1..] != "" && AllDigits(pattern[colon + 1..])
    then Entry(pattern[..colon], pattern[colon + 1..])
    else Entry(pattern, "")
  }

  lemma PortSuffixIsReadPort(pattern: string, digits: string)
    requires digits != "" && AllDigits(digits)
    ensures EndsWith(pattern, ":" + digits) <==> ReadEntry(pattern).port == digits
    ensures EndsWith(pattern, ":" + digits) ==> ReadEntry(pattern).hostPart == pattern[..|pattern| - |digits| - 1]
  {
    var colon := LastIndexOf(pattern, ':');
    if EndsWith(pattern, ":" + digits) {
      var at := |pattern| - |digits| - 1;
      assert pattern[at] == (":" + digits)[0];
      forall k | at < k < |pattern| ensures pattern[k] != ':' {
        assert pattern[k] == pattern[at..][k - at] == digits[k - at - 1];
      }
      assert colon == at;
      assert pattern[at + 1..] == pattern[at..][1..] == digits;
    }
    if ReadEntry(pattern).port == digits {
      assert pattern[colon..] == ":" + digits;
    }
  }

  /**
   * An entry matches exactly when it is the wildcard, or its port (if it has one) is the target's and its
   * labels, without leading dots, are a suffix of the host's labels, ignoring ASCII case.
   */
  lemma EntryMatchesByLabels(entry: string, host: string, port: nat)
    ensures var pattern := Trim(entry); var read := ReadEntry(pattern);
      EntryMatches(entry, host, port) <==>
        && pattern != ""
        && (|| pattern == "*"
            || (&& (read.port == "" || read.port == Decimal(port))
                && EndsWith(Labels(host), Labels(TrimLeadingDots(read.hostPart)))))
  {
    var pattern := Trim(entry);
    var read := ReadEntry(pattern);
    PortSuffixIsReadPort(pattern, Decimal(port));
    HostMatchesIsLabelSuffix(host, TrimLeadingDots(read.hostPart));
  }

  /** The list has an entry for this host and port. */
  predicate Covers(list: string, host: string, port: nat) {
    exists entry | entry in Split(list, ',') :: EntryCovers(entry, host, port)
  }

  /** The entry is the wildcard, or names a suffix of the host's labels and no port but this one. */
  predicate EntryCovers(entry: string, host: string, port: nat) {
    var pattern := Trim(entry);
    var read := ReadEntry(pattern);
    && pattern != ""
    && (|| pattern == "*"
        || (&& (read.port == "" || read.port == Decimal(port))
            && EndsWith(Labels(host), Labels(TrimLeadingDots(read.hostPart)))))
  }

  lemma ListMatchesByLabels(list: string, host: string, port: nat)
    ensures NoProxyMatches(list, host, port) <==> Covers(list, host, port)
  {
    hide EntryMatches, EntryCovers, Split;
    forall entry | entry in Split(list, ',') ensures EntryMatches(entry, host, port) <==> EntryCovers(entry, host, port)
    {
      EntryIsCovered(entry, host, port);
    }
  }

  lemma EntryIsCovered(entry: string, host: string, port: nat)
    ensures EntryMatches(entry, host, port) <==> EntryCovers(entry, host, port)
  {
    EntryMatchesByLabels(entry, host, port);
    hide EntryMatches;
  }

  lemma {:induction false} DotFreeIsOneLabel(name: string)
    requires '.' !in name
    ensures Split(name, '.') == [name]
  {
    if name != "" {
      assert name == [name[0]] + name[1..];
      SplitStep(name[0], name[1..], '.');
      DotFreeIsOneLabel(name[1..]);
    }
  }

  /** Only one label is a suffix of one label. */
  lemma SuffixOfOneLabel(name: string, pattern: string)
    requires '.' !in name
    ensures EndsWith(Split(name, '.'), Split(pattern, '.')) <==> pattern == name
  {
    DotFreeIsOneLabel(name);
    JoinSplit(pattern, '.');
    hide Split;
    var labels := Split(pattern, '.');
    if EndsWith([name], labels) {
      assert labels == [name];
    }
  }

  /** Folding case leaves dots and brackets where they are. */
  lemma LoweringKeepsMarks(name: string, mark: char)
    requires mark == '.' || mark == '['
    ensures mark in Lower(name) <==> mark in name
    ensures [mark] <= Lower(name) <==> [mark] <= name
  {
    forall i | 0 <= i < |name| ensures Lower(name)[i] == mark <==> name[i] == mark {
    }
    if mark in name {
      var i :| 0 <= i < |name| && name[i] == mark;
      assert Lower(name)[i] == mark;
    }
  }

  /**
   * A host without dots, as every IPv6 host in its brackets is, has one label: besides the wildcard only an entry
   * that spells the whole host matches it.
   */
  lemma DotFreeHostMatchesWhole(entry: string, host: string, port: nat)
    requires '.' !in host && host != ""
    ensures var pattern := Trim(entry); var read := ReadEntry(pattern);
      EntryMatches(entry, host, port) <==>
        || pattern == "*"
        || (&& (read.port == "" || read.port == Decimal(port))
            && Lower(TrimLeadingDots(read.hostPart)) == Lower(host))
  {
    EntryMatchesByLabels(entry, host, port);
    LoweringKeepsMarks(host, '.');
    SuffixOfOneLabel(Lower(host), Lower(TrimLeadingDots(ReadEntry(Trim(entry)).hostPart)));
    hide EntryMatches, Split, EndsWith, Trim, Decimal;
  }

  /** So an entry whose host part is not in brackets never matches an IPv6 host, whatever follows its last colon. */
  lemma UnbracketedEntryMissesIpv6(entry: string, host: string, port: nat)
    requires '.' !in host && host != "" && host[0] == '['
    requires var pattern := Trim(entry);
      pattern != "*" && !(['['] <= TrimLeadingDots(ReadEntry(pattern).hostPart))
    ensures !EntryMatches(entry, host, port)
  {
    hide EntryMatches, Lower, Trim, TrimLeadingDots, ReadEntry, Decimal;
    DotFreeHostMatchesWhole(entry, host, port);
    LoweringKeepsMarks(TrimLeadingDots(ReadEntry(Trim(entry)).hostPart), '[');
    LoweringKeepsMarks(host, '[');
  }

  /** Two such entries, one ending in digits and one not. */
  lemma UnbracketedEntriesAreMissed()
    ensures !EntryMatches("2001:db8::1", "[2001:db8::1]", 443)
    ensures !EntryMatches("2001:db8::a", "[2001:db8::a]", 443)
  {
    hide EntryMatches, ReadEntry, Trim, TrimLeadingDots;
    UnbracketedEntry("2001:db8::1");
    UnbracketedEntry("2001:db8::a");
    UnbracketedEntryMissesIpv6("2001:db8::1", "[2001:db8::1]", 443);
    UnbracketedEntryMissesIpv6("2001:db8::a", "[2001:db8::a]", 443);
  }

  lemma UnbracketedEntry(entry: string)
    requires |entry| > 1 && entry[0] == '2' && !IsWhitespace(entry[|entry| - 1])
    ensures Trim(entry) == entry && !(['['] <= TrimLeadingDots(ReadEntry(entry).hostPart))
  {
    assert TrimStart(entry) == entry;
    var name := ReadEntry(entry).hostPart;
    if name != "" {
      assert name[0] == entry[0];
    }
  }

  /** A list matches exactly when one of its two halves does. */
  lemma ListMatchesByParts(left: string, right: string, host: string, port: nat)
    ensures NoProxyMatches(left + "," + right, host, port)
      <==> NoProxyMatches(left, host, port) || NoProxyMatches(right, host, port)
  {
    SplitAppend(left, right, ',');
    var l, r := Split(left, ','), Split(right, ',');
    assert Split(left + "," + right, ',') == l + r;
    assert forall entry :: entry in l + r <==> entry in l || entry in r;
  }
}
