/**
  Recognisers for IP address literals. A geocode query that is one of these is
  refused before any request is built. The recognisers follow the textual forms
  of the addresses: the dotted quad for IPv4, and for IPv6 the eight
  colon-separated hexadecimal groups, or fewer groups with one "::" standing for
  the zero groups left out.
*/
module IpLiterals {
  import opened Wrappers
  import opened Strings

  predicate IsDecimalDigit(c: char) {
    '0' <= c <= '9'
  }

  predicate IsHexDigit(c: char) {
    IsDecimalDigit(c) || 'a' <= c <= 'f' || 'A' <= c <= 'F'
  }

  predicate AllDecimalDigits(s: string) {
    forall i :: 0 <= i < |s| ==> IsDecimalDigit(s[i])
  }

  /** The number a string of decimal digits denotes. */
  function DecimalValue(s: string): nat
    requires AllDecimalDigits(s)
  {
    if s == [] then 0 else 10 * DecimalValue(s[..|s| - 1]) + (s[|s| - 1] as int - '0' as int)
  }

  /** One component of a dotted quad: 0 to 255 in decimal, without a leading zero. */
  predicate IsOctet(s: string) {
    && 1 <= |s| <= 3
    && AllDecimalDigits(s)
    && (s[0] == '0' ==> |s| == 1)
    && DecimalValue(s) <= 255
  }

  /** An IPv4 literal: four octets separated by dots; it has dots and no colon. */
  predicate IsIPv4(s: string)
    ensures IsIPv4(s) ==> '.' in s && ':' !in s
  {
    var parts := Split(s, '.');
    SeveralPartsMeanSeparator(s, '.');
    OctetsHaveNoColon(parts);
    |parts| == 4 && forall i :: 0 <= i < 4 ==> IsOctet(parts[i])
  }

  /** One group of an IPv6 literal: one to four hexadecimal digits. */
  predicate IsHexGroup(s: string) {
    1 <= |s| <= 4 && forall i :: 0 <= i < |s| ==> IsHexDigit(s[i])
  }

  predicate AllHexGroups(groups: seq<string>) {
    forall i :: 0 <= i < |groups| ==> IsHexGroup(groups[i])
  }

  predicate DoubleColonAt(s: string, i: int) {
    0 <= i < |s| - 1 && s[i] == ':' && s[i + 1] == ':'
  }

  /** The position of the first "::" in `s`, if any. */
  function FirstDoubleColon(s: string): (r: Option<nat>)
    ensures r.None? <==> forall i :: 0 <= i < |s| - 1 ==> !DoubleColonAt(s, i)
    ensures r.Some? ==> DoubleColonAt(s, r.value) && forall i :: 0 <= i < r.value ==> !DoubleColonAt(s, i)
  {
    if |s| < 2 then None
    else if s[0] == ':' && s[1] == ':' then assert DoubleColonAt(s, 0); Some(0)
    else
      var r := FirstDoubleColon(s[1..]);
      assert forall i :: 1 <= i < |s| - 1 ==> (DoubleColonAt(s, i) <==> DoubleColonAt(s[1..], i - 1));
      match r
      case None => None
      case Some(i) =>
        assert DoubleColonAt(s, i + 1) && !DoubleColonAt(s, 0);
        Some(i + 1)
  }

  /** The colon-separated groups of one side of a "::"; an empty side has none. */
  function Groups(s: string): seq<string> {
    if s == [] then [] else Split(s, ':')
  }

  /** An IPv6 literal, in full or with one "::" abbreviation; it has a colon. */
  predicate IsIPv6(s: string)
    ensures IsIPv6(s) ==> ':' in s
  {
    match FirstDoubleColon(s)
    case None =>
      var groups := Split(s, ':');
      SeveralPartsMeanSeparator(s, ':');
      |groups| == 8 && AllHexGroups(groups)
    case Some(i) =>
      var left, right := Groups(s[..i]), Groups(s[i + 2..]);
      AllHexGroups(left) && AllHexGroups(right) && |left| + |right| <= 7
  }

  /** Text that splits into more than one part holds the separator. */
  lemma SeveralPartsMeanSeparator(s: string, sep: char)
    ensures |Split(s, sep)| >= 2 ==> sep in s
  {
    var parts := Split(s, sep);
    if |parts| >= 2 {
      assert s[|parts[0]|] == sep;
    }
  }

  /** A character that occurs in no part and is not the separator does not occur in the joined text. */
  lemma {:induction false} JoinAvoids(parts: seq<string>, sep: char, c: char)
    requires |parts| >= 1 && c != sep
    requires forall i :: 0 <= i < |parts| ==> c !in parts[i]
    ensures c !in Join(parts, sep)
    decreases |parts|
  {
    if |parts| > 1 {
      JoinAvoids(parts[1..], sep, c);
    }
  }

  /** Four octets joined with dots contain no colon. */
  lemma OctetsHaveNoColon(parts: seq<string>)
    ensures (|parts| == 4 && forall i :: 0 <= i < 4 ==> IsOctet(parts[i])) ==> ':' !in Join(parts, '.')
  {
    if |parts| == 4 && forall i :: 0 <= i < 4 ==> IsOctet(parts[i]) {
      forall i | 0 <= i < 4
        ensures ':' !in parts[i]
      {
        assert AllDecimalDigits(parts[i]);
      }
      JoinAvoids(parts, '.', ':');
    }
  }

  /** No text is both an IPv4 and an IPv6 literal, so the order of the two checks never matters. */
  lemma IPv4AndIPv6Disjoint(s: string)
    ensures !(IsIPv4(s) && IsIPv6(s))
  {
  }

  /** Joining non-empty colon-free groups with ':' never produces "::". */
  lemma {:induction false} JoinedGroupsHaveNoDoubleColon(groups: seq<string>)
    requires |groups| >= 1
    requires forall i :: 0 <= i < |groups| ==> |groups[i]| >= 1 && ':' !in groups[i]
    ensures FirstDoubleColon(Join(groups, ':')).None?
    decreases |groups|
  {
    var s := Join(groups, ':');
    if |groups| == 1 {
      assert forall i :: 0 <= i < |s| ==> s[i] != ':';
    } else {
      var rest := Join(groups[1..], ':');
      JoinedGroupsHaveNoDoubleColon(groups[1..]);
      var n := |groups[0]|;
      assert forall i :: 0 <= i < n ==> s[i] == groups[0][i];
      assert s[n] == ':';
      assert forall i :: n < i < |s| ==> s[i] == rest[i - n - 1];
      assert |rest| >= 1 && rest[0] == groups[1][0];
      forall i | 0 <= i < |s| - 1
        ensures !DoubleColonAt(s, i)
      {
        if n < i {
          assert !DoubleColonAt(rest, i - n - 1);
        }
      }
    }
  }

  /** Hexadecimal groups are non-empty and hold no colon. */
  lemma HexGroupsHaveNoColon(groups: seq<string>)
    requires AllHexGroups(groups)
    ensures forall i :: 0 <= i < |groups| ==> |groups[i]| >= 1 && ':' !in groups[i]
  {
    forall i | 0 <= i < |groups|
      ensures ':' !in groups[i]
    {
      assert forall j :: 0 <= j < |groups[i]| ==> IsHexDigit(groups[i][j]);
    }
  }

  /** A full-form IPv6 literal is recognised from its eight groups. */
  lemma FullFormIsIPv6(groups: seq<string>)
    requires |groups| == 8 && AllHexGroups(groups)
    ensures IsIPv6(Join(groups, ':'))
  {
    HexGroupsHaveNoColon(groups);
    JoinedGroupsHaveNoDoubleColon(groups);
    SplitJoin(groups, ':');
  }

  /** One side of a "::": its groups joined with ':', or nothing when it has none. */
  function Side(groups: seq<string>): string {
    if groups == [] then [] else Join(groups, ':')
  }

  /** A joined text ends with its last part. */
  lemma {:induction false} JoinEndsWithLast(parts: seq<string>, sep: char)
    requires |parts| >= 1
    ensures var s, last := Join(parts, sep), parts[|parts| - 1];
      |last| <= |s| && s[|s| - |last|..] == last
    decreases |parts|
  {
    if |parts| > 1 {
      JoinEndsWithLast(parts[1..], sep);
    }
  }

  /** A side of hexadecimal groups gives its groups back, holds no "::", and does not end in ':'. */
  lemma SideOfHexGroups(groups: seq<string>)
    requires AllHexGroups(groups)
    ensures Groups(Side(groups)) == groups
    ensures FirstDoubleColon(Side(groups)).None?
    ensures |Side(groups)| >= 1 ==> Side(groups)[|Side(groups)| - 1] != ':'
  {
    if groups != [] {
      HexGroupsHaveNoColon(groups);
      JoinedGroupsHaveNoDoubleColon(groups);
      SplitJoin(groups, ':');
      var s, last := Join(groups, ':'), groups[|groups| - 1];
      JoinEndsWithLast(groups, ':');
      assert s[|s| - 1] == last[|last| - 1];
    }
  }

  /** A literal abbreviated with one "::" between at most seven hexadecimal groups is recognised. */
  lemma CompressedFormIsIPv6(left: seq<string>, right: seq<string>)
    requires AllHexGroups(left) && AllHexGroups(right) && |left| + |right| <= 7
    ensures IsIPv6(Side(left) + "::" + Side(right))
  {
    var l, r := Side(left), Side(right);
    var s := l + "::" + r;
    var n := |l|;
    SideOfHexGroups(left);
    SideOfHexGroups(right);
    assert DoubleColonAt(s, n);
    forall j | 0 <= j < n
      ensures !DoubleColonAt(s, j)
    {
      if j < n - 1 {
        assert !DoubleColonAt(l, j);
      } else {
        assert s[j] == l[n - 1];
      }
    }
    assert s[..n] == l && s[n + 2..] == r;
  }

  /** A dotted quad is recognised from its four octets. */
  lemma DottedQuadIsIPv4(octets: seq<string>)
    requires |octets| == 4 && forall i :: 0 <= i < 4 ==> IsOctet(octets[i])
    ensures IsIPv4(Join(octets, '.'))
  {
    assert forall i :: 0 <= i < 4 ==> '.' !in octets[i] by {
      forall i | 0 <= i < 4 ensures '.' !in octets[i] {
        assert AllDecimalDigits(octets[i]);
      }
    }
    SplitJoin(octets, '.');
  }

  /** Text without ':' or '.' is neither kind of literal, so it is geocoded. */
  lemma PlainTextIsNotAnIpLiteral(s: string)
    requires ':' !in s && '.' !in s
    ensures !IsIPv4(s) && !IsIPv6(s)
  {
    SplitWithoutSep(s, '.');
    SplitWithoutSep(s, ':');
  }
}
