/**
  The IPv6 recogniser of network.py, against the IPv6address rule of RFC 3986, section 3.2.2,
  and the dotted IPv4 recogniser that urisup.py uses.
 */
module Network {
  import opened Wrappers
  import opened Strings

  predicate Digit(c: char) { '0' <= c <= '9' }
  predicate HexDigit(c: char) { '0' <= c <= '9' || 'a' <= c <= 'f' || 'A' <= c <= 'F' }

  function DecValue(s: string): nat
    requires AllOf(s, Digit)
  {
    if s == "" then 0 else 10 * DecValue(s[..|s| - 1]) + (s[|s| - 1] as nat - '0' as nat)
  }

  // ---- The recogniser ----

  predicate ValidH16(s: string) { 1 <= |s| <= 4 && AllOf(s, HexDigit) }

  /** RE_IPV4_EMBEDDED and the test of every part. */
  predicate ValidIPv4Embedded(s: string) {
    var parts := SplitMax(s, '.', 4);
    && |parts| == 4
    && (forall i :: 0 <= i < 4 ==> 1 <= |parts[i]| <= 3 && AllOf(parts[i], Digit))
    && (forall i :: 0 <= i < 4 ==> (parts[i] == "0" || parts[i][0] != '0') && DecValue(parts[i]) <= 255)
  }

  predicate AllH16(parts: seq<string>) {
    forall i :: 0 <= i < |parts| ==> ValidH16(parts[i])
  }

  /** The number of 16-bit groups, or None for False. */
  function ValidIPv6Right(s: string): Option<nat> {
    if s == "" then Some(0)
    else
      var parts := SplitMax(s, ':', 8);
      if |parts| > 8
         || (|parts| > 7 && '.' in s)
         || !(forall i :: 0 <= i < |parts| - 1 ==> AllOf(parts[i], HexDigit)) then None
      else
        var last := parts[|parts| - 1];
        if '.' in last then
          if !ValidIPv4Embedded(last) || !AllH16(parts[..|parts| - 1]) then None
          else Some(2 + (|parts| - 1))
        else if !AllH16(parts) then None
        else Some(|parts|)
  }

  function ValidIPv6Left(s: string): Option<nat> {
    if s == "" then Some(0)
    else
      var parts := SplitMax(s, ':', 7);
      if |parts| > 7 || !(forall i :: 0 <= i < |parts| ==> AllOf(parts[i], HexDigit)) then None
      else if !AllH16(parts) then None
      else Some(|parts|)
  }

  /** s.find('::') */
  function FindGap(s: string): (pos: int)
    ensures -1 <= pos && (pos >= 0 ==> pos + 2 <= |s| && s[pos] == ':' && s[pos + 1] == ':')
    ensures forall i :: 0 <= i < (if pos < 0 then |s| - 1 else pos) ==> !(s[i] == ':' && s[i + 1] == ':')
  {
    if |s| < 2 then -1
    else if s[0] == ':' && s[1] == ':' then 0
    else
      var r := FindGap(s[1..]);
      assert forall i :: 1 <= i < |s| - 1 ==> s[1..][i - 1] == s[i] && s[1..][i] == s[i + 1];
      if r < 0 then -1 else r + 1
  }

  /** s.count('::'), without overlaps */
  function CountGaps(s: string): nat
    decreases |s|
  {
    var pos := FindGap(s);
    if pos < 0 then 0 else 1 + CountGaps(s[pos + 2..])
  }

  predicate ValidIPv6Address(s: string) {
    var pos := FindGap(s);
    if pos < 0 then ValidIPv6Right(s) == Some(8)
    else if CountGaps(s) == 1 then
      var right, left := ValidIPv6Right(s[pos + 2..]), ValidIPv6Left(s[..pos]);
      right.Some? && left.Some? && right.value + left.value <= 7
    else false
  }

  // ---- Dotted IPv4 ----

  function NumberValue(s: string, base: nat): nat
    requires AllOf(s, HexDigit)
  {
    if s == "" then 0
    else
      var c := s[|s| - 1];
      var d := if '0' <= c <= '9' then c as nat - '0' as nat
               else if 'a' <= c <= 'f' then c as nat - 'a' as nat + 10
               else c as nat - 'A' as nat + 10;
      base * NumberValue(s[..|s| - 1], base) + d
  }

  /** int(s, 0) of a string over the hexadecimal digits, 'x' and 'X'; None for ValueError. */
  function IntLiteral(s: string): Option<nat> {
    if |s| > 2 && s[0] == '0' && s[1] in "xX" && AllOf(s[2..], HexDigit) then Some(NumberValue(s[2..], 16))
    else if |s| > 2 && s[0] == '0' && s[1] in "bB" && AllOf(s[2..], c => c == '0' || c == '1')
    then Some(NumberValue(s[2..], 2))
    else if s != "" && AllOf(s, Digit) && (s[0] != '0' || AllOf(s, c => c == '0')) then Some(NumberValue(s, 10))
    else None
  }

  /** valid_ipv4_dotdec: four bytes in decimal, hexadecimal or binary notation. */
  predicate ValidIPv4DotDec(s: string) {
    && s != "" && (HexDigit(s[0]) || s[0] in "xX")
    && AllOf(s[1..], c => HexDigit(c) || c in ".xX")
    && var parts := SplitMax(s, '.', 4);
       |parts| == 4 && forall i :: 0 <= i < 4 ==> IntLiteral(parts[i]).Some? && IntLiteral(parts[i]).value <= 255
  }

  // ---- RFC 3986, section 3.2.2 ----

  /** dec-octet = DIGIT / %x31-39 DIGIT / "1" 2DIGIT / "2" %x30-34 DIGIT / "25" %x30-35 */
  predicate DecOctet(s: string) {
    || (|s| == 1 && Digit(s[0]))
    || (|s| == 2 && '1' <= s[0] <= '9' && Digit(s[1]))
    || (|s| == 3 && s[0] == '1' && Digit(s[1]) && Digit(s[2]))
    || (|s| == 3 && s[0] == '2' && '0' <= s[1] <= '4' && Digit(s[2]))
    || (|s| == 3 && s[0] == '2' && s[1] == '5' && '0' <= s[2] <= '5')
  }

  ghost predicate IPv4address(s: string) {
    exists a, b, c, d :: Octets(s, a, b, c, d)
  }

  ghost predicate Octets(s: string, a: string, b: string, c: string, d: string) {
    DecOctet(a) && DecOctet(b) && DecOctet(c) && DecOctet(d) && s == a + "." + b + "." + c + "." + d
  }

  /** n( h16 ":" ) */
  ghost predicate H16Colons(n: nat, s: string)
    decreases n, 1
  {
    if n == 0 then s == "" else exists h, t :: H16Then(n, s, h, t)
  }

  ghost predicate H16Then(n: nat, s: string, h: string, t: string)
    requires n > 0
    decreases n, 0
  {
    ValidH16(h) && s == h + ":" + t && H16Colons(n - 1, t)
  }

  ghost predicate Ls32(s: string) {
    (exists a, b :: ValidH16(a) && ValidH16(b) && s == a + ":" + b) || IPv4address(s)
  }

  /** n( h16 ":" ) ls32 */
  ghost predicate GroupsLs32(n: nat, s: string) {
    exists p, l :: H16Colons(n, p) && Ls32(l) && s == p + l
  }

  /** n( h16 ":" ) h16 */
  ghost predicate GroupsH16(n: nat, s: string) {
    exists p, h :: H16Colons(n, p) && ValidH16(h) && s == p + h
  }

  /** [ *n( h16 ":" ) h16 ] */
  ghost predicate UpTo(n: nat, s: string) {
    s == "" || exists k :: 0 <= k <= n && GroupsH16(k, s)
  }

  /** s is a "::" b */
  ghost predicate Around(s: string, a: string, b: string) { s == a + "::" + b }

  /** The nine alternatives of the rule. */
  ghost predicate IPv6address(s: string) {
    || GroupsLs32(6, s)
    || (exists b :: Around(s, "", b) && GroupsLs32(5, b))
    || (exists a, b :: Around(s, a, b) && (a == "" || ValidH16(a)) && GroupsLs32(4, b))
    || (exists a, b :: Around(s, a, b) && UpTo(1, a) && GroupsLs32(3, b))
    || (exists a, b :: Around(s, a, b) && UpTo(2, a) && GroupsLs32(2, b))
    || (exists a, b :: Around(s, a, b) && UpTo(3, a) && GroupsLs32(1, b))
    || (exists a, b :: Around(s, a, b) && UpTo(4, a) && Ls32(b))
    || (exists a, b :: Around(s, a, b) && UpTo(5, a) && ValidH16(b))
    || (exists a, b :: Around(s, a, b) && UpTo(6, a) && b == "")
  }

  // ---- Groups as lists of parts ----

  /** s is n parts h16, each followed by a colon, and then x. */
  ghost predicate Listed(parts: seq<string>, x: string, s: string) {
    AllH16(parts) && s == Join(parts + [x], ':')
  }

  lemma {:induction false} ColonsToList(n: nat, p: string, x: string) returns (parts: seq<string>)
    requires H16Colons(n, p)
    ensures |parts| == n && Listed(parts, x, p + x)
  {
    if n == 0 {
      parts := [];
      assert p + x == x;
    } else {
      var h, t :| H16Then(n, p, h, t);
      var rest := ColonsToList(n - 1, t, x);
      parts := [h] + rest;
      assert (parts + [x])[1..] == rest + [x];
      assert p + x == h + [':'] + (t + x);
    }
  }

  lemma {:induction false} ListToColons(parts: seq<string>, x: string) returns (p: string)
    requires AllH16(parts)
    ensures H16Colons(|parts|, p) && p + x == Join(parts + [x], ':')
  {
    if parts == [] {
      p := "";
    } else {
      var t := ListToColons(parts[1..], x);
      p := parts[0] + ":" + t;
      assert H16Then(|parts|, p, parts[0], t);
      assert (parts + [x])[1..] == parts[1..] + [x];
      assert p + x == parts[0] + [':'] + (t + x);
    }
  }

  lemma H16IsBare(h: string)
    requires ValidH16(h)
    ensures ':' !in h && '.' !in h && h != ""
  {
  }

  // ---- IPv4 ----

  lemma DecOctetValue(s: string)
    ensures DecOctet(s) <==> 1 <= |s| <= 3 && AllOf(s, Digit) && (s == "0" || s[0] != '0') && DecValue(s) <= 255
  {
  }

  lemma DecOctetBare(s: string)
    requires DecOctet(s)
    ensures '.' !in s && ':' !in s
  {
  }

  lemma JoinFour(a: string, b: string, c: string, d: string)
    ensures Join([a, b, c, d], '.') == a + "." + b + "." + c + "." + d
  {
    assert [a, b, c, d][1..] == [b, c, d] && [b, c, d][1..] == [c, d] && [c, d][1..] == [d];
    assert Join([c, d], '.') == c + ['.'] + d;
    assert Join([b, c, d], '.') == b + ['.'] + Join([c, d], '.');
  }

  lemma EmbeddedToIPv4(s: string)
    requires ValidIPv4Embedded(s)
    ensures IPv4address(s)
  {
    var parts := SplitMax(s, '.', 4);
    SplitThenJoin(s, '.', 4);
    forall i | 0 <= i < 4 ensures DecOctet(parts[i]) { DecOctetValue(parts[i]); }
    assert parts == [parts[0], parts[1], parts[2], parts[3]];
    JoinFour(parts[0], parts[1], parts[2], parts[3]);
    assert Octets(s, parts[0], parts[1], parts[2], parts[3]);
  }

  lemma IPv4ToEmbedded(s: string, a: string, b: string, c: string, d: string)
    requires Octets(s, a, b, c, d)
    ensures ValidIPv4Embedded(s)
  {
    JoinFour(a, b, c, d);
    DecOctetBare(a); DecOctetBare(b); DecOctetBare(c); DecOctetBare(d);
    var parts := [a, b, c, d];
    JoinThenSplit(parts, '.', 4);
    assert SplitMax(s, '.', 4) == parts;
    forall i | 0 <= i < 4
      ensures 1 <= |parts[i]| <= 3 && AllOf(parts[i], Digit) && (parts[i] == "0" || parts[i][0] != '0')
        && DecValue(parts[i]) <= 255
    {
      assert parts[i] in [a, b, c, d];
      DecOctetValue(parts[i]);
    }
  }

  /** _valid_ipv4_embedded accepts exactly the IPv4address rule. */
  lemma EmbeddedIsIPv4(s: string)
    ensures ValidIPv4Embedded(s) <==> IPv4address(s)
  {
    if ValidIPv4Embedded(s) { EmbeddedToIPv4(s); }
    if IPv4address(s) {
      var a, b, c, d :| Octets(s, a, b, c, d);
      IPv4ToEmbedded(s, a, b, c, d);
    }
  }

  lemma IPv4Facts(s: string)
    requires IPv4address(s)
    ensures '.' in s && ':' !in s && s != ""
  {
    var a, b, c, d :| Octets(s, a, b, c, d);
    DecOctetBare(a); DecOctetBare(b); DecOctetBare(c); DecOctetBare(d);
    assert s[|a|] == '.';
  }

  // ---- The two halves ----

  /** k groups of 16 bits, an IPv4 tail counting for two. */
  ghost predicate RightGroups(k: nat, s: string) {
    || (k == 0 && s == "")
    || (k >= 1 && GroupsH16(k - 1, s))
    || (k >= 2 && exists p, v :: H16Colons(k - 2, p) && IPv4address(v) && s == p + v)
  }

  ghost predicate LeftGroups(j: nat, a: string) {
    (j == 0 && a == "") || (j >= 1 && GroupsH16(j - 1, a))
  }

  lemma AllH16Bare(parts: seq<string>)
    requires AllH16(parts)
    ensures Bare(parts, ':') && Bare(parts, '.')
  {
  }

  lemma {:induction false} NoDotInJoin(parts: seq<string>)
    requires Bare(parts, '.')
    ensures '.' !in Join(parts, ':')
  {
    if |parts| > 1 { NoDotInJoin(parts[1..]); }
  }

  /** Parts that are all h16 except perhaps the last make a string that splits into them. */
  lemma GroupsSplit(parts: seq<string>, x: string, max: nat)
    requires AllH16(parts) && ':' !in x && |parts| + 1 <= max + 1
    ensures SplitMax(Join(parts + [x], ':'), ':', max) == parts + [x]
  {
    AllH16Bare(parts);
    JoinThenSplit(parts + [x], ':', max);
  }

  lemma RightSound(s: string)
    requires ValidIPv6Right(s).Some?
    ensures RightGroups(ValidIPv6Right(s).value, s) && ValidIPv6Right(s).value <= 8
  {
    hide H16Colons; hide ValidH16; hide SplitMax; hide Join; hide IPv4address;
    if s != "" {
      var parts := SplitMax(s, ':', 8);
      SplitThenJoin(s, ':', 8);
      var init, last := parts[..|parts| - 1], parts[|parts| - 1];
      assert init + [last] == parts;
      var p := ListToColons(init, last);
      if '.' in last {
        EmbeddedIsIPv4(last);
        assert |parts| == 8 ==> '.' in s by { if |parts| == 8 { DotSurvives(p, last); } }
      } else {
        assert GroupsH16(|parts| - 1, s);
      }
    }
  }

  lemma DotSurvives(p: string, x: string)
    requires '.' in x
    ensures '.' in p + x
  {
  }

  lemma RightCompleteH16(k: nat, s: string)
    requires 1 <= k <= 8 && GroupsH16(k - 1, s)
    ensures ValidIPv6Right(s) == Some(k)
  {
    var p, h :| H16Colons(k - 1, p) && ValidH16(h) && s == p + h;
    var init := ColonsToList(k - 1, p, h);
    H16IsBare(h);
    GroupsSplit(init, h, 8);
    var parts := init + [h];
    AllH16Bare(parts);
    NoDotInJoin(parts);
    assert s != "" && |parts| == k && parts[|parts| - 1] == h;
  }

  lemma RightCompleteIPv4(k: nat, s: string, p: string, v: string)
    requires 2 <= k <= 8 && H16Colons(k - 2, p) && IPv4address(v) && s == p + v
    ensures ValidIPv6Right(s) == Some(k)
  {
    var init := ColonsToList(k - 2, p, v);
    IPv4Facts(v);
    GroupsSplit(init, v, 8);
    EmbeddedIsIPv4(v);
    var parts := init + [v];
    assert s != "" && parts[|parts| - 1] == v && parts[..|parts| - 1] == init;
  }

  /** valid_ipv6_right counts the groups of exactly the well-formed right halves. */
  lemma RightIs(k: nat, s: string)
    requires k <= 8
    ensures ValidIPv6Right(s) == Some(k) <==> RightGroups(k, s)
  {
    if ValidIPv6Right(s) == Some(k) { RightSound(s); }
    if RightGroups(k, s) {
      if k == 0 && s == "" {
      } else if k >= 1 && GroupsH16(k - 1, s) {
        RightCompleteH16(k, s);
      } else {
        var p, v :| H16Colons(k - 2, p) && IPv4address(v) && s == p + v;
        RightCompleteIPv4(k, s, p, v);
      }
    }
  }

  lemma LeftSound(s: string)
    requires ValidIPv6Left(s).Some?
    ensures LeftGroups(ValidIPv6Left(s).value, s) && ValidIPv6Left(s).value <= 7
  {
    hide H16Colons; hide ValidH16; hide SplitMax; hide Join; hide IPv4address;
    if s != "" {
      var parts := SplitMax(s, ':', 7);
      SplitThenJoin(s, ':', 7);
      var init, last := parts[..|parts| - 1], parts[|parts| - 1];
      assert init + [last] == parts;
      var p := ListToColons(init, last);
      assert GroupsH16(|parts| - 1, s);
    }
  }

  lemma LeftComplete(k: nat, s: string)
    requires k <= 7 && LeftGroups(k, s)
    ensures ValidIPv6Left(s) == Some(k)
  {
    if k > 0 {
      var p, h :| H16Colons(k - 1, p) && ValidH16(h) && s == p + h;
      var init := ColonsToList(k - 1, p, h);
      H16IsBare(h);
      GroupsSplit(init, h, 7);
      assert s != "" && |init + [h]| == k;
    }
  }

  lemma LeftIs(k: nat, s: string)
    requires k <= 7
    ensures ValidIPv6Left(s) == Some(k) <==> LeftGroups(k, s)
  {
    if ValidIPv6Left(s) == Some(k) { LeftSound(s); }
    if LeftGroups(k, s) { LeftComplete(k, s); }
  }

  lemma Ls32ToRight(n: nat, s: string)
    requires GroupsLs32(n, s)
    ensures RightGroups(n + 2, s)
  {
    hide H16Colons; hide ValidH16; hide IPv4address;
    var p, l :| H16Colons(n, p) && Ls32(l) && s == p + l;
    if !IPv4address(l) {
      var a, b :| ValidH16(a) && ValidH16(b) && l == a + ":" + b;
      var q := AppendGroup(n, p, a);
      assert s == q + b;
      assert GroupsH16(n + 1, s);
    }
  }

  lemma RightToLs32(n: nat, s: string)
    requires RightGroups(n + 2, s)
    ensures GroupsLs32(n, s)
  {
    if GroupsH16(n + 1, s) {
      var q, b :| H16Colons(n + 1, q) && ValidH16(b) && s == q + b;
      var p, a := LastGroup(n, q);
      var l := a + ":" + b;
      assert s == p + l;
      assert Ls32(l);
    } else {
      var p, v :| H16Colons(n, p) && IPv4address(v) && s == p + v;
      assert Ls32(v);
    }
  }

  /** n( h16 ":" ) ls32 is n + 2 groups. */
  lemma GroupsLs32Is(n: nat, s: string)
    ensures GroupsLs32(n, s) <==> RightGroups(n + 2, s)
  {
    if GroupsLs32(n, s) { Ls32ToRight(n, s); }
    if RightGroups(n + 2, s) { RightToLs32(n, s); }
  }

  lemma {:induction false} AppendGroup(n: nat, p: string, a: string) returns (q: string)
    requires H16Colons(n, p) && ValidH16(a)
    ensures H16Colons(n + 1, q) && q == p + a + ":"
  {
    if n == 0 {
      q := a + ":" + "";
      assert H16Then(1, q, a, "");
      assert q == p + a + ":";
    } else {
      var h, t :| H16Then(n, p, h, t);
      var r := AppendGroup(n - 1, t, a);
      q := h + ":" + r;
      assert H16Then(n + 1, q, h, r);
      assert q == p + a + ":";
    }
  }

  lemma {:induction false} LastGroup(n: nat, q: string) returns (p: string, a: string)
    requires H16Colons(n + 1, q)
    ensures H16Colons(n, p) && ValidH16(a) && q == p + a + ":"
  {
    var h, t :| H16Then(n + 1, q, h, t);
    if n == 0 {
      p, a := "", h;
    } else {
      var r;
      r, a := LastGroup(n - 1, t);
      p := h + ":" + r;
      assert H16Then(n, p, h, r);
      assert q == p + a + ":";
    }
  }

  // ---- The gap ----

  /** s has no two colons in a row, and does not touch one at the given end. */
  ghost predicate NoGap(s: string) {
    forall i :: 0 <= i < |s| - 1 ==> !(s[i] == ':' && s[i + 1] == ':')
  }

  lemma {:induction false} ColonsNoGap(n: nat, p: string, x: string)
    requires H16Colons(n, p) && NoGap(x) && (x == "" || x[0] != ':')
    ensures NoGap(p + x) && (p + x == "" || (p + x)[0] != ':')
  {
    if n == 0 {
      assert p + x == x;
    } else {
      var h, t :| H16Then(n, p, h, t);
      ColonsNoGap(n - 1, t, x);
      H16IsBare(h);
      var tail := t + x;
      assert p + x == h + [':'] + tail;
      forall i | 0 <= i < |p + x| - 1 ensures !((p + x)[i] == ':' && (p + x)[i + 1] == ':') {
        if i > |h| { assert (p + x)[i] == tail[i - |h| - 1] && (p + x)[i + 1] == tail[i - |h|]; }
      }
    }
  }

  ghost predicate Sealed(s: string) { NoGap(s) && (s == "" || (s[0] != ':' && s[|s| - 1] != ':')) }

  lemma GroupsSealed(n: nat, p: string, h: string)
    requires H16Colons(n, p) && (ValidH16(h) || IPv4address(h))
    ensures Sealed(p + h)
  {
    hide H16Colons; hide ValidH16; hide IPv4address;
    if ValidH16(h) { H16IsBare(h); } else { IPv4Facts(h); }
    ColonsNoGap(n, p, h);
    assert (p + h)[|p + h| - 1] == h[|h| - 1];
  }

  lemma HalfFacts(k: nat, s: string)
    requires RightGroups(k, s)
    ensures Sealed(s)
  {
    hide H16Colons; hide ValidH16; hide IPv4address; hide NoGap;
    if k == 0 && s == "" {
      assert NoGap("") by { EmptyNoGap(); }
    } else if k >= 1 && GroupsH16(k - 1, s) {
      var p, h :| H16Colons(k - 1, p) && ValidH16(h) && s == p + h;
      GroupsSealed(k - 1, p, h);
    } else {
      var p, v :| H16Colons(k - 2, p) && IPv4address(v) && s == p + v;
      GroupsSealed(k - 2, p, v);
    }
  }

  lemma EmptyNoGap()
    ensures NoGap("")
  {
  }

  lemma FindNone(s: string)
    requires NoGap(s)
    ensures FindGap(s) == -1 && CountGaps(s) == 0
  {
  }

  lemma FindBetween(a: string, b: string)
    requires NoGap(a) && (a == "" || a[|a| - 1] != ':') && NoGap(b)
    ensures FindGap(a + "::" + b) == |a| && CountGaps(a + "::" + b) == 1
  {
    var s := a + "::" + b;
    assert s[|a|] == ':' && s[|a| + 1] == ':';
    forall i | 0 <= i < |a| ensures !(s[i] == ':' && s[i + 1] == ':') {
      assert s[i] == a[i];
      if i + 1 < |a| { assert s[i + 1] == a[i + 1]; }
    }
    assert s[|a| + 2..] == b;
    FindNone(b);
  }

  // ---- The equivalence ----

  /** A "::" between at most seven groups, or eight groups without one. */
  ghost predicate Counted(s: string) {
    || RightGroups(8, s)
    || (exists a, b, j: nat, k: nat :: Around(s, a, b) && LeftGroups(j, a) && RightGroups(k, b) && j + k <= 7)
  }

  lemma AcceptedToCounted(s: string)
    requires ValidIPv6Address(s)
    ensures Counted(s)
  {
    hide RightGroups; hide LeftGroups; hide ValidIPv6Right; hide ValidIPv6Left;
    var pos := FindGap(s);
    if pos < 0 {
      RightIs(8, s);
    } else {
      var a, b := s[..pos], s[pos + 2..];
      var k, j := ValidIPv6Right(b).value, ValidIPv6Left(a).value;
      RightIs(k, b);
      LeftIs(j, a);
      assert s == a + "::" + b;
      assert Around(s, a, b) && LeftGroups(j, a) && RightGroups(k, b);
    }
  }

  lemma LeftIsRight(j: nat, a: string)
    requires LeftGroups(j, a)
    ensures RightGroups(j, a)
  {
  }

  lemma CountedToAccepted(s: string)
    requires Counted(s)
    ensures ValidIPv6Address(s)
  {
    hide RightGroups; hide LeftGroups; hide ValidIPv6Right; hide ValidIPv6Left; hide NoGap;
    if RightGroups(8, s) {
      HalfFacts(8, s);
      FindNone(s);
      RightIs(8, s);
    } else {
      var a, b, j: nat, k: nat :| Around(s, a, b) && LeftGroups(j, a) && RightGroups(k, b) && j + k <= 7;
      LeftIsRight(j, a);
      HalfFacts(j, a);
      HalfFacts(k, b);
      FindBetween(a, b);
      assert s[..|a|] == a && s[|a| + 2..] == b;
      RightIs(k, b);
      LeftIs(j, a);
    }
  }

  lemma UpToIs(n: nat, a: string)
    ensures UpTo(n, a) <==> exists j: nat :: j <= n + 1 && LeftGroups(j, a)
  {
    if UpTo(n, a) {
      if a == "" {
        assert LeftGroups(0, a);
      } else {
        var k :| 0 <= k <= n && GroupsH16(k, a);
        assert LeftGroups(k + 1, a);
      }
    }
    if exists j: nat :: j <= n + 1 && LeftGroups(j, a) {
      var j: nat :| j <= n + 1 && LeftGroups(j, a);
      assert j >= 1 ==> GroupsH16(j - 1, a);
    }
  }

  lemma H16IsOneGroup(b: string)
    ensures ValidH16(b) <==> GroupsH16(0, b)
  {
    if ValidH16(b) { assert H16Colons(0, "") && b == "" + b; }
    if GroupsH16(0, b) {
      var p, h :| H16Colons(0, p) && ValidH16(h) && b == p + h;
      assert b == h;
    }
  }

  lemma Ls32IsTwoGroups(b: string)
    ensures Ls32(b) <==> GroupsLs32(0, b)
  {
    hide Ls32;
    if Ls32(b) { assert H16Colons(0, "") && b == "" + b; }
    if GroupsLs32(0, b) {
      var p, l :| H16Colons(0, p) && Ls32(l) && b == p + l;
      assert b == l;
    }
  }

  /** The part of an alternative after its "::", k groups long. */
  ghost predicate AltRight(k: nat, b: string) {
    if k == 0 then b == "" else if k == 1 then ValidH16(b) else if k == 2 then Ls32(b) else GroupsLs32(k - 2, b)
  }

  /** What may stand before it. */
  ghost predicate AltLeft(k: nat, a: string) {
    if k >= 7 then a == "" else if k == 6 then a == "" || ValidH16(a) else UpTo(6 - k, a)
  }

  lemma AltRightCounts(k: nat, b: string)
    requires AltRight(k, b)
    ensures RightGroups(k, b)
  {
    hide GroupsLs32; hide Ls32;
    if k == 1 { H16IsOneGroup(b); }
    if k == 2 { Ls32IsTwoGroups(b); }
    if k >= 2 { GroupsLs32Is(k - 2, b); }
  }

  lemma AltCounts(k: nat, a: string, b: string) returns (j: nat)
    requires k <= 7 && AltLeft(k, a) && AltRight(k, b)
    ensures LeftGroups(j, a) && RightGroups(k, b) && j + k <= 7
  {
    hide RightGroups; hide AltRight; hide GroupsH16; hide UpTo;
    AltRightCounts(k, b);
    if k >= 6 {
      H16IsOneGroup(a);
      j := if a == "" then 0 else 1;
    } else {
      j := LeftCount(6 - k, a);
    }
  }

  lemma CountsRight(k: nat, b: string)
    requires RightGroups(k, b)
    ensures AltRight(k, b)
  {
    hide H16Colons; hide ValidH16; hide Ls32; hide GroupsLs32;
    if k == 1 { H16IsOneGroup(b); }
    if k == 2 { Ls32IsTwoGroups(b); }
    if k >= 2 { GroupsLs32Is(k - 2, b); }
  }

  lemma CountsAlt(k: nat, a: string, b: string, j: nat)
    requires LeftGroups(j, a) && RightGroups(k, b) && j + k <= 7
    ensures AltLeft(k, a) && AltRight(k, b)
  {
    hide GroupsH16; hide UpTo; hide ValidH16; hide RightGroups; hide AltRight;
    CountsRight(k, b);
    if k == 6 { H16IsOneGroup(a); }
    if k <= 5 { UpToIs(6 - k, a); }
  }

  /** The halves of a string that matches one of the "::" alternatives. */
  lemma Alternative(s: string) returns (a: string, b: string, k: nat)
    requires IPv6address(s) && !GroupsLs32(6, s)
    ensures Around(s, a, b) && k <= 7 && AltLeft(k, a) && AltRight(k, b)
  {
    hide GroupsLs32; hide Ls32; hide UpTo; hide ValidH16; hide Around;
    if b0 :| Around(s, "", b0) && GroupsLs32(5, b0) {
      a, b, k := "", b0, 7;
    } else if a0, b0 :| Around(s, a0, b0) && (a0 == "" || ValidH16(a0)) && GroupsLs32(4, b0) {
      a, b, k := a0, b0, 6;
    } else if a0, b0 :| Around(s, a0, b0) && UpTo(1, a0) && GroupsLs32(3, b0) {
      a, b, k := a0, b0, 5;
    } else if a0, b0 :| Around(s, a0, b0) && UpTo(2, a0) && GroupsLs32(2, b0) {
      a, b, k := a0, b0, 4;
    } else if a0, b0 :| Around(s, a0, b0) && UpTo(3, a0) && GroupsLs32(1, b0) {
      a, b, k := a0, b0, 3;
    } else if a0, b0 :| Around(s, a0, b0) && UpTo(4, a0) && Ls32(b0) {
      a, b, k := a0, b0, 2;
    } else if a0, b0 :| Around(s, a0, b0) && UpTo(5, a0) && ValidH16(b0) {
      a, b, k := a0, b0, 1;
    } else {
      a, b :| Around(s, a, b) && UpTo(6, a) && b == "";
      k := 0;
    }
  }

  lemma AlternativeMatches(s: string, a: string, b: string, k: nat)
    requires Around(s, a, b) && k <= 7 && AltLeft(k, a) && AltRight(k, b)
    ensures IPv6address(s)
  {
    hide GroupsLs32; hide Ls32; hide UpTo; hide ValidH16; hide Around;
  }

  lemma GrammarToCounted(s: string)
    requires IPv6address(s)
    ensures Counted(s)
  {
    hide IPv6address; hide RightGroups; hide LeftGroups; hide AltLeft; hide AltRight;
    if GroupsLs32(6, s) {
      GroupsLs32Is(6, s);
    } else {
      var a, b, k := Alternative(s);
      var j := AltCounts(k, a, b);
      assert Around(s, a, b) && LeftGroups(j, a) && RightGroups(k, b) && j + k <= 7;
    }
  }

  lemma LeftCount(n: nat, a: string) returns (j: nat)
    requires UpTo(n, a)
    ensures j <= n + 1 && LeftGroups(j, a)
  {
    UpToIs(n, a);
    j :| j <= n + 1 && LeftGroups(j, a);
  }

  lemma CountedToGrammar(s: string)
    requires Counted(s)
    ensures IPv6address(s)
  {
    hide RightGroups; hide LeftGroups; hide AltLeft; hide AltRight;
    if RightGroups(8, s) {
      GroupsLs32Is(6, s);
      assert IPv6address(s) by { hide Around; hide UpTo; }
    } else {
      var a, b, j: nat, k: nat :| Around(s, a, b) && LeftGroups(j, a) && RightGroups(k, b) && j + k <= 7;
      CountsAlt(k, a, b, j);
      AlternativeMatches(s, a, b, k);
    }
  }

  /** The recogniser accepts exactly the strings the IPv6address rule generates. */
  lemma ValidIPv6IsRfc3986(s: string)
    ensures ValidIPv6Address(s) <==> IPv6address(s)
  {
    hide ValidIPv6Address; hide IPv6address; hide Counted;
    if ValidIPv6Address(s) { AcceptedToCounted(s); CountedToGrammar(s); }
    if IPv6address(s) { GrammarToCounted(s); CountedToAccepted(s); }
  }

  // ---- Characters of an address ----

  predicate AddressChar(c: char) { HexDigit(c) || c == ':' || c == '.' }

  lemma {:induction false} ColonsChars(n: nat, p: string)
    requires H16Colons(n, p)
    ensures AllOf(p, AddressChar)
  {
    if n > 0 {
      var h, t :| H16Then(n, p, h, t);
      ColonsChars(n - 1, t);
      assert AllOf(h, AddressChar);
    }
  }

  lemma IPv4Chars(v: string)
    requires IPv4address(v)
    ensures AllOf(v, AddressChar)
  {
    var a, b, c, d :| Octets(v, a, b, c, d);
    OctetChars(a); OctetChars(b); OctetChars(c); OctetChars(d);
  }

  lemma OctetChars(s: string)
    requires DecOctet(s)
    ensures AllOf(s, AddressChar)
  {
  }

  lemma RightChars(k: nat, s: string)
    requires RightGroups(k, s)
    ensures AllOf(s, AddressChar) && (k > 0 ==> s != "")
  {
    hide IPv4address; hide H16Colons;
    if k >= 1 && GroupsH16(k - 1, s) {
      var p, h :| H16Colons(k - 1, p) && ValidH16(h) && s == p + h;
      ColonsChars(k - 1, p);
    } else if k != 0 || s != "" {
      var p, v :| H16Colons(k - 2, p) && IPv4address(v) && s == p + v;
      ColonsChars(k - 2, p);
      IPv4Chars(v);
      IPv4Facts(v);
    }
  }

  lemma IPv6Chars(s: string)
    requires ValidIPv6Address(s)
    ensures s != "" && AllOf(s, AddressChar)
  {
    hide RightGroups; hide LeftGroups; hide ValidIPv6Address;
    AcceptedToCounted(s);
    if RightGroups(8, s) {
      RightChars(8, s);
    } else {
      var a, b, j: nat, k: nat :| Around(s, a, b) && LeftGroups(j, a) && RightGroups(k, b) && j + k <= 7;
      LeftIsRight(j, a);
      RightChars(j, a);
      RightChars(k, b);
    }
  }

  lemma IPv4DotDecChars(s: string)
    requires ValidIPv4DotDec(s)
    ensures s != "" && forall i :: 0 <= i < |s| ==> HexDigit(s[i]) || s[i] in ".xX"
  {
  }
}
