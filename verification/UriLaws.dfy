/**
  What the parts of the URI functions do to any text, not only to text that urisup.py wrote:
  the character sets, percent decoding in either case, the cuts, and what is valid.
 */
module UriLaws {
  import opened Uris
  import opened Wrappers
  import opened Strings
  import Network

  // ---- The characters ----

  const UPPER := "ABCDEFGHIJKLMNOPQRSTUVWXYZ"
  const LOWER := "abcdefghijklmnopqrstuvwxyz"
  const DIGITS := "0123456789"
  const UPPER_HEX := "0123456789ABCDEF"
  const LOWER_HEX := "0123456789abcdef"

  // The delimiters of RFC 3986, section 2.2, and what it allows nowhere but in an escape.
  const GEN_DELIMS := ":/?#[]@"
  const EXCLUDED := "\"%<>\\^`{|}"

  predicate Printable(c: char) { '!' <= c <= '~' }

  function Ones(a: bool, b: bool, c: bool, d: bool): nat {
    (if a then 1 else 0) + (if b then 1 else 0) + (if c then 1 else 0) + (if d then 1 else 0)
  }

  /** Every printable character is one of: unreserved, a sub-delimiter, a general delimiter, and
      excluded; and no other character is. */
  lemma CharactersParted(c: char)
    ensures Printable(c) ==> Ones(Unreserved(c), SubDelim(c), c in GEN_DELIMS, c in EXCLUDED) == 1
    ensures !Printable(c) ==> !Unreserved(c) && !SubDelim(c)
  {
  }

  lemma UnreservedIs(c: char)
    ensures Unreserved(c) <==> c in UPPER || c in LOWER || c in DIGITS || c in "-._~"
  {
    LettersAre(c);
  }

  lemma LettersAre(c: char)
    ensures 'A' <= c <= 'Z' <==> c in UPPER
    ensures 'a' <= c <= 'z' <==> c in LOWER
    ensures '0' <= c <= '9' <==> c in DIGITS
  {
    UpperIs(c);
    LowerIs(c);
    DigitsAre(c);
  }

  lemma UpperIs(c: char)
    ensures 'A' <= c <= 'Z' <==> c in UPPER
  {
    if 'A' <= c <= 'Z' { assert UPPER[c as nat - 65] == c; }
  }

  lemma LowerIs(c: char)
    ensures 'a' <= c <= 'z' <==> c in LOWER
  {
    if 'a' <= c <= 'z' { assert LOWER[c as nat - 97] == c; }
  }

  lemma DigitsAre(c: char)
    ensures '0' <= c <= '9' <==> c in DIGITS
  {
    if '0' <= c <= '9' { assert DIGITS[c as nat - 48] == c; }
  }

  /** Which printable characters a component may not have, the percent sign apart. */
  lemma ComponentCharacters(c: char)
    requires c != '%'
    ensures UserChar(c) <==> Printable(c) && c !in GEN_DELIMS && c !in EXCLUDED
    ensures RegNameChar(c) <==> Printable(c) && c !in GEN_DELIMS && c !in EXCLUDED
    ensures PasswdChar(c) <==> Printable(c) && (c == ':' || c !in GEN_DELIMS) && c !in EXCLUDED
    ensures PChar(c) <==> Printable(c) && c !in "?#[]" && c !in EXCLUDED
    ensures QueFragChar(c) <==> Printable(c) && c !in "#[]" && c !in EXCLUDED
    ensures SchemeChar(c) <==> c in UPPER || c in LOWER || c in DIGITS || c in "+-."
  {
    CharactersParted(c);
    LettersAre(c);
  }

  /** What is left alone when a component is written: what may stand in it, but for the percent
      sign and, in a query, for what has a meaning there; a space of a query becomes a plus. */
  lemma SafeCharacters(c: char)
    ensures UserSafe(c) <==> Printable(c) && c !in GEN_DELIMS && c !in EXCLUDED
    ensures RegNameSafe(c) <==> Printable(c) && c !in GEN_DELIMS && c !in EXCLUDED
    ensures PasswdSafe(c) <==> Printable(c) && (c == ':' || c !in GEN_DELIMS) && c !in EXCLUDED
    ensures PathSafe(c) <==> Printable(c) && c !in "?#[]" && c !in EXCLUDED
    ensures FragSafe(c) <==> Printable(c) && c !in "#[]" && c !in EXCLUDED
    ensures QueryKeySafe(c) <==> c == ' ' || (Printable(c) && c !in "#[]&+=" && c !in EXCLUDED)
    ensures QueryValSafe(c) <==> c == ' ' || (Printable(c) && c !in "#[]&+" && c !in EXCLUDED)
  {
    if c != '%' { ComponentCharacters(c); }
    hide Unreserved;
    hide SubDelim;
  }

  lemma PercentAllowed()
    ensures UserChar('%') && RegNameChar('%') && PasswdChar('%') && PChar('%') && QueFragChar('%') && !SchemeChar('%')
  {
  }

  // ---- Percent encoding ----

  /** h is a spelling of the hexadecimal digit i. */
  predicate Spells(h: char, i: nat) { i < 16 && (h == UPPER_HEX[i] || h == LOWER_HEX[i]) }

  predicate IsHex(h: char) { h in UPPER_HEX || h in LOWER_HEX }

  lemma SpelledDigit(h: char, i: nat)
    requires Spells(h, i)
    ensures Network.HexDigit(h) && HexValue(h) == i
  {
  }

  lemma HexIs(h: char)
    ensures IsHex(h) <==> Network.HexDigit(h)
  {
    if '0' <= h <= '9' { assert UPPER_HEX[h as nat - 48] == h; }
    if 'A' <= h <= 'F' { assert UPPER_HEX[h as nat - 55] == h; }
    if 'a' <= h <= 'f' { assert LOWER_HEX[h as nat - 87] == h; }
  }

  /** An escape in either case stands for its byte. */
  lemma DecodeEscape(h: char, i: nat, l: char, j: nat, s: string)
    requires Spells(h, i) && Spells(l, j)
    ensures PctDecode(['%', h, l] + s) == [(16 * i + j) as char] + PctDecode(s)
  {
    SpelledDigit(h, i);
    SpelledDigit(l, j);
    assert (['%', h, l] + s)[3..] == s;
  }

  /** Everything else stands for itself, a percent sign without two digits after it too. */
  lemma DecodeOther(c: char, s: string)
    requires c != '%' || |s| < 2 || !IsHex(s[0]) || !IsHex(s[1])
    ensures PctDecode([c] + s) == [c] + PctDecode(s)
  {
    if |s| >= 2 {
      HexIs(s[0]);
      HexIs(s[1]);
    }
    hide IsHex;
    hide HexValue;
    hide Network.HexDigit;
    var e := [c] + s;
    assert e[1..] == s && (|s| >= 2 ==> e[1] == s[0] && e[2] == s[1]);
  }

  /** e is s with some characters escaped, any but the percent sign being free to stay. */
  ghost predicate Encodes(e: string, s: string)
    decreases |s|
  {
    if s == "" then e == ""
    else
      || (s[0] != '%' && e != "" && e[0] == s[0] && Encodes(e[1..], s[1..]))
      || (|e| >= 3 && Escapes(e[0], e[1], e[2], s[0]) && Encodes(e[3..], s[1..]))
  }

  ghost predicate Escapes(p: char, h: char, l: char, c: char) {
    p == '%' && Byte(c) && Spells(h, c as nat / 16) && Spells(l, c as nat % 16)
  }

  /** However much is escaped, and in whichever case, decoding gives the text back. */
  lemma {:induction false} EncodingDecodes(e: string, s: string)
    requires Encodes(e, s)
    ensures PctDecode(e) == s
    decreases |s|
  {
    if s != "" {
      assert [s[0]] + s[1..] == s;
      if s[0] != '%' && e != "" && e[0] == s[0] && Encodes(e[1..], s[1..]) {
        EncodingDecodes(e[1..], s[1..]);
        assert [e[0]] + e[1..] == e;
        DecodeOther(e[0], e[1..]);
      } else {
        EncodingDecodes(e[3..], s[1..]);
        assert ['%', e[1], e[2]] + e[3..] == e;
        DecodeEscape(e[1], s[0] as nat / 16, e[2], s[0] as nat % 16, e[3..]);
      }
    }
  }

  /** What pct_encode writes: the safe and the unreserved characters, and escapes in upper case. */
  lemma EncodeFirst(c: char, s: string, safe: char -> bool)
    requires Byte(c)
    ensures PctEncode([c] + s, safe) ==
      (if safe(c) || c in UPPER || c in LOWER || c in DIGITS || c in "-._~" then [c]
       else ['%', UPPER_HEX[c as nat / 16], UPPER_HEX[c as nat % 16]]) + PctEncode(s, safe)
  {
    UnreservedIs(c);
    assert ([c] + s)[1..] == s;
    HexCharIs(c as nat / 16);
    HexCharIs(c as nat % 16);
  }

  lemma HexCharIs(i: nat)
    requires i < 16
    ensures HexChar(i) == UPPER_HEX[i]
  {
  }

  /** pct_encode writes such an encoding. */
  lemma {:induction false} EncodeEncodes(s: string, safe: char -> bool)
    requires AllOf(s, Byte) && !safe('%')
    ensures Encodes(PctEncode(s, safe), s)
  {
    if s != "" {
      EncodeEncodes(s[1..], safe);
      assert [s[0]] + s[1..] == s;
      EncodeFirst(s[0], s[1..], safe);
      hide PctEncode;
      var e, rest := PctEncode(s, safe), PctEncode(s[1..], safe);
      if safe(s[0]) || s[0] in UPPER || s[0] in LOWER || s[0] in DIGITS || s[0] in "-._~" {
        assert e[1..] == rest;
      } else {
        assert e[3..] == rest;
      }
    }
  }

  /** A query is decoded after its plus signs have become spaces. */
  lemma QueryDecodeFirst(c: char, s: string)
    ensures QueryDecode("+" + s) == " " + QueryDecode(s)
    ensures c !in "+%" ==> QueryDecode([c] + s) == [c] + QueryDecode(s)
  {
    var spaced := Replace(s, '+', ' ');
    assert Replace("+" + s, '+', ' ') == " " + spaced;
    assert (" " + spaced)[1..] == spaced;
    if c !in "+%" {
      assert Replace([c] + s, '+', ' ') == [c] + spaced;
      assert ([c] + spaced)[1..] == spaced;
    }
  }

  // ---- Taking an authority apart ----

  /** The user is what stands before the first '@' and the first ':' before it. */
  lemma UserCut(user: string, passwd: string, rest: string)
    requires ':' !in user && '@' !in user && '@' !in passwd
    ensures SplitAuthority(user + ":" + passwd + "@" + rest) == WithUser(OrNone(Some(user)), OrNone(Some(passwd)), rest)
    ensures SplitAuthority(user + "@" + rest) == WithUser(OrNone(Some(user)), None, rest)
  {
    hide SplitHostport;
    var userinfo := user + ":" + passwd;
    assert userinfo + "@" + rest == userinfo + ['@'] + rest && '@' !in userinfo;
    CutIs(userinfo, rest, '@');
    CutIs(user, passwd, ':');
    CutIs(user, rest, '@');
  }

  lemma NoUser(hostport: string)
    requires '@' !in hostport
    ensures SplitAuthority(hostport) == WithUser(None, None, hostport)
  {
    hide SplitHostport;
  }

  function WithUser(user: Part, passwd: Part, hostport: string): Result<Authority> {
    match SplitHostport(hostport)
    case Err(e) => Err(e)
    case Ok((host, port)) => Ok(Authority(user, passwd, host, port))
  }

  /** The port is what follows the first ':', unless the host is in brackets. */
  lemma PortCut(host: string, port: string)
    requires ':' !in host && (host == "" || host[0] != '[')
    ensures SplitHostport(host + ":" + port) == Ok((OrNone(Some(host)), OrNone(Some(port))))
    ensures SplitHostport(host) == Ok((OrNone(Some(host)), None))
  {
    CutIs(host, port, ':');
    assert host != "" ==> (host + ":" + port)[0] == host[0];
  }

  /** In brackets: hexadecimal digits, colons and dots, or the IPvFuture of RFC 3986, section
      3.2.2; then a port after a colon, or nothing.  A line feed at the very end is overlooked,
      but for another one before it. */
  lemma BracketsCut(inner: string, tail: string, feed: string)
    requires ']' !in inner && (feed == "" || feed == "\n") && (feed == "" && tail != "" ==> tail[|tail| - 1] != '\n')
    ensures SplitHostport("[" + inner + "]" + tail + feed) ==
      if InBrackets3986(inner) && (tail == "" || (tail[0] == ':' && '\n' !in tail))
      then Ok((Some("[" + inner + "]"), if |tail| > 1 then Some(tail[1..]) else None))
      else Err(InvalidIPLiteral)
  {
    hide BracketText;
    hide InBrackets3986;
    BracketTextIs(inner);
    var rest := "]" + (tail + feed);
    var s := "[" + inner + "]" + tail + feed;
    assert s == "[" + (inner + rest) && s[1..] == inner + rest;
    assert AllOf(inner, InBrackets);
    SpanIs(inner, rest, InBrackets);
    FeedCut(tail, feed);
  }

  lemma FeedCut(tail: string, feed: string)
    requires (feed == "" || feed == "\n") && (feed == "" && tail != "" ==> tail[|tail| - 1] != '\n')
    ensures var rest := "]" + (tail + feed);
            (if |rest| > 1 && rest[|rest| - 1] == '\n' then rest[1..|rest| - 1] else rest[1..]) == tail
  {
    var rest := "]" + (tail + feed);
    assert rest[1..] == tail + feed;
    if feed == "\n" {
      assert rest[|rest| - 1] == '\n' && rest[1..|rest| - 1] == tail;
    } else {
      assert tail + feed == tail;
    }
  }

  ghost predicate InBrackets3986(inner: string) {
    || (inner != "" && forall i :: 0 <= i < |inner| ==> IsHex(inner[i]) || inner[i] == ':' || inner[i] == '.')
    || exists h, c :: FutureParts(inner, h, c)
  }

  ghost predicate FutureParts(s: string, h: string, c: string) {
    && s == "v" + h + "." + c
    && h != "" && (forall i :: 0 <= i < |h| ==> IsHex(h[i]))
    && c != "" && (forall i :: 0 <= i < |c| ==> Unreserved(c[i]) || SubDelim(c[i]) || c[i] == ':')
  }

  lemma BracketTextIs(s: string)
    ensures BracketText(s) <==> InBrackets3986(s)
  {
    FutureIs(s);
    forall i | 0 <= i < |s| ensures Network.AddressChar(s[i]) <==> IsHex(s[i]) || s[i] == ':' || s[i] == '.' {
      HexIs(s[i]);
    }
    hide IPvFuture;
    hide FutureParts;
    hide IsHex;
  }

  lemma FutureIs(s: string)
    ensures IPvFuture(s) <==> exists h, c :: FutureParts(s, h, c)
  {
    if IPvFuture(s) {
      var (hex, rest) := Span(s[1..], Network.HexDigit);
      forall i | 0 <= i < |hex| ensures IsHex(hex[i]) { HexIs(hex[i]); }
      assert s[..1] == "v" && s == "v" + s[1..] && rest == "." + rest[1..];
      assert s == "v" + hex + "." + rest[1..];
      forall i | 0 <= i < |rest[1..]| ensures FutureChar(rest[1..][i]) {}
      assert FutureParts(s, hex, rest[1..]);
    }
    if h, c :| FutureParts(s, h, c) {
      assert s[1..] == h + ("." + c) && s[..1] == "v";
      forall i | 0 <= i < |h| ensures Network.HexDigit(h[i]) { HexIs(h[i]); }
      SpanIs(h, "." + c, Network.HexDigit);
      assert ("." + c)[1..] == c;
    }
  }

  // ---- Taking a query apart ----

  /** Parts between '&' that are not empty, each cut at its first '='. */
  lemma QueryFirst(a: string, rest: string)
    requires '&' !in a
    ensures SplitQuery(a) == (if a == "" then [] else [SplitAssignment(a)])
    ensures SplitQuery(a + "&" + rest) == (if a == "" then [] else [SplitAssignment(a)]) + SplitQuery(rest)
  {
    var whole := a + "&" + rest;
    SpanIs(a, "", x => x != '&');
    assert a + "" == a;
    SpanIs(a, "&" + rest, x => x != '&');
    assert whole == a + ("&" + rest) && ("&" + rest)[1..] == rest;
    MoreCuts(rest, |whole| - 1);
    assert SplitMax(whole, '&', |whole|) == [a] + SplitMax(rest, '&', |whole| - 1);
    assert SplitMax(a, '&', |a|) == [a];
    assert ([a] + SplitMax(rest, '&', |rest|))[1..] == SplitMax(rest, '&', |rest|);
    assert [a][1..] == [] && SplitAssignments([a][1..]) == [];
  }

  /** A string has no more cuts than characters. */
  lemma {:induction false} MoreCuts(s: string, n: nat)
    requires n >= |s|
    ensures SplitMax(s, '&', n) == SplitMax(s, '&', |s|)
    decreases |s|
  {
    var (a, b) := Span(s, x => x != '&');
    if b != "" {
      MoreCuts(b[1..], n - 1);
      MoreCuts(b[1..], |s| - 1);
    }
  }

  lemma AssignmentCut(key: string, value: string)
    requires '=' !in key
    ensures SplitAssignment(key + "=" + value) == Pair(Some(key), Some(value))
    ensures SplitAssignment(key) == Pair(Some(key), None)
  {
    CutIs(key, value, '=');
  }

  // ---- Normalizing ----

  predicate Something(p: Part) { p.Some? && |p.value| > 0 }

  /** A pair is kept exactly if its key or its value is not empty, and the order stays. */
  lemma PairsKept(p: Pair, rest: seq<Pair>)
    ensures Meaningful([p] + rest) == (if Something(p.key) || Something(p.value) then [p] else []) + Meaningful(rest)
    ensures Meaningful([]) == []
  {
    assert ([p] + rest)[1..] == rest;
  }

  /** An authority is kept exactly if one of its parts is not empty. */
  lemma AuthorityKept(t: Tree)
    ensures var n := UriTreeNormalize(t).authority;
            if t.authority.Some? && (Something(t.authority.value.user) || Something(t.authority.value.passwd)
                                     || Something(t.authority.value.host) || Something(t.authority.value.port))
            then n == t.authority else n == None
    ensures UriTreeNormalize(t).path == if Something(t.path) then t.path else None
    ensures UriTreeNormalize(t).scheme == if Something(t.scheme) then t.scheme else None
    ensures UriTreeNormalize(t).fragment == if Something(t.fragment) then t.fragment else None
  {
  }

  // ---- Validity ----

  ghost predicate AllIn(p: Part, allowed: char -> bool) {
    p.Some? ==> forall i :: 0 <= i < |p.value| ==> allowed(p.value[i])
  }

  ghost predicate GoodScheme(s: string) {
    s != "" && (s[0] in UPPER || s[0] in LOWER)
    && forall i :: 0 <= i < |s| ==> s[i] in UPPER || s[i] in LOWER || s[i] in DIGITS || s[i] in "+-."
  }

  /** A host in brackets is an IPv6 address or an IPvFuture; a dotted IPv4 host is one; any other
      host has the characters of a name. */
  ghost predicate GoodHost(h: string) {
    if h != "" && h[0] == '[' then ValidIPLiteral(h)
    else Network.ValidIPv4DotDec(h) || AllIn(Some(h), RegNameChar)
  }

  /** Some colon of the path has no slash before it. */
  ghost predicate EarlyColon(path: string) { exists i :: 0 <= i < |path| && path[i] == ':' && '/' !in path[..i] }

  ghost predicate GoodTree(t: Tree) {
    && (Something(t.scheme) ==> GoodScheme(t.scheme.value))
    && (t.authority.Some? ==> var a := t.authority.value;
          && AllIn(a.user, UserChar) && AllIn(a.passwd, PasswdChar) && AllIn(a.port, Digit)
          && (Something(a.host) ==> GoodHost(a.host.value))
          && (Something(t.path) ==> t.path.value[0] == '/'))
    && AllIn(t.path, PChar)
    && (Something(t.path) && t.authority.None? && !Something(t.scheme) ==> !EarlyColon(t.path.value))
    && (t.query.Some? ==> forall p :: p in t.query.value ==> AllIn(p.key, QueFragChar) && AllIn(p.value, QueFragChar))
    && AllIn(t.fragment, QueFragChar)
  }

  /** Exactly these trees are valid. */
  lemma ValidIff(t: Tree)
    ensures UriTreeValidate(t).Ok? <==> GoodTree(t)
    ensures UriTreeValidate(t).Ok? ==> UriTreeValidate(t).value == t
  {
    if Something(t.scheme) { SchemeIs(t.scheme.value); }
    if t.authority.Some? { AuthorityValidIff(t.authority.value); }
    if Something(t.path) { EarlyIs(t.path.value); }
    if t.query.Some? { QueryValidIff(t.query.value); }
    hide ValidScheme;
    hide GoodScheme;
    hide ValidateAuthority;
    hide GoodHost;
    hide ValidQuery;
    hide EarlyColon;
    hide FirstSegment;
    hide PChar;
    hide QueFragChar;
  }

  lemma SchemeIs(s: string)
    ensures ValidScheme(s) <==> GoodScheme(s)
  {
    if s != "" { LettersAre(s[0]); }
    forall i | 0 <= i < |s|
      ensures SchemeChar(s[i]) <==> s[i] in UPPER || s[i] in LOWER || s[i] in DIGITS || s[i] in "+-."
    {
      LettersAre(s[i]);
    }
    assert s != "" ==> (AllOf(s[1..], SchemeChar) <==> forall i :: 1 <= i < |s| ==> SchemeChar(s[i])) by {
      if s != "" { assert forall i :: 1 <= i < |s| ==> s[1..][i - 1] == s[i]; }
    }
    hide SchemeChar;
  }

  lemma AuthorityValidIff(a: Authority)
    ensures ValidateAuthority(a).None? <==>
      AllIn(a.user, UserChar) && AllIn(a.passwd, PasswdChar) && AllIn(a.port, Digit)
      && (Something(a.host) ==> GoodHost(a.host.value))
  {
    if Something(a.host) { HostIs(a.host.value); }
    hide ValidateHost;
    hide GoodHost;
  }

  lemma HostIs(h: string)
    requires h != ""
    ensures ValidateHost(h).None? <==> GoodHost(h)
  {
    hide Network.ValidIPv4DotDec;
    hide ValidIPLiteral;
  }

  lemma QueryValidIff(pairs: seq<Pair>)
    ensures ValidQuery(pairs) <==> forall p :: p in pairs ==> AllIn(p.key, QueFragChar) && AllIn(p.value, QueFragChar)
  {
    hide QueFragChar;
    if ValidQuery(pairs) {
      forall p | p in pairs ensures AllIn(p.key, QueFragChar) && AllIn(p.value, QueFragChar) {
        var i :| 0 <= i < |pairs| && pairs[i] == p;
      }
    }
  }

  lemma InPrefix(s: string, k: nat, i: nat)
    requires i <= |s|
    ensures k < i ==> s[k] in s[..i]
  {
    if k < i { assert s[..i][k] == s[k]; }
  }

  lemma EarlyIs(path: string)
    ensures ':' in FirstSegment(path) <==> EarlyColon(path)
  {
    var (seg, rest) := Span(path, InSegment);
    assert path == seg + rest;
    if ':' in seg {
      var i :| 0 <= i < |seg| && seg[i] == ':';
      assert path[i] == ':' && forall k :: 0 <= k < i ==> path[..i][k] == seg[k] && InSegment(seg[k]);
    }
    if i :| 0 <= i < |path| && path[i] == ':' && '/' !in path[..i] {
      assert rest != "" ==> path[|seg|] == rest[0] == '/';
      InPrefix(path, |seg|, i);
      assert i < |seg| && path[i] == seg[i];
    }
  }

  /** The part of the tree the error speaks of is wrong. */
  ghost predicate Faulty(t: Tree, e: Error) {
    match e
    case InvalidScheme => Something(t.scheme) && !GoodScheme(t.scheme.value)
    case InvalidUser => t.authority.Some? && !AllIn(t.authority.value.user, UserChar)
    case InvalidPasswd => t.authority.Some? && !AllIn(t.authority.value.passwd, PasswdChar)
    case InvalidRegName => BadHost(t) && t.authority.value.host.value[0] != '['
    case InvalidIPLiteral => BadHost(t) && t.authority.value.host.value[0] == '['
    case InvalidIPv4address => false
    case InvalidPort => t.authority.Some? && !AllIn(t.authority.value.port, Digit)
    case InvalidPath =>
      Something(t.path) && (!AllIn(t.path, PChar) || (t.authority.Some? && t.path.value[0] != '/')
                            || (t.authority.None? && !Something(t.scheme) && EarlyColon(t.path.value)))
    case InvalidQuery =>
      t.query.Some? && exists p :: p in t.query.value && !(AllIn(p.key, QueFragChar) && AllIn(p.value, QueFragChar))
    case InvalidFragment => !AllIn(t.fragment, QueFragChar)
  }

  ghost predicate BadHost(t: Tree) {
    t.authority.Some? && Something(t.authority.value.host) && !GoodHost(t.authority.value.host.value)
  }

  lemma FaultNamed(t: Tree)
    ensures UriTreeValidate(t).Err? ==> Faulty(t, UriTreeValidate(t).error)
  {
    if Something(t.scheme) { SchemeIs(t.scheme.value); }
    if t.authority.Some? { AuthorityFault(t, t.authority.value); }
    if Something(t.path) { EarlyIs(t.path.value); }
    if t.query.Some? { QueryValidIff(t.query.value); }
    hide ValidScheme;
    hide GoodScheme;
    hide ValidateAuthority;
    hide GoodHost;
    hide ValidQuery;
    hide EarlyColon;
    hide FirstSegment;
    hide PChar;
    hide QueFragChar;
  }

  lemma AuthorityFault(t: Tree, a: Authority)
    requires t.authority == Some(a)
    ensures ValidateAuthority(a).Some? ==>
              && var e := ValidateAuthority(a).value;
              && e in {InvalidUser, InvalidPasswd, InvalidRegName, InvalidIPLiteral, InvalidPort}
              && Faulty(t, e)
  {
    if Something(a.host) {
      HostIs(a.host.value);
      HostFault(a.host.value);
    }
    hide ValidateHost;
    hide GoodHost;
    hide UserChar;
    hide PasswdChar;
  }

  lemma HostFault(h: string)
    requires h != ""
    ensures ValidateHost(h).Some? ==> ValidateHost(h).value == if h[0] == '[' then InvalidIPLiteral else InvalidRegName
  {
    hide Network.ValidIPv4DotDec;
    hide ValidIPLiteral;
  }

  /** The same for what is to be written as a host of the given kind. */
  lemma PrecodeFaultNamed(t: Tree, kind: HostType)
    ensures match PrecodeCheck(t, kind)
            case Ok(u) => u == t
            case Err(InvalidIPLiteral) =>
              kind == IPLiteralHost && t.authority.Some? && Something(t.authority.value.host)
              && !ValidIPLiteral(t.authority.value.host.value)
            case Err(InvalidIPv4address) =>
              kind == IPv4Host && t.authority.Some? && Something(t.authority.value.host)
              && !Network.ValidIPv4DotDec(t.authority.value.host.value)
            case Err(e) => e in {InvalidScheme, InvalidPort, InvalidPath} && Faulty(t, e)
  {
    if Something(t.scheme) { SchemeIs(t.scheme.value); }
    hide ValidScheme;
    hide GoodScheme;
    hide ValidIPLiteral;
    hide Network.ValidIPv4DotDec;
  }
}
