/**
  The URI functions of urisup.py.

  Text is a string of bytes: a character stands for one byte of its UTF-8 form.  A component
  is a string or None; port numbers given as integers and the ensure_str conversions are the
  identity here.
 */
module Uris {
  import opened Wrappers
  import opened Strings
  import Network

  // ---- Character sets ----

  predicate Alpha(c: char) { 'a' <= c <= 'z' || 'A' <= c <= 'Z' }
  predicate Digit(c: char) { '0' <= c <= '9' }
  predicate SchemeChar(c: char) { Alpha(c) || Digit(c) || c in "+-." }
  predicate SubDelim(c: char) { c in "!$&'()*+,;=" }
  predicate Unreserved(c: char) { Alpha(c) || Digit(c) || c in "-._~" }
  predicate PChar(c: char) { Unreserved(c) || SubDelim(c) || c in "%:@/" }
  predicate QueFragChar(c: char) { PChar(c) || c == '?' }
  predicate UserChar(c: char) { Unreserved(c) || SubDelim(c) || c == '%' }
  predicate PasswdChar(c: char) { Unreserved(c) || SubDelim(c) || c in "%:" }
  predicate RegNameChar(c: char) { Unreserved(c) || SubDelim(c) || c == '%' }

  // The characters left alone when encoding: the sets above without '%'.
  predicate UserSafe(c: char) { UserChar(c) && c != '%' }
  predicate PasswdSafe(c: char) { PasswdChar(c) && c != '%' }
  predicate RegNameSafe(c: char) { RegNameChar(c) && c != '%' }
  predicate PathSafe(c: char) { PChar(c) && c != '%' }
  predicate FragSafe(c: char) { QueFragChar(c) && c != '%' }
  predicate QueryKeySafe(c: char) { (QueFragChar(c) && c !in "&+=%") || c == ' ' }
  predicate QueryValSafe(c: char) { (QueFragChar(c) && c !in "&+%") || c == ' ' }

  // ---- Percent encoding ----

  predicate Byte(c: char) { c as int < 256 }

  function HexChar(n: nat): char
    requires n < 16
  {
    if n < 10 then '0' + n as char else 'A' + (n - 10) as char
  }

  function HexValue(c: char): nat
    requires Network.HexDigit(c)
  {
    if '0' <= c <= '9' then c as nat - '0' as nat
    else if 'a' <= c <= 'f' then c as nat - 'a' as nat + 10
    else c as nat - 'A' as nat + 10
  }

  function EncodeChar(c: char, safe: char -> bool): string {
    if safe(c) || Unreserved(c) || !Byte(c) then [c] else ['%', HexChar(c as nat / 16), HexChar(c as nat % 16)]
  }

  /** quote(s, safe): letters, digits and "_.-~" are always left alone. */
  function PctEncode(s: string, safe: char -> bool): string {
    if s == "" then "" else EncodeChar(s[0], safe) + PctEncode(s[1..], safe)
  }

  /** unquote(s): a '%' not followed by two hexadecimal digits stays. */
  function PctDecode(s: string): string {
    if s == "" then ""
    else if s[0] == '%' && |s| >= 3 && Network.HexDigit(s[1]) && Network.HexDigit(s[2]) then
      [(16 * HexValue(s[1]) + HexValue(s[2])) as char] + PctDecode(s[3..])
    else [s[0]] + PctDecode(s[1..])
  }

  function Replace(s: string, a: char, b: char): (r: string)
    ensures |r| == |s| && forall i :: 0 <= i < |s| ==> r[i] == (if s[i] == a then b else s[i])
  {
    seq(|s|, i requires 0 <= i < |s| => if s[i] == a then b else s[i])
  }

  function QueryEncode(s: string, safe: char -> bool): string { Replace(PctEncode(s, safe), ' ', '+') }
  function QueryDecode(s: string): string { PctDecode(Replace(s, '+', ' ')) }

  // ---- Trees ----

  type Part = Option<string>

  datatype Authority = Authority(user: Part, passwd: Part, host: Part, port: Part)
  datatype Pair = Pair(key: Part, value: Part)
  datatype Tree = Tree(scheme: Part, authority: Option<Authority>, path: Part, query: Option<seq<Pair>>, fragment: Part)

  datatype Error =
    | InvalidScheme | InvalidUser | InvalidPasswd | InvalidRegName | InvalidIPLiteral
    | InvalidIPv4address | InvalidPort | InvalidPath | InvalidQuery | InvalidFragment

  datatype Result<T> = Ok(value: T) | Err(error: Error)

  /** Python's truth of a component. */
  predicate Truthy(p: Part) { p.Some? && p.value != "" }

  /** p or None */
  function OrNone(p: Part): Part { if Truthy(p) then p else None }

  function Text(p: Part): string { if p.Some? then p.value else "" }

  // ---- Splitting ----

  datatype Basic = Basic(scheme: Part, authority: Part, path: string, query: Part, fragment: Part)

  predicate StartsWith(s: string, p: string) { p <= s }

  // The character classes of the expression of RFC 3986, Appendix B.
  predicate InScheme(c: char) { c !in ":/?#" }
  predicate InAuthority(c: char) { c !in "/?#" }
  predicate InPath(c: char) { c !in "?#" }
  predicate InQuery(c: char) { c != '#' }
  predicate InSegment(c: char) { c != '/' }

  // Its optional groups, each with what it leaves.
  function TakeScheme(s: string): (Part, string) {
    var (a, b) := Span(s, InScheme);
    if a != "" && StartsWith(b, ":") then (Some(a), b[1..]) else (None, s)
  }

  function TakeAuthority(s: string): (Part, string) {
    if StartsWith(s, "//") then var (a, b) := Span(s[2..], InAuthority); (Some(a), b) else (None, s)
  }

  function TakeQuery(s: string): (Part, string) {
    if StartsWith(s, "?") then var (a, b) := Span(s[1..], InQuery); (Some(a), b) else (None, s)
  }

  function BasicUriSplit(uri: string): Basic {
    var (scheme, rest) := TakeScheme(uri);
    var (authority, rest1) := TakeAuthority(rest);
    var (path, rest2) := Span(rest1, InPath);
    var (query, rest3) := TakeQuery(rest2);
    Basic(scheme, authority, path, query, if rest3 == "" then None else Some(rest3[1..]))
  }

  predicate IPvFuture(s: string) {
    StartsWith(s, "v") &&
    var (hex, rest) := Span(s[1..], Network.HexDigit);
    hex != "" && |rest| >= 2 && rest[0] == '.' && AllOf(rest[1..], FutureChar)
  }

  /** Hexadecimal digits, colons and dots, or an IPvFuture. */
  predicate BracketText(s: string) { (s != "" && AllOf(s, Network.AddressChar)) || IPvFuture(s) }

  predicate FutureChar(c: char) { Unreserved(c) || SubDelim(c) || c == ':' }
  predicate InBrackets(c: char) { c != ']' }

  /** What the expression for a bracketed host finds: the text in brackets and the port. */
  function BracketMatch(hostport: string): Option<(string, string)>
    requires StartsWith(hostport, "[")
  {
    var (inner, rest) := Span(hostport[1..], InBrackets);
    if rest == "" then None
    else if !BracketText(inner) then None
    else
      // `$` also matches before a final newline
      var tail := if |rest| > 1 && rest[|rest| - 1] == '\n' then rest[1..|rest| - 1] else rest[1..];
      if tail == "" then Some((inner, ""))
      else if tail[0] == ':' && '\n' !in tail then Some((inner, tail[1..]))
      else None
  }

  /** s.split(c, 1) of a string that contains c. */
  function Cut(s: string, c: char): (string, string)
    requires c in s
  {
    var (a, b) := Span(s, x => x != c);
    assert c !in a && s == a + b;
    (a, b[1..])
  }

  /** What split_authority makes of the text after the userinfo. */
  function SplitHostport(hostport: string): Result<(Part, Part)> {
    if hostport == "" then Ok((None, None))
    else if hostport[0] == '[' then
      match BracketMatch(hostport)
      case None => Err(InvalidIPLiteral)
      case Some((inner, port)) => Ok((Some("[" + inner + "]"), OrNone(Some(port))))
    else if ':' in hostport then var (h, p) := Cut(hostport, ':'); Ok((OrNone(Some(h)), OrNone(Some(p))))
    else Ok((OrNone(Some(hostport)), None))
  }

  function SplitAuthority(authority: string): Result<Authority> {
    var (user, passwd, hostport) :=
      if '@' in authority then
        var (userinfo, hp) := Cut(authority, '@');
        if ':' in userinfo then var (u, p) := Cut(userinfo, ':'); (Some(u), Some(p), hp)
        else (Some(userinfo), None, hp)
      else (None, None, authority);
    match SplitHostport(hostport)
    case Err(e) => Err(e)
    case Ok((host, port)) => Ok(Authority(OrNone(user), OrNone(passwd), host, port))
  }

  function SplitAssignment(a: string): Pair {
    if '=' in a then var (k, v) := Cut(a, '='); Pair(Some(k), Some(v)) else Pair(Some(a), None)
  }

  function SplitAssignments(parts: seq<string>): seq<Pair> {
    if parts == [] then []
    else (if parts[0] == "" then [] else [SplitAssignment(parts[0])]) + SplitAssignments(parts[1..])
  }

  function SplitQuery(query: string): seq<Pair> {
    SplitAssignments(SplitMax(query, '&', |query|))
  }

  function UriSplitTree(uri: string): Result<Tree> {
    var b := BasicUriSplit(uri);
    var query := if Truthy(b.query) && SplitQuery(b.query.value) != [] then Some(SplitQuery(b.query.value)) else None;
    if Truthy(b.authority) then
      match SplitAuthority(b.authority.value)
      case Err(e) => Err(e)
      case Ok(a) => Ok(Tree(OrNone(b.scheme), Some(a), OrNone(Some(b.path)), query, OrNone(b.fragment)))
    else Ok(Tree(OrNone(b.scheme), None, OrNone(Some(b.path)), query, OrNone(b.fragment)))
  }

  // ---- Normalising, validating, decoding ----

  predicate SomeField(a: Authority) { Truthy(a.user) || Truthy(a.passwd) || Truthy(a.host) || Truthy(a.port) }

  predicate SomeSide(p: Pair) { Truthy(p.key) || Truthy(p.value) }

  function Meaningful(pairs: seq<Pair>): (r: seq<Pair>) {
    if pairs == [] then []
    else (if SomeSide(pairs[0]) then [pairs[0]] else []) + Meaningful(pairs[1..])
  }

  function UriTreeNormalize(t: Tree): Tree {
    Tree(OrNone(t.scheme),
         if t.authority.Some? && SomeField(t.authority.value) then t.authority else None,
         OrNone(t.path),
         if t.query.Some? && Meaningful(t.query.value) != [] then Some(Meaningful(t.query.value)) else None,
         OrNone(t.fragment))
  }

  predicate ValidScheme(s: string) { s != "" && Alpha(s[0]) && AllOf(s[1..], SchemeChar) }

  datatype HostType = IPLiteralHost | IPv4Host | RegNameHost

  function TypeOfHost(h: string): HostType {
    if h == "" then RegNameHost
    else if h[0] == '[' then IPLiteralHost
    else if Network.ValidIPv4DotDec(h) then IPv4Host
    else RegNameHost
  }

  predicate ValidIPLiteral(s: string) {
    |s| >= 2 && s[0] == '[' && s[|s| - 1] == ']' &&
    var inner := s[1..|s| - 1];
    || Network.ValidIPv6Address(inner)
    || IPvFuture(if inner != "" && inner[|inner| - 1] == '\n' then inner[..|inner| - 1] else inner)
  }

  /** path.split('/', 1)[0] */
  function FirstSegment(path: string): string { Span(path, InSegment).0 }

  function ValidateHost(h: string): Option<Error> {
    match TypeOfHost(h)
    case RegNameHost => if AllOf(h, RegNameChar) then None else Some(InvalidRegName)
    case IPLiteralHost => if ValidIPLiteral(h) then None else Some(InvalidIPLiteral)
    case IPv4Host => None
  }

  function ValidateAuthority(a: Authority): Option<Error> {
    if Truthy(a.user) && !AllOf(a.user.value, UserChar) then Some(InvalidUser)
    else if Truthy(a.passwd) && !AllOf(a.passwd.value, PasswdChar) then Some(InvalidPasswd)
    else if Truthy(a.host) && ValidateHost(a.host.value).Some? then ValidateHost(a.host.value)
    else if Truthy(a.port) && !AllOf(a.port.value, Digit) then Some(InvalidPort)
    else None
  }

  predicate ValidQuery(pairs: seq<Pair>) {
    forall i :: 0 <= i < |pairs| ==>
      && (Truthy(pairs[i].key) ==> AllOf(pairs[i].key.value, QueFragChar))
      && (Truthy(pairs[i].value) ==> AllOf(pairs[i].value.value, QueFragChar))
  }

  function UriTreeValidate(t: Tree): Result<Tree> {
    if Truthy(t.scheme) && !ValidScheme(t.scheme.value) then Err(InvalidScheme)
    else if t.authority.Some? && ValidateAuthority(t.authority.value).Some?
    then Err(ValidateAuthority(t.authority.value).value)
    else if Truthy(t.path) && !AllOf(t.path.value, PChar) then Err(InvalidPath)
    else if Truthy(t.path) && t.authority.Some? && t.path.value[0] != '/' then Err(InvalidPath)
    else if Truthy(t.path) && t.authority.None? && !Truthy(t.scheme) && ':' in FirstSegment(t.path.value)
    then Err(InvalidPath)
    else if t.query.Some? && !ValidQuery(t.query.value) then Err(InvalidQuery)
    else if Truthy(t.fragment) && !AllOf(t.fragment.value, QueFragChar) then Err(InvalidFragment)
    else Ok(t)
  }

  function MapPart(p: Part, f: string -> string): Part { if p.Some? then Some(f(p.value)) else None }

  function DecodePair(p: Pair): Pair { Pair(MapPart(p.key, QueryDecode), MapPart(p.value, QueryDecode)) }

  function MapPairs(pairs: seq<Pair>, f: Pair -> Pair): (r: seq<Pair>)
    ensures |r| == |pairs| && forall i :: 0 <= i < |pairs| ==> r[i] == f(pairs[i])
  {
    seq(|pairs|, i requires 0 <= i < |pairs| => f(pairs[i]))
  }

  function DecodeAuthority(a: Authority): Authority {
    Authority(MapPart(a.user, PctDecode), MapPart(a.passwd, PctDecode),
              if Truthy(a.host) && TypeOfHost(a.host.value) == RegNameHost then MapPart(a.host, PctDecode) else a.host,
              a.port)
  }

  function UriTreeDecode(t: Tree): Tree {
    Tree(t.scheme,
         if t.authority.Some? then Some(DecodeAuthority(t.authority.value)) else None,
         MapPart(t.path, PctDecode),
         if t.query.Some? then Some(MapPairs(t.query.value, DecodePair)) else None,
         MapPart(t.fragment, PctDecode))
  }

  function UriHelpSplit(uri: string): Result<Tree> {
    match UriSplitTree(uri)
    case Err(e) => Err(e)
    case Ok(t) =>
      match UriTreeValidate(UriTreeNormalize(t))
      case Err(e) => Err(e)
      case Ok(v) => Ok(UriTreeDecode(v))
  }

  // ---- Checking, encoding, unsplitting ----

  /** uri_tree_precode_check with its type_host. */
  function PrecodeCheck(t: Tree, kind: HostType): Result<Tree> {
    if Truthy(t.scheme) && !ValidScheme(t.scheme.value) then Err(InvalidScheme)
    else if t.authority.Some? && Truthy(t.authority.value.port)
         && !AllOf(t.authority.value.port.value, Digit)
    then Err(InvalidPort)
    else if t.authority.Some? && Truthy(t.authority.value.host) && kind == IPLiteralHost
         && !ValidIPLiteral(t.authority.value.host.value)
    then Err(InvalidIPLiteral)
    else if t.authority.Some? && Truthy(t.authority.value.host) && kind == IPv4Host
         && !Network.ValidIPv4DotDec(t.authority.value.host.value)
    then Err(InvalidIPv4address)
    else if Truthy(t.path) && t.authority.Some? && t.path.value[0] != '/' then Err(InvalidPath)
    else Ok(t)
  }

  /** `if part: part = pct_encode(part, safe)` */
  function EncodePart(p: Part, safe: char -> bool): Part {
    if Truthy(p) then Some(PctEncode(p.value, safe)) else p
  }

  function EncodeAuthority(a: Authority, kind: HostType): Authority {
    Authority(EncodePart(a.user, UserSafe), EncodePart(a.passwd, PasswdSafe),
              if kind == RegNameHost then EncodePart(a.host, RegNameSafe) else a.host, a.port)
  }

  /** '%3A' for every ':' */
  function EscapeColons(s: string): string {
    if s == "" then "" else (if s[0] == ':' then "%3A" else [s[0]]) + EscapeColons(s[1..])
  }

  /** The path-noscheme case: colons of the first segment are escaped. */
  function EncodePath(p: string, bare: bool): string {
    var path := PctEncode(p, PathSafe);
    if bare && ':' in FirstSegment(path) then
      EscapeColons(FirstSegment(path)) + Span(path, InSegment).1
    else path
  }

  function EncodePair(p: Pair): Pair {
    Pair(MapPart(p.key, s => QueryEncode(s, QueryKeySafe)), MapPart(p.value, s => QueryEncode(s, QueryValSafe)))
  }

  function UriTreeEncode(t: Tree, kind: HostType): Tree {
    Tree(t.scheme,
         if t.authority.Some? then Some(EncodeAuthority(t.authority.value, kind)) else None,
         if Truthy(t.path) then Some(EncodePath(t.path.value, t.authority.None? && !Truthy(t.scheme))) else t.path,
         if t.query.Some? then Some(MapPairs(t.query.value, EncodePair)) else None,
         EncodePart(t.fragment, FragSafe))
  }

  function UnsplitUserinfo(a: Authority): string {
    if Truthy(a.passwd) then Text(a.user) + ":" + a.passwd.value else Text(a.user)
  }

  function UnsplitHostport(a: Authority): string {
    if Truthy(a.port) then Text(a.host) + ":" + a.port.value else Text(a.host)
  }

  function UnsplitAuthority(a: Authority): string {
    var userinfo, hostport := UnsplitUserinfo(a), UnsplitHostport(a);
    if userinfo != "" then userinfo + "@" + hostport else hostport
  }

  function UnsplitAssignment(p: Pair): string {
    Text(p.key) + (if p.value.Some? then "=" + p.value.value else "")
  }

  function UnsplitAssignments(pairs: seq<Pair>): seq<string> {
    seq(|pairs|, i requires 0 <= i < |pairs| => UnsplitAssignment(pairs[i]))
  }

  function UnsplitQuery(pairs: seq<Pair>): string { Join(UnsplitAssignments(pairs), '&') }

  function PutScheme(p: Part): string { if p.Some? then p.value + ":" else "" }
  function PutAuthority(p: Part): string { if p.Some? then "//" + p.value else "" }
  function PutQuery(p: Part): string { if p.Some? then "?" + p.value else "" }
  function PutFragment(p: Part): string { if p.Some? then "#" + p.value else "" }

  /** Component recomposition, RFC 3986, section 5.3. */
  function Recompose(b: Basic): string {
    PutScheme(b.scheme) + (PutAuthority(b.authority) + (b.path + (PutQuery(b.query) + PutFragment(b.fragment))))
  }

  /** The components uri_unsplit_tree writes: an empty authority protects a path that begins
      with two slashes. */
  function UnsplitParts(t: Tree): Basic {
    var authority := if t.authority.Some? then UnsplitAuthority(t.authority.value) else "";
    var query := if t.query.Some? then UnsplitQuery(t.query.value) else "";
    var path := Text(t.path);
    Basic(OrNone(t.scheme),
          if authority != "" then Some(authority) else if StartsWith(path, "//") then Some("") else None,
          path, OrNone(Some(query)), OrNone(t.fragment))
  }

  function UriUnsplitTree(t: Tree): string { Recompose(UnsplitParts(t)) }

  /** Checking, encoding and unsplitting for a host of the given kind. */
  function UnsplitAs(t: Tree, kind: HostType): Result<string> {
    match PrecodeCheck(UriTreeNormalize(t), kind)
    case Err(e) => Err(e)
    case Ok(n) => Ok(UriUnsplitTree(UriTreeEncode(n, kind)))
  }

  /** uri_help_unsplit: the default type_host. */
  function UriHelpUnsplit(t: Tree): Result<string> { UnsplitAs(t, RegNameHost) }

  // ---- Encoding and decoding are inverse ----

  ghost predicate Bytes(s: string) { AllOf(s, Byte) }

  lemma HexRound(c: char)
    requires Byte(c)
    ensures Network.HexDigit(HexChar(c as nat / 16)) && Network.HexDigit(HexChar(c as nat % 16))
    ensures (16 * HexValue(HexChar(c as nat / 16)) + HexValue(HexChar(c as nat % 16))) as char == c
  {
  }

  lemma DecodeChar(c: char, safe: char -> bool, u: string)
    requires Byte(c) && !safe('%')
    ensures PctDecode(EncodeChar(c, safe) + u) == [c] + PctDecode(u)
  {
    if safe(c) || Unreserved(c) {
      assert ([c] + u)[1..] == u;
    } else {
      HexRound(c);
      assert (['%', HexChar(c as nat / 16), HexChar(c as nat % 16)] + u)[3..] == u;
    }
  }

  lemma {:induction false} DecodeAppend(s: string, safe: char -> bool, t: string)
    requires Bytes(s) && !safe('%')
    ensures PctDecode(PctEncode(s, safe) + t) == s + PctDecode(t)
  {
    hide PctDecode;
    hide EncodeChar;
    if s == "" {
      assert "" + t == t;
    } else {
      var rest := PctEncode(s[1..], safe);
      DecodeAppend(s[1..], safe, t);
      DecodeChar(s[0], safe, rest + t);
      assert EncodeChar(s[0], safe) + rest + t == EncodeChar(s[0], safe) + (rest + t);
      assert s + PctDecode(t) == [s[0]] + (s[1..] + PctDecode(t));
    }
  }

  lemma DecodeEncoded(s: string, safe: char -> bool)
    requires Bytes(s) && !safe('%')
    ensures PctDecode(PctEncode(s, safe)) == s
  {
    DecodeAppend(s, safe, "");
    assert PctEncode(s, safe) + "" == PctEncode(s, safe);
  }

  /** Only safe characters, unreserved ones and '%' come out. */
  lemma {:induction false} EncodedChars(s: string, safe: char -> bool)
    requires Bytes(s)
    ensures AllOf(PctEncode(s, safe), c => safe(c) || Unreserved(c) || c == '%')
    ensures PctEncode(s, safe) == "" <==> s == ""
    ensures s != "" && (safe(s[0]) || Unreserved(s[0])) ==> PctEncode(s, safe)[0] == s[0]
    ensures s != "" && !(safe(s[0]) || Unreserved(s[0])) ==> PctEncode(s, safe)[0] == '%'
  {
    if s != "" {
      EncodedChars(s[1..], safe);
      assert forall n: nat :: n < 16 ==> Unreserved(HexChar(n));
    }
  }

  predicate NoColon(c: char) { c != ':' }

  lemma EncodedIn(s: string, safe: char -> bool, chars: char -> bool)
    requires Bytes(s)
    requires forall c :: safe(c) || Unreserved(c) || c == '%' ==> chars(c)
    ensures AllOf(PctEncode(s, safe), chars)
  {
  }

  lemma {:induction false} EncodedPlain(s: string, safe: char -> bool)
    requires Bytes(s)
    ensures '%' !in PctEncode(s, safe) ==> PctEncode(s, safe) == s
  {
    if s != "" {
      var c, rest := s[0], PctEncode(s[1..], safe);
      EncodedPlain(s[1..], safe);
      if safe(c) || Unreserved(c) {
        assert PctEncode(s, safe) == [c] + rest && s == [c] + s[1..];
      } else {
        assert PctEncode(s, safe)[0] == '%';
      }
    }
  }

  lemma ReplaceBack(s: string)
    requires '+' !in s
    ensures Replace(Replace(s, ' ', '+'), '+', ' ') == s
  {
  }

  lemma QueryRound(s: string, safe: char -> bool)
    requires Bytes(s) && !safe('%') && !safe('+')
    ensures QueryDecode(QueryEncode(s, safe)) == s
  {
    EncodedChars(s, safe);
    ReplaceBack(PctEncode(s, safe));
    DecodeEncoded(s, safe);
  }

  /** An encoded query element uses the characters of a query, and no separator beyond those
      declared safe. */
  lemma QueryEncodedChars(s: string, safe: char -> bool)
    requires Bytes(s) && forall c :: safe(c) ==> QueFragChar(c) || c == ' '
    ensures AllOf(QueryEncode(s, safe), QueFragChar)
    ensures !safe('&') ==> '&' !in QueryEncode(s, safe)
    ensures !safe('=') ==> '=' !in QueryEncode(s, safe)
    ensures QueryEncode(s, safe) == "" <==> s == ""
  {
    EncodedChars(s, safe);
  }

  // ---- Splitting and recomposing are inverse ----

  /** Recomposing the components found in any URI gives the URI back. */
  lemma SplitThenRecompose(uri: string)
    ensures Recompose(BasicUriSplit(uri)) == uri
  {
    hide TakeScheme; hide TakeAuthority; hide TakeQuery; hide PutScheme; hide PutAuthority; hide PutQuery;
    var b := BasicUriSplit(uri);
    var rest := TakeScheme(uri).1;
    var rest1 := TakeAuthority(rest).1;
    var rest2 := Span(rest1, InPath).1;
    var rest3 := TakeQuery(rest2).1;
    PutTaken(uri, rest, rest2);
    assert rest3 == PutFragment(b.fragment) by { FragmentStart(rest2); }
  }

  lemma PutTaken(a: string, b: string, c: string)
    ensures PutScheme(TakeScheme(a).0) + TakeScheme(a).1 == a
    ensures PutAuthority(TakeAuthority(b).0) + TakeAuthority(b).1 == b
    ensures PutQuery(TakeQuery(c).0) + TakeQuery(c).1 == c
  {
    PutTakenScheme(a);
    PutTakenAuthority(b);
    PutTakenQuery(c);
  }

  lemma PutTakenScheme(s: string)
    ensures PutScheme(TakeScheme(s).0) + TakeScheme(s).1 == s
  {
  }

  lemma PutTakenAuthority(s: string)
    ensures PutAuthority(TakeAuthority(s).0) + TakeAuthority(s).1 == s
  {
  }

  lemma PutTakenQuery(s: string)
    ensures PutQuery(TakeQuery(s).0) + TakeQuery(s).1 == s
  {
  }

  lemma FragmentStart(rest: string)
    requires rest == "" || !InPath(rest[0])
    ensures TakeQuery(rest).1 == "" || TakeQuery(rest).1[0] == '#'
  {
  }

  /** Components that can stand next to one another. */
  ghost predicate WellFormed(b: Basic) {
    && (b.scheme.Some? ==> b.scheme.value != "" && AllOf(b.scheme.value, InScheme))
    && (b.authority.Some? ==> AllOf(b.authority.value, InAuthority) && (b.path == "" || b.path[0] == '/'))
    && AllOf(b.path, InPath)
    && (b.authority.None? ==> !StartsWith(b.path, "//"))
    && (b.authority.None? && b.scheme.None? && ':' in FirstSegment(b.path) ==> b.path[0] == ':')
    && (b.query.Some? ==> AllOf(b.query.value, InQuery))
  }

  lemma NotPrefix(c: char, s: string)
    requires s == "" || s[0] != c
    ensures !StartsWith(s, [c])
  {
  }

  lemma TakePutQuery(q: Part, f: Part)
    requires q.Some? ==> AllOf(q.value, InQuery)
    ensures TakeQuery(PutQuery(q) + PutFragment(f)) == (q, PutFragment(f))
    ensures var tail := PutQuery(q) + PutFragment(f); tail == "" || tail[0] == '?' || tail[0] == '#'
  {
    hide Span;
    var frag := PutFragment(f);
    var tail := PutQuery(q) + frag;
    if q.Some? {
      SpanIs(q.value, frag, InQuery);
      assert tail == "?" + (q.value + frag);
      assert tail[0] == "?"[0] && tail[1..] == q.value + frag;
    } else {
      assert tail == frag;
      assert frag != "" ==> frag[0] == "#"[0];
      NotPrefix('?', frag);
    }
  }

  lemma NotDoubled(path: string, tail: string)
    requires !StartsWith(path, "//") && (tail == "" || tail[0] == '?' || tail[0] == '#')
    ensures !StartsWith(path + tail, "//")
  {
    var s := path + tail;
    assert |path| >= 2 ==> path[..2] == [path[0], path[1]];
    assert |path| >= 2 ==> s[0] == path[0] && s[1] == path[1];
    assert |path| == 1 && tail != "" ==> s[1] == tail[0];
    assert |path| == 0 ==> s == tail;
  }

  lemma TakeWrittenAuthority(a: string, rest: string)
    requires AllOf(a, InAuthority) && (rest == "" || !InAuthority(rest[0]))
    ensures TakeAuthority("//" + a + rest) == (Some(a), rest)
  {
    var s := "//" + a + rest;
    SpanIs(a, rest, InAuthority);
    assert s[..2] == "//" && s[2..] == a + rest;
  }

  lemma TakePutAuthority(a: Part, path: string, tail: string)
    requires a.Some? ==> AllOf(a.value, InAuthority) && (path == "" || path[0] == '/')
    requires a.None? ==> !StartsWith(path, "//")
    requires tail == "" || tail[0] == '?' || tail[0] == '#'
    ensures TakeAuthority(PutAuthority(a) + (path + tail)) == (a, path + tail)
  {
    var s := PutAuthority(a) + (path + tail);
    if a.Some? {
      TakeWrittenAuthority(a.value, path + tail);
    } else {
      assert s == path + tail;
      NotDoubled(path, tail);
    }
  }

  /** Without an authority a first segment with no colon, or with one in front, cannot be taken
      for a scheme. */
  lemma NoSchemeInPath(path: string, tail: string)
    requires (':' in FirstSegment(path) ==> path[0] == ':') && AllOf(path, InPath)
    requires tail == "" || tail[0] == '?' || tail[0] == '#'
    ensures TakeScheme(path + tail).0 == None
  {
    var s, seg := path + tail, FirstSegment(path);
    if ':' in seg {
      assert !InScheme(s[0]);
      SpanIs("", s, InScheme);
      assert "" + s == s;
      return;
    }
    var rest := Span(path, InSegment).1;
    assert path == seg + rest;
    assert AllOf(seg, InScheme) by {
      forall i | 0 <= i < |seg| ensures InScheme(seg[i]) {
        assert seg[i] == path[i] && InPath(path[i]);
        assert seg[i] in seg;
      }
    }
    var after := rest + tail;
    assert s == seg + after;
    assert after == "" || !InScheme(after[0]);
    SpanIs(seg, after, InScheme);
  }

  lemma TakeWrittenScheme(scheme: string, rest: string)
    requires scheme != "" && AllOf(scheme, InScheme)
    ensures TakeScheme(scheme + ":" + rest) == (Some(scheme), rest)
  {
    SpanIs(scheme, ":" + rest, InScheme);
    assert scheme + ":" + rest == scheme + (":" + rest);
    assert (":" + rest)[1..] == rest;
  }

  lemma TakePutScheme(b: Basic)
    requires WellFormed(b)
    ensures TakeScheme(Recompose(b))
      == (b.scheme, PutAuthority(b.authority) + (b.path + (PutQuery(b.query) + PutFragment(b.fragment))))
  {
    hide FirstSegment; hide InPath; hide TakeQuery; hide TakeAuthority;
    var tail := PutQuery(b.query) + PutFragment(b.fragment);
    var rest := PutAuthority(b.authority) + (b.path + tail);
    TakePutQuery(b.query, b.fragment);
    if b.scheme.Some? {
      TakeWrittenScheme(b.scheme.value, rest);
    } else {
      assert Recompose(b) == rest;
      if b.authority.Some? {
        SpanIs("", rest, InScheme);
        assert "" + rest == rest;
      } else {
        assert rest == b.path + tail;
        NoSchemeInPath(b.path, tail);
      }
    }
  }

  lemma ColonCut(path: string) returns (front: string, back: string)
    requires path != "" && path[0] != ':' && ':' in FirstSegment(path) && AllOf(path, InPath)
    ensures path == front + back && front != "" && AllOf(front, InScheme) && back != "" && back[0] == ':'
  {
    var seg := FirstSegment(path);
    assert path == seg + Span(path, InSegment).1;
    var i :| 0 <= i < |seg| && seg[i] == ':';
    var cut := Span(path, InScheme);
    front, back := cut.0, cut.1;
    assert path[i] == ':' && !InScheme(path[i]);
    forall k | 0 <= k < |front| ensures path[k] != ':' { assert path[k] == front[k] && InScheme(front[k]); }
    assert back[0] == path[|front|] == seg[|front|];
    assert InSegment(seg[|front|]) && InPath(path[|front|]);
    assert path[0] == seg[0] && InSegment(seg[0]) && InPath(path[0]);
  }

  /** What follows the scheme has none. */
  lemma SegmentColon(path: string, tail: string)
    requires TakeScheme(path + tail).0 == None && path != "" && ':' in FirstSegment(path) && AllOf(path, InPath)
    ensures path[0] == ':'
  {
    hide FirstSegment;
    if path[0] != ':' {
      var front, back := ColonCut(path);
      assert path + tail == front + (back + tail);
      SpanIs(front, back + tail, InScheme);
    }
  }

  /** The components found in any string can stand next to one another: there is no other way
      to take it apart. */
  lemma SplitWellFormed(uri: string)
    ensures WellFormed(BasicUriSplit(uri))
  {
    var b := BasicUriSplit(uri);
    var rest := TakeScheme(uri).1;
    var (authority, rest1) := TakeAuthority(rest);
    var (path, rest2) := Span(rest1, InPath);
    if authority.None? {
      assert rest == path + rest2;
      if b.scheme.None? && path != "" && ':' in FirstSegment(path) { SegmentColon(path, rest2); }
    } else {
      assert rest1 == path + rest2;
    }
  }

  /** Splitting recomposed components finds them again. */
  lemma RecomposeThenSplit(b: Basic)
    requires WellFormed(b)
    ensures BasicUriSplit(Recompose(b)) == b
  {
    var tail := PutQuery(b.query) + PutFragment(b.fragment);
    TakePutScheme(b);
    TakePutQuery(b.query, b.fragment);
    TakePutAuthority(b.authority, b.path, tail);
    SpanIs(b.path, tail, InPath);
    assert b.fragment.Some? ==> PutFragment(b.fragment)[1..] == b.fragment.value;
  }

  // ---- The authority ----

  ghost predicate BytesPart(p: Part) { p.Some? ==> Bytes(p.value) }

  lemma CutIs(a: string, b: string, c: char)
    requires c !in a
    ensures c in a + [c] + b && Cut(a + [c] + b, c) == (a, b)
  {
    SpanIs(a, [c] + b, x => x != c);
    assert a + [c] + b == a + ([c] + b);
    assert ([c] + b)[1..] == b;
    assert (a + [c] + b)[|a|] == c;
  }

  /** A bracketed host that split_authority can find. */
  predicate Bracketed(h: string) {
    |h| >= 2 && h[0] == '[' && h[|h| - 1] == ']' && BracketText(h[1..|h| - 1])
  }

  predicate HostChar(c: char) { FutureChar(c) || c in "%[]\n" }

  /** An authority as it is written: no separator where it would be misread. */
  ghost predicate WrittenAuthority(a: Authority) {
    && (Truthy(a.user) ==> AllOf(a.user.value, UserChar))
    && (Truthy(a.passwd) ==> AllOf(a.passwd.value, PasswdChar))
    && (Truthy(a.host) ==> AllOf(a.host.value, HostChar))
    && (Truthy(a.port) ==> AllOf(a.port.value, Digit))
  }

  /** A host that split_authority finds again. */
  ghost predicate FoundHost(p: Part) {
    Truthy(p) ==> AllOf(p.value, RegNameChar) || Bracketed(p.value)
  }

  function CanonAuthority(a: Authority): Authority {
    Authority(OrNone(a.user), OrNone(a.passwd), OrNone(a.host), OrNone(a.port))
  }

  lemma FutureChars(s: string)
    requires IPvFuture(s)
    ensures s != "" && AllOf(s, FutureChar)
  {
  }

  lemma BracketChars(s: string)
    requires BracketText(s)
    ensures s != "" && AllOf(s, FutureChar)
  {
  }

  /** The text in brackets is found whatever port follows. */
  lemma BracketSplit(inner: string, port: string)
    requires BracketText(inner) && AllOf(port, Digit)
    ensures BracketMatch("[" + inner + "]" + (if port == "" then "" else ":" + port)) == Some((inner, port))
  {
    hide BracketText;
    BracketChars(inner);
    var rest := "]" + (if port == "" then "" else ":" + port);
    var s := "[" + inner + "]" + (if port == "" then "" else ":" + port);
    assert s == "[" + (inner + rest) && s[1..] == inner + rest;
    SpanIs(inner, rest, InBrackets);
    if port == "" {
      assert rest == "]" && rest[1..] == "";
    } else {
      assert rest[1..] == ":" + port && (":" + port)[1..] == port;
    }
  }

  lemma Lacks(s: string, p: char -> bool, c: char)
    requires AllOf(s, p) && !p(c)
    ensures c !in s
  {
  }

  lemma PlainHostport(a: Authority)
    requires Truthy(a.host) ==> AllOf(a.host.value, RegNameChar)
    requires Truthy(a.port) ==> AllOf(a.port.value, Digit)
    ensures SplitHostport(UnsplitHostport(a)) == Ok((OrNone(a.host), OrNone(a.port)))
  {
    hide Cut;
    hide BracketMatch;
    Lacks(Text(a.host), RegNameChar, ':');
    assert Truthy(a.host) ==> a.host.value[0] != '[';
    if Truthy(a.port) { CutIs(Text(a.host), a.port.value, ':'); }
  }

  lemma HostportText(a: Authority)
    requires WrittenAuthority(a)
    ensures '@' !in UnsplitHostport(a)
    ensures UnsplitHostport(a) == "" <==> !Truthy(a.host) && !Truthy(a.port)
  {
  }

  lemma HostportSplit(a: Authority)
    requires WrittenAuthority(a) && FoundHost(a.host)
    ensures SplitHostport(UnsplitHostport(a)) == Ok((OrNone(a.host), OrNone(a.port)))
  {
    hide SplitHostport;
    hide Bracketed;
    if Truthy(a.host) && Bracketed(a.host.value) {
      BracketedHostport(a);
    } else {
      PlainHostport(a);
    }
  }

  lemma BracketedHostport(a: Authority)
    requires Truthy(a.host) && Bracketed(a.host.value)
    requires Truthy(a.port) ==> AllOf(a.port.value, Digit)
    ensures SplitHostport(UnsplitHostport(a)) == Ok((OrNone(a.host), OrNone(a.port)))
  {
    hide BracketMatch;
    hide BracketText;
    var h := a.host.value;
    var inner := h[1..|h| - 1];
    assert h == "[" + inner + "]";
    BracketSplit(inner, if Truthy(a.port) then a.port.value else "");
    assert UnsplitHostport(a)[0] == '[';
    assert UnsplitHostport(a) == h + (if Truthy(a.port) then ":" + a.port.value else "");
  }

  lemma UserinfoSplit(a: Authority)
    requires WrittenAuthority(a)
    ensures '@' !in UnsplitUserinfo(a)
    ensures UnsplitUserinfo(a) == "" <==> !Truthy(a.user) && !Truthy(a.passwd)
    ensures ':' in UnsplitUserinfo(a) <==> Truthy(a.passwd)
    ensures Truthy(a.passwd) ==> Cut(UnsplitUserinfo(a), ':') == (Text(a.user), a.passwd.value)
  {
    hide Cut;
    Lacks(Text(a.user), UserChar, ':');
    Lacks(Text(a.user), UserChar, '@');
    if Truthy(a.passwd) {
      CutIs(Text(a.user), a.passwd.value, ':');
      Lacks(a.passwd.value, PasswdChar, '@');
    }
  }

  /** The userinfo is cut off, whatever the rest reads as. */
  lemma AuthorityCut(a: Authority)
    requires WrittenAuthority(a)
    ensures SplitAuthority(UnsplitAuthority(a)) ==
              match SplitHostport(UnsplitHostport(a))
              case Err(e) => Err(e)
              case Ok((host, port)) => Ok(Authority(OrNone(a.user), OrNone(a.passwd), host, port))
    ensures UnsplitAuthority(a) == "" <==> !SomeField(a)
  {
    hide SplitHostport;
    UserinfoSplit(a);
    HostportText(a);
    var u, h := UnsplitUserinfo(a), UnsplitHostport(a);
    if u != "" { CutIs(u, h, '@'); }
  }

  /** split_authority finds the parts uri_unsplit_tree wrote, empty ones as None. */
  lemma AuthorityRound(a: Authority)
    requires WrittenAuthority(a) && FoundHost(a.host)
    ensures SplitAuthority(UnsplitAuthority(a)) == Ok(CanonAuthority(a))
  {
    hide SplitAuthority;
    hide SplitHostport;
    hide WrittenAuthority;
    hide FoundHost;
    AuthorityCut(a);
    HostportSplit(a);
  }

  lemma AuthorityChars(a: Authority)
    requires WrittenAuthority(a)
    ensures AllOf(UnsplitAuthority(a), InAuthority)
  {
    hide SomeField;
    assert AllOf(Text(a.user), InAuthority) && AllOf(Text(a.host), InAuthority);
    assert Truthy(a.passwd) ==> AllOf(a.passwd.value, InAuthority);
    assert Truthy(a.port) ==> AllOf(a.port.value, InAuthority);
    assert AllOf(UnsplitUserinfo(a), InAuthority) && AllOf(UnsplitHostport(a), InAuthority);
  }

  // ---- The query ----

  /** A pair as it is written: split_assignment and the cut at '&' can find it again. */
  ghost predicate WrittenPair(p: Pair) {
    && (p.key.Some? ==> '&' !in p.key.value && '=' !in p.key.value)
    && (p.value.Some? ==> '&' !in p.value.value)
    && SomeSide(p)
  }

  ghost predicate AllWritten(pairs: seq<Pair>) {
    forall i :: 0 <= i < |pairs| ==> WrittenPair(pairs[i])
  }

  /** A missing key comes back as the empty one. */
  function CanonPair(p: Pair): Pair { Pair(Some(Text(p.key)), p.value) }

  lemma AssignmentRound(p: Pair)
    requires WrittenPair(p)
    ensures UnsplitAssignment(p) != "" && '&' !in UnsplitAssignment(p)
    ensures SplitAssignment(UnsplitAssignment(p)) == CanonPair(p)
  {
    if p.value.Some? {
      assert UnsplitAssignment(p) == Text(p.key) + ['='] + p.value.value;
      CutIs(Text(p.key), p.value.value, '=');
    } else {
      assert UnsplitAssignment(p) == p.key.value;
    }
  }

  lemma {:induction false} AssignmentsRound(pairs: seq<Pair>)
    requires AllWritten(pairs)
    ensures SplitAssignments(UnsplitAssignments(pairs)) == MapPairs(pairs, CanonPair)
    ensures Bare(UnsplitAssignments(pairs), '&')
  {
    var parts := UnsplitAssignments(pairs);
    forall i | 0 <= i < |parts| ensures '&' !in parts[i] { AssignmentRound(pairs[i]); }
    if pairs != [] {
      AssignmentRound(pairs[0]);
      assert parts[1..] == UnsplitAssignments(pairs[1..]);
      AssignmentsRound(pairs[1..]);
    }
  }

  lemma {:induction false} JoinLength(parts: seq<string>, c: char)
    requires parts != []
    ensures |parts| <= |Join(parts, c)| + 1
  {
    if |parts| > 1 { JoinLength(parts[1..], c); }
  }

  lemma {:induction false} JoinChars(parts: seq<string>, c: char, p: char -> bool)
    requires p(c) && forall i :: 0 <= i < |parts| ==> AllOf(parts[i], p)
    ensures AllOf(Join(parts, c), p)
  {
    if |parts| > 1 { JoinChars(parts[1..], c, p); }
  }

  /** split_query finds the pairs unsplit_query wrote. */
  lemma QuerySplitRound(pairs: seq<Pair>)
    requires AllWritten(pairs) && pairs != []
    ensures SplitQuery(UnsplitQuery(pairs)) == MapPairs(pairs, CanonPair)
    ensures UnsplitQuery(pairs) != ""
  {
    var parts := UnsplitAssignments(pairs);
    AssignmentsRound(pairs);
    JoinLength(parts, '&');
    JoinThenSplit(parts, '&', |Join(parts, '&')|);
    assert MapPairs(pairs, CanonPair) != [];
    assert UnsplitQuery(pairs) != "" by { AssignmentRound(pairs[0]); assert parts[0] != ""; }
  }

  lemma EncodedPair(p: Pair)
    requires BytesPart(p.key) && BytesPart(p.value) && SomeSide(p)
    ensures WrittenPair(EncodePair(p))
    ensures SomeSide(CanonPair(EncodePair(p)))
    ensures DecodePair(CanonPair(EncodePair(p))) == CanonPair(p)
    ensures AllOf(Text(EncodePair(p).key), QueFragChar) && AllOf(Text(EncodePair(p).value), QueFragChar)
  {
    if p.key.Some? {
      QueryRound(p.key.value, QueryKeySafe);
      QueryEncodedChars(p.key.value, QueryKeySafe);
    }
    if p.value.Some? {
      QueryRound(p.value.value, QueryValSafe);
      QueryEncodedChars(p.value.value, QueryValSafe);
    }
  }

  ghost predicate BytesPairs(pairs: seq<Pair>) {
    forall i :: 0 <= i < |pairs| ==> BytesPart(pairs[i].key) && BytesPart(pairs[i].value)
  }

  ghost predicate AllSome(pairs: seq<Pair>) {
    forall i :: 0 <= i < |pairs| ==> SomeSide(pairs[i])
  }

  lemma {:induction false} MeaningfulFacts(pairs: seq<Pair>)
    ensures AllSome(Meaningful(pairs))
    ensures BytesPairs(pairs) ==> BytesPairs(Meaningful(pairs))
  {
    if pairs != [] { MeaningfulFacts(pairs[1..]); }
  }

  lemma {:induction false} MeaningfulSame(pairs: seq<Pair>)
    requires AllSome(pairs)
    ensures Meaningful(pairs) == pairs
  {
    if pairs != [] {
      MeaningfulSame(pairs[1..]);
      assert pairs == [pairs[0]] + pairs[1..];
    }
  }

  lemma AssignmentChars(p: Pair)
    requires AllOf(Text(p.key), QueFragChar) && AllOf(Text(p.value), QueFragChar)
    ensures AllOf(UnsplitAssignment(p), InQuery)
  {
  }

  lemma CodedQuery(pairs: seq<Pair>)
    requires AllSome(pairs) && BytesPairs(pairs)
    ensures AllWritten(MapPairs(pairs, EncodePair))
    ensures AllOf(UnsplitQuery(MapPairs(pairs, EncodePair)), InQuery)
  {
    hide WrittenPair;
    hide EncodePair;
    var coded := MapPairs(pairs, EncodePair);
    var parts := UnsplitAssignments(coded);
    forall i | 0 <= i < |coded| ensures WrittenPair(coded[i]) && AllOf(parts[i], InQuery) {
      EncodedPair(pairs[i]);
      AssignmentChars(coded[i]);
    }
    JoinChars(parts, '&', InQuery);
  }

  lemma CodedBack(pairs: seq<Pair>)
    requires AllSome(pairs) && BytesPairs(pairs)
    ensures var back := MapPairs(MapPairs(pairs, EncodePair), CanonPair);
            AllSome(back) && ValidQuery(back) && MapPairs(back, DecodePair) == MapPairs(pairs, CanonPair)
  {
    var back := MapPairs(MapPairs(pairs, EncodePair), CanonPair);
    forall i | 0 <= i < |back|
      ensures SomeSide(back[i]) && DecodePair(back[i]) == CanonPair(pairs[i])
      ensures AllOf(Text(back[i].key), QueFragChar) && AllOf(Text(back[i].value), QueFragChar)
    {
      EncodedPair(pairs[i]);
    }
    assert MapPairs(back, DecodePair) == MapPairs(pairs, CanonPair);
  }

  /** From the pairs to the query string and back: all validated, all decoded. */
  lemma QueryTrip(pairs: seq<Pair>)
    requires AllSome(pairs) && BytesPairs(pairs) && pairs != []
    ensures var q := UnsplitQuery(MapPairs(pairs, EncodePair)); var back := SplitQuery(q);
            q != "" && back != [] && Meaningful(back) == back && ValidQuery(back)
            && MapPairs(back, DecodePair) == MapPairs(pairs, CanonPair)
  {
    CodedQuery(pairs);
    CodedBack(pairs);
    QuerySplitRound(MapPairs(pairs, EncodePair));
    MeaningfulSame(MapPairs(MapPairs(pairs, EncodePair), CanonPair));
  }

  // ---- The path ----

  predicate SegmentSafe(c: char) { PathSafe(c) && c != ':' }

  lemma {:induction false} EncodeConcat(a: string, b: string, safe: char -> bool)
    ensures PctEncode(a + b, safe) == PctEncode(a, safe) + PctEncode(b, safe)
  {
    if a == "" {
      assert a + b == b;
    } else {
      assert (a + b)[1..] == a[1..] + b;
      EncodeConcat(a[1..], b, safe);
    }
  }

  lemma {:induction false} EscapeConcat(a: string, b: string)
    ensures EscapeColons(a + b) == EscapeColons(a) + EscapeColons(b)
  {
    if a == "" {
      assert a + b == b;
    } else {
      assert (a + b)[1..] == a[1..] + b;
      EscapeConcat(a[1..], b);
    }
  }

  lemma {:induction false} EscapePlain(s: string)
    requires ':' !in s
    ensures EscapeColons(s) == s
  {
    if s != "" {
      EscapePlain(s[1..]);
      assert s == [s[0]] + s[1..];
    }
  }

  /** Escaping the colons afterwards is encoding them in the first place. */
  lemma EscapeChar(c: char)
    requires Byte(c)
    ensures EscapeColons(EncodeChar(c, PathSafe)) == EncodeChar(c, SegmentSafe)
  {
    if c == ':' {
      assert EscapeColons(":") == "%3A" + EscapeColons(":"[1..]);
    } else {
      assert forall n: nat :: n < 16 ==> HexChar(n) != ':';
      EscapePlain(EncodeChar(c, PathSafe));
    }
  }

  lemma {:induction false} EscapeIsEncode(s: string)
    requires Bytes(s)
    ensures EscapeColons(PctEncode(s, PathSafe)) == PctEncode(s, SegmentSafe)
  {
    hide EncodeChar;
    if s == "" {
    } else {
      EscapeChar(s[0]);
      EscapeConcat(EncodeChar(s[0], PathSafe), PctEncode(s[1..], PathSafe));
      EscapeIsEncode(s[1..]);
    }
  }

  lemma BytesParts(s: string, r: string)
    requires Bytes(s + r)
    ensures Bytes(s) && Bytes(r)
  {
    assert forall i :: 0 <= i < |s| ==> s[i] == (s + r)[i];
    assert forall i :: 0 <= i < |r| ==> r[i] == (s + r)[|s| + i];
  }

  lemma SegmentOfEncoded(p: string)
    requires Bytes(p)
    ensures var (s, r) := Span(p, InSegment);
            Span(PctEncode(p, PathSafe), InSegment) == (PctEncode(s, PathSafe), PctEncode(r, PathSafe))
  {
    var (s, r) := Span(p, InSegment);
    BytesParts(s, r);
    EncodeConcat(s, r, PathSafe);
    EncodedNoSlash(s, PathSafe);
    EncodedChars(r, PathSafe);
    SpanIs(PctEncode(s, PathSafe), PctEncode(r, PathSafe), InSegment);
  }

  lemma {:induction false} EncodedNoSlash(s: string, safe: char -> bool)
    requires Bytes(s) && AllOf(s, InSegment)
    ensures AllOf(PctEncode(s, safe), InSegment)
  {
    if s != "" {
      EncodedNoSlash(s[1..], safe);
      assert forall n: nat :: n < 16 ==> HexChar(n) != '/';
    }
  }

  /** The escaped form of the path for p = s + r, s its first segment. */
  lemma EscapedPath(s: string, r: string)
    requires Bytes(s) && Bytes(r) && AllOf(s, InSegment) && (r == "" || !InSegment(r[0]))
    ensures var path := PctEncode(s, SegmentSafe) + PctEncode(r, PathSafe);
            PctDecode(path) == s + r && AllOf(path, PChar) && ':' !in FirstSegment(path)
            && (path == "" <==> s + r == "")
  {
    hide PctDecode;
    hide PctEncode;
    var head, tail := PctEncode(s, SegmentSafe), PctEncode(r, PathSafe);
    DecodeAppend(s, SegmentSafe, tail);
    DecodeEncoded(r, PathSafe);
    EncodedChars(s, SegmentSafe);
    EncodedChars(r, PathSafe);
    EncodedNoSlash(s, SegmentSafe);
    SpanIs(head, tail, InSegment);
    EncodedIn(s, SegmentSafe, PChar);
    EncodedIn(s, SegmentSafe, NoColon);
    EncodedIn(r, PathSafe, PChar);
    assert AllOf(head + tail, PChar);
  }

  /** The path written for p: it decodes to p, is made of path characters, keeps its first
      character if that is a slash, and has no scheme to be mistaken for. */
  lemma PathTrip(p: string, bare: bool)
    requires Bytes(p) && p != ""
    ensures PctDecode(EncodePath(p, bare)) == p
    ensures AllOf(EncodePath(p, bare), PChar)
    ensures EncodePath(p, bare) != ""
    ensures p[0] == '/' && !bare ==> EncodePath(p, bare)[0] == '/'
    ensures bare ==> ':' !in FirstSegment(EncodePath(p, bare))
  {
    hide PctDecode;
    hide PctEncode;
    hide EscapeColons;
    var (s, r) := Span(p, InSegment);
    BytesParts(s, r);
    SegmentOfEncoded(p);
    EscapeIsEncode(s);
    EscapedPath(s, r);
    EncodedChars(p, PathSafe);
    PartTrip(Some(p), PathSafe, PChar);
  }

  // ---- The round trip ----

  ghost predicate BytesTree(t: Tree) {
    && BytesPart(t.scheme) && BytesPart(t.path) && BytesPart(t.fragment)
    && (t.authority.Some? ==> BytesAuthority(t.authority.value))
    && (t.query.Some? ==> BytesPairs(t.query.value))
  }

  /** The tree without its empty components: what uri_help_split gives back. */
  function Canon(t: Tree): Tree {
    Tree(OrNone(t.scheme),
         if t.authority.Some? && SomeField(t.authority.value) then Some(CanonAuthority(t.authority.value)) else None,
         OrNone(t.path),
         if t.query.Some? && Meaningful(t.query.value) != [] then Some(MapPairs(Meaningful(t.query.value), CanonPair))
         else None,
         OrNone(t.fragment))
  }

  lemma PartTrip(p: Part, safe: char -> bool, chars: char -> bool)
    requires Truthy(p) && Bytes(p.value) && !safe('%')
    requires forall c :: safe(c) || Unreserved(c) || c == '%' ==> chars(c)
    ensures Truthy(EncodePart(p, safe)) && PctDecode(EncodePart(p, safe).value) == p.value
    ensures AllOf(EncodePart(p, safe).value, chars)
  {
    DecodeEncoded(p.value, safe);
    EncodedChars(p.value, safe);
    EncodedIn(p.value, safe, chars);
  }

  /** A host that reads as dotted IPv4 has no percent sign. */
  lemma IPv4HasNoPercent(h: string)
    requires Network.ValidIPv4DotDec(h)
    ensures '%' !in h
  {
  }

  /** A coded host is a registered name of the grammar or dotted IPv4, and reads back. */
  lemma HostTrip(h: string)
    requires Bytes(h) && h != ""
    ensures var coded := PctEncode(h, RegNameSafe);
            && coded != "" && AllOf(coded, RegNameChar)
            && ValidateHost(coded) == None
            && (if TypeOfHost(coded) == RegNameHost then PctDecode(coded) else coded) == h
  {
    hide PctDecode;
    hide PctEncode;
    hide Network.ValidIPv4DotDec;
    var coded := PctEncode(h, RegNameSafe);
    PartTrip(Some(h), RegNameSafe, RegNameChar);
    assert RegNameChar(coded[0]);
    if Network.ValidIPv4DotDec(coded) {
      IPv4HasNoPercent(coded);
      EncodedPlain(h, RegNameSafe);
    }
  }

  ghost predicate BytesAuthority(a: Authority) {
    BytesPart(a.user) && BytesPart(a.passwd) && BytesPart(a.host) && BytesPart(a.port)
  }

  /** A host that uri_tree_precode_check lets through. */
  predicate CheckedHost(h: string, kind: HostType) {
    match kind
    case RegNameHost => true
    case IPv4Host => Network.ValidIPv4DotDec(h)
    case IPLiteralHost => ValidIPLiteral(h)
  }

  lemma RawIPv4(h: string)
    requires Network.ValidIPv4DotDec(h)
    ensures AllOf(h, RegNameChar) && ValidateHost(h) == None && TypeOfHost(h) == IPv4Host
  {
    hide Network.ValidIPv4DotDec;
    Network.IPv4DotDecChars(h);
  }

  /** The text of an IP literal; only an IPvFuture may be followed by a newline. */
  lemma LiteralText(h: string) returns (inner: string)
    requires ValidIPLiteral(h)
    ensures h == "[" + inner + "]" && AllOf(h, HostChar)
    ensures if '\n' in h then inner != "" && IPvFuture(inner[..|inner| - 1]) && inner[|inner| - 1] == '\n'
            else BracketText(inner)
  {
    hide IPvFuture;
    hide BracketText;
    hide Network.ValidIPv6Address;
    inner := h[1..|h| - 1];
    InnerText(inner);
    forall i | 0 <= i < |h| ensures HostChar(h[i]) { if 0 < i < |h| - 1 { assert h[i] == inner[i - 1]; } }
    if '\n' in inner { assert h[|inner|] == inner[|inner| - 1]; }
  }

  lemma InnerText(inner: string)
    requires Network.ValidIPv6Address(inner)
      || IPvFuture(if inner != "" && inner[|inner| - 1] == '\n' then inner[..|inner| - 1] else inner)
    ensures AllOf(inner, HostChar)
    ensures if '\n' in inner then IPvFuture(inner[..|inner| - 1]) && inner[|inner| - 1] == '\n' else BracketText(inner)
  {
    hide IPvFuture;
    hide Network.ValidIPv6Address;
    var cut := if inner != "" && inner[|inner| - 1] == '\n' then inner[..|inner| - 1] else inner;
    if Network.ValidIPv6Address(inner) {
      Network.IPv6Chars(inner);
    } else {
      FutureChars(cut);
      Lacks(cut, FutureChar, '\n');
      if cut != inner { assert inner == cut + "\n"; }
    }
  }

  lemma RawLiteral(h: string)
    requires ValidIPLiteral(h)
    ensures AllOf(h, HostChar) && ValidateHost(h) == None && TypeOfHost(h) == IPLiteralHost
    ensures '\n' !in h ==> Bracketed(h)
  {
    hide IPvFuture;
    hide BracketText;
    hide Network.ValidIPv6Address;
    var inner := LiteralText(h);
    assert h[1..|h| - 1] == inner;
  }

  /** The newline is read as part of the text in brackets and fits neither alternative. */
  lemma NewlineHostport(h: string, port: string)
    requires ValidIPLiteral(h) && '\n' in h
    ensures SplitHostport(h + port) == Err(InvalidIPLiteral)
  {
    hide IPvFuture;
    hide ValidIPLiteral;
    var inner := LiteralText(h);
    var x := inner[..|inner| - 1];
    FutureChars(x);
    var s, rest := h + port, "]" + port;
    assert s == "[" + (inner + rest) && s[1..] == inner + rest;
    SpanIs(inner, rest, InBrackets);
    assert inner[|inner| - 1] == '\n';
    assert !IPvFuture(inner) by { if IPvFuture(inner) { FutureChars(inner); assert false; } }
  }

  ghost predicate CheckedAuthority(a: Authority, kind: HostType) {
    && BytesAuthority(a)
    && (Truthy(a.port) ==> AllOf(a.port.value, Digit))
    && (Truthy(a.host) ==> CheckedHost(a.host.value, kind))
  }

  predicate OneLine(p: Part) { p.Some? ==> '\n' !in p.value }

  lemma AuthorityTrip(a: Authority, kind: HostType)
    requires CheckedAuthority(a, kind)
    ensures var coded := EncodeAuthority(a, kind);
            && WrittenAuthority(coded) && (SomeField(coded) <==> SomeField(a))
            && (kind != IPLiteralHost || OneLine(a.host) ==> FoundHost(coded.host))
            && ValidateAuthority(CanonAuthority(coded)) == None
            && DecodeAuthority(CanonAuthority(coded)) == CanonAuthority(a)
  {
    hide PctDecode;
    hide PctEncode;
    hide ValidateHost;
    hide TypeOfHost;
    hide Bracketed;
    hide Network.ValidIPv4DotDec;
    hide ValidIPLiteral;
    if Truthy(a.user) { PartTrip(a.user, UserSafe, UserChar); }
    if Truthy(a.passwd) { PartTrip(a.passwd, PasswdSafe, PasswdChar); }
    if Truthy(a.host) {
      match kind
      case RegNameHost => HostTrip(a.host.value);
      case IPv4Host => RawIPv4(a.host.value);
      case IPLiteralHost => RawLiteral(a.host.value);
    }
  }

  /** What uri_tree_normalize leaves: no empty part except inside pairs. */
  ghost predicate Normal(t: Tree) {
    && t.scheme == OrNone(t.scheme) && t.path == OrNone(t.path) && t.fragment == OrNone(t.fragment)
    && (t.authority.Some? ==> SomeField(t.authority.value))
    && (t.query.Some? ==> t.query.value != [] && AllSome(t.query.value))
  }

  lemma NormalizeIsNormal(t: Tree)
    ensures Normal(UriTreeNormalize(t))
    ensures BytesTree(t) ==> BytesTree(UriTreeNormalize(t))
    ensures Canon(UriTreeNormalize(t)) == Canon(t)
  {
    if t.query.Some? {
      MeaningfulFacts(t.query.value);
      MeaningfulSame(Meaningful(t.query.value));
    }
  }

  /** The host as text is what split_authority can read: an IP literal has no newline. */
  ghost predicate OneLineLiteral(t: Tree, kind: HostType) {
    kind == IPLiteralHost && t.authority.Some? ==> OneLine(t.authority.value.host)
  }

  /** A normal tree of bytes that uri_tree_precode_check lets through. */
  ghost predicate Checked(n: Tree, kind: HostType) { Normal(n) && BytesTree(n) && PrecodeCheck(n, kind).Ok? }

  function CodedPath(n: Tree): string {
    if Truthy(n.path) then EncodePath(n.path.value, n.authority.None? && !Truthy(n.scheme)) else ""
  }

  function CodedAuthority(n: Tree, kind: HostType): string {
    if n.authority.Some? then UnsplitAuthority(EncodeAuthority(n.authority.value, kind)) else ""
  }

  function CodedPairs(n: Tree): Part {
    if n.query.Some? then Some(UnsplitQuery(MapPairs(n.query.value, EncodePair))) else None
  }

  lemma PathFacts(n: Tree, kind: HostType)
    requires Checked(n, kind)
    ensures AllOf(CodedPath(n), PChar)
    ensures (CodedPath(n) == "" <==> n.path.None?) && (n.path.Some? ==> PctDecode(CodedPath(n)) == n.path.value)
    ensures n.authority.Some? && CodedPath(n) != "" ==> CodedPath(n)[0] == '/'
    ensures n.authority.None? && n.scheme.None? ==> ':' !in FirstSegment(CodedPath(n))
  {
    hide EncodePath;
    if n.path.Some? { PathTrip(n.path.value, n.authority.None? && !Truthy(n.scheme)); }
  }

  lemma AuthorityFacts(n: Tree, kind: HostType)
    requires Checked(n, kind)
    ensures AllOf(CodedAuthority(n, kind), InAuthority)
    ensures CodedAuthority(n, kind) != "" <==> n.authority.Some?
    ensures n.authority.Some? ==> var a := n.authority.value; var back := CanonAuthority(EncodeAuthority(a, kind));
              && (OneLineLiteral(n, kind) ==> SplitAuthority(CodedAuthority(n, kind)) == Ok(back))
              && SomeField(back)
              && ValidateAuthority(back) == None && DecodeAuthority(back) == CanonAuthority(a)
  {
    hide SplitAuthority;
    hide UnsplitAuthority;
    hide ValidateAuthority;
    hide DecodeAuthority;
    hide EncodeAuthority;
    hide ValidIPLiteral;
    hide Network.ValidIPv4DotDec;
    if n.authority.Some? {
      var coded := EncodeAuthority(n.authority.value, kind);
      AuthorityTrip(n.authority.value, kind);
      AuthorityCut(coded);
      AuthorityChars(coded);
      if OneLineLiteral(n, kind) { AuthorityRound(coded); }
    }
  }

  lemma QueryFacts(n: Tree, kind: HostType)
    requires Checked(n, kind)
    ensures n.query.Some? <==> CodedPairs(n).Some?
    ensures n.query.Some? ==> var q := CodedPairs(n).value; var back := SplitQuery(q);
              && q != "" && AllOf(q, InQuery)
              && back != [] && Meaningful(back) == back && ValidQuery(back)
              && MapPairs(back, DecodePair) == MapPairs(n.query.value, CanonPair)
  {
    if n.query.Some? {
      CodedQuery(n.query.value);
      QueryTrip(n.query.value);
    }
  }

  /** The components written for a tree. */
  function CodedParts(n: Tree, kind: HostType): Basic {
    Basic(n.scheme,
          if n.authority.Some? then Some(CodedAuthority(n, kind))
          else if StartsWith(CodedPath(n), "//") then Some("") else None,
          CodedPath(n), CodedPairs(n), EncodePart(n.fragment, FragSafe))
  }

  lemma UnsplitIsCoded(n: Tree, kind: HostType)
    requires Checked(n, kind)
    ensures UriUnsplitTree(UriTreeEncode(n, kind)) == Recompose(CodedParts(n, kind))
  {
    hide EncodePath;
    hide PctEncode;
    hide UnsplitAuthority;
    hide UnsplitQuery;
    hide EncodeAuthority;
    hide SplitQuery;
    hide PctDecode;
    hide DecodeAuthority;
    hide ValidateAuthority;
    hide SplitAuthority;
    hide Meaningful;
    hide ValidQuery;
    hide FirstSegment;
    PathFacts(n, kind);
    AuthorityFacts(n, kind);
    QueryFacts(n, kind);
    if n.fragment.Some? { EncodedChars(n.fragment.value, FragSafe); }
    assert UnsplitParts(UriTreeEncode(n, kind)) == CodedParts(n, kind);
  }

  lemma SchemeChars(s: string)
    requires ValidScheme(s)
    ensures AllOf(s, InScheme)
  {
  }

  lemma PathChars(path: string)
    requires AllOf(path, PChar)
    ensures AllOf(path, InPath)
    ensures StartsWith(path, "//") ==> path[0] == '/'
  {
  }

  /** The written components can stand next to one another: the character sets see to it. */
  lemma CodedPartsWellFormed(n: Tree, kind: HostType)
    requires Checked(n, kind)
    ensures WellFormed(CodedParts(n, kind))
  {
    hide AllOf;
    hide BytesTree;
    hide CodedPath;
    hide CodedAuthority;
    hide CodedPairs;
    hide SplitQuery;
    hide SplitAuthority;
    hide FirstSegment;
    hide ValidScheme;
    hide PctDecode;
    hide EncodePart;
    hide Meaningful;
    hide ValidQuery;
    hide DecodeAuthority;
    PathFacts(n, kind);
    AuthorityFacts(n, kind);
    QueryFacts(n, kind);
    PathChars(CodedPath(n));
    if n.scheme.Some? { SchemeChars(n.scheme.value); }
  }

  /** Splitting what was written gives this tree. */
  function SplitBack(n: Tree, kind: HostType): Tree {
    Tree(n.scheme,
         if n.authority.Some? then Some(CanonAuthority(EncodeAuthority(n.authority.value, kind))) else None,
         OrNone(Some(CodedPath(n))),
         if n.query.Some? then Some(SplitQuery(CodedPairs(n).value)) else None,
         EncodePart(n.fragment, FragSafe))
  }

  lemma SplitFindsTree(n: Tree, kind: HostType)
    requires Checked(n, kind) && OneLineLiteral(n, kind)
    ensures UriSplitTree(UriUnsplitTree(UriTreeEncode(n, kind))) == Ok(SplitBack(n, kind))
    ensures UriTreeNormalize(SplitBack(n, kind)) == SplitBack(n, kind)
  {
    hide EncodePath;
    hide PctEncode;
    hide UnsplitAuthority;
    hide UnsplitQuery;
    hide EncodeAuthority;
    hide SplitQuery;
    hide SplitAuthority;
    hide BasicUriSplit;
    hide Recompose;
    hide PctDecode;
    hide DecodeAuthority;
    hide ValidateAuthority;
    hide FirstSegment;
    hide UriUnsplitTree;
    hide UriTreeEncode;
    hide ValidQuery;
    UnsplitIsCoded(n, kind);
    CodedPartsWellFormed(n, kind);
    RecomposeThenSplit(CodedParts(n, kind));
    PathFacts(n, kind);
    AuthorityFacts(n, kind);
    QueryFacts(n, kind);
    if n.fragment.Some? { EncodedChars(n.fragment.value, FragSafe); }
  }

  lemma SplitBackDecodes(n: Tree, kind: HostType)
    requires Checked(n, kind)
    ensures UriTreeValidate(SplitBack(n, kind)) == Ok(SplitBack(n, kind))
    ensures UriTreeDecode(SplitBack(n, kind)) == Canon(n)
  {
    hide EncodePath;
    hide PctEncode;
    hide PctDecode;
    hide UnsplitAuthority;
    hide UnsplitQuery;
    hide EncodeAuthority;
    hide DecodeAuthority;
    hide ValidateAuthority;
    hide SplitQuery;
    hide SplitAuthority;
    PathFacts(n, kind);
    AuthorityFacts(n, kind);
    QueryFacts(n, kind);
    if n.query.Some? { MeaningfulSame(n.query.value); }
    if n.fragment.Some? { PartTrip(n.fragment, FragSafe, QueFragChar); }
  }

  lemma NewlineAuthority(a: Authority, kind: HostType)
    requires CheckedAuthority(a, kind) && kind == IPLiteralHost && Truthy(a.host) && !OneLine(a.host)
    ensures SplitAuthority(UnsplitAuthority(EncodeAuthority(a, kind))) == Err(InvalidIPLiteral)
  {
    hide SplitAuthority;
    hide SplitHostport;
    hide UnsplitAuthority;
    hide ValidateAuthority;
    hide DecodeAuthority;
    hide WrittenAuthority;
    hide ValidIPLiteral;
    hide PctEncode;
    var coded := EncodeAuthority(a, kind);
    AuthorityTrip(a, kind);
    AuthorityCut(coded);
    var port := if Truthy(a.port) then ":" + a.port.value else "";
    assert UnsplitHostport(coded) == a.host.value + port;
    NewlineHostport(a.host.value, port);
  }

  /** An IP literal with a newline is written as it is, and rejected when read. */
  lemma NewlineHost(n: Tree, kind: HostType)
    requires Checked(n, kind) && !OneLineLiteral(n, kind)
    ensures UriSplitTree(UriUnsplitTree(UriTreeEncode(n, kind))) == Err(InvalidIPLiteral)
  {
    hide EncodePath;
    hide PctEncode;
    hide UnsplitQuery;
    hide SplitQuery;
    hide SplitAuthority;
    hide BasicUriSplit;
    hide Recompose;
    hide ValidIPLiteral;
    hide ValidateAuthority;
    hide DecodeAuthority;
    hide EncodeAuthority;
    hide UnsplitAuthority;
    hide UriUnsplitTree;
    hide UriTreeEncode;
    hide Meaningful;
    hide ValidQuery;
    UnsplitIsCoded(n, kind);
    CodedPartsWellFormed(n, kind);
    RecomposeThenSplit(CodedParts(n, kind));
    AuthorityFacts(n, kind);
    NewlineAuthority(n.authority.value, kind);
  }

  /** The trees that may be written: a valid scheme, a numeric port, next to an authority an
      absolute path, and a host of the announced kind. */
  ghost predicate Acceptable(t: Tree, kind: HostType) {
    && (t.scheme.Some? ==> ValidScheme(t.scheme.value))
    && (t.authority.Some? ==> var a := t.authority.value;
          && (a.port.Some? ==> AllOf(a.port.value, Digit))
          && (a.host.Some? && kind == IPLiteralHost ==> ValidIPLiteral(a.host.value))
          && (a.host.Some? && kind == IPv4Host ==> Network.ValidIPv4DotDec(a.host.value))
          && (t.path.Some? ==> StartsWith(t.path.value, "/")))
  }

  lemma AcceptableIff(n: Tree, kind: HostType)
    requires Normal(n)
    ensures PrecodeCheck(n, kind).Ok? <==> Acceptable(Canon(n), kind)
    ensures PrecodeCheck(n, kind).Ok? ==> PrecodeCheck(n, kind).value == n
    ensures OneLineLiteral(n, kind) <==> OneLineLiteral(Canon(n), kind)
  {
    hide ValidIPLiteral;
    hide ValidScheme;
    hide Network.ValidIPv4DotDec;
  }

  /** Exactly the acceptable trees are written, and uri_help_split reads what is written back
      as the tree without its empty parts, except an IP literal with a newline, which it
      rejects. */
  lemma RoundTripAs(t: Tree, kind: HostType)
    requires BytesTree(t)
    ensures UnsplitAs(t, kind).Ok? <==> Acceptable(Canon(t), kind)
    ensures UnsplitAs(t, kind).Ok? ==>
              UriHelpSplit(UnsplitAs(t, kind).value) ==
              if OneLineLiteral(Canon(t), kind) then Ok(Canon(t)) else Err(InvalidIPLiteral)
  {
    hide UriTreeNormalize;
    hide UriTreeEncode;
    hide UriTreeDecode;
    hide UriTreeValidate;
    hide UriSplitTree;
    hide UriUnsplitTree;
    hide Canon;
    hide SplitBack;
    hide Acceptable;
    hide OneLineLiteral;
    var n := UriTreeNormalize(t);
    NormalizeIsNormal(t);
    AcceptableIff(n, kind);
    if PrecodeCheck(n, kind).Ok? {
      if OneLineLiteral(n, kind) {
        SplitFindsTree(n, kind);
        SplitBackDecodes(n, kind);
      } else {
        NewlineHost(n, kind);
      }
    }
  }

  const FUTURE_HOST := Tree(None, Some(Authority(None, None, Some("[v1.a\n]"), None)), None, None, None)

  /** A host that is written and then refused. */
  lemma FutureHostRefused()
    ensures UnsplitAs(FUTURE_HOST, IPLiteralHost).Ok?
    ensures UriHelpSplit(UnsplitAs(FUTURE_HOST, IPLiteralHost).value) == Err(InvalidIPLiteral)
  {
    hide UnsplitAs;
    hide UriHelpSplit;
    hide BytesTree;
    hide Acceptable;
    hide OneLineLiteral;
    hide Canon;
    FutureHostValid();
    RoundTripAs(FUTURE_HOST, IPLiteralHost);
  }

  lemma FutureHostValid()
    ensures BytesTree(FUTURE_HOST) && Canon(FUTURE_HOST) == FUTURE_HOST
    ensures Acceptable(FUTURE_HOST, IPLiteralHost) && !OneLineLiteral(FUTURE_HOST, IPLiteralHost)
  {
    hide ValidIPLiteral;
    CanonicalIff(FUTURE_HOST);
    NewlineLiteral();
    assert FUTURE_HOST.authority.value.host.value[5] == '\n';
  }

  lemma NewlineLiteral()
    ensures ValidIPLiteral("[v1.a\n]")
  {
    var h, inner := "[v1.a\n]", "v1.a\n";
    assert h[1..|h| - 1] == inner;
    assert inner[..|inner| - 1] == "v1.a";
    SpanIs("1", ".a", Network.HexDigit);
    assert "v1.a"[1..] == "1" + ".a";
  }

  /** uri_help_split of uri_help_unsplit: the default kind of host. */
  lemma RoundTrip(t: Tree)
    requires BytesTree(t)
    ensures UriHelpUnsplit(t).Ok? <==> Acceptable(Canon(t), RegNameHost)
    ensures UriHelpUnsplit(t).Ok? ==> UriHelpSplit(UriHelpUnsplit(t).value) == Ok(Canon(t))
  {
    hide UnsplitAs;
    hide UriHelpSplit;
    hide Acceptable;
    RoundTripAs(t, RegNameHost);
  }

  /** No empty part, except in a pair: there the key is present and something is not empty. */
  ghost predicate Canonical(t: Tree) {
    && t.scheme != Some("") && t.path != Some("") && t.fragment != Some("")
    && (t.authority.Some? ==> var a := t.authority.value;
          && a.user != Some("") && a.passwd != Some("") && a.host != Some("") && a.port != Some("")
          && a != Authority(None, None, None, None))
    && (t.query.Some? ==>
          && t.query.value != []
          && forall i :: 0 <= i < |t.query.value| ==> t.query.value[i].key.Some? && SomeSide(t.query.value[i]))
  }

  lemma CanonicalIff(t: Tree)
    ensures Canonical(t) <==> Canon(t) == t
  {
    if t.query.Some? {
      var pairs := t.query.value;
      MeaningfulFacts(pairs);
      var kept := Meaningful(pairs);
      if AllSome(pairs) { MeaningfulSame(pairs); }
      if Canon(t) == t {
        assert MapPairs(kept, CanonPair) == pairs;
        forall i | 0 <= i < |pairs| ensures pairs[i].key.Some? && SomeSide(pairs[i]) {
          assert pairs[i] == CanonPair(kept[i]) && SomeSide(kept[i]);
        }
      }
      if Canonical(t) { assert MapPairs(pairs, CanonPair) == pairs; }
    }
  }

  /** The round trip gives an accepted tree back exactly when the tree is canonical. */
  lemma RoundTripExactlyOnCanonical(t: Tree)
    requires BytesTree(t) && UriHelpUnsplit(t).Ok?
    ensures UriHelpSplit(UriHelpUnsplit(t).value) == Ok(t) <==> Canonical(t)
  {
    hide UriHelpSplit;
    hide UriHelpUnsplit;
    hide Canon;
    RoundTrip(t);
    CanonicalIff(t);
  }

  /** A pair without a key is written and comes back with an empty one. */
  lemma KeylessPair()
    ensures var t := Tree(None, None, None, Some([Pair(None, Some("a"))]), None);
            && UriHelpUnsplit(t).Ok?
            && UriHelpSplit(UriHelpUnsplit(t).value) == Ok(t.(query := Some([Pair(Some(""), Some("a"))])))
  {
    hide UriHelpSplit;
    hide UriHelpUnsplit;
    var t := Tree(None, None, None, Some([Pair(None, Some("a"))]), None);
    RoundTrip(t);
    var p := Pair(None, Some("a"));
    assert [p][1..] == [] && Meaningful([p]) == [p];
    assert MapPairs([p], CanonPair) == [Pair(Some(""), Some("a"))];
    assert Canon(t) == t.(query := Some([Pair(Some(""), Some("a"))]));
  }

  // ---- The two functions that work step by step ----

  /** uri_tree_normalize: fields and pairs are appended one by one. */
  method NormalizeTree(t: Tree) returns (r: Tree)
    ensures r == UriTreeNormalize(t)
  {
    var authority, query := None, None;
    if t.authority.Some? { authority := NormalizeAuthority(t.authority.value); }
    if t.query.Some? {
      var kept := NormalizeQuery(t.query.value);
      query := if kept == [] then None else Some(kept);
    }
    r := Tree(OrNone(t.scheme), authority, OrNone(t.path), query, OrNone(t.fragment));
  }

  method NormalizeAuthority(raw: Authority) returns (authority: Option<Authority>)
    ensures authority == if SomeField(raw) then Some(raw) else None
  {
    var fields := [raw.user, raw.passwd, raw.host, raw.port];
    var empty, kept := true, [];
    for i := 0 to 4
      invariant kept == fields[..i]
      invariant empty <==> forall j :: 0 <= j < i ==> !Truthy(fields[j])
    {
      if Truthy(fields[i]) { empty := false; }
      kept := kept + [fields[i]];
    }
    authority := if empty then None else Some(Authority(kept[0], kept[1], kept[2], kept[3]));
    assert fields[0] == raw.user && fields[1] == raw.passwd && fields[2] == raw.host && fields[3] == raw.port;
  }

  lemma MeaningfulStep(pairs: seq<Pair>, i: nat, kept: seq<Pair>)
    requires i < |pairs|
    ensures kept + Meaningful(pairs[i..])
      == (if SomeSide(pairs[i]) then kept + [pairs[i]] else kept) + Meaningful(pairs[i + 1..])
  {
    assert pairs[i..][1..] == pairs[i + 1..];
  }

  method NormalizeQuery(pairs: seq<Pair>) returns (kept: seq<Pair>)
    ensures kept == Meaningful(pairs)
  {
    kept := [];
    assert pairs[0..] == pairs;
    for i := 0 to |pairs|
      invariant kept + Meaningful(pairs[i..]) == Meaningful(pairs)
    {
      MeaningfulStep(pairs, i, kept);
      if Truthy(pairs[i].key) || Truthy(pairs[i].value) { kept := kept + [pairs[i]]; }
    }
    assert pairs[|pairs|..] == [];
  }

  method JoinAuthority(a: Authority) returns (authority: string)
    ensures authority == UnsplitAuthority(a)
  {
    var userinfo, hostport := "", "";
    if Truthy(a.user) && Truthy(a.passwd) { userinfo := a.user.value + ":" + a.passwd.value; }
    else if Truthy(a.user) { userinfo := a.user.value; }
    else if Truthy(a.passwd) { userinfo := ":" + a.passwd.value; }
    assert userinfo == UnsplitUserinfo(a);
    if Truthy(a.host) && Truthy(a.port) { hostport := a.host.value + ":" + a.port.value; }
    else if Truthy(a.host) { hostport := a.host.value; }
    else if Truthy(a.port) { hostport := ":" + a.port.value; }
    assert hostport == UnsplitHostport(a);
    authority := "";
    if userinfo != "" && hostport != "" { authority := userinfo + "@" + hostport; }
    else if userinfo != "" { authority := userinfo + "@"; }
    else if hostport != "" { authority := hostport; }
  }

  /** uri_unsplit_tree: the URI grows by one component after the other. */
  method UnsplitTree(t: Tree) returns (uri: string)
    ensures uri == UriUnsplitTree(t)
  {
    hide UnsplitAuthority;
    hide UnsplitQuery;
    var authority, query := "", "";
    if t.authority.Some? { authority := JoinAuthority(t.authority.value); }
    if t.query.Some? { query := UnsplitQuery(t.query.value); }
    ghost var b := Basic(OrNone(t.scheme), GuardedAuthority(authority, Text(t.path)), Text(t.path),
                         OrNone(Some(query)), OrNone(t.fragment));
    assert b == UnsplitParts(t);
    hide UnsplitParts;
    hide GuardedAuthority;
    hide PutScheme;
    hide PutAuthority;
    uri := UnsplitFront(t, authority);
    ghost var front := uri;
    if query != "" { uri := uri + "?" + query; }
    Grown(front, "?", query);
    assert uri == front + PutQuery(b.query);
    ghost var most := uri;
    if Truthy(t.fragment) { uri := uri + "#" + t.fragment.value; }
    Grown(most, "#", Text(t.fragment));
    assert uri == most + PutFragment(b.fragment);
    FromTheLeft(b);
  }

  /** An empty authority guards a path that begins with two slashes. */
  function GuardedAuthority(authority: string, path: string): Part {
    if authority != "" then Some(authority) else if StartsWith(path, "//") then Some("") else None
  }

  /** Up to the path. */
  method UnsplitFront(t: Tree, authority: string) returns (uri: string)
    ensures uri == PutScheme(OrNone(t.scheme)) + PutAuthority(GuardedAuthority(authority, Text(t.path))) + Text(t.path)
  {
    uri := "";
    if Truthy(t.scheme) { uri := uri + t.scheme.value + ":"; }
    assert uri == PutScheme(OrNone(t.scheme));
    hide PutScheme;
    AuthorityPut(uri, authority, Text(t.path));
    hide PutAuthority;
    hide GuardedAuthority;
    if authority != "" { uri := uri + "//" + authority; }
    if Truthy(t.path) {
      if authority == "" && StartsWith(t.path.value, "//") { uri := uri + "//"; }
      uri := uri + t.path.value;
    }
  }

  lemma AuthorityPut(u: string, authority: string, path: string)
    ensures var before := if authority != "" then u + "//" + authority else u;
            && before + (if authority == "" && StartsWith(path, "//") then "//" else "") + path
               == u + PutAuthority(GuardedAuthority(authority, path)) + path
            && (path == "" ==> before == u + PutAuthority(GuardedAuthority(authority, path)) + path)
            && (!(authority == "" && StartsWith(path, "//")) ==>
                  before + path == u + PutAuthority(GuardedAuthority(authority, path)) + path)
  {
    Grown(u, "//", authority);
  }

  lemma Grown(a: string, b: string, c: string)
    ensures a + b + c == a + (b + c)
  {
  }

  lemma FromTheLeft(b: Basic)
    ensures Recompose(b)
      == PutScheme(b.scheme) + PutAuthority(b.authority) + b.path + PutQuery(b.query) + PutFragment(b.fragment)
  {
  }
}
