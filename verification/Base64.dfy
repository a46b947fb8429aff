/**
  Base64 in chunks, base64_encode_file and base64_decode_file in helpers.py.

  Encode and Decode are the base 64 of section 4 of RFC 4648 on whole values; Decode answers
  None for text that is no encoding, about which nothing is claimed.
 */
module Base64 {
  import opened Streams
  import opened Wrappers

  // ---- One value ----

  const PAD: Byte := 61

  function Symbol(v: nat): Byte
    requires v < 64
  {
    if v < 26 then 65 + v else if v < 52 then 71 + v else if v < 62 then v - 4 else if v == 62 then 43 else 47
  }

  function SixBits(c: Byte): Option<nat> {
    if 65 <= c <= 90 then Some(c - 65)
    else if 97 <= c <= 122 then Some(c - 71)
    else if 48 <= c <= 57 then Some(c + 4)
    else if c == 43 then Some(62)
    else if c == 47 then Some(63)
    else None
  }

  lemma SymbolRound(v: nat)
    requires v < 64
    ensures SixBits(Symbol(v)) == Some(v) && Symbol(v) != PAD
  {
  }

  /** Up to three bytes give four symbols. */
  function Quad(d: Bytes): (q: Bytes)
    requires 1 <= |d| <= 3
    ensures |q| == 4
  {
    var b, c := if |d| > 1 then d[1] else 0, if |d| > 2 then d[2] else 0;
    [Symbol(d[0] / 4), Symbol(d[0] % 4 * 16 + b / 16),
     if |d| > 1 then Symbol(b % 16 * 4 + c / 64) else PAD,
     if |d| > 2 then Symbol(c % 64) else PAD]
  }

  function Encode(d: Bytes): Bytes {
    if d == [] then []
    else if |d| <= 3 then Quad(d)
    else Quad(d[..3]) + Encode(d[3..])
  }

  /** The bytes of four symbols. */
  function FromQuad(q: Bytes): Option<Bytes>
    requires |q| == 4
  {
    var v0, v1, v2, v3 := SixBits(q[0]), SixBits(q[1]), SixBits(q[2]), SixBits(q[3]);
    if v0.None? || v1.None? then None
    else
      var a := v0.value * 4 + v1.value / 16;
      if q[2] == PAD && q[3] == PAD then Some([a])
      else if v2.None? then None
      else
        var b := v1.value % 16 * 16 + v2.value / 4;
        if q[3] == PAD then Some([a, b])
        else if v3.None? then None
        else Some([a, b, v2.value % 4 * 64 + v3.value])
  }

  function Decode(s: Bytes): Option<Bytes> {
    if s == [] then Some([])
    else if |s| < 4 then None
    else
      match FromQuad(s[..4])
      case None => None
      case Some(d) =>
        if |s| == 4 then Some(d)
        else if |d| < 3 then None
        else
          match Decode(s[4..])
          case None => None
          case Some(rest) => Some(d + rest)
  }

  lemma SixBitParts(a: Byte, b: Byte, c: Byte)
    ensures var v1, v2 := a % 4 * 16 + b / 16, b % 16 * 4 + c / 64;
            && v1 < 64 && v2 < 64
            && a / 4 * 4 + v1 / 16 == a && v1 % 16 * 16 + v2 / 4 == b && v2 % 4 * 64 + c % 64 == c
  {
  }

  lemma QuadRound(d: Bytes)
    requires 1 <= |d| <= 3
    ensures FromQuad(Quad(d)) == Some(d)
  {
    hide Symbol;
    hide SixBits;
    var b, c := if |d| > 1 then d[1] else 0, if |d| > 2 then d[2] else 0;
    SixBitParts(d[0], b, c);
    SymbolRound(d[0] / 4);
    SymbolRound(d[0] % 4 * 16 + b / 16);
    SymbolRound(b % 16 * 4 + c / 64);
    SymbolRound(c % 64);
    PadIsNone();
    if |d| == 1 {
      assert d == [d[0]];
    } else if |d| == 2 {
      assert d == [d[0], b];
    } else {
      assert d == [d[0], b, c];
    }
  }

  lemma PadIsNone()
    ensures SixBits(PAD) == None
  {
  }

  /** Decoding gives the bytes back. */
  lemma {:induction false} DecodeEncoded(d: Bytes)
    ensures Decode(Encode(d)) == Some(d)
  {
    hide Quad;
    hide FromQuad;
    if d != [] {
      if |d| <= 3 {
        QuadRound(d);
        assert Quad(d)[..4] == Quad(d);
      } else {
        QuadRound(d[..3]);
        DecodeEncoded(d[3..]);
        var s := Encode(d);
        assert s[..4] == Quad(d[..3]) && s[4..] == Encode(d[3..]);
        assert d[..3] + d[3..] == d;
      }
    }
  }

  // ---- In pieces ----

  lemma EncodeStep(d: Bytes)
    requires |d| >= 3
    ensures Encode(d) == Quad(d[..3]) + Encode(d[3..])
  {
  }

  /** Whole groups of three bytes can be encoded apart. */
  lemma {:induction false} EncodeAppend(a: Bytes, b: Bytes)
    requires |a| % 3 == 0
    ensures Encode(a + b) == Encode(a) + Encode(b)
  {
    hide Quad;
    if a == [] {
      assert a + b == b && Encode(a) == [];
    } else {
      hide Encode;
      EncodeStep(a);
      EncodeStep(a + b);
      assert (a + b)[..3] == a[..3] && (a + b)[3..] == a[3..] + b;
      EncodeAppend(a[3..], b);
    }
  }

  lemma {:induction false} EncodeLength(d: Bytes)
    ensures |Encode(d)| == (|d| + 2) / 3 * 4
  {
    if |d| > 3 { EncodeLength(d[3..]); }
  }

  function Joined(pieces: seq<Bytes>): Bytes { if pieces == [] then [] else pieces[0] + Joined(pieces[1..]) }

  function EncodeEach(pieces: seq<Bytes>): Bytes {
    if pieces == [] then [] else Encode(pieces[0]) + EncodeEach(pieces[1..])
  }

  /** All reads but the last are whole groups. */
  predicate WholeGroups(pieces: seq<Bytes>) { forall i :: 0 <= i < |pieces| - 1 ==> |pieces[i]| % 3 == 0 }

  lemma {:induction false} EachIsWhole(pieces: seq<Bytes>)
    requires WholeGroups(pieces)
    ensures EncodeEach(pieces) == Encode(Joined(pieces))
  {
    hide Encode;
    EmptyEncode();
    if |pieces| == 1 {
      assert pieces[1..] == [];
      assert Joined(pieces) == pieces[0];
    } else if |pieces| > 1 {
      assert |pieces[0]| % 3 == 0;
      assert forall i :: 0 <= i < |pieces[1..]| ==> pieces[1..][i] == pieces[i + 1];
      EachIsWhole(pieces[1..]);
      EncodeAppend(pieces[0], Joined(pieces[1..]));
    }
  }

  lemma EmptyEncode()
    ensures Encode([]) == []
  {
  }

  /** Padding stands at the end of an encoding only, and there unless the groups are whole. */
  lemma {:induction false} Padding(d: Bytes)
    ensures forall i :: 0 <= i < |Encode(d)| - 4 ==> Encode(d)[i] != PAD
    ensures |d| % 3 != 0 ==> Encode(d) != [] && Encode(d)[|Encode(d)| - 1] == PAD
  {
    if |d| > 3 {
      Padding(d[3..]);
      EncodeLength(d[3..]);
      var head, tail := Quad(d[..3]), Encode(d[3..]);
      assert forall i :: 0 <= i < 4 ==> head[i] != PAD;
      assert Encode(d) == head + tail;
      assert forall i :: 4 <= i < |Encode(d)| ==> Encode(d)[i] == tail[i - 4];
    }
  }

  /** Encoding read by read is encoding the whole exactly when every read but the last is a
      whole number of groups. */
  lemma EncodeEachIff(pieces: seq<Bytes>)
    requires forall i :: 0 <= i < |pieces| ==> pieces[i] != []
    ensures EncodeEach(pieces) == Encode(Joined(pieces)) <==> WholeGroups(pieces)
  {
    hide Encode;
    if WholeGroups(pieces) {
      EachIsWhole(pieces);
    } else {
      ShortPiece(pieces, []);
      EmptyEncode();
      assert [] + Joined(pieces) == Joined(pieces) && [] + EncodeEach(pieces) == EncodeEach(pieces);
    }
  }

  /** After whole groups a short piece puts padding where the encoding of the whole has none. */
  lemma {:induction false} ShortPiece(pieces: seq<Bytes>, before: Bytes)
    requires (forall i :: 0 <= i < |pieces| ==> pieces[i] != []) && |before| % 3 == 0 && !WholeGroups(pieces)
    ensures Encode(before) + EncodeEach(pieces) != Encode(before + Joined(pieces))
    decreases |pieces|
  {
    hide Encode;
    var p, rest := pieces[0], pieces[1..];
    assert forall i :: 0 <= i < |rest| ==> rest[i] == pieces[i + 1];
    if |p| % 3 == 0 {
      EncodeAppend(before, p);
      ShortPiece(rest, before + p);
      assert before + p + Joined(rest) == before + Joined(pieces);
      assert Encode(before) + Encode(p) + EncodeEach(rest) == Encode(before) + EncodeEach(pieces);
    } else {
      var left, right := Encode(before) + EncodeEach(pieces), Encode(before + Joined(pieces));
      var i := |Encode(before)| + |Encode(p)| - 1;
      Padding(p);
      Padding(before + Joined(pieces));
      assert left == Encode(before) + (Encode(p) + EncodeEach(rest));
      assert left[i] == Encode(p)[|Encode(p)| - 1] == PAD;
      EncodeLength(rest[0]);
      assert |EncodeEach(rest)| >= 4;
      assert |left| > i + 4;
    }
  }

  /** Two reads of one byte give other text than one read of both. */
  lemma TwoShortReads()
    ensures EncodeEach([[77], [97]]) != Encode(Joined([[77], [97]]))
  {
    var pieces: seq<Bytes> := [[77], [97]];
    assert |pieces[0]| % 3 != 0;
    EncodeEachIff(pieces);
  }

  // ---- White space ----

  /** What bytes.split() splits at. */
  predicate Space(c: Byte) { c == 32 || 9 <= c <= 13 }

  function Strip(s: Bytes): Bytes { if s == [] then [] else (if Space(s[0]) then [] else [s[0]]) + Strip(s[1..]) }

  lemma {:induction false} StripAppend(a: Bytes, b: Bytes)
    ensures Strip(a + b) == Strip(a) + Strip(b)
  {
    if a == [] {
      assert a + b == b;
    } else {
      assert (a + b)[1..] == a[1..] + b;
      StripAppend(a[1..], b);
    }
  }

  /** There is no white space in an encoding. */
  lemma {:induction false} StripEncoded(d: Bytes)
    ensures Strip(Encode(d)) == Encode(d)
  {
    if |d| > 3 {
      NothingToStrip(Quad(d[..3]));
      StripAppend(Quad(d[..3]), Encode(d[3..]));
      StripEncoded(d[3..]);
    } else if d != [] {
      NothingToStrip(Quad(d));
    }
  }

  lemma {:induction false} NothingToStrip(s: Bytes)
    requires forall i :: 0 <= i < |s| ==> !Space(s[i])
    ensures Strip(s) == s
  {
    if s != [] { NothingToStrip(s[1..]); }
  }

  /** A beginning of whole symbol groups is the encoding of a beginning. */
  lemma CutEncoded(d: Bytes, k: nat) returns (m: nat)
    requires 4 * k <= |Encode(d)|
    ensures m <= |d| && Encode(d)[..4 * k] == Encode(d[..m]) && Encode(d)[4 * k..] == Encode(d[m..])
  {
    hide Encode;
    EncodeLength(d);
    m := if 3 * k < |d| then 3 * k else |d|;
    EncodeAppend(d[..3 * (m / 3)], d[3 * (m / 3)..]);
    assert d[..m] + d[m..] == d;
    if m == 3 * k {
      EncodeAppend(d[..m], d[m..]);
      EncodeLength(d[..m]);
    } else {
      EmptyEncode();
      assert d[..m] == d && d[m..] == [];
    }
  }

  // ---- The functions ----

  datatype Result = Value(bytes: Bytes) | SizeError | DecodeError

  /** Encodes what the reads give, one after the other. */
  method EncodeFile(source: Source, chunkSize: nat) returns (r: Result, ghost pieces: seq<Bytes>)
    modifies source
    ensures r == SizeError <==> chunkSize < 3
    ensures r != SizeError ==> r == Value(EncodeEach(pieces))
    ensures r != SizeError ==> Joined(pieces) == old(source.data)
    ensures r != SizeError ==> forall i :: 0 <= i < |pieces| ==> 0 < |pieces[i]| <= chunkSize
    ensures r != SizeError && WholeGroups(pieces) ==> r == Value(Encode(old(source.data)))
    ensures r != SizeError && source.full ==> r == Value(Encode(old(source.data)))
  {
    hide Encode;
    pieces := [];
    if chunkSize < 3 { return SizeError, pieces; }
    var size := chunkSize - chunkSize % 3;
    var chunks := [];
    var more := true;
    while more
      invariant chunks == EncodeEach(pieces)
      invariant Joined(pieces) + source.data == old(source.data)
      invariant forall i :: 0 <= i < |pieces| ==> 0 < |pieces[i]| <= chunkSize
      invariant !more ==> source.data == []
      invariant source.full ==>
                  forall i :: 0 <= i < |pieces| - (if source.data == [] then 1 else 0) ==> |pieces[i]| == size
      decreases more, |source.data|
    {
      var data := source.Read(size);
      if data == [] {
        more := false;
      } else {
        JoinedMore(pieces, data);
        assert Joined(pieces) + data + source.data == Joined(pieces) + (data + source.data);
        pieces := pieces + [data];
        chunks := chunks + Encode(data);
      }
    }
    if WholeGroups(pieces) { EachIsWhole(pieces); }
    r := Value(chunks);
  }

  lemma JoinedMore(pieces: seq<Bytes>, d: Bytes)
    ensures Joined(pieces + [d]) == Joined(pieces) + d && EncodeEach(pieces + [d]) == EncodeEach(pieces) + Encode(d)
  {
    hide *;
    OneMoreJoined(pieces, d);
    OneMoreEncoded(pieces, d);
  }

  lemma {:induction false} OneMoreJoined(pieces: seq<Bytes>, d: Bytes)
    ensures Joined(pieces + [d]) == Joined(pieces) + d
  {
    if pieces == [] {
      assert pieces + [d] == [d] && [d][1..] == [];
    } else {
      assert (pieces + [d])[1..] == pieces[1..] + [d];
      OneMoreJoined(pieces[1..], d);
    }
  }

  lemma {:induction false} OneMoreEncoded(pieces: seq<Bytes>, d: Bytes)
    ensures EncodeEach(pieces + [d]) == EncodeEach(pieces) + Encode(d)
  {
    hide Encode;
    if pieces == [] {
      assert pieces + [d] == [d] && [d][1..] == [];
      assert EncodeEach([d]) == Encode(d) + EncodeEach([d][1..]);
    } else {
      assert (pieces + [d])[1..] == pieces[1..] + [d];
      OneMoreEncoded(pieces[1..], d);
    }
  }

  /** The groups taken from the pending text decode to the next bytes of d. */
  lemma Decodes(d: Bytes, m: nat, chunks: Bytes, pending: Bytes, rest: Bytes, size: nat) returns (next: nat)
    requires OnTheWay(d, m, chunks, pending, rest) && size <= |pending|
    requires size % 4 == 0 || (rest == [] && size == |pending|)
    ensures Decode(pending[..size]).Some?
    ensures OnTheWay(d, next, chunks + Decode(pending[..size]).value, pending[size..], rest)
  {
    hide Encode;
    hide Decode;
    EncodeLength(d[m..]);
    assert rest == [] ==> pending + rest == pending;
    var j := CutEncoded(d[m..], size / 4);
    next := m + j;
    assert d[m..][..j] == d[m..next] && d[m..][j..] == d[next..];
    assert (pending + rest)[..size] == pending[..size] && (pending + rest)[size..] == pending[size..] + rest;
    DecodeEncoded(d[m..next]);
    assert d[..m] + d[m..next] == d[..next];
  }

  /** The text of an encoding, spread with white space and cut anywhere, gives the bytes. */
  method DecodeFile(source: Source, chunkSize: nat) returns (r: Result)
    modifies source
    ensures r == SizeError <==> chunkSize < 4
    ensures chunkSize >= 4 ==> forall d :: Strip(old(source.data)) == Encode(d) ==> r == Value(d)
  {
    if chunkSize < 4 { return SizeError; }
    hide Encode;
    hide Decode;
    ghost var input, d: Bytes := source.data, [];
    ghost var good := exists e :: Strip(input) == Encode(e);
    if good { d :| Strip(input) == Encode(d); }
    r := DecodeReads(source, chunkSize, d, good);
    forall e | Strip(input) == Encode(e) ensures r == Value(e) { DecodeEncoded(d); DecodeEncoded(e); }
  }

  /** A file encoded, its text wrapped in any way by white space and decoded again: for all
      chunk sizes accepted, and whatever pieces the wrapped text comes in. */
  method RoundTrip(data: Bytes, encodeSize: nat, decodeSize: nat, wrap: Bytes -> Bytes, full: bool) returns (r: Result)
    requires forall t :: Strip(wrap(t)) == Strip(t)
    ensures encodeSize >= 3 && decodeSize >= 4 ==> r == Value(data)
    ensures encodeSize < 3 || decodeSize < 4 ==> r == SizeError
  {
    var file := new Source(data, true);
    ghost var pieces: seq<Bytes>;
    r, pieces := EncodeFile(file, encodeSize);
    if r.Value? {
      StripEncoded(data);
      var text := new Source(wrap(r.bytes), full);
      r := DecodeFile(text, decodeSize);
    }
  }

  /** What is done, pending and to come of the text of d. */
  ghost predicate OnTheWay(d: Bytes, m: nat, chunks: Bytes, pending: Bytes, rest: Bytes) {
    m <= |d| && chunks == d[..m] && pending + rest == Encode(d[m..])
  }

  /** Decodes whole symbol groups as they come in; the rest waits for the next read. */
  method DecodeReads(source: Source, chunkSize: nat, ghost d: Bytes, ghost good: bool) returns (r: Result)
    requires chunkSize >= 4 && (good ==> Strip(source.data) == Encode(d))
    modifies source
    ensures r != SizeError && (good ==> r == Value(d))
  {
    hide Encode;
    hide Decode;
    hide Strip;
    hide OnTheWay;
    var chunks, pending: Bytes := [], [];
    ghost var m := 0;
    Begin(d, Strip(source.data));
    var more := true;
    while more
      invariant good ==> OnTheWay(d, m, chunks, pending, Strip(source.data))
      invariant !more ==> pending == [] && source.data == []
      decreases more, |source.data|
    {
      var data := source.Read(chunkSize);
      StripAppend(data, source.data);
      assert pending + (Strip(data) + Strip(source.data)) == pending + Strip(data) + Strip(source.data);
      ReadMore(d, m, chunks, pending, Strip(data), Strip(source.data));
      pending := pending + Strip(data);
      var size := if data != [] then |pending| / 4 * 4 else |pending|;
      StripNone();
      if size > 0 {
        var decoded := Decode(pending[..size]);
        if good { m := Decodes(d, m, chunks, pending, Strip(source.data), size); }
        if decoded.None? { return DecodeError; }
        pending := pending[size..];
        chunks := chunks + decoded.value;
      }
      if data == [] { more := false; }
    }
    StripNone();
    if good { Done(d, m, chunks); }
    r := Value(chunks);
  }

  lemma StripNone()
    ensures Strip([]) == []
  {
  }

  lemma Begin(d: Bytes, text: Bytes)
    ensures text == Encode(d) ==> OnTheWay(d, 0, [], [], text)
  {
  }

  lemma ReadMore(d: Bytes, m: nat, chunks: Bytes, pending: Bytes, x: Bytes, rest: Bytes)
    ensures OnTheWay(d, m, chunks, pending, x + rest) ==> OnTheWay(d, m, chunks, pending + x, rest)
  {
  }

  lemma Done(d: Bytes, m: nat, chunks: Bytes)
    requires OnTheWay(d, m, chunks, [], [])
    ensures chunks == d
  {
  }

  // ---- The alphabet ----

  const UPPER := "ABCDEFGHIJKLMNOPQRSTUVWXYZ"
  const LOWER := "abcdefghijklmnopqrstuvwxyz"
  const DIGITS := "0123456789"
  const ALPHABET := UPPER + LOWER + DIGITS + "+/"

  lemma LettersAre(v: nat)
    requires v < 26
    ensures UPPER[v] as int == 65 + v
  {
  }

  lemma SmallLettersAre(v: nat)
    requires v < 26
    ensures LOWER[v] as int == 97 + v
  {
  }

  lemma DigitsAre(v: nat)
    requires v < 10
    ensures DIGITS[v] as int == 48 + v
  {
  }

  /** The symbols of Table 1 in section 4 of RFC 4648, and '=' for padding. */
  lemma AlphabetIs(v: nat)
    requires v < 64
    ensures Symbol(v) == ALPHABET[v] as int && PAD == '=' as int
  {
    if v < 26 {
      LettersAre(v);
      assert ALPHABET[v] == UPPER[v];
    } else if v < 52 {
      SmallLettersAre(v - 26);
      assert ALPHABET[v] == LOWER[v - 26];
    } else if v < 62 {
      DigitsAre(v - 52);
      assert ALPHABET[v] == DIGITS[v - 52];
    } else {
      assert ALPHABET[v] == "+/"[v - 62];
    }
  }

  /** Test vectors of section 10 of RFC 4648, for "f", "fo", "foo" and "foobar". */
  lemma ShortVectors()
    ensures Encode([102]) == [90, 103, 61, 61]
    ensures Encode([102, 111]) == [90, 109, 56, 61]
    ensures Encode([102, 111, 111]) == [90, 109, 57, 118]
  {
  }

  lemma LongVector()
    ensures Encode([102, 111, 111, 98, 97, 114]) == [90, 109, 57, 118, 89, 109, 70, 121]
  {
    var d: Bytes := [102, 111, 111, 98, 97, 114];
    assert d[..3] == [102, 111, 111] && d[3..] == [98, 97, 114];
    assert Quad([98, 97, 114]) == [89, 109, 70, 121];
    ShortVectors();
    EncodeStep(d);
  }

  /** White space is tab, the line ends 10 to 13, and the blank. */
  lemma SpaceIs(c: Byte)
    ensures Space(c) <==> c in [9, 10, 11, 12, 13, 32]
  {
  }
}
