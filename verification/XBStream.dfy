/**
  Incremental framing of xbstream chunks, xbstream.py.

  The read callback may return any nonempty part of what it is asked for, and the write
  callback may take any part of what it is offered.  What comes out, the names, the payloads
  and the chunk numbers must not depend on either.
 */
module XBStreams {
  import opened Streams
  import opened Wrappers

  // ---- Little-endian numbers ----

  function FromLE(s: Bytes): nat { if s == [] then 0 else s[0] + 256 * FromLE(s[1..]) }

  function ToLE(n: nat, size: nat): (s: Bytes)
    ensures |s| == size
  {
    if size == 0 then [] else [n % 256] + ToLE(n / 256, size - 1)
  }

  function Limit(size: nat): nat { if size == 0 then 1 else 256 * Limit(size - 1) }

  lemma {:induction false} FromToLE(n: nat, size: nat)
    requires n < Limit(size)
    ensures FromLE(ToLE(n, size)) == n
  {
    if size > 0 {
      FromToLE(n / 256, size - 1);
      assert ToLE(n, size)[1..] == ToLE(n / 256, size - 1);
    }
  }

  lemma {:induction false} ToFromLE(s: Bytes)
    ensures FromLE(s) < Limit(|s|) && ToLE(FromLE(s), |s|) == s
  {
    if s != [] {
      var low, high := s[0], FromLE(s[1..]);
      ToFromLE(s[1..]);
      assert ToLE(low + 256 * high, |s|) == [low] + ToLE(high, |s| - 1);
      assert [low] + s[1..] == s;
    }
  }

  // ---- The format ----

  const MAGIC: Bytes := [88, 66, 83, 84, 67, 75, 48, 49]
  const HEADER := 14
  const EOF_TYPE: Byte := 69
  const PAYLOAD_TYPE: Byte := 80

  datatype Chunk =
    | Payload(flags: Byte, name: Bytes, offset: Bytes, checksum: Bytes, data: Bytes)
    | EndOfFile(flags: Byte, name: Bytes)

  ghost predicate Fits(c: Chunk) {
    && |c.name| < Limit(4)
    && (c.Payload? ==> |c.offset| == 8 && |c.checksum| == 4 && |c.data| < Limit(8))
  }

  function Encode(c: Chunk): Bytes {
    MAGIC + [c.flags, if c.Payload? then PAYLOAD_TYPE else EOF_TYPE] + ToLE(|c.name|, 4) + c.name
    + if c.Payload? then ToLE(|c.data|, 8) + c.offset + c.checksum + c.data else []
  }

  function EncodeAll(cs: seq<Chunk>): Bytes { if cs == [] then [] else Encode(cs[0]) + EncodeAll(cs[1..]) }

  // ---- Reading it as a whole ----

  datatype End = Clean | Truncated | BadMagic | BadType

  datatype Parsed = Whole(chunk: Chunk, size: nat) | Fault(end: End)

  predicate KnownType(t: Byte) { t == EOF_TYPE || t == PAYLOAD_TYPE }

  function PathLen(b: Bytes): nat
    requires |b| >= HEADER
  {
    FromLE(b[10..14])
  }

  function PayloadSize(b: Bytes): nat
    requires |b| >= HEADER && |b| >= 30 + PathLen(b)
  {
    FromLE(b[14 + PathLen(b)..22 + PathLen(b)])
  }

  /** The size of the chunk at the front, as far as the first bytes tell. */
  function Want(b: Bytes): nat {
    if |b| < HEADER then HEADER
    else if b[9] == EOF_TYPE then HEADER + PathLen(b)
    else if |b| < 30 + PathLen(b) then 30 + PathLen(b)
    else 34 + PathLen(b) + PayloadSize(b)
  }

  /** The parts of the chunk at the front. */
  function Cut(b: Bytes): Chunk
    requires |b| >= HEADER && |b| >= Want(b)
  {
    var p := PathLen(b);
    if b[9] == EOF_TYPE then EndOfFile(b[8], b[14..14 + p])
    else Payload(b[8], b[14..14 + p], b[22 + p..30 + p], b[30 + p..34 + p], b[34 + p..34 + p + PayloadSize(b)])
  }

  /** The first chunk of a nonempty input. */
  function Parse(input: Bytes): (r: Parsed)
    ensures r.Whole? ==> HEADER <= r.size <= |input|
    ensures r.Fault? ==> r.end != Clean
  {
    if |input| < HEADER then Fault(Truncated)
    else if input[..8] != MAGIC then Fault(BadMagic)
    else if !KnownType(input[9]) then Fault(BadType)
    else if |input| < Want(input) then Fault(Truncated)
    else Whole(Cut(input), Want(input))
  }

  /** All complete chunks, and how the input ends after them. */
  function Decode(input: Bytes): (seq<Chunk>, End) {
    if input == [] then ([], Clean)
    else
      match Parse(input)
      case Fault(e) => ([], e)
      case Whole(c, n) => var (cs, e) := Decode(input[n..]); ([c] + cs, e)
  }

  // ---- The format is read back ----

  lemma EncodedHeader(c: Chunk, tail: Bytes)
    requires Fits(c)
    ensures var b := Encode(c) + tail;
            && |b| >= HEADER && b[..8] == MAGIC && b[8] == c.flags
            && b[9] == (if c.Payload? then PAYLOAD_TYPE else EOF_TYPE)
            && PathLen(b) == |c.name| && |b| >= HEADER + |c.name| && b[14..14 + |c.name|] == c.name
  {
    var b := Encode(c) + tail;
    var len := ToLE(|c.name|, 4);
    FromToLE(|c.name|, 4);
    assert b[..8] == MAGIC;
    assert b[10..14] == len;
  }

  lemma EncodedPayload(c: Chunk, tail: Bytes)
    requires Fits(c) && c.Payload?
    ensures var b := Encode(c) + tail; var p := |c.name|;
            && |Encode(c)| == 34 + p + |c.data|
            && FromLE(b[14 + p..22 + p]) == |c.data|
            && b[22 + p..30 + p] == c.offset && b[30 + p..34 + p] == c.checksum
            && b[34 + p..34 + p + |c.data|] == c.data
  {
    var b, p := Encode(c) + tail, |c.name|;
    FromToLE(|c.data|, 8);
    hide FromLE;
    hide ToLE;
    assert b[14 + p..22 + p] == ToLE(|c.data|, 8);
  }

  /** A chunk is found at the front of whatever follows it. */
  lemma ParseEncoded(c: Chunk, tail: Bytes)
    requires Fits(c)
    ensures Parse(Encode(c) + tail) == Whole(c, |Encode(c)|)
  {
    hide FromLE;
    EncodedHeader(c, tail);
    if c.Payload? { EncodedPayload(c, tail); }
  }

  lemma DecodeOne(c: Chunk, tail: Bytes)
    requires Fits(c)
    ensures Decode(Encode(c) + tail) == ([c] + Decode(tail).0, Decode(tail).1)
  {
    hide Encode;
    hide Parse;
    ParseEncoded(c, tail);
    assert (Encode(c) + tail)[|Encode(c)|..] == tail;
  }

  /** Chunks followed by anything: the chunks, then whatever the rest decodes to. */
  lemma {:induction false} DecodeEncoded(cs: seq<Chunk>, tail: Bytes)
    requires forall c :: c in cs ==> Fits(c)
    ensures Decode(EncodeAll(cs) + tail) == (cs + Decode(tail).0, Decode(tail).1)
  {
    hide Encode;
    hide Decode;
    hide Fits;
    if cs == [] {
      assert EncodeAll(cs) + tail == tail;
      assert cs + Decode(tail).0 == Decode(tail).0;
    } else {
      var rest := EncodeAll(cs[1..]) + tail;
      assert EncodeAll(cs) + tail == Encode(cs[0]) + rest;
      DecodeOne(cs[0], rest);
      DecodeEncoded(cs[1..], tail);
      assert [cs[0]] + (cs[1..] + Decode(tail).0) == cs + Decode(tail).0;
    }
  }

  /** Cutting a chunk short, anywhere, is a truncation. */
  lemma CutShort(c: Chunk, n: nat)
    requires Fits(c) && 0 < n < |Encode(c)|
    ensures Decode(Encode(c)[..n]) == ([], Truncated)
  {
    hide FromLE;
    hide Encode;
    var e := Encode(c);
    var b := e[..n];
    EncodedHeader(c, []);
    assert e + [] == e;
    if n >= HEADER {
      assert b[..8] == e[..8] && b[9] == e[9] && b[10..14] == e[10..14];
      var p := |c.name|;
      assert PathLen(b) == p;
      ParseEncoded(c, []);
      if c.Payload? && n >= 30 + p {
        EncodedPayload(c, []);
        assert b[14 + p..22 + p] == e[14 + p..22 + p];
      }
    }
  }

  /** A stream cut inside a chunk gives exactly the chunks before it, then the truncation; an
      uncut one gives all chunks. */
  lemma CutStream(cs: seq<Chunk>, c: Chunk, n: nat)
    requires (forall d :: d in cs ==> Fits(d)) && Fits(c) && n < |Encode(c)|
    ensures Decode(EncodeAll(cs) + Encode(c)[..n]) == (cs, if n == 0 then Clean else Truncated)
  {
    hide Encode;
    hide Parse;
    DecodeEncoded(cs, Encode(c)[..n]);
    if n > 0 { CutShort(c, n); }
    assert cs + [] == cs;
  }

  lemma CutIsEncoded(b: Bytes)
    requires Parse(b).Whole?
    ensures Fits(Cut(b)) && Encode(Cut(b)) == b[..Want(b)]
  {
    hide FromLE;
    hide ToLE;
    hide Limit;
    var p := PathLen(b);
    ToFromLE(b[10..14]);
    assert b[..14] == b[..8] + [b[8], b[9]] + b[10..14];
    assert |Cut(b).name| == p;
    if b[9] == PAYLOAD_TYPE {
      var d := PayloadSize(b);
      ToFromLE(b[14 + p..22 + p]);
      CutPayloadEncoded(b, p, d);
      assert |Cut(b).data| == d;
    } else {
      assert b[..14 + p] == b[..14] + b[14..14 + p] + [];
    }
  }

  lemma CutPayloadEncoded(b: Bytes, p: nat, d: nat)
    requires |b| >= 34 + p + d
    ensures b[..34 + p + d]
      == b[..14] + b[14..14 + p] + (b[14 + p..22 + p] + b[22 + p..30 + p] + b[30 + p..34 + p] + b[34 + p..34 + p + d])
  {
  }

  /** Any input is its complete chunks and a rest that decodes to none. */
  lemma {:induction false} DecodeSplits(input: Bytes) returns (rest: Bytes)
    ensures forall c :: c in Decode(input).0 ==> Fits(c)
    ensures input == EncodeAll(Decode(input).0) + rest
    ensures Decode(rest) == ([], Decode(input).1)
  {
    hide Encode;
    hide Parse;
    hide Cut;
    if input == [] {
      rest := [];
    } else if Parse(input).Fault? {
      rest := input;
      assert EncodeAll([]) + rest == input;
    } else {
      var c, n := Parse(input).chunk, Parse(input).size;
      ParseIsEncoded(input);
      rest := DecodeSplits(input[n..]);
      var cs := Decode(input[n..]).0;
      assert ([c] + cs)[1..] == cs;
      assert input == input[..n] + input[n..];
      assert Encode(c) + (EncodeAll(cs) + rest) == Encode(c) + EncodeAll(cs) + rest;
    }
  }

  lemma ParseIsEncoded(input: Bytes)
    requires Parse(input).Whole?
    ensures Fits(Parse(input).chunk) && Encode(Parse(input).chunk) == input[..Parse(input).size]
  {
    CutIsEncoded(input);
  }

  /** The input ends cleanly exactly when it is a concatenation of chunks. */
  lemma CleanIff(input: Bytes)
    ensures Decode(input).1 == Clean <==> exists cs :: (forall c :: c in cs ==> Fits(c)) && input == EncodeAll(cs)
  {
    hide EncodeAll;
    hide Parse;
    hide Fits;
    var rest := DecodeSplits(input);
    if Decode(input).1 == Clean {
      CleanRest(rest);
      assert input == EncodeAll(Decode(input).0) + [] == EncodeAll(Decode(input).0);
    }
    if cs :| (forall c :: c in cs ==> Fits(c)) && input == EncodeAll(cs) {
      DecodeEncoded(cs, []);
      assert EncodeAll(cs) + [] == EncodeAll(cs);
    }
  }

  lemma CleanRest(rest: Bytes)
    requires Decode(rest) == ([], Clean)
    ensures rest == []
  {
  }

  // ---- What a truncation is ----

  function Zeros(n: nat): Bytes { seq(n, _ => 0) }

  /** Padding does not change what the first bytes tell. */
  lemma WantOfPadded(b: Bytes, z: Bytes)
    requires |b| >= HEADER
    ensures PathLen(b + z) == PathLen(b) && (b + z)[..8] == b[..8] && (b + z)[8..10] == b[8..10]
    ensures b[9] == EOF_TYPE || |b| >= 30 + PathLen(b) ==> Want(b + z) == Want(b)
  {
    hide FromLE;
    assert (b + z)[10..14] == b[10..14];
    assert (b + z)[9] == b[9] && (b + z)[8..10] == b[8..10];
    if |b| >= 30 + PathLen(b) {
      assert (b + z)[14 + PathLen(b)..22 + PathLen(b)] == b[14 + PathLen(b)..22 + PathLen(b)];
    }
  }

  lemma Complete(b: Bytes) returns (more: Bytes)
    requires |b| >= HEADER && b[..8] == MAGIC && KnownType(b[9]) && |b| < Want(b)
    ensures b < more && Parse(more).Whole? && Parse(more).size == |more|
    decreases if |b| < 30 + PathLen(b) then 1 else 0
  {
    var next := b + Zeros(Want(b) - |b|);
    WantOfPadded(b, Zeros(Want(b) - |b|));
    assert next[9] == next[8..10][1] == b[8..10][1] == b[9];
    if b[9] == EOF_TYPE || |b| >= 30 + PathLen(b) {
      more := next;
    } else {
      more := Complete(next);
    }
  }

  /** The rest after the complete chunks is cut off exactly when it is not empty and shorter
      than a header or a proper beginning of a chunk. */
  lemma TruncatedIff(rest: Bytes)
    ensures Decode(rest) == ([], Truncated) <==>
              rest != [] && (|rest| < HEADER || exists c :: Fits(c) && rest < Encode(c))
  {
    hide FromLE;
    hide Encode;
    hide Fits;
    if rest != [] && |rest| >= HEADER && Parse(rest) == Fault(Truncated) {
      var more := Complete(rest);
      CutIsEncoded(more);
      assert more[..|more|] == more;
      assert Fits(Cut(more)) && rest < Encode(Cut(more));
    }
    if rest != [] {
      if c :| Fits(c) && rest < Encode(c) {
        CutShort(c, |rest|);
        assert Encode(c)[..|rest|] == rest;
      }
    }
  }

  // ---- The callbacks ----

  /** callbacks.write, or callbacks.tx forwarding what it is given. */
  class Sink {
    var out: Bytes

    constructor ()
      ensures out == []
    {
      out := [];
    }

    /** Takes some of the data and says how much, None for all of it; anything else is illegal
        and takes nothing. */
    method Write(data: Bytes) returns (written: Option<int>)
      requires data != []
      modifies this
      ensures out == old(out) + match written
                     case None => data
                     case Some(w) => if 0 < w <= |data| then data[..w] else []
    {
      var count: int := *;
      if * {
        written := None;
        out := out + data;
      } else {
        written := Some(count);
        if 0 < count <= |data| { out := out + data[..count]; }
      }
    }
  }

  // ---- The reader ----

  /** What the caller finds in the chunk object when it has been transmitted. */
  datatype Sent = Sent(name: Bytes, number: nat, kind: Byte, payload: Option<Bytes>)

  datatype Outcome = Done | Raised(end: End) | InvalidProgress

  class XBStreamObject {
    var buffer: Bytes
    var filledSize: nat
    var txSize: nat
    var chunkTx: bool
    var name: Option<Bytes>
    var magicVerified: bool
    var chunkPathLen: nat
    var chunkType: Option<Byte>
    var payload: Option<Bytes>
    var payloadSize: nat
    var chunkSize: nat
    var chunkNo: nat
    var txStarted: bool

    constructor ()
      ensures Empty()
    {
      buffer, filledSize, txSize, chunkTx, name := [], 0, 0, false, None;
      magicVerified, chunkPathLen, chunkType, payload := false, 0, None, None;
      payloadSize, chunkSize, chunkNo, txStarted := 0, HEADER, 0, false;
    }

    ghost predicate Empty()
      reads this
    {
      Filling() && buffer == []
    }

    /** __init__ called again on the object. */
    method Reset()
      modifies this
      ensures Empty()
    {
      buffer, filledSize, txSize, chunkTx, name := [], 0, 0, false, None;
      magicVerified, chunkPathLen, chunkType, payload := false, 0, None, None;
      payloadSize, chunkSize, chunkNo, txStarted := 0, HEADER, 0, false;
    }

    /** The fields hold what the first bytes b of a chunk tell. */
    ghost predicate KnownFor(b: Bytes)
      reads this
    {
      && txSize == 0 && !chunkTx && !txStarted
      && magicVerified == (|b| >= HEADER)
      && chunkSize == Want(b)
      && (|b| >= HEADER ==>
            && GoodHeader(b) && chunkPathLen == PathLen(b) && chunkType == Some(b[9])
            && (|b| >= HEADER + PathLen(b) + (if b[9] == EOF_TYPE then 0 else 16)
                ==> name == Some(b[14..14 + PathLen(b)])))
      && payloadSize == KnownPayload(b)
    }

    /** A chunk that is not complete. */
    ghost predicate Filling()
      reads this
    {
      KnownFor(buffer) && filledSize == |buffer| < Want(buffer)
    }

    /** The chunk c, transmitted as the number-th of its name. */
    ghost predicate Holds(c: Chunk, number: nat, withPayload: bool)
      reads this
    {
      && chunkTx && name == Some(c.name) && chunkNo == number
      && chunkType == Some(if c.Payload? then PAYLOAD_TYPE else EOF_TYPE)
      && payload == if !withPayload then None else Some(if c.Payload? then c.data else [])
    }
  }

  predicate GoodHeader(b: Bytes)
    requires |b| >= HEADER
  {
    b[..8] == MAGIC && KnownType(b[9])
  }

  function KnownPayload(b: Bytes): nat {
    if |b| >= HEADER && b[9] != EOF_TYPE && |b| >= 30 + PathLen(b) then PayloadSize(b) else 0
  }

  /** The chunk size once the header of b is known, and no more than before tells. */
  function SizeBefore(before: Bytes, b: Bytes): nat {
    if |b| < HEADER then HEADER
    else if b[9] == EOF_TYPE then HEADER + PathLen(b)
    else if |before| >= 30 + PathLen(b) && |before| <= |b| then Want(b)
    else 30 + PathLen(b)
  }

  lemma MoreBytes(b: Bytes, x: Bytes)
    requires |b| >= HEADER
    ensures PathLen(b + x) == PathLen(b) && (b + x)[9] == b[9] && (b + x)[..8] == b[..8]
    ensures |b| >= 30 + PathLen(b) ==> PayloadSize(b + x) == PayloadSize(b)
    ensures |b| >= Want(b) ==> Want(b + x) == Want(b) && Cut(b + x) == Cut(b)
  {
    hide FromLE;
    assert (b + x)[10..14] == b[10..14];
    var p := PathLen(b);
    if |b| >= 30 + p { assert (b + x)[14 + p..22 + p] == b[14 + p..22 + p]; }
    if |b| >= Want(b) {
      assert (b + x)[14..14 + p] == b[14..14 + p];
      if b[9] != EOF_TYPE { CutOfMore(b, x, p, PayloadSize(b)); }
    }
  }

  lemma CutOfMore(b: Bytes, x: Bytes, p: nat, d: nat)
    requires |b| >= 34 + p + d
    ensures (b + x)[22 + p..30 + p] == b[22 + p..30 + p] && (b + x)[30 + p..34 + p] == b[30 + p..34 + p]
    ensures (b + x)[34 + p..34 + p + d] == b[34 + p..34 + p + d]
  {
  }

  class XBStreamRead {
    const source: Source
    const sink: Sink
    const obj: XBStreamObject
    const setPayload: bool
    var counts: map<Bytes, nat>
    var eof: bool

    constructor (source: Source, sink: Sink, setPayload: bool)
      ensures this.source == source && this.sink == sink && this.setPayload == setPayload
      ensures fresh(obj) && obj.Empty() && counts == map[] && !eof
    {
      this.source, this.sink, this.setPayload := source, sink, setPayload;
      counts, eof := map[], false;
      obj := new XBStreamObject();
    }

    /** The input not yet transmitted: the incomplete chunk and what was not read. */
    ghost function Rest(): Bytes
      reads obj, source
    {
      (if obj.chunkTx then [] else obj.buffer) + source.data
    }

    ghost predicate Ready()
      reads obj
    {
      obj.chunkTx || obj.Filling()
    }

    /** tx_start.  Its loop for missing bytes never runs: buffer_updated calls it only for a
        complete chunk. */
    method TxStart() returns (r: Outcome)
      requires obj.KnownFor(obj.buffer) && obj.filledSize == |obj.buffer| == Want(obj.buffer) && |obj.buffer| >= HEADER
      modifies obj, sink
      ensures obj.buffer == old(obj.buffer)
      ensures r == Done || r == InvalidProgress
      ensures r == Done
        ==> sink.out == old(sink.out) + obj.buffer && obj.Holds(Cut(obj.buffer), old(obj.chunkNo), setPayload)
      ensures r == InvalidProgress ==> old(sink.out) <= sink.out < old(sink.out) + obj.buffer
    {
      hide FromLE;
      obj.txStarted := true;
      assert obj.filledSize == obj.chunkSize;
      if setPayload {
        var offset := 4 + 16 + obj.chunkPathLen + HEADER;
        obj.payload := Some(Slice(obj.buffer, offset, offset + obj.payloadSize));
        SliceOfPayload(obj.buffer);
      } else {
        obj.payload := None;
      }
      r := WriteAll();
      if r == Done { obj.chunkTx := true; }
    }

    /** The write loop of tx_start. */
    method WriteAll() returns (r: Outcome)
      requires obj.txSize == 0 && obj.chunkSize == |obj.buffer|
      modifies obj`txSize, sink
      ensures r == Done || r == InvalidProgress
      ensures r == Done ==> sink.out == old(sink.out) + obj.buffer
      ensures r == InvalidProgress ==> old(sink.out) <= sink.out < old(sink.out) + obj.buffer
    {
      while obj.txSize < obj.chunkSize
        invariant obj.txSize <= obj.chunkSize
        invariant sink.out == old(sink.out) + obj.buffer[..obj.txSize]
      {
        var remaining := obj.chunkSize - obj.txSize;
        var w := sink.Write(obj.buffer[obj.txSize..]);
        var written := if w.None? then remaining else w.value;
        if written <= 0 || written > remaining {
          TakeShort(old(sink.out), obj.buffer, obj.txSize);
          return InvalidProgress;
        }
        TakeMore(old(sink.out), obj.buffer, obj.txSize, written);
        obj.txSize := obj.txSize + written;
      }
      r := Done;
    }

    /** buffer_updated, step 1: the header, once it is complete. */
    method ReadHeader(ghost before: Bytes, ghost x: Bytes) returns (r: Outcome)
      requires obj.KnownFor(before) && obj.buffer == before + x
      requires obj.filledSize == |obj.buffer| <= Want(before)
      modifies obj`magicVerified, obj`chunkPathLen, obj`chunkType, obj`chunkSize
      ensures r == Done || r.Raised?
      ensures r.Raised? ==> r.end != Truncated && |obj.buffer| >= HEADER && Parse(obj.buffer) == Fault(r.end)
      ensures r == Done ==> HeaderRead(before)
    {
      hide FromLE;
      r := Done;
      if !obj.magicVerified && obj.filledSize >= HEADER {
        if obj.buffer[..8] != MAGIC { return Raised(BadMagic); }
        obj.magicVerified := true;
        obj.chunkPathLen := FromLE(obj.buffer[10..14]);
        obj.chunkType := Some(obj.buffer[9]);
        if !KnownType(obj.buffer[9]) { return Raised(BadType); }
        obj.chunkSize := HEADER + obj.chunkPathLen;
        if obj.chunkType != Some(EOF_TYPE) { obj.chunkSize := obj.chunkSize + 16; }
      } else if |before| >= HEADER {
        MoreBytes(before, x);
      }
    }

    ghost predicate HeaderRead(before: Bytes)
      reads obj
    {
      var b := obj.buffer;
      && obj.magicVerified == (|b| >= HEADER)
      && (|b| >= HEADER ==> GoodHeader(b) && obj.chunkPathLen == PathLen(b) && obj.chunkType == Some(b[9]))
      && obj.chunkSize == SizeBefore(before, b)
    }

    /** buffer_updated, steps 2 and 3: the payload size and the name. */
    method ReadSizes(ghost before: Bytes, ghost x: Bytes)
      requires obj.buffer == before + x && HeaderRead(before) && obj.filledSize == |obj.buffer|
      requires obj.payloadSize == KnownPayload(before)
      requires |before| >= HEADER && |before| >= HEADER + PathLen(before) + (if before[9] == EOF_TYPE then 0 else 16)
        ==>
                 obj.name == Some(before[14..14 + PathLen(before)])
      requires obj.txSize == 0 && !obj.chunkTx && !obj.txStarted
      modifies obj`payloadSize, obj`chunkSize, obj`name
      ensures obj.KnownFor(obj.buffer)
    {
      hide FromLE;
      if |before| >= HEADER {
        MoreBytes(before, x);
        NameOfMore(before, x);
      }
      if obj.magicVerified && obj.payloadSize == 0 && obj.chunkType != Some(EOF_TYPE)
         && obj.filledSize >= HEADER + obj.chunkPathLen + 16 {
        var at := HEADER + obj.chunkPathLen;
        obj.payloadSize := FromLE(obj.buffer[at..at + 8]);
        obj.chunkSize := obj.payloadSize + 4 + 16 + obj.chunkPathLen + HEADER;
        obj.name := Some(obj.buffer[HEADER..HEADER + obj.chunkPathLen]);
      }
      if obj.magicVerified && obj.chunkType == Some(EOF_TYPE) && obj.filledSize >= HEADER + obj.chunkPathLen {
        obj.name := Some(obj.buffer[HEADER..HEADER + obj.chunkPathLen]);
      }
    }

    /** buffer_updated, called when x has been appended to the bytes before of an incomplete
        chunk: it refuses the header, waits for more or transmits. */
    method BufferUpdated(ghost before: Bytes, ghost x: Bytes) returns (r: Outcome)
      requires obj.KnownFor(before) && x != [] && obj.buffer == before + x
      requires obj.filledSize == |obj.buffer| <= Want(before)
      modifies this`counts, obj, sink
      ensures obj.buffer == old(obj.buffer)
      ensures r.Raised? ==> r.end != Truncated && |obj.buffer| >= HEADER && Parse(obj.buffer) == Fault(r.end)
      ensures r.Raised? || (r == Done && !obj.chunkTx) ==> sink.out == old(sink.out) && counts == old(counts)
      ensures r == Done && !obj.chunkTx ==> obj.Filling()
      ensures r == Done && obj.chunkTx ==> Transmitted(obj.buffer, old(sink.out), old(counts))
      ensures r == InvalidProgress ==> Broken(obj.buffer, old(sink.out))
    {
      hide FromLE;
      r := ReadHeader(before, x);
      if r != Done { return; }
      ReadSizes(before, x);
      hide KnownPayload;
      if !obj.txStarted && obj.filledSize > 0 && obj.filledSize == obj.chunkSize {
        r := Announce();
      } else {
        WantGrows(before, x);
      }
    }

    /** A whole chunk b has come out, counted under its name. */
    ghost predicate Transmitted(b: Bytes, out: Bytes, before: map<Bytes, nat>)
      reads this, obj, sink
    {
      && Parse(b).Whole? && Parse(b).size == |b|
      && sink.out == out + b
      && var c := Parse(b).chunk;
         && counts == before[c.name := Count(before, c.name) + 1]
         && obj.Holds(c, Count(before, c.name) + 1, setPayload)
    }

    /** The write callback broke off within the whole chunk b. */
    ghost predicate Broken(b: Bytes, out: Bytes)
      reads sink
    {
      Parse(b).Whole? && Parse(b).size == |b| && out <= sink.out < out + b
    }

    /** buffer_updated, the end: the chunk gets its number and is transmitted. */
    method Announce() returns (r: Outcome)
      requires obj.KnownFor(obj.buffer) && obj.filledSize == |obj.buffer| == Want(obj.buffer) && |obj.buffer| >= HEADER
      modifies this`counts, obj, sink
      ensures obj.buffer == old(obj.buffer)
      ensures r == Done || r == InvalidProgress
      ensures r == Done ==> Transmitted(obj.buffer, old(sink.out), old(counts))
      ensures r == InvalidProgress ==> Broken(obj.buffer, old(sink.out))
    {
      hide FromLE;
      hide KnownPayload;
      ghost var b := obj.buffer;
      assert Parse(b) == Whole(Cut(b), |b|);
      var name := obj.name.value;
      assert name == Cut(b).name;
      if name !in counts { counts := counts[name := 0]; }
      counts := counts[name := counts[name] + 1];
      obj.chunkNo := counts[name];
      r := TxStart();
    }

    /** One call of the reader: at most one read, and a chunk goes out when it is complete. */
    method Call() returns (r: Outcome)
      requires Ready()
      modifies this`counts, this`eof, obj, source, sink
      ensures r == Done && !obj.chunkTx ==>
                obj.Filling() && Rest() == old(Rest()) && sink.out == old(sink.out) && counts == old(counts)
      ensures r == Done && obj.chunkTx ==>
                && old(Rest()) == obj.buffer + Rest()
                && Transmitted(obj.buffer, old(sink.out), old(counts))
      ensures r.Raised? ==> old(Rest()) != [] && Parse(old(Rest())) == Fault(r.end) && sink.out == old(sink.out)
      ensures r == InvalidProgress ==> obj.buffer <= old(Rest()) && Broken(obj.buffer, old(sink.out))
      ensures eof == (old(eof) || old(source.data) == []) && (r == Done && old(source.data) == [] ==> old(Rest()) == [])
      ensures old(source.data) != [] ==> |source.data| < |old(source.data)|
    {
      hide FromLE;
      hide KnownPayload;
      if obj.chunkTx { obj.Reset(); }
      assert obj.buffer + source.data == old(Rest());
      r := Fill();
    }

    /** The body of a call, on an incomplete chunk. */
    method Fill() returns (r: Outcome)
      requires obj.Filling()
      modifies this`counts, this`eof, obj, source, sink
      ensures var rest := old(obj.buffer + source.data);
              && obj.buffer + source.data == rest
              && (r == Done && !obj.chunkTx ==> obj.Filling() && sink.out == old(sink.out) && counts == old(counts))
              && (r == Done && obj.chunkTx ==> Transmitted(obj.buffer, old(sink.out), old(counts)))
              && (r.Raised? ==> rest != [] && Parse(rest) == Fault(r.end) && sink.out == old(sink.out))
              && (r == InvalidProgress ==> Broken(obj.buffer, old(sink.out)))
              && (r == Done && old(source.data) == [] ==> rest == [])
      ensures eof == (old(eof) || old(source.data) == [])
      ensures old(source.data) != [] ==> |source.data| < |old(source.data)|
    {
      hide FromLE;
      hide KnownPayload;
      r := Done;
      if obj.filledSize < obj.chunkSize {
        ghost var before := obj.buffer;
        var x := source.Read(obj.chunkSize - obj.filledSize);
        if x != [] {
          obj.buffer := obj.buffer + x;
          obj.filledSize := obj.filledSize + |x|;
          hide Want;
          r := BufferUpdated(before, x);
        } else {
          eof := true;
          assert obj.buffer + source.data == obj.buffer;
          if obj.filledSize > 0 { return Raised(Truncated); }
        }
      }
    }

    /** `while reader.is_streaming(): reader()`, looking at the chunk object after each call. */
    method Run() returns (r: Outcome, seen: seq<Sent>)
      requires obj.Empty() && counts == map[] && !eof
      modifies this`counts, this`eof, obj, source, sink
      ensures var (cs, end) := Decode(old(source.data));
              match r
              case Done => end == Clean && sink.out == old(sink.out) + old(source.data) && seen == Log(cs, setPayload)
              case Raised(e) => end == e && sink.out == old(sink.out) + EncodeAll(cs) && seen == Log(cs, setPayload)
              case InvalidProgress => BrokenWithin(cs, old(sink.out), sink.out, seen, setPayload)
    {
      hide FromLE;
      hide Encode;
      hide Parse;
      hide Ahead;
      hide Tallied;
      hide Log;
      hide EncodeAll;
      hide Occurrences;
      hide Count;
      hide Decode;
      ghost var input := source.data;
      ghost var done: seq<Chunk> := [];
      r, seen := Done, [];
      AtStart(input, setPayload);
      assert Rest() == input && sink.out + [] == sink.out;
      while !eof
        invariant Ready() && r == Done
        invariant Ahead(done, Rest(), input)
        invariant sink.out == old(sink.out) + EncodeAll(done)
        invariant seen == Log(done, setPayload)
        invariant Tallied(counts, done)
        invariant eof ==> Rest() == []
        decreases !eof, |source.data|
      {
        ghost var rest, out, before := Rest(), sink.out, counts;
        r := Call();
        ghost var b := obj.buffer;
        match r
        case Done =>
          if obj.chunkTx {
            seen := seen + [Sent(obj.name.value, obj.chunkNo, obj.chunkType.value, obj.payload)];
            AfterChunk(done, b, Rest(), setPayload);
            AheadAfter(done, b, Rest(), input);
            CountsKept(before, counts, done, Parse(b).chunk);
            done := done + [Parse(b).chunk];
          }
        case Raised(e) =>
          AtFault(done, rest, input);
          return;
        case InvalidProgress =>
          assert rest == b + rest[|b|..];
          BrokenChunk(done, b, rest[|b|..], input, old(sink.out), sink.out, setPayload);
          return;
      }
      AtEnd(done, input);
    }
  }

  /** The chunks done are the first of the input, and the rest has the others. */
  ghost predicate Ahead(done: seq<Chunk>, rest: Bytes, input: Bytes) {
    (done + Decode(rest).0, Decode(rest).1) == Decode(input) && input == EncodeAll(done) + rest
  }

  ghost predicate Tallied(counts: map<Bytes, nat>, done: seq<Chunk>) {
    forall n :: Count(counts, n) == Occurrences(done, n)
  }

  lemma AtStart(input: Bytes, withPayload: bool)
    ensures Ahead([], input, input) && Tallied(map[], []) && Log([], withPayload) == [] && EncodeAll([]) == []
  {
    assert [] + Decode(input).0 == Decode(input).0;
  }

  lemma AtEnd(done: seq<Chunk>, input: Bytes)
    requires Ahead(done, [], input)
    ensures Decode(input) == (done, Clean) && EncodeAll(done) == input
  {
    assert done + [] == done && EncodeAll(done) + [] == EncodeAll(done);
  }

  lemma AtFault(done: seq<Chunk>, rest: Bytes, input: Bytes)
    requires Ahead(done, rest, input) && rest != [] && Parse(rest).Fault?
    ensures Decode(input) == (done, Parse(rest).end)
  {
    hide Parse;
    assert done + [] == done;
  }

  lemma AheadAfter(done: seq<Chunk>, b: Bytes, rest: Bytes, input: Bytes)
    requires Parse(b).Whole? && Parse(b).size == |b| && Ahead(done, b + rest, input)
    ensures Ahead(done + [Parse(b).chunk], rest, input)
  {
    hide Parse;
    AfterChunk(done, b, rest, false);
  }

  /** One more chunk b, all of it, in front of the rest. */
  lemma AfterChunk(done: seq<Chunk>, b: Bytes, rest: Bytes, withPayload: bool)
    requires Parse(b).Whole? && Parse(b).size == |b|
    ensures var c := Parse(b).chunk;
            && done + Decode(b + rest).0 == (done + [c]) + Decode(rest).0 && Decode(b + rest).1 == Decode(rest).1
            && EncodeAll(done + [c]) == EncodeAll(done) + b
            && Log(done + [c], withPayload)
              == Log(done, withPayload) + [SentOf(c, Occurrences(done, c.name) + 1, withPayload)]
            && EncodeAll(done) + (b + rest) == EncodeAll(done + [c]) + rest
  {
    hide Parse;
    hide Encode;
    var c := Parse(b).chunk;
    ParseIsEncoded(b);
    assert b[..|b|] == b;
    ParseOfMore(b, rest);
    assert (b + rest)[|b|..] == rest;
    assert done + ([c] + Decode(rest).0) == (done + [c]) + Decode(rest).0;
    EncodeAllAppend(done, c);
    LogAppend(done, c, withPayload);
  }

  lemma ParseOfMore(b: Bytes, rest: Bytes)
    requires Parse(b).Whole? && Parse(b).size == |b|
    ensures Parse(b + rest) == Parse(b)
  {
    hide FromLE;
    MoreBytes(b, rest);
  }

  lemma {:induction false} EncodeAllAppend(cs: seq<Chunk>, c: Chunk)
    ensures EncodeAll(cs + [c]) == EncodeAll(cs) + Encode(c)
  {
    hide Encode;
    if cs == [] {
      assert [] + [c] == [c];
      assert EncodeAll([c]) == Encode(c) + EncodeAll([c][1..]);
    } else {
      assert (cs + [c])[1..] == cs[1..] + [c];
      EncodeAllAppend(cs[1..], c);
    }
  }

  lemma LogSame(cs: seq<Chunk>, all: seq<Chunk>, i: nat, withPayload: bool)
    requires cs <= all && i < |cs|
    ensures Log(all, withPayload)[i] == Log(cs, withPayload)[i]
  {
    hide SentOf;
    hide Occurrences;
    assert all[..i + 1] == cs[..i + 1] && all[i] == cs[i];
  }

  lemma LogAppend(cs: seq<Chunk>, c: Chunk, withPayload: bool)
    ensures Log(cs + [c], withPayload) == Log(cs, withPayload) + [SentOf(c, Occurrences(cs, c.name) + 1, withPayload)]
  {
    hide SentOf;
    hide Occurrences;
    var all := cs + [c];
    forall i | 0 <= i < |cs| ensures Log(all, withPayload)[i] == Log(cs, withPayload)[i] {
      LogSame(cs, all, i, withPayload);
    }
    OneMore(cs, c);
    assert all[..|cs| + 1] == all;
  }

  lemma OneMore(cs: seq<Chunk>, c: Chunk)
    ensures Occurrences(cs + [c], c.name) == Occurrences(cs, c.name) + 1
  {
    var all := cs + [c];
    assert all[..|all| - 1] == cs;
  }

  lemma CountsKept(before: map<Bytes, nat>, after: map<Bytes, nat>, done: seq<Chunk>, c: Chunk)
    requires Tallied(before, done)
    ensures Occurrences(done, c.name) == Count(before, c.name)
    requires after == before[c.name := Count(before, c.name) + 1]
    ensures Tallied(after, done + [c])
  {
  }

  lemma BrokenChunk(done: seq<Chunk>, b: Bytes, rest: Bytes, input: Bytes, before: Bytes, out: Bytes, withPayload: bool)
    requires Parse(b).Whole? && Parse(b).size == |b| && Ahead(done, b + rest, input)
    requires before + EncodeAll(done) <= out < before + EncodeAll(done) + b
    ensures BrokenWithin(Decode(input).0, before, out, Log(done, withPayload), withPayload)
  {
    hide Parse;
    hide Decode;
    hide Encode;
    hide EncodeAll;
    hide Log;
    AfterChunk(done, b, rest, withPayload);
    assert before + EncodeAll(done) + b == before + (EncodeAll(done) + b);
    BrokenAt(Decode(input).0, done, Parse(b).chunk, before, out, withPayload);
  }

  lemma BrokenAt(cs: seq<Chunk>, done: seq<Chunk>, c: Chunk, before: Bytes, out: Bytes, withPayload: bool)
    requires done + [c] <= cs && before + EncodeAll(done) <= out < before + EncodeAll(done + [c])
    ensures BrokenWithin(cs, before, out, Log(done, withPayload), withPayload)
  {
    hide EncodeAll;
    hide Log;
    assert cs[..|done|] == done && cs[..|done| + 1] == done + [c];
  }

  /** The output stops inside one of the chunks. */
  ghost predicate BrokenWithin(cs: seq<Chunk>, before: Bytes, out: Bytes, seen: seq<Sent>, withPayload: bool) {
    exists k :: 0 <= k < |cs| && before + EncodeAll(cs[..k]) <= out < before + EncodeAll(cs[..k + 1])
        && seen == Log(cs[..k], withPayload)
  }

  /** How many of the chunks have the name. */
  function Occurrences(cs: seq<Chunk>, name: Bytes): nat {
    if cs == [] then 0
    else Occurrences(cs[..|cs| - 1], name) + if cs[|cs| - 1].name == name then 1 else 0
  }

  /** What the caller sees of a chunk, the number-th of its name. */
  function SentOf(c: Chunk, number: nat, withPayload: bool): Sent {
    Sent(c.name, number, if c.Payload? then PAYLOAD_TYPE else EOF_TYPE,
         if !withPayload then None else Some(if c.Payload? then c.data else []))
  }

  function Log(cs: seq<Chunk>, withPayload: bool): seq<Sent> {
    seq(|cs|, i requires 0 <= i < |cs| => SentOf(cs[i], Occurrences(cs[..i + 1], cs[i].name), withPayload))
  }

  function Count(counts: map<Bytes, nat>, name: Bytes): nat { if name in counts then counts[name] else 0 }

  lemma NameOfMore(b: Bytes, x: Bytes)
    requires |b| >= HEADER
    ensures |b| >= HEADER + PathLen(b) ==> (b + x)[14..14 + PathLen(b)] == b[14..14 + PathLen(b)]
  {
  }

  /** The wanted size is reached before it is passed. */
  lemma WantGrows(before: Bytes, x: Bytes)
    requires |before + x| <= Want(before)
    ensures |before + x| <= Want(before + x)
  {
    hide FromLE;
    if |before| >= HEADER { MoreBytes(before, x); }
  }

  lemma TakeShort(out: Bytes, b: Bytes, i: nat)
    requires i < |b|
    ensures out <= out + b[..i] < out + b && out + b[..i] + [] == out + b[..i]
  {
  }

  lemma TakeMore(out: Bytes, b: Bytes, i: nat, n: nat)
    requires i + n <= |b|
    ensures out + b[..i] + b[i..][..n] == out + b[..i + n]
    ensures i + n == |b| ==> out + b[..i] + b[i..] == out + b[..i + n]
  {
  }

  lemma SliceOfPayload(b: Bytes)
    requires |b| >= HEADER && GoodHeader(b) && |b| == Want(b)
    ensures Slice(b, 34 + PathLen(b), 34 + PathLen(b) + KnownPayload(b)) == if Cut(b).Payload? then Cut(b).data else []
  {
  }

  /** s[lo:hi]: Python cuts what is beyond the end. */
  function Slice(s: Bytes, lo: nat, hi: nat): Bytes
    requires lo <= hi
  {
    s[if lo < |s| then lo else |s|..if hi < |s| then hi else |s|]
  }

  // ---- The bytes on the wire ----

  /** Numbers have their low byte first. */
  lemma LittleEndian(a: Byte, b: Byte, c: Byte, d: Byte)
    ensures FromLE([a, b, c, d]) == a + 256 * b + 65536 * c + 16777216 * d
    ensures ToLE(a + 256 * b + 65536 * c + 16777216 * d, 4) == [a, b, c, d]
  {
    assert [a, b, c, d][1..] == [b, c, d] && [b, c, d][1..] == [c, d] && [c, d][1..] == [d] && [d][1..] == [];
    assert FromLE([d]) == d && FromLE([c, d]) == c + 256 * d;
    assert FromLE([b, c, d]) == b + 256 * FromLE([c, d]);
    ToFromLE([a, b, c, d]);
  }

  /** An 8-byte number that fits four. */
  lemma LittleEndianLong(n: nat)
    requires n < Limit(4)
    ensures ToLE(n, 8) == ToLE(n, 4) + [0, 0, 0, 0]
  {
    assert ToLE(0, 4) == [0, 0, 0, 0];
    var n1, n2, n3 := n / 256, n / 256 / 256, n / 256 / 256 / 256;
    assert n3 / 256 == 0;
    assert ToLE(n3, 1) == [n3 % 256] && ToLE(n3, 5) == [n3 % 256] + ToLE(0, 4);
    assert ToLE(n2, 6) == [n2 % 256] + ToLE(n3, 5) && ToLE(n2, 2) == [n2 % 256] + ToLE(n3, 1);
    assert ToLE(n1, 7) == [n1 % 256] + ToLE(n2, 6) && ToLE(n1, 3) == [n1 % 256] + ToLE(n2, 2);
  }

  // The bytes of a chunk "hi" of the file "abc", and of the end of that file: "XBSTCK01", flags,
  // 'P' or 'E', the length of the name, the name, the length of the payload, its offset, its
  // checksum and the payload.
  const ONE_CHUNK: Bytes := [88, 66, 83, 84, 67, 75, 48, 49] + [1, 80] + [3, 0, 0, 0] + [97, 98, 99]
    + ([2, 0, 0, 0, 0, 0, 0, 0] + [9, 0, 0, 0, 0, 0, 0, 0] + [5, 6, 7, 8] + [104, 105])
  const END_CHUNK: Bytes := [88, 66, 83, 84, 67, 75, 48, 49] + [0, 69] + [3, 0, 0, 0] + [97, 98, 99]

  lemma ChunkBytes(tail: Bytes)
    ensures Parse(ONE_CHUNK + tail)
      == Whole(Payload(1, [97, 98, 99], [9, 0, 0, 0, 0, 0, 0, 0], [5, 6, 7, 8], [104, 105]), 39)
  {
    LittleEndian(3, 0, 0, 0);
    LittleEndian(2, 0, 0, 0);
    Limits();
    LittleEndianLong(2);
    assert [2, 0, 0, 0] + [0, 0, 0, 0] == [2, 0, 0, 0, 0, 0, 0, 0];
    hide ToLE;
    hide Parse;
    hide Limit;
    var c := Payload(1, [97, 98, 99], [9, 0, 0, 0, 0, 0, 0, 0], [5, 6, 7, 8], [104, 105]);
    assert Encode(c) == ONE_CHUNK;
    hide Encode;
    ParseEncoded(c, tail);
  }

  lemma EndBytes(tail: Bytes)
    ensures Parse(END_CHUNK + tail) == Whole(EndOfFile(0, [97, 98, 99]), 17)
  {
    LittleEndian(3, 0, 0, 0);
    Limits();
    hide ToLE;
    hide Parse;
    hide Limit;
    var e := EndOfFile(0, [97, 98, 99]);
    assert Encode(e) == END_CHUNK + [];
    assert END_CHUNK + [] == END_CHUNK;
    hide Encode;
    ParseEncoded(e, tail);
  }

  lemma Limits()
    ensures 100 < Limit(4) < Limit(8)
  {
    assert Limit(1) == 256 * Limit(0);
    assert Limit(2) == 256 * Limit(1);
    assert Limit(4) == 256 * (256 * Limit(2));
    assert Limit(8) == 256 * (256 * (256 * (256 * Limit(4))));
  }

  /** Another magic, or another type, is refused as soon as the header is there. */
  lemma HeaderRefused(b: Bytes)
    requires |b| >= 14
    ensures b[..8] != [88, 66, 83, 84, 67, 75, 48, 49] ==> Parse(b) == Fault(BadMagic)
    ensures b[..8] == [88, 66, 83, 84, 67, 75, 48, 49] && b[9] != 80 && b[9] != 69 ==> Parse(b) == Fault(BadType)
  {
  }
}
