/**
 internal/remotefs/protocol.go and peer.go (send, sendResponse): frames on a byte
 stream.  The JSON coding of the metadata is a parameter of the model.
 */
module Frames {
  import opened Wrappers
  import opened Text

  type Byte = b: int | 0 <= b < 256
  type Bytes = seq<Byte>

  const MaxMetadataSize: nat := 65536
  const MaxDataSize: nat := 262144

  // The fields of a frame other than Data; `fields` are those not named here.
  datatype Meta = Meta(kind: string, id: nat, errorCode: string, error: string, fields: map<string, string>)

  datatype Frame = Frame(meta: Meta, data: Bytes)

  datatype Codec = Codec(encode: Meta -> Bytes, decode: Bytes -> Option<Meta>)

  // What json.Marshal and json.Unmarshal provide: a non-empty, invertible coding.
  ghost predicate Invertible(c: Codec) {
    forall m: Meta :: c.encode(m) != [] && c.decode(c.encode(m)) == Some(m)
  }

  function PutUint32(n: nat): (b: Bytes)
    requires n < 0x1_0000_0000
    ensures |b| == 4
  {
    [n / 0x100_0000, n / 0x1_0000 % 0x100, n / 0x100 % 0x100, n % 0x100]
  }

  function Uint32(b: Bytes): nat
    requires |b| == 4
  {
    b[0] as int * 0x100_0000 + b[1] as int * 0x1_0000 + b[2] as int * 0x100 + b[3] as int
  }

  lemma Uint32Inverse(n: nat)
    requires n < 0x1_0000_0000
    ensures Uint32(PutUint32(n)) == n
  {
    assert n / 0x100 / 0x100 == n / 0x1_0000 && n / 0x1_0000 / 0x100 == n / 0x100_0000;
  }

  predicate Fits(c: Codec, f: Frame) { |c.encode(f.meta)| <= MaxMetadataSize && |f.data| <= MaxDataSize }

  function Header(metadata: nat, data: nat): (h: Bytes)
    requires metadata <= MaxMetadataSize && data <= MaxDataSize
    ensures |h| == 8
  {
    PutUint32(metadata) + PutUint32(data)
  }

  function Encoded(c: Codec, f: Frame): Bytes
    requires Fits(c, f)
  {
    Header(|c.encode(f.meta)|, |f.data|) + c.encode(f.meta) + f.data
  }

  // ----- reading

  // io.EOF stands for a peer that closed; a read cut in the middle is unexpected.
  datatype ReadError = Eof | UnexpectedEof | BadMetadataSize | BadDataSize | BadMetadata

  function Full(s: Bytes, n: nat): Option<ReadError> {
    if |s| >= n then None else if s == [] then Some(Eof) else Some(UnexpectedEof)
  }

  function Decoded(c: Codec, s: Bytes): (r: Result<(Frame, Bytes), ReadError>)
    ensures r.Ok? ==> |r.value.1| < |s|
  {
    if Full(s, 8).Some? then Err(Full(s, 8).value) else
    var m, d, body := Uint32(s[..4]), Uint32(s[4..8]), s[8..];
    if m == 0 || m > MaxMetadataSize then Err(BadMetadataSize)
    else if d > MaxDataSize then Err(BadDataSize)
    else if Full(body, m).Some? then Err(Full(body, m).value)
    else if c.decode(body[..m]).None? then Err(BadMetadata)
    else if d > 0 && Full(body[m..], d).Some? then Err(Full(body[m..], d).value)
    else Ok((Frame(c.decode(body[..m]).value, body[m..m + d]), body[m + d..]))
  }

  // The frames of a stream, and the error at which reading stops.
  function DecodeAll(c: Codec, s: Bytes): (seq<Frame>, ReadError)
    decreases |s|
  {
    match Decoded(c, s)
    case Err(e) => ([], e)
    case Ok(r) => var rest := DecodeAll(c, r.1); ([r.0] + rest.0, rest.1)
  }

  class Conn {
    var written: Bytes
    var incoming: Bytes

    constructor ()
      ensures written == [] && incoming == []
    {
      written, incoming := [], [];
    }

    // The operating system takes any part of the data, with or without an error.
    method Write(data: Bytes) returns (n: nat, ok: bool)
      modifies this`written
      ensures n <= |data| && written == old(written) + data[..n]
    {
      n :| 0 <= n <= |data|;
      ok := *;
      written := written + data[..n];
    }

    // It hands out any non-empty part of what has arrived, and nothing at the end.
    method Read(max: nat) returns (chunk: Bytes)
      requires max > 0
      modifies this`incoming
      ensures |chunk| <= max && old(incoming) == chunk + incoming && (chunk == [] <==> old(incoming) == [])
    {
      var n: nat;
      n :| n <= |incoming| && n <= max && (n == 0 <==> |incoming| == 0) by {
        var least: nat := if |incoming| == 0 then 0 else 1;
        assert least <= |incoming| && least <= max;
      }
      chunk, incoming := incoming[..n], incoming[n..];
    }

    method WriteAll(bytes: Bytes) returns (ok: bool, ghost sent: nat)
      modifies this`written
      ensures sent <= |bytes| && written == old(written) + bytes[..sent]
      ensures ok ==> sent == |bytes|
    {
      var data := bytes;
      sent := 0;
      while |data| > 0
        invariant sent <= |bytes| && data == bytes[sent..]
        invariant written == old(written) + bytes[..sent]
        decreases |data|
      {
        var n, fine := Write(data);
        assert bytes[..sent] + data[..n] == bytes[..sent + n];
        sent := sent + n;
        if !fine || n == 0 {
          return false, sent;
        }
        data := data[n..];
      }
      ok := true;
    }

    // The writes of one frame, up to the first that fails.
    method WriteParts(lengths: Bytes, metadata: Bytes, data: Bytes) returns (ok: bool, ghost sent: nat)
      modifies this`written
      ensures var all := lengths + metadata + data;
              sent <= |all| && written == old(written) + all[..sent] && (ok ==> sent == |all|)
    {
      ghost var all := lengths + metadata + data;
      ok, sent := WriteAll(lengths);
      assert lengths[..sent] == all[..sent];
      if ok {
        ghost var more;
        ok, more := WriteAll(metadata);
        assert lengths + metadata[..more] == all[..|lengths| + more];
        sent := |lengths| + more;
      }
      if ok && |data| > 0 {
        ghost var more;
        ok, more := WriteAll(data);
        assert lengths + metadata + data[..more] == all[..|lengths| + |metadata| + more];
        sent := |lengths| + |metadata| + more;
      }
    }

    // io.ReadFull: the bytes, or the error and what had been read.
    method ReadFull(n: nat) returns (bytes: Bytes, error: Option<ReadError>)
      modifies this`incoming
      ensures error == Full(old(incoming), n)
      ensures error.None? ==> |bytes| == n && old(incoming) == bytes + incoming
    {
      bytes := [];
      while |bytes| < n
        invariant |bytes| <= n && old(incoming) == bytes + incoming
        decreases n - |bytes|
      {
        var chunk := Read(n - |bytes|);
        if chunk == [] {
          assert old(incoming) == bytes;
          return bytes, if bytes == [] then Some(Eof) else Some(UnexpectedEof);
        }
        bytes := bytes + chunk;
      }
      error := None;
    }

    method ReadWireFrame(c: Codec) returns (r: Result<Frame, ReadError>)
      modifies this`incoming
      ensures match Decoded(c, old(incoming))
              case Err(e) => r == Err(e)
              case Ok(v) => r == Ok(v.0) && incoming == v.1
    {
      ghost var stream := incoming;
      var lengths, error := ReadFull(8);
      if error.Some? {
        return Err(error.value);
      }
      var metadataSize, dataSize := Uint32(lengths[..4]), Uint32(lengths[4..]);
      assert stream[..4] == lengths[..4] && stream[4..8] == lengths[4..] && stream[8..] == incoming;
      if metadataSize == 0 || metadataSize > MaxMetadataSize {
        return Err(BadMetadataSize);
      }
      if dataSize > MaxDataSize {
        return Err(BadDataSize);
      }
      ghost var body := incoming;
      var metadata, error' := ReadFull(metadataSize);
      if error'.Some? {
        return Err(error'.value);
      }
      assert body[..metadataSize] == metadata && body[metadataSize..] == incoming;
      var meta := c.decode(metadata);
      if meta.None? {
        return Err(BadMetadata);
      }
      var data: Bytes := [];
      if dataSize > 0 {
        var error'';
        data, error'' := ReadFull(dataSize);
        if error''.Some? {
          return Err(error''.value);
        }
      }
      assert body[metadataSize..] == data + incoming;
      assert body[metadataSize..metadataSize + dataSize] == data && body[metadataSize + dataSize..] == incoming;
      r := Ok(Frame(meta.value, data));
    }
  }

  // ----- writing

  datatype WriteResult = Written | TooLarge(text: string) | Failed

  function TooLargeText(c: Codec, f: Frame): string {
    var size := |c.encode(f.meta)|;
    "remote fs frame is too large: " +
    if size > MaxMetadataSize then "metadata " + Itoa(size) + " bytes" else "data " + Itoa(|f.data|) + " bytes"
  }

  // What became of one frame: on the stream, refused, or cut after `sent` bytes.
  datatype Sent = Whole(frame: Frame) | Refused(frame: Frame) | Cut(frame: Frame, sent: nat)

  predicate Consistent(c: Codec, s: Sent) {
    match s
    case Whole(f) => Fits(c, f)
    case Refused(f) => !Fits(c, f)
    case Cut(f, sent) => Fits(c, f) && sent <= |Encoded(c, f)|
  }

  predicate AllConsistent(c: Codec, log: seq<Sent>) { forall i :: 0 <= i < |log| ==> Consistent(c, log[i]) }

  function BytesOf(c: Codec, s: Sent): Bytes
    requires Consistent(c, s)
  {
    match s
    case Whole(f) => Encoded(c, f)
    case Refused(_) => []
    case Cut(f, sent) => Encoded(c, f)[..sent]
  }

  function Stream(c: Codec, log: seq<Sent>): Bytes
    requires AllConsistent(c, log)
  {
    if log == [] then [] else BytesOf(c, log[0]) + Stream(c, log[1..])
  }

  lemma {:induction false} StreamAppend(c: Codec, log: seq<Sent>, s: Sent)
    requires AllConsistent(c, log) && Consistent(c, s)
    ensures Stream(c, log + [s]) == Stream(c, log) + BytesOf(c, s)
  {
    var all := log + [s];
    if log == [] {
      assert all[1..] == [] && BytesOf(c, s) + [] == BytesOf(c, s) == [] + BytesOf(c, s);
    } else {
      StreamAppend(c, log[1..], s);
      assert all[1..] == log[1..] + [s] && all[0] == log[0];
      Regroup(BytesOf(c, log[0]), Stream(c, log[1..]), BytesOf(c, s));
    }
  }

  // What a peer puts on the wire for a response.
  function TooLargeReply(c: Codec, f: Frame): Frame {
    Frame(Meta("response", f.meta.id, "too_large", TooLargeText(c, f), map[]), [])
  }

  function AnsweredWith(c: Codec, response: Frame): seq<Sent> {
    if Fits(c, response) then [Whole(response)] else [Refused(response), Whole(TooLargeReply(c, response))]
  }

  class Peer {
    const codec: Codec
    const conn: Conn
    var closed: bool
    ghost var log: seq<Sent>

    ghost predicate Valid()
      reads this, conn
    {
      AllConsistent(codec, log) && conn.written == Stream(codec, log)
    }

    constructor (codec: Codec)
      ensures Valid() && fresh(conn) && !closed && log == [] && this.codec == codec
    {
      this.codec := codec;
      conn := new Conn();
      closed, log := false, [];
    }

    method WriteWireFrame(frame: Frame) returns (r: WriteResult)
      requires Valid()
      modifies this`log, conn`written
      ensures Valid()
      ensures r.TooLarge? <==> !Fits(codec, frame)
      ensures r.TooLarge? ==> r.text == TooLargeText(codec, frame) && log == old(log) + [Refused(frame)]
      ensures r.TooLarge? ==> conn.written == old(conn.written)
      ensures r.Written? ==> log == old(log) + [Whole(frame)]
      ensures r.Failed? ==> exists k: nat :: log == old(log) + [Cut(frame, k)]
    {
      var metadata := codec.encode(frame.meta);
      if !(|metadata| <= MaxMetadataSize && |frame.data| <= MaxDataSize) {
        StreamAppend(codec, log, Refused(frame));
        log := log + [Refused(frame)];
        return TooLarge(TooLargeText(codec, frame));
      }
      var lengths := Header(|metadata|, |frame.data|);
      ghost var all := Encoded(codec, frame);
      var ok, sent := conn.WriteParts(lengths, metadata, frame.data);
      if ok {
        assert all[..sent] == all;
        StreamAppend(codec, log, Whole(frame));
        log := log + [Whole(frame)];
        return Written;
      }
      StreamAppend(codec, log, Cut(frame, sent));
      log := log + [Cut(frame, sent)];
      r := Failed;
    }

    method Send(frame: Frame) returns (r: WriteResult)
      requires Valid()
      modifies this`log, conn`written
      ensures Valid()
      ensures closed ==> r.Failed? && log == old(log)
      ensures !closed ==> (r.TooLarge? <==> !Fits(codec, frame))
      ensures r.TooLarge? ==> r.text == TooLargeText(codec, frame) && log == old(log) + [Refused(frame)]
      ensures r.TooLarge? ==> conn.written == old(conn.written)
      ensures r.Written? ==> log == old(log) + [Whole(frame)]
      ensures !closed && r.Failed? ==> exists k: nat :: log == old(log) + [Cut(frame, k)]
    {
      if closed {
        return Failed;
      }
      r := WriteWireFrame(frame);
    }

    /** Either the response or a small stand-in with the same ID goes out whole, or the
        peer closes. */
    method SendResponse(response: Frame)
      requires Valid()
      modifies this, conn`written
      ensures Valid()
      ensures old(closed) ==> closed && log == old(log)
      ensures !closed ==> log == old(log) + AnsweredWith(codec, response)
      ensures closed && !old(closed) ==> log != [] && !log[|log| - 1].Whole?
    {
      var r := Send(response);
      if r.TooLarge? {
        r := Send(Frame(Meta("response", response.meta.id, "too_large", r.text, map[]), []));
      }
      if !r.Written? {
        closed := true;
      }
    }
  }

  // ----- what the other side reads

  lemma HeaderDecodes(m: nat, d: nat, body: Bytes)
    requires m <= MaxMetadataSize && d <= MaxDataSize
    ensures var s := Header(m, d) + body; Uint32(s[..4]) == m && Uint32(s[4..8]) == d && s[8..] == body
  {
    var s := Header(m, d) + body;
    assert s[..4] == PutUint32(m) && s[4..8] == PutUint32(d);
    Uint32Inverse(m);
    Uint32Inverse(d);
  }

  // Where a stream may end and still look closed rather than cut.
  predicate LooksClosed(c: Codec, f: Frame, sent: nat) { sent == 0 || sent == 8 || sent == 8 + |c.encode(f.meta)| }

  /** A whole frame decodes to itself, whatever follows it. */
  lemma DecodesWhole(c: Codec, f: Frame, rest: Bytes)
    requires Invertible(c) && Fits(c, f)
    ensures Decoded(c, Encoded(c, f) + rest) == Ok((f, rest))
  {
    var meta := c.encode(f.meta);
    var m, d, body := |meta|, |f.data|, meta + f.data + rest;
    HeaderDecodes(m, d, body);
    assert Encoded(c, f) + rest == Header(m, d) + body;
    assert body[..m] == meta && body[m..m + d] == f.data && body[m + d..] == rest;
  }

  /** A frame cut anywhere before its end never decodes. */
  lemma DecodesCut(c: Codec, f: Frame, sent: nat)
    requires Invertible(c) && Fits(c, f) && sent < |Encoded(c, f)|
    ensures Decoded(c, Encoded(c, f)[..sent]) == Err(if LooksClosed(c, f, sent) then Eof else UnexpectedEof)
  {
    var meta, cut := c.encode(f.meta), Encoded(c, f)[..sent];
    var m, d := |meta|, |f.data|;
    if sent >= 8 {
      var body := (meta + f.data)[..sent - 8];
      HeaderDecodes(m, d, body);
      assert cut == Header(m, d) + body;
      if sent - 8 >= m {
        assert body[..m] == meta;
      }
    }
  }

  function Delivered(c: Codec, log: seq<Sent>): seq<Frame> {
    if log == [] then [] else
    (match log[0]
     case Whole(f) => [f]
     case Refused(_) => []
     case Cut(f, sent) => if Fits(c, f) && sent == |Encoded(c, f)| then [f] else []) + Delivered(c, log[1..])
  }

  // Cut with some of the frame sent and some not.
  predicate Inside(c: Codec, s: Sent)
    requires Consistent(c, s)
  {
    s.Cut? && 0 < s.sent < |Encoded(c, s.frame)|
  }

  // Nothing reaches the stream behind a frame that was cut inside.
  predicate InSync(c: Codec, log: seq<Sent>)
    requires AllConsistent(c, log)
  {
    log == [] || if Inside(c, log[0]) then Stream(c, log[1..]) == [] else InSync(c, log[1..])
  }

  // How reading ends: at the end of the stream, or inside the frame that was cut.
  function EndOf(c: Codec, log: seq<Sent>): ReadError
    requires AllConsistent(c, log)
  {
    if log == [] then Eof
    else if Inside(c, log[0]) then if LooksClosed(c, log[0].frame, log[0].sent) then Eof else UnexpectedEof
    else EndOf(c, log[1..])
  }

  lemma {:induction false} NothingSent(c: Codec, log: seq<Sent>)
    requires AllConsistent(c, log) && Stream(c, log) == []
    ensures Delivered(c, log) == []
  {
    if log != [] {
      assert BytesOf(c, log[0]) == [];
      NothingSent(c, log[1..]);
    }
  }

  lemma StreamEndsInside(c: Codec, log: seq<Sent>)
    requires Invertible(c) && AllConsistent(c, log) && InSync(c, log) && log != [] && Inside(c, log[0])
    ensures DecodeAll(c, Stream(c, log)) == (Delivered(c, log), EndOf(c, log))
  {
    NothingSent(c, log[1..]);
    assert Stream(c, log) == BytesOf(c, log[0]);
    DecodesCut(c, log[0].frame, log[0].sent);
  }

  lemma DecodesOneMore(c: Codec, s: Bytes, f: Frame, rest: Bytes)
    requires Decoded(c, s) == Ok((f, rest))
    ensures DecodeAll(c, s) == ([f] + DecodeAll(c, rest).0, DecodeAll(c, rest).1)
  {
  }

  // An entry that was not cut inside sent its whole frame, or nothing.
  lemma SentWhole(c: Codec, s: Sent, rest: Bytes)
    requires Invertible(c) && Consistent(c, s) && !Inside(c, s)
    ensures if BytesOf(c, s) == [] then BytesOf(c, s) + rest == rest
            else |BytesOf(c, s)| > 0 && Decoded(c, BytesOf(c, s) + rest) == Ok((s.frame, rest))
  {
    if BytesOf(c, s) == [] {
      assert [] + rest == rest;
    } else {
      assert BytesOf(c, s) == Encoded(c, s.frame);
      DecodesWhole(c, s.frame, rest);
    }
  }

  lemma DeliveredFront(c: Codec, log: seq<Sent>)
    requires log != [] && Consistent(c, log[0]) && !Inside(c, log[0])
    ensures Delivered(c, log) == (if BytesOf(c, log[0]) == [] then [] else [log[0].frame]) + Delivered(c, log[1..])
  {
  }

  /** The reader gets exactly the frames that went out whole, in order, and then the end
      of the stream: whatever else failed, as long as nothing follows a frame that was cut
      inside. */
  lemma {:induction false} StreamDecodes(c: Codec, log: seq<Sent>)
    requires Invertible(c) && AllConsistent(c, log) && InSync(c, log)
    ensures DecodeAll(c, Stream(c, log)) == (Delivered(c, log), EndOf(c, log))
  {
    if log != [] {
      var rest := Stream(c, log[1..]);
      if Inside(c, log[0]) {
        StreamEndsInside(c, log);
      } else {
        StreamDecodes(c, log[1..]);
        SentWhole(c, log[0], rest);
        DeliveredFront(c, log);
        if BytesOf(c, log[0]) == [] {
          assert [] + Delivered(c, log[1..]) == Delivered(c, log[1..]);
        } else {
          DecodesOneMore(c, Stream(c, log), log[0].frame, rest);
        }
      }
    }
  }

  // Reading whole frames from the front arrives exactly at position `at`.
  predicate ReadsTo(c: Codec, s: Bytes, at: nat)
    decreases |s|
  {
    at == 0 || match Decoded(c, s)
               case Err(_) => false
               case Ok(r) => |s| - |r.1| <= at && ReadsTo(c, r.1, at - (|s| - |r.1|))
  }

  /** Behind a frame that was cut inside, anywhere, the reader is out of step: reading
      stops, or the first bytes of what follows are taken for the rest of that frame. */
  lemma CutMisaligns(c: Codec, f: Frame, sent: nat, rest: Bytes)
    requires Invertible(c) && Fits(c, f) && 0 < sent < |Encoded(c, f)|
    ensures var r := Decoded(c, Encoded(c, f)[..sent] + rest); r.Err? || |r.value.1| < |rest|
  {
    var meta, s := c.encode(f.meta), Encoded(c, f)[..sent] + rest;
    if sent >= 8 {
      var body := (meta + f.data)[..sent - 8] + rest;
      HeaderDecodes(|meta|, |f.data|, body);
      assert s == Header(|meta|, |f.data|) + body;
    }
  }

  /** So a frame cut inside its data is delivered with the bytes of the next frames
      in it, although its write failed, once enough of them have arrived. */
  lemma CutInDataIsFilled(c: Codec, f: Frame, sent: nat, rest: Bytes)
    requires Invertible(c) && Fits(c, f) && 8 + |c.encode(f.meta)| <= sent < |Encoded(c, f)|
    ensures var missing := |Encoded(c, f)| - sent;
            Decoded(c, Encoded(c, f)[..sent] + rest) ==
            if |rest| >= missing then Ok((Frame(f.meta, f.data[..|f.data| - missing] + rest[..missing]), rest[missing..]))
            else Err(if sent == 8 + |c.encode(f.meta)| && rest == [] then Eof else UnexpectedEof)
  {
    var meta := c.encode(f.meta);
    var m, d, missing := |meta|, |f.data|, |Encoded(c, f)| - sent;
    var data := f.data[..d - missing] + rest;
    var body := meta + data;
    HeaderDecodes(m, d, body);
    assert Encoded(c, f)[..sent] + rest == Header(m, d) + body;
    assert body[..m] == meta && body[m..] == data;
    if |rest| >= missing {
      assert body[m..m + d] == data[..d] == f.data[..d - missing] + rest[..missing];
      assert body[m + d..] == data[d..] == rest[missing..];
    }
  }

  // The reader starts a frame wherever the writer did.
  ghost predicate ReadsEveryStart(c: Codec, log: seq<Sent>)
    requires AllConsistent(c, log)
  {
    forall i :: 0 <= i < |log| && BytesOf(c, log[i]) != [] ==> ReadsTo(c, Stream(c, log), |Stream(c, log[..i])|)
  }

  lemma StartMoves(c: Codec, log: seq<Sent>, i: nat)
    requires AllConsistent(c, log) && 0 < i <= |log|
    ensures |Stream(c, log[..i])| == |BytesOf(c, log[0])| + |Stream(c, log[1..][..i - 1])|
  {
    assert log[..i][1..] == log[1..][..i - 1];
  }

  lemma ReadsPast(c: Codec, s: Sent, rest: Bytes, at: nat)
    requires Invertible(c) && Consistent(c, s) && !Inside(c, s)
    ensures ReadsTo(c, BytesOf(c, s) + rest, |BytesOf(c, s)| + at) <==> ReadsTo(c, rest, at)
  {
    var bytes, all := BytesOf(c, s), BytesOf(c, s) + rest;
    SentWhole(c, s, rest);
    if bytes != [] {
      assert |all| - |rest| == |bytes| && |bytes| + at - |bytes| == at;
    }
  }

  /** The reader stays in step with the writer, whatever writes failed, if and only if
      nothing follows a frame that was cut inside. */
  lemma {:induction false} ReadsEveryStartIff(c: Codec, log: seq<Sent>)
    requires Invertible(c) && AllConsistent(c, log)
    ensures ReadsEveryStart(c, log) <==> InSync(c, log)
  {
    if log != [] {
      if Inside(c, log[0]) {
        InsideLast(c, log);
      } else {
        ReadsEveryStartIff(c, log[1..]);
        NextStarts(c, log);
      }
    }
  }

  lemma NextStarts(c: Codec, log: seq<Sent>)
    requires Invertible(c) && AllConsistent(c, log) && log != [] && !Inside(c, log[0])
    ensures ReadsEveryStart(c, log) <==> ReadsEveryStart(c, log[1..])
  {
    var more := log[1..];
    forall i | 0 < i < |log|
      ensures ReadsTo(c, Stream(c, log), |Stream(c, log[..i])|) <==> ReadsTo(c, Stream(c, more), |Stream(c, more[..i - 1])|)
    {
      StartMoves(c, log, i);
      ReadsPast(c, log[0], Stream(c, more), |Stream(c, more[..i - 1])|);
    }
    assert forall i :: 0 < i < |log| ==> log[i] == more[i - 1];
    if ReadsEveryStart(c, log) {
      forall i | 0 <= i < |more| && BytesOf(c, more[i]) != [] ensures ReadsTo(c, Stream(c, more), |Stream(c, more[..i])|) {
        assert log[i + 1] == more[i];
      }
    }
  }

  // The first entry with bytes on the stream.
  lemma {:induction false} FirstBytes(c: Codec, log: seq<Sent>) returns (i: nat)
    requires AllConsistent(c, log) && Stream(c, log) != []
    ensures i < |log| && BytesOf(c, log[i]) != [] && Stream(c, log[..i]) == []
  {
    if BytesOf(c, log[0]) != [] {
      i := 0;
    } else {
      assert [] + Stream(c, log[1..]) == Stream(c, log[1..]);
      i := FirstBytes(c, log[1..]);
      i := i + 1;
      assert log[..i][1..] == log[1..][..i - 1];
    }
  }

  lemma {:induction false} NoBytesLeft(c: Codec, log: seq<Sent>, i: nat)
    requires AllConsistent(c, log) && Stream(c, log) == [] && i < |log|
    ensures BytesOf(c, log[i]) == []
  {
    if i > 0 {
      assert BytesOf(c, log[0]) == [];
      NoBytesLeft(c, log[1..], i - 1);
    }
  }

  lemma InsideLast(c: Codec, log: seq<Sent>)
    requires Invertible(c) && AllConsistent(c, log) && log != [] && Inside(c, log[0])
    ensures ReadsEveryStart(c, log) <==> Stream(c, log[1..]) == []
  {
    var f, sent, rest := log[0].frame, log[0].sent, Stream(c, log[1..]);
    if rest == [] {
      forall i | 0 < i < |log| ensures BytesOf(c, log[i]) == [] {
        NoBytesLeft(c, log[1..], i - 1);
      }
    } else {
      var j := FirstBytes(c, log[1..]);
      StartMoves(c, log, j + 1);
      CutMisaligns(c, f, sent, rest);
      assert log[j + 1] == log[1..][j];
      assert !ReadsTo(c, Stream(c, log), sent);
    }
  }

  /** A failed write does not close the peer when it was a request or a cancel.  A frame
      written after four bytes of another is lost, although its write succeeds. */
  lemma WholeAfterCutIsLost(c: Codec, f: Frame, g: Frame)
    requires Invertible(c) && Fits(c, f) && Fits(c, g) && |c.encode(f.meta)| > 4 + |g.data|
    ensures DecodeAll(c, Stream(c, [Cut(f, 4), Whole(g)])).0 == []
  {
    var log := [Cut(f, 4), Whole(g)];
    var m, n := |c.encode(f.meta)|, |c.encode(g.meta)|;
    assert log[1..] == [Whole(g)] && log[1..][1..] == [];
    var s := Stream(c, log);
    assert Stream(c, [Whole(g)]) == Encoded(c, g) + Stream(c, []);
    assert Stream(c, log) == BytesOf(c, log[0]) + Stream(c, log[1..]);
    assert s == Encoded(c, f)[..4] + Encoded(c, g);
    assert s[..4] == PutUint32(m) && s[4..8] == PutUint32(n) && |s| == 12 + n + |g.data|;
    Uint32Inverse(m);
    Uint32Inverse(n);
    assert n > 0;
  }

  // ----- responses

  function Reply(c: Codec, f: Frame): Frame { if Fits(c, f) then f else TooLargeReply(c, f) }

  function Answers(c: Codec, responses: seq<Frame>): seq<Sent> {
    if responses == [] then [] else AnsweredWith(c, responses[0]) + Answers(c, responses[1..])
  }

  lemma {:induction false} DeliveredAppend(c: Codec, a: seq<Sent>, b: seq<Sent>)
    ensures Delivered(c, a + b) == Delivered(c, a) + Delivered(c, b)
  {
    if a == [] {
      assert a + b == b;
    } else {
      assert (a + b)[1..] == a[1..] + b;
      DeliveredAppend(c, a[1..], b);
    }
  }

  /** As long as the peer stays open, each response reaches the reader as one frame with
      its ID, and unchanged when it fits: refusing a large one loses nothing else. */
  lemma EveryResponseIsAnswered(c: Codec, responses: seq<Frame>)
    requires Invertible(c)
    requires forall i :: 0 <= i < |responses| ==> Fits(c, Reply(c, responses[i]))
    ensures AllConsistent(c, Answers(c, responses))
    ensures var read := DecodeAll(c, Stream(c, Answers(c, responses)));
            && read.1 == Eof && |read.0| == |responses|
            && forall i :: 0 <= i < |responses| ==>
                 && read.0[i].meta.id == responses[i].meta.id
                 && (Fits(c, responses[i]) ==> read.0[i] == responses[i])
                 && (!Fits(c, responses[i]) ==>
                       read.0[i].meta.kind == "response" && read.0[i].meta.errorCode == "too_large" && read.0[i].data == [])
  {
    AnswersAre(c, responses);
    NoCutsInSync(c, Answers(c, responses));
    StreamDecodes(c, Answers(c, responses));
  }

  lemma {:induction false} NoCutsInSync(c: Codec, log: seq<Sent>)
    requires AllConsistent(c, log) && forall i :: 0 <= i < |log| ==> !log[i].Cut?
    ensures InSync(c, log) && EndOf(c, log) == Eof
  {
    if log != [] {
      NoCutsInSync(c, log[1..]);
    }
  }

  lemma {:induction false} AnswersAre(c: Codec, responses: seq<Frame>)
    requires forall i :: 0 <= i < |responses| ==> Fits(c, Reply(c, responses[i]))
    ensures var log := Answers(c, responses);
            && AllConsistent(c, log) && (forall i :: 0 <= i < |log| ==> !log[i].Cut?)
            && |Delivered(c, log)| == |responses|
            && forall i :: 0 <= i < |responses| ==>
                 Delivered(c, log)[i] == Reply(c, responses[i])
  {
    if responses != [] {
      var first, more := AnsweredWith(c, responses[0]), Answers(c, responses[1..]);
      AnswersAre(c, responses[1..]);
      AnswerIs(c, responses[0]);
      DeliveredAppend(c, first, more);
      AnswersJoin(first, more);
      assert forall i :: 0 <= i < |responses| - 1 ==> responses[1..][i] == responses[i + 1];
    }
  }

  lemma AnswersJoin(a: seq<Sent>, b: seq<Sent>)
    requires (forall i :: 0 <= i < |a| ==> !a[i].Cut?) && (forall i :: 0 <= i < |b| ==> !b[i].Cut?)
    ensures forall i :: 0 <= i < |a + b| ==> !(a + b)[i].Cut?
  {
  }

  lemma AnswerIs(c: Codec, response: Frame)
    requires Fits(c, Reply(c, response))
    ensures var log := AnsweredWith(c, response);
            AllConsistent(c, log) && (forall i :: 0 <= i < |log| ==> !log[i].Cut?) && Delivered(c, log) == [Reply(c, response)]
  {
    var log, whole := AnsweredWith(c, response), [Whole(Reply(c, response))];
    assert whole[1..] == [] && Delivered(c, whole) == [Reply(c, response)] + [];
    if !Fits(c, response) {
      assert log[1..] == whole && Delivered(c, log) == [] + Delivered(c, whole);
    } else {
      assert log == whole;
    }
  }
}
