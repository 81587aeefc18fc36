/**
 internal/domain/domain.go: the DNS responder (message format: section 4.1 of
 RFC 1035).

 ParseQName and BuildDNSResponse follow the code; DecodeMessage is a separate
 reader of the RFC's format, compression pointers included, against which the
 responses are judged.
 */
module Dns {
  import opened Wrappers
  import opened Domain
  import Text

  type Bytes = seq<byte>

  function U16At(b: Bytes, i: nat): nat
    requires i + 2 <= |b|
  {
    b[i] as int * 256 + b[i + 1] as int
  }

  function Put16(n: nat): Bytes
    requires n < 65536
  {
    [(n / 256) as byte, (n % 256) as byte]
  }

  // ----- names in a question

  type Name = seq<Bytes>

  predicate IsName(labels: Name) {
    forall i :: 0 <= i < |labels| ==> 1 <= |labels[i]| <= 63
  }

  function EncodeName(labels: Name): Bytes
    requires IsName(labels)
  {
    if labels == [] then [0] else [|labels[0]| as byte] + labels[0] + EncodeName(labels[1..])
  }

  // The code tests the two top bits of a length byte.
  predicate TopBits(l: byte) { (l as bv8) & 0xc0 != 0 }

  lemma TopBitsAreLarge(l: byte)
    ensures TopBits(l) <==> l >= 64
  {
    var b := l as bv8;
    assert (b & 0xc0 != 0) <==> b >= 64;
    assert b >= 64 <==> b as int >= 64;
  }

  function ScanName(msg: Bytes, offset: nat): Result<(Name, nat), string>
    decreases |msg| - offset
  {
    if offset >= |msg| then Err("qname overflow") else
    var l := msg[offset] as int;
    if l == 0 then Ok(([], offset + 1))
    else if l >= 64 then Err("compressed qname unsupported in question")
    else if offset + 1 + l > |msg| then Err("qname label overflow")
    else
      match ScanName(msg, offset + 1 + l)
      case Ok((labels, end)) => Ok(([msg[offset + 1..offset + 1 + l]] + labels, end))
      case Err(e) => Err(e)
  }

  function Prepend(labels: Name, r: Result<(Name, nat), string>): Result<(Name, nat), string> {
    match r
    case Ok((more, end)) => Ok((labels + more, end))
    case Err(e) => Err(e)
  }

  // A label as the code's string of bytes; strings.Join of them with dots.
  function LabelText(raw: Bytes): string {
    seq(|raw|, i requires 0 <= i < |raw| => raw[i] as int as char)
  }

  function Dotted(labels: Name): string {
    Text.Join(seq(|labels|, i requires 0 <= i < |labels| => LabelText(labels[i])), ".")
  }

  method ParseQName(msg: Bytes, start: nat) returns (r: Result<(Name, nat), string>)
    ensures r == ScanName(msg, start)
  {
    var labels: Name := [];
    var offset := start;
    assert forall more: Name :: labels + more == more;
    while true
      invariant Prepend(labels, ScanName(msg, offset)) == ScanName(msg, start)
      decreases |msg| - offset
    {
      if offset >= |msg| {
        return Err("qname overflow");
      }
      var l := msg[offset];
      TopBitsAreLarge(l);
      offset := offset + 1;
      if l == 0 {
        assert labels + [] == labels;
        return Ok((labels, offset));
      }
      if TopBits(l) {
        return Err("compressed qname unsupported in question");
      }
      if offset + l as int > |msg| {
        return Err("qname label overflow");
      }
      ghost var rest := ScanName(msg, offset + l as int);
      assert rest.Ok? ==> (labels + [msg[offset..offset + l as int]]) + rest.value.0
                          == labels + ([msg[offset..offset + l as int]] + rest.value.0);
      labels := labels + [msg[offset..offset + l as int]];
      offset := offset + l as int;
    }
  }

  lemma LabelInFront(pre: Bytes, word: Bytes, more: Bytes, post: Bytes)
    requires |word| < 256
    ensures var head := [|word| as byte] + word; var msg := pre + (head + more) + post;
            && msg == (pre + head) + more + post && |pre| < |msg| && msg[|pre|] == |word| as byte
            && |pre| + 1 + |word| <= |msg| && msg[|pre| + 1..|pre| + 1 + |word|] == word
  {
  }

  /** Parsing inverts the label encoding, wherever the name lies in the message. */
  lemma {:induction false} ScanInvertsEncode(pre: Bytes, labels: Name, post: Bytes)
    requires IsName(labels)
    ensures ScanName(pre + EncodeName(labels) + post, |pre|) == Ok((labels, |pre| + |EncodeName(labels)|))
    decreases |labels|
  {
    var msg := pre + EncodeName(labels) + post;
    if labels == [] {
      assert msg[|pre|] == 0;
    } else {
      var head := [|labels[0]| as byte] + labels[0];
      ScanInvertsEncode(pre + head, labels[1..], post);
      LabelInFront(pre, labels[0], EncodeName(labels[1..]), post);
      assert labels == [labels[0]] + labels[1..];
    }
  }

  /** and it accepts nothing else: what it consumed is the encoding of what it returns. */
  lemma {:induction false} ScanAcceptsOnlyEncodings(msg: Bytes, offset: nat)
    requires ScanName(msg, offset).Ok?
    ensures var (labels, end) := ScanName(msg, offset).value;
            IsName(labels) && offset < end <= |msg| && msg[offset..end] == EncodeName(labels)
    decreases |msg| - offset
  {
    var l := msg[offset] as int;
    var (labels, end) := ScanName(msg, offset).value;
    if l != 0 {
      ScanAcceptsOnlyEncodings(msg, offset + 1 + l);
      assert labels[1..] == ScanName(msg, offset + 1 + l).value.0;
      assert msg[offset..end] == [msg[offset]] + msg[offset + 1..offset + 1 + l] + msg[offset + 1 + l..end];
    }
  }

  // ----- responses

  predicate Answers(ip: Bytes, found: bool) { found && To4(ip).Some? }

  predicate Resolves(ip: Bytes, found: bool, qtype: nat) { Answers(ip, found) && (qtype == 1 || qtype == 255) }

  // Pointer to offset 12, type A, class IN, 30 seconds, four bytes of address.
  function AnswerRecord(ip4: IPv4): Bytes {
    [0xc0, 0x0c] + Put16(1) + Put16(1) + [0, 0, 0, 30] + Put16(4) + ip4
  }

  function Response(req: Bytes, qEnd: nat, qtype: nat, ip: Bytes, found: bool): Bytes
    requires 12 <= qEnd && qEnd + 4 <= |req|
  {
    req[..2] + Put16(if Answers(ip, found) then 0x8180 else 0x8183) + req[4..6]
    + Put16(if Resolves(ip, found, qtype) then 1 else 0) + Put16(0) + Put16(0)
    + req[12..qEnd + 4]
    + if Resolves(ip, found, qtype) then AnswerRecord(To4(ip).value) else []
  }

  method BuildDNSResponse(req: Bytes, qEnd: nat, qtype: nat, ip: Bytes, found: bool) returns (resp: Bytes)
    requires 12 <= qEnd && qEnd + 4 <= |req|
    ensures resp == Response(req, qEnd, qtype, ip, found)
    ensures |resp| == qEnd + 4 + if found && To4(ip).Some? && (qtype == 1 || qtype == 255) then 16 else 0
  {
    var ip4 := To4(ip);
    var answer := found && ip4.Some?;
    resp := req[..2];
    var flags := 0x8180;
    if !answer {
      flags := 0x8183;
    }
    resp := resp + Put16(flags);
    resp := resp + req[4..6];
    if answer && (qtype == 1 || qtype == 255) {
      resp := resp + Put16(1);
    } else {
      resp := resp + Put16(0);
    }
    resp := resp + Put16(0);
    resp := resp + Put16(0);
    resp := resp + req[12..qEnd + 4];
    if answer && (qtype == 1 || qtype == 255) {
      resp := resp + AnswerRecord(ip4.value);
    }
  }

  // One turn of serveDNS: a datagram that does not parse gets no response.
  function Serve(records: Records, packet: Bytes): Option<Bytes> {
    match ScanName(packet, 12)
    case Err(_) => None
    case Ok((labels, qEnd)) =>
      if qEnd + 4 > |packet| then None else
      var ip := Lookup(records, Dotted(labels));
      ScanAcceptsOnlyEncodings(packet, 12);
      Some(Response(packet, qEnd, U16At(packet, qEnd), if ip.Some? then ip.value else [], ip.Some?))
  }

  // ----- an independent reader of messages

  datatype Question = Question(name: Name, qtype: nat, qclass: nat)

  datatype Record = Record(name: Name, rtype: nat, rclass: nat, ttl: nat, data: Bytes)

  datatype Message = Message(id: nat, flags: nat, questions: seq<Question>, answers: seq<Record>)

  // A name with compression: a pointer leads strictly below `bound`.
  function DecodeName(msg: Bytes, offset: nat, bound: nat): Option<(Name, nat)>
    decreases bound, |msg| - offset
  {
    if offset >= |msg| then None else
    var l := msg[offset] as int;
    if l == 0 then Some(([], offset + 1))
    else if l >= 0xc0 then
      if offset + 2 > |msg| then None else
      var target := (l - 0xc0) * 256 + msg[offset + 1] as int;
      if target >= bound then None else
      var there := DecodeName(msg, target, target);
      if there.None? then None else Some((there.value.0, offset + 2))
    else if l >= 64 || offset + 1 + l > |msg| then None
    else
      var rest := DecodeName(msg, offset + 1 + l, bound);
      if rest.None? then None else Some(([msg[offset + 1..offset + 1 + l]] + rest.value.0, rest.value.1))
  }

  function DecodeQuestions(msg: Bytes, offset: nat, count: nat): Option<(seq<Question>, nat)>
    decreases count
  {
    if count == 0 then Some(([], offset)) else
    var name := DecodeName(msg, offset, offset);
    if name.None? || name.value.1 + 4 > |msg| then None else
    var at := name.value.1;
    var rest := DecodeQuestions(msg, at + 4, count - 1);
    if rest.None? then None
    else Some(([Question(name.value.0, U16At(msg, at), U16At(msg, at + 2))] + rest.value.0, rest.value.1))
  }

  function DecodeRecords(msg: Bytes, offset: nat, count: nat): Option<(seq<Record>, nat)>
    decreases count
  {
    if count == 0 then Some(([], offset)) else
    var name := DecodeName(msg, offset, offset);
    if name.None? || name.value.1 + 10 > |msg| then None else
    var at := name.value.1;
    var size := U16At(msg, at + 8);
    if at + 10 + size > |msg| then None else
    var rest := DecodeRecords(msg, at + 10 + size, count - 1);
    if rest.None? then None
    else
      var ttl := U16At(msg, at + 4) * 65536 + U16At(msg, at + 6);
      var r := Record(name.value.0, U16At(msg, at), U16At(msg, at + 2), ttl, msg[at + 10..at + 10 + size]);
      Some(([r] + rest.value.0, rest.value.1))
  }

  // A whole message with no authority or additional records and nothing after it.
  function DecodeMessage(msg: Bytes): Option<Message> {
    if |msg| < 12 || U16At(msg, 8) != 0 || U16At(msg, 10) != 0 then None else
    var qs := DecodeQuestions(msg, 12, U16At(msg, 4));
    if qs.None? then None else
    var rs := DecodeRecords(msg, qs.value.1, U16At(msg, 6));
    if rs.None? || rs.value.1 != |msg| then None
    else Some(Message(U16At(msg, 0), U16At(msg, 2), qs.value.0, rs.value.0))
  }

  lemma {:induction false} DecodePlainName(pre: Bytes, labels: Name, post: Bytes, bound: nat)
    requires IsName(labels)
    ensures DecodeName(pre + EncodeName(labels) + post, |pre|, bound) == Some((labels, |pre| + |EncodeName(labels)|))
    decreases |labels|
  {
    var msg := pre + EncodeName(labels) + post;
    if labels == [] {
      assert msg[|pre|] == 0;
    } else {
      var head := [|labels[0]| as byte] + labels[0];
      DecodePlainName(pre + head, labels[1..], post, bound);
      LabelInFront(pre, labels[0], EncodeName(labels[1..]), post);
      assert labels == [labels[0]] + labels[1..];
    }
  }

  // Header, question and record of a response, as the reader finds them.
  lemma ResponseHeader(req: Bytes, qEnd: nat, qtype: nat, ip: Bytes, found: bool)
    requires 12 <= qEnd && qEnd + 4 <= |req|
    ensures var r := Response(req, qEnd, qtype, ip, found);
            && |r| == qEnd + 4 + (if Resolves(ip, found, qtype) then 16 else 0)
            && U16At(r, 0) == U16At(req, 0) && U16At(r, 4) == U16At(req, 4)
            && U16At(r, 2) == (if Answers(ip, found) then 0x8180 else 0x8183)
            && U16At(r, 6) == (if Resolves(ip, found, qtype) then 1 else 0)
            && U16At(r, 8) == 0 && U16At(r, 10) == 0
            && r[12..qEnd + 4] == req[12..qEnd + 4]
            && r[qEnd + 4..] == (if Resolves(ip, found, qtype) then AnswerRecord(To4(ip).value) else [])
  {
  }

  lemma SameTail(req: Bytes, r: Bytes, qEnd: nat)
    requires 12 <= qEnd && qEnd + 4 <= |req| && qEnd + 4 <= |r| && r[12..qEnd + 4] == req[12..qEnd + 4]
    ensures r[12..qEnd] == req[12..qEnd]
    ensures U16At(r, qEnd) == U16At(req, qEnd) && U16At(r, qEnd + 2) == U16At(req, qEnd + 2)
  {
    forall j | 12 <= j < qEnd + 4 ensures r[j] == req[j] {
      assert r[j] == r[12..qEnd + 4][j - 12] && req[j] == req[12..qEnd + 4][j - 12];
    }
  }

  lemma ThreeParts(r: Bytes, a: nat, b: nat)
    requires a <= b <= |r|
    ensures r == r[..a] + r[a..b] + r[b..]
  {
  }

  lemma DecodeResponseQuestion(req: Bytes, labels: Name, qEnd: nat, r: Bytes)
    requires ScanName(req, 12) == Ok((labels, qEnd))
    requires 12 <= qEnd && qEnd + 4 <= |req| && qEnd + 4 <= |r| && r[12..qEnd + 4] == req[12..qEnd + 4]
    ensures DecodeName(r, 12, 12) == Some((labels, qEnd))
    ensures U16At(r, qEnd) == U16At(req, qEnd) && U16At(r, qEnd + 2) == U16At(req, qEnd + 2)
  {
    ScanAcceptsOnlyEncodings(req, 12);
    SameTail(req, r, qEnd);
    ThreeParts(r, 12, qEnd);
    DecodePlainName(r[..12], labels, r[qEnd..], 12);
  }

  lemma DecodeResponseRecord(r: Bytes, at: nat, labels: Name, qEnd: nat, ip4: IPv4)
    requires 12 < at && |r| == at + 16 && r[at..] == AnswerRecord(ip4)
    requires DecodeName(r, 12, 12) == Some((labels, qEnd))
    ensures DecodeRecords(r, at, 1) == Some(([Record(labels, 1, 1, 30, ip4)], |r|))
  {
    assert forall i :: 0 <= i < 16 ==> r[at + i] == r[at..][i];
    assert r[at] == 0xc0 && r[at + 1] == 0x0c;
    assert DecodeName(r, at, at) == Some((labels, at + 2));
    assert U16At(r, at + 10) == 4 && U16At(r, at + 2) == 1 && U16At(r, at + 4) == 1;
    assert U16At(r, at + 6) == 0 && U16At(r, at + 8) == 30;
    assert r[at + 12..at + 16] == ip4;
    var record := Record(labels, 1, 1, 30, ip4);
    assert [record] + [] == [record];
    assert U16At(r, at + 4) == 1 && U16At(r, at + 6) * 65536 + U16At(r, at + 8) == 30;
    assert DecodeRecords(r, at + 16, 0) == Some(([], at + 16));
  }

  lemma Assemble(r: Bytes, qs: seq<Question>, mid: nat, rs: seq<Record>)
    requires |r| >= 12 && U16At(r, 8) == 0 && U16At(r, 10) == 0
    requires DecodeQuestions(r, 12, U16At(r, 4)) == Some((qs, mid))
    requires DecodeRecords(r, mid, U16At(r, 6)) == Some((rs, |r|))
    ensures DecodeMessage(r) == Some(Message(U16At(r, 0), U16At(r, 2), qs, rs))
  {
  }

  lemma OneQuestion(r: Bytes, labels: Name, qEnd: nat)
    requires DecodeName(r, 12, 12) == Some((labels, qEnd)) && qEnd + 4 <= |r|
    ensures DecodeQuestions(r, 12, 1) == Some(([Question(labels, U16At(r, qEnd), U16At(r, qEnd + 2))], qEnd + 4))
  {
    var q := Question(labels, U16At(r, qEnd), U16At(r, qEnd + 2));
    assert DecodeQuestions(r, qEnd + 4, 0) == Some(([], qEnd + 4));
    assert [q] + [] == [q];
  }

  /** A one-question datagram that serveDNS accepts is answered by a message that
      reads back with the same ID and question, and with one A record of the
      registered address exactly when the name is known and the type is A or ANY. */
  lemma ResponseDecodes(req: Bytes, labels: Name, qEnd: nat, ip: Bytes, found: bool)
    requires ScanName(req, 12) == Ok((labels, qEnd)) && 12 <= qEnd && qEnd + 4 <= |req|
    requires U16At(req, 4) == 1
    ensures var qtype := U16At(req, qEnd); var known := found && To4(ip).Some?;
            DecodeMessage(Response(req, qEnd, qtype, ip, found))
            == Some(Message(U16At(req, 0), if known then 0x8180 else 0x8183,
                            [Question(labels, qtype, U16At(req, qEnd + 2))],
                            if known && (qtype == 1 || qtype == 255) then [Record(labels, 1, 1, 30, To4(ip).value)] else []))
  {
    var qtype := U16At(req, qEnd);
    var r := Response(req, qEnd, qtype, ip, found);
    ResponseHeader(req, qEnd, qtype, ip, found);
    DecodeResponseQuestion(req, labels, qEnd, r);
    OneQuestion(r, labels, qEnd);
    var qs := [Question(labels, qtype, U16At(req, qEnd + 2))];
    if Resolves(ip, found, qtype) {
      DecodeResponseRecord(r, qEnd + 4, labels, qEnd, To4(ip).value);
      Assemble(r, qs, qEnd + 4, [Record(labels, 1, 1, 30, To4(ip).value)]);
    } else {
      assert DecodeRecords(r, qEnd + 4, 0) == Some(([], |r|));
      Assemble(r, qs, qEnd + 4, []);
    }
  }

  // What a client sends: a header with one question, and anything behind the question.
  predicate IsQuery(pre: Bytes, labels: Name, post: Bytes) {
    IsName(labels) && |pre| == 12 && U16At(pre, 4) == 1 && |post| >= 4
  }

  /** What serveDNS answers to any such query, written out in the records themselves: the
      address, for A and ANY; nothing for another type; and a name error for a name that
      no record has. */
  lemma ServeAnswers(records: Records, pre: Bytes, labels: Name, post: Bytes)
    requires IsQuery(pre, labels, post)
    ensures var key, qtype := Normalize(Dotted(labels)), U16At(post, 0);
            var resp := Serve(records, pre + EncodeName(labels) + post);
            && resp.Some?
            && DecodeMessage(resp.value) == Some(
                 Message(U16At(pre, 0), if key in records then 0x8180 else 0x8183, [Question(labels, qtype, U16At(post, 2))],
                         if key in records && (qtype == 1 || qtype == 255) then [Record(labels, 1, 1, 30, records[key])] else []))
  {
    var packet, qEnd := pre + EncodeName(labels) + post, 12 + |EncodeName(labels)|;
    var key := Normalize(Dotted(labels));
    ScanInvertsEncode(pre, labels, post);
    assert U16At(packet, qEnd) == U16At(post, 0) && U16At(packet, qEnd + 2) == U16At(post, 2);
    assert U16At(packet, 4) == 1 && U16At(packet, 0) == U16At(pre, 0);
    if key in records {
      ResponseDecodes(packet, labels, qEnd, records[key], true);
    } else {
      ResponseDecodes(packet, labels, qEnd, [], false);
    }
  }

  // The datagram asks for this name, with room for a type and a class behind it.
  predicate AsksFor(packet: Bytes, labels: Name, size: nat) {
    IsName(labels) && 12 + size + 4 <= |packet| && packet[12..12 + size] == EncodeName(labels)
  }

  /** Exactly the datagrams that ask for no name, cut short or compressed, get no response. */
  lemma ServeIgnores(records: Records, packet: Bytes)
    ensures Serve(records, packet).Some? <==> exists labels, size :: AsksFor(packet, labels, size)
  {
    if labels, size :| AsksFor(packet, labels, size) {
      ScansTo(packet, labels, size);
    }
    if Serve(records, packet).Some? {
      var (labels, end) := ScanName(packet, 12).value;
      ScanAcceptsOnlyEncodings(packet, 12);
      assert AsksFor(packet, labels, end - 12);
    }
  }

  lemma ScansTo(packet: Bytes, labels: Name, k: nat)
    requires IsName(labels) && 12 + k <= |packet| && packet[12..12 + k] == EncodeName(labels)
    ensures ScanName(packet, 12) == Ok((labels, 12 + k))
  {
    ThreeParts(packet, 12, 12 + k);
    ScanInvertsEncode(packet[..12], labels, packet[12 + k..]);
  }

  /** From registration to resolution: after a target is assigned its name, any
      well-formed query for that name is answered with the target's address. */
  lemma RegisteredTargetResolves(records: Records, target: string, suffix: string, ip: IPv4,
                                 pre: Bytes, labels: Name, qtype: nat, post: Bytes)
    requires IsQuery(pre, labels, post) && U16At(post, 0) == qtype
    requires qtype == 1 || qtype == 255
    requires Normalize(Dotted(labels)) == Normalize(Assign(records, target, suffix, ip).0)
    ensures var table := Assign(records, target, suffix, ip).1;
            var resp := Serve(table, pre + EncodeName(labels) + post);
            && resp.Some? && DecodeMessage(resp.value).Some?
            && DecodeMessage(resp.value).value.answers == [Record(labels, 1, 1, 30, ip)]
  {
    ServeAnswers(Assign(records, target, suffix, ip).1, pre, labels, post);
  }

  // ----- which names can be asked for

  // The limits of section 3.1 of RFC 1035: labels of 1 to 63 bytes, 255 bytes in all.  A
  // question about such a name is far shorter than the datagrams the server reads.
  predicate InLimits(labels: Name) { IsName(labels) && |EncodeName(labels)| <= 255 }

  // Some query name spells the name, up to normalisation.
  ghost predicate Queryable(name: string) {
    exists labels: Name :: InLimits(labels) && Normalize(Dotted(labels)) == Normalize(name)
  }

  lemma DottedFront(labels: Name)
    requires |labels| > 1
    ensures Dotted(labels) == LabelText(labels[0]) + "." + Dotted(labels[1..])
  {
    var texts := seq(|labels|, i requires 0 <= i < |labels| => LabelText(labels[i]));
    assert texts[1..] == seq(|labels| - 1, i requires 0 <= i < |labels| - 1 => LabelText(labels[1..][i]));
  }

  // No 64 characters of a query name are without a dot.
  lemma {:induction false} DotWithin(labels: Name, i: nat) returns (j: nat)
    requires IsName(labels) && i + 64 <= |Dotted(labels)|
    ensures i <= j < i + 64 && Dotted(labels)[j] == '.'
    decreases |labels|
  {
    if |labels| > 1 {
      var first := |LabelText(labels[0])|;
      DottedFront(labels);
      if i <= first {
        j := first;
      } else {
        j := DotWithin(labels[1..], i - first - 1);
        j := j + first + 1;
      }
    } else {
      DottedOne(labels);
    }
  }

  lemma DottedOne(labels: Name)
    requires IsName(labels) && |labels| <= 1
    ensures |Dotted(labels)| <= 63
  {
    if labels != [] {
      assert Dotted(labels) == LabelText(labels[0]);
    }
  }

  lemma NormalizeIsSlice(s: string) returns (i: nat)
    ensures i + |Normalize(s)| <= |s|
    ensures forall x :: 0 <= x < |Normalize(s)| ==> Normalize(s)[x] == Text.LowerChar(s[i + x])
  {
    var a, b := Text.TrimIsSlice(s, Text.Space);
    var c, d := Text.TrimIsSlice(s[a..b], {'.'});
    Text.SliceOfSlice(s, a, b, c, d);
    i := a + c;
  }

  lemma CandidateHasNoDot(prefix: string, k: nat)
    requires LabelShaped(prefix)
    ensures forall x :: 0 <= x < |Candidate(prefix, k)| ==> Alnum(Candidate(prefix, k)[x]) || Candidate(prefix, k)[x] == '-'
  {
    ItoaDigits(k);
  }

  lemma LongCandidate(prefix: string, k: nat, suffix: string, labels: Name)
    requires LabelShaped(prefix) && |Candidate(prefix, k)| > 63 && IsName(labels)
    ensures Normalize(Dotted(labels)) != Key(prefix, k, suffix)
  {
    var c, d := Candidate(prefix, k), Dotted(labels);
    if Normalize(d) == Key(prefix, k, suffix) {
      CandidateSettled(prefix, k);
      NormalizeKeepsCandidate(c, suffix);
      CandidateHasNoDot(prefix, k);
      var i := NormalizeIsSlice(d);
      forall y: int | i <= y < i + 64 ensures d[y] != '.' {
        assert Normalize(d)[y - i] == c[y - i];
      }
      var j := DotWithin(labels, i);
    }
  }

  function BytesOf(text: string): (raw: Bytes)
    requires forall i :: 0 <= i < |text| ==> text[i] < 128 as char
    ensures LabelText(raw) == text && |raw| == |text|
  {
    seq(|text|, i requires 0 <= i < |text| => text[i] as int as byte)
  }

  lemma {:induction false} EncodedLength(labels: Name)
    requires IsName(labels) && labels != []
    ensures |EncodeName(labels)| == |Dotted(labels)| + 2
  {
    if |labels| > 1 {
      EncodedLength(labels[1..]);
      DottedFront(labels);
    } else {
      assert Dotted(labels) == LabelText(labels[0]) && EncodeName(labels[1..]) == [0];
    }
  }

  // Normalisation takes nothing from its end.
  predicate Trimmed(text: string) { text != [] && text[|text| - 1] !in Text.Space && text[|text| - 1] != '.' }

  lemma TrimmedTail(suffix: string)
    requires Trimmed(suffix)
    ensures |Tail(suffix)| == |suffix| + 1
  {
    var s := "." + suffix;
    assert s[|s| - 1] == suffix[|suffix| - 1];
  }

  predicate Fits(c: string, suffix: Name)
    requires IsName(suffix)
  {
    |c| <= 63 && 1 + |c| + |EncodeName(suffix)| <= 255
  }

  lemma FittingIsQueryable(prefix: string, k: nat, suffix: Name)
    requires LabelShaped(prefix) && IsName(suffix) && suffix != [] && Fits(Candidate(prefix, k), suffix)
    ensures Queryable(Domain.Name(prefix, k, Dotted(suffix)))
  {
    var c := Candidate(prefix, k);
    CandidateSettled(prefix, k);
    CandidateHasNoDot(prefix, k);
    var labels := [BytesOf(c)] + suffix;
    assert IsName(labels) && labels[1..] == suffix;
    DottedFront(labels);
    assert Dotted(labels) == Domain.Name(prefix, k, Dotted(suffix)) && InLimits(labels);
  }

  lemma InLimitsIsShort(labels: Name)
    requires InLimits(labels)
    ensures |Normalize(Dotted(labels))| <= 253
  {
    var i := NormalizeIsSlice(Dotted(labels));
    if labels == [] {
      assert Dotted(labels) == [];
    } else {
      EncodedLength(labels);
    }
  }

  lemma KeyLength(prefix: string, k: nat, text: string)
    requires LabelShaped(prefix) && Trimmed(text)
    ensures |Key(prefix, k, text)| == |Candidate(prefix, k)| + 1 + |text|
  {
    CandidateSettled(prefix, k);
    NormalizeKeepsCandidate(Candidate(prefix, k), text);
    TrimmedTail(text);
  }

  lemma QueryableFits(prefix: string, k: nat, suffix: Name)
    requires LabelShaped(prefix) && IsName(suffix) && suffix != [] && Queryable(Domain.Name(prefix, k, Dotted(suffix)))
    ensures |Candidate(prefix, k)| <= 63
    ensures Trimmed(Dotted(suffix)) ==> Fits(Candidate(prefix, k), suffix)
  {
    var text := Dotted(suffix);
    var labels: Name :| InLimits(labels) && Normalize(Dotted(labels)) == Key(prefix, k, text);
    if |Candidate(prefix, k)| > 63 {
      LongCandidate(prefix, k, text, labels);
    }
    if Trimmed(text) {
      KeyLength(prefix, k, text);
      InLimitsIsShort(labels);
      EncodedLength(suffix);
    }
  }

  /** A candidate name can be asked for only if its first label has at most 63 bytes, and
      under a suffix of such labels, normalised as the manager keeps it, if and only if
      the whole name has at most 255 bytes besides. */
  lemma QueryableIff(prefix: string, k: nat, suffix: Name)
    requires LabelShaped(prefix) && IsName(suffix) && suffix != []
    ensures var name := Domain.Name(prefix, k, Dotted(suffix));
            && (Queryable(name) ==> |Candidate(prefix, k)| <= 63)
            && (Fits(Candidate(prefix, k), suffix) ==> Queryable(name))
            && (Trimmed(Dotted(suffix)) ==> (Queryable(name) <==> Fits(Candidate(prefix, k), suffix)))
  {
    var name := Domain.Name(prefix, k, Dotted(suffix));
    if Queryable(name) {
      QueryableFits(prefix, k, suffix);
    }
    if Fits(Candidate(prefix, k), suffix) {
      FittingIsQueryable(prefix, k, suffix);
    }
  }

  /** So the name a target is given resolves for somebody exactly when it fits:
      RegisterTarget does not shorten it. */
  lemma AssignedNameIsQueryableIff(records: Records, target: string, suffix: Name, ip: IPv4)
    requires IsName(suffix) && suffix != []
    ensures var text := Dotted(suffix);
            var name, c := Assign(records, target, text, ip).0, Candidate(Prefix(target), Free(records, target, text));
            && (Queryable(name) ==> |c| <= 63)
            && (Trimmed(text) ==> (Queryable(name) <==> Fits(c, suffix)))
  {
    PrefixIsLabelShaped(target);
    QueryableIff(Prefix(target), Free(records, target, Dotted(suffix)), suffix);
  }

  /** A host of 64 letters gets a name no query can carry. */
  lemma LongHostIsNotQueryable(target: string, suffix: Name, ip: IPv4)
    requires |target| >= 64 && (forall i :: 0 <= i < |target| ==> target[i] == 'a') && IsName(suffix) && suffix != []
    ensures var name := Assign(map[], target, Dotted(suffix), ip).0;
            name == target + "." + Dotted(suffix) && !Queryable(name)
  {
    PlainTargetIsPrefix(target);
    AssignedNameIsQueryableIff(map[], target, suffix, ip);
  }
}
