// The DNS codec of tui/internal/tun/dns.go: a query parser, a response printer and an answer parser over raw
// packets (RFC 1035, sections 4.1.1 to 4.1.4; AAAA records from RFC 3596, sections 2.1 and 2.2).
module Dns {
  import opened Options

  type Byte = x: int | 0 <= x < 256
  type Packet = seq<Byte>
  type Label = seq<Byte>

  // An address in either Go form: four bytes, sixteen bytes, or (invalid) anything else.
  type Address = seq<Byte>

  const QTYPE_A := 1
  const QTYPE_AAAA := 28
  const HEADER := 12
  const COMPRESSED := 0xC0  // both top bits of a length byte are set exactly from here on

  datatype Error = TooShort | QuestionCount | NameOverruns | CompressedName | LabelOverruns | QuestionOverruns | NoAnswers

  datatype Result<+T> = Ok(value: T) | Err(error: Error)

  datatype Query = Query(id: int, flags: int, anCount: int, name: seq<Byte>, qtype: int, questionEnd: nat)

  function U16(p: Packet, off: nat): (v: int)
    requires off + 2 <= |p|
    ensures 0 <= v < 0x1_0000
  {
    p[off] as int * 256 + p[off + 1]
  }

  function Bytes2(v: int): (p: Packet)
    requires 0 <= v < 0x1_0000
    ensures |p| == 2 && U16(p, 0) == v
  {
    [v / 256, v % 256]
  }

  function Bytes4(v: int): (p: Packet)
    requires 0 <= v < 0x1_0000_0000
    ensures |p| == 4
  {
    Bytes2(v / 0x1_0000) + Bytes2(v % 0x1_0000)
  }

  // ---- Names ----

  predicate Legal(labels: seq<Label>) { forall l | l in labels :: 0 < |l| < COMPRESSED }

  function EncodeName(labels: seq<Label>): (p: Packet)
    requires Legal(labels)
    ensures p != []
  {
    if labels == [] then [0] else [|labels[0]|] + labels[0] + EncodeName(labels[1..])
  }

  function Join(labels: seq<Label>): seq<Byte> {
    if labels == [] then []
    else if |labels| == 1 then labels[0]
    else Join(labels[..|labels| - 1]) + ['.' as int] + labels[|labels| - 1]
  }

  function Prepend(labels: seq<Label>, rest: Result<seq<Label>>): Result<seq<Label>> {
    match rest case Ok(more) => Ok(labels + more) case Err(e) => Err(e)
  }

  // The uncompressed name at off, or why there is none.
  function ReadName(p: Packet, off: nat): Result<seq<Label>>
    decreases |p| - off
  {
    if off >= |p| then Err(NameOverruns)
    else if p[off] == 0 then Ok([])
    else if p[off] >= COMPRESSED then Err(CompressedName)
    else if off + 1 + p[off] > |p| then Err(LabelOverruns)
    else Prepend([p[off + 1..off + 1 + p[off]]], ReadName(p, off + 1 + p[off]))
  }

  ghost predicate NameAt(p: Packet, off: nat, labels: seq<Label>) {
    Legal(labels) && off <= |p| && EncodeName(labels) <= p[off..]
  }

  // The first label and the rest of the name, as they lie in the packet.
  lemma FirstLabel(p: Packet, off: nat, labels: seq<Label>)
    requires NameAt(p, off, labels) && labels != []
    ensures var next := off + 1 + |labels[0]|;
            && off < |p| && next <= |p| && p[off] == |labels[0]| && p[off + 1..next] == labels[0]
            && NameAt(p, next, labels[1..]) && 0 < |labels[0]| < COMPRESSED
  {
    var e, next := EncodeName(labels), off + 1 + |labels[0]|;
    assert e == [|labels[0]|] + labels[0] + EncodeName(labels[1..]);
    hide EncodeName;
    SplitPrefix(p[off..], [|labels[0]|], labels[0], EncodeName(labels[1..]));
    assert p[off..][1..1 + |labels[0]|] == p[off + 1..next] && p[off..][1 + |labels[0]|..] == p[next..];
  }

  lemma SplitPrefix(p: Packet, a: Packet, b: Packet, c: Packet)
    requires a + b + c <= p
    ensures a <= p && p[|a|..|a| + |b|] == b && c <= p[|a| + |b|..]
  {
    assert (a + b + c)[|a|..|a| + |b|] == b && (a + b + c)[|a| + |b|..] == c;
  }

  lemma {:induction false} EncodedNameReads(p: Packet, off: nat, labels: seq<Label>)
    requires NameAt(p, off, labels)
    ensures ReadName(p, off) == Ok(labels)
    decreases |labels|
  {
    if labels == [] {
      assert p[off..][0] == 0;
    } else {
      hide NameAt, EncodeName;
      FirstLabel(p, off, labels);
      EncodedNameReads(p, off + 1 + |labels[0]|, labels[1..]);
      assert labels == [labels[0]] + labels[1..];
    }
  }

  lemma {:induction false} ReadNameIsEncoded(p: Packet, off: nat)
    requires ReadName(p, off).Ok?
    ensures NameAt(p, off, ReadName(p, off).value)
    decreases |p| - off
  {
    if p[off] != 0 {
      var next := off + 1 + p[off];
      ReadNameIsEncoded(p, next);
      var labels := ReadName(p, off).value;
      assert labels[1..] == ReadName(p, next).value;
      assert p[off..] == [p[off]] + p[off + 1..next] + p[next..];
    }
  }

  // The parser reads back exactly the names that the encoding of some legal labels produces.
  lemma ReadNameInvertsEncodeName(p: Packet, off: nat, labels: seq<Label>)
    ensures ReadName(p, off) == Ok(labels) <==> NameAt(p, off, labels)
  {
    if ReadName(p, off) == Ok(labels) {
      ReadNameIsEncoded(p, off);
    } else if NameAt(p, off, labels) {
      EncodedNameReads(p, off, labels);
    }
  }

  // ---- The query parser ----

  function ParsedQuery(p: Packet): Result<Query> {
    if |p| < HEADER then Err(TooShort)
    else if U16(p, 4) != 1 then Err(QuestionCount)
    else
      match ReadName(p, HEADER)
      case Err(e) => Err(e)
      case Ok(labels) =>
        var off := HEADER + NameLength(labels);
        if off + 4 > |p| then Err(QuestionOverruns)
        else Ok(Query(U16(p, 0), U16(p, 2), U16(p, 6), Join(labels), U16(p, off), off + 4))
  }

  // The bytes a name takes on the wire.
  function NameLength(labels: seq<Label>): (n: nat)
    ensures 1 <= n
    ensures Legal(labels) ==> n == |EncodeName(labels)|
  {
    if labels == [] then 1 else 1 + |labels[0]| + NameLength(labels[1..])
  }

  lemma PrependAll(done: seq<Label>, piece: Label, rest: Result<seq<Label>>)
    ensures Prepend(done, Prepend([piece], rest)) == Prepend(done + [piece], rest)
  {
    if rest.Ok? { assert done + ([piece] + rest.value) == done + [piece] + rest.value; }
  }

  lemma PrependNone(rest: Result<seq<Label>>)
    ensures Prepend([], rest) == rest
  {
    if rest.Ok? { assert [] + rest.value == rest.value; }
  }

  lemma PrependAllDone(labels: seq<Label>)
    ensures Prepend(labels, Ok([])) == Ok(labels)
    ensures forall e :: Prepend(labels, Err(e)) == Err(e)
  {
    assert labels + [] == labels;
  }

  lemma {:induction false} NameLengthAppends(labels: seq<Label>, piece: Label)
    ensures NameLength(labels + [piece]) == NameLength(labels) + 1 + |piece|
  {
    if labels == [] {
      assert (labels + [piece])[1..] == [];
    } else {
      NameLengthAppends(labels[1..], piece);
      assert (labels + [piece])[1..] == labels[1..] + [piece];
    }
  }

  // A query is accepted exactly when its header counts one question and that question is the encoding of a
  // legal name followed by a type and a class; what follows the question is ignored.
  lemma QueryAcceptedExactlyWhenWellFormed(p: Packet)
    ensures ParsedQuery(p).Ok? <==>
              && |p| >= HEADER && U16(p, 4) == 1
              && exists labels :: NameAt(p, HEADER, labels) && HEADER + NameLength(labels) + 4 <= |p|
    ensures forall labels | ParsedQuery(p).Ok? && NameAt(p, HEADER, labels) ::
              var q := ParsedQuery(p).value;
              && q.name == Join(labels) && q.questionEnd == HEADER + NameLength(labels) + 4
              && q.qtype == U16(p, q.questionEnd - 4)
  {
    forall labels ensures NameAt(p, HEADER, labels) <==> ReadName(p, HEADER) == Ok(labels) {
      ReadNameInvertsEncodeName(p, HEADER, labels);
    }
    if ParsedQuery(p).Ok? {
      assert NameAt(p, HEADER, ReadName(p, HEADER).value);
    }
  }

  lemma OneMoreLabel(p: Packet, labels: seq<Label>, off: nat)
    requires off < |p| && 0 < p[off] < COMPRESSED && off + 1 + p[off] <= |p|
    ensures var next := off + 1 + p[off];
            && Prepend(labels, ReadName(p, off)) == Prepend(labels + [p[off + 1..next]], ReadName(p, next))
            && NameLength(labels + [p[off + 1..next]]) == NameLength(labels) + next - off
  {
    var next := off + 1 + p[off];
    PrependAll(labels, p[off + 1..next], ReadName(p, next));
    NameLengthAppends(labels, p[off + 1..next]);
  }

  // The loop over the labels; end is the offset after the name.
  method ReadLabels(pkt: Packet) returns (r: Result<seq<Label>>, end: nat)
    requires |pkt| >= HEADER
    ensures r == ReadName(pkt, HEADER)
    ensures r.Ok? ==> end == HEADER + NameLength(r.value)
  {
    hide EncodeName;
    hide Prepend;
    var off := 12;
    var labels: seq<Label> := [];
    PrependNone(ReadName(pkt, HEADER));
    while true
      invariant HEADER <= off <= |pkt|
      invariant ReadName(pkt, HEADER) == Prepend(labels, ReadName(pkt, off))
      invariant off == HEADER + NameLength(labels) - 1
      decreases |pkt| - off
    {
      PrependAllDone(labels);
      if off >= |pkt| {
        return Err(NameOverruns), 0;
      }
      var l := pkt[off];
      if l == 0 {
        return Ok(labels), off + 1;
      }
      if l >= COMPRESSED {
        return Err(CompressedName), 0;
      }
      if off + 1 + l > |pkt| {
        return Err(LabelOverruns), 0;
      }
      off := off + 1;
      OneMoreLabel(pkt, labels, off - 1);
      labels := labels + [pkt[off..off + l]];
      off := off + l;
    }
  }

  method ParseQueryWithEnd(pkt: Packet) returns (r: Result<Query>)
    ensures r == ParsedQuery(pkt)
  {
    if |pkt| < 12 {
      return Err(TooShort);
    }
    var id, flags, qdCount, anCount := U16(pkt, 0), U16(pkt, 2), U16(pkt, 4), U16(pkt, 6);
    if qdCount != 1 {
      return Err(QuestionCount);
    }
    var labels, off := ReadLabels(pkt);
    if labels.Err? {
      return Err(labels.error);
    }
    if off + 4 > |pkt| {
      return Err(QuestionOverruns);
    }
    return Ok(Query(id, flags, anCount, Join(labels.value), U16(pkt, off), off + 4));
  }

  // ---- Addresses ----

  const V4_IN_V6: Packet := [0, 0, 0, 0, 0, 0, 0, 0, 0, 0, 255, 255]

  function To4(ip: Address): (r: Option<Address>)
    ensures r.Some? ==> |r.value| == 4
  {
    if |ip| == 4 then Some(ip)
    else if |ip| == 16 && V4_IN_V6 <= ip then Some(ip[12..])
    else None
  }

  function To16(ip: Address): (r: Option<Address>)
    ensures r.Some? ==> |r.value| == 16
  {
    if |ip| == 4 then Some(V4_IN_V6 + ip) else if |ip| == 16 then Some(ip) else None
  }

  // The address has a form that fits a record.
  predicate Usable(ip: Address) { To4(ip).Some? || To16(ip).Some? }

  predicate Matches(qtype: int, ip: Address) {
    || (qtype == QTYPE_A && To4(ip).Some?)
    || (qtype == QTYPE_AAAA && To4(ip).None? && To16(ip).Some?)
  }

  function Matching(qtype: int, ips: seq<Address>): (r: seq<Address>)
    ensures |r| <= |ips|
  {
    if ips == [] then [] else (if Matches(qtype, ips[0]) then [ips[0]] else []) + Matching(qtype, ips[1..])
  }

  lemma MatchingAreUsable(qtype: int, ips: seq<Address>)
    ensures forall ip | ip in Matching(qtype, ips) :: Usable(ip)
  {
  }

  // The bytes an address takes in a record: none when it has neither form.
  function Rdata(ip: Address): (r: Address)
    ensures To4(ip).Some? ==> |r| == 4
    ensures To4(ip).None? && To16(ip).Some? ==> |r| == 16
    ensures |r| <= 16
  {
    if To4(ip).Some? then To4(ip).value else if To16(ip).Some? then To16(ip).value else []
  }

  function Rdatas(ips: seq<Address>): (r: seq<Address>)
    ensures |r| == |ips|
  {
    if ips == [] then [] else [Rdata(ips[0])] + Rdatas(ips[1..])
  }

  // ---- The response printer ----

  // QR and RA set, opcode and RD copied, RCODE 3 (NXDOMAIN) when there is nothing to answer.
  function ResponseFlags(flags: int, empty: bool): (r: int)
    requires 0 <= flags < 0x1_0000
    ensures 0 <= r < 0x1_0000
  {
    0x8000 + 0x0080 + flags / 0x100 % 2 * 0x100 + flags / 0x800 % 16 * 0x800 + (if empty then 3 else 0)
  }

  function Record(ip: Address, ttl: int): (p: Packet)
    requires 0 <= ttl < 0x1_0000_0000
    ensures |p| == 12 + |Rdata(ip)|
  {
    [0xC0, 0x0C] + Bytes2(if To4(ip).Some? then QTYPE_A else QTYPE_AAAA) + Bytes2(1)
    + Bytes4(ttl) + Bytes2(|Rdata(ip)|) + Rdata(ip)
  }

  function Records(ips: seq<Address>, ttl: int): Packet
    requires 0 <= ttl < 0x1_0000_0000
  {
    if ips == [] then [] else Record(ips[0], ttl) + Records(ips[1..], ttl)
  }

  function ResponseHeader(query: Packet, answers: nat): (p: Packet)
    requires |query| >= HEADER
    ensures |p| == HEADER
  {
    query[0..2] + Bytes2(ResponseFlags(U16(query, 2), answers == 0)) + query[4..6]
    + Bytes2(answers % 0x1_0000) + [0, 0, 0, 0]
  }

  function Response(query: Packet, ips: seq<Address>, ttl: int): Result<Packet>
    requires 0 <= ttl < 0x1_0000_0000
  {
    match ParsedQuery(query)
    case Err(e) => Err(e)
    case Ok(q) =>
      var answers := Matching(q.qtype, ips);
      Ok(ResponseHeader(query, |answers|) + query[HEADER..q.questionEnd] + Records(answers, ttl))
  }

  function PutU16(p: Packet, off: nat, v: int): (r: Packet)
    requires off + 2 <= |p| && 0 <= v < 0x1_0000
    ensures |r| == |p| && r == p[..off] + Bytes2(v) + p[off + 2..]
  {
    p[off := v / 256][off + 1 := v % 256]
  }

  // The loop that keeps the addresses of the queried family.
  method FilterAddresses(qtype: int, ips: seq<Address>) returns (filtered: seq<Address>)
    ensures filtered == Matching(qtype, ips)
  {
    filtered := [];
    for i := 0 to |ips|
      invariant Matching(qtype, ips) == filtered + Matching(qtype, ips[i..])
    {
      assert ips[i..][1..] == ips[i + 1..];
      if Matches(qtype, ips[i]) {
        filtered := filtered + [ips[i]];
      }
    }
  }

  lemma Reassociate(a: Packet, b: Packet, c: Packet)
    ensures a + (b + c) == (a + b) + c
  {
  }

  // The loop that appends one record per address.
  method AppendRecords(start: Packet, ips: seq<Address>, ttl: int) returns (resp: Packet)
    requires 0 <= ttl < 0x1_0000_0000
    ensures resp == start + Records(ips, ttl)
  {
    resp := start;
    for i := 0 to |ips|
      invariant start + Records(ips, ttl) == resp + Records(ips[i..], ttl)
    {
      hide Record, To4, To16;
      assert ips[i..][1..] == ips[i + 1..];
      Reassociate(resp, Record(ips[i], ttl), Records(ips[i + 1..], ttl));
      resp := AppendRecord(resp, ips[i], ttl);
    }
  }

  method AppendRecord(start: Packet, ip: Address, ttl: int) returns (resp: Packet)
    requires 0 <= ttl < 0x1_0000_0000
    ensures resp == start + Record(ip, ttl)
  {
    resp := start + [0xC0, 0x0C];
    var typ, rdata := QTYPE_A, [];
    if To4(ip).Some? {
      rdata := To4(ip).value;
    } else {
      typ := QTYPE_AAAA;
      rdata := if To16(ip).Some? then To16(ip).value else [];
    }
    var rr := Bytes2(typ) + Bytes2(1) + Bytes4(ttl) + Bytes2(|rdata|);
    resp := resp + rr;
    resp := resp + rdata;
  }

  // The header and question, patched in place in the copied prefix of the query.
  method CopyQuestion(query: Packet, q: Query, answers: nat) returns (resp: Packet)
    requires ParsedQuery(query) == Ok(q)
    ensures resp == ResponseHeader(query, answers) + query[HEADER..q.questionEnd]
  {
    resp := query[..12];
    resp := PutU16(resp, 2, ResponseFlags(q.flags, answers == 0));
    resp := resp + query[12..q.questionEnd];
    resp := PutU16(resp, 8, 0);
    resp := PutU16(resp, 10, 0);
    if answers == 0 {
      resp := PutU16(resp, 6, 0);
    } else {
      resp := PutU16(resp, 6, answers % 0x1_0000);
    }
    assert resp[..12] == ResponseHeader(query, answers);
    assert resp[12..] == query[12..q.questionEnd];
  }

  method BuildResponse(query: Packet, ips: seq<Address>, ttl: int) returns (r: Result<Packet>)
    requires 0 <= ttl < 0x1_0000_0000
    ensures r == Response(query, ips, ttl)
  {
    var parsed := ParseQueryWithEnd(query);
    if parsed.Err? {
      return Err(parsed.error);
    }
    var filtered := FilterAddresses(parsed.value.qtype, ips);
    var resp := CopyQuestion(query, parsed.value, |filtered|);
    if |filtered| == 0 {
      assert resp + Records([], ttl) == resp;
      return Ok(resp);
    }
    resp := AppendRecords(resp, filtered, ttl);
    return Ok(resp);
  }

  // ---- The answer parser ----

  // The offset after the name of the question.
  function AfterQuestionName(p: Packet, off: nat): Option<nat>
    decreases |p| - off
  {
    if off >= |p| then None
    else if p[off] == 0 then Some(off + 1)
    else if p[off] >= COMPRESSED then Some(off + 2)
    else AfterQuestionName(p, off + 1 + p[off])
  }

  // The offset of the zero byte that ends an uncompressed owner name, or past the packet.
  function AfterLabels(p: Packet, off: nat): (end: nat)
    ensures off <= end
    decreases |p| - off
  {
    if off < |p| && p[off] != 0 then AfterLabels(p, off + p[off] + 1) else off
  }

  function AfterOwner(p: Packet, off: nat): (end: nat)
    requires off < |p|
    ensures off < end
  {
    if p[off] >= COMPRESSED then off + 2 else AfterLabels(p, off) + 1
  }

  // The address a record carries, if any, and the offset behind the record; None when it overruns the packet.
  function NextRecord(p: Packet, off: nat): Option<(seq<Address>, nat)>
    requires off < |p|
  {
    var body := AfterOwner(p, off);
    if body + 10 > |p| || body + 10 + U16(p, body + 8) > |p| then None
    else
      var typ, rdlen := U16(p, body), U16(p, body + 8);
      var next := body + 10 + rdlen;
      Some((if (typ == QTYPE_A && rdlen == 4) || (typ == QTYPE_AAAA && rdlen == 16) then [p[body + 10..next]] else [], next))
  }

  // The addresses of at most count records from off on, up to the first record that overruns the packet.
  function Answers(p: Packet, off: nat, count: nat): seq<Address>
    decreases count
  {
    if count == 0 || off + 10 > |p| then []
    else
      match NextRecord(p, off)
      case None => []
      case Some((found, next)) => found + Answers(p, next, count - 1)
  }

  function ParsedAnswers(p: Packet): Result<seq<Address>> {
    if |p| < HEADER then Err(TooShort)
    else
      match AfterQuestionName(p, HEADER)
      case None => Err(NameOverruns)
      case Some(end) =>
        var ips := Answers(p, end + 4, U16(p, 6));
        if ips == [] then Err(NoAnswers) else Ok(ips)
  }

  // The loop that skips the name of the question.
  method SkipQuestionName(pkt: Packet) returns (end: Option<nat>)
    ensures end == AfterQuestionName(pkt, HEADER)
  {
    var off: nat := 12;
    while true
      invariant AfterQuestionName(pkt, HEADER) == AfterQuestionName(pkt, off)
      decreases |pkt| - off
    {
      if off >= |pkt| {
        return None;
      }
      var l := pkt[off];
      off := off + 1;
      if l == 0 {
        return Some(off);
      }
      if l >= COMPRESSED {
        return Some(off + 1);
      }
      off := off + l;
    }
  }

  // The owner name of a record, compressed or not.
  method SkipOwner(pkt: Packet, start: nat) returns (off: nat)
    requires start < |pkt|
    ensures off == AfterOwner(pkt, start)
  {
    off := start;
    if pkt[off] >= COMPRESSED {
      return off + 2;
    }
    while off < |pkt| && pkt[off] != 0
      invariant AfterLabels(pkt, start) == AfterLabels(pkt, off)
      decreases |pkt| - off
    {
      off := off + pkt[off] + 1;
    }
    return off + 1;
  }

  // One round of the record loop.
  method ParseRecord(pkt: Packet, start: nat) returns (r: Option<(seq<Address>, nat)>)
    requires start < |pkt|
    ensures r == NextRecord(pkt, start)
  {
    var off := SkipOwner(pkt, start);
    if off + 10 > |pkt| {
      return None;
    }
    var typ, rdlen := U16(pkt, off), U16(pkt, off + 8);
    off := off + 10;
    if off + rdlen > |pkt| {
      return None;
    }
    var ips := [];
    if typ == QTYPE_A {
      if rdlen == 4 {
        ips := [pkt[off..off + 4]];
      }
    } else if typ == QTYPE_AAAA {
      if rdlen == 16 {
        ips := [pkt[off..off + 16]];
      }
    }
    return Some((ips, off + rdlen));
  }

  // The loop over the announced records.
  method ParseRecords(pkt: Packet, start: nat, anCount: nat) returns (ips: seq<Address>)
    ensures ips == Answers(pkt, start, anCount)
  {
    hide NextRecord;
    ips := [];
    var off: nat := start;
    var i := 0;
    ghost var rest := Answers(pkt, start, anCount);
    while i < anCount && off + 10 <= |pkt|
      invariant 0 <= i <= anCount
      invariant rest == Answers(pkt, off, anCount - i)
      invariant Answers(pkt, start, anCount) == ips + rest
      decreases anCount - i
    {
      var record := ParseRecord(pkt, off);
      if record.None? {
        break;
      }
      var (found, next) := record.value;
      ghost var all := ips + rest;
      rest := Answers(pkt, next, anCount - i - 1);
      ips := ips + found;
      assert all == ips + rest;
      off := next;
      i := i + 1;
    }
    assert rest == [];
  }

  method ParseAnswers(pkt: Packet) returns (r: Result<seq<Address>>)
    ensures r == ParsedAnswers(pkt)
  {
    if |pkt| < 12 {
      return Err(TooShort);
    }
    var question := SkipQuestionName(pkt);
    if question.None? {
      return Err(NameOverruns);
    }
    var ips := ParseRecords(pkt, question.value + 4, U16(pkt, 6));
    if |ips| == 0 {
      return Err(NoAnswers);
    }
    return Ok(ips);
  }

  // ---- The round trip ----

  // One printed record is read back as one address, and parsing goes on right behind it.
  lemma RecordReadsBack(head: Packet, ip: Address, ttl: int, tail: Packet, count: nat)
    requires 0 <= ttl < 0x1_0000_0000 && Usable(ip) && 0 < count
    ensures var before := head + Record(ip, ttl);
            Answers(before + tail, |head|, count) == [Rdata(ip)] + Answers(before + tail, |before|, count - 1)
  {
    var off, r, p := |head|, Record(ip, ttl), head + Record(ip, ttl) + tail;
    assert p[off..off + |r|] == r;
    assert p[off] == r[0] && p[off + 2] == r[2] && p[off + 3] == r[3] && p[off + 10] == r[10] && p[off + 11] == r[11];
    assert p[off + 12..off + 12 + |Rdata(ip)|] == p[off..off + |r|][12..] == r[12..] == Rdata(ip);
    assert U16(p, off + 2) == U16(Bytes2(if To4(ip).Some? then QTYPE_A else QTYPE_AAAA), 0);
    assert U16(p, off + 10) == U16(Bytes2(|Rdata(ip)|), 0);
    assert AfterOwner(p, off) == off + 2;
    assert NextRecord(p, off) == Some(([Rdata(ip)], off + |r|));
  }

  lemma TakeMore(a: Address, rest: seq<Address>, count: nat)
    requires 0 < count <= |rest| + 1
    ensures ([a] + rest)[..count] == [a] + rest[..count - 1]
  {
  }

  lemma {:induction false} RecordsReadBack(head: Packet, ips: seq<Address>, ttl: int, count: nat)
    requires 0 <= ttl < 0x1_0000_0000 && forall ip | ip in ips :: Usable(ip)
    requires count <= |ips|
    ensures Answers(head + Records(ips, ttl), |head|, count) == Rdatas(ips)[..count]
    decreases count
  {
    if 0 < count {
      hide Record, Answers, To4, To16, Rdata;
      var before, tail := head + Record(ips[0], ttl), Records(ips[1..], ttl);
      Reassociate(head, Record(ips[0], ttl), tail);
      RecordReadsBack(head, ips[0], ttl, tail, count);
      RecordsReadBack(before, ips[1..], ttl, count - 1);
      TakeMore(Rdata(ips[0]), Rdatas(ips[1..]), count);
    }
  }

  lemma {:induction false} SkippingFollowsReading(p: Packet, off: nat)
    requires ReadName(p, off).Ok?
    ensures AfterQuestionName(p, off) == Some(off + NameLength(ReadName(p, off).value))
    decreases |p| - off
  {
    hide EncodeName, Legal;
    if p[off] != 0 {
      var next := off + 1 + p[off];
      SkippingFollowsReading(p, next);
      assert ReadName(p, off).value[1..] == ReadName(p, next).value;
    }
  }

  // A name reads the same from any packet that agrees on its bytes.
  lemma NameMoves(query: Packet, resp: Packet, labels: seq<Label>)
    requires NameAt(query, HEADER, labels) && HEADER + |EncodeName(labels)| <= |resp|
    requires forall i | HEADER <= i < HEADER + |EncodeName(labels)| :: i < |query| && resp[i] == query[i]
    ensures NameAt(resp, HEADER, labels)
  {
    hide EncodeName, Legal;
    var e := EncodeName(labels);
    forall i | 0 <= i < |e| ensures e[i] == resp[HEADER..][i] {
      assert e[i] == query[HEADER..][i] == query[HEADER + i];
    }
  }

  lemma QuestionShape(query: Packet, q: Query, labels: seq<Label>)
    requires ParsedQuery(query) == Ok(q) && ReadName(query, HEADER) == Ok(labels)
    ensures NameAt(query, HEADER, labels)
    ensures q.questionEnd == HEADER + |EncodeName(labels)| + 4 <= |query| && q.qtype == U16(query, q.questionEnd - 4)
    ensures q.name == Join(labels) && U16(query, 4) == 1 && q.id == U16(query, 0) && q.flags == U16(query, 2)
  {
    hide ReadName, U16, Join, Legal;
    ReadNameInvertsEncodeName(query, HEADER, labels);
    hide EncodeName;
  }

  // And a packet in which that question follows the header parses to it.
  lemma ShapeParses(p: Packet, labels: seq<Label>)
    requires NameAt(p, HEADER, labels) && HEADER + |EncodeName(labels)| + 4 <= |p| && U16(p, 4) == 1
    ensures ReadName(p, HEADER) == Ok(labels)
    ensures var end := HEADER + |EncodeName(labels)| + 4;
            ParsedQuery(p) == Ok(Query(U16(p, 0), U16(p, 2), U16(p, 6), Join(labels), U16(p, end - 4), end))
  {
    hide ReadName, U16, Join, Legal;
    ReadNameInvertsEncodeName(p, HEADER, labels);
    hide EncodeName;
  }

  // A packet whose header was replaced and whose tail was cut and replaced keeps its middle.
  lemma MiddleIsKept(query: Packet, header: Packet, records: Packet, end: nat)
    requires |header| == HEADER <= end <= |query|
    ensures var resp := header + query[HEADER..end] + records;
            |resp| >= end && forall i | HEADER <= i < end :: resp[i] == query[i]
  {
  }

  lemma QuestionReadsBack(query: Packet, resp: Packet, end: nat, labels: seq<Label>)
    requires NameAt(query, HEADER, labels) && end == HEADER + |EncodeName(labels)| + 4 <= |query| && end <= |resp|
    requires forall i | HEADER <= i < end :: resp[i] == query[i]
    ensures NameAt(resp, HEADER, labels) && U16(resp, end - 4) == U16(query, end - 4)
  {
    hide EncodeName, NameAt;
    NameMoves(query, resp, labels);
  }

  // The response carries the query's question, whatever records follow: it parses to the same name, type and end,
  // with the identifier kept, the flags of a response and the answer count in the header.
  lemma ResponseKeepsQuestion(query: Packet, q: Query, answers: nat, records: Packet)
    requires ParsedQuery(query) == Ok(q)
    ensures ParsedQuery(ResponseHeader(query, answers) + query[HEADER..q.questionEnd] + records)
            == Ok(Query(q.id, ResponseFlags(q.flags, answers == 0), answers % 0x1_0000, q.name, q.qtype, q.questionEnd))
  {
    var labels := ReadName(query, HEADER).value;
    var resp := ResponseHeader(query, answers) + query[HEADER..q.questionEnd] + records;
    QuestionShape(query, q, labels);
    MiddleIsKept(query, ResponseHeader(query, answers), records, q.questionEnd);
    HeaderIsFirst(ResponseHeader(query, answers), query[HEADER..q.questionEnd], records);
    hide EncodeName, NameAt, ReadName, ParsedQuery, U16, Join, ResponseFlags, ResponseHeader;
    QuestionReadsBack(query, resp, q.questionEnd, labels);
    HeaderReadsBack(query, answers, resp);
    ShapeParses(resp, labels);
  }

  lemma HeaderIsFirst(header: Packet, question: Packet, records: Packet)
    ensures header <= header + question + records
  {
  }

  lemma HeaderReadsBack(query: Packet, answers: nat, resp: Packet)
    requires |query| >= HEADER && ResponseHeader(query, answers) <= resp
    ensures |resp| >= HEADER
    ensures U16(resp, 0) == U16(query, 0) && U16(resp, 2) == ResponseFlags(U16(query, 2), answers == 0)
    ensures U16(resp, 4) == U16(query, 4) && U16(resp, 6) == answers % 0x1_0000
    ensures U16(resp, 8) == 0 && U16(resp, 10) == 0
  {
    var h := ResponseHeader(query, answers);
    assert forall k | 0 <= k < HEADER :: resp[k] == h[k];
    assert h[0] == query[0] && h[1] == query[1] && h[4] == query[4] && h[5] == query[5];
    assert h[2..4] == Bytes2(ResponseFlags(U16(query, 2), answers == 0)) && h[6..8] == Bytes2(answers % 0x1_0000);
    assert h[2] == h[2..4][0] && h[3] == h[2..4][1] && h[6] == h[6..8][0] && h[7] == h[6..8][1];
    assert h[8] == 0 && h[9] == 0 && h[10] == 0 && h[11] == 0;
  }

  // The answer count as the header holds it.
  function WireCount(answers: nat): (count: nat)
    ensures count <= answers && count < 0x1_0000
    ensures answers < 0x1_0000 <==> count == answers
  {
    answers % 0x1_0000
  }

  function Truncated(addresses: seq<Address>, count: nat): Result<seq<Address>>
    requires count <= |addresses|
  {
    if count == 0 then Err(NoAnswers) else Ok(addresses[..count])
  }

  // Whatever addresses and accepted query a response is built from, parsing it returns the matching addresses,
  // in order, up to the 16-bit answer count; a count that wraps to zero reads as "no answers".
  lemma ResponseReadsBack(query: Packet, ips: seq<Address>, ttl: int)
    requires 0 <= ttl < 0x1_0000_0000 && ParsedQuery(query).Ok?
    ensures var answers := Matching(ParsedQuery(query).value.qtype, ips);
            var count := WireCount(|answers|);
            ParsedAnswers(Response(query, ips, ttl).value)
            == Truncated(Rdatas(answers), count)
  {
    hide To4, To16, ResponseFlags, Record, Records, Matches, Matching, Answers, Rdatas, ResponseHeader, U16, ReadName, AfterQuestionName,
         ParsedQuery;
    QuestionEnds(query);
    var q := ParsedQuery(query).value;
    var answers := Matching(q.qtype, ips);
    var count := WireCount(|answers|);
    var head := ResponseHeader(query, |answers|) + query[HEADER..q.questionEnd];
    var resp := head + Records(answers, ttl);
    ResponseKeepsQuestion(query, q, |answers|, Records(answers, ttl));
    QuestionIsSkipped(resp);
    MatchingAreUsable(q.qtype, ips);
    RecordsReadBack(head, answers, ttl, count);
  }

  lemma QuestionEnds(query: Packet)
    requires ParsedQuery(query).Ok?
    ensures HEADER < ParsedQuery(query).value.questionEnd <= |query|
  {
    hide ReadName, U16;
  }

  // The answer parser finds the records of a well-formed packet behind its question, and as many as it announces.
  lemma QuestionIsSkipped(p: Packet)
    requires ParsedQuery(p).Ok?
    ensures var q := ParsedQuery(p).value;
            |p| >= HEADER && AfterQuestionName(p, HEADER) == Some(q.questionEnd - 4) && U16(p, 6) == q.anCount
  {
    hide ReadName, AfterQuestionName, U16, NameLength, Join, EncodeName;
    SkippingFollowsReading(p, HEADER);
  }

  lemma TruncationIsHarmlessBelow64K(addresses: seq<Address>)
    ensures Truncated(addresses, WireCount(|addresses|)) == Truncated(addresses, |addresses|) <==> |addresses| < 0x1_0000
  {
    if |addresses| >= 0x1_0000 {
      var kept := WireCount(|addresses|);
      assert |addresses[..kept]| < |addresses[..|addresses|]|;
    }
  }

  // The promise of the codec: all matching addresses come back in order, and none as "no answers". It is kept
  // exactly when there are fewer than 65536 of them.
  lemma RoundTrip(query: Packet, ips: seq<Address>, ttl: int)
    requires 0 <= ttl < 0x1_0000_0000 && ParsedQuery(query).Ok?
    ensures var answers := Matching(ParsedQuery(query).value.qtype, ips);
            ParsedAnswers(Response(query, ips, ttl).value)
            == (if answers == [] then Err(NoAnswers) else Ok(Rdatas(answers)))
            <==> |answers| < 0x1_0000
  {
    var addresses := Rdatas(Matching(ParsedQuery(query).value.qtype, ips));
    ResponseReadsBack(query, ips, ttl);
    TruncationIsHarmlessBelow64K(addresses);
    assert addresses[..|addresses|] == addresses;
  }
}
