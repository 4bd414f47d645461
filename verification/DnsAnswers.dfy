// What the answer parser makes of any response: the addresses of exactly its address records, in order, whatever other
// records stand among them; and the fields of the records and headers the printer writes.
module DnsAnswers {
  import opened Options
  import opened Dns

  // ---- Records in general ----

  // An owner name as a resolver writes it: a pointer to an earlier name, or labels of its own.
  datatype Owner = Pointer(high: Byte, low: Byte) | Labels(labels: seq<Label>)

  datatype ResourceRecord = ResourceRecord(owner: Owner, rtype: int, rclass: int, ttl: int, data: Packet)

  predicate LegalOwner(o: Owner) { match o case Pointer(high, _) => COMPRESSED <= high case Labels(labels) => Legal(labels) }

  predicate LegalRecord(r: ResourceRecord) {
    && LegalOwner(r.owner) && 0 <= r.rtype < 0x1_0000 && 0 <= r.rclass < 0x1_0000 && 0 <= r.ttl < 0x1_0000_0000
    && |r.data| < 0x1_0000
  }

  function EncodeOwner(o: Owner): (p: Packet)
    requires LegalOwner(o)
    ensures p != []
  {
    match o case Pointer(high, low) => [high, low] case Labels(labels) => EncodeName(labels)
  }

  // Type, class, time to live and the length of the data.
  function EncodeFixed(r: ResourceRecord): (p: Packet)
    requires LegalRecord(r)
    ensures |p| == 10
  {
    Bytes2(r.rtype) + Bytes2(r.rclass) + Bytes4(r.ttl) + Bytes2(|r.data|)
  }

  function EncodeRecord(r: ResourceRecord): (p: Packet)
    requires LegalRecord(r)
    ensures |p| == |EncodeOwner(r.owner)| + 10 + |r.data|
  {
    EncodeOwner(r.owner) + EncodeFixed(r) + r.data
  }

  predicate AllLegal(records: seq<ResourceRecord>) { forall r | r in records :: LegalRecord(r) }

  function EncodeRecords(records: seq<ResourceRecord>): Packet
    requires AllLegal(records)
  {
    if records == [] then [] else EncodeRecord(records[0]) + EncodeRecords(records[1..])
  }

  // The addresses in a list of records: the data of those of type 1 with four bytes and of type 28 with sixteen.
  function AddressesIn(records: seq<ResourceRecord>): seq<Address> {
    if records == [] then []
    else
      var r := records[0];
      (if (r.rtype == 1 && |r.data| == 4) || (r.rtype == 28 && |r.data| == 16) then [r.data] else []) + AddressesIn(records[1..])
  }

  // ---- One record ----

  // An owner name is skipped whole, wherever it lies.
  lemma OwnerIsSkipped(p: Packet, off: nat, o: Owner)
    requires LegalOwner(o) && off <= |p| && EncodeOwner(o) <= p[off..]
    ensures off < |p| && AfterOwner(p, off) == off + |EncodeOwner(o)|
  {
    assert p[off..][0] == p[off];
    match o
    case Pointer(high, low) =>
    case Labels(labels) =>
      FirstByteIsSmall(labels);
      LabelsAreSkipped(p, off, labels);
  }

  lemma FirstByteIsSmall(labels: seq<Label>)
    requires Legal(labels)
    ensures EncodeName(labels)[0] < COMPRESSED
  {
  }

  lemma {:induction false} LabelsAreSkipped(p: Packet, off: nat, labels: seq<Label>)
    requires NameAt(p, off, labels)
    ensures AfterLabels(p, off) + 1 == off + |EncodeName(labels)|
    decreases |labels|
  {
    if labels == [] {
      assert p[off..][0] == 0;
    } else {
      hide NameAt;
      FirstLabel(p, off, labels);
      LabelsAreSkipped(p, off + 1 + |labels[0]|, labels[1..]);
    }
  }

  lemma FixedReads(p: Packet, at: nat, r: ResourceRecord)
    requires LegalRecord(r) && at + 10 <= |p| && p[at..at + 10] == EncodeFixed(r)
    ensures U16(p, at) == r.rtype && U16(p, at + 2) == r.rclass && U16(p, at + 8) == |r.data|
    ensures U16(p, at + 4) * 0x1_0000 + U16(p, at + 6) == r.ttl
  {
    var f := EncodeFixed(r);
    assert forall k | 0 <= k < 10 :: p[at + k] == f[k];
    assert f[0..2] == Bytes2(r.rtype) && f[2..4] == Bytes2(r.rclass) && f[8..10] == Bytes2(|r.data|);
    assert f[4..6] == Bytes2(r.ttl / 0x1_0000) && f[6..8] == Bytes2(r.ttl % 0x1_0000);
    hide EncodeFixed, LegalOwner;
    PairReads(p, at, r.rtype);
    PairReads(p, at + 2, r.rclass);
    PairReads(p, at + 4, r.ttl / 0x1_0000);
    PairReads(p, at + 6, r.ttl % 0x1_0000);
    PairReads(p, at + 8, |r.data|);
  }

  lemma PairReads(p: Packet, at: nat, v: int)
    requires at + 2 <= |p| && 0 <= v < 0x1_0000 && p[at..at + 2] == Bytes2(v)
    ensures U16(p, at) == v
  {
    assert p[at] == Bytes2(v)[0] && p[at + 1] == Bytes2(v)[1];
  }

  // The parts of a record that lies between head and tail.
  lemma RecordLies(head: Packet, r: ResourceRecord, tail: Packet)
    requires LegalRecord(r)
    ensures var p, body := head + EncodeRecord(r) + tail, |head| + |EncodeOwner(r.owner)|;
            && |p| == |head| + |EncodeRecord(r)| + |tail| && body + 10 + |r.data| == |head| + |EncodeRecord(r)|
            && EncodeOwner(r.owner) <= p[|head|..]
            && p[body..body + 10] == EncodeFixed(r) && p[body + 10..body + 10 + |r.data|] == r.data
  {
    hide EncodeFixed, EncodeOwner;
    var o, f := EncodeOwner(r.owner), EncodeFixed(r);
    Layout(head, o, f, r.data, tail);
  }

  lemma Layout(head: Packet, o: Packet, f: Packet, data: Packet, tail: Packet)
    ensures var p, body := head + (o + f + data) + tail, |head| + |o|;
            && o <= p[|head|..] && p[body..body + |f|] == f && p[body + |f|..body + |f| + |data|] == data
  {
    var p := head + (o + f + data) + tail;
    assert p[|head|..] == o + f + data + tail;
    assert p == head + o + f + (data + tail);
    assert p == head + o + f + data + tail;
  }

  // A record of any kind is parsed to its end, and yields its data if it is an address record.
  lemma RecordParses(head: Packet, r: ResourceRecord, tail: Packet)
    requires LegalRecord(r)
    ensures NextRecord(head + EncodeRecord(r) + tail, |head|) == Some((AddressesIn([r]), |head| + |EncodeRecord(r)|))
  {
    hide AfterOwner, EncodeRecord, EncodeOwner, EncodeFixed, U16, AddressesIn, NextRecord, LegalOwner;
    var p, body := head + EncodeRecord(r) + tail, |head| + |EncodeOwner(r.owner)|;
    RecordLies(head, r, tail);
    OwnerIsSkipped(p, |head|, r.owner);
    FixedReads(p, body, r);
    RecordAt(p, |head|, body, r);
  }

  lemma RecordAt(p: Packet, off: nat, body: nat, r: ResourceRecord)
    requires off < |p| && AfterOwner(p, off) == body && body + 10 + |r.data| <= |p|
    requires U16(p, body) == r.rtype && U16(p, body + 8) == |r.data| && p[body + 10..body + 10 + |r.data|] == r.data
    ensures NextRecord(p, off) == Some((AddressesIn([r]), body + 10 + |r.data|))
  {
    OneAddress(r);
    hide AfterOwner, U16, AddressesIn;
  }

  lemma OneAddress(r: ResourceRecord)
    ensures AddressesIn([r]) == if (r.rtype == 1 && |r.data| == 4) || (r.rtype == 28 && |r.data| == 16) then [r.data] else []
  {
    assert [r][1..] == [];
  }

  // ---- All records ----

  // The first record yields its addresses, and parsing goes on right behind it.
  lemma FirstRecordParses(head: Packet, records: seq<ResourceRecord>, tail: Packet, count: nat)
    requires AllLegal(records) && records != [] && 0 < count
    ensures var front := head + EncodeRecord(records[0]);
            Answers(head + EncodeRecords(records) + tail, |head|, count)
            == AddressesIn(records[..1]) + Answers(front + EncodeRecords(records[1..]) + tail, |front|, count - 1)
  {
    hide NextRecord, EncodeRecord, AddressesIn, Answers, LegalRecord;
    var r, rest := records[0], records[1..];
    RecordParses(head, r, EncodeRecords(rest) + tail);
    Regroup(head, EncodeRecord(r), EncodeRecords(rest), tail);
    RecordIsLong(r);
    AnswersStep(head + EncodeRecord(r) + (EncodeRecords(rest) + tail), |head|, count, AddressesIn([r]), |head| + |EncodeRecord(r)|);
    assert records[..1] == [r];
  }

  // The first count records yield their addresses, and the records behind them are not looked at.
  lemma {:induction false} RecordsParse(head: Packet, records: seq<ResourceRecord>, tail: Packet, count: nat)
    requires AllLegal(records) && count <= |records|
    ensures Answers(head + EncodeRecords(records) + tail, |head|, count) == AddressesIn(records[..count])
    decreases count
  {
    hide EncodeRecord, EncodeRecords, AddressesIn, Answers, LegalRecord;
    if count == 0 {
      NoneAsked(head + EncodeRecords(records) + tail, |head|);
      assert records[..0] == [];
    } else {
      FirstRecordParses(head, records, tail, count);
      RecordsParse(head + EncodeRecord(records[0]), records[1..], tail, count - 1);
      AddressesSplit(records, count);
    }
  }

  lemma AnswersStep(p: Packet, off: nat, count: nat, found: seq<Address>, next: nat)
    requires 0 < count && off + 10 <= |p| && NextRecord(p, off) == Some((found, next))
    ensures Answers(p, off, count) == found + Answers(p, next, count - 1)
  {
    hide NextRecord;
  }

  lemma NoneAsked(p: Packet, off: nat)
    ensures Answers(p, off, 0) == [] && AddressesIn([]) == []
  {
  }

  lemma Regroup(a: Packet, b: Packet, c: Packet, d: Packet)
    ensures a + (b + c) + d == a + b + (c + d) && a + b + (c + d) == (a + b) + c + d
  {
  }

  lemma AddressesSplit(records: seq<ResourceRecord>, count: nat)
    requires 0 < count <= |records|
    ensures AddressesIn(records[..count]) == AddressesIn(records[..1]) + AddressesIn(records[1..][..count - 1])
  {
    OneAddress(records[0]);
    assert records[..count][1..] == records[1..][..count - 1] && records[..1] == [records[0]];
  }

  lemma RecordIsLong(r: ResourceRecord)
    requires LegalRecord(r)
    ensures 10 < |EncodeRecord(r)|
  {
  }

  // Announced records that are not there are not missed.
  lemma NothingLeft(p: Packet, count: nat)
    ensures Answers(p, |p|, count) == [] && AddressesIn([]) == []
  {
  }

  lemma {:induction false} ShortListParses(head: Packet, records: seq<ResourceRecord>, count: nat)
    requires AllLegal(records) && |records| <= count
    ensures Answers(head + EncodeRecords(records), |head|, count) == AddressesIn(records)
    decreases count
  {
    hide EncodeRecord, AddressesIn, Answers, LegalRecord;
    if records == [] {
      assert head + EncodeRecords(records) == head;
      NothingLeft(head, count);
    } else {
      var front, rest := head + EncodeRecord(records[0]), records[1..];
      FirstRecordParses(head, records, [], count);
      NothingBehind(head + EncodeRecords(records));
      NothingBehind(front + EncodeRecords(rest));
      ShortListParses(front, rest, count - 1);
      AllAddressesSplit(records);
      hide EncodeRecords;
    }
  }

  lemma NothingBehind(p: Packet)
    ensures p + [] == p
  {
  }

  lemma AllAddressesSplit(records: seq<ResourceRecord>)
    requires records != []
    ensures AddressesIn(records) == AddressesIn(records[..1]) + AddressesIn(records[1..])
  {
    AddressesSplit(records, |records|);
    assert records[..|records|] == records && records[1..][..|records| - 1] == records[1..];
  }

  // ---- Whole responses ----

  // The question's name, type and class.
  function EncodeQuestion(name: Owner, qtype: int, qclass: int): Packet
    requires LegalOwner(name) && 0 <= qtype < 0x1_0000 && 0 <= qclass < 0x1_0000
  {
    EncodeOwner(name) + Bytes2(qtype) + Bytes2(qclass)
  }

  lemma QuestionIsSkipped(header: Packet, name: Owner, tail: Packet)
    requires LegalOwner(name) && |header| == HEADER
    ensures AfterQuestionName(header + EncodeOwner(name) + tail, HEADER) == Some(HEADER + |EncodeOwner(name)|)
  {
    var p := header + EncodeOwner(name) + tail;
    assert p[HEADER..] == EncodeOwner(name) + tail;
    assert p[HEADER] == p[HEADER..][0];
    match name
    case Pointer(high, low) =>
    case Labels(labels) => QuestionLabelsAreSkipped(p, HEADER, labels);
  }

  lemma {:induction false} QuestionLabelsAreSkipped(p: Packet, off: nat, labels: seq<Label>)
    requires NameAt(p, off, labels)
    ensures AfterQuestionName(p, off) == Some(off + |EncodeName(labels)|)
    decreases |labels|
  {
    if labels == [] {
      assert p[off..][0] == 0;
    } else {
      hide NameAt;
      FirstLabel(p, off, labels);
      QuestionLabelsAreSkipped(p, off + 1 + |labels[0]|, labels[1..]);
    }
  }

  predicate Reads(p: Packet, addresses: seq<Address>) {
    ParsedAnswers(p) == if addresses == [] then Err(NoAnswers) else Ok(addresses)
  }

  // A response with any question and any records, followed by anything, parses to the addresses among the records its
  // header announces, in order: a record that is no address is skipped and hides none behind it.
  lemma ResponseParses(header: Packet, name: Owner, qtype: int, qclass: int, records: seq<ResourceRecord>, tail: Packet)
    requires |header| == HEADER && LegalOwner(name) && 0 <= qtype < 0x1_0000 && 0 <= qclass < 0x1_0000
    requires AllLegal(records) && U16(header, 6) <= |records|
    ensures Reads(header + EncodeQuestion(name, qtype, qclass) + EncodeRecords(records) + tail, AddressesIn(records[..U16(header, 6)]))
  {
    hide Answers, AfterQuestionName, EncodeRecords, AddressesIn, EncodeQuestion, U16, LegalRecord, LegalOwner;
    var question := EncodeQuestion(name, qtype, qclass);
    var count := U16(header, 6);
    ResponseStarts(header, name, qtype, qclass, EncodeRecords(records) + tail);
    Reassociate(header + question, EncodeRecords(records), tail);
    RecordsParse(header + question, records, tail, count);
  }

  // So does one that announces at least the records it holds and ends with them.
  lemma WholeResponseParses(header: Packet, name: Owner, qtype: int, qclass: int, records: seq<ResourceRecord>)
    requires |header| == HEADER && LegalOwner(name) && 0 <= qtype < 0x1_0000 && 0 <= qclass < 0x1_0000
    requires AllLegal(records) && |records| <= U16(header, 6)
    ensures Reads(header + EncodeQuestion(name, qtype, qclass) + EncodeRecords(records), AddressesIn(records))
  {
    hide Answers, AfterQuestionName, EncodeRecords, AddressesIn, EncodeQuestion, U16, LegalRecord, LegalOwner;
    var question := EncodeQuestion(name, qtype, qclass);
    ResponseStarts(header, name, qtype, qclass, EncodeRecords(records));
    ShortListParses(header + question, records, U16(header, 6));
  }

  lemma ResponseStarts(header: Packet, name: Owner, qtype: int, qclass: int, rest: Packet)
    requires |header| == HEADER && LegalOwner(name) && 0 <= qtype < 0x1_0000 && 0 <= qclass < 0x1_0000
    ensures var question := EncodeQuestion(name, qtype, qclass);
            var p := header + question + rest;
            && |p| >= HEADER && U16(p, 6) == U16(header, 6)
            && AfterQuestionName(p, HEADER) == Some(|header + question| - 4)
  {
    var o, types := EncodeOwner(name), Bytes2(qtype) + Bytes2(qclass);
    assert EncodeQuestion(name, qtype, qclass) == o + types;
    Regroup(header, o, types, rest);
    QuestionIsSkipped(header, name, types + rest);
    hide EncodeOwner, AfterQuestionName;
  }

  // ---- Truncated responses ----

  ghost predicate IsCutOff(cut: Packet, whole: Packet) { cut <= whole && |cut| < |whole| }

  lemma {:induction false} CutLabelsOverrun(p: Packet, off: nat, labels: seq<Label>)
    requires Legal(labels) && off <= |p| && IsCutOff(p[off..], EncodeName(labels))
    ensures AfterLabels(p, off) >= |p|
    decreases |labels|
  {
    if off < |p| {
      CutName(p[off..], labels);
      assert p[off..][0] == p[off];
      var next := off + p[off] + 1;
      if next <= |p| {
        assert p[off..][1 + |labels[0]|..] == p[next..];
        CutLabelsOverrun(p, next, labels[1..]);
      }
    }
  }

  lemma CutName(cut: Packet, labels: seq<Label>)
    requires Legal(labels) && IsCutOff(cut, EncodeName(labels)) && cut != []
    ensures labels != [] && cut[0] == |labels[0]| != 0
    ensures 1 + |labels[0]| <= |cut| ==> IsCutOff(cut[1 + |labels[0]|..], EncodeName(labels[1..]))
  {
    var e := EncodeName(labels);
    assert cut == e[..|cut|];
    if labels != [] {
      assert e == [|labels[0]|] + labels[0] + EncodeName(labels[1..]);
      var rest := EncodeName(labels[1..]);
      hide EncodeName;
      assert e[1 + |labels[0]|..] == rest;
      if 1 + |labels[0]| <= |cut| { assert cut[1 + |labels[0]|..] == rest[..|cut| - 1 - |labels[0]|]; }
    }
  }

  // A record that is cut off anywhere is not parsed.
  lemma CutRecordStops(head: Packet, r: ResourceRecord, cut: Packet)
    requires LegalRecord(r) && cut != [] && IsCutOff(cut, EncodeRecord(r))
    ensures NextRecord(head + cut, |head|) == None
  {
    var p, o := head + cut, EncodeOwner(r.owner);
    assert p[|head|..] == cut && p[|head|] == cut[0];
    if |cut| < |o| {
      CutOwner(cut, o, EncodeFixed(r) + r.data);
      assert o + (EncodeFixed(r) + r.data) == EncodeRecord(r);
      CutOwnerOverruns(p, |head|, r.owner);
    } else {
      PrefixKeepsOwner(cut, o, EncodeFixed(r) + r.data);
      assert o + (EncodeFixed(r) + r.data) == EncodeRecord(r);
      OwnerIsSkipped(p, |head|, r.owner);
      if |o| + 10 <= |cut| {
        CutKeepsFixed(head, o, EncodeFixed(r), r.data, cut);
        FixedReads(p, |head| + |o|, r);
      }
    }
    hide EncodeOwner, EncodeFixed, AfterOwner, U16;
  }

  lemma CutOwner(cut: Packet, o: Packet, rest: Packet)
    requires cut <= o + rest && |cut| < |o|
    ensures IsCutOff(cut, o)
  {
    assert (o + rest)[..|cut|] == o[..|cut|];
  }

  lemma PrefixKeepsOwner(cut: Packet, o: Packet, rest: Packet)
    requires cut <= o + rest && |o| <= |cut|
    ensures o <= cut
  {
    assert (o + rest)[..|cut|][..|o|] == o;
  }

  lemma CutKeepsFixed(head: Packet, o: Packet, f: Packet, data: Packet, cut: Packet)
    requires cut <= o + f + data && |o| + |f| <= |cut|
    ensures (head + cut)[|head| + |o|..|head| + |o| + |f|] == f
  {
    assert (o + f + data)[..|cut|][|o|..|o| + |f|] == f;
    assert (head + cut)[|head|..] == cut;
  }

  lemma CutOwnerOverruns(p: Packet, off: nat, o: Owner)
    requires LegalOwner(o) && off < |p| && IsCutOff(p[off..], EncodeOwner(o))
    ensures AfterOwner(p, off) > |p|
  {
    assert p[off..][0] == p[off];
    match o
    case Pointer(high, low) => assert p[off] == high;
    case Labels(labels) =>
      FirstByteIsSmall(labels);
      assert p[off] == EncodeName(labels)[0];
      CutLabelsOverrun(p, off, labels);
  }

  // A response cut off inside a record parses to the addresses among the records before it, if it announces that record.
  lemma {:induction false} TruncatedListParses(head: Packet, records: seq<ResourceRecord>, r: ResourceRecord, cut: Packet, count: nat)
    requires AllLegal(records) && LegalRecord(r) && cut != [] && IsCutOff(cut, EncodeRecord(r)) && |records| < count
    ensures Answers(head + EncodeRecords(records) + cut, |head|, count) == AddressesIn(records)
    decreases count
  {
    hide EncodeRecord, AddressesIn, LegalRecord, IsCutOff, Answers;
    if records == [] {
      assert head + EncodeRecords(records) + cut == head + cut;
      CutRecordStops(head, r, cut);
      CutListStops(head, cut, count);
    } else {
      hide EncodeRecords;
      FirstRecordParses(head, records, cut, count);
      TruncatedListParses(head + EncodeRecord(records[0]), records[1..], r, cut, count - 1);
      AllAddressesSplit(records);
    }
  }

  lemma CutListStops(head: Packet, cut: Packet, count: nat)
    requires cut != [] && NextRecord(head + cut, |head|) == None
    ensures Answers(head + cut, |head|, count) == [] && AddressesIn([]) == []
  {
    hide NextRecord;
  }

  // ---- Why a name is refused ----

  // Labels without the zero byte behind them.
  function EncodeLabels(labels: seq<Label>): Packet
    requires Legal(labels)
  {
    if labels == [] then [] else [|labels[0]|] + labels[0] + EncodeLabels(labels[1..])
  }

  // What may follow some labels: the end of the name, or the reason why there is none.
  function Verdict(labels: seq<Label>, tail: Packet): Option<Result<seq<Label>>> {
    if tail == [] then Some(Err(NameOverruns))
    else if tail[0] == 0 then Some(Ok(labels))
    else if 192 <= tail[0] then Some(Err(CompressedName))
    else if |tail| < 1 + tail[0] then Some(Err(LabelOverruns))
    else None
  }

  // A label first in the packet.
  lemma OneLabelReads(head: Packet, l: Label, rest: Packet)
    requires 0 < |l| < COMPRESSED
    ensures ReadName(head + [|l|] + l + rest, |head|) == Prepend([l], ReadName(head + [|l|] + l + rest, |head| + 1 + |l|))
    ensures AfterQuestionName(head + [|l|] + l + rest, |head|) == AfterQuestionName(head + [|l|] + l + rest, |head| + 1 + |l|)
  {
    var p := head + [|l|] + l + rest;
    assert p[|head|] == |l|;
    assert p[|head| + 1..|head| + 1 + |l|] == l;
  }

  lemma NameEndsHere(head: Packet, tail: Packet)
    requires Verdict([], tail).Some?
    ensures ReadName(head + tail, |head|) == Verdict([], tail).value
    ensures tail == [] ==> AfterQuestionName(head + tail, |head|) == None
  {
    if tail != [] { assert (head + tail)[|head|] == tail[0]; }
  }

  lemma RegroupLabel(head: Packet, a: Packet, b: Packet, c: Packet, d: Packet)
    ensures head + (a + b + c) + d == head + a + b + (c + d) == (head + a + b) + c + d
  {
  }

  // Behind any labels, a name that ends here, runs out of the packet, goes on with a pointer, or has a label that runs out of
  // the packet is read as just that.
  lemma {:induction false} NamesAreRefusedExactly(head: Packet, labels: seq<Label>, tail: Packet)
    requires Legal(labels) && Verdict(labels, tail).Some?
    ensures ReadName(head + EncodeLabels(labels) + tail, |head|) == Verdict(labels, tail).value
    ensures tail == [] ==> AfterQuestionName(head + EncodeLabels(labels) + tail, |head|) == None
    decreases |labels|
  {
    hide ReadName, AfterQuestionName, Prepend, Verdict;
    if labels == [] {
      assert head + EncodeLabels(labels) + tail == head + tail;
      NameEndsHere(head, tail);
    } else {
      var l, rest := labels[0], labels[1..];
      RegroupLabel(head, [|l|], l, EncodeLabels(rest), tail);
      OneLabelReads(head, l, EncodeLabels(rest) + tail);
      assert labels == [l] + rest;
      VerdictPrepends(l, rest, tail);
      NamesAreRefusedExactly(head + [|l|] + l, rest, tail);
    }
  }

  lemma VerdictPrepends(l: Label, rest: seq<Label>, tail: Packet)
    ensures Verdict(rest, tail).Some? <==> Verdict([l] + rest, tail).Some?
    ensures Verdict(rest, tail).Some? ==> Prepend([l], Verdict(rest, tail).value) == Verdict([l] + rest, tail).value
  {
  }

  // So both parsers name the reason for which they refuse a packet: it is too short for a header, counts other than one
  // question, has a question name refused for one of the reasons above, or has no room for the question's type and class.
  lemma QueriesAreRefusedExactly(header: Packet, labels: seq<Label>, tail: Packet)
    requires Legal(labels) && Verdict(labels, tail).Some? && |header| == HEADER && U16(header, 4) == 1
    ensures var p := header + EncodeLabels(labels) + tail;
            match Verdict(labels, tail).value
            case Err(e) => ParsedQuery(p) == Err(e) && (tail == [] ==> ParsedAnswers(p) == Err(NameOverruns))
            case Ok(_) => if |tail| < 5 then ParsedQuery(p) == Err(QuestionOverruns) else ParsedQuery(p).Ok?
  {
    hide ReadName, AfterQuestionName, EncodeLabels, Join, NameLength;
    var p := header + EncodeLabels(labels) + tail;
    NamesAreRefusedExactly(header, labels, tail);
    LengthOfLabels(labels);
    assert p[4] == header[4] && p[5] == header[5];
  }

  lemma {:induction false} LengthOfLabels(labels: seq<Label>)
    requires Legal(labels)
    ensures |EncodeLabels(labels)| + 1 == NameLength(labels)
  {
    if labels != [] {
      LengthOfLabels(labels[1..]);
      hide EncodeName;
    }
  }

  lemma ShortOrUncountedQueries(p: Packet)
    ensures |p| < 12 ==> ParsedQuery(p) == Err(TooShort) && ParsedAnswers(p) == Err(TooShort)
    ensures 12 <= |p| && U16(p, 4) != 1 ==> ParsedQuery(p) == Err(QuestionCount)
  {
  }

  // ---- What the printer writes ----

  // The address is an IPv4 one: four bytes, or sixteen that begin as RFC 4291 maps IPv4 into IPv6.
  predicate IsV4(ip: Address) {
    || |ip| == 4
    || (|ip| == 16 && (forall k | 0 <= k < 10 :: ip[k] == 0) && ip[10] == ip[11] == 255)
  }

  lemma V4Is(ip: Address)
    ensures To4(ip).Some? <==> IsV4(ip)
    ensures IsV4(ip) ==> To4(ip) == Some(ip[|ip| - 4..])
    ensures To16(ip).Some? <==> |ip| == 4 || |ip| == 16
    ensures |ip| == 16 ==> To16(ip) == Some(ip)
    ensures |ip| == 4 ==> IsV4(ip)
  {
    if |ip| == 16 && IsV4(ip) { assert V4_IN_V6 == ip[..12]; }
    if |ip| == 4 { assert ip[0..] == ip; }
  }

  // A query for A records is answered with the IPv4 addresses and one for AAAA records with the other sixteen-byte ones,
  // each in the order given.
  lemma MatchingIsFilter(qtype: int, ips: seq<Address>, ip: Address)
    ensures Matching(qtype, []) == []
    ensures Matching(qtype, ips + [ip])
            == Matching(qtype, ips) + if (qtype == 1 && IsV4(ip)) || (qtype == 28 && !IsV4(ip) && |ip| == 16) then [ip] else []
  {
    MatchesByForm(qtype, ip);
    hide IsV4, Matches;
    MatchingAppends(qtype, ips, ip);
  }

  lemma MatchesByForm(qtype: int, ip: Address)
    ensures Matches(qtype, ip) <==> (qtype == 1 && IsV4(ip)) || (qtype == 28 && !IsV4(ip) && |ip| == 16)
  {
    V4Is(ip);
    hide To4, To16;
  }

  lemma {:induction false} MatchingAppends(qtype: int, ips: seq<Address>, ip: Address)
    ensures Matching(qtype, ips + [ip]) == Matching(qtype, ips) + if Matches(qtype, ip) then [ip] else []
  {
    hide Matches, Matching;
    if ips == [] {
      assert [] + [ip] == [ip] == [ip] + [];
      MatchingFirst(qtype, ip, []);
      NoneMatch(qtype);
    } else {
      var first, rest := ips[0], ips[1..];
      assert ips == [first] + rest && ips + [ip] == [first] + (rest + [ip]);
      MatchingFirst(qtype, first, rest);
      MatchingFirst(qtype, first, rest + [ip]);
      MatchingAppends(qtype, rest, ip);
    }
  }

  lemma NoneMatch(qtype: int)
    ensures Matching(qtype, []) == []
  {
  }

  lemma MatchingFirst(qtype: int, first: Address, rest: seq<Address>)
    ensures Matching(qtype, [first] + rest) == (if Matches(qtype, first) then [first] else []) + Matching(qtype, rest)
  {
    assert ([first] + rest)[1..] == rest;
    hide Matches;
  }

  // A printed record points to the question's name, is of the address's type, of class 1, with the time to live given, and
  // holds the address: four bytes for IPv4, sixteen otherwise.
  lemma PrintedRecordIs(ip: Address, ttl: int)
    requires 0 <= ttl < 0x1_0000_0000 && (|ip| == 4 || |ip| == 16)
    ensures var data := if IsV4(ip) then ip[|ip| - 4..] else ip;
            Record(ip, ttl) == EncodeRecord(ResourceRecord(Pointer(0xC0, HEADER), if IsV4(ip) then 1 else 28, 1, ttl, data))
  {
    V4Is(ip);
    hide To4, To16, IsV4, Bytes2, Bytes4;
    var typ, data := Bytes2(if IsV4(ip) then 1 else 28), if IsV4(ip) then ip[|ip| - 4..] else ip;
    assert Rdata(ip) == data;
    Bracket([0xC0, 0x0C], typ, Bytes2(1), Bytes4(ttl), Bytes2(|data|), data);
  }

  lemma Bracket(a: Packet, b: Packet, c: Packet, d: Packet, e: Packet, f: Packet)
    ensures a + b + c + d + e + f == a + (b + c + d + e) + f
  {
  }

  // The flags of a response, bit by bit: it is a response, with the query's opcode, not authoritative nor truncated, with the
  // query's recursion desired, recursion available, and no error or NXDOMAIN.
  lemma ResponseFlagBits(flags: int, empty: bool)
    requires 0 <= flags < 0x1_0000
    ensures var r := ResponseFlags(flags, empty);
            && r / 0x8000 == 1 && r / 0x800 % 16 == flags / 0x800 % 16 && r / 0x200 % 4 == 0
            && r / 0x100 % 2 == flags / 0x100 % 2 && r / 0x80 % 2 == 1 && r / 0x10 % 8 == 0 && r % 16 == (if empty then 3 else 0)
  {
    var desired, opcode, code := flags / 0x100 % 2, flags / 0x800 % 16, if empty then 3 else 0;
    HighBits(opcode, desired * 0x100 + 0x80 + code);
    MiddleBits(opcode, desired, 0x80 + code);
    LowBits(opcode, desired, code);
    assert ResponseFlags(flags, empty) == 0x8000 + opcode * 0x800 + desired * 0x100 + 0x80 + code;
  }

  lemma HighBits(opcode: int, low: int)
    requires 0 <= opcode < 16 && 0 <= low < 0x200
    ensures var r := 0x8000 + opcode * 0x800 + low;
            r / 0x8000 == 1 && r / 0x800 % 16 == opcode && r / 0x200 % 4 == 0
  {
    var r := 0x8000 + opcode * 0x800 + low;
    assert r / 0x800 == 16 + opcode;
    assert r / 0x200 == 4 * (16 + opcode);
  }

  lemma MiddleBits(opcode: int, desired: int, low: int)
    requires 0 <= desired < 2 && 0 <= low < 0x100
    ensures (0x8000 + opcode * 0x800 + desired * 0x100 + low) / 0x100 % 2 == desired
  {
    assert (0x8000 + opcode * 0x800 + desired * 0x100 + low) / 0x100 == 2 * (0x40 + 4 * opcode) + desired;
  }

  lemma LowBits(opcode: int, desired: int, code: int)
    requires 0 <= code < 16
    ensures var r := 0x8000 + opcode * 0x800 + desired * 0x100 + 0x80 + code;
            r / 0x80 % 2 == 1 && r / 0x10 % 8 == 0 && r % 16 == code
  {
    var r := 0x8000 + opcode * 0x800 + desired * 0x100 + 0x80 + code;
    assert r / 0x80 == 2 * (0x80 + 8 * opcode + desired) + 1;
    assert r / 0x10 == 8 * (0x101 + 16 * opcode + 2 * desired);
  }
}
