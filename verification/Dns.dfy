// The DNS server's answers, byte for byte (RFC 1035, sections 4.1.1 to 4.1.4).
module Dns {
  import opened Common
  import opened Bytes

  type Label = Bytes

  const DOT: Byte := 46
  const NO_ERROR := 0
  const FORM_ERR := 1
  const REFUSED := 5
  const TYPE_A := 1
  const CLASS_IN := 1
  const TTL := 60
  const HEADER := 12

  // ------------------------------------------------------------------ questions

  datatype Question = Question(labels: seq<Label>, qtype: nat, qclass: nat)

  // A question and the bytes it took; None for the three errors.
  datatype Parsed = Parsed(question: Question, consumed: nat)

  // The labels from position i on, and the position after the end of the name.
  function ParseName(b: Bytes, i: nat): Option<(seq<Label>, nat)>
    requires i <= |b|
    decreases |b| - i
  {
    if i == |b| then None
    else
      var l := b[i];
      if l == 0 then Some(([], i + 1))
      else if l >= 64 || i + 1 + l > |b| then None
      else
        Prepend([b[i + 1..i + 1 + l]], ParseName(b, i + 1 + l))
  }

  lemma {:induction false} ParseNameEnds(b: Bytes, i: nat)
    requires i <= |b|
    ensures ParseName(b, i).Some? ==> i < ParseName(b, i).value.1 <= |b|
    decreases |b| - i
  {
    if i < |b| && 0 < b[i] < 64 && i + 1 + b[i] <= |b| { ParseNameEnds(b, i + 1 + b[i]); }
  }

  function ParseQuestion(b: Bytes): Option<Parsed> {
    ParseNameEnds(b, 0);
    var name := ParseName(b, 0);
    if name.None? || name.value.1 + 4 > |b| then None
    else
      var i := name.value.1;
      Some(Parsed(Question(name.value.0, Get16(b, i), Get16(b, i + 2)), i + 4))
  }

  function Prepend(labels: seq<Label>, r: Option<(seq<Label>, nat)>): Option<(seq<Label>, nat)> {
    if r.Some? then Some((labels + r.value.0, r.value.1)) else None
  }

  lemma PrependNone(r: Option<(seq<Label>, nat)>)
    ensures Prepend([], r) == r
  {
    if r.Some? { assert [] + r.value.0 == r.value.0; }
  }

  lemma PrependOne(labels: seq<Label>, first: Label, r: Option<(seq<Label>, nat)>)
    ensures Prepend(labels, Prepend([first], r)) == Prepend(labels + [first], r)
  {
    if r.Some? { assert labels + ([first] + r.value.0) == labels + [first] + r.value.0; }
  }

  method ReadQuestion(b: Bytes) returns (r: Option<Parsed>)
    ensures r == ParseQuestion(b)
  {
    var labels: seq<Label> := [];
    var i := 0;
    PrependNone(ParseName(b, 0));
    while true
      invariant 0 <= i <= |b|
      invariant ParseName(b, 0) == Prepend(labels, ParseName(b, i))
      decreases |b| - i
    {
      if i >= |b| { return None; }
      var l := b[i];
      if l == 0 {
        assert labels + [] == labels;
        i := i + 1;
        break;
      }
      if l >= 64 { return None; }
      i := i + 1;
      if i + l > |b| { return None; }
      PrependOne(labels, b[i..i + l], ParseName(b, i + l));
      labels := labels + [b[i..i + l]];
      i := i + l;
    }
    assert ParseName(b, 0) == Some((labels, i));
    if i + 4 > |b| { return None; }
    r := Some(Parsed(Question(labels, Get16(b, i), Get16(b, i + 2)), i + 4));
  }

  // The encoding the parser inverts.
  ghost predicate LabelsOk(labels: seq<Label>) {
    forall k | 0 <= k < |labels| :: 1 <= |labels[k]| < 64
  }

  function EncodeName(labels: seq<Label>): Bytes
    requires LabelsOk(labels)
  {
    if labels == [] then [0] else [|labels[0]|] + labels[0] + EncodeName(labels[1..])
  }

  ghost predicate QuestionOk(q: Question) {
    LabelsOk(q.labels) && q.qtype < 0x1_0000 && q.qclass < 0x1_0000
  }

  function EncodeQuestion(q: Question): Bytes
    requires QuestionOk(q)
  {
    EncodeName(q.labels) + Put16(q.qtype) + Put16(q.qclass)
  }

  lemma {:induction false} NameRoundTrip(b: Bytes, before: Bytes, labels: seq<Label>, after: Bytes)
    requires LabelsOk(labels) && b == before + EncodeName(labels) + after
    ensures ParseName(b, |before|) == Some((labels, |before| + |EncodeName(labels)|))
    decreases |labels|
  {
    if labels != [] {
      FirstLabel(b, before, labels, after);
      NameRoundTrip(b, before + [|labels[0]|] + labels[0], labels[1..], after);
    }
  }

  lemma FirstLabel(b: Bytes, before: Bytes, labels: seq<Label>, after: Bytes)
    requires LabelsOk(labels) && labels != [] && b == before + EncodeName(labels) + after
    ensures var i, l := |before|, |labels[0]|;
            && i + 1 + l <= |b| && b[i] == l && b[i + 1..i + 1 + l] == labels[0]
            && b == (before + [l] + labels[0]) + EncodeName(labels[1..]) + after
    ensures [labels[0]] + labels[1..] == labels
  {
    var l: Byte := |labels[0]|;
    var rest := EncodeName(labels[1..]);
    Reassociate(before, [l] + labels[0], rest, after);
    Reassociate(before, [l], labels[0], rest + after);
    SliceOut(before + [l], labels[0], rest + after);
  }

  lemma SliceOut(a: Bytes, b: Bytes, c: Bytes)
    ensures (a + b + c)[|a|..|a| + |b|] == b
  {
  }

  lemma TwoNumbers(b: Bytes, before: Bytes, x: nat, y: nat, after: Bytes)
    requires x < 0x1_0000 && y < 0x1_0000 && b == before + (Put16(x) + Put16(y)) + after
    ensures |before| + 4 <= |b| && Get16(b, |before|) == x && Get16(b, |before| + 2) == y
  {
    assert b == before + Put16(x) + (Put16(y) + after);
    Get16Put16(before, x, Put16(y) + after);
    assert b == (before + Put16(x)) + Put16(y) + after;
    Get16Put16(before + Put16(x), y, after);
  }

  lemma QuestionRoundTrip(q: Question, after: Bytes)
    requires QuestionOk(q)
    ensures ParseQuestion(EncodeQuestion(q) + after) == Some(Parsed(q, |EncodeQuestion(q)|))
  {
    var name, numbers, b := EncodeName(q.labels), Put16(q.qtype) + Put16(q.qclass), EncodeQuestion(q) + after;
    Reassociate([], name, numbers, after);
    assert EncodeQuestion(q) == [] + (name + numbers) && [] + name == name;
    NameRoundTrip(b, [], q.labels, numbers + after);
    TwoNumbers(b, name, q.qtype, q.qclass, after);
  }

  lemma {:induction false} ParsedNameIsEncoded(b: Bytes, i: nat)
    requires i <= |b| && ParseName(b, i).Some?
    ensures var (labels, n) := ParseName(b, i).value;
            i < n <= |b| && LabelsOk(labels) && b[i..n] == EncodeName(labels)
    decreases |b| - i
  {
    ParseNameEnds(b, i);
    if b[i] != 0 {
      var l := b[i];
      ParsedNameIsEncoded(b, i + 1 + l);
      var (labels, n) := ParseName(b, i).value;
      assert labels[1..] == ParseName(b, i + 1 + l).value.0;
      assert b[i..n] == [b[i]] + b[i + 1..i + 1 + l] + b[i + 1 + l..n];
    }
  }

  // What the parser accepts is exactly what begins with an encoded question.
  lemma AcceptedQuestionsAreEncoded(b: Bytes)
    requires ParseQuestion(b).Some?
    ensures var p := ParseQuestion(b).value;
            QuestionOk(p.question) && p.consumed <= |b| && b[..p.consumed] == EncodeQuestion(p.question)
  {
    ParsedNameIsEncoded(b, 0);
    var p := ParseQuestion(b).value;
    var n := p.consumed - 4;
    assert b[..p.consumed] == b[0..n] + [b[n], b[n + 1]] + [b[n + 2], b[n + 3]];
  }

  // -------------------------------------------------------------------- replies

  function LowerByte(b: Byte): (r: Byte)
    ensures r == if 'A' <= b as char <= 'Z' then b - 'A' as int + 'a' as int else b
  {
    if 65 <= b <= 90 then b + 32 else b
  }

  function Lower(s: Bytes): (r: Bytes)
    ensures |r| == |s|
  {
    seq(|s|, i requires 0 <= i < |s| => LowerByte(s[i]))
  }

  function NameText(labels: seq<Label>): Bytes { if labels == [] then [] else Join(DOT, labels) }

  function TrimDot(s: Bytes): (r: Bytes)
    ensures if s != [] && s[|s| - 1] == 46 then r + [46] == s else r == s
  {
    if s != [] && s[|s| - 1] == DOT then s[..|s| - 1] else s
  }

  predicate EndsWith(s: Bytes, tail: Bytes) { |tail| <= |s| && s[|s| - |tail|..] == tail }

  // Case folding as the platform does it. Of it only this is known: on ASCII
  // text it lowers the letters.
  type Fold = Bytes -> Bytes

  ghost predicate Ascii(s: Bytes) { forall i | 0 <= i < |s| :: s[i] < 128 }

  ghost predicate FoldsAscii(fold: Fold) { forall s | Ascii(s) :: fold(s) == Lower(s) }

  // The text test the server makes.
  predicate InDomain(labels: seq<Label>, base: Bytes, fold: Fold) {
    var name := fold(TrimDot(NameText(labels)));
    name == base || EndsWith(name, [DOT] + base)
  }

  function Header(id: nat, rcode: nat, questions: nat, answers: nat): Bytes
    requires id < 0x1_0000 && rcode < 16 && questions < 0x1_0000 && answers < 0x1_0000
  {
    Put16(id) + Put16(0x8400 + rcode) + Put16(questions) + Put16(answers) + Put32(0)
  }

  // The A record, its name a pointer to the question's.
  function AnswerRecord(ip: Bytes): Bytes {
    [0xC0, 0x0C] + Put16(TYPE_A) + Put16(CLASS_IN) + Put32(TTL) + Put16(4) + ip
  }

  function Response(id: nat, question: Bytes, rcode: nat, ip: Option<Bytes>): Bytes
    requires id < 0x1_0000 && rcode < 16
  {
    if ip.Some? && |ip.value| == 4
    then Header(id, rcode, 1, 1) + question + AnswerRecord(ip.value)
    else Header(id, rcode, 1, 0) + question
  }

  datatype Reply = Reply(resp: Option<Bytes>, qname: Bytes, qtype: nat, rcode: nat, forward: bool)

  const SILENT := Reply(None, [], 0, 0, false)

  // Defined on every byte string.
  function Handle(q: Bytes, base: Bytes, ip: Option<Bytes>, fold: Fold): Reply {
    if |q| < HEADER then SILENT
    else
      var id := Get16(q, 0);
      if q[2] >= 128 then SILENT
      else
        var parsed := if Get16(q, 4) == 1 then ParseQuestion(q[HEADER..]) else None;
        if parsed.None? then Reply(Some(Header(id, FORM_ERR, 0, 0)), [], 0, FORM_ERR, false)
        else
          AcceptedQuestionsAreEncoded(q[HEADER..]);
          var question := parsed.value.question;
          var name, echo := NameText(question.labels), q[HEADER..HEADER + parsed.value.consumed];
          if !InDomain(question.labels, base, fold) then
            Reply(Some(Response(id, echo, REFUSED, None)), name, question.qtype, REFUSED, true)
          else if question.qclass != CLASS_IN then
            Reply(Some(Response(id, echo, REFUSED, None)), name, question.qtype, REFUSED, false)
          else    // AAAA, like every type but A, exists without an answer
            Reply(Some(Response(id, echo, NO_ERROR, if question.qtype == TYPE_A then ip else None)),
                  name, question.qtype, NO_ERROR, false)
  }

  lemma HeaderBytes(id: nat, rcode: nat, questions: nat, answers: nat, b: Bytes)
    requires id < 0x1_0000 && rcode < 16 && questions < 0x1_0000 && answers < 0x1_0000 && |b| == HEADER
    requires b[0] == id / 256 && b[1] == id % 256
    requires b[2] == (0x8400 + rcode) / 256 && b[3] == (0x8400 + rcode) % 256
    requires b[4] == questions / 256 && b[5] == questions % 256
    requires b[6] == answers / 256 && b[7] == answers % 256
    requires forall k | 8 <= k < 12 :: b[k] == 0
    ensures b == Header(id, rcode, questions, answers)
  {
    assert b[0..2] == Put16(id) && b[2..4] == Put16(0x8400 + rcode);
    assert b[4..6] == Put16(questions) && b[6..8] == Put16(answers) && b[8..12] == Put32(0);
    assert b == b[0..2] + b[2..4] + b[4..6] + b[6..8] + b[8..12];
  }

  method BuildHeader(id: nat, rcode: nat, answers: nat) returns (resp: Bytes)
    requires id < 0x1_0000 && rcode < 16 && answers < 0x1_0000
    ensures resp == Header(id, rcode, 0, answers)
    ensures resp == [id / 256, id % 256, 0x84, rcode, 0, 0, answers / 256, answers % 256, 0, 0, 0, 0]
  {
    var buf := new Byte[12](_ => 0);
    buf[0], buf[1] := id / 256, id % 256;
    var flags := 0x8400 + rcode;
    buf[2], buf[3] := flags / 256, flags % 256;
    buf[6], buf[7] := answers / 256, answers % 256;
    resp := buf[..];
    HeaderBytes(id, rcode, 0, answers, resp);
  }

  method BuildResp(id: nat, question: Bytes, rcode: nat, ip: Option<Bytes>) returns (resp: Bytes)
    requires id < 0x1_0000 && rcode < 16
    ensures resp == Response(id, question, rcode, ip)
  {
    var answers := 0;
    if ip.Some? && |ip.value| == 4 { answers := 1; }
    resp := BuildHeader(id, rcode, answers);
    resp := resp[4 := 0][5 := 1];
    assert resp == Header(id, rcode, 1, answers);
    resp := resp + question;
    if answers == 1 {
      var ans: Bytes := [0xC0, 0x0C];
      ans := ans + Put16(TYPE_A);
      ans := ans + Put16(CLASS_IN);
      ans := ans + Put32(TTL);
      ans := ans + Put16(4);
      ans := ans + ip.value;
      resp := resp + ans;
    }
  }

  // ------------------------------------------------------ reading a message back

  datatype Record = Record(labels: seq<Label>, rtype: nat, rclass: nat, ttl: nat, rdata: Bytes)

  datatype Message = Message(id: nat, flags: nat, questions: seq<Question>, answers: seq<Record>)

  // A name with compression pointers, which must lead strictly back.
  function ReadName(m: Bytes, off: nat, limit: nat): Option<(seq<Label>, nat)>
    decreases limit, if off <= |m| then |m| - off else 0
  {
    if off >= |m| then None
    else
      var l := m[off];
      if l == 0 then Some(([], off + 1))
      else if l < 64 then
        if off + 1 + l > |m| then None
        else Prepend([m[off + 1..off + 1 + l]], ReadName(m, off + 1 + l, limit))
      else if l < 192 || off + 2 > |m| then None
      else
        var target := (l as int - 192) * 256 + m[off + 1];
        if target >= limit then None
        else
          var r := ReadName(m, target, target);
          if r.Some? then Some((r.value.0, off + 2)) else None
  }

  function QuestionAt(m: Bytes, off: nat): Option<(Question, nat)> {
    var name := ReadName(m, off, off);
    if name.None? || name.value.1 + 4 > |m| then None
    else Some((Question(name.value.0, Get16(m, name.value.1), Get16(m, name.value.1 + 2)), name.value.1 + 4))
  }

  function RecordAt(m: Bytes, off: nat): Option<(Record, nat)> {
    var name := ReadName(m, off, off);
    if name.None? || name.value.1 + 10 > |m| then None
    else
      var i := name.value.1;
      var n := Get16(m, i + 8);
      if i + 10 + n > |m| then None
      else Some((Record(name.value.0, Get16(m, i), Get16(m, i + 2), Get32(m, i + 4), m[i + 10..i + 10 + n]),
          i + 10 + n))
  }

  function QuestionsAt(m: Bytes, off: nat, n: nat): Option<(seq<Question>, nat)>
    decreases n
  {
    if n == 0 then Some(([], off))
    else
      var first := QuestionAt(m, off);
      if first.None? then None
      else
        var more := QuestionsAt(m, first.value.1, n - 1);
        if more.Some? then Some(([first.value.0] + more.value.0, more.value.1)) else None
  }

  function RecordsAt(m: Bytes, off: nat, n: nat): Option<(seq<Record>, nat)>
    decreases n
  {
    if n == 0 then Some(([], off))
    else
      var first := RecordAt(m, off);
      if first.None? then None
      else
        var more := RecordsAt(m, first.value.1, n - 1);
        if more.Some? then Some(([first.value.0] + more.value.0, more.value.1)) else None
  }

  // A message is its header, as many questions and answers as the header
  // counts, no authority or additional records, and nothing after them.
  function Decode(m: Bytes): Option<Message> {
    if |m| < HEADER || Get16(m, 8) != 0 || Get16(m, 10) != 0 then None
    else
      var qs := QuestionsAt(m, HEADER, Get16(m, 4));
      if qs.None? then None
      else
        var rs := RecordsAt(m, qs.value.1, Get16(m, 6));
        if rs.None? || rs.value.1 != |m| then None
        else Some(Message(Get16(m, 0), Get16(m, 2), qs.value.0, rs.value.0))
  }

  lemma {:induction false} ReadsEncodedName(m: Bytes, before: Bytes, labels: seq<Label>, after: Bytes, limit: nat)
    requires LabelsOk(labels) && m == before + EncodeName(labels) + after
    ensures ReadName(m, |before|, limit) == Some((labels, |before| + |EncodeName(labels)|))
    decreases |labels|
  {
    if labels != [] {
      FirstLabel(m, before, labels, after);
      ReadsEncodedName(m, before + [|labels[0]|] + labels[0], labels[1..], after, limit);
    }
  }

  lemma ReadsEncodedQuestion(m: Bytes, before: Bytes, q: Question, after: Bytes)
    requires QuestionOk(q) && m == before + EncodeQuestion(q) + after
    ensures QuestionAt(m, |before|) == Some((q, |before| + |EncodeQuestion(q)|))
  {
    var name, numbers := EncodeName(q.labels), Put16(q.qtype) + Put16(q.qclass);
    assert EncodeQuestion(q) == name + numbers;
    Reassociate(before, name, numbers, after);
    ReadsEncodedName(m, before, q.labels, numbers + after, |before|);
    TwoNumbers(m, before + name, q.qtype, q.qclass, after);
  }

  lemma AnswerFields(before: Bytes, ip: Bytes)
    requires |ip| == 4
    ensures var m, off := before + AnswerRecord(ip), |before|;
            && |m| == off + 16 && m[off] == 0xC0 && m[off + 1] == 0x0C
            && Get16(m, off + 2) == TYPE_A && Get16(m, off + 4) == CLASS_IN && Get32(m, off + 6) == TTL
            && Get16(m, off + 10) == 4 && m[off + 12..off + 16] == ip
  {
    var r, m, off := AnswerRecord(ip), before + AnswerRecord(ip), |before|;
    assert forall k | 0 <= k < 16 :: m[off + k] == r[k];
    assert r[2..12] == Put16(TYPE_A) + Put16(CLASS_IN) + Put32(TTL) + Put16(4);
  }

  // The answer's name is the pointer 0xC00C, which leads to the question's name.
  lemma ReadsAnswer(header: Bytes, q: Question, ip: Bytes)
    requires |header| == HEADER && QuestionOk(q) && |ip| == 4
    ensures var m, off := header + EncodeQuestion(q) + AnswerRecord(ip), HEADER + |EncodeQuestion(q)|;
            RecordAt(m, off) == Some((Record(q.labels, TYPE_A, CLASS_IN, TTL, ip), |m|))
  {
    var front := header + EncodeQuestion(q);
    var m, off := front + AnswerRecord(ip), |front|;
    AnswerFields(front, ip);
    var numbers := Put16(q.qtype) + Put16(q.qclass);
    assert EncodeQuestion(q) == EncodeName(q.labels) + numbers;
    Reassociate(header, EncodeName(q.labels), numbers, AnswerRecord(ip));
    ReadsEncodedName(m, header, q.labels, numbers + AnswerRecord(ip), HEADER);
    assert ReadName(m, off, off) == Some((q.labels, off + 2));
  }

  lemma HeaderFields(id: nat, rcode: nat, questions: nat, answers: nat, rest: Bytes)
    requires id < 0x1_0000 && rcode < 16 && questions < 0x1_0000 && answers < 0x1_0000
    ensures var m := Header(id, rcode, questions, answers) + rest;
            && |m| == HEADER + |rest|
            && Get16(m, 0) == id && Get16(m, 2) == 0x8400 + rcode && Get16(m, 4) == questions
            && Get16(m, 6) == answers && Get16(m, 8) == 0 && Get16(m, 10) == 0
  {
    var h, m := Header(id, rcode, questions, answers), Header(id, rcode, questions, answers) + rest;
    assert forall k | 0 <= k < 12 :: m[k] == h[k];
    assert Put32(0) == [0, 0, 0, 0];
  }

  // ------------------------------------------------------------- main results

  // The question of a query the server takes up, if it has a good one.
  function QuestionOf(q: Bytes): Option<Question> {
    if |q| >= HEADER && q[2] < 128 && Get16(q, 4) == 1 then
      var parsed := ParseQuestion(q[HEADER..]);
      if parsed.Some? then Some(parsed.value.question) else None
    else None
  }

  lemma OneQuestion(m: Bytes, off: nat, q: Question, end: nat)
    requires QuestionAt(m, off) == Some((q, end))
    ensures QuestionsAt(m, off, 1) == Some(([q], end))
  {
    assert QuestionsAt(m, end, 0) == Some(([], end)) && [q] + [] == [q];
  }

  lemma OneRecord(m: Bytes, off: nat, r: Record, end: nat)
    requires RecordAt(m, off) == Some((r, end))
    ensures RecordsAt(m, off, 1) == Some(([r], end))
  {
    assert RecordsAt(m, end, 0) == Some(([], end)) && [r] + [] == [r];
  }

  // A message decodes to what its parts read as.
  lemma PartsDecode(m: Bytes, id: nat, flags: nat, question: Question, off: nat, answers: seq<Record>)
    requires |m| >= HEADER && Get16(m, 8) == 0 && Get16(m, 10) == 0
    requires Get16(m, 0) == id && Get16(m, 2) == flags && Get16(m, 4) == 1 && Get16(m, 6) == |answers|
    requires QuestionAt(m, HEADER) == Some((question, off)) && RecordsAt(m, off, |answers|) == Some((answers, |m|))
    ensures Decode(m) == Some(Message(id, flags, [question], answers))
  {
    OneQuestion(m, HEADER, question, off);
  }

  lemma ResponseDecodes(id: nat, question: Question, rcode: nat, ip: Option<Bytes>)
    requires id < 0x1_0000 && rcode < 16 && QuestionOk(question) && (ip.Some? ==> |ip.value| == 4)
    ensures Decode(Response(id, EncodeQuestion(question), rcode, ip)) ==
            Some(Message(id, 0x8400 + rcode, [question],
                         if ip.Some? then [Record(question.labels, TYPE_A, CLASS_IN, TTL, ip.value)] else []))
  {
    var echo := EncodeQuestion(question);
    var header := Header(id, rcode, 1, if ip.Some? then 1 else 0);
    var off := HEADER + |echo|;
    HeaderFields(id, rcode, 1, if ip.Some? then 1 else 0, []);
    if ip.Some? {
      var m, record := header + echo + AnswerRecord(ip.value), Record(question.labels, TYPE_A, CLASS_IN, TTL, ip.value);
      assert m == header + (echo + AnswerRecord(ip.value));
      HeaderFields(id, rcode, 1, 1, echo + AnswerRecord(ip.value));
      ReadsEncodedQuestion(m, header, question, AnswerRecord(ip.value));
      ReadsAnswer(header, question, ip.value);
      OneRecord(m, off, record, |m|);
      PartsDecode(m, id, 0x8400 + rcode, question, off, [record]);
    } else {
      var m := header + echo;
      assert m == header + echo + [];
      HeaderFields(id, rcode, 1, 0, echo);
      ReadsEncodedQuestion(m, header, question, []);
      PartsDecode(m, id, 0x8400 + rcode, question, off, []);
    }
  }

  // The address a reply may give: four bytes, or none.
  function AddressOf(ip: Option<Bytes>): Option<Bytes> {
    if ip.Some? && |ip.value| == 4 then ip else None
  }

  // Every reply decodes, with the query's id, as a response (QR and AA set, no
  // other flag but the code): without sections if the query was malformed, else
  // with exactly the query's question and an answer exactly in the good case.
  lemma RepliesAreWellFormed(q: Bytes, base: Bytes, ip: Option<Bytes>, fold: Fold)
    requires Handle(q, base, ip, fold).resp.Some?
    ensures |q| >= 12
    ensures var r := Handle(q, base, ip, fold);
            var good := QuestionOf(q).Some? && InDomain(QuestionOf(q).value.labels, base, fold)
                        && QuestionOf(q).value.qclass == 1;
            && r.rcode == (if QuestionOf(q).None? then 1 else if good then 0 else 5)
            && Decode(r.resp.value) ==
               Some(Message(Get16(q, 0), 0x8400 + r.rcode,
                            if QuestionOf(q).Some? then [QuestionOf(q).value] else [],
                            if good && QuestionOf(q).value.qtype == 1 && ip.Some? && |ip.value| == 4
                            then [Record(QuestionOf(q).value.labels, 1, 1, 60, ip.value)] else []))
  {
    if QuestionOf(q).Some? {
      GoodQuestionIsAnswered(q, base, ip, fold);
    } else {
      FormErrDecodes(Get16(q, 0));
    }
  }

  // What the caller is told beside the reply: to forward exactly the queries
  // outside the domain, and of which name and type the query was.
  lemma ForwardsTheRest(q: Bytes, base: Bytes, ip: Option<Bytes>, fold: Fold)
    ensures var r := Handle(q, base, ip, fold);
            match QuestionOf(q)
            case Some(question) =>
              && r.forward == !InDomain(question.labels, base, fold)
              && r.qtype == question.qtype
              && r.qname == if question.labels == [] then [] else Join(46, question.labels)
            case None => !r.forward && r.qname == [] && r.qtype == 0
  {
  }

  lemma FormErrDecodes(id: nat)
    requires id < 0x1_0000
    ensures Decode(Header(id, FORM_ERR, 0, 0)) == Some(Message(id, 0x8400 + FORM_ERR, [], []))
  {
    var m := Header(id, FORM_ERR, 0, 0);
    HeaderFields(id, FORM_ERR, 0, 0, []);
    assert m + [] == m;
    assert QuestionsAt(m, HEADER, 0) == Some(([], HEADER)) && RecordsAt(m, HEADER, 0) == Some(([], HEADER));
  }

  lemma GoodQuestionIsAnswered(q: Bytes, base: Bytes, ip: Option<Bytes>, fold: Fold)
    requires QuestionOf(q).Some?
    ensures var question, r := QuestionOf(q).value, Handle(q, base, ip, fold);
            var good := InDomain(question.labels, base, fold) && question.qclass == CLASS_IN;
            var answer := if good && question.qtype == TYPE_A then AddressOf(ip) else None;
            && QuestionOk(question) && r.rcode == (if good then NO_ERROR else REFUSED)
            && r.resp == Some(Response(Get16(q, 0), EncodeQuestion(question), r.rcode, answer))
            && Decode(r.resp.value) ==
               Some(Message(Get16(q, 0), 0x8400 + r.rcode, [question],
                            if answer.Some?
                            then [Record(question.labels, TYPE_A, CLASS_IN, TTL, answer.value)] else []))
  {
    var question, r := QuestionOf(q).value, Handle(q, base, ip, fold);
    AcceptedQuestionsAreEncoded(q[HEADER..]);
    var n := ParseQuestion(q[HEADER..]).value.consumed;
    assert q[HEADER..HEADER + n] == q[HEADER..][..n];
    ResponseDecodes(Get16(q, 0), question, r.rcode,
                    if r.rcode == NO_ERROR && question.qtype == TYPE_A then AddressOf(ip) else None);
  }

  // Only too short messages and responses go unanswered.
  lemma SilentWhen(q: Bytes, base: Bytes, ip: Option<Bytes>, fold: Fold)
    ensures Handle(q, base, ip, fold).resp.None? <==> |q| < HEADER || Get16(q, 2) >= 0x8000
  {
  }

  // --------------------------------------------------- the domain, label by label

  ghost predicate DotFree(labels: seq<Label>) { forall k | 0 <= k < |labels| :: DOT !in labels[k] }

  ghost predicate PlainLabels(labels: seq<Label>) {
    DotFree(labels) && forall k | 0 <= k < |labels| :: labels[k] != []
  }

  ghost predicate AsciiLabels(labels: seq<Label>) { forall k | 0 <= k < |labels| :: Ascii(labels[k]) }

  function LowerAll(labels: seq<Label>): (r: seq<Label>)
    ensures |r| == |labels| && forall k | 0 <= k < |labels| :: r[k] == Lower(labels[k])
  {
    seq(|labels|, k requires 0 <= k < |labels| => Lower(labels[k]))
  }

  ghost predicate EndsWithLabels(labels: seq<Label>, base: seq<Label>) {
    |base| <= |labels| && labels[|labels| - |base|..] == base
  }

  lemma LowerFirst(c: Byte, s: Bytes)
    ensures Lower([c] + s) == [LowerByte(c)] + Lower(s)
  {
  }

  lemma LowerAllFirst(first: Label, rest: seq<Label>)
    ensures LowerAll([first] + rest) == [Lower(first)] + LowerAll(rest)
  {
  }

  // Lowering moves no dot, so it does not matter whether the text is cut before
  // or after.
  lemma {:induction false} LowerSplits(s: Bytes)
    ensures Split(DOT, Lower(s)) == LowerAll(Split(DOT, s))
  {
    if s == [] {
      assert Lower(s) == [] && LowerAll([[]]) == [[]];
    } else {
      var c, tail := s[0], s[1..];
      assert s == [c] + tail;
      LowerFirst(c, tail);
      LowerSplits(tail);
      assert Lower(s)[1..] == Lower(tail);
      var rest := Split(DOT, tail);
      assert rest == [rest[0]] + rest[1..];
      LowerAllFirst(rest[0], rest[1..]);
      LowerAllFirst([], rest);
      LowerAllFirst([c] + rest[0], rest[1..]);
      LowerFirst(c, rest[0]);
    }
  }

  lemma {:induction false} JoinAppend(a: seq<Label>, b: seq<Label>)
    requires a != [] && b != []
    ensures Join(DOT, a + b) == Join(DOT, a) + [DOT] + Join(DOT, b)
  {
    if |a| == 1 {
      assert (a + b)[1..] == b;
    } else {
      JoinAppend(a[1..], b);
      assert (a + b)[1..] == a[1..] + b;
    }
  }

  lemma {:induction false} JoinEndsPlain(labels: seq<Label>)
    requires PlainLabels(labels) && labels != []
    ensures var s := Join(DOT, labels); s != [] && s[|s| - 1] != DOT
  {
    if |labels| > 1 { JoinEndsPlain(labels[1..]); }
  }

  lemma {:induction false} JoinIsAscii(labels: seq<Label>)
    requires AsciiLabels(labels) && labels != []
    ensures Ascii(Join(DOT, labels))
  {
    if |labels| > 1 { JoinIsAscii(labels[1..]); }
  }

  lemma TextSuffixToLabels(labels: seq<Label>, base: seq<Label>)
    requires DotFree(labels) && DotFree(base) && labels != [] && base != []
    requires EndsWith(Join(DOT, labels), [DOT] + Join(DOT, base))
    ensures EndsWithLabels(labels, base)
  {
    var s, b := Join(DOT, labels), Join(DOT, base);
    CutIsUnique(DOT, labels);
    CutIsUnique(DOT, base);
    var front := s[..|s| - |b| - 1];
    assert s == front + [DOT] + b;
    SplitAtSeparator(DOT, front, b);
    assert labels == Split(DOT, front) + base;
  }

  lemma LabelSuffixToText(labels: seq<Label>, base: seq<Label>)
    requires base != [] && EndsWithLabels(labels, base) && labels != base
    ensures EndsWith(Join(DOT, labels), [DOT] + Join(DOT, base))
  {
    var front := labels[..|labels| - |base|];
    assert labels == front + base;
    JoinAppend(front, base);
    assert Join(DOT, labels) == Join(DOT, front) + ([DOT] + Join(DOT, base));
  }

  // Text that ends with a dot and the base is labels that end with the base's.
  lemma SuffixIsByLabel(labels: seq<Label>, base: seq<Label>)
    requires DotFree(labels) && DotFree(base) && labels != [] && base != []
    ensures var s, b := Join(DOT, labels), Join(DOT, base);
            (s == b || EndsWith(s, [DOT] + b)) <==> EndsWithLabels(labels, base)
  {
    var s, b := Join(DOT, labels), Join(DOT, base);
    CutIsUnique(DOT, labels);
    CutIsUnique(DOT, base);
    if EndsWith(s, [DOT] + b) { TextSuffixToLabels(labels, base); }
    if EndsWithLabels(labels, base) && labels != base { LabelSuffixToText(labels, base); }
  }

  // What the server's text test computes, for every list of labels: the last
  // dot taken off, the text is cut at its dots, and those pieces, lowered, end
  // with the base's labels.
  lemma InDomainOfTheText(labels: seq<Label>, base: seq<Label>, fold: Fold)
    requires AsciiLabels(labels) && FoldsAscii(fold) && PlainLabels(base) && base != []
    ensures InDomain(labels, Join(DOT, base), fold)
       <==> EndsWithLabels(LowerAll(Split(DOT, TrimDot(NameText(labels)))), base)
  {
    if labels != [] { JoinIsAscii(labels); }
    var text := TrimDot(NameText(labels));
    assert Ascii(text);
    LowerSplits(text);
    var pieces := Split(DOT, Lower(text));
    SplitIsTheCut(DOT, Lower(text));
    SuffixIsByLabel(pieces, base);
  }

  // For names made of dot-free labels those pieces are the labels, so in-domain
  // means: the labels end, case aside, with the base domain's.
  lemma InDomainByLabel(labels: seq<Label>, base: seq<Label>, fold: Fold)
    requires PlainLabels(labels) && AsciiLabels(labels) && FoldsAscii(fold) && PlainLabels(base) && base != []
    ensures InDomain(labels, Join(DOT, base), fold) <==> EndsWithLabels(LowerAll(labels), base)
  {
    InDomainOfTheText(labels, base, fold);
    if labels == [] {
      assert Split(DOT, TrimDot(NameText(labels))) == [[]];
      assert LowerAll([[]])[0] == [];
      assert EndsWithLabels(LowerAll([[]]), base) ==> base == [[]];
    } else {
      JoinEndsPlain(labels);
      CutIsUnique(DOT, labels);
    }
  }

  // An answer is given exactly for A/IN questions under the base domain.
  lemma AnswersExactlyTheDomain(q: Bytes, base: seq<Label>, ip: Bytes, fold: Fold)
    requires |ip| == 4 && QuestionOf(q).Some? && FoldsAscii(fold) && PlainLabels(base) && base != []
    requires PlainLabels(QuestionOf(q).value.labels) && AsciiLabels(QuestionOf(q).value.labels)
    ensures var r := Handle(q, Join(DOT, base), Some(ip), fold);
            var question := QuestionOf(q).value;
            && r.resp.Some? && Decode(r.resp.value).Some?
            && (Decode(r.resp.value).value.answers == [Record(question.labels, 1, 1, 60, ip)] <==>
                question.qtype == 1 && question.qclass == 1 && EndsWithLabels(LowerAll(question.labels), base))
  {
    RepliesAreWellFormed(q, Join(DOT, base), Some(ip), fold);
    InDomainByLabel(QuestionOf(q).value.labels, base, fold);
  }

  // So a label with dots inside passes for several: any ASCII text, a dot and the
  // base domain, all in one label, is taken for a name in the domain.
  lemma DottedLabelPasses(front: Label, base: seq<Label>, fold: Fold)
    requires Ascii(front) && FoldsAscii(fold) && PlainLabels(base) && AsciiLabels(base) && base != []
    requires LowerAll(base) == base
    ensures var dotted := front + [DOT] + Join(DOT, base);
            InDomain([dotted], Join(DOT, base), fold) && !EndsWithLabels(LowerAll([dotted]), base)
  {
    var dotted := front + [DOT] + Join(DOT, base);
    JoinIsAscii(base);
    JoinEndsPlain(base);
    CutIsUnique(DOT, base);
    SplitAtSeparator(DOT, front, Join(DOT, base));
    InDomainOfTheText([dotted], base, fold);
    assert Split(DOT, TrimDot(NameText([dotted]))) == Split(DOT, front) + base;
    var front' := Split(DOT, front);
    assert LowerAll(front' + base)[|front'|..] == LowerAll(base);
    LowerSplits(dotted);
    assert DOT in LowerAll([dotted])[0] by {
      assert Lower(dotted)[|front|] == LowerByte(dotted[|front|]) == DOT;
    }
  }
}
