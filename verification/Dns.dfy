/** The lab's DNS responder: one question per message, sections 3.1 and 4.1 of RFC 1035. */
module Dns {
  import opened Prelude

  type Byte = b: int | 0 <= b < 256

  type Label = seq<Byte>

  /** Names in dotted lower case, with the four bytes of their address. */
  type Records = map<string, seq<Byte>>

  // ---------- Messages ----------

  /** A one-question query; the tail is whatever follows the question. */
  datatype Query = Query(id: nat, flags: nat, additional: nat, labels: seq<Label>, kind: nat, klass: nat, tail: seq<Byte>)

  function U16(n: nat): seq<Byte>
    requires n < 0x10000
  {
    [n / 256, n % 256]
  }

  function Number(data: seq<Byte>, at: nat): (n: nat)
    requires at + 2 <= |data|
    ensures n < 0x10000
  {
    var high: int, low: int := data[at], data[at + 1];
    high * 256 + low
  }

  function NameBytes(labels: seq<Label>): seq<Byte>
    requires forall i :: 0 <= i < |labels| ==> ProperLabel(labels[i])
  {
    if labels == [] then [0]
    else
      assert ProperLabel(labels[0]);
      var length: Byte := |labels[0]|;
      [length] + labels[0] + NameBytes(labels[1..])
  }

  predicate ProperLabel(l: Label) {
    1 <= |l| <= 63 && forall i :: 0 <= i < |l| ==> l[i] < 128
  }

  /** A standard query with one question and no answers, whose name has at most 255 octets. */
  predicate WellFormed(q: Query) {
    && q.id < 0x10000 && q.flags < 0x800 && q.additional < 0x10000 && q.kind < 0x10000 && q.klass < 0x10000
    && (forall i :: 0 <= i < |q.labels| ==> ProperLabel(q.labels[i]))
    && |NameBytes(q.labels)| <= 255
    && 12 + |NameBytes(q.labels)| + 4 + |q.tail| <= 512
  }

  function Question(q: Query): seq<Byte>
    requires WellFormed(q)
  {
    NameBytes(q.labels) + U16(q.kind) + U16(q.klass)
  }

  function Wire(q: Query): seq<Byte>
    requires WellFormed(q)
  {
    U16(q.id) + U16(q.flags) + U16(1) + U16(0) + U16(0) + U16(q.additional) + Question(q) + q.tail
  }

  function Lower(b: Byte): char
    requires b < 128
  {
    if 65 <= b <= 90 then (b + 32) as char else b as char
  }

  function Text(l: Label): string
    requires ProperLabel(l)
  {
    seq(|l|, i requires 0 <= i < |l| => Lower(l[i]))
  }

  function Dotted(labels: seq<Label>): string
    requires forall i :: 0 <= i < |labels| ==> ProperLabel(labels[i])
  {
    if labels == [] then "" else if |labels| == 1 then Text(labels[0]) else Text(labels[0]) + "." + Dotted(labels[1..])
  }

  /** The address record: a pointer to the question's name, type A, class IN, thirty seconds, four bytes. */
  function AddressRecord(address: seq<Byte>): seq<Byte> {
    [0xc0, 0x0c] + U16(1) + U16(1) + [0, 0, 0, 30] + U16(4) + address
  }

  /** What a well-formed query is told: its own identifier and question, and the address if it asked for one. */
  function Answer(q: Query, records: Records): seq<Byte>
    requires WellFormed(q)
  {
    var name := Dotted(q.labels);
    var payload := if name in records && q.klass == 1 && q.kind == 1 then AddressRecord(records[name]) else [];
    U16(q.id) + U16(0x8400 + q.flags / 256 % 2 * 256 + if name in records then 0 else 3)
    + U16(1) + U16(if payload == [] then 0 else 1) + U16(0) + U16(0) + Question(q) + payload
  }

  // ---------- The parser ----------

  datatype Parsed = Parsed(labels: seq<Label>, end: nat)

  /** The labels from a cursor on, with the position after the final zero. */
  function Labels(data: seq<Byte>, cursor: nat, count: nat): Option<Parsed>
    decreases |data| - cursor
  {
    if cursor >= |data| then None
    else
      var length := data[cursor];
      if length == 0 then Some(Parsed([], cursor + 1))
      else if length > 63 || cursor + 1 + length > |data| || count >= 127 then None
      else
        var text := data[cursor + 1..cursor + 1 + length];
        if !ProperLabel(text) then None
        else match Labels(data, cursor + 1 + length, count + 1)
             case None => None
             case Some(rest) => Some(Parsed([text] + rest.labels, rest.end))
  }

  lemma {:induction false} LabelsProper(data: seq<Byte>, cursor: nat, count: nat)
    requires Labels(data, cursor, count).Some?
    ensures var p := Labels(data, cursor, count).value;
            && (forall i :: 0 <= i < |p.labels| ==> ProperLabel(p.labels[i]))
            && cursor < p.end <= |data| && data[cursor..p.end] == NameBytes(p.labels)
    decreases |data| - cursor
  {
    var length := data[cursor];
    if length != 0 {
      LabelsProper(data, cursor + 1 + length, count + 1);
      var p := Labels(data, cursor, count).value;
      var text := data[cursor + 1..cursor + 1 + length];
      assert p.labels[0] == text && p.labels[1..] == Labels(data, cursor + 1 + length, count + 1).value.labels;
      assert data[cursor..p.end] == [length] + text + data[cursor + 1 + length..p.end];
    }
  }

  /** The query a message holds, if it is accepted. */
  function Parse(data: seq<Byte>): Option<Query> {
    if !(12 <= |data| <= 512) then None
    else if Number(data, 2) >= 0x800 || Number(data, 4) != 1 || Number(data, 6) != 0 || Number(data, 8) != 0 then None
    else match Labels(data, 12, 0)
         case None => None
         case Some(p) =>
           if p.end + 4 > |data| || p.end - 12 > 255 then None
           else Some(Query(Number(data, 0), Number(data, 2), Number(data, 10), p.labels,
                           Number(data, p.end), Number(data, p.end + 2), data[p.end + 4..]))
  }

  /** A piece stands at a position of a message. */
  ghost predicate At(data: seq<Byte>, cursor: nat, piece: seq<Byte>) {
    cursor + |piece| <= |data| && forall i :: 0 <= i < |piece| ==> data[cursor + i] == piece[i]
  }

  lemma AtSplit(data: seq<Byte>, cursor: nat, a: seq<Byte>, b: seq<Byte>)
    requires At(data, cursor, a + b)
    ensures At(data, cursor, a) && At(data, cursor + |a|, b)
  {
    forall i | 0 <= i < |a| ensures data[cursor + i] == a[i] {
      assert (a + b)[i] == a[i];
    }
    forall i | 0 <= i < |b| ensures data[cursor + |a| + i] == b[i] {
      assert (a + b)[|a| + i] == b[i];
    }
  }

  lemma FirstLabel(data: seq<Byte>, cursor: nat, count: nat, text: Label)
    requires ProperLabel(text) && count < 127 && At(data, cursor, [|text|] + text)
    ensures Labels(data, cursor, count) == Prepend([text], Labels(data, cursor + 1 + |text|, count + 1))
  {
    var length: Byte := |text|;
    AtSplit(data, cursor, [length], text);
    assert data[cursor + 0] == [length][0];
    assert data[cursor + 1..cursor + 1 + |text|] == text;
  }

  lemma {:induction false} LabelsOfName(data: seq<Byte>, cursor: nat, count: nat, labels: seq<Label>)
    requires (forall i :: 0 <= i < |labels| ==> ProperLabel(labels[i])) && count + |labels| <= 127
    requires At(data, cursor, NameBytes(labels))
    ensures Labels(data, cursor, count) == Some(Parsed(labels, cursor + |NameBytes(labels)|))
    decreases |labels|
  {
    if labels == [] {
      assert data[cursor + 0] == [0][0];
    } else {
      var length: Byte := |labels[0]|;
      var rest := NameBytes(labels[1..]);
      AtSplit(data, cursor, [length] + labels[0], rest);
      FirstLabel(data, cursor, count, labels[0]);
      LabelsOfName(data, cursor + 1 + |labels[0]|, count + 1, labels[1..]);
      assert [labels[0]] + labels[1..] == labels;
    }
  }

  /** A name of at most 255 octets has at most 127 labels. */
  lemma {:induction false} LabelCount(labels: seq<Label>)
    requires forall i :: 0 <= i < |labels| ==> ProperLabel(labels[i])
    ensures |NameBytes(labels)| >= 2 * |labels| + 1
  {
    if labels != [] {
      LabelCount(labels[1..]);
    }
  }

  lemma Numbers(data: seq<Byte>, at: nat, n: nat)
    requires at + 2 <= |data| && n < 0x10000 && data[at..at + 2] == U16(n)
    ensures Number(data, at) == n
  {
    assert data[at] == data[at..at + 2][0] && data[at + 1] == data[at..at + 2][1];
  }

  lemma NumberBytes(data: seq<Byte>, at: nat)
    requires at + 2 <= |data|
    ensures U16(Number(data, at)) == data[at..at + 2]
  {
    var x: int, y: int := data[at], data[at + 1];
    assert (x * 256 + y) / 256 == x && (x * 256 + y) % 256 == y;
  }

  lemma Header(q: Query)
    requires WellFormed(q)
    ensures var w, n := Wire(q), |NameBytes(q.labels)|;
            && |w| == 16 + n + |q.tail| && Number(w, 0) == q.id && Number(w, 2) == q.flags && Number(w, 4) == 1
            && Number(w, 6) == 0 && Number(w, 8) == 0 && Number(w, 10) == q.additional
  {
    var w := Wire(q);
    Numbers(w, 0, q.id);
    Numbers(w, 2, q.flags);
    Numbers(w, 4, 1);
    Numbers(w, 6, 0);
    Numbers(w, 8, 0);
    Numbers(w, 10, q.additional);
  }

  lemma Body(q: Query)
    requires WellFormed(q)
    ensures var w, n := Wire(q), |NameBytes(q.labels)|;
            && |w| == 16 + n + |q.tail| && w[12..12 + n] == NameBytes(q.labels)
            && Number(w, 12 + n) == q.kind && Number(w, 14 + n) == q.klass && w[16 + n..] == q.tail
  {
    var w, n := Wire(q), |NameBytes(q.labels)|;
    Numbers(w, 12 + n, q.kind);
    Numbers(w, 14 + n, q.klass);
  }

  lemma NameInWire(q: Query)
    requires WellFormed(q)
    ensures At(Wire(q), 12, NameBytes(q.labels))
  {
    Body(q);
    var w, name := Wire(q), NameBytes(q.labels);
    forall i | 0 <= i < |name| ensures w[12 + i] == name[i] {
      assert w[12..12 + |name|][i] == name[i];
    }
  }

  lemma ParseFrom(data: seq<Byte>, q: Query, n: nat)
    requires WellFormed(q) && n == |NameBytes(q.labels)| && |data| == 16 + n + |q.tail| && At(data, 12, NameBytes(q.labels))
    requires Number(data, 0) == q.id && Number(data, 2) == q.flags && Number(data, 4) == 1 && Number(data, 6) == 0
    requires Number(data, 8) == 0 && Number(data, 10) == q.additional && Number(data, 12 + n) == q.kind
    requires Number(data, 14 + n) == q.klass && data[16 + n..] == q.tail
    ensures Parse(data) == Some(q)
  {
    LabelCount(q.labels);
    LabelsOfName(data, 12, 0, q.labels);
  }

  /** Every well-formed query is parsed as itself; the limit on labels never rejects one. */
  lemma ParsesEveryQuery(q: Query)
    requires WellFormed(q)
    ensures Parse(Wire(q)) == Some(q)
  {
    Header(q);
    Body(q);
    NameInWire(q);
    ParseFrom(Wire(q), q, |NameBytes(q.labels)|);
  }

  /** Whatever is accepted is the wire form of a well-formed query. */
  lemma AcceptsOnlyQueries(data: seq<Byte>)
    requires Parse(data).Some?
    ensures WellFormed(Parse(data).value) && Wire(Parse(data).value) == data
  {
    var q, p := Parse(data).value, Labels(data, 12, 0).value;
    LabelsProper(data, 12, 0);
    HeaderBytes(data);
    NumberBytes(data, p.end);
    NumberBytes(data, p.end + 2);
    Reassembled(data, p.end);
  }

  lemma HeaderBytes(data: seq<Byte>)
    requires |data| >= 12
    ensures U16(Number(data, 0)) == data[0..2] && U16(Number(data, 2)) == data[2..4] && U16(Number(data, 4)) == data[4..6]
    ensures U16(Number(data, 6)) == data[6..8] && U16(Number(data, 8)) == data[8..10] && U16(Number(data, 10)) == data[10..12]
  {
    NumberBytes(data, 0);
    NumberBytes(data, 2);
    NumberBytes(data, 4);
    NumberBytes(data, 6);
    NumberBytes(data, 8);
    NumberBytes(data, 10);
  }

  lemma Reassembled(data: seq<Byte>, end: nat)
    requires 12 <= end && end + 4 <= |data|
    ensures data == data[0..2] + data[2..4] + data[4..6] + data[6..8] + data[8..10] + data[10..12]
                    + (data[12..end] + data[end..end + 2] + data[end + 2..end + 4]) + data[end + 4..]
  {
  }

  /** A message is answered if and only if it is a well-formed query. */
  lemma AnsweredExactly(data: seq<Byte>)
    ensures Parse(data).Some? <==> exists q :: WellFormed(q) && Wire(q) == data
  {
    if Parse(data).Some? {
      AcceptsOnlyQueries(data);
    }
    if q :| WellFormed(q) && Wire(q) == data {
      ParsesEveryQuery(q);
    }
  }

  function Prepend(labels: seq<Label>, rest: Option<Parsed>): Option<Parsed> {
    match rest
    case None => None
    case Some(p) => Some(Parsed(labels + p.labels, p.end))
  }

  /** The name as read, label by label; every read stays inside the message. */
  method ReadName(data: seq<Byte>) returns (parsed: Option<Parsed>)
    requires 12 <= |data|
    ensures parsed == Labels(data, 12, 0)
  {
    var cursor, labels: seq<Label> := 12, [];
    Nothing(Labels(data, 12, 0));
    while cursor < |data|
      invariant 12 <= cursor <= |data|
      invariant Labels(data, 12, 0) == Prepend(labels, Labels(data, cursor, |labels|))
    {
      var length := data[cursor];
      cursor := cursor + 1;
      if length == 0 {
        assert labels + [] == labels;
        return Some(Parsed(labels, cursor));
      }
      if length > 63 || cursor + length > |data| || |labels| >= 127 {
        return None;
      }
      var text := data[cursor..cursor + length];
      if !ProperLabel(text) {
        return None;
      }
      Shifted(labels, text, Labels(data, cursor + length, |labels| + 1));
      labels := labels + [text];
      cursor := cursor + length;
    }
    return None;
  }

  /** The responder: silent on anything but a well-formed query. */
  method DnsReply(data: seq<Byte>, records: Records) returns (reply: Option<seq<Byte>>)
    requires forall name :: name in records ==> |records[name]| == 4
    ensures reply.Some? <==> Parse(data).Some?
    ensures reply.Some? ==> WellFormed(Parse(data).value) && reply == Some(Answer(Parse(data).value, records))
    ensures reply.Some? ==> |reply.value| <= 287
  {
    if !(12 <= |data| <= 512) {
      return None;
    }
    if Number(data, 2) >= 0x800 || Number(data, 4) != 1 || Number(data, 6) != 0 || Number(data, 8) != 0 {
      return None;
    }
    var p := ReadName(data);
    if p == None || p.value.end + 4 > |data| || p.value.end - 12 > 255 {
      return None;
    }
    AcceptsOnlyQueries(data);
    var q := Query(Number(data, 0), Number(data, 2), Number(data, 10), p.value.labels,
                   Number(data, p.value.end), Number(data, p.value.end + 2), data[p.value.end + 4..]);
    ReplyLength(q, records);
    return Some(Answer(q, records));
  }

  lemma ReplyLength(q: Query, records: Records)
    requires WellFormed(q) && forall name :: name in records ==> |records[name]| == 4
    ensures |Answer(q, records)| <= 287
  {
  }

  lemma Nothing(rest: Option<Parsed>)
    ensures Prepend([], rest) == rest
  {
    if rest.Some? {
      assert [] + rest.value.labels == rest.value.labels;
    }
  }

  lemma Shifted(labels: seq<Label>, text: Label, rest: Option<Parsed>)
    ensures Prepend(labels, Prepend([text], rest)) == Prepend(labels + [text], rest)
  {
    if rest.Some? {
      assert labels + ([text] + rest.value.labels) == labels + [text] + rest.value.labels;
    }
  }

  /** The reply repeats the query's identifier and question and says whether the name is known. */
  lemma EchoesQuery(q: Query, records: Records)
    requires WellFormed(q)
    ensures var r, n := Answer(q, records), |Question(q)|;
            && |r| >= 12 + n && Number(r, 0) == q.id && r[12..12 + n] == Question(q) == Wire(q)[12..12 + n]
            && Number(r, 4) == 1 && (Number(r, 2) % 16 == 0 <==> Dotted(q.labels) in records)
            && (Number(r, 6) == 1 <==> Dotted(q.labels) in records && q.klass == 1 && q.kind == 1)
  {
    var r, name := Answer(q, records), Dotted(q.labels);
    var payload := if name in records && q.klass == 1 && q.kind == 1 then AddressRecord(records[name]) else [];
    QuestionInWire(q);
    var flags := 0x8400 + q.flags / 256 % 2 * 256 + if name in records then 0 else 3;
    ReplyNumbers(q.id, flags, if payload == [] then 0 else 1, Question(q) + payload);
    assert r == U16(q.id) + U16(flags) + U16(1) + U16(if payload == [] then 0 else 1) + U16(0) + U16(0) + (Question(q) + payload);
  }

  lemma QuestionInWire(q: Query)
    requires WellFormed(q)
    ensures |Wire(q)| >= 12 + |Question(q)| && Wire(q)[12..12 + |Question(q)|] == Question(q)
  {
  }

  lemma ReplyNumbers(id: nat, flags: nat, answers: nat, rest: seq<Byte>)
    requires id < 0x10000 && flags < 0x10000 && answers < 0x10000
    ensures var r := U16(id) + U16(flags) + U16(1) + U16(answers) + U16(0) + U16(0) + rest;
            && Number(r, 0) == id && Number(r, 2) == flags && Number(r, 4) == 1 && Number(r, 6) == answers && r[12..] == rest
  {
    var r := U16(id) + U16(flags) + U16(1) + U16(answers) + U16(0) + U16(0) + rest;
    Numbers(r, 0, id);
    Numbers(r, 2, flags);
    Numbers(r, 4, 1);
    Numbers(r, 6, answers);
  }
}
