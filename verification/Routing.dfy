/** The wire form of fixture routing bundles. */
module Routing {
  import opened Prelude

  const RECORD := 155
  const HEADER := "GCRB\U{0002}"

  type Record = r: string | Bytes(r) && |r| == 155 witness seq(155, i => '\0')

  function Identity(r: Record): string {
    r[..83]
  }

  function BigEndian(s: string): nat {
    if s == "" then 0 else BigEndian(s[..|s| - 1]) * 256 + s[|s| - 1] as int
  }

  function Expiry(r: Record): nat {
    BigEndian(r[147..155])
  }

  // ---------- Wire form ----------

  function Join(records: seq<string>): string {
    if records == [] then "" else records[0] + Join(records[1..])
  }

  predicate DistinctIdentities(records: seq<Record>) {
    forall i, j :: 0 <= i < j < |records| ==> Identity(records[i]) != Identity(records[j])
  }

  /** The records of a bundle: header, count, and as many records of fixed size. */
  function Parse(raw: ByteString): Result<seq<Record>> {
    if |raw| < 6 || raw[..5] != HEADER || !(1 <= raw[5] as int <= 8) || |raw| != 6 + RECORD * raw[5] as int
    then Error("invalid bounded fixture routing bundle")
    else
      var records: seq<Record> := seq(raw[5] as int, i requires 0 <= i < raw[5] as int => Slice(raw, i));
      if DistinctIdentities(records) then Ok(records) else Error("duplicate fixture routing identity")
  }

  function Slice(raw: ByteString, i: nat): Record
    requires |raw| >= 6 + RECORD * (i + 1)
  {
    raw[6 + i * RECORD..6 + (i + 1) * RECORD]
  }

  function Raw(records: seq<ByteString>): ByteString
    requires |records| < 256
  {
    JoinBytes(records);
    HEADER + [|records| as char] + Join(records)
  }

  /** The bytes of a bundle, checked by parsing them again. */
  function Print(records: seq<ByteString>): Result<ByteString> {
    if |records| >= 256 then Error("bytes must be in range")
    else match Parse(Raw(records))
         case Error(e) => Error(e)
         case Ok(_) => Ok(Raw(records))
  }

  lemma {:induction false} JoinBytes(records: seq<ByteString>)
    ensures Bytes(Join(records))
  {
    if records != [] {
      JoinBytes(records[1..]);
      assert Bytes(records[0]);
    }
  }

  lemma {:induction false} JoinAt(records: seq<string>, i: nat)
    requires i < |records| && forall k :: 0 <= k < |records| ==> |records[k]| == RECORD
    ensures |Join(records)| == RECORD * |records|
    ensures RECORD * (i + 1) <= |Join(records)| && Join(records)[RECORD * i..RECORD * (i + 1)] == records[i]
    decreases |records|
  {
    var rest := Join(records[1..]);
    if |records| == 1 {
      assert rest == "";
    } else if i > 0 {
      JoinAt(records[1..], i - 1);
      assert Join(records)[RECORD * i..RECORD * (i + 1)] == rest[RECORD * (i - 1)..RECORD * i];
    } else {
      JoinAt(records[1..], 0);
    }
  }

  lemma RawSlices(records: seq<Record>, i: nat)
    requires 1 <= |records| <= 8 && i < |records|
    ensures |Raw(records)| == 6 + RECORD * |records| && Raw(records)[..5] == HEADER && Raw(records)[5] as int == |records|
    ensures Slice(Raw(records), i) == records[i]
  {
    JoinAt(records, i);
    var raw := Raw(records);
    assert raw[6..] == Join(records);
    assert raw[6 + i * RECORD..6 + (i + 1) * RECORD] == raw[6..][RECORD * i..RECORD * (i + 1)];
  }

  /** Records of the proper size print and parse back, exactly when they form a valid bundle. */
  lemma PrintThenParse(records: seq<Record>)
    ensures Print(records).Ok? <==> 1 <= |records| <= 8 && DistinctIdentities(records)
    ensures Print(records).Ok? ==> Parse(Print(records).value) == Ok(records)
  {
    if 1 <= |records| <= 8 {
      RawSlices(records, 0);
      var parsed: seq<Record> := seq(|records|, i requires 0 <= i < |records| => Slice(Raw(records), i));
      forall i | 0 <= i < |records| ensures parsed[i] == records[i] {
        RawSlices(records, i);
      }
      assert parsed == records;
    } else if |records| < 256 {
      assert Raw(records)[5] as int == |records|;
    }
  }

  lemma {:induction false} JoinSlices(s: ByteString, n: nat)
    requires |s| == RECORD * n
    ensures Join(seq(n, i requires 0 <= i < n => s[RECORD * i..RECORD * (i + 1)])) == s
  {
    var pieces := seq(n, i requires 0 <= i < n => s[RECORD * i..RECORD * (i + 1)]);
    if n > 0 {
      var rest := s[RECORD..];
      var after := seq(n - 1, i requires 0 <= i < n - 1 => rest[RECORD * i..RECORD * (i + 1)]);
      JoinSlices(rest, n - 1);
      forall i | 0 <= i < n - 1 ensures after[i] == pieces[i + 1] {
      }
      assert pieces[1..] == after && pieces[0] == s[..RECORD];
    }
  }

  /** Every accepted bundle prints back to the same bytes. */
  lemma ParseThenPrint(raw: ByteString)
    requires Parse(raw).Ok?
    ensures Print(Parse(raw).value) == Ok(raw)
  {
    var records := Parse(raw).value;
    var n := |records|;
    JoinSlices(raw[6..], n);
    var pieces := seq(n, i requires 0 <= i < n => raw[6..][RECORD * i..RECORD * (i + 1)]);
    forall i | 0 <= i < n ensures pieces[i] == records[i] {
      assert records[i] == raw[6 + i * RECORD..6 + (i + 1) * RECORD];
    }
    assert pieces == records;
    assert raw == raw[..5] + [raw[5]] + raw[6..];
    PrintThenParse(records);
  }
}
