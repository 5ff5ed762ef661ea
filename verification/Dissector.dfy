/**
 The Wireshark dissector (scripts/tracy.lua:74-124): loops over a frame with a moving offset. A range
 outside the frame raises a Lua error, here the result None.
 */
module Dissector {
  import opened Bytes
  import opened Names
  import opened Codec

  /** What was found so far in front of what the rest yields. */
  function Prepend<T>(found: seq<T>, rest: Option<seq<T>>): Option<seq<T>> {
    match rest
    case None => None
    case Some(more) => Some(found + more)
  }

  lemma PrependNothing<T>(rest: Option<seq<T>>)
    ensures Prepend([], rest) == rest
  {
    if rest.Some? {
      assert [] + rest.value == rest.value;
    }
  }

  lemma PrependOne<T>(found: seq<T>, x: T, rest: Option<seq<T>>)
    ensures Prepend(found, Prepend([x], rest)) == Prepend(found + [x], rest)
  {
    if rest.Some? {
      Associate(found, [x], rest.value);
    }
  }

  /** A loop over a frame of `total` bytes; the reader `at` of one item is a parameter and may fail. */
  function Strict<T>(at: nat -> Option<Parsed<T>>, total: nat, start: nat): Option<seq<T>>
    decreases if start < total then total - start else 0
  {
    if start >= total then Some([]) else
    match at(start)
    case None => None
    case Some(p) => if p.used == 0 then None else Prepend([p.item], Strict(at, total, start + p.used))
  }

  // ----- push frames -----

  /** The record at an offset, None if it does not fit into the frame. */
  function RecordAt(tvb: seq<byte>, start: nat): (r: Option<Parsed<Record>>)
    ensures r.Some? ==> start <= |tvb| && 12 <= r.value.used <= |tvb| - start
  {
    if start + 2 > |tvb| then None else
    var n := FromBytes(tvb[start..start + 2]);
    if start + n + 12 > |tvb| then None else
    var d := FromBytes(tvb[start + n + 10..start + n + 12]);
    if start + n + d + 12 > |tvb| then None else
    Some(Parsed(Record(tvb[start + 2..start + n + 2], FromBytes(tvb[start + n + 2..start + n + 10]),
                       tvb[start + n + 12..start + n + d + 12]), n + d + 12))
  }

  lemma RecordAtIsHeadOfRest(tvb: seq<byte>, start: nat)
    requires start <= |tvb|
    ensures RecordAt(tvb, start) == ParseRecord(tvb[start..])
  {
    var b := tvb[start..];
    if |b| >= 2 {
      assert b[..2] == tvb[start..start + 2];
      var n := FromBytes(b[..2]);
      if |b| >= n + 12 {
        assert b[n + 10..n + 12] == tvb[start + n + 10..start + n + 12];
        assert b[2..n + 2] == tvb[start + 2..start + n + 2];
        assert b[n + 2..n + 10] == tvb[start + n + 2..start + n + 10];
        var d := FromBytes(b[n + 10..n + 12]);
        assert |b| >= n + d + 12 ==> b[n + 12..n + d + 12] == tvb[start + n + 12..start + n + d + 12];
      }
    }
  }

  function RecordReader(tvb: seq<byte>): nat -> Option<Parsed<Record>> {
    (i: nat) => RecordAt(tvb, i)
  }

  /** The records from an offset on. */
  function RecordsAt(tvb: seq<byte>, start: nat): Option<seq<Record>> {
    Strict(RecordReader(tvb), |tvb|, start)
  }

  lemma ParseStep(b: seq<byte>, p: Parsed<Record>, tail: seq<byte>)
    requires b != [] && ParseRecord(b) == Some(p) && b[p.used..] == tail
    ensures ParseRecords(b) == Prepend([p.item], ParseRecords(tail))
  {
  }

  lemma {:induction false} RecordsAtIsParse(tvb: seq<byte>, start: nat)
    requires start <= |tvb|
    ensures RecordsAt(tvb, start) == ParseRecords(tvb[start..])
    decreases |tvb| - start
  {
    if start < |tvb| {
      RecordAtIsHeadOfRest(tvb, start);
      var at := RecordAt(tvb, start);
      if at.Some? {
        RecordsAtIsParse(tvb, start + at.value.used);
        ParseStep(tvb[start..], at.value, tvb[start + at.value.used..]);
      }
    }
  }

  /** The body of the loop: one record, field by field. */
  method DissectRecord(tvb: seq<byte>, start: nat) returns (r: Option<Parsed<Record>>)
    requires start <= |tvb|
    ensures r == RecordAt(tvb, start)
  {
    var offset := start;
    if offset + 2 > |tvb| { return None; }
    var nameLen := FromBytes(tvb[offset..offset + 2]);
    offset := offset + 2;
    if offset + nameLen > |tvb| { return None; }
    var name := tvb[offset..offset + nameLen];
    offset := offset + nameLen;
    if offset + 8 > |tvb| { return None; }
    var stamp := FromBytes(tvb[offset..offset + 8]);
    offset := offset + 8;
    if offset + 2 > |tvb| { return None; }
    var dataLen := FromBytes(tvb[offset..offset + 2]);
    offset := offset + 2;
    if offset + dataLen > |tvb| { return None; }
    var payload := tvb[offset..offset + dataLen];
    offset := offset + |payload|;
    r := Some(Parsed(Record(name, stamp, payload), offset - start));
  }

  /** `_dissect_push_payload` finds exactly the records the parser finds in the body. */
  method DissectPushPayload(tvb: seq<byte>) returns (r: Option<seq<Record>>)
    requires |tvb| >= HEADER_LEN
    ensures r == ParseRecords(tvb[HEADER_LEN..])
  {
    var found: seq<Record> := [];
    var offset := HEADER_LEN;
    RecordsAtIsParse(tvb, offset);
    ghost var all := RecordsAt(tvb, offset);
    PrependNothing(all);
    while offset < |tvb|
      invariant HEADER_LEN <= offset <= |tvb|
      invariant all == Prepend(found, RecordsAt(tvb, offset))
    {
      var record := DissectRecord(tvb, offset);
      if record.None? { return None; }
      offset := offset + record.value.used;
      PrependOne(found, record.value.item, RecordsAt(tvb, offset));
      found := found + [record.value.item];
    }
    assert found + [] == found;
    r := Some(found);
  }

  // ----- tracepoint lists -----

  function NameAt(tvb: seq<byte>, start: nat): (r: Option<Parsed<Name>>)
    ensures r.Some? ==> start <= |tvb| && 2 <= r.value.used <= |tvb| - start
  {
    if start + 2 > |tvb| then None else
    var n := FromBytes(tvb[start..start + 2]);
    if start + 2 + n > |tvb| then None else Some(Parsed(tvb[start + 2..start + 2 + n], n + 2))
  }

  function NameReader(tvb: seq<byte>): nat -> Option<Parsed<Name>> {
    (i: nat) => NameAt(tvb, i)
  }

  function NamesAt(tvb: seq<byte>, start: nat): Option<seq<Name>> {
    Strict(NameReader(tvb), |tvb|, start)
  }

  lemma NameAtIsHeadOfRest(tvb: seq<byte>, start: nat)
    requires start <= |tvb|
    ensures NameAt(tvb, start) == ParseName(tvb[start..])
  {
    var b := tvb[start..];
    if |b| >= 2 {
      assert b[..2] == tvb[start..start + 2];
      var n := FromBytes(b[..2]);
      assert |b| >= n + 2 ==> b[2..n + 2] == tvb[start + 2..start + 2 + n];
    }
  }

  lemma ParseNameStep(b: seq<byte>, p: Parsed<Name>, tail: seq<byte>)
    requires b != [] && ParseName(b) == Some(p) && b[p.used..] == tail
    ensures ParseNames(b) == Prepend([p.item], ParseNames(tail))
  {
  }

  lemma {:induction false} NamesAtIsParse(tvb: seq<byte>, start: nat)
    requires start <= |tvb|
    ensures NamesAt(tvb, start) == ParseNames(tvb[start..])
    decreases |tvb| - start
  {
    if start < |tvb| {
      NameAtIsHeadOfRest(tvb, start);
      var at := NameAt(tvb, start);
      if at.Some? {
        NamesAtIsParse(tvb, start + at.value.used);
        ParseNameStep(tvb[start..], at.value, tvb[start + at.value.used..]);
      }
    }
  }

  /** `_dissect_tracepoint_list` finds exactly the names the parser finds in the body. */
  method DissectTracepointList(tvb: seq<byte>) returns (r: Option<seq<Name>>)
    requires |tvb| >= HEADER_LEN
    ensures r == ParseNames(tvb[HEADER_LEN..])
  {
    var names: seq<Name> := [];
    var offset := HEADER_LEN;
    NamesAtIsParse(tvb, offset);
    ghost var all := NamesAt(tvb, offset);
    PrependNothing(all);
    while offset < |tvb|
      invariant HEADER_LEN <= offset <= |tvb|
      invariant all == Prepend(names, NamesAt(tvb, offset))
    {
      if offset + 2 > |tvb| { return None; }
      var nameLen := FromBytes(tvb[offset..offset + 2]);
      offset := offset + 2;
      if offset + nameLen > |tvb| { return None; }
      var name := tvb[offset..offset + nameLen];
      offset := offset + nameLen;
      PrependOne(names, name, NamesAt(tvb, offset));
      names := names + [name];
    }
    assert names + [] == names;
    r := Some(names);
  }

  /** `dissect_tcp_pdus` with `_get_length`: cut off whole PDUs while there are any. */
  method DissectTcpPdus(stream: seq<byte>) returns (pdus: seq<seq<byte>>, rest: seq<byte>)
    ensures Cut(pdus, rest) == CutStream(stream)
  {
    pdus, rest := [], stream;
    while |rest| >= HEADER_LEN && |rest| >= FromBytes(rest[8..12]) + HEADER_LEN
      invariant CutStream(stream) == Cut(pdus + CutStream(rest).pdus, CutStream(rest).rest)
      decreases |rest|
    {
      var n := FromBytes(rest[8..12]) + HEADER_LEN;
      ghost var later := CutStream(rest[n..]);
      Associate(pdus, [rest[..n]], later.pdus);
      pdus, rest := pdus + [rest[..n]], rest[n..];
    }
    assert pdus + [] == pdus;
  }
}
