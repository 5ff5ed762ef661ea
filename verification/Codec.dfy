/**
 The TLV format: trace records, tracepoint names, frames, and the way a client cuts and
 reads the stream (src/tcp_handler.rs:211-263, scripts/tracy.lua:74-124).
 The printers follow the server, the parsers the Lua dissector, so the theorems below relate two
 separately written programs.
 */
module Codec {
  import opened Bytes
  import opened Names

  const HEADER_LEN: nat := 12
  const MAGIC: seq<byte> := [0x52, 0x75, 0x53, 0x74]
  const TIMESTAMP_LEN: nat := 8
  const MAX_SUBMIT_LEN: nat := 2048

  const LIST_REQUEST: nat := 1
  const LIST_REPLY: nat := 2
  const ENABLE_REQUEST: nat := 3
  const DISABLE_REQUEST: nat := 4
  const TRACE_PUSH: nat := 5

  const U16: nat := 0x1_0000
  const U32: nat := 0x1_0000_0000
  const U64: nat := 0x1_0000_0000_0000_0000

  // ----- elements and records -----

  /** What the application submitted; `time` is in nanoseconds since the UNIX epoch and may be negative. */
  datatype Element = Element(name: Name, time: int, data: seq<byte>)

  /** What a client reads back. */
  datatype Record = Record(name: Name, stamp: nat, data: seq<byte>)

  function ElementLen(e: Element): nat {
    |e.name| + TIMESTAMP_LEN + |e.data|
  }

  /** 64-bit nanoseconds: times before the epoch become 0, later ones wrap as `u64` arithmetic does. */
  function Stamp(time: int): (u: nat)
    ensures u < U64
    ensures u == time <==> 0 <= time < U64
    ensures time < 0 ==> u == 0
  {
    if time < 0 then 0 else time % U64
  }

  function ToRecord(e: Element): Record {
    Record(e.name, Stamp(e.time), e.data)
  }

  function Records(es: seq<Element>): (rs: seq<Record>)
    ensures |rs| == |es|
    ensures forall i :: 0 <= i < |es| ==> rs[i] == ToRecord(es[i])
  {
    seq(|es|, i requires 0 <= i < |es| => ToRecord(es[i]))
  }

  /** What `tracy_submit` lets through to the worker. */
  predicate Acceptable(e: Element) {
    IsNormal(e.name) && 1 <= |e.data| <= MAX_SUBMIT_LEN
  }

  predicate AllAcceptable(es: seq<Element>) {
    forall i :: 0 <= i < |es| ==> Acceptable(es[i])
  }

  /** The length and time fields of the format can hold the record. */
  predicate FitsWire(r: Record) {
    |r.name| < U16 && r.stamp < U64 && |r.data| < U16
  }

  predicate AllFitWire(rs: seq<Record>) {
    forall i :: 0 <= i < |rs| ==> FitsWire(rs[i])
  }

  function EncodeRecord(r: Record): (s: seq<byte>)
    ensures |s| == |r.name| + |r.data| + 12
  {
    ToBytes(|r.name|, 2) + r.name + ToBytes(r.stamp, 8) + ToBytes(|r.data|, 2) + r.data
  }

  function EncodeRecords(rs: seq<Record>): seq<byte> {
    FlatMap(EncodeRecord, rs)
  }

  /** The body of a push frame. */
  function PushBody(es: seq<Element>): seq<byte> {
    EncodeRecords(Records(es))
  }

  lemma PushBodySnoc(es: seq<Element>, e: Element)
    ensures PushBody(es + [e]) == PushBody(es) + EncodeRecord(ToRecord(e))
    ensures |PushBody(es + [e])| == |PushBody(es)| + ElementLen(e) + 4
  {
    assert Records(es + [e]) == Records(es) + [ToRecord(e)];
    FlatMapConcat(EncodeRecord, Records(es), [ToRecord(e)]);
    FlatMapCons(EncodeRecord, ToRecord(e), []);
  }

  // ----- reading records -----

  datatype Parsed<T> = Parsed(item: T, used: nat)

  /** One record at the head of `b`; None where the dissector would run out of bounds. */
  function ParseRecord(b: seq<byte>): (r: Option<Parsed<Record>>)
    ensures r.Some? ==> 12 <= r.value.used <= |b|
  {
    if |b| < 2 then None else
    var n := FromBytes(b[..2]);
    if |b| < n + 12 then None else
    var d := FromBytes(b[n + 10..n + 12]);
    if |b| < n + d + 12 then None else
    Some(Parsed(Record(b[2..n + 2], FromBytes(b[n + 2..n + 10]), b[n + 12..n + d + 12]), n + d + 12))
  }

  function ParseRecords(b: seq<byte>): Option<seq<Record>> {
    if b == [] then Some([]) else
    match ParseRecord(b)
    case None => None
    case Some(p) =>
      match ParseRecords(b[p.used..])
      case None => None
      case Some(rest) => Some([p.item] + rest)
  }

  lemma {:induction false} ParseEncodedRecord(r: Record, tail: seq<byte>)
    requires FitsWire(r)
    ensures ParseRecord(EncodeRecord(r) + tail) == Some(Parsed(r, |EncodeRecord(r)|))
  {
    RecordFieldsDecode(r);
    FieldSlices(ToBytes(|r.name|, 2), r.name, ToBytes(r.stamp, 8), ToBytes(|r.data|, 2), r.data, tail);
  }

  lemma RecordFieldsDecode(r: Record)
    requires FitsWire(r)
    ensures FromBytes(ToBytes(|r.name|, 2)) == |r.name|
    ensures FromBytes(ToBytes(r.stamp, 8)) == r.stamp
    ensures FromBytes(ToBytes(|r.data|, 2)) == |r.data|
  {
    Pow256Values();
    FromTo(|r.name|, 2);
    FromTo(r.stamp, 8);
    FromTo(|r.data|, 2);
  }

  lemma FieldSlices(lenN: seq<byte>, name: Name, stamp: seq<byte>, lenD: seq<byte>, data: seq<byte>, tail: seq<byte>)
    requires |lenN| == 2 && |stamp| == 8 && |lenD| == 2
    ensures var b, n := lenN + name + stamp + lenD + data + tail, |name|;
            && b[..2] == lenN && b[2..n + 2] == name && b[n + 2..n + 10] == stamp
            && b[n + 10..n + 12] == lenD && b[n + 12..n + |data| + 12] == data
  {
  }

  lemma {:induction false} ParsedRecordReencodes(b: seq<byte>)
    requires ParseRecord(b).Some?
    ensures var p := ParseRecord(b).value;
            FitsWire(p.item) && EncodeRecord(p.item) == b[..p.used]
  {
    var p := ParseRecord(b).value;
    var n, d := |p.item.name|, |p.item.data|;
    FieldsReencode(b[..2], b[n + 2..n + 10], b[n + 10..n + 12]);
    Cut5(b, n, d);
  }

  lemma Cut5(b: seq<byte>, n: nat, d: nat)
    requires n + d + 12 <= |b|
    ensures b[..n + d + 12] == b[..2] + b[2..n + 2] + b[n + 2..n + 10] + b[n + 10..n + 12] + b[n + 12..n + d + 12]
  {
  }

  lemma FieldsReencode(lenN: seq<byte>, stamp: seq<byte>, lenD: seq<byte>)
    requires |lenN| == 2 && |stamp| == 8 && |lenD| == 2
    ensures ToBytes(FromBytes(lenN), 2) == lenN && FromBytes(lenN) < U16
    ensures ToBytes(FromBytes(stamp), 8) == stamp && FromBytes(stamp) < U64
    ensures ToBytes(FromBytes(lenD), 2) == lenD && FromBytes(lenD) < U16
  {
    Pow256Values();
    FromBytesBound(lenN);
    FromBytesBound(stamp);
    FromBytesBound(lenD);
    ToFrom(lenN);
    ToFrom(stamp);
    ToFrom(lenD);
  }

  /** The dissector reads `rs` out of `b` exactly when the server would print `rs` as `b`. */
  lemma {:induction false} ParserInvertsPrinter(b: seq<byte>, rs: seq<Record>)
    ensures ParseRecords(b) == Some(rs) <==> AllFitWire(rs) && EncodeRecords(rs) == b
  {
    if AllFitWire(rs) && EncodeRecords(rs) == b {
      ParsesEncoded(rs);
    } else if ParseRecords(b) == Some(rs) {
      ParsedReencodes(b, rs);
    }
  }

  lemma {:induction false} ParsesEncoded(rs: seq<Record>)
    requires AllFitWire(rs)
    ensures ParseRecords(EncodeRecords(rs)) == Some(rs)
  {
    if rs != [] {
      var head, tail := EncodeRecord(rs[0]), EncodeRecords(rs[1..]);
      ParseEncodedRecord(rs[0], tail);
      ParsesEncoded(rs[1..]);
      assert (head + tail)[|head|..] == tail;
      assert rs == [rs[0]] + rs[1..];
    }
  }

  lemma {:induction false} ParsedReencodes(b: seq<byte>, rs: seq<Record>)
    requires ParseRecords(b) == Some(rs)
    ensures AllFitWire(rs) && EncodeRecords(rs) == b
    decreases |b|
  {
    if b != [] {
      var p := ParseRecord(b).value;
      ParsedRecordReencodes(b);
      ParsedReencodes(b[p.used..], rs[1..]);
      assert b == b[..p.used] + b[p.used..];
    }
  }

  lemma AcceptableFitsWire(es: seq<Element>)
    requires AllAcceptable(es)
    ensures AllFitWire(Records(es))
  {
  }

  // ----- tracepoint names -----

  function EncodeName(n: Name): (s: seq<byte>)
    ensures |s| == |n| + 2
  {
    ToBytes(|n|, 2) + n
  }

  function EncodeNames(ns: seq<Name>): seq<byte> {
    FlatMap(EncodeName, ns)
  }

  predicate NamesFitWire(ns: seq<Name>) {
    forall i :: 0 <= i < |ns| ==> |ns[i]| < U16
  }

  function ParseName(b: seq<byte>): (r: Option<Parsed<Name>>)
    ensures r.Some? ==> 2 <= r.value.used <= |b|
  {
    if |b| < 2 then None else
    var n := FromBytes(b[..2]);
    if |b| < n + 2 then None else Some(Parsed(b[2..n + 2], n + 2))
  }

  function ParseNames(b: seq<byte>): Option<seq<Name>> {
    if b == [] then Some([]) else
    match ParseName(b)
    case None => None
    case Some(p) =>
      match ParseNames(b[p.used..])
      case None => None
      case Some(rest) => Some([p.item] + rest)
  }

  /** The list dissector reads `ns` out of `b` exactly when the server would print `ns` as `b`. */
  lemma {:induction false} NameParserInvertsPrinter(b: seq<byte>, ns: seq<Name>)
    ensures ParseNames(b) == Some(ns) <==> NamesFitWire(ns) && EncodeNames(ns) == b
  {
    if NamesFitWire(ns) && EncodeNames(ns) == b {
      ParsesEncodedNames(ns);
    } else if ParseNames(b) == Some(ns) {
      ParsedNamesReencode(b, ns);
    }
  }

  lemma ParseEncodedName(n: Name, tail: seq<byte>)
    requires |n| < U16
    ensures ParseName(EncodeName(n) + tail) == Some(Parsed(n, |n| + 2))
  {
    Pow256Values();
    FromTo(|n|, 2);
    var b := EncodeName(n) + tail;
    assert b[..2] == ToBytes(|n|, 2);
    assert b[2..|n| + 2] == n;
  }

  lemma ParsedNameReencodes(b: seq<byte>)
    requires ParseName(b).Some?
    ensures var p := ParseName(b).value;
            |p.item| < U16 && EncodeName(p.item) == b[..p.used]
  {
    Pow256Values();
    FromBytesBound(b[..2]);
    ToFrom(b[..2]);
    var p := ParseName(b).value;
    assert b[..p.used] == b[..2] + b[2..p.used];
  }

  lemma {:induction false} ParsesEncodedNames(ns: seq<Name>)
    requires NamesFitWire(ns)
    ensures ParseNames(EncodeNames(ns)) == Some(ns)
  {
    if ns != [] {
      var head, tail := EncodeName(ns[0]), EncodeNames(ns[1..]);
      ParseEncodedName(ns[0], tail);
      ParsesEncodedNames(ns[1..]);
      assert (head + tail)[|head|..] == tail;
      assert ns == [ns[0]] + ns[1..];
    }
  }

  lemma {:induction false} ParsedNamesReencode(b: seq<byte>, ns: seq<Name>)
    requires ParseNames(b) == Some(ns)
    ensures NamesFitWire(ns) && EncodeNames(ns) == b
    decreases |b|
  {
    if b != [] {
      var p := ParseName(b).value;
      ParsedNameReencodes(b);
      ParsedNamesReencode(b[p.used..], ns[1..]);
      assert b == b[..p.used] + b[p.used..];
    }
  }

  // ----- frames -----

  function Header(cmd: nat, len: nat): (h: seq<byte>)
    ensures |h| == HEADER_LEN
  {
    MAGIC + ToBytes(0, 2) + ToBytes(cmd, 2) + ToBytes(len, 4)
  }

  function Frame(cmd: nat, body: seq<byte>): (f: seq<byte>)
    ensures |f| == HEADER_LEN + |body|
    ensures f[HEADER_LEN..] == body
  {
    Header(cmd, |body|) + body
  }

  function CommandOf(f: seq<byte>): nat
    requires |f| >= HEADER_LEN
  {
    FromBytes(f[6..8])
  }

  function LengthOf(f: seq<byte>): nat
    requires |f| >= HEADER_LEN
  {
    FromBytes(f[8..12])
  }

  lemma HeaderFields(cmd: nat, len: nat, tail: seq<byte>)
    requires cmd < U16 && len < U32
    ensures var f := Header(cmd, len) + tail;
            && f[..4] == MAGIC && FromBytes(f[4..6]) == 0
            && CommandOf(f) == cmd && LengthOf(f) == len
  {
    Pow256Values();
    FromTo(0, 2);
    FromTo(cmd, 2);
    FromTo(len, 4);
    HeaderSlices(MAGIC, ToBytes(0, 2), ToBytes(cmd, 2), ToBytes(len, 4), tail);
  }

  lemma HeaderSlices(magic: seq<byte>, flags: seq<byte>, cmd: seq<byte>, len: seq<byte>, tail: seq<byte>)
    requires |magic| == 4 && |flags| == 2 && |cmd| == 2 && |len| == 4
    ensures var f := magic + flags + cmd + len + tail;
            f[..4] == magic && f[4..6] == flags && f[6..8] == cmd && f[8..12] == len
  {
  }

  /** The length field of `f` covers exactly the rest of `f`. */
  predicate SelfDelimiting(f: seq<byte>) {
    |f| >= HEADER_LEN && LengthOf(f) + HEADER_LEN == |f|
  }

  /** Every frame the server builds delimits itself, as long as the length cast is lossless. */
  lemma FrameIsSelfDelimiting(cmd: nat, body: seq<byte>)
    requires cmd < U16 && |body| < U32
    ensures SelfDelimiting(Frame(cmd, body)) && CommandOf(Frame(cmd, body)) == cmd
  {
    HeaderFields(cmd, |body|, body);
  }

  /** The PDUs the dissector has cut off a stream so far, and the bytes it still waits with. */
  datatype Cut = Cut(pdus: seq<seq<byte>>, rest: seq<byte>)

  function CutStream(s: seq<byte>): Cut {
    if |s| < HEADER_LEN || |s| < LengthOf(s) + HEADER_LEN then Cut([], s) else
    var n := LengthOf(s) + HEADER_LEN;
    var later := CutStream(s[n..]);
    Cut([s[..n]] + later.pdus, later.rest)
  }

  /** Cutting a stream loses no byte, whatever the bytes are. */
  lemma {:induction false} CutLosesNothing(s: seq<byte>)
    ensures Flatten(CutStream(s).pdus) + CutStream(s).rest == s
    decreases |s|
  {
    if |s| >= HEADER_LEN && |s| >= LengthOf(s) + HEADER_LEN {
      var n := LengthOf(s) + HEADER_LEN;
      CutLosesNothing(s[n..]);
      var later := CutStream(s[n..]);
      assert CutStream(s).pdus[1..] == later.pdus;
      assert s == s[..n] + s[n..];
    }
  }

  /** Cutting whole frames followed by an unfinished one gives back exactly those frames and the remainder. */
  lemma {:induction false} CutRecoversFrames(fs: seq<seq<byte>>, tail: seq<byte>)
    requires forall i :: 0 <= i < |fs| ==> SelfDelimiting(fs[i])
    requires CutStream(tail).pdus == []
    ensures CutStream(Flatten(fs) + tail) == Cut(fs, tail)
  {
    if fs == [] {
      assert Flatten(fs) + tail == tail;
    } else {
      CutRecoversFrames(fs[1..], tail);
      CutMore(fs[0], Flatten(fs[1..]), tail);
      assert fs == [fs[0]] + fs[1..];
    }
  }

  lemma CutMore(f: seq<byte>, later: seq<byte>, tail: seq<byte>)
    requires SelfDelimiting(f)
    ensures CutStream((f + later) + tail) == Cut([f] + CutStream(later + tail).pdus, CutStream(later + tail).rest)
  {
    Associate(f, later, tail);
    CutOne(f, later + tail);
  }

  lemma CutOne(f: seq<byte>, later: seq<byte>)
    requires SelfDelimiting(f)
    ensures CutStream(f + later) == Cut([f] + CutStream(later).pdus, CutStream(later).rest)
  {
    var s := f + later;
    assert s[8..12] == f[8..12];
    assert s[..|f|] == f && s[|f|..] == later;
  }

  /** The records of all push frames, in order; other frames carry none. */
  function PushedRecords(pdus: seq<seq<byte>>): Option<seq<Record>>
  {
    if pdus == [] then Some([])
    else if |pdus[0]| < HEADER_LEN then None
    else
      var first := if CommandOf(pdus[0]) == TRACE_PUSH then ParseRecords(pdus[0][HEADER_LEN..]) else Some([]);
      var later := PushedRecords(pdus[1..]);
      if first.None? || later.None? then None else Some(first.value + later.value)
  }
}
