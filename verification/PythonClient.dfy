/**
 The Python client's decoders (client/client.py:43-59, 129-179), one frame at a time. Python slices
 are clamped to the data instead of failing, so the client reads something out of any frame; it
 agrees with the Lua dissector exactly on the frames that the dissector accepts.
 */
module PythonClient {
  import opened Bytes
  import opened Names
  import opened Codec
  import opened Dissector

  /** `data[a:b]`. */
  function Slice(data: seq<byte>, a: nat, b: nat): seq<byte>
    requires a <= b
  {
    data[Min(a, |data|)..Min(b, |data|)]
  }

  function SubMsgLen(data: seq<byte>, offset: nat): nat {
    FromBytes(Slice(data, offset, offset + 2))
  }

  /** `parse_header`: the length of the body, if the frame is one this client understands. */
  function ParseHeader(head: seq<byte>, total: nat): Option<nat>
    requires |head| == HEADER_LEN
  {
    var cmd := CommandOf(head);
    if head[..4] != MAGIC then None
    else if total != LengthOf(head) + HEADER_LEN then None
    else if cmd == TRACE_PUSH || cmd == LIST_REPLY then Some(LengthOf(head))
    else None
  }

  /** The header check in terms of the bytes: magic number, a number of 2 or 5, and one whole frame. */
  lemma HeaderUnderstoodIff(head: seq<byte>, total: nat, n: nat)
    requires |head| == HEADER_LEN
    ensures ParseHeader(head, total) == Some(n) <==>
            && head[..4] == [0x52, 0x75, 0x53, 0x74]
            && (Number2(head[6], head[7]) == 2 || Number2(head[6], head[7]) == 5)
            && n == Number4(head[8], head[9], head[10], head[11]) && total == n + 12
  {
    FromTwo(head[6..8]);
    FromFour(head[8..12]);
  }

  /** Every frame the server sends passes the client's header check. */
  lemma ServerFramesPassTheHeaderCheck(cmd: nat, body: seq<byte>)
    requires (cmd == TRACE_PUSH || cmd == LIST_REPLY) && |body| < U32
    ensures var f := Frame(cmd, body); ParseHeader(f[..HEADER_LEN], |f|) == Some(|body|)
  {
    HeaderFields(cmd, |body|, []);
    var f := Frame(cmd, body);
    assert f[..HEADER_LEN] == Header(cmd, |body|) + [];
  }

  // ----- push messages -----

  /** One turn of the push loop: the message, its timestamp as a number, and where it claims to end. */
  function MessageAt(data: seq<byte>, offset: nat): (r: Parsed<Record>)
    ensures r.used >= 12
  {
    var n := SubMsgLen(data, offset);
    var d := SubMsgLen(data, offset + n + 10);
    Parsed(Record(Slice(data, offset + 2, offset + n + 2), FromBytes(Slice(data, offset + n + 2, offset + n + 10)),
                  Slice(data, offset + n + 12, offset + n + d + 12)), n + d + 12)
  }

  /**
   A Python loop over items that claim their own lengths: the items, and the offset it ends at. The
   reader `at` of one item is a parameter.
   */
  function Collect<T>(at: nat -> Parsed<T>, len: nat, parsed: nat, offset: nat): (seq<T>, nat)
    decreases if parsed < len then len - parsed else 0
  {
    if parsed >= len || at(offset).used == 0 then ([], offset) else
    var p := at(offset);
    var (more, end) := Collect(at, len, parsed + p.used, offset + p.used);
    ([p.item] + more, end)
  }

  function MessageReader(data: seq<byte>): nat -> Parsed<Record> {
    (i: nat) => MessageAt(data, i)
  }

  /** All messages of a push body of `len` bytes, and the offset the client ends at. */
  function Messages(data: seq<byte>, len: nat, start: nat): (seq<Record>, nat) {
    Collect(MessageReader(data), len, 0, start)
  }

  // ----- tracepoint lists -----

  /** One turn of the list loop: the name, clamped, and where it claims to end. */
  function ListedAt(data: seq<byte>, offset: nat): (r: Parsed<Name>)
    ensures r.used >= 2
  {
    var n := SubMsgLen(data, offset);
    Parsed(Slice(data, offset + 2, offset + n + 2), n + 2)
  }

  /** The names of a list body as far as `decode('ascii')` does not raise, and the offset reached. */
  datatype NameList = NameList(names: seq<Name>, end: nat, raised: bool)

  function CollectAscii(at: nat -> Parsed<Name>, len: nat, parsed: nat, offset: nat): NameList
    decreases if parsed < len then len - parsed else 0
  {
    if parsed >= len || at(offset).used == 0 then NameList([], offset, false)
    else if !IsAscii(at(offset).item) then NameList([], offset + at(offset).used, true)
    else
      var more := CollectAscii(at, len, parsed + at(offset).used, offset + at(offset).used);
      more.(names := [at(offset).item] + more.names)
  }

  function ListedReader(data: seq<byte>): nat -> Parsed<Name> {
    (i: nat) => ListedAt(data, i)
  }

  function NamesRead(data: seq<byte>, len: nat, start: nat): NameList {
    CollectAscii(ListedReader(data), len, 0, start)
  }

  class Tracy {
    var recMessages: seq<Record>
    var tracepoints: seq<Name>
    var allTracepointsEnabled: bool

    /** The client as `connection_made` leaves it. */
    constructor ()
      ensures recMessages == [] && tracepoints == [] && !allTracepointsEnabled
    {
      recMessages, tracepoints, allTracepointsEnabled := [], [], false;
    }

    /** The body of the push loop, field by field. */
    method ParseMessage(data: seq<byte>, start: nat) returns (message: Record, offset: nat)
      ensures offset >= start && Parsed(message, offset - start) == MessageAt(data, start)
    {
      offset := start;
      var nameLen := SubMsgLen(data, offset);
      offset := offset + 2;
      var name := Slice(data, offset, offset + nameLen);
      offset := offset + nameLen;
      var timestamp := Slice(data, offset, offset + 8);
      offset := offset + 8;
      var dataLen := SubMsgLen(data, offset);
      offset := offset + 2;
      var payload := Slice(data, offset, offset + dataLen);
      offset := offset + dataLen;
      message := Record(name, FromBytes(timestamp), payload);
    }

    method ParseTracePushMsg(data: seq<byte>, len: nat, start: nat) returns (offset: nat)
      modifies this`recMessages
      ensures recMessages == old(recMessages) + Messages(data, len, start).0
      ensures offset == Messages(data, len, start).1
    {
      offset := PushLoop(data, len, start, MessageReader(data));
    }

    /** The loop itself; `at` stands for the reading of one message. */
    method PushLoop(data: seq<byte>, len: nat, start: nat, ghost at: nat -> Parsed<Record>) returns (offset: nat)
      requires forall i: nat {:trigger MessageAt(data, i)} :: at(i) == MessageAt(data, i)
      modifies this`recMessages
      ensures recMessages == old(recMessages) + Collect(at, len, 0, start).0
      ensures offset == Collect(at, len, 0, start).1
    {
      ghost var all := (recMessages + Collect(at, len, 0, start).0, Collect(at, len, 0, start).1);
      var parsed := 0;
      offset := start;
      var oldOffset := offset;
      while parsed < len
        invariant oldOffset == offset
        invariant StillToCollect(at, len, parsed, offset, recMessages, all)
        decreases if parsed < len then len - parsed else 0
      {
        var message;
        message, offset := ParseMessage(data, offset);
        CollectOne(at, len, parsed, oldOffset, recMessages, all);
        recMessages := recMessages + [message];
        parsed := parsed + (offset - oldOffset);
        oldOffset := offset;
      }
      AllCollected(at, len, parsed, offset, recMessages, all);
    }

    /** The body of the list loop. */
    method ParseListed(data: seq<byte>, start: nat) returns (tracepoint: Name, offset: nat)
      ensures offset >= start && Parsed(tracepoint, offset - start) == ListedAt(data, start)
    {
      offset := start;
      var nameLen := SubMsgLen(data, offset);
      offset := offset + 2;
      tracepoint := Slice(data, offset, offset + nameLen);
      offset := offset + nameLen;
    }

    method ParseTracepointListMsg(data: seq<byte>, len: nat, start: nat) returns (offset: nat, raised: bool)
      modifies this`tracepoints, this`allTracepointsEnabled
      ensures NamesRead(data, len, start).raised == raised
      ensures NamesRead(data, len, start).end == offset
      ensures tracepoints == old(tracepoints) + NamesRead(data, len, start).names
      ensures allTracepointsEnabled == (raised && old(allTracepointsEnabled))
    {
      offset, raised := ListLoop(data, len, start, ListedReader(data));
      if !raised {
        allTracepointsEnabled := false;
      }
    }

    method ListLoop(data: seq<byte>, len: nat, start: nat, ghost at: nat -> Parsed<Name>)
      returns (offset: nat, raised: bool)
      requires forall i: nat {:trigger ListedAt(data, i)} :: at(i) == ListedAt(data, i)
      modifies this`tracepoints
      ensures var all := CollectAscii(at, len, 0, start);
              tracepoints == old(tracepoints) + all.names && offset == all.end && raised == all.raised
    {
      ghost var read := CollectAscii(at, len, 0, start);
      ghost var all := read.(names := tracepoints + read.names);
      var parsed := 0;
      offset := start;
      var oldOffset := offset;
      while parsed < len
        invariant oldOffset == offset
        invariant StillToList(at, len, parsed, offset, tracepoints, all)
        decreases if parsed < len then len - parsed else 0
      {
        var tracepoint;
        tracepoint, offset := ParseListed(data, offset);
        ListOne(at, len, parsed, oldOffset, tracepoints, all);
        if !IsAscii(tracepoint) {
          return offset, true;
        }
        tracepoints := tracepoints + [tracepoint];
        parsed := parsed + (offset - oldOffset);
        oldOffset := offset;
      }
      AllListed(at, len, parsed, offset, tracepoints, all);
      raised := false;
    }
  }

  /** With `got` collected so far, the rest of the loop leads to `all`. */
  ghost predicate StillToCollect<T>(
    at: nat -> Parsed<T>, len: nat, parsed: nat, offset: nat, got: seq<T>, all: (seq<T>, nat))
  {
    var (more, end) := Collect(at, len, parsed, offset);
    got + more == all.0 && end == all.1
  }

  lemma CollectOne<T>(at: nat -> Parsed<T>, len: nat, parsed: nat, offset: nat, got: seq<T>, all: (seq<T>, nat))
    requires parsed < len && at(offset).used > 0 && StillToCollect(at, len, parsed, offset, got, all)
    ensures var p := at(offset);
            StillToCollect(at, len, parsed + p.used, offset + p.used, got + [p.item], all)
  {
    var p := at(offset);
    Associate(got, [p.item], Collect(at, len, parsed + p.used, offset + p.used).0);
  }

  lemma AllCollected<T>(at: nat -> Parsed<T>, len: nat, parsed: nat, offset: nat, got: seq<T>, all: (seq<T>, nat))
    requires parsed >= len && StillToCollect(at, len, parsed, offset, got, all)
    ensures all == (got, offset)
  {
    assert got + [] == got;
  }

  /** The same for the list loop, which may stop at an exception. */
  ghost predicate StillToList(
    at: nat -> Parsed<Name>, len: nat, parsed: nat, offset: nat, got: seq<Name>, all: NameList)
  {
    var more := CollectAscii(at, len, parsed, offset);
    all == more.(names := got + more.names)
  }

  lemma ListOne(at: nat -> Parsed<Name>, len: nat, parsed: nat, offset: nat, got: seq<Name>, all: NameList)
    requires parsed < len && at(offset).used > 0 && StillToList(at, len, parsed, offset, got, all)
    ensures var p := at(offset);
            if IsAscii(p.item) then StillToList(at, len, parsed + p.used, offset + p.used, got + [p.item], all)
            else all == NameList(got, offset + p.used, true)
  {
    var p := at(offset);
    if IsAscii(p.item) {
      Associate(got, [p.item], CollectAscii(at, len, parsed + p.used, offset + p.used).names);
    } else {
      assert got + [] == got;
    }
  }

  lemma AllListed(at: nat -> Parsed<Name>, len: nat, parsed: nat, offset: nat, got: seq<Name>, all: NameList)
    requires parsed >= len && StillToList(at, len, parsed, offset, got, all)
    ensures all == NameList(got, offset, false)
  {
    assert got + [] == got;
  }

  // ----- agreement with the dissector -----

  /** Two readers agree at an offset: either the strict one fails and the loose one overshoots, or both see the same. */
  predicate SameItem<T(==)>(strict: Option<Parsed<T>>, loose: Parsed<T>, left: nat) {
    match strict
    case None => loose.used > left
    case Some(p) => p == loose && 0 < p.used <= left
  }

  lemma {:induction false} LoopsAgree<T>(
    strict: nat -> Option<Parsed<T>>, loose: nat -> Parsed<T>, len: nat, parsed: nat, offset: nat)
    requires parsed <= len
    requires forall i :: offset <= i < offset + len - parsed ==>
               SameItem(strict(i), loose(i), offset + len - parsed - i)
    ensures var total := offset + len - parsed;
            var (items, end) := Collect(loose, len, parsed, offset);
            && (Strict(strict, total, offset).Some? <==> end == total)
            && (end == total ==> Strict(strict, total, offset) == Some(items))
    decreases len - parsed
  {
    if parsed < len {
      assert SameItem(strict(offset), loose(offset), len - parsed);
      if strict(offset).Some? {
        var u := loose(offset).used;
        LoopsAgree(strict, loose, len, parsed + u, offset + u);
      }
    }
  }

  lemma SliceInside(data: seq<byte>, a: nat, b: nat)
    requires a <= b <= |data|
    ensures Slice(data, a, b) == data[a..b]
  {
  }

  lemma MessageIsRecord(data: seq<byte>, offset: nat)
    requires offset < |data|
    ensures SameItem(RecordAt(data, offset), MessageAt(data, offset), |data| - offset)
  {
    if offset + 2 <= |data| {
      SliceInside(data, offset, offset + 2);
      var n := FromBytes(data[offset..offset + 2]);
      if offset + n + 12 <= |data| {
        SliceInside(data, offset + 2, offset + n + 2);
        SliceInside(data, offset + n + 2, offset + n + 10);
        SliceInside(data, offset + n + 10, offset + n + 12);
        var d := FromBytes(data[offset + n + 10..offset + n + 12]);
        if offset + n + d + 12 <= |data| {
          SliceInside(data, offset + n + 12, offset + n + d + 12);
        }
      }
    }
  }

  /**
   On any frame whose length field is exact, the dissector accepts the push body exactly when the
   Python client ends at the end of the frame, and then both have read the same records.
   */
  lemma PythonAgreesWithLua(frame: seq<byte>)
    requires SelfDelimiting(frame)
    ensures var (messages, end) := Messages(frame, LengthOf(frame), HEADER_LEN);
            && (ParseRecords(frame[HEADER_LEN..]).Some? <==> end == |frame|)
            && (end == |frame| ==> ParseRecords(frame[HEADER_LEN..]) == Some(messages))
  {
    forall i | HEADER_LEN <= i < |frame|
      ensures SameItem(RecordReader(frame)(i), MessageReader(frame)(i), |frame| - i)
    {
      MessageIsRecord(frame, i);
    }
    LoopsAgree(RecordReader(frame), MessageReader(frame), LengthOf(frame), 0, HEADER_LEN);
    RecordsAtIsParse(frame, HEADER_LEN);
  }

  // ----- and on lists -----

  predicate AllAscii(ns: seq<Name>) {
    forall i :: 0 <= i < |ns| ==> IsAscii(ns[i])
  }

  lemma AsciiHead(name: Name, rest: seq<Name>)
    ensures AllAscii([name] + rest) <==> IsAscii(name) && AllAscii(rest)
  {
    if AllAscii([name] + rest) {
      assert IsAscii(([name] + rest)[0]);
      assert forall i :: 0 <= i < |rest| ==> rest[i] == ([name] + rest)[i + 1];
    }
  }

  lemma {:induction false} ListLoopsAgree(
    strict: nat -> Option<Parsed<Name>>, loose: nat -> Parsed<Name>, len: nat, parsed: nat, offset: nat)
    requires parsed <= len
    requires forall i :: offset <= i < offset + len - parsed ==>
               SameItem(strict(i), loose(i), offset + len - parsed - i)
    ensures var total := offset + len - parsed;
            var py, lua := CollectAscii(loose, len, parsed, offset), Strict(strict, total, offset);
            && (!py.raised && py.end == total <==> lua.Some? && AllAscii(lua.value))
            && (!py.raised && py.end == total ==> lua == Some(py.names))
    decreases len - parsed
  {
    if parsed < len {
      assert SameItem(strict(offset), loose(offset), len - parsed);
      if strict(offset).Some? {
        var u := loose(offset).used;
        ListLoopsAgree(strict, loose, len, parsed + u, offset + u);
        var later := Strict(strict, offset + len - parsed, offset + u);
        if later.Some? {
          AsciiHead(loose(offset).item, later.value);
        }
      }
    }
  }

  lemma ListedIsName(data: seq<byte>, offset: nat)
    requires offset < |data|
    ensures SameItem(NameAt(data, offset), ListedAt(data, offset), |data| - offset)
  {
    if offset + 2 <= |data| {
      SliceInside(data, offset, offset + 2);
      var n := FromBytes(data[offset..offset + 2]);
      if offset + n + 2 <= |data| {
        SliceInside(data, offset + 2, offset + n + 2);
      }
    }
  }

  /**
   The client reads a list to its end without an exception exactly when the dissector accepts it and
   all names are ASCII.
   */
  lemma PythonListAgreesWithLua(frame: seq<byte>)
    requires SelfDelimiting(frame)
    ensures var py, lua := NamesRead(frame, LengthOf(frame), HEADER_LEN), ParseNames(frame[HEADER_LEN..]);
            && (!py.raised && py.end == |frame| <==> lua.Some? && AllAscii(lua.value))
            && (!py.raised && py.end == |frame| ==> lua == Some(py.names))
  {
    forall i | HEADER_LEN <= i < |frame|
      ensures SameItem(NameReader(frame)(i), ListedReader(frame)(i), |frame| - i)
    {
      ListedIsName(frame, i);
    }
    ListLoopsAgree(NameReader(frame), ListedReader(frame), LengthOf(frame), 0, HEADER_LEN);
    NamesAtIsParse(frame, HEADER_LEN);
  }
}
