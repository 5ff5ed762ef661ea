/**
 The byte queue as the server fills it (src/tcp_handler.rs:211-263): pushed byte by byte at the back
 for records and names, byte by byte at the front, in reverse, for the header.
 */
module Encoder {
  import opened Bytes
  import opened Names
  import opened Codec

  method PushBackAll(que: seq<byte>, bytes: seq<byte>) returns (r: seq<byte>)
    ensures r == que + bytes
  {
    r := que;
    for i := 0 to |bytes|
      invariant r == que + bytes[..i]
    {
      r := r + [bytes[i]];
    }
  }

  method PushFrontReversed(que: seq<byte>, bytes: seq<byte>) returns (r: seq<byte>)
    ensures r == bytes + que
  {
    r := que;
    for i := |bytes| downto 0
      invariant r == bytes[i..] + que
    {
      r := [bytes[i]] + r;
    }
  }

  /** Appending one element appends exactly the record a client can read back. */
  method EncodeAppendTraceData(que: seq<byte>, e: Element) returns (r: seq<byte>)
    ensures r == que + EncodeRecord(ToRecord(e))
  {
    var lenN, stamp, lenD := ToBytes(|e.name|, 2), ToBytes(Stamp(e.time), 8), ToBytes(|e.data|, 2);
    r := PushBackAll(que, lenN);
    r := PushBackAll(r, e.name);
    r := PushBackAll(r, stamp);
    r := PushBackAll(r, lenD);
    r := PushBackAll(r, e.data);
    RegroupRecord(que, lenN, e.name, stamp, lenD, e.data);
  }

  lemma RegroupRecord(q: seq<byte>, a: seq<byte>, b: seq<byte>, c: seq<byte>, d: seq<byte>, e: seq<byte>)
    ensures q + a + b + c + d + e == q + (a + b + c + d + e)
  {
  }

  /** Four reversed pushes to the front make the queue a frame. */
  method PushFrontHeader(que: seq<byte>, cmd: nat) returns (r: seq<byte>)
    ensures r == Frame(cmd, que)
  {
    var flags: nat := 0;
    var length, command, none := ToBytes(|que|, 4), ToBytes(cmd, 2), ToBytes(flags, 2);
    r := PushFrontReversed(que, length);
    r := PushFrontReversed(r, command);
    r := PushFrontReversed(r, none);
    r := PushFrontReversed(r, MAGIC);
    RegroupHeader(MAGIC, none, command, length, que);
  }

  lemma RegroupHeader(a: seq<byte>, b: seq<byte>, c: seq<byte>, d: seq<byte>, q: seq<byte>)
    ensures a + (b + (c + (d + q))) == a + b + c + d + q
  {
  }

  /** The body of a list reply. */
  method EncodeNameList(names: seq<Name>) returns (r: seq<byte>)
    ensures r == EncodeNames(names)
  {
    r := [];
    for i := 0 to |names|
      invariant r == EncodeNames(names[..i])
    {
      var before := r;
      var len := ToBytes(|names[i]|, 2);
      r := PushBackAll(r, len);
      r := PushBackAll(r, names[i]);
      Associate(before, len, names[i]);
      assert names[..i + 1] == names[..i] + [names[i]];
      FlatMapConcat(EncodeName, names[..i], [names[i]]);
      FlatMapCons(EncodeName, names[i], []);
    }
    assert names[..|names|] == names;
  }
}
