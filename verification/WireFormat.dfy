/**
 The wire format byte by byte, with every number written out (src/tcp_handler.rs:25-37, 211-263,
 334-374): what frames look like, which headers are accepted, and what literal requests do.
 */
module WireFormat {
  import opened Bytes
  import opened Names
  import opened Codec
  import opened TracerThread
  import opened WorkerInvariants
  import opened Requests
  import opened RequestTheorems
  import opened AfterClose

  // ----- frames -----

  lemma HeaderBytes(cmd: nat, len: nat)
    ensures Header(cmd, len) == [0x52, 0x75, 0x53, 0x74, 0, 0] + BigEndian2(cmd) + BigEndian4(len)
  {
    ToTwo(0);
    ToTwo(cmd);
    ToFour(len);
  }

  /** A push frame: "RuSt", no flags, number 5, the body's length, the body. */
  lemma PushFrameBytes(es: seq<Element>)
    ensures FrameOf(Push(es)) ==
            [0x52, 0x75, 0x53, 0x74, 0, 0, 0, 5] + BigEndian4(|PushBody(es)|) + PushBody(es)
  {
    HeaderBytes(TRACE_PUSH, |PushBody(es)|);
  }

  /** A list reply: the same with number 2. */
  lemma ListFrameBytes(ns: seq<Name>)
    ensures FrameOf(ListReply(ns)) ==
            [0x52, 0x75, 0x53, 0x74, 0, 0, 0, 2] + BigEndian4(|EncodeNames(ns)|) + EncodeNames(ns)
  {
    HeaderBytes(LIST_REPLY, |EncodeNames(ns)|);
  }

  /** A record: length and name, eight bytes of time, length and data, all numbers big-endian. */
  lemma RecordBytes(r: Record)
    ensures EncodeRecord(r) ==
            BigEndian2(|r.name|) + r.name + (BigEndian4(r.stamp / 0x1_0000_0000) + BigEndian4(r.stamp)) +
            BigEndian2(|r.data|) + r.data
  {
    ToTwo(|r.name|);
    ToEight(r.stamp);
    ToTwo(|r.data|);
  }

  lemma NameBytes(n: Name)
    ensures EncodeName(n) == BigEndian2(|n|) + n
  {
    ToTwo(|n|);
  }

  /** The number of a request, as the protocol assigns it. */
  function WireNumber(r: Request): byte {
    match r
    case ListAll => 1
    case Enable(_) => 3
    case Disable(_) => 4
  }

  /** What the theorems about requests call the encoding of a request are these bytes. */
  lemma RequestBytes(r: Request)
    ensures var body := EncodeNames(NamesOf(r));
            EncodeRequest(r) == [0x52, 0x75, 0x53, 0x74, 0, 0, 0, WireNumber(r)] + BigEndian4(|body|) + body
  {
    HeaderBytes(NumberOf(r), |EncodeNames(NamesOf(r))|);
  }

  // ----- headers -----

  /** Twelve ready bytes are a request exactly if they start "RuSt" and no flags; then they say which. */
  lemma HeaderAskedIff(s: Stream)
    requires |s.ready| >= 12
    ensures NextHeader(s).Asked? <==> StartsWell(s.ready)
    ensures !StartsWell(s.ready) ==> NextHeader(s) == BadHeader(s.(ready := s.ready[12..]))
    ensures StartsWell(s.ready) ==>
              NextHeader(s) == Asked(CommandFromNumber(Number2(s.ready[6], s.ready[7])),
                                     Number4(s.ready[8], s.ready[9], s.ready[10], s.ready[11]),
                                     s.(ready := s.ready[12..]))
  {
    var h := s.ready[..12];
    HeaderPassesIff(h);
    assert h[..6] == s.ready[..6];
  }

  /** With fewer bytes `receive` waits for more if more may come; otherwise the client is lost. */
  lemma ShortHeader(s: Stream)
    requires |s.ready| < 12
    ensures NextHeader(s) == if s.later != [] || s.end.Blocked? then NoHeader else LostClient
  {
  }

  /** A name is two bytes of length, at most 32, and that many bytes, all of them there; else it is a violation. */
  lemma NameReadIff(s: Stream, count: nat, len: nat)
    requires count < len
    ensures var n := if |s.ready| >= 2 then Number2(s.ready[0], s.ready[1]) else 0;
            if |s.ready| >= 2 && n <= 32 && |s.ready| >= 2 + n
            then NextName(s, count, len) ==
                 OneName(s.ready[2..2 + n], s.(ready := s.ready[2 + n..]), (count + 2 + n) % 0x1_0000_0000)
            else NextName(s, count, len).Violation?
  {
    if |s.ready| >= 2 {
      FromTwo(s.ready[..2]);
      var n := Number2(s.ready[0], s.ready[1]);
      var s1 := s.(ready := s.ready[2..]);
      assert ReadExact(s, 2) == (Got(s.ready[..2]), s1);
      if |s1.ready| >= n {
        assert s1.ready[..n] == s.ready[2..2 + n] && s1.ready[n..] == s.ready[2 + n..];
        CountTwice(count, n);
      }
    }
  }

  lemma CountTwice(count: nat, n: nat)
    ensures ((count + 2) % U32 + n) % U32 == (count + 2 + n) % 0x1_0000_0000
  {
  }

  /** Any other twelve bytes cost the client its connection; nothing is written and every flag is off. */
  lemma BadHeaderCloses(env: Env, w: Worker, s: Stream)
    requires w.health.Running? && w.connection.Some? && |s.ready| >= 12 && !StartsWell(s.ready)
    ensures var w' := FinishReceive(env, w.(phase := AtHeader(s)));
            if s.later == [] && s.end.Broken? then w'.health.Panicked?
            else JustClosed(w, w') && w'.phase == Idle && w'.past.log == w.past.log && w'.buffer == w.buffer
  {
    HeaderAskedIff(s);
    CloseIsJustClosed(w, Idle);
    var w0 := w.(phase := AtHeader(s));
    var w1 := RejectHeader(w0, s.(ready := s.ready[12..]));
    assert ReadStep(env, w0) == w1;
    assert FinishReceive(env, w1) == w1;
  }

  /** A command that no client may send is skipped: header only, with or without a client. */
  lemma OtherCommandsAreSkipped(env: Env, w: Worker, s: Stream)
    requires w.health.Running? && |s.ready| >= 12 && StartsWell(s.ready)
    requires var n := Number2(s.ready[6], s.ready[7]); n != 1 && n != 3 && n != 4
    ensures FinishReceive(env, w.(phase := AtHeader(s))) ==
            FinishReceive(env, w.(phase := AtHeader(s.(ready := s.ready[12..]))))
  {
    HeaderAskedIff(s);
    NumbersOfRequests(Number2(s.ready[6], s.ready[7]));
    var w0, w1 := w.(phase := AtHeader(s)), w.(phase := AtHeader(s.(ready := s.ready[12..])));
    assert ReadStep(env, w0) == w1;
    ReadsOnce(env, w0, w1);
    ReadsToFinish(env, w0, w1);
  }

  // ----- literal requests -----

  /** "foo" */
  const FOO: Name := [0x66, 0x6f, 0x6f]

  lemma FooIsNormal()
    ensures IsNormal(FOO) && LookupKey(FOO) == FOO
  {
    AsciiLooksItselfUp(FOO);
  }

  lemma FooRequestBytes(r: Request)
    requires r == Enable([FOO]) || r == Disable([FOO])
    ensures EncodeRequest(r) ==
            [0x52, 0x75, 0x53, 0x74, 0, 0, 0, if r.Enable? then 3 else 4, 0, 0, 0, 5, 0, 3, 0x66, 0x6f, 0x6f]
    ensures WellFormed(r)
  {
    FlatMapCons(EncodeName, FOO, []);
    NameBytes(FOO);
    RequestBytes(r);
    assert EncodeNames([FOO]) == [0, 3, 0x66, 0x6f, 0x6f];
  }

  lemma OneRequest(r: Request)
    ensures EncodeRequests([r]) == EncodeRequest(r)
    ensures ListRequests([r]) == if r.ListAll? then 1 else 0
  {
    assert [r][..0] == [];
    assert [] + EncodeRequest(r) == EncodeRequest(r);
  }

  lemma OnlyFooIsMentioned(n: Name)
    ensures Mentions([FOO], n) <==> n == FOO
  {
    FooIsNormal();
    assert LookupKey([FOO][0]) == FOO;
  }

  /** The 17 bytes that enable "foo", and with 4 in place of 3 disable it. */
  lemma FooRequest(env: Env, w: Worker, number: byte)
    requires w.health.Running? && w.connection.Some? && FOO in w.tracepoints && (number == 3 || number == 4)
    requires CellsDistinct(w.tracepoints, |w.flags|)
    ensures var bytes := [0x52, 0x75, 0x53, 0x74, 0, 0, 0, number, 0, 0, 0, 5, 0, 3, 0x66, 0x6f, 0x6f];
            var w' := FinishReceive(env, w.(phase := AtHeader(Stream(bytes, [], Blocked))));
            && w' == w.(phase := Idle, flags := w'.flags)
            && (Load(w'.flags, w.tracepoints[FOO]) <==> number == 3)
            && forall n :: n in w.tracepoints && n != FOO ==>
                 Load(w'.flags, w.tracepoints[n]) == Load(w.flags, w.tracepoints[n])
  {
    var r := if number == 3 then Enable([FOO]) else Disable([FOO]);
    FooRequestBytes(r);
    OneRequest(r);
    BurstExecuted(env, w, [r]);
    OneIsApplied(env, w, r);
    SetAllShape(w, [FOO], r.Enable?);
    forall n | n in w.tracepoints
      ensures Load(SetAll(w, [FOO], r.Enable?).flags, w.tracepoints[n]) ==
              (if n == FOO then number == 3 else Load(w.flags, w.tracepoints[n]))
    {
      OnlyFooIsMentioned(n);
      SetAllReads(w, [FOO], r.Enable?, n);
    }
  }

  lemma ListRequestBytes()
    ensures EncodeRequests([ListAll]) == [0x52, 0x75, 0x53, 0x74, 0, 0, 0, 1, 0, 0, 0, 0]
    ensures AllWellFormed([ListAll]) && ListRequests([ListAll]) == 1
  {
    OneRequest(ListAll);
    RequestBytes(ListAll);
    assert EncodeNames([]) == [];
  }

  /** The twelve bytes that ask for the list: one reply is written, and nothing else changes. */
  lemma ListRequest(env: Env, w: Worker) returns (names: seq<Name>)
    requires ValidEnv(env) && w.health.Running? && w.connection.Some? && !env.net(|w.past.log|).Failed?
    ensures var bytes := [0x52, 0x75, 0x53, 0x74, 0, 0, 0, 1, 0, 0, 0, 0];
            var reply := Write(w.connection.value, ListReply(names), env.net(|w.past.log|));
            FinishReceive(env, w.(phase := AtHeader(Stream(bytes, [], Blocked)))) ==
            w.(phase := Idle, past := w.past.(log := w.past.log + [reply]))
    ensures Enumerates(names, w.tracepoints.Keys)
  {
    names := env.keys(|w.past.log|, w.tracepoints.Keys);
    ListRequestBytes();
    BurstExecuted(env, w, [ListAll]);
    OneIsApplied(env, w, ListAll);
  }

  lemma OneIsApplied(env: Env, w: Worker, r: Request)
    ensures ApplyAll(env, w, [r]) == Apply(env, w, r)
  {
    assert [r][..0] == [];
  }

  /** A list reply holds the registered names, each once, and nothing else. */
  lemma ReplyListsTheMap(env: Env, w: Worker)
    requires ValidEnv(env) && w.connection.Some? && KeysNormal(w.tracepoints)
    ensures var w' := SendTracepointList(env, w);
            && |w'.past.log| == |w.past.log| + 1 && w.past.log <= w'.past.log
            && var x := w'.past.log[|w.past.log|];
            && x.session == w.connection.value && x.cargo.ListReply? && Enumerates(x.cargo.names, w.tracepoints.Keys)
            && ParseNames(FrameOf(x.cargo)[12..]) == Some(x.cargo.names)
  {
    var names := env.keys(|w.past.log|, w.tracepoints.Keys);
    assert Enumerates(names, w.tracepoints.Keys);
    assert forall i :: 0 <= i < |names| ==> names[i] in w.tracepoints.Keys;
    NameParserInvertsPrinter(EncodeNames(names), names);
  }
}
