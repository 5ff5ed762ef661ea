/**
 Well-formed requests and what `receive` makes of their bytes (src/tcp_handler.rs:78-121, 266-308):
 each is read to its last byte and applied, one after the other.
 */
module Requests {
  import opened Bytes
  import opened Names
  import opened Codec
  import opened TracerThread
  import opened WorkerInvariants

  datatype Request = ListAll | Enable(names: seq<Name>) | Disable(names: seq<Name>)

  function NamesOf(r: Request): seq<Name> {
    if r.ListAll? then [] else r.names
  }

  function NumberOf(r: Request): nat {
    match r
    case ListAll => LIST_REQUEST
    case Enable(_) => ENABLE_REQUEST
    case Disable(_) => DISABLE_REQUEST
  }

  function EncodeRequest(r: Request): seq<byte> {
    Frame(NumberOf(r), EncodeNames(NamesOf(r)))
  }

  predicate ShortNames(ns: seq<Name>) {
    forall i :: 0 <= i < |ns| ==> |ns[i]| <= MAX_TRACEPOINT_NAME_LEN
  }

  /** Names of at most 32 bytes, whatever the bytes, in a body whose length the header can state. */
  predicate WellFormed(r: Request) {
    ShortNames(NamesOf(r)) && |EncodeNames(NamesOf(r))| < U32
  }

  predicate AllWellFormed(rs: seq<Request>) {
    forall i :: 0 <= i < |rs| ==> WellFormed(rs[i])
  }

  function EncodeRequests(rs: seq<Request>): seq<byte> {
    if rs == [] then [] else EncodeRequests(rs[..|rs| - 1]) + EncodeRequest(rs[|rs| - 1])
  }

  // ----- the specification: the last request naming a tracepoint wins -----

  predicate Mentions(ns: seq<Name>, n: Name) {
    exists i :: 0 <= i < |ns| && LookupKey(ns[i]) == n
  }

  /** What the last request that names `n` asks for, or `before` if none does. */
  function LastWord(rs: seq<Request>, n: Name, before: bool): bool {
    if rs == [] then before
    else if Mentions(NamesOf(rs[|rs| - 1]), n) then rs[|rs| - 1].Enable?
    else LastWord(rs[..|rs| - 1], n, before)
  }

  function ListRequests(rs: seq<Request>): nat {
    if rs == [] then 0 else ListRequests(rs[..|rs| - 1]) + (if rs[|rs| - 1].ListAll? then 1 else 0)
  }

  // ----- one request -----

  function SetAll(w: Worker, ns: seq<Name>, state: bool): Worker
    decreases |ns|
  {
    if ns == [] then w else SetAll(SetFlag(w, LookupKey(ns[0]), state), ns[1..], state)
  }

  function Apply(env: Env, w: Worker, r: Request): Worker {
    match r
    case ListAll => SendTracepointList(env, w)
    case Enable(ns) => SetAll(w, ns, true)
    case Disable(ns) => SetAll(w, ns, false)
  }

  function ApplyAll(env: Env, w: Worker, rs: seq<Request>): Worker {
    if rs == [] then w else Apply(env, ApplyAll(env, w, rs[..|rs| - 1]), rs[|rs| - 1])
  }

  lemma ReadReady(got: seq<byte>, tail: seq<byte>, s: Stream)
    requires s.ready == got + tail
    ensures ReadExact(s, |got|) == (Got(got), s.(ready := tail))
  {
  }

  lemma NextNameIs(n: Name, tail: seq<byte>, s: Stream, count: nat, len: nat)
    requires |n| <= MAX_TRACEPOINT_NAME_LEN && s.ready == EncodeName(n) + tail
    requires count < len && count + 2 + |n| < U32
    ensures NextName(s, count, len) == OneName(n, s.(ready := tail), count + 2 + |n|)
  {
    Pow256Values();
    FromTo(|n|, 2);
    Associate(ToBytes(|n|, 2), n, tail);
    ReadReady(ToBytes(|n|, 2), n + tail, s);
    ReadReady(n, tail, s.(ready := n + tail));
  }

  lemma EncodeNamesHead(ns: seq<Name>, tail: seq<byte>)
    requires ns != []
    ensures EncodeNames(ns) + tail == EncodeName(ns[0]) + (EncodeNames(ns[1..]) + tail)
    ensures |EncodeNames(ns)| == |ns[0]| + 2 + |EncodeNames(ns[1..])|
  {
    Associate(EncodeName(ns[0]), EncodeNames(ns[1..]), tail);
  }

  lemma FirstOfNames(ns: seq<Name>, tail: seq<byte>, s: Stream, count: nat, len: nat, more: seq<byte>)
    requires ns != [] && ShortNames(ns) && s.ready == EncodeNames(ns) + tail && more == EncodeNames(ns[1..]) + tail
    requires count + |EncodeNames(ns)| == len
    ensures |ns[0]| <= MAX_TRACEPOINT_NAME_LEN && ShortNames(ns[1..]) && s.ready == EncodeName(ns[0]) + more
    ensures count < len && count + 2 + |ns[0]| + |EncodeNames(ns[1..])| == len
  {
    EncodeNamesHead(ns, tail);
  }

  /** One name is read and stored. */
  lemma NameExecuted(
    env: Env, w: Worker, n: Name, tail: seq<byte>, s: Stream, count: nat, len: nat, state: bool)
    requires w.health.Running? && |n| <= MAX_TRACEPOINT_NAME_LEN && s.ready == EncodeName(n) + tail
    requires count < len && count + 2 + |n| < U32
    ensures ReadsTo(env, w.(phase := AtName(s, count, len, state)),
                    SetFlag(w, LookupKey(n), state).(phase := AtName(s.(ready := tail), count + 2 + |n|, len, state)))
  {
    NextNameIs(n, tail, s, count, len);
    var w0 := w.(phase := AtName(s, count, len, state));
    ReadsOnce(env, w0, ReadStep(env, w0));
  }

  lemma NoNames(tail: seq<byte>, s: Stream)
    requires s.ready == EncodeNames([]) + tail
    ensures s == s.(ready := tail)
  {
    assert EncodeNames([]) + tail == tail;
  }

  lemma NoMoreNames(env: Env, w: Worker, s: Stream, len: nat, state: bool)
    requires w.health.Running?
    ensures ReadsTo(env, w.(phase := AtName(s, len, len, state)), w.(phase := AtHeader(s)))
  {
    var w0 := w.(phase := AtName(s, len, len, state));
    ReadsOnce(env, w0, ReadStep(env, w0));
  }

  /** One name, and then on to `w2`. */
  lemma NameThenOn(
    env: Env, w: Worker, n: Name, tail: seq<byte>, s: Stream, count: nat, len: nat, state: bool, w2: Worker)
    requires w.health.Running? && |n| <= MAX_TRACEPOINT_NAME_LEN && s.ready == EncodeName(n) + tail
    requires count < len && count + 2 + |n| < U32
    requires var w1 := SetFlag(w, LookupKey(n), state);
             ReadsTo(env, w1.(phase := AtName(s.(ready := tail), count + 2 + |n|, len, state)), w2)
    ensures ReadsTo(env, w.(phase := AtName(s, count, len, state)), w2)
  {
    NameExecuted(env, w, n, tail, s, count, len, state);
    ReadsFurther(env, w.(phase := AtName(s, count, len, state)),
                 SetFlag(w, LookupKey(n), state).(phase := AtName(s.(ready := tail), count + 2 + |n|, len, state)), w2);
  }

  /** The name loop consumes exactly the names it was told about, and stores all of them. */
  lemma {:induction false} NamesExecuted(
    env: Env, w: Worker, ns: seq<Name>, tail: seq<byte>, s: Stream, count: nat, len: nat, state: bool)
    requires w.health.Running? && ShortNames(ns) && s.ready == EncodeNames(ns) + tail
    requires count + |EncodeNames(ns)| == len < U32
    ensures ReadsTo(env, w.(phase := AtName(s, count, len, state)),
                    SetAll(w, ns, state).(phase := AtHeader(s.(ready := tail))))
    decreases |ns|
  {
    if ns == [] {
      NoNames(tail, s);
      NoMoreNames(env, w, s, len, state);
    } else {
      var more, w1 := EncodeNames(ns[1..]) + tail, SetFlag(w, LookupKey(ns[0]), state);
      FirstOfNames(ns, tail, s, count, len, more);
      NamesExecuted(env, w1, ns[1..], tail, s.(ready := more), count + 2 + |ns[0]|, len, state);
      NameThenOn(env, w, ns[0], more, s, count, len, state,
                 SetAll(w, ns, state).(phase := AtHeader(s.(ready := tail))));
    }
  }

  /** Reading one well-formed header. */
  lemma HeaderAccepted(cmd: nat, len: nat, tail: seq<byte>, s: Stream)
    requires cmd < U16 && len < U32 && s.ready == Header(cmd, len) + tail
    ensures NextHeader(s) == Asked(CommandFromNumber(cmd), len, s.(ready := tail))
  {
    ReadReady(Header(cmd, len), tail, s);
    HeaderFields(cmd, len, []);
    assert Header(cmd, len) + [] == Header(cmd, len);
  }

  lemma HeaderExecuted(env: Env, w: Worker, cmd: nat, len: nat, tail: seq<byte>, s: Stream)
    requires w.health.Running? && cmd < U16 && len < U32 && s.ready == Header(cmd, len) + tail
    ensures ReadsTo(env, w.(phase := AtHeader(s)),
                    ExecuteCommand(env, w, CommandFromNumber(cmd), len, s.(ready := tail)))
  {
    HeaderAccepted(cmd, len, tail, s);
    var w0 := w.(phase := AtHeader(s));
    CommandInPhase(env, w, w0.phase, CommandFromNumber(cmd), len, s.(ready := tail));
    ReadsOnce(env, w0, ReadStep(env, w0));
  }

  lemma CommandInPhase(env: Env, w: Worker, p: Phase, cmd: Command, len: nat, rest: Stream)
    ensures ExecuteCommand(env, w.(phase := p), cmd, len, rest) == ExecuteCommand(env, w, cmd, len, rest)
  {
  }

  /** A well-formed request is executed, and then the reader stands right behind it. */
  lemma RequestExecuted(env: Env, w: Worker, r: Request, tail: seq<byte>, s: Stream)
    requires w.health.Running? && WellFormed(r) && s.ready == EncodeRequest(r) + tail
    ensures ReadsTo(env, w.(phase := AtHeader(s)), Apply(env, w, r).(phase := AtHeader(s.(ready := tail))))
  {
    var body := EncodeNames(NamesOf(r));
    var len := |body|;
    Associate(Header(NumberOf(r), len), body, tail);
    HeaderExecuted(env, w, NumberOf(r), len, body + tail, s);
    if r.ListAll? {
      assert body + tail == tail;
    } else {
      NamesExecuted(env, w, r.names, tail, s.(ready := body + tail), 0, len, r.Enable?);
      ReadsFurther(env, w.(phase := AtHeader(s)), w.(phase := AtName(s.(ready := body + tail), 0, len, r.Enable?)),
                   Apply(env, w, r).(phase := AtHeader(s.(ready := tail))));
    }
  }

  // ----- what applying requests does -----

  /** Everything but the flags and the log of replies is as it was. */
  ghost predicate OnlyFlagsAndLog(w: Worker, w': Worker) {
    w' == w.(flags := w'.flags, past := w.past.(log := w'.past.log)) && |w'.flags| == |w.flags|
  }

  lemma {:induction false} SetAllShape(w: Worker, ns: seq<Name>, state: bool)
    requires w.connection.Some?
    ensures SetAll(w, ns, state) == w.(flags := SetAll(w, ns, state).flags)
    ensures |SetAll(w, ns, state).flags| == |w.flags|
    decreases |ns|
  {
    if ns != [] {
      SetAllShape(SetFlag(w, LookupKey(ns[0]), state), ns[1..], state);
    }
  }

  lemma SetFlagReads(w: Worker, key: Name, state: bool, n: Name)
    requires CellsDistinct(w.tracepoints, |w.flags|) && n in w.tracepoints
    ensures Load(SetFlag(w, key, state).flags, w.tracepoints[n]) ==
            (if key == n then state else Load(w.flags, w.tracepoints[n]))
    ensures SetFlag(w, key, state).tracepoints == w.tracepoints && |SetFlag(w, key, state).flags| == |w.flags|
  {
  }

  lemma {:induction false} SetAllReads(w: Worker, ns: seq<Name>, state: bool, n: Name)
    requires CellsDistinct(w.tracepoints, |w.flags|) && n in w.tracepoints
    ensures Load(SetAll(w, ns, state).flags, w.tracepoints[n]) ==
            (if Mentions(ns, n) then state else Load(w.flags, w.tracepoints[n]))
    decreases |ns|
  {
    if ns != [] {
      var key := LookupKey(ns[0]);
      SetFlagReads(w, key, state, n);
      SetAllReads(SetFlag(w, key, state), ns[1..], state, n);
      MentionsHead(ns, n);
    }
  }

  lemma MentionsHead(ns: seq<Name>, n: Name)
    requires ns != []
    ensures Mentions(ns, n) <==> LookupKey(ns[0]) == n || Mentions(ns[1..], n)
  {
    if Mentions(ns[1..], n) {
      var i :| 0 <= i < |ns[1..]| && LookupKey(ns[1..][i]) == n;
      assert LookupKey(ns[i + 1]) == n;
    }
    if Mentions(ns, n) && LookupKey(ns[0]) != n {
      var i :| 0 <= i < |ns| && LookupKey(ns[i]) == n;
      assert LookupKey(ns[1..][i - 1]) == n;
    }
  }

  /** Writes number `from` to `to` do not fail; WouldBlock does not count as failing. */
  ghost predicate WritesHold(env: Env, from: nat, to: nat) {
    forall i :: from <= i < to ==> !env.net(i).Failed?
  }

  lemma ApplyShape(env: Env, w: Worker, r: Request)
    requires w.connection.Some? && (r.ListAll? ==> !env.net(|w.past.log|).Failed?)
    ensures OnlyFlagsAndLog(w, Apply(env, w, r))
    ensures |Apply(env, w, r).past.log| == |w.past.log| + (if r.ListAll? then 1 else 0)
  {
    if !r.ListAll? {
      SetAllShape(w, r.names, r.Enable?);
    }
  }

  lemma ApplyReads(env: Env, w: Worker, r: Request, n: Name)
    requires w.connection.Some? && (r.ListAll? ==> !env.net(|w.past.log|).Failed?)
    requires CellsDistinct(w.tracepoints, |w.flags|) && n in w.tracepoints
    ensures Load(Apply(env, w, r).flags, w.tracepoints[n]) ==
            (if Mentions(NamesOf(r), n) then r.Enable? else Load(w.flags, w.tracepoints[n]))
  {
    if !r.ListAll? {
      SetAllReads(w, r.names, r.Enable?, n);
    }
  }

  lemma {:induction false} ApplyAllShape(env: Env, w: Worker, rs: seq<Request>)
    requires w.connection.Some? && WritesHold(env, |w.past.log|, |w.past.log| + ListRequests(rs))
    ensures OnlyFlagsAndLog(w, ApplyAll(env, w, rs))
    ensures |ApplyAll(env, w, rs).past.log| == |w.past.log| + ListRequests(rs)
    decreases |rs|
  {
    if rs != [] {
      var front, last := rs[..|rs| - 1], rs[|rs| - 1];
      ApplyAllShape(env, w, front);
      ApplyShape(env, ApplyAll(env, w, front), last);
    }
  }

  lemma {:induction false} ApplyAllReads(env: Env, w: Worker, rs: seq<Request>, n: Name)
    requires w.connection.Some? && WritesHold(env, |w.past.log|, |w.past.log| + ListRequests(rs))
    requires CellsDistinct(w.tracepoints, |w.flags|) && n in w.tracepoints
    ensures Load(ApplyAll(env, w, rs).flags, w.tracepoints[n]) == LastWord(rs, n, Load(w.flags, w.tracepoints[n]))
    decreases |rs|
  {
    if rs != [] {
      var front, last := rs[..|rs| - 1], rs[|rs| - 1];
      ApplyAllShape(env, w, front);
      ApplyAllReads(env, w, front, n);
      ApplyReads(env, ApplyAll(env, w, front), last, n);
    }
  }

  /** Reading encoded requests is applying them one after the other, and takes exactly their bytes. */
  lemma {:induction false} RequestsExecuted(env: Env, w: Worker, rs: seq<Request>, tail: seq<byte>, s: Stream)
    requires w.health.Running? && w.connection.Some? && AllWellFormed(rs)
    requires WritesHold(env, |w.past.log|, |w.past.log| + ListRequests(rs))
    requires s.ready == EncodeRequests(rs) + tail
    ensures ReadsTo(env, w.(phase := AtHeader(s)), ApplyAll(env, w, rs).(phase := AtHeader(s.(ready := tail))))
    decreases |rs|
  {
    if rs == [] {
      assert EncodeRequests(rs) + tail == tail;
      ReadsNothing(env, w.(phase := AtHeader(s)));
    } else {
      var front, last := rs[..|rs| - 1], rs[|rs| - 1];
      var more := EncodeRequest(last) + tail;
      Associate(EncodeRequests(front), EncodeRequest(last), tail);
      RequestsExecuted(env, w, front, more, s);
      ApplyAllShape(env, w, front);
      var w1 := ApplyAll(env, w, front);
      RequestExecuted(env, w1, last, tail, s.(ready := more));
      ReadsFurther(env, w.(phase := AtHeader(s)), w1.(phase := AtHeader(s.(ready := more))),
                   ApplyAll(env, w, rs).(phase := AtHeader(s.(ready := tail))));
    }
  }
}
