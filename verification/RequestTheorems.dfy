/**
 The theorems about requests read with a client: last writer wins, a listed name can be sent back, and
 what arbitrary bytes can do to the counter and the overshoot.
 */
module RequestTheorems {
  import opened Bytes
  import opened Names
  import opened Codec
  import opened TracerThread
  import opened WorkerInvariants
  import opened Requests

  lemma ReceiveWaits(env: Env, w: Worker, end: StreamEnd)
    requires w.health.Running?
    ensures FinishReceive(env, w.(phase := AtHeader(Stream([], [], end)))) ==
            (if end.Blocked? then w else CloseAndClean(w)).(phase := Idle)
  {
    var s := Stream([], [], end);
    assert NextHeader(s) == if end.Blocked? then NoHeader else LostClient;
    var w1 := HeaderStep(env, w.(phase := AtHeader(s)), s);
    assert FinishReceive(env, w1) == w1;
  }

  /** The burst of requests a client sends at once. */
  function Burst(rs: seq<Request>): Stream {
    Stream(EncodeRequests(rs), [], Blocked)
  }

  /** `receive` comes to stand at the end of what is ready: every byte is consumed and nothing is missing. */
  ghost predicate ConsumesAll(env: Env, w: Worker) {
    exists w1 :: ReadsTo(env, w, w1) && Reading(w1) && w1.phase == AtHeader(Burst([]))
  }

  lemma BurstExecuted(env: Env, w: Worker, rs: seq<Request>)
    requires w.health.Running? && w.connection.Some? && AllWellFormed(rs)
    requires WritesHold(env, |w.past.log|, |w.past.log| + ListRequests(rs))
    ensures ConsumesAll(env, w.(phase := AtHeader(Burst(rs))))
    ensures FinishReceive(env, w.(phase := AtHeader(Burst(rs)))) == ApplyAll(env, w, rs).(phase := Idle)
  {
    var w0 := w.(phase := AtHeader(Burst(rs)));
    assert EncodeRequests(rs) + [] == EncodeRequests(rs);
    RequestsExecuted(env, w, rs, [], Burst(rs));
    ApplyAllShape(env, w, rs);
    ReadsToFinish(env, w0, ApplyAll(env, w, rs).(phase := AtHeader(Burst([]))));
    ReceiveWaits(env, ApplyAll(env, w, rs), Blocked);
  }

  /**
   Any list of well-formed requests, as one burst: every byte is consumed, the connection stays, one
   reply is written per list request, and each flag ends as the last request naming it says.
   */
  lemma LastWriterWins(env: Env, w: Worker, rs: seq<Request>)
    requires w.health.Running? && w.connection.Some? && AllWellFormed(rs)
    requires CellsDistinct(w.tracepoints, |w.flags|)
    requires WritesHold(env, |w.past.log|, |w.past.log| + ListRequests(rs))
    ensures ConsumesAll(env, w.(phase := AtHeader(Burst(rs))))
    ensures var w' := FinishReceive(env, w.(phase := AtHeader(Burst(rs))));
            && w'.phase == Idle && OnlyFlagsAndLog(w.(phase := Idle), w')
            && |w'.past.log| == |w.past.log| + ListRequests(rs)
            && forall n :: n in w.tracepoints ==>
                 Load(w'.flags, w.tracepoints[n]) == LastWord(rs, n, Load(w.flags, w.tracepoints[n]))
  {
    BurstExecuted(env, w, rs);
    ApplyAllShape(env, w, rs);
    forall n | n in w.tracepoints
      ensures Load(ApplyAll(env, w, rs).flags, w.tracepoints[n]) == LastWord(rs, n, Load(w.flags, w.tracepoints[n]))
    {
      ApplyAllReads(env, w, rs, n);
    }
  }

  /** A client that leaves between two requests is cleaned up without a panic, and every flag is off. */
  lemma LeavingBetweenRequestsIsClean(env: Env, w: Worker, rs: seq<Request>, end: StreamEnd)
    requires w.health.Running? && w.connection.Some? && AllWellFormed(rs) && !end.Blocked?
    requires WritesHold(env, |w.past.log|, |w.past.log| + ListRequests(rs))
    ensures var w' := FinishReceive(env, w.(phase := AtHeader(Stream(EncodeRequests(rs), [], end))));
            && w'.health.Running? && w'.connection.None? && w'.past.closes == w.past.closes + 1
            && forall n :: n in w.tracepoints ==> !Load(w'.flags, w.tracepoints[n])
  {
    var s := Stream(EncodeRequests(rs), [], end);
    assert EncodeRequests(rs) + [] == EncodeRequests(rs);
    RequestsExecuted(env, w, rs, [], s);
    ApplyAllShape(env, w, rs);
    var w1 := ApplyAll(env, w, rs);
    ReadsToFinish(env, w.(phase := AtHeader(s)), w1.(phase := AtHeader(s.(ready := []))));
    ReceiveWaits(env, w1, end);
    forall n | n in w.tracepoints
      ensures !Load(CloseAndClean(w1).flags, w.tracepoints[n])
    {
      assert w1.tracepoints[n] in w1.tracepoints.Values;
    }
  }

  // ----- list reply and enable request are inverse -----

  lemma NormalNamesAreMentioned(ns: seq<Name>, n: Name)
    requires NormalNames(ns) && n in ns
    ensures Mentions(ns, n)
  {
    var i :| 0 <= i < |ns| && ns[i] == n;
    AsciiLooksItselfUp(n);
    assert LookupKey(ns[i]) == n;
  }

  /** All names of the map, in some order, enabled by one request. */
  lemma AllNamesEnabled(env: Env, w: Worker, order: seq<Name>)
    requires w.health.Running? && w.connection.Some? && Enumerates(order, w.tracepoints.Keys)
    requires CellsDistinct(w.tracepoints, |w.flags|) && KeysNormal(w.tracepoints) && |EncodeNames(order)| < U32
    ensures ConsumesAll(env, w.(phase := AtHeader(Burst([Enable(order)]))))
    ensures var w' := FinishReceive(env, w.(phase := AtHeader(Burst([Enable(order)]))));
            && w'.health.Running? && w'.phase == Idle && w'.connection == w.connection
            && forall n :: n in w.tracepoints ==> Load(w'.flags, w.tracepoints[n])
  {
    assert forall i :: 0 <= i < |order| ==> order[i] in w.tracepoints.Keys;
    var rs := [Enable(order)];
    assert rs[..0] == [];
    LastWriterWins(env, w, rs);
    forall n | n in w.tracepoints
      ensures LastWord(rs, n, Load(w.flags, w.tracepoints[n]))
    {
      NormalNamesAreMentioned(order, n);
    }
  }

  /** The body of a list reply, sent back verbatim as an enable request, enables every tracepoint. */
  lemma ListedNamesCanBeEnabled(env: Env, w: Worker)
    requires ValidEnv(env) && w.health.Running? && w.connection.Some? && !env.net(|w.past.log|).Failed?
    requires CellsDistinct(w.tracepoints, |w.flags|) && KeysNormal(w.tracepoints)
    requires |EncodeNames(env.keys(|w.past.log|, w.tracepoints.Keys))| < U32
    ensures var listed := SendTracepointList(env, w);
            && |listed.past.log| == |w.past.log| + 1
            && var body := FrameOf(listed.past.log[|w.past.log|].cargo)[HEADER_LEN..];
            var reading := listed.(phase := AtHeader(Stream(Frame(ENABLE_REQUEST, body), [], Blocked)));
            var w' := FinishReceive(env, reading);
            && ConsumesAll(env, reading) && w'.phase == Idle && w'.connection == w.connection
            && forall n :: n in w.tracepoints ==> Load(w'.flags, w.tracepoints[n])
  {
    var order := env.keys(|w.past.log|, w.tracepoints.Keys);
    assert Enumerates(order, w.tracepoints.Keys);
    AllNamesEnabled(env, SendTracepointList(env, w), order);
    assert [Enable(order)][..0] == [];
    assert EncodeRequests([Enable(order)]) == EncodeRequest(Enable(order));
  }

  // ----- arbitrary bytes -----

  lemma NextNameBytes(s: Stream, count: nat, len: nat)
    requires count < len <= U32 - 34
    ensures var r := NextName(s, count, len);
            r.OneName? ==>
              && r.count == count + 2 + |r.name| && |r.name| <= MAX_TRACEPOINT_NAME_LEN
              && s.ready == EncodeName(r.name) + r.rest.ready
              && r.rest.later == s.later && r.rest.end == s.end
  {
    var (r, s1) := ReadExact(s, 2);
    if r.Got? {
      var n := FromBytes(r.bytes);
      ToFrom(r.bytes);
      var (q, s2) := ReadExact(s1, n);
      if q.Got? {
        Associate(r.bytes, q.bytes, s2.ready);
      }
    }
  }

  /** The name loop after at most `k` turns: the input left and the counter. */
  function NameTurns(s: Stream, count: nat, len: nat, k: nat): (Stream, nat)
    decreases k
  {
    var r := NextName(s, count, len);
    if k == 0 || !r.OneName? then (s, count) else NameTurns(r.rest, r.count, len, k - 1)
  }

  /** The loop gets from one input and counter to another. */
  ghost predicate CountsTo(s: Stream, count: nat, len: nat, s1: Stream, count1: nat) {
    exists k :: NameTurns(s, count, len, k) == (s1, count1)
  }

  /** Wherever the loop gets, started at 0, its counter is the number of bytes consumed. */
  ghost predicate CounterIsExact(len: nat) {
    forall s, s1, count :: CountsTo(s, 0, len, s1, count) ==> count == |s.ready| - |s1.ready|
  }

  /** The `u32` counter is exact on every input exactly up to this declared length. */
  lemma CounterIsExactIff(len: nat)
    requires len < U32
    ensures CounterIsExact(len) <==> len <= U32 - 34
  {
    if len <= U32 - 34 {
      forall s, s1, count | CountsTo(s, 0, len, s1, count)
        ensures count == |s.ready| - |s1.ready|
      {
        var k :| NameTurns(s, 0, len, k) == (s1, count);
        CounterCounts(s, 0, len, k);
      }
    } else {
      CounterWraps(len);
    }
  }

  lemma {:induction false} CounterCounts(s: Stream, count: nat, len: nat, k: nat)
    requires len <= U32 - 34
    ensures var t := NameTurns(s, count, len, k); |t.0.ready| + t.1 == |s.ready| + count
    decreases k
  {
    var r := NextName(s, count, len);
    if k != 0 && r.OneName? {
      NextNameBytes(s, count, len);
      CounterCounts(r.rest, r.count, len, k - 1);
    }
  }

  /** `k` empty names: two zero bytes each. */
  function EmptyNames(k: nat): seq<byte> {
    seq(2 * k, _ => 0)
  }

  lemma EmptyNameFirst(k: nat, tail: seq<byte>, s: Stream, count: nat, len: nat)
    requires k > 0 && s.ready == EmptyNames(k) + tail && count < len && count + 2 < U32
    ensures NextName(s, count, len) == OneName([], s.(ready := EmptyNames(k - 1) + tail), count + 2)
  {
    Pow256Values();
    assert EncodeName([]) == [0, 0];
    assert EmptyNames(k) == [0, 0] + EmptyNames(k - 1);
    Associate([0, 0], EmptyNames(k - 1), tail);
    NextNameIs([], EmptyNames(k - 1) + tail, s, count, len);
  }

  lemma {:induction false} NameTurnsCompose(s: Stream, count: nat, len: nat, a: nat, b: nat)
    ensures var t := NameTurns(s, count, len, a);
            NameTurns(s, count, len, a + b) == NameTurns(t.0, t.1, len, b)
    decreases a
  {
    var r := NextName(s, count, len);
    if a != 0 && r.OneName? {
      NameTurnsCompose(r.rest, r.count, len, a - 1, b);
    }
  }

  lemma CountsFurther(s: Stream, count: nat, len: nat, s1: Stream, count1: nat, s2: Stream, count2: nat)
    requires CountsTo(s, count, len, s1, count1) && CountsTo(s1, count1, len, s2, count2)
    ensures CountsTo(s, count, len, s2, count2)
  {
    var a :| NameTurns(s, count, len, a) == (s1, count1);
    var b :| NameTurns(s1, count1, len, b) == (s2, count2);
    NameTurnsCompose(s, count, len, a, b);
  }

  lemma CountsOne(s: Stream, count: nat, len: nat, name: Name, s1: Stream, count1: nat)
    requires NextName(s, count, len) == OneName(name, s1, count1)
    ensures CountsTo(s, count, len, s1, count1)
  {
    assert NameTurns(s1, count1, len, 0) == (s1, count1);
    assert NameTurns(s, count, len, 1) == (s1, count1);
  }

  lemma {:induction false} EmptyNamesAreCounted(k: nat, tail: seq<byte>, s: Stream, count: nat, len: nat)
    requires s.ready == EmptyNames(k) + tail && count + 2 * k <= len < U32
    ensures CountsTo(s, count, len, s.(ready := tail), count + 2 * k)
    decreases k
  {
    if k == 0 {
      assert EmptyNames(0) + tail == tail;
      assert NameTurns(s, count, len, 0) == (s, count);
    } else {
      var s1 := s.(ready := EmptyNames(k - 1) + tail);
      EmptyNameFirst(k, tail, s, count, len);
      CountsOne(s, count, len, [], s1, count + 2);
      EmptyNamesAreCounted(k - 1, tail, s1, count + 2, len);
      CountsFurther(s, count, len, s1, count + 2, s.(ready := tail), count + 2 * k);
    }
  }

  /** Empty names up to 2^32 - 34, then one of 32 bytes: the counter is back at 0. */
  lemma CounterWraps(len: nat)
    requires U32 - 34 < len < U32
    ensures !CounterIsExact(len)
  {
    var k, name := (U32 - 34) / 2, seq(32, _ => 97);
    var s := Stream(EmptyNames(k) + EncodeName(name), [], Blocked);
    var s1 := s.(ready := EncodeName(name));
    EmptyNamesAreCounted(k, EncodeName(name), s, 0, len);
    LongNameWraps(s1, name, len);
    CountsOne(s1, U32 - 34, len, name, s.(ready := []), 0);
    CountsFurther(s, 0, len, s1, U32 - 34, s.(ready := []), 0);
    assert |s.ready| > 0;
  }

  lemma LongNameWraps(s: Stream, name: Name, len: nat)
    requires s.ready == EncodeName(name) && |name| == 32 && U32 - 34 < len
    ensures NextName(s, U32 - 34, len) == OneName(name, s.(ready := []), 0)
  {
    Pow256Values();
    FromTo(32, 2);
    ReadReady(ToBytes(32, 2), name, s);
    assert name + [] == name;
    ReadReady(name, [], s.(ready := name));
  }

  /**
   How the name loop may end: in a close or a panic, or at `rest` behind whole names that take at
   least the declared length and at most 33 bytes more. The names registered stay the same.
   */
  ghost predicate EndsWithinBound(w: Worker, s: Stream, count: nat, len: nat, w': Worker) {
    && w'.tracepoints == w.tracepoints
    && (w'.health.Panicked? || w'.past.closes > w.past.closes ||
        (w'.phase.AtHeader? && w'.connection == w.connection && OvershootsLittle(s, count, len, w'.phase.input)))
  }

  /** `rest` is what is left of `s` after the declared length and at most 33 bytes more. */
  predicate OvershootsLittle(s: Stream, count: nat, len: nat, rest: Stream) {
    && rest.later == s.later && |rest.ready| <= |s.ready|
    && s.ready[|s.ready| - |rest.ready|..] == rest.ready
    && len <= count + |s.ready| - |rest.ready| <= len + 33
  }

  /** Any bytes, any declared length up to 2^32 - 34. */
  lemma {:induction false} DeclaredLengthBound(w: Worker, s: Stream, count: nat, len: nat, state: bool)
    requires w.health.Running? && len <= U32 - 34 && count <= len + 33
    ensures EndsWithinBound(w, s, count, len, FinishNames(w.(phase := AtName(s, count, len, state))))
    decreases Weight(s)
  {
    var next := NextName(s, count, len);
    if next.OneName? {
      NextNameBytes(s, count, len);
      NextNameWeight(s, count, len);
      var w1 := SetFlag(w, LookupKey(next.name), state);
      DeclaredLengthBound(w1, next.rest, next.count, len, state);
      NameThenMore(w, s, count, len, state);
      OneNameEarlier(w, w1, s, count, len, next.name, next.rest,
                     FinishNames(w1.(phase := AtName(next.rest, next.count, len, state))));
    } else {
      NameLoopEnds(w, s, count, len, state);
      assert s.ready[0..] == s.ready;
    }
  }

  lemma OneNameEarlier(w: Worker, w1: Worker, s: Stream, count: nat, len: nat, name: Name, rest: Stream, w': Worker)
    requires s.ready == EncodeName(name) + rest.ready && rest.later == s.later
    requires w1.tracepoints == w.tracepoints && w1.connection == w.connection && w1.past.closes == w.past.closes
    requires EndsWithinBound(w1, rest, count + 2 + |name|, len, w')
    ensures EndsWithinBound(w, s, count, len, w')
  {
    if w'.phase.AtHeader? {
      var left := w'.phase.input.ready;
      assert |left| <= |rest.ready| ==> s.ready[|s.ready| - |left|..] == rest.ready[|rest.ready| - |left|..];
    }
  }

  lemma NameThenMore(w: Worker, s: Stream, count: nat, len: nat, state: bool)
    requires w.health.Running? && NextName(s, count, len).OneName?
    ensures var next := NextName(s, count, len);
            FinishNames(w.(phase := AtName(s, count, len, state))) ==
            FinishNames(SetFlag(w, LookupKey(next.name), state).(phase := AtName(next.rest, next.count, len, state)))
  {
  }

  lemma NameLoopEnds(w: Worker, s: Stream, count: nat, len: nat, state: bool)
    requires w.health.Running? && !NextName(s, count, len).OneName?
    ensures FinishNames(w.(phase := AtName(s, count, len, state))) ==
            (match NextName(s, count, len)
             case NoMore => w.(phase := AtHeader(s))
             case Violation(rest) => CloseAndClean(w).(phase := AtHeader(rest))
             case OneName(_, _, _) => w)
  {
  }

  // ----- streams that end -----

  /** The stream ends for good after what is ready now. */
  predicate Ends(s: Stream) {
    s.later == [] && !s.end.Blocked?
  }

  lemma EndsStays(s: Stream, count: nat, len: nat)
    requires Ends(s)
    ensures !NextHeader(s).NoHeader?
    ensures NextHeader(s).Asked? ==> Ends(NextHeader(s).rest)
    ensures NextName(s, count, len).OneName? ==> Ends(NextName(s, count, len).rest)
    ensures NextName(s, count, len).Violation? ==> Ends(NextName(s, count, len).rest)
  {
  }

  lemma OneNameRequest(env: Env, w: Worker, n: Name, s: Stream)
    requires w.health.Running? && IsNormal(n) && s == Stream(EncodeRequest(Enable([n])), [], Blocked)
    ensures FinishReceive(env, w.(phase := AtHeader(s))) == SetFlag(w, n, true).(phase := Idle)
  {
    FlatMapCons(EncodeName, n, []);
    assert s.ready + [] == s.ready;
    AsciiLooksItselfUp(n);
    RequestExecuted(env, w, Enable([n]), [], s);
    ReadsToFinish(env, w.(phase := AtHeader(s)), Apply(env, w, Enable([n])).(phase := AtHeader(s.(ready := []))));
    assert [n][1..] == [];
    assert SetAll(w, [n], true) == SetFlag(w, n, true);
    ReceiveWaits(env, SetFlag(w, n, true), Blocked);
  }
}
