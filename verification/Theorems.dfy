/**
 Theorems about every run of the system: any interleaving of application threads and tracer thread,
 any write outcomes, any client behaviour.
 */
module Theorems {
  import opened Bytes
  import opened Names
  import opened Codec
  import opened Packing
  import opened TracerThread
  import opened Protocol
  import opened WorkerInvariants
  import opened SystemInvariants
  import opened Requests

  /** The states of all runs that have not panicked. */
  ghost predicate Reachable(env: Env, s: System) {
    !s.w.health.Panicked? && exists announce, actions :: s == Run(env, Init(announce), actions)
  }

  lemma ReachableInv(env: Env, s: System)
    requires ValidEnv(env) && Reachable(env, s)
    ensures Inv(s)
  {
    var announce, actions :| s == Run(env, Init(announce), actions);
    EveryRunKeepsInv(env, announce, actions);
  }

  /** Conservation: what submit accepted is what was handed to a socket, then the buffer, then the channel. */
  lemma NothingIsLostOrReordered(env: Env, s: System)
    requires ValidEnv(env) && Reachable(env, s)
    ensures s.accepted == Handed(s.w.past.log) + s.w.buffer + Payloads(s.channel)
  {
    ReachableInv(env, s);
  }

  /** A panic needs an earlier close: a tracer whose connection was never closed has not panicked. */
  lemma NoPanicBeforeAClose(env: Env, announce: bool, actions: seq<Action>)
    requires ValidEnv(env) && Run(env, Init(announce), actions).w.past.closes == 0
    ensures !Run(env, Init(announce), actions).w.health.Panicked?
  {
    EveryRunKeepsInv(env, announce, actions);
  }

  /** Both threads agree on names and cells through the channel. */
  lemma MapsAgreeThroughTheChannel(env: Env, s: System)
    requires ValidEnv(env) && Reachable(env, s)
    ensures s.app == Merged(s.w.tracepoints, s.channel)
    ensures forall n :: n in s.w.tracepoints ==> n in s.app && s.app[n] == s.w.tracepoints[n]
    ensures CellsDistinct(s.app, |s.w.flags|)
    ensures s.channel != [] && s.channel[0].NewTracepoint? ==> s.channel[0].name !in s.w.tracepoints
  {
    ReachableInv(env, s);
    forall n | n in s.w.tracepoints
      ensures n in s.app && s.app[n] == s.w.tracepoints[n]
    {
      MergedExtends(s.w.tracepoints, s.channel, n);
    }
  }

  /** Each handle is set exactly when one entry of its kind is armed, and then names that entry. */
  lemma HandlesMatchTimers(env: Env, s: System)
    requires ValidEnv(env) && Reachable(env, s)
    ensures var t := s.w.timers;
            && (t.queue.Some? <==> exists id :: id in t.armed && t.armed[id].QueueTimer?)
            && (t.udp.Some? <==> exists id :: id in t.armed && t.armed[id].AnnounceTimer?)
            && (forall a, b :: a in t.armed && b in t.armed && t.armed[a] == t.armed[b] ==> a == b)
            && (forall id :: id in t.armed ==>
                  (if t.armed[id].QueueTimer? then t.queue else t.udp) == Some(id))
  {
    ReachableInv(env, s);
    var t := s.w.timers;
    if t.queue.Some? {
      assert t.queue.value in t.armed;
    }
    if t.udp.Some? {
      assert t.udp.value in t.armed;
    }
  }

  /** The shared connection flag is the connection, and a connected tracer does not announce. */
  lemma ConnectionFlagIsTheConnection(env: Env, s: System)
    requires ValidEnv(env) && Reachable(env, s)
    ensures s.w.clientConnected == s.w.connection.Some?
    ensures s.w.connection.Some? ==> forall id :: id in s.w.timers.armed ==> s.w.timers.armed[id].QueueTimer?
  {
    ReachableInv(env, s);
    if s.w.connection.Some? {
      forall id | id in s.w.timers.armed
        ensures s.w.timers.armed[id].QueueTimer?
      {
        assert s.w.timers.udp.None?;
      }
    }
  }

  /** Without a client every flag is off, of every registered name, unless a frame was executed after the close. */
  lemma FlagsAreOffWithoutClient(env: Env, s: System)
    requires ValidEnv(env) && Reachable(env, s) && s.w.connection.None? && !s.w.past.lateStore
    ensures forall n :: n in s.app ==> !Load(s.w.flags, s.app[n])
  {
    ReachableInv(env, s);
    forall n | n in s.app
      ensures !Load(s.w.flags, s.app[n])
    {
      if n in s.w.tracepoints {
        MergedExtends(s.w.tracepoints, s.channel, n);
      }
    }
  }

  /** Buffered data has an armed timer to send it, except what was carried over a close. */
  lemma NoStrandedData(env: Env, s: System)
    requires ValidEnv(env) && Reachable(env, s) && s.w.buffer != [] && !s.w.past.carried
    ensures exists id :: id in s.w.timers.armed && s.w.timers.armed[id].QueueTimer?
  {
    ReachableInv(env, s);
    assert s.w.timers.queue.value in s.w.timers.armed;
  }

  /** The occupancy counter is the total ever appended, so it bounds what is buffered. */
  lemma OccupancyIsTheTotalEverAppended(env: Env, s: System)
    requires ValidEnv(env) && Reachable(env, s)
    ensures s.w.occupancy == TotalLen(Handed(s.w.past.log) + s.w.buffer)
    ensures TotalLen(s.w.buffer) <= s.w.occupancy
  {
    ReachableInv(env, s);
    TotalLenConcat(Handed(s.w.past.log), s.w.buffer);
  }

  /** Once 4096 bytes have ever been appended, batching is over: nothing waits in the buffer or for the timer. */
  lemma BatchingEndsForever(env: Env, s: System)
    requires ValidEnv(env) && Reachable(env, s) && s.w.occupancy > QUEUE_TOTAL_SIZE
    ensures s.w.timers.queue.None?
    ensures s.w.buffer != [] ==> s.w.past.carried
  {
    ReachableInv(env, s);
  }

  /** A payload step that leaves the client connected leaves at most 4096 bytes waiting, none once over the limit. */
  lemma PayloadStepBoundsTheBuffer(env: Env, s: System, e: Element)
    requires ValidEnv(env) && Reachable(env, s) && s.w.health.Running? && s.channel != [] && s.channel[0] == Payload(e)
    requires HandlePayload(env, s.w, e).connection.Some?
    ensures var w' := HandlePayload(env, s.w, e);
            && TotalLen(w'.buffer) <= QUEUE_TOTAL_SIZE
            && (w'.occupancy > QUEUE_TOTAL_SIZE ==> w'.buffer == [])
            && w'.occupancy == s.w.occupancy + ElementLen(e)
  {
    ReachableInv(env, s);
    assert e == s.accepted[|s.w.past.appended|];
    TakeUpThenTimers(s.w, e);
    var w1 := TakeUp(s.w, e);
    TotalLenConcat(Handed(w1.past.log), w1.buffer);
    if w1.occupancy > QUEUE_TOTAL_SIZE {
      var w2 := w1.(timers := StopQueueTimer(w1.timers));
      if w2.connection.Some? {
        SendTraceDataKeepsCore(env, w2);
      } else {
        SendWithoutClient(env, w2);
      }
    }
  }

  /** Every push frame ever handed to a socket: non-empty, exact length field, at most 4099 bytes. */
  lemma EveryPushFrameIsBounded(env: Env, s: System, i: nat)
    requires ValidEnv(env) && Reachable(env, s) && i < |s.w.past.log| && s.w.past.log[i].cargo.Push?
    ensures var es, f := s.w.past.log[i].cargo.elements, FrameOf(s.w.past.log[i].cargo);
            && es != [] && |f| <= QUEUE_TOTAL_SIZE + 3
            && CommandOf(f) == TRACE_PUSH && SelfDelimiting(f)
            && ParseRecords(f[HEADER_LEN..]) == Some(Records(es))
  {
    ReachableInv(env, s);
    var es := s.w.past.log[i].cargo.elements;
    assert CargoOk(s.w.past.log[i].cargo);
    PushFrameBound(es);
    AcceptableFitsWire(es);
    ParserInvertsPrinter(PushBody(es), Records(es));
  }

  /** The writes from number `from` on are one push frame per group, in order. */
  ghost predicate SentAs(log: seq<Write>, from: nat, groups: seq<seq<Element>>) {
    && |log| == from + |groups|
    && forall k :: 0 <= k < |groups| ==> log[from + k].cargo == Push(groups[k])
  }

  /** When no write fails, every group becomes one frame, in order. */
  lemma {:induction false} EveryGroupIsSent(env: Env, w: Worker, groups: seq<seq<Element>>)
    requires w.connection.Some? && WritesHold(env, |w.past.log|, |w.past.log| + |groups|)
    ensures var w' := SendGroups(env, w, groups);
            && w'.buffer == [] && w.past.log <= w'.past.log
            && SentAs(w'.past.log, |w.past.log|, groups)
    decreases |groups|
  {
    if groups != [] {
      var w1 := Transmit(env, w.(buffer := Flatten(groups[1..])), Push(groups[0]));
      EveryGroupIsSent(env, w1, groups[1..]);
      var w' := SendGroups(env, w1, groups[1..]);
      forall i | 0 <= i < |groups|
        ensures w'.past.log[|w.past.log| + i].cargo == Push(groups[i])
      {
        if i > 0 {
          assert groups[1..][i - 1] == groups[i];
          assert w'.past.log[|w1.past.log| + (i - 1)].cargo == Push(groups[1..][i - 1]);
        } else {
          assert w'.past.log[|w.past.log|] == w1.past.log[|w.past.log|];
        }
      }
    }
  }

  /** From write `from` on, no push frame has room for the first element of the one after it. */
  ghost predicate FullFrames(log: seq<Write>, from: nat) {
    forall i :: from <= i < |log| - 1 ==> FullFrame(log, i)
  }

  predicate FullFrame(log: seq<Write>, i: nat) {
    && i + 1 < |log| && log[i].cargo.Push? && log[i + 1].cargo.Push?
    && log[i + 1].cargo.elements != []
    && !LegalGroup(log[i].cargo.elements + [log[i + 1].cargo.elements[0]])
  }

  predicate AllLegal(split: seq<seq<Element>>) {
    forall i :: 0 <= i < |split| ==> LegalGroup(split[i])
  }

  /** A group with no room for the next one's first element; on groups what `FullFrame` is on writes. */
  predicate FullGroup(groups: seq<seq<Element>>, k: nat) {
    k + 1 < |groups| && groups[k + 1] != [] && !LegalGroup(groups[k] + [groups[k + 1][0]])
  }

  lemma GroupIsFull(buffer: seq<Element>, k: nat)
    requires k + 1 < |Pack(buffer)|
    ensures FullGroup(Pack(buffer), k)
  {
    PackIsMaximal([], buffer, k);
  }

  lemma FrameIsFull(log: seq<Write>, from: nat, groups: seq<seq<Element>>, k: nat)
    requires SentAs(log, from, groups) && FullGroup(groups, k)
    ensures FullFrame(log, from + k)
  {
    assert log[from + k].cargo == Push(groups[k]);
    assert log[from + (k + 1)].cargo == Push(groups[k + 1]);
  }

  lemma FramesAreFull(log: seq<Write>, from: nat, buffer: seq<Element>, groups: seq<seq<Element>>)
    requires groups == Pack(buffer) && SentAs(log, from, groups)
    ensures FullFrames(log, from)
  {
    forall i | from <= i < |log| - 1
      ensures FullFrame(log, i)
    {
      GroupIsFull(buffer, i - from);
      FrameIsFull(log, from, groups, i - from);
    }
  }

  lemma SendingIsSendingGroups(env: Env, w: Worker, groups: seq<seq<Element>>)
    requires groups == Pack(w.buffer)
    ensures SendTraceData(env, w) == SendGroups(env, w, groups)
  {
  }

  /**
   Draining a buffer takes the fewest frames: no split of it, in order, into bodies of at most 4087
   bytes has fewer parts, and no frame but the last could have taken the next one's first element.
   */
  lemma DrainingTakesTheFewestFrames(env: Env, w: Worker, split: seq<seq<Element>>)
    requires w.connection.Some? && Flatten(split) == w.buffer && AllLegal(split)
    requires WritesHold(env, |w.past.log|, |w.past.log| + |Pack(w.buffer)|)
    ensures var w' := SendTraceData(env, w);
            w'.buffer == [] && |w'.past.log| - |w.past.log| <= |split| && FullFrames(w'.past.log, |w.past.log|)
  {
    var groups := Pack(w.buffer);
    SendingIsSendingGroups(env, w, groups);
    EveryGroupIsSent(env, w, groups);
    FramesAreFull(SendGroups(env, w, groups).past.log, |w.past.log|, w.buffer, groups);
    GreedyIsOptimal(split);
  }

  /** In every reachable state the sending loop would end: every buffered element fits an empty queue. */
  lemma SendingAlwaysEnds(env: Env, s: System)
    requires ValidEnv(env) && Reachable(env, s)
    ensures AllFit(s.w.buffer)
    ensures exists n: nat :: LoopTurns([], s.w.buffer, n).1 == []
  {
    ReachableInv(env, s);
    BufferIsAcceptable(s.w);
    AcceptableFits(s.w.buffer);
    LoopEndsIffAllFit(s.w.buffer);
  }

  /** All keys of both maps are fixed points of the normalisation. */
  lemma KeysAreNormal(env: Env, s: System, n: Name)
    requires ValidEnv(env) && Reachable(env, s) && (n in s.app || n in s.w.tracepoints)
    ensures FixTracepointStr(n) == Some(n)
  {
    ReachableInv(env, s);
    NormalIffFixedPoint(n);
  }

  /**
   A submission under `raw` is governed by the cell registered under `reg` exactly when both name the
   same first 32 letters: it is admitted iff that cell is set.
   */
  lemma SubmissionsReachTheRegisteredCell(env: Env, s: System, reg: Name, raw: Name, time: int, data: seq<byte>)
    requires ValidEnv(env) && Reachable(env, s)
    requires IsAscii(reg) && IsAscii(raw) && FixTracepointStr(reg).value in s.app
    ensures var cell := s.app[FixTracepointStr(reg).value];
            && (AgreeOnLimit(reg, raw) ==>
                  (Admit(s.app, s.w.flags, raw, time, data).Some? <==> Load(s.w.flags, cell)))
            && (!AgreeOnLimit(reg, raw) && FixTracepointStr(raw).value in s.app ==>
                  s.app[FixTracepointStr(raw).value] != cell)
  {
    ReachableInv(env, s);
    SameNormalFormIff(reg, raw);
  }
}
