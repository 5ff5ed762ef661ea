/**
 From the log of writes to what a client decodes: if every write of a session completed, cutting the
 session's bytes at the length fields and reading the push frames gives back exactly the elements
 handed over, and over a whole connected lifetime exactly the elements submit accepted.
 */
module Delivery {
  import opened Bytes
  import opened Names
  import opened Codec
  import opened Packing
  import opened TracerThread
  import opened Protocol
  import opened WorkerInvariants
  import opened SystemInvariants
  import opened Theorems

  /** The bytes one write put on its connection. */
  function OnWire(x: Write): seq<byte> {
    var f := FrameOf(x.cargo);
    if x.outcome.Complete? then f else f[..Min(x.outcome.sent, |f|)]
  }

  function OfSession(log: seq<Write>, session: nat): seq<Write> {
    if log == [] then []
    else OfSession(log[..|log| - 1], session) +
         (if log[|log| - 1].session == session then [log[|log| - 1]] else [])
  }

  /** All bytes a session's client received. */
  function Wire(log: seq<Write>): seq<byte> {
    if log == [] then [] else OnWire(log[0]) + Wire(log[1..])
  }

  function FramesOf(log: seq<Write>): seq<seq<byte>> {
    if log == [] then [] else [FrameOf(log[0].cargo)] + FramesOf(log[1..])
  }

  function ElementsIn(log: seq<Write>): seq<Element> {
    if log == [] then [] else ElementsOf(log[0].cargo) + ElementsIn(log[1..])
  }

  /** Every write completed, is well formed, and has a body whose length the header can state. */
  predicate AllDelivered(log: seq<Write>) {
    forall i :: 0 <= i < |log| ==>
      log[i].outcome.Complete? && CargoOk(log[i].cargo) && |FrameOf(log[i].cargo)| < U32
  }

  lemma FrameDecodes(c: Cargo)
    requires CargoOk(c) && |FrameOf(c)| < U32
    ensures SelfDelimiting(FrameOf(c))
    ensures c.Push? ==>
              && CommandOf(FrameOf(c)) == TRACE_PUSH
              && ParseRecords(FrameOf(c)[HEADER_LEN..]) == Some(Records(c.elements))
    ensures c.ListReply? ==> CommandOf(FrameOf(c)) == LIST_REPLY
  {
    match c
    case Push(es) =>
      FrameIsSelfDelimiting(TRACE_PUSH, PushBody(es));
      AcceptableFitsWire(es);
      ParserInvertsPrinter(PushBody(es), Records(es));
    case ListReply(ns) =>
      FrameIsSelfDelimiting(LIST_REPLY, EncodeNames(ns));
  }

  lemma {:induction false} WireIsFrames(log: seq<Write>)
    requires AllDelivered(log)
    ensures Wire(log) == Flatten(FramesOf(log))
    ensures forall i :: 0 <= i < |FramesOf(log)| ==> SelfDelimiting(FramesOf(log)[i])
  {
    if log != [] {
      WireIsFrames(log[1..]);
      FrameDecodes(log[0].cargo);
      assert FramesOf(log)[1..] == FramesOf(log[1..]);
    }
  }

  lemma RecordsConcat(a: seq<Element>, b: seq<Element>)
    ensures Records(a + b) == Records(a) + Records(b)
  {
  }

  lemma {:induction false} FramesDecode(log: seq<Write>)
    requires AllDelivered(log)
    ensures PushedRecords(FramesOf(log)) == Some(Records(ElementsIn(log)))
  {
    if log != [] {
      FramesDecode(log[1..]);
      FrameDecodes(log[0].cargo);
      assert FramesOf(log)[1..] == FramesOf(log[1..]);
      RecordsConcat(ElementsOf(log[0].cargo), ElementsIn(log[1..]));
    }
  }

  /** What a client makes of the bytes it received: cut into frames, then the records of the push frames. */
  function ClientView(bytes: seq<byte>): Option<seq<Record>> {
    PushedRecords(CutStream(bytes).pdus)
  }

  /** A session whose writes completed is read back exactly, and no byte is left over. */
  lemma SessionIsReadBack(log: seq<Write>)
    requires AllDelivered(log)
    ensures CutStream(Wire(log)) == Cut(FramesOf(log), [])
    ensures ClientView(Wire(log)) == Some(Records(ElementsIn(log)))
  {
    WireIsFrames(log);
    FramesDecode(log);
    CutRecoversFrames(FramesOf(log), []);
    assert Flatten(FramesOf(log)) + [] == Flatten(FramesOf(log));
  }

  // ----- how the log grows -----

  /** Writes are only added, and only to the current or a later session. */
  ghost predicate Grows(w: Worker, w': Worker) {
    && w.past.log <= w'.past.log && w.sessions <= w'.sessions && w.past.closes <= w'.past.closes
    && forall i :: |w.past.log| <= i < |w'.past.log| ==> w.sessions <= w'.past.log[i].session + 1
  }

  lemma GrowsTransitively(a: Worker, b: Worker, c: Worker)
    requires Grows(a, b) && Grows(b, c)
    ensures Grows(a, c)
  {
    forall i | |a.past.log| <= i < |c.past.log|
      ensures a.sessions <= c.past.log[i].session + 1
    {
      if i < |b.past.log| {
        assert c.past.log[i] == b.past.log[i];
      }
    }
  }

  predicate Numbered(w: Worker) {
    w.connection.Some? ==> w.connection.value + 1 == w.sessions
  }

  lemma TransmitGrows(env: Env, w: Worker, c: Cargo)
    requires Numbered(w) && w.connection.Some?
    ensures Grows(w, Transmit(env, w, c)) && Numbered(Transmit(env, w, c))
  {
  }

  lemma {:induction false} SendGroupsGrows(env: Env, w: Worker, groups: seq<seq<Element>>)
    requires Numbered(w)
    ensures Grows(w, SendGroups(env, w, groups))
    decreases |groups|
  {
    if groups != [] && w.connection.Some? {
      var w1 := w.(buffer := Flatten(groups[1..]));
      TransmitGrows(env, w1, Push(groups[0]));
      var w2 := Transmit(env, w1, Push(groups[0]));
      if w2.connection.Some? {
        SendGroupsGrows(env, w2, groups[1..]);
        GrowsTransitively(w1, w2, SendGroups(env, w2, groups[1..]));
      }
    }
  }

  lemma MessageGrows(env: Env, w: Worker, m: Message)
    requires Numbered(w)
    ensures Grows(w, HandleMessage(env, w, m))
  {
    match m
    case Payload(e) =>
      var w1 := TakeUp(w, e);
      var w2 := w1.(timers := StopQueueTimer(w1.timers));
      SendGroupsGrows(env, w2, Pack(w2.buffer));
    case NewTracepoint(_, _) =>
    case Terminate => SendGroupsGrows(env, w, Pack(w.buffer));
  }

  lemma TimeoutGrows(env: Env, w: Worker, id: nat)
    requires Numbered(w) && id in w.timers.armed
    ensures Grows(w, HandleTimeout(env, w, id))
  {
    var w1 := w.(timers := w.timers.(armed := w.timers.armed - {id}, queue := None));
    SendGroupsGrows(env, w1, Pack(w1.buffer));
  }

  lemma CommandGrows(env: Env, w: Worker, cmd: Command, len: nat, rest: Stream)
    requires Numbered(w)
    ensures Grows(w, ExecuteCommand(env, w, cmd, len, rest))
  {
    if w.connection.Some? {
      TransmitGrows(env, w, ListReply(env.keys(|w.past.log|, w.tracepoints.Keys)));
    }
  }

  lemma ReadGrows(env: Env, w: Worker)
    requires Numbered(w) && Reading(w)
    ensures Grows(w, ReadStep(env, w))
  {
    if w.phase.AtHeader? && NextHeader(w.phase.input).Asked? {
      var h := NextHeader(w.phase.input);
      CommandGrows(env, w, h.cmd, h.len, h.rest);
    }
  }

  lemma StepGrows(env: Env, s: System, a: Action)
    requires Numbered(s.w)
    ensures Grows(s.w, Step(env, s, a).w)
  {
    if !IsAppAction(a) && s.w.health.Running? {
      match a
      case Receive =>
        if s.channel != [] {
          MessageGrows(env, s.w, s.channel[0]);
        }
      case Timeout(id) =>
        if id in s.w.timers.armed {
          TimeoutGrows(env, s.w, id);
        }
      case ReadOn =>
        if Reading(s.w) {
          ReadGrows(env, s.w);
        }
      case _ =>
    }
  }

  lemma PanicIsFinal(env: Env, s: System, a: Action)
    requires s.w.health.Panicked?
    ensures Step(env, s, a).w.health.Panicked? && Grows(s.w, Step(env, s, a).w)
  {
  }

  lemma {:induction false} RunGrows(env: Env, s: System, actions: seq<Action>)
    requires ValidEnv(env) && InvOrPanic(s)
    ensures Grows(s.w, Run(env, s, actions).w)
    decreases |actions|
  {
    if actions != [] {
      var s1 := Step(env, s, actions[0]);
      if s.w.health.Panicked? {
        PanicIsFinal(env, s, actions[0]);
      } else {
        StepGrows(env, s, actions[0]);
      }
      StepKeeps(env, s, actions[0]);
      RunGrows(env, s1, actions[1..]);
      GrowsTransitively(s.w, s1.w, Run(env, s1, actions[1..]).w);
    }
  }

  // ----- exactly once -----

  lemma {:induction false} ElementsInSnoc(log: seq<Write>, x: Write)
    ensures ElementsIn(log + [x]) == ElementsIn(log) + ElementsOf(x.cargo)
  {
    if log == [] {
      assert log + [x] == [x] && [x][1..] == [];
    } else {
      assert (log + [x])[1..] == log[1..] + [x];
      ElementsInSnoc(log[1..], x);
      Associate(ElementsOf(log[0].cargo), ElementsIn(log[1..]), ElementsOf(x.cargo));
    }
  }

  /** If only one session carried elements, that session carried all of them. */
  lemma {:induction false} OneSessionCarriedAll(log: seq<Write>, session: nat)
    requires forall i :: 0 <= i < |log| && log[i].session != session ==> ElementsOf(log[i].cargo) == []
    ensures ElementsIn(OfSession(log, session)) == Handed(log)
    ensures forall x :: x in OfSession(log, session) ==> x in log
  {
    if log != [] {
      var front, x := log[..|log| - 1], log[|log| - 1];
      OneSessionCarriedAll(front, session);
      if x.session == session {
        ElementsInSnoc(OfSession(front, session), x);
      } else {
        assert OfSession(log, session) == OfSession(front, session);
        assert Handed(log) == Handed(front);
      }
    }
  }

  lemma {:induction false} NothingHandedAt(log: seq<Write>, i: nat)
    requires Handed(log) == [] && i < |log|
    ensures ElementsOf(log[i].cargo) == []
    decreases |log|
  {
    if i < |log| - 1 {
      NothingHandedAt(log[..|log| - 1], i);
    }
  }

  /** Every write of the session completed, and no list reply outgrew the length field. */
  predicate SessionWritesComplete(log: seq<Write>, session: nat) {
    forall x :: x in log && x.session == session ==> x.outcome.Complete? && |FrameOf(x.cargo)| < U32
  }

  lemma {:induction false} SessionOnly(log: seq<Write>, session: nat)
    ensures forall x :: x in OfSession(log, session) ==> x.session == session && x in log
  {
    if log != [] {
      SessionOnly(log[..|log| - 1], session);
    }
  }

  lemma SessionIsDelivered(s: System, session: nat)
    requires LogOk(s.w) && SessionWritesComplete(s.w.past.log, session)
    ensures var mine := OfSession(s.w.past.log, session);
            ClientView(Wire(mine)) == Some(Records(ElementsIn(mine)))
  {
    var mine := OfSession(s.w.past.log, session);
    SessionOnly(s.w.past.log, session);
    forall i | 0 <= i < |mine|
      ensures mine[i].outcome.Complete? && CargoOk(mine[i].cargo) && |FrameOf(mine[i].cargo)| < U32
    {
      assert mine[i] in s.w.past.log;
    }
    SessionIsReadBack(mine);
  }

  /** With one client from before the first accepted payload on, all elements are in that client's session. */
  lemma SameSession(w1: Worker, w2: Worker)
    requires ConnectionAgrees(w1) && ConnectionAgrees(w2) && LogOk(w2) && Grows(w1, w2)
    requires Handed(w1.past.log) == [] && w1.connection.Some? && w2.past.closes == w1.past.closes
    ensures w2.connection == w1.connection
    ensures forall i :: 0 <= i < |w2.past.log| && w2.past.log[i].session != w1.connection.value ==>
              ElementsOf(w2.past.log[i].cargo) == []
  {
    var l1, l2 := w1.past.log, w2.past.log;
    forall i | 0 <= i < |l1|
      ensures ElementsOf(l1[i].cargo) == []
    {
      NothingHandedAt(l1, i);
    }
    assert forall i :: |l1| <= i < |l2| ==> l2[i].session == w1.connection.value;
    assert forall i :: 0 <= i < |l1| ==> l2[i] == l1[i];
  }

  /** `s1`: a client is there and nothing has been accepted yet; `s2`: later in the same session. */
  ghost predicate OneSession(
    env: Env, announce: bool, before: seq<Action>, s1: System, after: seq<Action>, s2: System)
  {
    && s1 == Run(env, Init(announce), before) && s2 == Run(env, s1, after)
    && !s1.w.health.Panicked? && !s2.w.health.Panicked?
    && s1.accepted == [] && s1.w.connection.Some? && s2.w.past.closes == s1.w.past.closes
  }

  lemma OneSessionInv(env: Env, announce: bool, before: seq<Action>, s1: System, after: seq<Action>, s2: System)
    requires ValidEnv(env) && OneSession(env, announce, before, s1, after, s2)
    ensures Inv(s1) && Inv(s2) && Grows(s1.w, s2.w)
  {
    EveryRunKeepsInv(env, announce, before);
    RunKeeps(env, s1, after);
    RunGrows(env, s1, after);
  }

  /**
   At any moment of a session that was up before the first payload was accepted and has not been
   closed, a client whose writes all completed has decoded exactly the accepted elements that are
   neither buffered nor in the channel, in order.
   */
  lemma DeliveredSoFar(env: Env, announce: bool, before: seq<Action>, s1: System, after: seq<Action>, s2: System)
    requires ValidEnv(env) && OneSession(env, announce, before, s1, after, s2)
    requires SessionWritesComplete(s2.w.past.log, s1.w.connection.value)
    ensures ClientView(Wire(OfSession(s2.w.past.log, s1.w.connection.value))) == Some(Records(Handed(s2.w.past.log)))
    ensures s2.accepted == Handed(s2.w.past.log) + s2.w.buffer + Payloads(s2.channel)
  {
    OneSessionInv(env, announce, before, s1, after, s2);
    assert Handed(s1.w.past.log) == [];
    SameSession(s1.w, s2.w);
    OneSessionCarriedAll(s2.w.past.log, s1.w.connection.value);
    SessionIsDelivered(s2, s1.w.connection.value);
  }

  /**
   Exactly once: if the session stays up until the tracer returns after `tracy_finit`, the client has
   decoded exactly the accepted elements, each once, in order.
   */
  lemma ExactlyOnceDelivery(env: Env, announce: bool, before: seq<Action>, s1: System, after: seq<Action>, s2: System)
    requires ValidEnv(env) && OneSession(env, announce, before, s1, after, s2)
    requires SessionWritesComplete(s2.w.past.log, s1.w.connection.value) && s2.w.health.Returned?
    ensures ClientView(Wire(OfSession(s2.w.past.log, s1.w.connection.value))) == Some(Records(s2.accepted))
  {
    DeliveredSoFar(env, announce, before, s1, after, s2);
    OneSessionInv(env, announce, before, s1, after, s2);
    assert Handed(s1.w.past.log) == [];
    SameSession(s1.w, s2.w);
    assert s2.w.buffer == [] && Payloads(s2.channel) == [];
    assert s2.accepted == Handed(s2.w.past.log);
  }
}
