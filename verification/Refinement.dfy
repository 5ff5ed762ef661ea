/**
 The classes and the transition system are about the same program: every event the imperative
 `EventHandler` processes is a run of the system. So whatever is proved of all runs holds of it;
 `Submissions.dfy` does the same for a call of `tracy_submit`.
 */
module Refinement {
  import opened Bytes
  import opened Names
  import opened Codec
  import opened Packing
  import opened TracerThread
  import opened WorkerInvariants
  import opened Protocol
  import opened SystemInvariants
  import opened Delivery
  import opened WithoutClient

  // ----- handlers do not look at the phase -----

  lemma {:induction false} SendInAnyPhase(env: Env, w: Worker, groups: seq<seq<Element>>, p: Phase)
    ensures SendGroups(env, w.(phase := p), groups) == SendGroups(env, w, groups).(phase := p)
    decreases |groups|
  {
    if groups != [] && w.connection.Some? {
      var w1 := Transmit(env, w.(buffer := Flatten(groups[1..])), Push(groups[0]));
      if w1.connection.Some? {
        SendInAnyPhase(env, w1, groups[1..], p);
      }
    }
  }

  lemma MessageInAnyPhase(env: Env, w: Worker, m: Message, p: Phase)
    ensures HandleMessage(env, w.(phase := p), m) == HandleMessage(env, w, m).(phase := p)
  {
    match m
    case Payload(e) =>
      var w1 := TakeUp(w, e).(timers := StopQueueTimer(w.timers));
      SendInAnyPhase(env, w1, Pack(w1.buffer), p);
    case NewTracepoint(_, _) =>
    case Terminate => SendInAnyPhase(env, w, Pack(w.buffer), p);
  }

  /** The system state after an event, up to the phase a dead thread stopped in. */
  ghost predicate Reaches(s: System, s': System, result: (Worker, seq<Message>)) {
    && s' == s.(w := s'.w, channel := result.1)
    && s'.w.(phase := Idle) == result.0
    && (s'.w.health.Running? ==> s'.w.phase.Idle?)
  }

  lemma {:induction false} DrainIsARun(env: Env, s: System, w: Worker) returns (actions: seq<Action>)
    requires w.health.Running? && w.phase.Idle? && s.w == w.(phase := Draining)
    ensures Reaches(s, Run(env, s, actions), Drain(env, w, s.channel))
    decreases |s.channel|
  {
    var s1 := Step(env, s, Receive);
    if s.channel == [] {
      actions := [Receive];
      RunOne(env, s, Receive);
    } else {
      MessageInAnyPhase(env, w, s.channel[0], Draining);
      var w1 := HandleMessage(env, w, s.channel[0]);
      MessageInAnyPhase(env, w, s.channel[0], Idle);
      assert w.(phase := Idle) == w;
      if w1.health.Running? {
        var more := DrainIsARun(env, s1, w1);
        actions := [Receive] + more;
        assert actions[1..] == more;
      } else {
        actions := [Receive];
        RunOne(env, s, Receive);
      }
    }
  }

  lemma {:induction false} FireAllIsARun(env: Env, s: System, due: seq<nat>) returns (actions: seq<Action>)
    requires s.w.phase.Idle?
    ensures Run(env, s, actions) == s.(w := FireAll(env, s.w, due))
    ensures FireAll(env, s.w, due).phase.Idle?
    decreases |due|
  {
    if due == [] || !s.w.health.Running? {
      actions := [];
      assert s == s.(w := s.w);
    } else {
      var s1 := Step(env, s, Timeout(due[0]));
      if due[0] in s.w.timers.armed {
        var w1 := s.w.(timers := s.w.timers.(armed := s.w.timers.armed - {due[0]}, queue := None));
        SendInAnyPhase(env, w1, Pack(w1.buffer), Idle);
        assert w1.(phase := Idle) == w1;
      }
      var more := FireAllIsARun(env, s1, due[1..]);
      actions := [Timeout(due[0])] + more;
      assert actions[1..] == more;
    }
  }

  lemma {:induction false} ReceiveEndsIdle(env: Env, w: Worker)
    requires w.phase.Idle? || Reading(w)
    ensures FinishReceive(env, w).health.Running? ==> FinishReceive(env, w).phase.Idle?
    decreases Rank(w.phase)
  {
    if Reading(w) {
      ReadStepRanksDown(env, w);
      var w1 := ReadStep(env, w);
      if w1.health.Running? {
        assert w1.phase.Idle? || Reading(w1);
        ReceiveEndsIdle(env, w1);
      }
    }
  }

  lemma ReadableIsARun(env: Env, s: System, input: Stream) returns (actions: seq<Action>)
    requires s.w.health.Running? && s.w.phase.Idle? && s.w.sessions > 0
    ensures Reaches(s, Run(env, s, actions), HandleEvent(env, s.w, s.channel, ClientReady(input)))
  {
    var s1 := Step(env, s, Readable(input));
    var more := ReadOnToTheEnd(env, s1);
    ReceiveEndsIdle(env, s1.w);
    actions := [Readable(input)] + more;
    assert actions[1..] == more;
  }

  /** Any single event, on an idle thread; a client socket is only ever reported after a first client. */
  lemma EventIsARun(env: Env, s: System, e: Event) returns (actions: seq<Action>)
    requires s.w.health.Running? && s.w.phase.Idle? && (e.ClientReady? ==> s.w.sessions > 0)
    ensures Reaches(s, Run(env, s, actions), HandleEvent(env, s.w, s.channel, e))
  {
    match e
    case ChannelReady =>
      var s1 := Step(env, s, WakeChannel);
      var more := DrainIsARun(env, s1, s.w);
      actions := [WakeChannel] + more;
      assert actions[1..] == more;
    case TimerReady(due) =>
      actions := FireAllIsARun(env, s, due);
    case ListenerReady(ok) =>
      actions := [Accept(ok)];
      RunOne(env, s, Accept(ok));
    case ClientReady(input) =>
      actions := ReadableIsARun(env, s, input);
  }

  predicate ReportsClient(events: seq<Event>) {
    exists i :: 0 <= i < |events| && events[i].ClientReady?
  }

  /** A whole batch of events, as `event_handler` goes through it, is a run. */
  lemma {:induction false} EventsAreARun(env: Env, s: System, events: seq<Event>) returns (actions: seq<Action>)
    requires ValidEnv(env) && Inv(s) && s.w.health.Running? && s.w.phase.Idle?
    requires ReportsClient(events) ==> s.w.sessions > 0
    ensures Reaches(s, Run(env, s, actions), HandleEvents(env, s.w, s.channel, events))
    decreases |events|
  {
    if events == [] {
      actions := [];
    } else {
      assert events[0].ClientReady? ==> ReportsClient(events);
      var first := EventIsARun(env, s, events[0]);
      var s1 := Run(env, s, first);
      RunKeeps(env, s, first);
      RunGrows(env, s, first);
      actions := first;
      if s1.w.health.Running? {
        LaterReports(events);
        var more := EventsAreARun(env, s1, events[1..]);
        actions := first + more;
        RunConcat(env, s, first, more);
      }
    }
  }

  lemma LaterReports(events: seq<Event>)
    requires events != []
    ensures ReportsClient(events[1..]) ==> ReportsClient(events)
  {
    if ReportsClient(events[1..]) {
      var i :| 0 <= i < |events[1..]| && events[1..][i].ClientReady?;
      assert events[i + 1].ClientReady?;
    }
  }
}
