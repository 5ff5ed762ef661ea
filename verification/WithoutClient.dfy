/**
 The claim at the head of src/lib.rs (lines 9-13): after a disconnect no more send events occur, so
 `send_trace_data` need not check for a connection. It is false; this module proves exactly when a
 tracer that lost its client, and is not inside `receive`, still reaches a trace-data write (and
 panics) before the next client. `WritesAfterClose.dfy` adds the tracer that is still reading.
 */
module WithoutClient {
  import opened Bytes
  import opened Names
  import opened Codec
  import opened Packing
  import opened TracerThread
  import opened Protocol
  import opened WorkerInvariants
  import opened SystemInvariants
  import opened Theorems
  import opened Requests
  import opened RequestTheorems

  predicate NoNewClient(actions: seq<Action>) {
    forall i :: 0 <= i < |actions| ==> actions[i] != Accept(true)
  }

  /** A submission under way that will get into the channel if its thread goes on now. */
  predicate Able(s: System, t: nat) {
    t in s.pending &&
    match s.pending[t]
    case Admitted(_) => true
    case Connected(raw, data) => Admit(s.app, s.w.flags, raw, 0, data).Some?
  }

  /**
   What lies ahead of a tracer in its channel and its timer: before `tracy_finit` any payload and
   whatever the queue timer waits for; after it only payloads that push the occupancy counter over the
   limit before `Terminate` is reached.
   */
  ghost predicate Doomed(s: System) {
    if HasTerminate(s.channel) then
      Payloads(s.channel) != [] && s.w.occupancy + TotalLen(Payloads(s.channel)) > QUEUE_TOTAL_SIZE
    else Payloads(s.channel) != [] || s.w.timers.queue.Some?
  }

  /**
   What a disconnected tracer outside `receive` can still be made to write: what lies ahead of it, a
   submission on its way into the channel, and when it is not just draining also what its armed timer
   waits for.
   */
  ghost predicate CanStillWrite(s: System) {
    || (s.w.phase.Idle? && s.w.timers.queue.Some?)
    || Doomed(s)
    || (!HasTerminate(s.channel) && exists t :: Able(s, t))
  }

  // ----- if not, then never -----

  /** Nothing on its way can lead to a write. */
  ghost predicate Harmless(s: System) {
    if HasTerminate(s.channel) then
      Payloads(s.channel) == [] || s.w.occupancy + TotalLen(Payloads(s.channel)) <= QUEUE_TOTAL_SIZE
    else Payloads(s.channel) == [] && s.w.timers.queue.None? && forall t :: !Able(s, t)
  }

  ghost predicate Offline(s: System) {
    && Inv(s) && s.w.connection.None? && (s.w.phase.Idle? || s.w.phase.Draining?)
    && (s.w.phase.Idle? ==> s.w.timers.queue.None?)
    && Harmless(s)
  }

  ghost predicate NeverWrites(s: System) {
    && s.w.health != Panicked(TraceWrite)
    && (s.w.health.Running? ==> Offline(s))
  }

  lemma TotalLenCons(e: Element, es: seq<Element>)
    ensures TotalLen([e] + es) == ElementLen(e) + TotalLen(es)
  {
    TotalLenConcat([e], es);
    assert [e][..0] == [];
  }

  lemma TerminateStays(channel: seq<Message>)
    requires channel != []
    ensures HasTerminate(channel) <==> channel[0].Terminate? || HasTerminate(channel[1..])
  {
    if HasTerminate(channel[1..]) {
      var i :| 0 <= i < |channel[1..]| && channel[1..][i].Terminate?;
      assert channel[i + 1].Terminate?;
    }
    if HasTerminate(channel) && !channel[0].Terminate? {
      var i :| 0 <= i < |channel| && channel[i].Terminate?;
      assert channel[1..][i - 1].Terminate?;
    }
  }

  lemma RegisterIsHarmless(s: System, raw: Name)
    requires Inv(s) && Harmless(s) && s.appLive
    ensures Harmless(AppStep(s, Register(raw)))
  {
    var s' := AppStep(s, Register(raw));
    if s' != s {
      LoadGrown(s.w.flags);
      PayloadsSnoc(s.channel, s'.channel[|s.channel|]);
      forall t ensures !Able(s', t) {
        assert !Able(s, t);
      }
    }
  }

  lemma AppStepIsHarmless(s: System, a: Action)
    requires Inv(s) && Harmless(s) && s.appLive && IsAppAction(a) && s.w.connection.None?
    ensures Harmless(AppStep(s, a))
  {
    match a
    case Register(raw) => RegisterIsHarmless(s, raw);
    case SubmitCheckConnection(_, _, _) =>
    case SubmitCheckFlag(t, time) =>
      var s' := AppStep(s, a);
      assert !Able(s, t);
      forall u ensures !Able(s', u) {
        assert !Able(s, u);
      }
    case SubmitSend(t) => assert !Able(s, t);
    case Finit =>
      PayloadsSnoc(s.channel, Terminate);
      var s' := AppStep(s, Finit);
      assert s' != s ==> s'.channel[|s.channel|].Terminate?;
  }

  /** A payload before `Terminate` that keeps the counter within its limit arms the timer and writes nothing. */
  lemma PayloadStaysHarmless(env: Env, s: System, e: Element)
    requires Harmless(s) && s.channel != [] && s.channel[0] == Payload(e)
    ensures HandlePayload(env, s.w, e) == TakeUp(s.w, e).(timers := StartQueueTimer(s.w.timers))
    ensures Harmless(s.(channel := s.channel[1..], w := HandlePayload(env, s.w, e)))
  {
    TerminateStays(s.channel);
    var rest := Payloads(s.channel[1..]);
    TotalLenCons(e, rest);
    assert Payloads(s.channel) == [e] + rest;
  }

  lemma OtherMessagesStayHarmless(env: Env, s: System, name: Name, cell: nat)
    requires Harmless(s) && s.channel != [] && s.channel[0] == NewTracepoint(name, cell)
    ensures Harmless(s.(channel := s.channel[1..], w := InsertTracepoint(s.w, name, cell)))
  {
    TerminateStays(s.channel);
    assert Payloads(s.channel) == Payloads(s.channel[1..]);
    var s' := s.(channel := s.channel[1..], w := InsertTracepoint(s.w, name, cell));
    forall t ensures Able(s', t) <==> Able(s, t) {
    }
  }

  lemma ReceiveStaysOffline(env: Env, s: System)
    requires ValidEnv(env) && Offline(s) && s.w.health.Running? && s.w.phase.Draining? && s.channel != []
    ensures NeverWrites(WorkerStep(env, s, Receive))
  {
    ReceiveStepKeeps(env, s);
    assert WorkerStep(env, s, Receive) == s.(channel := s.channel[1..], w := HandleMessage(env, s.w, s.channel[0]));
    match s.channel[0]
    case Payload(e) => PayloadStaysHarmless(env, s, e);
    case NewTracepoint(name, cell) => OtherMessagesStayHarmless(env, s, name, cell);
    case Terminate =>
  }

  lemma HarmlessWithTimers(s: System, t: Timers)
    requires Harmless(s) && t.queue == s.w.timers.queue
    ensures Harmless(s.(w := s.w.(timers := t)))
  {
    var s' := s.(w := s.w.(timers := t));
    forall u ensures Able(s', u) <==> Able(s, u) {
    }
  }

  lemma TimeoutStaysOffline(env: Env, s: System, id: nat)
    requires ValidEnv(env) && Offline(s) && s.w.health.Running? && s.w.phase.Idle? && id in s.w.timers.armed
    ensures NeverWrites(WorkerStep(env, s, Timeout(id)))
  {
    TimeoutKeeps(env, s, id);
    FiredTimers(s.w.timers, id);
    var t := StartUdpTimer(s.w.timers.(armed := s.w.timers.armed - {id}, udp := None));
    assert WorkerStep(env, s, Timeout(id)) == s.(w := s.w.(timers := t));
    HarmlessWithTimers(s, t);
  }

  lemma WorkerStepStaysOffline(env: Env, s: System, a: Action)
    requires ValidEnv(env) && Offline(s) && s.w.health.Running? && !IsAppAction(a) && a != Accept(true)
    ensures NeverWrites(WorkerStep(env, s, a))
  {
    var s' := WorkerStep(env, s, a);
    WorkerStepKeeps(env, s, a);
    if a.Receive? && s.w.phase.Draining? && s.channel != [] {
      ReceiveStaysOffline(env, s);
    } else if a.Timeout? && s.w.phase.Idle? && a.id in s.w.timers.armed {
      TimeoutStaysOffline(env, s, a.id);
    } else {
      forall t ensures Able(s', t) <==> Able(s, t) {
      }
    }
  }

  lemma StepStaysOffline(env: Env, s: System, a: Action)
    requires ValidEnv(env) && NeverWrites(s) && a != Accept(true)
    ensures NeverWrites(Step(env, s, a))
  {
    if s.w.health.Running? {
      if IsAppAction(a) {
        if s.appLive {
          AppStepKeeps(s, a);
          AppStepIsHarmless(s, a);
        }
      } else {
        WorkerStepStaysOffline(env, s, a);
      }
    }
  }

  lemma {:induction false} RunStaysOffline(env: Env, s: System, actions: seq<Action>)
    requires ValidEnv(env) && NeverWrites(s) && NoNewClient(actions)
    ensures NeverWrites(Run(env, s, actions))
    decreases |actions|
  {
    if actions != [] {
      StepStaysOffline(env, s, actions[0]);
      RunStaysOffline(env, Step(env, s, actions[0]), actions[1..]);
    }
  }

  // ----- if so, then some run does -----

  lemma FiringWrites(env: Env, s: System)
    requires Inv(s) && s.w.health.Running? && s.w.phase.Idle? && s.w.connection.None? && s.w.timers.queue.Some?
    ensures Step(env, s, Timeout(s.w.timers.queue.value)).w.health == Panicked(TraceWrite)
  {
    var id := s.w.timers.queue.value;
    assert id in s.w.timers.armed && s.w.timers.armed[id].QueueTimer?;
    FiredTimers(s.w.timers, id);
    var w1 := s.w.(timers := s.w.timers.(armed := s.w.timers.armed - {id}, queue := None));
    SendWithoutClient(env, w1);
  }

  lemma PayloadOverLimitWrites(env: Env, w: Worker, e: Element)
    requires Core(w) && Acceptable(e) && w.connection.None? && w.occupancy + ElementLen(e) > QUEUE_TOTAL_SIZE
    ensures HandlePayload(env, w, e).health == Panicked(TraceWrite)
  {
    TakeUpThenTimers(w, e);
    SendWithoutClient(env, TakeUp(w, e).(timers := StopQueueTimer(w.timers)));
  }

  lemma FirstMessageIsNotTerminate(s: System)
    requires EndOk(s) && Doomed(s) && s.channel != []
    ensures !s.channel[0].Terminate?
  {
    TerminateStays(s.channel);
    var tail := s.channel[1..];
    assert s.channel[0].Terminate? ==> tail == [];
    assert !s.channel[0].Payload? ==> Payloads(s.channel) == Payloads(tail);
  }

  lemma DoomStays(env: Env, s: System)
    requires Inv(s) && s.w.health.Running? && Doomed(s) && s.channel != [] && s.w.connection.None?
    requires s.channel[0].Payload? ==> s.w.occupancy + ElementLen(s.channel[0].element) <= QUEUE_TOTAL_SIZE
    ensures var s' := s.(channel := s.channel[1..], w := HandleMessage(env, s.w, s.channel[0]));
            Doomed(s') && s'.w.health.Running? && s'.w.connection.None? && s'.w.phase == s.w.phase
  {
    FirstMessageIsNotTerminate(s);
    TerminateStays(s.channel);
    var rest := Payloads(s.channel[1..]);
    if s.channel[0].Payload? {
      assert Payloads(s.channel) == [s.channel[0].element] + rest;
      TotalLenCons(s.channel[0].element, rest);
    } else {
      assert Payloads(s.channel) == rest;
    }
  }

  lemma DrainedWrites(env: Env, s: System) returns (actions: seq<Action>)
    requires Inv(s) && s.w.health.Running? && s.w.phase.Draining? && s.w.connection.None?
    requires Doomed(s) && s.channel == []
    ensures NoNewClient(actions) && Run(env, s, actions).w.health == Panicked(TraceWrite)
  {
    var s1 := s.(w := s.w.(phase := Idle));
    PhaseStepKeeps(s, Idle);
    FiringWrites(env, s1);
    actions := [Receive, Timeout(s1.w.timers.queue.value)];
    RunTwo(env, s, actions[0], actions[1]);
  }

  /** The next message either makes the tracer write or leaves it as doomed as before. */
  lemma DoomAdvances(env: Env, s: System)
    requires ValidEnv(env) && Inv(s) && s.w.health.Running? && s.w.connection.None? && Doomed(s) && s.channel != []
    ensures var s' := s.(channel := s.channel[1..], w := HandleMessage(env, s.w, s.channel[0]));
            || s'.w.health == Panicked(TraceWrite)
            || (Inv(s') && s'.w.health.Running? && s'.w.phase == s.w.phase && s'.w.connection.None? && Doomed(s'))
  {
    MessageStepKeeps(env, s);
    if s.channel[0].Payload? && s.w.occupancy + ElementLen(s.channel[0].element) > QUEUE_TOTAL_SIZE {
      assert s.channel[0].element == s.accepted[|s.w.past.appended|];
      PayloadOverLimitWrites(env, s.w, s.channel[0].element);
    } else {
      DoomStays(env, s);
    }
  }

  lemma {:induction false} DrainingWrites(env: Env, s: System) returns (actions: seq<Action>)
    requires ValidEnv(env) && Inv(s) && s.w.health.Running? && s.w.phase.Draining? && s.w.connection.None? && Doomed(s)
    ensures NoNewClient(actions) && Run(env, s, actions).w.health == Panicked(TraceWrite)
    decreases |s.channel|
  {
    if s.channel == [] {
      actions := DrainedWrites(env, s);
    } else {
      var s1 := s.(channel := s.channel[1..], w := HandleMessage(env, s.w, s.channel[0]));
      assert Step(env, s, Receive) == s1;
      DoomAdvances(env, s);
      if s1.w.health.Running? {
        var more := DrainingWrites(env, s1);
        actions := [Receive] + more;
        assert actions[1..] == more;
      } else {
        actions := [Receive];
        RunOne(env, s, Receive);
      }
    }
  }

  lemma RunOne(env: Env, s: System, a: Action)
    ensures Run(env, s, [a]) == Step(env, s, a)
  {
    assert [a][1..] == [];
  }

  lemma RunTwo(env: Env, s: System, a: Action, b: Action)
    ensures Run(env, s, [a, b]) == Step(env, Step(env, s, a), b)
  {
    assert [a, b][1..] == [b];
    RunOne(env, Step(env, s, a), b);
  }

  /** An idle tracer that is doomed only needs to look at its channel. */
  lemma IdleDoomWrites(env: Env, s: System) returns (actions: seq<Action>)
    requires ValidEnv(env) && Inv(s) && s.w.health.Running? && s.w.phase.Idle? && s.w.connection.None? && Doomed(s)
    ensures NoNewClient(actions) && Run(env, s, actions).w.health == Panicked(TraceWrite)
  {
    var s1 := Step(env, s, WakeChannel);
    PhaseStepKeeps(s, Draining);
    assert s1 == s.(w := s.w.(phase := Draining));
    var more := DrainingWrites(env, s1);
    actions := [WakeChannel] + more;
    assert actions[1..] == more;
  }

  lemma AblePassesItsCheck(s: System, t: nat)
    requires Inv(s) && s.w.health.Running? && Able(s, t)
    ensures s.appLive
    ensures var s1 := AppStep(s, SubmitCheckFlag(t, 0));
            && Inv(s1) && t in s1.pending && s1.pending[t].Admitted?
            && s1.channel == s.channel && s1.w == s.w && s1.appLive
  {
    SubmitKeeps(s, SubmitCheckFlag(t, 0));
  }

  /** An admitted element gets into the channel. */
  lemma AdmittedArrives(s: System, t: nat)
    requires Inv(s) && s.appLive && !HasTerminate(s.channel) && t in s.pending && s.pending[t].Admitted?
    ensures var s' := AppStep(s, SubmitSend(t));
            Inv(s') && s'.w == s.w && Payloads(s'.channel) != [] && !HasTerminate(s'.channel)
  {
    SendKeeps(s, t);
    PayloadsSnoc(s.channel, Payload(s.pending[t].element));
  }

  /** A submission that can go on, goes on. */
  lemma AbleArrives(env: Env, s: System, t: nat) returns (actions: seq<Action>)
    requires ValidEnv(env) && Inv(s) && s.w.health.Running? && !HasTerminate(s.channel) && Able(s, t)
    ensures NoNewClient(actions)
    ensures var s' := Run(env, s, actions);
            Inv(s') && s'.w == s.w && Payloads(s'.channel) != [] && !HasTerminate(s'.channel)
  {
    AblePassesItsCheck(s, t);
    var s1 := AppStep(s, SubmitCheckFlag(t, 0));
    AdmittedArrives(s1, t);
    actions := [SubmitCheckFlag(t, 0), SubmitSend(t)];
    RunTwo(env, s, actions[0], actions[1]);
    assert Run(env, s, actions) == AppStep(s1, SubmitSend(t));
  }

  /** A disconnected tracer that waits for events or drains its channel. */
  ghost predicate Settled(s: System) {
    s.w.health.Running? && s.w.connection.None? && (s.w.phase.Idle? || s.w.phase.Draining?)
  }

  lemma DoomWrites(env: Env, s: System) returns (actions: seq<Action>)
    requires ValidEnv(env) && Inv(s) && Settled(s) && Doomed(s)
    ensures NoNewClient(actions) && Run(env, s, actions).w.health == Panicked(TraceWrite)
  {
    if s.w.phase.Idle? {
      actions := IdleDoomWrites(env, s);
    } else {
      actions := DrainingWrites(env, s);
    }
  }

  lemma SomeRunWrites(env: Env, s: System) returns (actions: seq<Action>)
    requires ValidEnv(env) && Inv(s) && Settled(s) && CanStillWrite(s)
    ensures NoNewClient(actions) && Run(env, s, actions).w.health == Panicked(TraceWrite)
  {
    if s.w.phase.Idle? && s.w.timers.queue.Some? {
      FiringWrites(env, s);
      actions := [Timeout(s.w.timers.queue.value)];
      RunOne(env, s, actions[0]);
    } else if Doomed(s) {
      actions := DoomWrites(env, s);
    } else {
      var t :| Able(s, t);
      var first := AbleArrives(env, s, t);
      var s1 := Run(env, s, first);
      var more := DoomWrites(env, s1);
      actions := first + more;
      RunConcat(env, s, first, more);
    }
  }

  /** Some run without a new client reaches a trace-data write, and panics there. */
  ghost predicate MayWrite(env: Env, s: System) {
    exists actions :: NoNewClient(actions) && Run(env, s, actions).w.health == Panicked(TraceWrite)
  }

  /**
   The claim made exact, outside `receive`: a tracer without a client, idle or in the middle of
   draining its channel, can reach a trace-data write before the next client exactly when something
   is still waiting or on its way that `CanStillWrite` names.
   */
  lemma SettledWritesIff(env: Env, s: System)
    requires ValidEnv(env) && Reachable(env, s) && Settled(s)
    ensures MayWrite(env, s) <==> CanStillWrite(s)
  {
    ReachableInv(env, s);
    if CanStillWrite(s) {
      var actions := SomeRunWrites(env, s);
    } else {
      forall actions | NoNewClient(actions)
        ensures Run(env, s, actions).w.health != Panicked(TraceWrite)
      {
        RunStaysOffline(env, s, actions);
      }
    }
  }

  // ----- the claim is false -----

  /** `receive`, run to its end by the tracer thread alone. */
  lemma {:induction false} ReadOnToTheEnd(env: Env, s: System) returns (actions: seq<Action>)
    ensures Run(env, s, actions) == s.(w := FinishReceive(env, s.w))
    decreases Rank(s.w.phase)
  {
    if Reading(s.w) {
      ReadStepRanksDown(env, s.w);
      var s1 := Step(env, s, ReadOn);
      var more := ReadOnToTheEnd(env, s1);
      actions := [ReadOn] + more;
      assert actions[1..] == more;
    } else {
      actions := [];
      assert s == s.(w := s.w);
    }
  }

  /** A whole readable event on a connected, idle tracer. */
  lemma ReadableEvent(env: Env, s: System, input: Stream) returns (actions: seq<Action>)
    requires s.w.health.Running? && s.w.phase.Idle? && s.w.connection.Some? && s.w.sessions > 0
    ensures Run(env, s, actions) == s.(w := FinishReceive(env, s.w.(phase := AtHeader(input))))
  {
    var s1 := Step(env, s, Readable(input));
    var more := ReadOnToTheEnd(env, s1);
    actions := [Readable(input)] + more;
    assert actions[1..] == more;
  }

  /** One tracepoint with the empty name, known to both threads, and no client yet. */
  lemma RegisteredEverywhere(env: Env, announce: bool) returns (actions: seq<Action>)
    ensures var s := Run(env, Init(announce), actions);
            && s.app == map[[] := 0] && s.appLive && s.pending == map[] && s.channel == [] && s.accepted == []
            && s.w.tracepoints == map[[] := 0] && s.w.flags == [false]
            && s.w.health.Running? && s.w.phase.Idle? && s.w.connection.None? && s.w.sessions == 0
  {
    var s0 := Init(announce);
    NormalIffFixedPoint([]);
    var s1 := Step(env, s0, Register([]));
    assert s1.channel == [NewTracepoint([], 0)];
    var s2 := Step(env, s1, WakeChannel);
    var s3 := Step(env, s2, Receive);
    assert s3.channel == [];
    actions := [Register([]), WakeChannel] + [Receive, Receive];
    RunTwo(env, s0, Register([]), WakeChannel);
    RunTwo(env, s2, Receive, Receive);
    RunConcat(env, s0, [Register([]), WakeChannel], [Receive, Receive]);
  }

  /** The client connects and enables the tracepoint. */
  lemma EnabledByClient(env: Env, announce: bool) returns (actions: seq<Action>)
    ensures var s := Run(env, Init(announce), actions);
            && s.app == map[[] := 0] && s.appLive && s.pending == map[] && s.channel == []
            && s.w.flags == [true] && s.w.clientConnected
            && s.w.health.Running? && s.w.phase.Idle? && s.w.connection.Some? && s.w.sessions > 0
  {
    var first := RegisteredEverywhere(env, announce);
    var s0 := Init(announce);
    var s1 := Run(env, s0, first);
    var s2 := Step(env, s1, Accept(true));
    var input := Stream(EncodeRequest(Enable([[]])), [], Blocked);
    var more := ReadableEvent(env, s2, input);
    OneNameRequest(env, s2.w, [], input);
    actions := first + ([Accept(true)] + more);
    assert ([Accept(true)] + more)[1..] == more;
    RunConcat(env, s0, first, [Accept(true)] + more);
  }

  /** A submission passes both checks, then the client leaves: the admitted element is still on its way. */
  lemma AdmittedThenGone(env: Env, announce: bool) returns (actions: seq<Action>)
    ensures var s := Run(env, Init(announce), actions);
            && s.w.health.Running? && s.w.phase.Idle? && s.w.connection.None?
            && s.channel == [] && s.w.timers.queue.None? && Able(s, 0)
  {
    var first := EnabledByClient(env, announce);
    var s0 := Init(announce);
    var s1 := Run(env, s0, first);
    NormalIffFixedPoint([]);
    var check, flag := SubmitCheckConnection(0, [], [7]), SubmitCheckFlag(0, 0);
    var s2 := Step(env, Step(env, s1, check), flag);
    assert s2.pending[0].Admitted? && s2.w == s1.w && s2.channel == [];
    var more := ReadableEvent(env, s2, Stream([], [], Eof));
    ReceiveWaits(env, s2.w, Eof);
    actions := first + ([check, flag] + more);
    RunTwo(env, s1, check, flag);
    RunConcat(env, s1, [check, flag], more);
    RunConcat(env, s0, first, [check, flag] + more);
  }

  /** Whatever the environment does with writes, some run sends trace data without a client and panics. */
  lemma ClaimIsFalse(env: Env, announce: bool)
    requires ValidEnv(env)
    ensures exists actions :: Run(env, Init(announce), actions).w.health == Panicked(TraceWrite)
  {
    var first := AdmittedThenGone(env, announce);
    var s := Run(env, Init(announce), first);
    EveryRunKeepsInv(env, announce, first);
    var more := SomeRunWrites(env, s);
    RunConcat(env, Init(announce), first, more);
    assert Run(env, Init(announce), first + more).w.health == Panicked(TraceWrite);
  }
}
