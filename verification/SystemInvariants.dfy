/**
 What every step of the whole system keeps, and the induction over runs (`EveryRunKeepsInv`) on which
 the theorems rest.
 */
module SystemInvariants {
  import opened Bytes
  import opened Names
  import opened Codec
  import opened Packing
  import opened TracerThread
  import opened Protocol
  import opened WorkerInvariants

  /** The payloads still in the channel. */
  function Payloads(channel: seq<Message>): seq<Element> {
    if channel == [] then []
    else (if channel[0].Payload? then [channel[0].element] else []) + Payloads(channel[1..])
  }

  lemma {:induction false} PayloadsSnoc(channel: seq<Message>, m: Message)
    ensures Payloads(channel + [m]) == Payloads(channel) + (if m.Payload? then [m.element] else [])
  {
    if channel != [] {
      assert (channel + [m])[1..] == channel[1..] + [m];
      PayloadsSnoc(channel[1..], m);
    }
  }

  /** The worker's map once it has taken in all pending registrations. */
  function Merged(tracepoints: map<Name, nat>, channel: seq<Message>): map<Name, nat>
    decreases |channel|
  {
    if channel == [] then tracepoints
    else Merged(if channel[0].NewTracepoint? then tracepoints[channel[0].name := channel[0].cell] else tracepoints,
                channel[1..])
  }

  /** No pending registration will overwrite an entry. */
  predicate NoOverwrite(tracepoints: map<Name, nat>, channel: seq<Message>)
    decreases |channel|
  {
    channel == [] ||
    (if channel[0].NewTracepoint? then
       channel[0].name !in tracepoints && NoOverwrite(tracepoints[channel[0].name := channel[0].cell], channel[1..])
     else NoOverwrite(tracepoints, channel[1..]))
  }

  lemma {:induction false} MergedSnoc(tracepoints: map<Name, nat>, channel: seq<Message>, m: Message)
    requires NoOverwrite(tracepoints, channel)
    ensures !m.NewTracepoint? ==>
              && Merged(tracepoints, channel + [m]) == Merged(tracepoints, channel)
              && NoOverwrite(tracepoints, channel + [m])
    ensures m.NewTracepoint? ==>
              Merged(tracepoints, channel + [m]) == Merged(tracepoints, channel)[m.name := m.cell]
    ensures m.NewTracepoint? && m.name !in Merged(tracepoints, channel) ==> NoOverwrite(tracepoints, channel + [m])
    decreases |channel|
  {
    if channel == [] {
      assert channel + [m] == [m] && [m][1..] == [];
    } else {
      assert (channel + [m])[1..] == channel[1..] + [m];
      var next := if channel[0].NewTracepoint? then tracepoints[channel[0].name := channel[0].cell] else tracepoints;
      MergedSnoc(next, channel[1..], m);
    }
  }

  lemma {:induction false} MergedExtends(tracepoints: map<Name, nat>, channel: seq<Message>, n: Name)
    requires NoOverwrite(tracepoints, channel) && n in tracepoints
    ensures n in Merged(tracepoints, channel) && Merged(tracepoints, channel)[n] == tracepoints[n]
    decreases |channel|
  {
    if channel != [] {
      var next := if channel[0].NewTracepoint? then tracepoints[channel[0].name := channel[0].cell] else tracepoints;
      MergedExtends(next, channel[1..], n);
    }
  }

  /** Application and worker agree on names and cells through the channel. */
  ghost predicate MapsAgree(s: System) {
    && s.app == Merged(s.w.tracepoints, s.channel)
    && NoOverwrite(s.w.tracepoints, s.channel)
    && CellsDistinct(s.app, |s.w.flags|)
    && KeysNormal(s.app)
    && forall n :: n in s.app && n !in s.w.tracepoints ==> !Load(s.w.flags, s.app[n])
  }

  predicate Conserved(s: System) {
    && s.accepted == s.w.past.appended + Payloads(s.channel)
    && AllAcceptable(s.accepted)
  }

  predicate PendingOk(s: System) {
    forall t :: t in s.pending ==>
      match s.pending[t]
      case Connected(_, data) => SubmittableLength(data)
      case Admitted(e) => Acceptable(e)
  }

  predicate HasTerminate(channel: seq<Message>) {
    exists i :: 0 <= i < |channel| && channel[i].Terminate?
  }

  /** `Terminate` is the application's last word. */
  predicate EndOk(s: System) {
    && (s.appLive ==> s.w.health.Running? && !HasTerminate(s.channel))
    && (!s.appLive ==> s.pending == map[])
    && (!s.appLive && s.w.health.Running? ==> s.channel != [] && s.channel[|s.channel| - 1].Terminate?)
    && (s.w.health.Returned? ==> s.channel == [] && (s.w.connection.Some? ==> s.w.buffer == []))
    && forall i :: 0 <= i < |s.channel| - 1 ==> !s.channel[i].Terminate?
  }

  predicate BeforeFirstClient(s: System) {
    s.w.sessions == 0 ==> s.pending == map[] && s.accepted == [] && (s.w.phase.Idle? || s.w.phase.Draining?)
  }

  ghost predicate Inv(s: System) {
    Sound(s.w) && MapsAgree(s) && Conserved(s) && PendingOk(s) && EndOk(s) && BeforeFirstClient(s)
  }

  /** The invariant, which is about runs that have not panicked; the first client is needed for a panic. */
  ghost predicate InvOrPanic(s: System) {
    (s.w.health.Panicked? && s.w.past.closes > 0) || (!s.w.health.Panicked? && Inv(s))
  }

  // ----- application steps -----

  lemma LoadGrown(flags: seq<bool>)
    ensures forall c :: Load(flags + [false], c) == Load(flags, c)
  {
  }

  lemma GrownWorkerIsSound(w: Worker)
    requires Sound(w)
    ensures Sound(w.(flags := w.flags + [false]))
  {
    LoadGrown(w.flags);
  }

  lemma RegisterKeepsMaps(s: System, raw: Name)
    requires MapsAgree(s) && s.appLive
    ensures MapsAgree(AppStep(s, Register(raw)))
  {
    if FixTracepointStr(raw).Some? && FixTracepointStr(raw).value !in s.app {
      var name := FixTracepointStr(raw).value;
      FixYieldsNormalNames(raw);
      LoadGrown(s.w.flags);
      MergedSnoc(s.w.tracepoints, s.channel, NewTracepoint(name, |s.w.flags|));
    }
  }

  lemma RegisterKeepsRest(s: System, raw: Name)
    requires Conserved(s) && PendingOk(s) && EndOk(s) && BeforeFirstClient(s) && s.appLive
    ensures var s' := AppStep(s, Register(raw));
            Conserved(s') && PendingOk(s') && EndOk(s') && BeforeFirstClient(s')
  {
    if FixTracepointStr(raw).Some? && FixTracepointStr(raw).value !in s.app {
      PayloadsSnoc(s.channel, NewTracepoint(FixTracepointStr(raw).value, |s.w.flags|));
    }
  }

  lemma RegisterKeepsSound(s: System, raw: Name)
    requires Sound(s.w) && s.appLive
    ensures Sound(AppStep(s, Register(raw)).w)
  {
    GrownWorkerIsSound(s.w);
    assert s.w.(flags := s.w.flags) == s.w;
  }

  lemma RegisterKeeps(s: System, raw: Name)
    requires Inv(s) && s.appLive
    ensures Inv(AppStep(s, Register(raw)))
  {
    RegisterKeepsMaps(s, raw);
    RegisterKeepsRest(s, raw);
    RegisterKeepsSound(s, raw);
  }

  lemma SubmitKeepsPending(s: System, a: Action)
    requires PendingOk(s) && s.appLive && (a.SubmitCheckConnection? || a.SubmitCheckFlag?)
    ensures PendingOk(AppStep(s, a))
  {
    if a.SubmitCheckFlag? && a.thread in s.pending && s.pending[a.thread].Connected? {
      FixYieldsNormalNames(s.pending[a.thread].raw);
    }
  }

  /** The checks of a submission change nothing but the record of submissions under way. */
  lemma SubmitChangesPending(s: System, a: Action)
    requires s.appLive && (a.SubmitCheckConnection? || a.SubmitCheckFlag?)
    ensures AppStep(s, a) == s.(pending := AppStep(s, a).pending)
    ensures s.pending == map[] && !s.w.clientConnected ==> AppStep(s, a).pending == map[]
  {
  }

  lemma PendingKeepsMaps(s: System, p: map<nat, Submission>)
    requires MapsAgree(s)
    ensures MapsAgree(s.(pending := p))
  {
  }

  lemma PendingKeepsRest(s: System, p: map<nat, Submission>)
    requires Conserved(s) && EndOk(s) && s.appLive
    ensures Conserved(s.(pending := p)) && EndOk(s.(pending := p))
  {
  }

  lemma SubmitKeeps(s: System, a: Action)
    requires Inv(s) && s.appLive && (a.SubmitCheckConnection? || a.SubmitCheckFlag?)
    ensures Inv(AppStep(s, a))
  {
    var p := AppStep(s, a).pending;
    SubmitKeepsPending(s, a);
    SubmitChangesPending(s, a);
    PendingKeepsMaps(s, p);
    PendingKeepsRest(s, p);
    assert BeforeFirstClient(s.(pending := p));
  }

  lemma SendKeeps(s: System, t: nat)
    requires Inv(s) && s.appLive
    ensures Inv(AppStep(s, SubmitSend(t)))
  {
    if t in s.pending && s.pending[t].Admitted? {
      var m := Payload(s.pending[t].element);
      PayloadsSnoc(s.channel, m);
      MergedSnoc(s.w.tracepoints, s.channel, m);
      Associate(s.w.past.appended, Payloads(s.channel), [m.element]);
    }
  }

  lemma FinitEnds(s: System, s': System)
    requires EndOk(s) && s.appLive && s.pending == map[]
    requires s' == s.(appLive := false, channel := s.channel + [Terminate])
    ensures EndOk(s')
  {
    forall i | 0 <= i < |s.channel|
      ensures !s.channel[i].Terminate?
    {
      assert !HasTerminate(s.channel);
    }
  }

  lemma FinitKeepsMaps(s: System, s': System)
    requires MapsAgree(s) && s' == s.(appLive := false, channel := s.channel + [Terminate])
    ensures MapsAgree(s')
  {
    MergedSnoc(s.w.tracepoints, s.channel, Terminate);
  }

  lemma FinitKeepsRest(s: System, s': System)
    requires Conserved(s) && PendingOk(s) && BeforeFirstClient(s)
    requires s' == s.(appLive := false, channel := s.channel + [Terminate])
    ensures Conserved(s') && PendingOk(s') && BeforeFirstClient(s')
  {
    PayloadsSnoc(s.channel, Terminate);
  }

  lemma FinitKeeps(s: System)
    requires Inv(s) && s.appLive
    ensures Inv(AppStep(s, Finit))
  {
    var s' := AppStep(s, Finit);
    if s.pending == map[] {
      FinitEnds(s, s');
      FinitKeepsMaps(s, s');
      FinitKeepsRest(s, s');
    }
  }

  lemma AppStepKeeps(s: System, a: Action)
    requires Inv(s) && s.appLive && IsAppAction(a)
    ensures Inv(AppStep(s, a))
  {
    match a
    case Register(raw) => RegisterKeeps(s, raw);
    case SubmitCheckConnection(_, _, _) => SubmitKeeps(s, a);
    case SubmitCheckFlag(_, _) => SubmitKeeps(s, a);
    case SubmitSend(t) => SendKeeps(s, t);
    case Finit => FinitKeeps(s);
  }

  // ----- worker steps -----

  /** A worker step that registers nothing keeps the maps in agreement. */
  lemma MapsStay(s: System, w': Worker)
    requires MapsAgree(s)
    requires w'.tracepoints == s.w.tracepoints && |w'.flags| == |s.w.flags|
    requires forall c :: c !in s.w.tracepoints.Values && Load(w'.flags, c) ==> Load(s.w.flags, c)
    ensures MapsAgree(s.(w := w'))
  {
    forall n | n in s.app && n !in s.w.tracepoints
      ensures !Load(w'.flags, s.app[n])
    {
      if s.app[n] in s.w.tracepoints.Values {
        var k :| k in s.w.tracepoints && s.w.tracepoints[k] == s.app[n];
        MergedExtends(s.w.tracepoints, s.channel, k);
      }
    }
  }

  lemma PopKeepsMaps(s: System)
    requires MapsAgree(s) && s.channel != [] && !s.channel[0].NewTracepoint?
    ensures MapsAgree(s.(channel := s.channel[1..]))
  {
  }

  lemma PopKeepsEnd(s: System, w': Worker)
    requires EndOk(s) && s.w.health.Running? && w'.health.Running? && s.channel != [] && !s.channel[0].Terminate?
    ensures EndOk(s.(channel := s.channel[1..], w := w'))
  {
    var c := s.channel[1..];
    assert s.channel == [s.channel[0]] + c;
    if HasTerminate(c) {
      var i :| 0 <= i < |c| && c[i].Terminate?;
      assert s.channel[i + 1].Terminate?;
    }
  }

  /** Everything but the worker's own soundness survives a step that handles no message. */
  lemma QuietWorkerStep(s: System, w': Worker)
    requires Inv(s) && s.w.health.Running? && w'.health.Running? && Sound(w')
    requires w'.past.appended == s.w.past.appended
    requires w'.tracepoints == s.w.tracepoints && |w'.flags| == |s.w.flags|
    requires forall c :: c !in s.w.tracepoints.Values && Load(w'.flags, c) ==> Load(s.w.flags, c)
    requires s.w.sessions <= w'.sessions && (w'.sessions == 0 ==> w'.phase.Idle? || w'.phase.Draining?)
    ensures Inv(s.(w := w'))
  {
    MapsStay(s, w');
  }

  lemma PayloadTaken(s: System, e: Element, w': Worker)
    requires Inv(s) && s.w.health.Running? && s.channel != [] && s.channel[0] == Payload(e)
    requires w'.health.Running? && Sound(w') && PayloadShape(s.w, e, w')
    ensures Inv(s.(channel := s.channel[1..], w := w'))
  {
    var s1 := s.(channel := s.channel[1..]);
    PopKeepsMaps(s);
    MapsStay(s1, w');
    Associate(s.w.past.appended, [e], Payloads(s1.channel));
    PopKeepsEnd(s, w');
  }

  lemma PayloadStepKeeps(env: Env, s: System)
    requires Inv(s) && s.w.health.Running? && s.channel != [] && s.channel[0].Payload?
    ensures InvOrPanic(s.(channel := s.channel[1..], w := HandleMessage(env, s.w, s.channel[0])))
  {
    var e := s.channel[0].element;
    assert e == s.accepted[|s.w.past.appended|];
    HandlePayloadKeeps(env, s.w, e);
    HandlePayloadKeepsBatching(env, s.w, e);
    PayloadSession(env, s.w, e);
    if !HandlePayload(env, s.w, e).health.Panicked? {
      PayloadTaken(s, e, HandlePayload(env, s.w, e));
    }
  }

  lemma PayloadSession(env: Env, w: Worker, e: Element)
    requires Core(w) && w.health.Running? && Acceptable(e)
    ensures HandlePayload(env, w, e).health.Panicked? ==>
              w.connection.None? && HandlePayload(env, w, e).past.closes == w.past.closes
  {
    HandlePayloadKeeps(env, w, e);
    if w.connection.None? {
      TakeUpThenTimers(w, e);
      SendWithoutClient(env, TakeUp(w, e).(timers := StopQueueTimer(w.timers)));
    }
  }

  lemma InsertKeepsSound(w: Worker, name: Name, cell: nat)
    requires Sound(w) && IsNormal(name) && !Load(w.flags, cell)
    ensures Sound(InsertTracepoint(w, name, cell))
  {
    assert FlagsQuiet(InsertTracepoint(w, name, cell));
  }

  lemma InsertKeepsMaps(s: System, name: Name, cell: nat)
    requires MapsAgree(s) && s.channel != [] && s.channel[0] == NewTracepoint(name, cell)
    ensures MapsAgree(s.(channel := s.channel[1..], w := InsertTracepoint(s.w, name, cell)))
    ensures name !in s.w.tracepoints && IsNormal(name) && !Load(s.w.flags, cell)
  {
    MergedExtends(InsertTracepoint(s.w, name, cell).tracepoints, s.channel[1..], name);
    assert s.app[name] == cell;
  }

  lemma InsertKeepsRest(s: System, name: Name, cell: nat)
    requires Conserved(s) && PendingOk(s) && BeforeFirstClient(s)
    requires s.channel != [] && s.channel[0] == NewTracepoint(name, cell)
    ensures var s' := s.(channel := s.channel[1..], w := InsertTracepoint(s.w, name, cell));
            Conserved(s') && PendingOk(s') && BeforeFirstClient(s')
  {
    assert Payloads(s.channel) == Payloads(s.channel[1..]);
  }

  /** A pending registration is for a new name, so the worker's insert overwrites nothing. */
  lemma NewTracepointStepKeeps(env: Env, s: System)
    requires Inv(s) && s.w.health.Running? && s.channel != [] && s.channel[0].NewTracepoint?
    ensures Inv(s.(channel := s.channel[1..], w := HandleMessage(env, s.w, s.channel[0])))
  {
    var m := s.channel[0];
    InsertKeepsMaps(s, m.name, m.cell);
    InsertKeepsSound(s.w, m.name, m.cell);
    PopKeepsEnd(s, InsertTracepoint(s.w, m.name, m.cell));
    InsertKeepsRest(s, m.name, m.cell);
    assert HandleMessage(env, s.w, m) == InsertTracepoint(s.w, m.name, m.cell);
  }

  lemma TerminateStepKeeps(env: Env, s: System)
    requires Inv(s) && s.w.health.Running? && s.channel != [] && s.channel[0].Terminate?
    ensures Inv(s.(channel := s.channel[1..], w := HandleMessage(env, s.w, s.channel[0])))
  {
    var w' := HandleMessage(env, s.w, Terminate);
    TerminateKeeps(env, s.w);
    TerminateKeepsBatching(env, s.w);
    var s1 := s.(channel := s.channel[1..]);
    PopKeepsMaps(s);
    MapsStay(s1, w');
    assert |s.channel| == 1;
  }

  lemma TimeoutStepKeeps(env: Env, s: System, id: nat)
    requires Inv(s) && s.w.health.Running? && id in s.w.timers.armed
    ensures InvOrPanic(s.(w := HandleTimeout(env, s.w, id)))
  {
    var w' := HandleTimeout(env, s.w, id);
    HandleTimeoutKeeps(env, s.w, id);
    HandleTimeoutKeepsBatching(env, s.w, id);
    if w'.health.Panicked? {
      TimeoutPanic(env, s.w, id);
    } else {
      QuietWorkerStep(s, w');
    }
  }

  lemma TimeoutPanic(env: Env, w: Worker, id: nat)
    requires Sound(w) && w.health.Running? && id in w.timers.armed
    requires HandleTimeout(env, w, id).health.Panicked?
    ensures w.connection.None? && w.buffer != [] && HandleTimeout(env, w, id).past.closes == w.past.closes
  {
    HandleTimeoutKeeps(env, w, id);
    FiredTimers(w.timers, id);
    var w1 := w.(timers := w.timers.(armed := w.timers.armed - {id}, queue := None));
    if w.timers.armed[id].QueueTimer? {
      SendWithoutClient(env, w1);
    }
  }

  lemma AcceptStepKeeps(s: System, ok: bool)
    requires Inv(s) && s.w.health.Running? && s.w.phase.Idle?
    ensures Inv(s.(w := HandleAccept(s.w, ok)))
  {
    HandleAcceptKeeps(s.w, ok);
    QuietWorkerStep(s, HandleAccept(s.w, ok));
  }

  lemma ReadShapeKeeps(s: System, w': Worker)
    requires Inv(s) && s.w.health.Running? && s.w.sessions > 0 && ReadShape(s.w, w')
    ensures InvOrPanic(s.(w := w'))
  {
    if !w'.health.Panicked? {
      QuietWorkerStep(s, w');
    }
  }

  lemma PhaseStepKeeps(s: System, p: Phase)
    requires Inv(s) && s.w.health.Running? && (s.w.sessions > 0 || p.Idle? || p.Draining?)
    ensures Inv(s.(w := s.w.(phase := p)))
  {
    PhaseKeepsSound(s.w, p);
    QuietWorkerStep(s, s.w.(phase := p));
  }

  lemma MessageStepKeeps(env: Env, s: System)
    requires Inv(s) && s.w.health.Running? && s.channel != []
    ensures InvOrPanic(s.(channel := s.channel[1..], w := HandleMessage(env, s.w, s.channel[0])))
  {
    match s.channel[0]
    case Payload(_) => PayloadStepKeeps(env, s);
    case NewTracepoint(_, _) => NewTracepointStepKeeps(env, s);
    case Terminate => TerminateStepKeeps(env, s);
  }

  lemma ReceiveStepKeeps(env: Env, s: System)
    requires Inv(s) && s.w.health.Running?
    ensures InvOrPanic(WorkerStep(env, s, Receive))
  {
    if s.channel == [] {
      PhaseStepKeeps(s, Idle);
    } else {
      MessageStepKeeps(env, s);
    }
  }

  lemma ReadOnKeeps(env: Env, s: System)
    requires ValidEnv(env) && Inv(s) && s.w.health.Running?
    ensures InvOrPanic(WorkerStep(env, s, ReadOn))
  {
    if Reading(s.w) {
      assert WorkerStep(env, s, ReadOn) == s.(w := ReadStep(env, s.w));
      ReadStepKeeps(env, s.w);
      ReadShapeKeeps(s, ReadStep(env, s.w));
    }
  }

  lemma ReadableKeeps(env: Env, s: System, input: Stream)
    requires Inv(s) && s.w.health.Running?
    ensures InvOrPanic(WorkerStep(env, s, Readable(input)))
  {
    if s.w.phase.Idle? && s.w.sessions > 0 && s.w.connection.Some? {
      assert WorkerStep(env, s, Readable(input)) == s.(w := s.w.(phase := AtHeader(input)));
      PhaseStepKeeps(s, AtHeader(input));
    }
  }

  lemma TimeoutKeeps(env: Env, s: System, id: nat)
    requires Inv(s) && s.w.health.Running?
    ensures InvOrPanic(WorkerStep(env, s, Timeout(id)))
  {
    if s.w.phase.Idle? && id in s.w.timers.armed {
      assert WorkerStep(env, s, Timeout(id)) == s.(w := HandleTimeout(env, s.w, id));
      TimeoutStepKeeps(env, s, id);
    }
  }

  lemma AcceptKeeps(env: Env, s: System, ok: bool)
    requires Inv(s) && s.w.health.Running?
    ensures InvOrPanic(WorkerStep(env, s, Accept(ok)))
  {
    if s.w.phase.Idle? {
      assert WorkerStep(env, s, Accept(ok)) == s.(w := HandleAccept(s.w, ok));
      AcceptStepKeeps(s, ok);
    }
  }

  lemma WakeKeeps(env: Env, s: System)
    requires Inv(s) && s.w.health.Running?
    ensures InvOrPanic(WorkerStep(env, s, WakeChannel))
  {
    PhaseStepKeeps(s, Draining);
  }

  lemma WorkerStepKeeps(env: Env, s: System, a: Action)
    requires ValidEnv(env) && Inv(s) && s.w.health.Running?
    ensures InvOrPanic(WorkerStep(env, s, a))
  {
    match a
    case WakeChannel => WakeKeeps(env, s);
    case Receive => ReceiveStepKeeps(env, s);
    case Timeout(id) => TimeoutKeeps(env, s, id);
    case Accept(ok) => AcceptKeeps(env, s, ok);
    case Readable(input) => ReadableKeeps(env, s, input);
    case ReadOn => ReadOnKeeps(env, s);
    case _ =>
  }

  lemma StepKeeps(env: Env, s: System, a: Action)
    requires ValidEnv(env) && InvOrPanic(s)
    ensures InvOrPanic(Step(env, s, a))
  {
    if !s.w.health.Panicked? {
      if IsAppAction(a) {
        if s.appLive {
          AppStepKeeps(s, a);
        }
      } else if s.w.health.Running? {
        WorkerStepKeeps(env, s, a);
      }
    }
  }

  lemma {:induction false} RunKeeps(env: Env, s: System, actions: seq<Action>)
    requires ValidEnv(env) && InvOrPanic(s)
    ensures InvOrPanic(Run(env, s, actions))
    decreases |actions|
  {
    if actions != [] {
      StepKeeps(env, s, actions[0]);
      RunKeeps(env, Step(env, s, actions[0]), actions[1..]);
    }
  }

  lemma InitInv(announce: bool)
    ensures Inv(Init(announce))
  {
    TimersStay(Timers(map[], 0, None, None));
  }

  /** In every state of every run the invariant holds or a panic has happened, after at least one close. */
  lemma {:induction false} EveryRunKeepsInv(env: Env, announce: bool, actions: seq<Action>)
    requires ValidEnv(env)
    ensures InvOrPanic(Run(env, Init(announce), actions))
  {
    InitInv(announce);
    RunKeeps(env, Init(announce), actions);
  }
}
