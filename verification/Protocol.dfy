/**
 Application threads, the channel and the tracer thread as one transition system
 (src/lib.rs:312-457, 536-617). An action is one step of one thread. The grain is that of the shared
 memory: every action reads or writes shared cells at most once each in one direction, so running
 actions one after the other covers every interleaving of the real threads.
 */
module Protocol {
  import opened Bytes
  import opened Names
  import opened Codec
  import opened TracerThread

  // ----- what the application calls do -----

  /** What `tracy_register` reads and writes: its own map, the shared cells and the channel. */
  datatype AppView = AppView(tracepoints: map<Name, nat>, flags: seq<bool>, channel: seq<Message>)

  /** The name is put in normal form; a new name gets a new cell and is announced to the worker. */
  function RegisterEffect(v: AppView, raw: Name): (r: (AppView, int)) {
    match FixTracepointStr(raw)
    case None => (v, -1)
    case Some(name) =>
      if name in v.tracepoints then (v, -1)
      else (AppView(v.tracepoints[name := |v.flags|], v.flags + [false],
                    v.channel + [NewTracepoint(name, |v.flags|)]), 0)
  }

  predicate SubmittableLength(data: seq<byte>) {
    1 <= |data| <= MAX_SUBMIT_LEN
  }

  predicate TracepointEnabled(tracepoints: map<Name, nat>, flags: seq<bool>, name: Name) {
    name in tracepoints && Load(flags, tracepoints[name])
  }

  /** The element a submission becomes if its name is acceptable and its tracepoint enabled. */
  function Admit(
    tracepoints: map<Name, nat>, flags: seq<bool>, raw: Name, time: int, data: seq<byte>): Option<Element>
  {
    match FixTracepointStr(raw)
    case None => None
    case Some(name) =>
      if TracepointEnabled(tracepoints, flags, name) then Some(Element(name, time, data)) else None
  }

  // ----- the system -----

  /** A call of `tracy_submit` under way: past its connection check, or past all checks. */
  datatype Submission = Connected(raw: Name, data: seq<byte>) | Admitted(element: Element)

  /** `accepted` is history: the elements sent into the channel, in order. */
  datatype System = System(
    app: map<Name, nat>,
    appLive: bool,
    pending: map<nat, Submission>,
    channel: seq<Message>,
    accepted: seq<Element>,
    w: Worker)

  datatype Action =
    | Register(raw: Name)
    | SubmitCheckConnection(thread: nat, raw: Name, data: seq<byte>)
    | SubmitCheckFlag(thread: nat, time: int)
    | SubmitSend(thread: nat)
    | Finit
    | WakeChannel
    | Receive
    | Timeout(id: nat)
    | Accept(ok: bool)
    | Readable(input: Stream)
    | ReadOn

  function AppStep(s: System, a: Action): System
    requires s.appLive
  {
    match a
    case Register(raw) =>
      var v := RegisterEffect(AppView(s.app, s.w.flags, s.channel), raw).0;
      s.(app := v.tracepoints, channel := v.channel, w := s.w.(flags := v.flags))
    case SubmitCheckConnection(t, raw, data) =>
      if t !in s.pending && SubmittableLength(data) && s.w.clientConnected
      then s.(pending := s.pending[t := Connected(raw, data)])
      else s
    case SubmitCheckFlag(t, time) =>
      if t in s.pending && s.pending[t].Connected? then
        match Admit(s.app, s.w.flags, s.pending[t].raw, time, s.pending[t].data)
        case Some(e) => s.(pending := s.pending[t := Admitted(e)])
        case None => s.(pending := s.pending - {t})
      else s
    case SubmitSend(t) =>
      if t in s.pending && s.pending[t].Admitted? then
        s.(pending := s.pending - {t},
           channel := s.channel + [Payload(s.pending[t].element)],
           accepted := s.accepted + [s.pending[t].element])
      else s
    case Finit =>
      if s.pending == map[] then s.(appLive := false, channel := s.channel + [Terminate]) else s
    case _ => s
  }

  function WorkerStep(env: Env, s: System, a: Action): System
    requires s.w.health.Running?
  {
    match a
    case WakeChannel =>
      if s.w.phase.Idle? then s.(w := s.w.(phase := Draining)) else s
    case Receive =>
      if !s.w.phase.Draining? then s
      else if s.channel == [] then s.(w := s.w.(phase := Idle))
      else s.(channel := s.channel[1..], w := HandleMessage(env, s.w, s.channel[0]))
    case Timeout(id) =>
      if s.w.phase.Idle? && id in s.w.timers.armed then s.(w := HandleTimeout(env, s.w, id)) else s
    case Accept(ok) =>
      if s.w.phase.Idle? then s.(w := HandleAccept(s.w, ok)) else s
    case Readable(input) =>
      if s.w.phase.Idle? && s.w.sessions > 0 then s.(w := HandleReadable(s.w, input)) else s
    case ReadOn =>
      if Reading(s.w) then s.(w := ReadStep(env, s.w)) else s
    case _ => s
  }

  predicate IsAppAction(a: Action) {
    a.Register? || a.SubmitCheckConnection? || a.SubmitCheckFlag? || a.SubmitSend? || a.Finit?
  }

  /** An action that is not possible leaves the state as it is. */
  function Step(env: Env, s: System, a: Action): System {
    if IsAppAction(a) then (if s.appLive then AppStep(s, a) else s)
    else if s.w.health.Running? then WorkerStep(env, s, a)
    else s
  }

  function Run(env: Env, s: System, actions: seq<Action>): System
    decreases |actions|
  {
    if actions == [] then s else Run(env, Step(env, s, actions[0]), actions[1..])
  }

  /** `tracy_init`: nothing registered, nobody connected, announcing only if that was asked for. */
  function Init(announce: bool): System {
    var t := Timers(map[], 0, None, None);
    System(map[], true, map[], [], [],
           Worker([], 0, if announce then StartUdpTimer(t) else t, None, 0, false, map[], [],
                         Idle, Running, Past([], [], 0, false, false)))
  }

  lemma {:induction false} RunConcat(env: Env, s: System, a: seq<Action>, b: seq<Action>)
    ensures Run(env, s, a + b) == Run(env, Run(env, s, a), b)
    decreases |a|
  {
    if a == [] {
      assert a + b == b;
    } else {
      assert (a + b)[1..] == a[1..] + b;
      RunConcat(env, Step(env, s, a[0]), a[1..], b);
    }
  }
}
