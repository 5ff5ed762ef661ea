/**
 The tracer thread as a value: `TracerContext` (src/lib.rs:119-220), the event handlers
 (src/lib.rs:536-617) and the request reader (src/tcp_handler.rs:60-145, 266-455).
 Every handler is a function from one worker state to the next; the classes of `Context.dfy` do the
 same work in place and are proved to compute these functions. What the code cannot decide by itself
 comes from `Env`: the outcome of each socket write and the order in which a hash map lists its keys.
 */
module TracerThread {
  import opened Bytes
  import opened Names
  import opened Codec
  import opened Packing

  // ----- the environment -----

  /** A `write_all`: done, or stopped after `sent` bytes by WouldBlock or by another error. */
  datatype Outcome = Complete | WouldBlock(sent: nat) | Failed(sent: nat)

  datatype Env = Env(net: nat -> Outcome, keys: (nat, set<Name>) -> seq<Name>)

  ghost predicate Enumerates(order: seq<Name>, s: set<Name>) {
    && (forall n :: n in order <==> n in s)
    && (forall i, j :: 0 <= i < j < |order| ==> order[i] != order[j])
  }

  ghost predicate ValidEnv(env: Env) {
    forall i, s :: Enumerates(env.keys(i, s), s)
  }

  /** Some order of the elements of a set. */
  ghost function Listing(s: set<Name>): seq<Name> {
    if s == {} then [] else var n :| n in s; [n] + Listing(s - {n})
  }

  lemma {:induction false} ListingEnumerates(s: set<Name>)
    ensures Enumerates(Listing(s), s)
  {
    if s != {} {
      var n := Listing(s)[0];
      ListingEnumerates(s - {n});
      assert Listing(s) == [n] + Listing(s - {n});
    }
  }

  /** There are such environments, for any behaviour of the network. */
  lemma SomeEnvIsValid(net: nat -> Outcome) returns (env: Env)
    ensures ValidEnv(env) && env.net == net
  {
    env := Env(net, (i: nat, s: set<Name>) => Listing(s));
    forall i, s
      ensures Enumerates(env.keys(i, s), s)
    {
      ListingEnumerates(s);
    }
  }

  // ----- state -----

  datatype TimerKind = QueueTimer | AnnounceTimer

  /** What a frame handed to a socket carries. */
  datatype Cargo = Push(elements: seq<Element>) | ListReply(names: seq<Name>)

  function FrameOf(c: Cargo): seq<byte> {
    match c
    case Push(es) => Frame(TRACE_PUSH, PushBody(es))
    case ListReply(ns) => Frame(LIST_REPLY, EncodeNames(ns))
  }

  datatype Write = Write(session: nat, cargo: Cargo, outcome: Outcome)

  /** Where an `unwrap()` on a missing connection ends the thread. */
  datatype PanicSite = TraceWrite | ListWrite | SecondClose | ReadWithoutClient

  datatype Health = Running | Panicked(site: PanicSite) | Returned

  datatype StreamEnd = Blocked | Eof | Broken

  /**
   The receive side of a socket: the bytes that can be read now, the bursts that arrive after each
   further WouldBlock, and how reading ends.
   */
  datatype Stream = Stream(ready: seq<byte>, later: seq<seq<byte>>, end: StreamEnd)

  /** What the thread is doing: waiting in poll, draining the channel, or somewhere inside `receive`. */
  datatype Phase =
    | Idle
    | Draining
    | AtHeader(input: Stream)
    | AtName(input: Stream, count: nat, len: nat, state: bool)

  /** The timer wheel's armed entries by identity, and the two handles the context keeps. */
  datatype Timers = Timers(armed: map<nat, TimerKind>, next: nat, queue: Option<nat>, udp: Option<nat>)

  /**
   History, read by no handler except for the number of writes: all writes, all elements ever
   appended, the closes so far, whether buffered elements were carried over the last close with no
   payload since, and whether a flag was set after the last close.
   */
  datatype Past = Past(log: seq<Write>, appended: seq<Element>, closes: nat, carried: bool, lateStore: bool)

  /** `flags` holds the shared atomic cells; a cell is its index. */
  datatype Worker = Worker(
    buffer: seq<Element>,
    occupancy: nat,
    timers: Timers,
    connection: Option<nat>,
    sessions: nat,
    clientConnected: bool,
    tracepoints: map<Name, nat>,
    flags: seq<bool>,
    phase: Phase,
    health: Health,
    past: Past)

  // ----- TracerContext methods -----

  function Append(w: Worker, e: Element): Worker {
    w.(occupancy := w.occupancy + ElementLen(e), buffer := w.buffer + [e],
       past := w.past.(appended := w.past.appended + [e]))
  }

  function StartQueueTimer(t: Timers): Timers {
    if t.queue.Some? then t
    else t.(armed := t.armed[t.next := QueueTimer], queue := Some(t.next), next := t.next + 1)
  }

  function StopQueueTimer(t: Timers): Timers {
    if t.queue.None? then t else t.(armed := t.armed - {t.queue.value}, queue := None)
  }

  function StartUdpTimer(t: Timers): Timers {
    if t.udp.Some? then t
    else t.(armed := t.armed[t.next := AnnounceTimer], udp := Some(t.next), next := t.next + 1)
  }

  function StopUdpTimer(t: Timers): Timers {
    if t.udp.None? then t else t.(armed := t.armed - {t.udp.value}, udp := None)
  }

  function Load(flags: seq<bool>, cell: nat): bool {
    cell < |flags| && flags[cell]
  }

  function Store(flags: seq<bool>, cell: nat, v: bool): (r: seq<bool>)
    ensures |r| == |flags|
  {
    if cell < |flags| then flags[cell := v] else flags
  }

  function ClearCells(flags: seq<bool>, cells: set<nat>): (r: seq<bool>)
    ensures |r| == |flags|
    ensures forall c :: 0 <= c < |flags| ==> r[c] == (flags[c] && c !in cells)
  {
    seq(|flags|, c requires 0 <= c < |flags| => flags[c] && c !in cells)
  }

  function CloseAndClean(w: Worker): Worker {
    if w.connection.None? then w.(clientConnected := false, health := Panicked(SecondClose))
    else w.(clientConnected := false, connection := None,
            timers := StartUdpTimer(StopQueueTimer(w.timers)),
            flags := ClearCells(w.flags, w.tracepoints.Values),
            past := w.past.(closes := w.past.closes + 1, carried := w.buffer != [], lateStore := false))
  }

  function InsertTracepoint(w: Worker, name: Name, cell: nat): Worker {
    w.(tracepoints := w.tracepoints[name := cell])
  }

  // ----- sending -----

  /** `send_slices` on a live connection, followed by the caller's close if it reports an error. */
  function Transmit(env: Env, w: Worker, c: Cargo): Worker
    requires w.connection.Some?
  {
    var o := env.net(|w.past.log|);
    var w1 := w.(past := w.past.(log := w.past.log + [Write(w.connection.value, c, o)]));
    if o.Failed? then CloseAndClean(w1) else w1
  }

  /** One frame per group; the buffer keeps what no frame has taken yet. */
  function SendGroups(env: Env, w: Worker, groups: seq<seq<Element>>): Worker
    decreases groups
  {
    if groups == [] then w.(buffer := []) else
    var w1 := w.(buffer := Flatten(groups[1..]));
    if w.connection.None? then w1.(health := Panicked(TraceWrite)) else
    var w2 := Transmit(env, w1, Push(groups[0]));
    if w2.connection.None? then w2 else SendGroups(env, w2, groups[1..])
  }

  function SendTraceData(env: Env, w: Worker): Worker {
    SendGroups(env, w, Pack(w.buffer))
  }

  function SendTracepointList(env: Env, w: Worker): Worker {
    if w.connection.None? then w.(health := Panicked(ListWrite))
    else Transmit(env, w, ListReply(env.keys(|w.past.log|, w.tracepoints.Keys)))
  }

  // ----- channel, timer and listener events -----

  datatype Message = Payload(element: Element) | NewTracepoint(name: Name, cell: nat) | Terminate

  /** A payload is appended in any case, and ends the time of carried-over elements. */
  function TakeUp(w: Worker, e: Element): Worker {
    Append(w.(past := w.past.(carried := false)), e)
  }

  function HandlePayload(env: Env, w: Worker, e: Element): Worker {
    var w1 := TakeUp(w, e);
    if w1.occupancy > QUEUE_TOTAL_SIZE then SendTraceData(env, w1.(timers := StopQueueTimer(w1.timers)))
    else w1.(timers := StartQueueTimer(w1.timers))
  }

  function HandleMessage(env: Env, w: Worker, m: Message): Worker {
    match m
    case Payload(e) => HandlePayload(env, w, e)
    case NewTracepoint(name, cell) => InsertTracepoint(w, name, cell)
    case Terminate =>
      var w1 := if w.connection.Some? then SendTraceData(env, w) else w;
      w1.(health := Returned)
  }

  /** One `timer.poll()` that returned the entry `id`. */
  function HandleTimeout(env: Env, w: Worker, id: nat): Worker
    requires id in w.timers.armed
  {
    var t := w.timers.(armed := w.timers.armed - {id});
    match w.timers.armed[id]
    case QueueTimer => SendTraceData(env, w.(timers := t.(queue := None)))
    case AnnounceTimer => w.(timers := StartUdpTimer(t.(udp := None)))
  }

  /** A readable listener; `ok` says whether `accept` succeeds. */
  function HandleAccept(w: Worker, ok: bool): Worker {
    if w.connection.Some? then w
    else if ok then
      w.(connection := Some(w.sessions), sessions := w.sessions + 1, clientConnected := true,
         timers := StopUdpTimer(w.timers))
    else w.(timers := StopUdpTimer(w.timers))
  }

  // ----- reading requests -----

  datatype ReadResult = Got(bytes: seq<byte>) | NotNow | Gone

  /** `read_exact`: on failure the bytes that were there are consumed all the same. */
  function ReadExact(s: Stream, n: nat): (r: (ReadResult, Stream))
    ensures r.0.Got? ==> |r.0.bytes| == n && s.ready == r.0.bytes + r.1.ready && r.1.later == s.later
    ensures r.1.end == s.end
  {
    if |s.ready| >= n then (Got(s.ready[..n]), s.(ready := s.ready[n..]))
    else if s.later != [] then (NotNow, s.(ready := s.later[0], later := s.later[1..]))
    else (if s.end.Blocked? then NotNow else Gone, s.(ready := []))
  }

  datatype Command =
    | TracepointListRequest | TracepointListReply
    | TracepointEnableRequest | TracepointDisableRequest
    | TracePush | Invalid

  function CommandFromNumber(n: nat): Command {
    if n == LIST_REQUEST then TracepointListRequest
    else if n == ENABLE_REQUEST then TracepointEnableRequest
    else if n == DISABLE_REQUEST then TracepointDisableRequest
    else if n == LIST_REPLY then TracepointListReply
    else if n == TRACE_PUSH then TracePush
    else Invalid
  }

  /** Only the magic number and the flags can make a header fail. */
  function CheckParseHeader(h: seq<byte>): Option<(Command, nat)>
    requires |h| == HEADER_LEN
  {
    if h[..4] != MAGIC then None
    else if FromBytes(h[4..6]) != 0 then None
    else Some((CommandFromNumber(CommandOf(h)), LengthOf(h)))
  }

  /** The bytes every acceptable header starts with: "RuSt" and no flags. */
  predicate StartsWell(b: seq<byte>) {
    |b| >= 6 && b[..6] == [0x52, 0x75, 0x53, 0x74, 0, 0]
  }

  /** The check in terms of the bytes: which headers pass, and what number and length they carry. */
  lemma HeaderPassesIff(h: seq<byte>)
    requires |h| == HEADER_LEN
    ensures CheckParseHeader(h).Some? <==> StartsWell(h)
    ensures CheckParseHeader(h).Some? ==>
              CheckParseHeader(h).value == (CommandFromNumber(Number2(h[6], h[7])), Number4(h[8], h[9], h[10], h[11]))
  {
    FromTwo(h[4..6]);
    FromTwo(h[6..8]);
    FromFour(h[8..12]);
    assert h[..6] == h[..4] + h[4..6];
    assert [0x52, 0x75, 0x53, 0x74, 0, 0] == MAGIC + [0, 0];
    if StartsWell(h) {
      assert h[4] == h[..6][4] && h[5] == h[..6][5];
      assert h[..4] == h[..6][..4];
    } else if h[..4] == MAGIC {
      assert h[4..6] != [0, 0];
      assert h[4..6] == [h[4], h[5]];
    }
  }

  /** Which numbers are the requests a client may make. */
  lemma NumbersOfRequests(n: nat)
    ensures CommandFromNumber(n).TracepointListRequest? <==> n == 1
    ensures CommandFromNumber(n).TracepointEnableRequest? <==> n == 3
    ensures CommandFromNumber(n).TracepointDisableRequest? <==> n == 4
  {
  }

  /** `read_empty` after a rejected header: a read error there closes a second time. */
  function ReadEmpty(w: Worker, s: Stream): Worker {
    if s.later == [] && s.end.Broken? then CloseAndClean(w) else w
  }

  /** What `receive` does with an unacceptable header before it returns. */
  function RejectHeader(w: Worker, rest: Stream): Worker {
    var w1 := CloseAndClean(w).(phase := Idle);
    if w1.health.Panicked? then w1 else ReadEmpty(w1, rest)
  }

  /** `execute_command`: commands a client may not send are ignored, and so is their length field. */
  function ExecuteCommand(env: Env, w: Worker, cmd: Command, len: nat, rest: Stream): Worker {
    match cmd
    case TracepointListRequest => SendTracepointList(env, w).(phase := AtHeader(rest))
    case TracepointEnableRequest => w.(phase := AtName(rest, 0, len, true))
    case TracepointDisableRequest => w.(phase := AtName(rest, 0, len, false))
    case _ => w.(phase := AtHeader(rest))
  }

  /** What the next header read finds. */
  datatype HeaderRead = NoHeader | LostClient | BadHeader(rest: Stream) | Asked(cmd: Command, len: nat, rest: Stream)

  function NextHeader(s: Stream): HeaderRead {
    var (r, rest) := ReadExact(s, HEADER_LEN);
    match r
    case NotNow => NoHeader
    case Gone => LostClient
    case Got(h) =>
      match CheckParseHeader(h)
      case None => BadHeader(rest)
      case Some((cmd, len)) => Asked(cmd, len, rest)
  }

  /** One turn of the loop of `receive`. */
  function HeaderStep(env: Env, w: Worker, s: Stream): Worker {
    match NextHeader(s)
    case NoHeader => w.(phase := Idle)
    case LostClient => CloseAndClean(w).(phase := Idle)
    case BadHeader(rest) => RejectHeader(w, rest)
    case Asked(cmd, len, rest) => ExecuteCommand(env, w, cmd, len, rest)
  }

  /** Store into the cell of a registered name; any other name is ignored. */
  function SetFlag(w: Worker, name: Name, state: bool): Worker {
    if name in w.tracepoints then
      w.(flags := Store(w.flags, w.tracepoints[name], state),
         past := w.past.(lateStore := w.past.lateStore || (state && w.connection.None?)))
    else w
  }

  /** What the next turn of the name loop reads; its counter is a `u32`. */
  datatype NameRead = NoMore | Violation(rest: Stream) | OneName(name: Name, rest: Stream, count: nat)

  function NextName(s: Stream, count: nat, len: nat): NameRead {
    if count >= len then NoMore else
    var (r, s1) := ReadExact(s, 2);
    if !r.Got? then Violation(s1) else
    var n := FromBytes(r.bytes);
    if n > MAX_TRACEPOINT_NAME_LEN then Violation(s1) else
    var (q, s2) := ReadExact(s1, n);
    if !q.Got? then Violation(s2) else OneName(q.bytes, s2, ((count + 2) % U32 + n) % U32)
  }

  /** One turn of the loop of `set_tracepoints`; a violation closes, and `receive` reads on. */
  function NameStep(w: Worker, s: Stream, count: nat, len: nat, state: bool): Worker {
    match NextName(s, count, len)
    case NoMore => w.(phase := AtHeader(s))
    case Violation(rest) => CloseAndClean(w).(phase := AtHeader(rest))
    case OneName(name, rest, count') =>
      SetFlag(w, LookupKey(name), state).(phase := AtName(rest, count', len, state))
  }

  predicate Reading(w: Worker) {
    w.health.Running? && (w.phase.AtHeader? || w.phase.AtName?)
  }

  function ReadStep(env: Env, w: Worker): Worker
    requires Reading(w)
  {
    match w.phase
    case AtHeader(s) => HeaderStep(env, w, s)
    case AtName(s, count, len, state) => NameStep(w, s, count, len, state)
  }

  /** A readable client socket: `receive` unwraps the connection before anything else. */
  function HandleReadable(w: Worker, s: Stream): Worker {
    if w.connection.None? then w.(health := Panicked(ReadWithoutClient)) else w.(phase := AtHeader(s))
  }

  // ----- running receive to its end -----

  function Weight(s: Stream): nat {
    |s.ready| + LaterWeight(s.later)
  }

  function LaterWeight(later: seq<seq<byte>>): nat {
    if later == [] then 0 else 1 + |later[0]| + LaterWeight(later[1..])
  }

  function Rank(p: Phase): nat {
    match p
    case AtHeader(s) => 2 * Weight(s) + 1
    case AtName(s, _, _, _) => 2 * Weight(s) + 2
    case _ => 0
  }

  lemma ReadExactWeight(s: Stream, n: nat)
    ensures var (r, rest) := ReadExact(s, n);
            && (r.Got? ==> Weight(rest) == Weight(s) - n)
            && (!r.Got? ==> Weight(rest) <= Weight(s))
  {
  }

  lemma NextHeaderWeight(s: Stream)
    ensures NextHeader(s).Asked? ==> Weight(NextHeader(s).rest) + HEADER_LEN == Weight(s)
  {
    ReadExactWeight(s, HEADER_LEN);
  }

  lemma HeaderStepRanksDown(env: Env, w: Worker, s: Stream)
    ensures Rank(HeaderStep(env, w, s).phase) < Rank(AtHeader(s))
  {
    NextHeaderWeight(s);
  }

  lemma NextNameWeight(s: Stream, count: nat, len: nat)
    ensures var r := NextName(s, count, len);
            && (r.OneName? ==> Weight(r.rest) + 2 + |r.name| == Weight(s))
            && (r.Violation? ==> Weight(r.rest) <= Weight(s))
  {
    ReadExactWeight(s, 2);
    var (r, s1) := ReadExact(s, 2);
    if r.Got? {
      ReadExactWeight(s1, FromBytes(r.bytes));
    }
  }

  lemma NameStepRanksDown(w: Worker, s: Stream, count: nat, len: nat, state: bool)
    ensures Rank(NameStep(w, s, count, len, state).phase) < Rank(AtName(s, count, len, state))
  {
    NextNameWeight(s, count, len);
  }

  lemma ReadStepRanksDown(env: Env, w: Worker)
    requires Reading(w)
    ensures Rank(ReadStep(env, w).phase) < Rank(w.phase)
  {
    match w.phase
    case AtHeader(s) => HeaderStepRanksDown(env, w, s);
    case AtName(s, count, len, state) => NameStepRanksDown(w, s, count, len, state);
  }

  /** All of `receive`, from wherever it stands. */
  function FinishReceive(env: Env, w: Worker): Worker
    decreases Rank(w.phase)
  {
    if !Reading(w) then w
    else
      ReadStepRanksDown(env, w);
      FinishReceive(env, ReadStep(env, w))
  }

  /** All of `set_tracepoints`, from wherever it stands. */
  function FinishNames(w: Worker): Worker
    decreases Rank(w.phase)
  {
    if !w.health.Running? || !w.phase.AtName? then w
    else
      var w1 := NameStep(w, w.phase.input, w.phase.count, w.phase.len, w.phase.state);
      NameStepRanksDown(w, w.phase.input, w.phase.count, w.phase.len, w.phase.state);
      FinishNames(w1)
  }

  /** The first `k` steps of `receive`, fewer if it ends before. */
  function ReadSteps(env: Env, w: Worker, k: nat): Worker
    decreases k
  {
    if k == 0 || !Reading(w) then w else ReadSteps(env, ReadStep(env, w), k - 1)
  }

  /** `receive` gets from `w` to `w1`. */
  ghost predicate ReadsTo(env: Env, w: Worker, w1: Worker) {
    exists k :: ReadSteps(env, w, k) == w1
  }

  lemma ReadsNothing(env: Env, w: Worker)
    ensures ReadsTo(env, w, w)
  {
    assert ReadSteps(env, w, 0) == w;
  }

  lemma ReadsOnce(env: Env, w: Worker, w1: Worker)
    requires Reading(w) && ReadStep(env, w) == w1
    ensures ReadsTo(env, w, w1)
  {
    assert ReadSteps(env, w1, 0) == w1;
    assert ReadSteps(env, w, 1) == w1;
  }

  lemma {:induction false} ReadStepsCompose(env: Env, w: Worker, a: nat, b: nat)
    ensures ReadSteps(env, w, a + b) == ReadSteps(env, ReadSteps(env, w, a), b)
    decreases a
  {
    if a != 0 && Reading(w) {
      ReadStepsCompose(env, ReadStep(env, w), a - 1, b);
    }
  }

  lemma ReadsFurther(env: Env, w: Worker, w1: Worker, w2: Worker)
    requires ReadsTo(env, w, w1) && ReadsTo(env, w1, w2)
    ensures ReadsTo(env, w, w2)
  {
    var a :| ReadSteps(env, w, a) == w1;
    var b :| ReadSteps(env, w1, b) == w2;
    ReadStepsCompose(env, w, a, b);
  }

  lemma {:induction false} ReadStepsFinish(env: Env, w: Worker, k: nat)
    ensures FinishReceive(env, ReadSteps(env, w, k)) == FinishReceive(env, w)
    decreases k
  {
    if k != 0 && Reading(w) {
      ReadStepsFinish(env, ReadStep(env, w), k - 1);
    }
  }

  lemma ReadsToFinish(env: Env, w: Worker, w1: Worker)
    requires ReadsTo(env, w, w1)
    ensures FinishReceive(env, w) == FinishReceive(env, w1)
  {
    var k :| ReadSteps(env, w, k) == w1;
    ReadStepsFinish(env, w, k);
  }

  lemma {:induction false} NamesThenReceive(env: Env, w: Worker)
    ensures FinishReceive(env, FinishNames(w)) == FinishReceive(env, w)
    decreases Rank(w.phase)
  {
    if w.health.Running? && w.phase.AtName? {
      ReadStepRanksDown(env, w);
      NamesThenReceive(env, ReadStep(env, w));
    }
  }

  // ----- whole events -----

  /** One readiness event of the poll loop; `due` are the timer entries that have expired. */
  datatype Event = ChannelReady | TimerReady(due: seq<nat>) | ListenerReady(ok: bool) | ClientReady(input: Stream)

  function Drain(env: Env, w: Worker, channel: seq<Message>): (Worker, seq<Message>)
    decreases |channel|
  {
    if channel == [] || !w.health.Running? then (w, channel)
    else Drain(env, HandleMessage(env, w, channel[0]), channel[1..])
  }

  function FireAll(env: Env, w: Worker, due: seq<nat>): Worker
    decreases |due|
  {
    if due == [] || !w.health.Running? then w
    else FireAll(env, if due[0] in w.timers.armed then HandleTimeout(env, w, due[0]) else w, due[1..])
  }

  function HandleEvent(env: Env, w: Worker, channel: seq<Message>, e: Event): (Worker, seq<Message>) {
    match e
    case ChannelReady => Drain(env, w, channel)
    case TimerReady(due) => (FireAll(env, w, due), channel)
    case ListenerReady(ok) => (HandleAccept(w, ok), channel)
    case ClientReady(input) => (FinishReceive(env, HandleReadable(w, input)).(phase := Idle), channel)
  }

  function HandleEvents(env: Env, w: Worker, channel: seq<Message>, events: seq<Event>): (Worker, seq<Message>)
    decreases |events|
  {
    if events == [] || !w.health.Running? then (w, channel)
    else
      var (w1, channel1) := HandleEvent(env, w, channel, events[0]);
      HandleEvents(env, w1, channel1, events[1..])
  }
}
