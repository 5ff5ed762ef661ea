/**
 The tracer thread in place: `TracerContext` (src/lib.rs:119-220), the event handlers
 (src/lib.rs:536-617) and the request reader (src/tcp_handler.rs:60-374) as classes whose methods
 update their fields. Every method is proved to compute the function of the same name in
 `TracerThread`; a panic is recorded in `health` and ends the method.
 */
module Context {
  import opened Bytes
  import opened Names
  import opened Codec
  import opened Packing
  import opened TracerThread
  import opened WorkerInvariants
  import opened Requests
  import opened Handlers
  import opened Encoder

  /** What both threads hold through `Arc`s and the channel: cells are indices into `flags`. */
  class Shared {
    var flags: seq<bool>
    var clientConnected: bool
    var channel: seq<Message>

    constructor ()
      ensures flags == [] && !clientConnected && channel == []
    {
      flags, clientConnected, channel := [], false, [];
    }
  }

  /** `BufReader<TcpStream>` over a clone of the client's socket. */
  class BufReader {
    var stream: Stream

    constructor (s: Stream)
      ensures stream == s
    {
      stream := s;
    }

    method ReadExact(n: nat) returns (r: ReadResult)
      modifies this
      ensures (r, stream) == TracerThread.ReadExact(old(stream), n)
    {
      if |stream.ready| >= n {
        r := Got(stream.ready[..n]);
        stream := stream.(ready := stream.ready[n..]);
      } else if stream.later != [] {
        r := NotNow;
        stream := stream.(ready := stream.later[0], later := stream.later[1..]);
      } else {
        r := if stream.end.Blocked? then NotNow else Gone;
        stream := stream.(ready := []);
      }
    }
  }

  /** `check_parse_header`: the fields are copied out byte by byte, then checked. */
  method ParseHeader(header: seq<byte>) returns (r: Option<(Command, nat)>)
    requires |header| == HEADER_LEN
    ensures r == CheckParseHeader(header)
    ensures r.Some? <==> StartsWell(header)
    ensures r.Some? ==>
              r.value == (CommandFromNumber(Number2(header[6], header[7])),
                          Number4(header[8], header[9], header[10], header[11]))
  {
    HeaderPassesIff(header);
    var magic, flags, command, length := new byte[4], new byte[2], new byte[2], new byte[4];
    for i := 0 to 4
      invariant magic[..i] == header[..i]
    {
      magic[i] := header[i];
    }
    assert magic[..] == magic[..4] == header[..4];
    if magic[..] != MAGIC { return None; }
    for i := 4 to 6
      invariant flags[..i - 4] == header[4..i]
    {
      flags[i - 4] := header[i];
    }
    assert flags[..] == flags[..2];
    for i := 6 to 8
      invariant command[..i - 6] == header[6..i] && flags[..] == header[4..6]
    {
      command[i - 6] := header[i];
    }
    assert command[..] == command[..2];
    for i := 8 to 12
      invariant length[..i - 8] == header[8..i] && flags[..] == header[4..6] && command[..] == header[6..8]
    {
      length[i - 8] := header[i];
    }
    assert length[..] == length[..4];
    if FromBytes(flags[..]) != 0 { return None; }
    r := Some((CommandFromNumber(FromBytes(command[..])), FromBytes(length[..])));
  }

  class TracerContext {
    const env: Env
    const shared: Shared
    var buffer: seq<Element>
    var bufferOccupancy: nat
    var timer: map<nat, TimerKind>
    var nextTimeout: nat
    var queueTimeout: Option<nat>
    var udpTimeout: Option<nat>
    var connection: Option<nat>
    var sessions: nat
    var tracepoints: map<Name, nat>
    var writes: nat
    var health: Health
    ghost var past: Past

    ghost function Timers(): TracerThread.Timers
      reads this
    {
      TracerThread.Timers(timer, nextTimeout, queueTimeout, udpTimeout)
    }

    /** The value this object stands for, between two events. */
    ghost function State(): Worker
      reads this, shared
    {
      Worker(buffer, bufferOccupancy, Timers(), connection, sessions, shared.clientConnected,
             tracepoints, shared.flags, Idle, health, past)
    }

    ghost predicate Valid()
      reads this
    {
      writes == |past.log|
    }

    constructor (env: Env, shared: Shared, announce: bool)
      requires !shared.clientConnected && shared.flags == []
      ensures Valid() && this.env == env && this.shared == shared
      ensures Timers() == (var t := TracerThread.Timers(map[], 0, None, None);
                           if announce then StartUdpTimer(t) else t)
      ensures State() == Worker([], 0, Timers(), None, 0, false, map[], [], Idle, Running,
                                Past([], [], 0, false, false))
    {
      this.env, this.shared := env, shared;
      buffer, bufferOccupancy := [], 0;
      timer, nextTimeout, queueTimeout, udpTimeout := map[], 0, None, None;
      connection, sessions, tracepoints, writes, health := None, 0, map[], 0, Running;
      past := Past([], [], 0, false, false);
      new;
      if announce {
        CheckStartUdpTimer();
      }
    }

    method Append(e: Element)
      modifies this`buffer, this`bufferOccupancy, this`past
      requires Valid()
      ensures Valid() && State() == TracerThread.Append(old(State()), e)
    {
      bufferOccupancy := bufferOccupancy + ElementLen(e);
      buffer := buffer + [e];
      past := past.(appended := past.appended + [e]);
    }

    method CheckStartQueueTimer()
      modifies this`timer, this`nextTimeout, this`queueTimeout
      ensures Timers() == StartQueueTimer(old(Timers()))
    {
      if queueTimeout.None? {
        timer := timer[nextTimeout := QueueTimer];
        queueTimeout := Some(nextTimeout);
        nextTimeout := nextTimeout + 1;
      }
    }

    method CheckStopQueueTimer()
      modifies this`timer, this`queueTimeout
      ensures Timers() == StopQueueTimer(old(Timers()))
    {
      var tmp := queueTimeout;
      if tmp.Some? {
        timer := timer - {tmp.value};
      }
      queueTimeout := None;
    }

    method CheckStartUdpTimer()
      modifies this`timer, this`nextTimeout, this`udpTimeout
      ensures Timers() == StartUdpTimer(old(Timers()))
    {
      if udpTimeout.None? {
        timer := timer[nextTimeout := AnnounceTimer];
        udpTimeout := Some(nextTimeout);
        nextTimeout := nextTimeout + 1;
      }
    }

    method CheckStopUdpTimer()
      modifies this`timer, this`udpTimeout
      ensures Timers() == StopUdpTimer(old(Timers()))
    {
      var tmp := udpTimeout;
      if tmp.Some? {
        timer := timer - {tmp.value};
      }
      udpTimeout := None;
    }

    /** Store false into every cell of the worker's map, one after the other. */
    method ClearFlags()
      modifies shared`flags
      ensures shared.flags == ClearCells(old(shared.flags), tracepoints.Values)
    {
      var cells := tracepoints.Values;
      ghost var was := shared.flags;
      assert shared.flags == ClearCells(was, tracepoints.Values - cells);
      while cells != {}
        invariant cells <= tracepoints.Values
        invariant shared.flags == ClearCells(was, tracepoints.Values - cells)
        decreases cells
      {
        var c :| c in cells;
        shared.flags := Store(shared.flags, c, false);
        cells := cells - {c};
        assert shared.flags == ClearCells(was, tracepoints.Values - cells);
      }
    }

    method CloseAndCleanConnection()
      modifies this, shared`clientConnected, shared`flags
      requires Valid()
      ensures Valid() && State() == CloseAndClean(old(State()))
    {
      shared.clientConnected := false;
      if connection.None? {
        health := Panicked(SecondClose);
        return;
      }
      connection := None;
      past := past.(closes := past.closes + 1, carried := buffer != [], lateStore := false);
      CheckStopQueueTimer();
      ClearFlags();
      CheckStartUdpTimer();
    }

    method InsertTracepoint(name: Name, cell: nat)
      modifies this`tracepoints
      ensures State() == TracerThread.InsertTracepoint(old(State()), name, cell)
    {
      tracepoints := tracepoints[name := cell];
    }

    method EstablishConnection(ok: bool)
      modifies this`connection, this`sessions, shared`clientConnected
      ensures connection == (if ok then Some(old(sessions)) else old(connection))
      ensures sessions == old(sessions) + (if ok then 1 else 0)
      ensures shared.clientConnected == (ok || old(shared.clientConnected))
    {
      if ok {
        connection := Some(sessions);
        sessions := sessions + 1;
        shared.clientConnected := true;
      }
    }

    // ----- sending -----

    /** One `write_all` of a whole frame; without a connection it panics at `site`. */
    method SendSlices(que: seq<byte>, site: PanicSite, ghost cargo: Cargo) returns (ok: bool)
      modifies this`writes, this`health, this`past
      requires Valid() && que == FrameOf(cargo)
      ensures Valid()
      ensures old(connection).None? ==> !ok && State() == old(State()).(health := Panicked(site))
      ensures old(connection).Some? ==>
                var o := env.net(|old(past).log|);
                && ok == !o.Failed?
                && State() == old(State()).(past := old(past).(
                     log := old(past).log + [Write(old(connection).value, cargo, o)]))
    {
      if connection.None? {
        health := Panicked(site);
        return false;
      }
      var o := env.net(writes);
      past := past.(log := past.log + [Write(connection.value, cargo, o)]);
      writes := writes + 1;
      ok := !o.Failed?;
    }

    /** Send one frame and close on error: one step of `SendGroups`, or `Transmit`. */
    method SendFrame(que: seq<byte>, site: PanicSite, ghost cargo: Cargo) returns (goOn: bool)
      modifies this, shared`clientConnected, shared`flags
      requires Valid() && health.Running? && que == FrameOf(cargo)
      ensures Valid() && goOn == connection.Some?
      ensures State() == if old(connection).None? then old(State()).(health := Panicked(site))
                         else Transmit(env, old(State()), cargo)
    {
      var ok := SendSlices(que, site, cargo);
      if !ok && !health.Panicked? {
        CloseAndCleanConnection();
      }
      goOn := connection.Some?;
    }

    /** Header to the front, then send: one push frame. */
    method Flush(body: seq<byte>, ghost cur: seq<Element>) returns (goOn: bool)
      modifies this, shared`clientConnected, shared`flags
      requires Valid() && health.Running? && body == PushBody(cur)
      ensures Valid() && goOn == connection.Some?
      ensures State() == if old(connection).None? then old(State()).(health := Panicked(TraceWrite))
                         else Transmit(env, old(State()), Push(cur))
    {
      var que := PushFrontHeader(body, TRACE_PUSH);
      goOn := SendFrame(que, TraceWrite, Push(cur));
    }

    /** The greedy loop sends exactly the groups of `Pack`; it ends because every element fits. */
    method SendTraceData()
      modifies this, shared`clientConnected, shared`flags
      requires Valid() && health.Running? && AllFit(buffer)
      ensures Valid() && State() == TracerThread.SendTraceData(env, old(State()))
    {
      var que: seq<byte> := [];
      var lastWasComplete := true;
      ghost var cur: seq<Element> := [];
      ghost var goal := TracerThread.SendTraceData(env, State());
      while buffer != []
        invariant Valid() && health.Running? && AllFit(buffer)
        invariant que == PushBody(cur) && (lastWasComplete <==> cur == [])
        invariant StillToSend(env, State(), cur, goal)
        decreases |buffer|, |cur|
      {
        var front := buffer[0];
        if ElementLen(front) + |que| + HEADER_LEN < QUEUE_TOTAL_SIZE {
          TakeOne(env, State(), cur, goal);
          buffer := buffer[1..];
          que := EncodeAppendTraceData(que, front);
          lastWasComplete := false;
          cur := cur + [front];
        } else {
          SendFull(env, State(), cur, goal);
          var goOn := Flush(que, cur);
          if !goOn { return; }
          que := [];
          cur := [];
          lastWasComplete := true;
        }
      }
      if !lastWasComplete {
        SendLast(env, State(), cur, goal);
        var _ := Flush(que, cur);
      }
    }

    method SendTracepointList()
      modifies this, shared`clientConnected, shared`flags
      requires Valid() && health.Running?
      ensures Valid() && State() == TracerThread.SendTracepointList(env, old(State()))
    {
      var names := env.keys(writes, tracepoints.Keys);
      var msg := EncodeNameList(names);
      msg := PushFrontHeader(msg, LIST_REPLY);
      var _ := SendFrame(msg, ListWrite, ListReply(names));
    }

    // ----- receiving -----

    /** Store into the cell of a registered name. */
    method StoreFlag(name: Name, state: bool)
      modifies shared`flags, this`past
      requires Valid()
      ensures Valid() && State() == SetFlag(old(State()), name, state)
    {
      if name in tracepoints {
        shared.flags := Store(shared.flags, tracepoints[name], state);
        past := past.(lateStore := past.lateStore || (state && connection.None?));
      }
    }

    /** One turn's reading in the name loop, with its `u32` counter. */
    method ReadName(reader: BufReader, i: nat, len: nat) returns (r: NameRead)
      modifies reader
      requires i < len
      ensures r == NextName(old(reader.stream), i, len) && !r.NoMore? && reader.stream == r.rest
    {
      var lenBytes := reader.ReadExact(2);
      if !lenBytes.Got? { return Violation(reader.stream); }
      var nameLen := FromBytes(lenBytes.bytes);
      var count := (i + 2) % U32;
      if nameLen > MAX_TRACEPOINT_NAME_LEN { return Violation(reader.stream); }
      var name := reader.ReadExact(nameLen);
      if !name.Got? { return Violation(reader.stream); }
      count := (count + nameLen) % U32;
      r := OneName(name.bytes, reader.stream, count);
    }

    /** The name loop; it ends in every case because each turn reads at least two bytes or closes. */
    method SetTracepoints(len: nat, reader: BufReader, state: bool)
      modifies this, shared`clientConnected, shared`flags, reader
      requires Valid() && health.Running?
      ensures Valid()
      ensures State().(phase := AtHeader(reader.stream)) ==
              FinishNames(old(State()).(phase := AtName(old(reader.stream), 0, len, state)))
    {
      var i: nat := 0;
      ghost var goal := FinishNames(State().(phase := AtName(reader.stream, 0, len, state)));
      while i < len
        invariant Valid() && health.Running?
        invariant NamesLeft(State(), reader.stream, i, len, state, goal)
        decreases Weight(reader.stream)
      {
        NameTurn(State(), reader.stream, i, len, state, goal);
        NextNameWeight(reader.stream, i, len);
        var r := ReadName(reader, i, len);
        if r.Violation? {
          CloseAndCleanConnection();
          return;
        }
        i := r.count;
        StoreFlag(LookupKey(r.name), state);
      }
      NoNamesLeft(State(), reader.stream, i, len, state, goal);
    }

    /** Throw away what can be read; a read error closes once more. */
    method DiscardInput(reader: BufReader)
      modifies this, shared`clientConnected, shared`flags, reader
      requires Valid()
      ensures Valid() && State() == ReadEmpty(old(State()), old(reader.stream))
    {
      while reader.stream.ready != []
        invariant reader.stream == old(reader.stream).(ready := reader.stream.ready)
        invariant Valid() && State() == old(State())
        decreases |reader.stream.ready|
      {
        var n := Min(64, |reader.stream.ready|);
        reader.stream := reader.stream.(ready := reader.stream.ready[n..]);
      }
      if reader.stream.later == [] && reader.stream.end.Broken? {
        CloseAndCleanConnection();
      }
    }

    method ExecuteCommand(cmd: Command, len: nat, reader: BufReader)
      modifies this, shared`clientConnected, shared`flags, reader
      requires Valid() && health.Running?
      ensures Valid()
      ensures State().(phase := AtHeader(reader.stream)) ==
              FinishNames(TracerThread.ExecuteCommand(env, old(State()), cmd, len, old(reader.stream)))
    {
      match cmd
      case TracepointListRequest => SendTracepointList();
      case TracepointEnableRequest => SetTracepoints(len, reader, true);
      case TracepointDisableRequest => SetTracepoints(len, reader, false);
      case _ =>
    }

    /** One header, read and checked. */
    method ReadHeader(reader: BufReader) returns (r: HeaderRead)
      modifies reader
      ensures r == NextHeader(old(reader.stream))
      ensures r.BadHeader? || r.Asked? ==> reader.stream == r.rest
    {
      var header := reader.ReadExact(HEADER_LEN);
      match header
      case NotNow => r := NoHeader;
      case Gone => r := LostClient;
      case Got(bytes) =>
        var parsed := ParseHeader(bytes);
        r := if parsed.None? then BadHeader(reader.stream)
             else Asked(parsed.value.0, parsed.value.1, reader.stream);
    }

    /** `receive` does what the step machine does when it is run to its end. */
    method Receive(reader: BufReader)
      modifies this, shared`clientConnected, shared`flags, reader
      requires Valid() && health.Running?
      ensures Valid()
      ensures State() == FinishReceive(env, HandleReadable(old(State()), old(reader.stream))).(phase := Idle)
    {
      if connection.None? {
        health := Panicked(ReadWithoutClient);
        return;
      }
      ghost var goal := FinishReceive(env, State().(phase := AtHeader(reader.stream)));
      while true
        invariant Valid() && health.Running?
        invariant RequestsLeft(env, State(), reader.stream, goal)
        decreases Weight(reader.stream)
      {
        ghost var w, s := State(), reader.stream;
        NextHeaderWeight(s);
        var r := ReadHeader(reader);
        if !r.Asked? {
          LastHeader(env, w, s, goal);
          if !r.NoHeader? {
            CloseAndCleanConnection();
            if r.BadHeader? && health.Running? {
              DiscardInput(reader);
            }
          }
          return;
        }
        ExecuteCommand(r.cmd, r.len, reader);
        NamesWeight(env, w, r);
        CommandTurn(env, w, s, State(), reader.stream, goal);
        if !health.Running? { return; }
      }
    }

    // ----- event handlers -----

    method ChannelDataHandler(e: Element)
      modifies this, shared`clientConnected, shared`flags
      requires Valid() && health.Running? && AllFit(buffer) && HasSpace(0, e)
      ensures Valid() && State() == HandlePayload(env, old(State()), e)
    {
      past := past.(carried := false);
      Append(e);
      if bufferOccupancy > QUEUE_TOTAL_SIZE {
        CheckStopQueueTimer();
        SendTraceData();
      } else {
        CheckStartQueueTimer();
      }
    }

    method HandleOne(m: Message)
      modifies this, shared`clientConnected, shared`flags
      requires Valid() && health.Running? && AllFit(buffer) && (m.Payload? ==> HasSpace(0, m.element))
      ensures Valid() && State() == HandleMessage(env, old(State()), m)
      ensures AllFit(buffer)
    {
      MessageKeepsFit(env, State(), m);
      match m
      case Payload(e) => ChannelDataHandler(e);
      case NewTracepoint(name, cell) => InsertTracepoint(name, cell);
      case Terminate =>
        if connection.Some? {
          SendTraceData();
        }
        health := Returned;
    }

    /** Drain the channel; `Terminate` ends the thread after one last send. */
    method ChannelHandler()
      modifies this, shared
      requires Valid() && health.Running? && AllFit(buffer) && MessagesFit(shared.channel)
      ensures Valid() && AllFit(buffer) && MessagesFit(shared.channel)
      ensures (State(), shared.channel) == Drain(env, old(State()), old(shared.channel))
      ensures TookUpAll(old(State()), old(shared.channel), State(), shared.channel)
    {
      ghost var goal := Drain(env, State(), shared.channel);
      DrainTakesUpAll(env, State(), shared.channel);
      while health.Running? && shared.channel != []
        invariant Valid() && AllFit(buffer) && MessagesFit(shared.channel)
        invariant Drain(env, State(), shared.channel) == goal
        decreases |shared.channel|
      {
        var data := shared.channel[0];
        shared.channel := shared.channel[1..];
        HandleOne(data);
      }
    }

    /** `timer.poll()` until nothing is due any more; an entry cancelled meanwhile does not fire. */
    method TimerHandler(due: seq<nat>)
      modifies this, shared`clientConnected, shared`flags
      requires Valid() && health.Running? && AllFit(buffer)
      ensures Valid() && AllFit(buffer)
      ensures State() == FireAll(env, old(State()), due)
      ensures health.Running? ==> forall id :: id in due && id < old(nextTimeout) ==> id !in timer
    {
      ghost var goal := FireAll(env, State(), due);
      AllDueFire(env, State(), due);
      var left := due;
      while left != [] && health.Running?
        invariant Valid() && AllFit(buffer)
        invariant FireAll(env, State(), left) == goal
        decreases |left|
      {
        var id := left[0];
        left := left[1..];
        if id in timer {
          TimeoutKeepsFit(env, State(), id);
          var kind := timer[id];
          timer := timer - {id};
          match kind
          case QueueTimer =>
            queueTimeout := None;
            SendTraceData();
          case AnnounceTimer =>
            udpTimeout := None;
            CheckStartUdpTimer();
        }
      }
    }

    method ListenerHandler(ok: bool)
      modifies this, shared`clientConnected
      requires Valid()
      ensures Valid() && buffer == old(buffer) && State() == HandleAccept(old(State()), ok)
    {
      if connection.None? {
        EstablishConnection(ok);
        CheckStopUdpTimer();
      }
    }

    /** A batch of readiness events, in order, until the thread ends. */
    method EventHandler(events: seq<Event>)
      modifies this, shared
      requires Valid() && health.Running? && AllFit(buffer) && MessagesFit(shared.channel)
      ensures Valid() && AllFit(buffer) && MessagesFit(shared.channel)
      ensures (State(), shared.channel) == HandleEvents(env, old(State()), old(shared.channel), events)
    {
      ghost var goal := HandleEvents(env, State(), shared.channel, events);
      var left := events;
      while left != [] && health.Running?
        invariant Valid() && AllFit(buffer) && MessagesFit(shared.channel)
        invariant HandleEvents(env, State(), shared.channel, left) == goal
        decreases |left|
      {
        var event := left[0];
        left := left[1..];
        match event
        case ChannelReady => ChannelHandler();
        case TimerReady(due) => TimerHandler(due);
        case ListenerReady(ok) => ListenerHandler(ok);
        case ClientReady(input) =>
          ReceiveKeepsBuffer(env, HandleReadable(State(), input));
          var reader := new BufReader(input);
          Receive(reader);
      }
    }
  }

  predicate MessagesFit(channel: seq<Message>) {
    forall i :: 0 <= i < |channel| && channel[i].Payload? ==> HasSpace(0, channel[i].element)
  }

  lemma {:induction false} SendKeepsFit(env: Env, w: Worker, groups: seq<seq<Element>>)
    requires AllFit(Flatten(groups))
    ensures AllFit(SendGroups(env, w, groups).buffer)
    decreases |groups|
  {
    if groups != [] {
      var f, r := Flatten(groups), Flatten(groups[1..]);
      assert forall k :: 0 <= k < |r| ==> r[k] == f[|groups[0]| + k];
      if w.connection.Some? {
        SendKeepsFit(env, Transmit(env, w.(buffer := r), Push(groups[0])), groups[1..]);
      }
    }
  }

  lemma SendTraceDataKeepsFit(env: Env, w: Worker)
    requires AllFit(w.buffer)
    ensures AllFit(TracerThread.SendTraceData(env, w).buffer)
  {
    PackKeepsElements([], w.buffer);
    assert [] + w.buffer == w.buffer;
    SendKeepsFit(env, w, Pack(w.buffer));
  }

  lemma MessageKeepsFit(env: Env, w: Worker, m: Message)
    requires AllFit(w.buffer) && (m.Payload? ==> HasSpace(0, m.element))
    ensures AllFit(HandleMessage(env, w, m).buffer)
  {
    match m
    case Payload(e) =>
      var w1 := TakeUp(w, e);
      SendTraceDataKeepsFit(env, w1.(timers := StopQueueTimer(w1.timers)));
    case NewTracepoint(_, _) =>
    case Terminate => SendTraceDataKeepsFit(env, w);
  }

  lemma TimeoutKeepsFit(env: Env, w: Worker, id: nat)
    requires AllFit(w.buffer) && id in w.timers.armed
    ensures AllFit(HandleTimeout(env, w, id).buffer)
  {
    SendTraceDataKeepsFit(env, w.(timers := w.timers.(armed := w.timers.armed - {id}, queue := None)));
  }

  lemma CommandKeepsBuffer(env: Env, w: Worker, cmd: Command, len: nat, rest: Stream)
    ensures TracerThread.ExecuteCommand(env, w, cmd, len, rest).buffer == w.buffer
  {
  }

  lemma StepKeepsBuffer(env: Env, w: Worker)
    requires Reading(w)
    ensures ReadStep(env, w).buffer == w.buffer
  {
    if w.phase.AtHeader? && NextHeader(w.phase.input).Asked? {
      var h := NextHeader(w.phase.input);
      CommandKeepsBuffer(env, w, h.cmd, h.len, h.rest);
    }
  }

  lemma {:induction false} ReceiveKeepsBuffer(env: Env, w: Worker)
    ensures FinishReceive(env, w).buffer == w.buffer
    decreases Rank(w.phase)
  {
    if Reading(w) {
      ReadStepRanksDown(env, w);
      StepKeepsBuffer(env, w);
      ReceiveKeepsBuffer(env, ReadStep(env, w));
    }
  }

  /** The rest of the name loop leads to `goal`. */
  ghost predicate NamesLeft(w: Worker, s: Stream, count: nat, len: nat, state: bool, goal: Worker) {
    FinishNames(w.(phase := AtName(s, count, len, state))) == goal
  }

  lemma NameTurn(w: Worker, s: Stream, count: nat, len: nat, state: bool, goal: Worker)
    requires w.health.Running? && w.phase.Idle? && count < len && NamesLeft(w, s, count, len, state, goal)
    ensures var next := NextName(s, count, len);
            && (next.Violation? ==> goal == CloseAndClean(w).(phase := AtHeader(next.rest)))
            && (next.OneName? ==>
                  NamesLeft(SetFlag(w, LookupKey(next.name), state), next.rest, next.count, len, state, goal))
  {
    var w0 := w.(phase := AtName(s, count, len, state));
    assert FinishNames(w0) == FinishNames(NameStep(w0, s, count, len, state));
  }

  lemma NoNamesLeft(w: Worker, s: Stream, count: nat, len: nat, state: bool, goal: Worker)
    requires w.health.Running? && count >= len && NamesLeft(w, s, count, len, state, goal)
    ensures goal == w.(phase := AtHeader(s))
  {
    assert FinishNames(w.(phase := AtHeader(s))) == w.(phase := AtHeader(s));
  }

  /** The rest of the receive loop leads to `goal`. */
  ghost predicate RequestsLeft(env: Env, w: Worker, s: Stream, goal: Worker) {
    FinishReceive(env, w.(phase := AtHeader(s))) == goal
  }

  lemma LastHeader(env: Env, w: Worker, s: Stream, goal: Worker)
    requires w.health.Running? && w.phase.Idle? && RequestsLeft(env, w, s, goal) && !NextHeader(s).Asked?
    ensures NextHeader(s).NoHeader? ==> goal == w
    ensures NextHeader(s).LostClient? ==> goal == CloseAndClean(w)
    ensures NextHeader(s).BadHeader? ==> goal == RejectHeader(w, NextHeader(s).rest)
  {
    var w1 := HeaderStep(env, w.(phase := AtHeader(s)), s);
    assert w1.phase.Idle? && FinishReceive(env, w1) == w1;
  }

  lemma CommandTurn(env: Env, w: Worker, s: Stream, w': Worker, s': Stream, goal: Worker)
    requires w.health.Running? && w.phase.Idle? && w'.phase.Idle?
    requires RequestsLeft(env, w, s, goal) && NextHeader(s).Asked?
    requires var h := NextHeader(s);
             w'.(phase := AtHeader(s')) == FinishNames(ExecuteCommand(env, w, h.cmd, h.len, h.rest))
    ensures RequestsLeft(env, w', s', goal)
    ensures !w'.health.Running? ==> goal == w'.(phase := AtHeader(s'))
  {
    var h := NextHeader(s);
    var w1 := ExecuteCommand(env, w, h.cmd, h.len, h.rest);
    CommandInPhase(env, w, AtHeader(s), h.cmd, h.len, h.rest);
    assert FinishReceive(env, w.(phase := AtHeader(s))) == FinishReceive(env, w1);
    NamesThenReceive(env, w1);
  }

  /** Executing a command never adds input. */
  lemma NamesWeight(env: Env, w: Worker, h: HeaderRead)
    requires h.Asked?
    ensures var p := FinishNames(ExecuteCommand(env, w, h.cmd, h.len, h.rest)).phase;
            (p.AtHeader? || p.AtName?) && Weight(p.input) <= Weight(h.rest)
  {
    var w1 := ExecuteCommand(env, w, h.cmd, h.len, h.rest);
    CommandReads(env, w, h.cmd, h.len, h.rest);
    FinishNamesWeight(w1);
  }

  lemma CommandReads(env: Env, w: Worker, cmd: Command, len: nat, rest: Stream)
    ensures var p := ExecuteCommand(env, w, cmd, len, rest).phase;
            (p.AtHeader? || p.AtName?) && p.input == rest
  {
  }

  lemma {:induction false} FinishNamesWeight(w: Worker)
    requires w.phase.AtHeader? || w.phase.AtName?
    ensures var p := FinishNames(w).phase; (p.AtHeader? || p.AtName?) && Weight(p.input) <= Weight(w.phase.input)
    decreases Rank(w.phase)
  {
    if w.health.Running? && w.phase.AtName? {
      var AtName(s, count, len, state) := w.phase;
      NextNameWeight(s, count, len);
      NameStepRanksDown(w, s, count, len, state);
      FinishNamesWeight(NameStep(w, s, count, len, state));
    }
  }

  /** With `cur` in the queue and the rest in the buffer, sending everything gives `goal`. */
  ghost predicate StillToSend(env: Env, w: Worker, cur: seq<Element>, goal: Worker) {
    SendGroups(env, w, PackFrom(cur, w.buffer)) == goal
  }

  lemma TakeOne(env: Env, w: Worker, cur: seq<Element>, goal: Worker)
    requires w.buffer != [] && HasSpace(|PushBody(cur)|, w.buffer[0]) && StillToSend(env, w, cur, goal)
    ensures StillToSend(env, w.(buffer := w.buffer[1..]), cur + [w.buffer[0]], goal)
    ensures PushBody(cur + [w.buffer[0]]) == PushBody(cur) + EncodeRecord(ToRecord(w.buffer[0]))
  {
    PushBodySnoc(cur, w.buffer[0]);
    BufferIsOverwritten(env, w, w.buffer[1..], PackFrom(cur + [w.buffer[0]], w.buffer[1..]));
  }

  lemma SendFull(env: Env, w: Worker, cur: seq<Element>, goal: Worker)
    requires w.buffer != [] && AllFit(w.buffer) && !HasSpace(|PushBody(cur)|, w.buffer[0])
    requires StillToSend(env, w, cur, goal)
    ensures cur != []
    ensures w.connection.None? ==> goal == w.(health := Panicked(TraceWrite))
    ensures w.connection.Some? ==> AfterFrame(env, Transmit(env, w, Push(cur)), goal)
  {
    assert HasSpace(0, w.buffer[0]);
    FullQueue(cur, w.buffer);
    PackKeepsElements([], w.buffer);
    assert [] + w.buffer == w.buffer;
    SendingOne(env, w, cur, Pack(w.buffer));
  }

  lemma SendLast(env: Env, w: Worker, cur: seq<Element>, goal: Worker)
    requires w.buffer == [] && cur != [] && StillToSend(env, w, cur, goal)
    ensures w.connection.None? ==> goal == w.(health := Panicked(TraceWrite))
    ensures w.connection.Some? ==> goal == Transmit(env, w, Push(cur))
  {
    SendingOne(env, w, cur, []);
    assert [cur] + [] == [cur];
  }

  /** After a frame: stopped by an error, or the rest still to send. */
  ghost predicate AfterFrame(env: Env, w: Worker, goal: Worker) {
    if w.connection.None? then goal == w else StillToSend(env, w, [], goal)
  }

  lemma BufferIsOverwritten(env: Env, w: Worker, b: seq<Element>, groups: seq<seq<Element>>)
    ensures SendGroups(env, w.(buffer := b), groups) == SendGroups(env, w, groups)
  {
  }

  lemma FullQueue(cur: seq<Element>, buffer: seq<Element>)
    requires buffer != [] && cur != [] && !HasSpace(|PushBody(cur)|, buffer[0])
    ensures PackFrom(cur, buffer) == [cur] + Pack(buffer)
  {
    assert [] + [buffer[0]] == [buffer[0]];
  }

  /** Sending the first group, then the others. */
  lemma SendingOne(env: Env, w: Worker, g: seq<Element>, rest: seq<seq<Element>>)
    requires w.buffer == Flatten(rest)
    ensures SendGroups(env, w, [g] + rest) ==
            if w.connection.None? then w.(health := Panicked(TraceWrite))
            else (var w1 := Transmit(env, w, Push(g));
                  if w1.connection.None? then w1 else SendGroups(env, w1, rest))
  {
    assert ([g] + rest)[1..] == rest;
    assert w.(buffer := Flatten(rest)) == w;
  }
}
