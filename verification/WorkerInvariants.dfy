/**
 What every handler of the tracer thread keeps, whatever the writes, requests and timers do.
 */
module WorkerInvariants {
  import opened Bytes
  import opened Names
  import opened Codec
  import opened Packing
  import opened TracerThread

  // ----- vocabulary -----

  function ElementsOf(c: Cargo): seq<Element> {
    if c.Push? then c.elements else []
  }

  /** The elements of all frames handed to a socket, in order. */
  function Handed(log: seq<Write>): seq<Element> {
    if log == [] then [] else Handed(log[..|log| - 1]) + ElementsOf(log[|log| - 1].cargo)
  }

  lemma HandedSnoc(log: seq<Write>, x: Write)
    ensures Handed(log + [x]) == Handed(log) + ElementsOf(x.cargo)
  {
    assert (log + [x])[..|log|] == log;
  }

  function TotalLen(es: seq<Element>): nat {
    if es == [] then 0 else TotalLen(es[..|es| - 1]) + ElementLen(es[|es| - 1])
  }

  lemma {:induction false} TotalLenConcat(a: seq<Element>, b: seq<Element>)
    ensures TotalLen(a + b) == TotalLen(a) + TotalLen(b)
  {
    if b == [] {
      assert a + b == a;
    } else {
      var c := b[..|b| - 1];
      assert (a + b)[..|a + b| - 1] == a + c;
      TotalLenConcat(a, c);
    }
  }

  // ----- the worker's invariant -----

  /** The armed entries of one kind are exactly the one its handle names, if any. */
  ghost predicate HandleAgrees(t: Timers, kind: TimerKind, handle: Option<nat>) {
    forall id :: id in t.armed && t.armed[id] == kind <==> handle == Some(id)
  }

  ghost predicate TimersAgree(t: Timers) {
    && HandleAgrees(t, QueueTimer, t.queue)
    && HandleAgrees(t, AnnounceTimer, t.udp)
    && forall id :: id in t.armed ==> id < t.next
  }

  predicate ConnectionAgrees(w: Worker) {
    && w.clientConnected == w.connection.Some?
    && (w.connection.Some? ==> w.timers.udp.None? && w.connection.value + 1 == w.sessions)
    && w.sessions == w.past.closes + (if w.connection.Some? then 1 else 0)
  }

  predicate Accounts(w: Worker) {
    && w.past.appended == Handed(w.past.log) + w.buffer
    && w.occupancy == TotalLen(w.past.appended)
    && AllAcceptable(w.past.appended)
  }

  predicate NormalNames(ns: seq<Name>) {
    forall i :: 0 <= i < |ns| ==> IsNormal(ns[i])
  }

  predicate CargoOk(c: Cargo) {
    match c
    case Push(es) => es != [] && AllAcceptable(es) && LegalGroup(es)
    case ListReply(ns) => NormalNames(ns)
  }

  predicate LogOk(w: Worker) {
    && (forall i :: 0 <= i < |w.past.log| ==> CargoOk(w.past.log[i].cargo) && w.past.log[i].session < w.sessions)
    && forall i, j :: 0 <= i < j < |w.past.log| ==> w.past.log[i].session <= w.past.log[j].session
  }

  predicate KeysNormal(m: map<Name, nat>) {
    forall n :: n in m ==> IsNormal(n)
  }

  predicate FlagsQuiet(w: Worker) {
    w.connection.None? && !w.past.lateStore ==> forall n :: n in w.tracepoints ==> !Load(w.flags, w.tracepoints[n])
  }

  ghost predicate Core(w: Worker) {
    && TimersAgree(w.timers) && ConnectionAgrees(w) && Accounts(w)
    && LogOk(w) && FlagsQuiet(w) && KeysNormal(w.tracepoints)
  }

  /** A non-empty buffer waits for an armed queue timer unless it was carried over a close. */
  predicate Batching(w: Worker) {
    && (w.buffer != [] ==> w.timers.queue.Some? || w.past.carried)
    && (w.timers.queue.Some? && w.health.Running? ==> w.buffer != [])
    && (w.occupancy > QUEUE_TOTAL_SIZE ==> w.timers.queue.None?)
  }

  // ----- closing and sending -----

  lemma TimersStay(t: Timers)
    requires TimersAgree(t)
    ensures TimersAgree(StartQueueTimer(t)) && TimersAgree(StopQueueTimer(t))
    ensures TimersAgree(StartUdpTimer(t)) && TimersAgree(StopUdpTimer(t))
  {
  }

  lemma CloseKeepsCore(w: Worker)
    requires Core(w) && w.connection.Some?
    ensures Core(CloseAndClean(w))
  {
    TimersStay(w.timers);
    TimersStay(StopQueueTimer(w.timers));
    var c := CloseAndClean(w);
    forall n | n in c.tracepoints
      ensures !Load(c.flags, c.tracepoints[n])
    {
      assert c.tracepoints[n] in w.tracepoints.Values;
    }
  }

  /** Everything about a send except the core invariant: what it leaves alone and how it ends. */
  ghost predicate SendShape(w: Worker, w': Worker) {
    && w'.tracepoints == w.tracepoints && w'.occupancy == w.occupancy && w'.phase == w.phase
    && w'.sessions == w.sessions && w'.past.appended == w.past.appended && |w'.flags| == |w.flags|
    && (forall c :: Load(w'.flags, c) ==> Load(w.flags, c))
    && w.past.log <= w'.past.log
    && (w'.connection.Some? ==>
          && w'.connection == w.connection && w'.health == w.health && w'.buffer == []
          && w'.timers == w.timers && w'.flags == w.flags && w'.past.closes == w.past.closes
          && w'.past.carried == w.past.carried && w'.past.lateStore == w.past.lateStore)
    && (w'.connection.None? && w.connection.Some? ==>
          && w'.health == w.health && w'.timers.queue.None? && w'.past.carried == (w'.buffer != [])
          && !w'.past.lateStore && w'.past.closes == w.past.closes + 1)
  }

  lemma LogKeepsCore(w: Worker, x: Write, rest: seq<Element>)
    requires Core(w) && w.connection == Some(x.session) && CargoOk(x.cargo)
    requires w.buffer == ElementsOf(x.cargo) + rest
    ensures Core(w.(buffer := rest, past := w.past.(log := w.past.log + [x])))
  {
    HandedSnoc(w.past.log, x);
    Associate(Handed(w.past.log), ElementsOf(x.cargo), rest);
  }

  lemma TransmitKeepsCore(env: Env, w: Worker, c: Cargo, rest: seq<Element>)
    requires Core(w) && w.connection.Some? && CargoOk(c)
    requires w.buffer == ElementsOf(c) + rest
    ensures Core(Transmit(env, w.(buffer := rest), c))
  {
    var x := Write(w.connection.value, c, env.net(|w.past.log|));
    LogKeepsCore(w, x, rest);
    if x.outcome.Failed? {
      CloseKeepsCore(w.(buffer := rest, past := w.past.(log := w.past.log + [x])));
    }
  }

  lemma TransmitShape(env: Env, w: Worker, c: Cargo)
    requires w.connection.Some?
    ensures var w' := Transmit(env, w, c);
            && SendShape(w.(buffer := []), w'.(buffer := if w'.connection.Some? then [] else w.buffer))
            && w'.buffer == w.buffer && (w'.connection.None? ==> w'.past.carried == (w.buffer != []))
  {
  }

  ghost predicate GroupsOk(groups: seq<seq<Element>>) {
    forall i :: 0 <= i < |groups| ==> CargoOk(Push(groups[i]))
  }

  lemma {:induction false} SendGroupsKeepsCore(env: Env, w: Worker, groups: seq<seq<Element>>)
    requires Core(w) && GroupsOk(groups) && w.buffer == Flatten(groups)
    requires w.connection.Some?
    ensures Core(SendGroups(env, w, groups))
    decreases |groups|
  {
    if groups == [] {
      assert w.(buffer := []) == w;
    } else {
      var rest := Flatten(groups[1..]);
      assert CargoOk(Push(groups[0]));
      TransmitKeepsCore(env, w, Push(groups[0]), rest);
      var w2 := Transmit(env, w.(buffer := rest), Push(groups[0]));
      if w2.connection.Some? {
        SendGroupsKeepsCore(env, w2, groups[1..]);
      }
    }
  }

  lemma {:induction false} SendGroupsShape(env: Env, w: Worker, groups: seq<seq<Element>>)
    requires w.connection.Some?
    ensures SendShape(w, SendGroups(env, w, groups))
    decreases |groups|
  {
    if groups != [] {
      var w1 := w.(buffer := Flatten(groups[1..]));
      TransmitShape(env, w1, Push(groups[0]));
      var w2 := Transmit(env, w1, Push(groups[0]));
      if w2.connection.Some? {
        SendGroupsShape(env, w2, groups[1..]);
      }
    }
  }

  lemma {:induction false} AcceptableParts(groups: seq<seq<Element>>)
    requires AllAcceptable(Flatten(groups))
    ensures forall i :: 0 <= i < |groups| ==> AllAcceptable(groups[i])
  {
    if groups != [] {
      var f, r := Flatten(groups), Flatten(groups[1..]);
      assert forall k :: 0 <= k < |groups[0]| ==> groups[0][k] == f[k];
      assert forall k :: 0 <= k < |r| ==> r[k] == f[|groups[0]| + k];
      AcceptableParts(groups[1..]);
    }
  }

  lemma PackOk(buffer: seq<Element>)
    requires AllAcceptable(buffer)
    ensures GroupsOk(Pack(buffer)) && Flatten(Pack(buffer)) == buffer
    ensures buffer != [] ==> Pack(buffer) != []
  {
    PackKeepsElements([], buffer);
    assert [] + buffer == buffer;
    AcceptableParts(Pack(buffer));
    AcceptableFits(buffer);
    PackIsLegal([], buffer);
  }

  lemma BufferIsAcceptable(w: Worker)
    requires Accounts(w)
    ensures AllAcceptable(w.buffer)
  {
    var k := |Handed(w.past.log)|;
    assert forall i :: 0 <= i < |w.buffer| ==> w.buffer[i] == w.past.appended[k + i];
  }

  /** Sending with a client keeps the core; sending without one panics unless there is nothing to send. */
  lemma SendTraceDataKeepsCore(env: Env, w: Worker)
    requires Core(w) && w.connection.Some?
    ensures Core(SendTraceData(env, w)) && SendShape(w, SendTraceData(env, w))
  {
    BufferIsAcceptable(w);
    PackOk(w.buffer);
    SendGroupsKeepsCore(env, w, Pack(w.buffer));
    SendGroupsShape(env, w, Pack(w.buffer));
  }

  lemma SendWithoutClient(env: Env, w: Worker)
    requires Accounts(w) && w.connection.None?
    ensures w.buffer != [] ==>
              SendTraceData(env, w) == w.(health := Panicked(TraceWrite), buffer := SendTraceData(env, w).buffer)
    ensures w.buffer == [] ==> SendTraceData(env, w) == w
  {
    BufferIsAcceptable(w);
    PackOk(w.buffer);
  }

  // ----- worker handlers -----

  lemma AppendKeepsCore(w: Worker, e: Element)
    requires Core(w) && Acceptable(e)
    ensures Core(Append(w, e))
  {
    TotalLenConcat(w.past.appended, [e]);
    assert TotalLen([e]) == ElementLen(e) by {
      assert [e][..0] == [];
    }
    Associate(Handed(w.past.log), w.buffer, [e]);
  }

  lemma CoreWithTimers(w: Worker, t: Timers)
    requires Core(w) && TimersAgree(t) && (w.connection.Some? ==> t.udp.None?)
    ensures Core(w.(timers := t))
  {
  }

  lemma TakeUpKeepsCore(w: Worker, e: Element)
    requires Core(w) && Acceptable(e)
    ensures Core(TakeUp(w, e))
  {
    AppendKeepsCore(w, e);
    assert TakeUp(w, e) == Append(w, e).(past := Append(w, e).past.(carried := false));
  }

  lemma TakeUpThenTimers(w: Worker, e: Element)
    requires Core(w) && Acceptable(e)
    ensures Core(TakeUp(w, e).(timers := StopQueueTimer(w.timers)))
    ensures Core(TakeUp(w, e).(timers := StartQueueTimer(w.timers)))
  {
    TakeUpKeepsCore(w, e);
    TimersStay(w.timers);
    CoreWithTimers(TakeUp(w, e), StopQueueTimer(w.timers));
    CoreWithTimers(TakeUp(w, e), StartQueueTimer(w.timers));
  }

  /** What a payload leaves alone. */
  ghost predicate PayloadShape(w: Worker, e: Element, w': Worker) {
    && w'.past.appended == w.past.appended + [e]
    && w'.tracepoints == w.tracepoints && |w'.flags| == |w.flags| && w'.phase == w.phase
    && w'.sessions == w.sessions
    && (forall c :: Load(w'.flags, c) ==> Load(w.flags, c))
    && (w'.health.Panicked? ==> w.connection.None?)
  }

  lemma HandlePayloadKeeps(env: Env, w: Worker, e: Element)
    requires Core(w) && w.health.Running? && Acceptable(e)
    ensures var w' := HandlePayload(env, w, e);
            && (w'.health.Panicked? || (w'.health.Running? && Core(w')))
            && PayloadShape(w, e, w')
  {
    TakeUpThenTimers(w, e);
    var w1 := TakeUp(w, e);
    if w1.occupancy > QUEUE_TOTAL_SIZE {
      var w2 := w1.(timers := StopQueueTimer(w1.timers));
      if w2.connection.Some? {
        SendTraceDataKeepsCore(env, w2);
      } else {
        SendWithoutClient(env, w2);
      }
    }
  }

  lemma HandlePayloadKeepsBatching(env: Env, w: Worker, e: Element)
    requires Core(w) && Batching(w) && w.health.Running? && Acceptable(e)
    ensures HandlePayload(env, w, e).health.Panicked? || Batching(HandlePayload(env, w, e))
  {
    TakeUpThenTimers(w, e);
    var w1 := TakeUp(w, e);
    if w1.occupancy > QUEUE_TOTAL_SIZE {
      var w2 := w1.(timers := StopQueueTimer(w1.timers));
      if w2.connection.Some? {
        SendTraceDataKeepsCore(env, w2);
      } else {
        SendWithoutClient(env, w2);
      }
    }
  }

  lemma TerminateKeeps(env: Env, w: Worker)
    requires Core(w) && w.health.Running?
    ensures var w' := HandleMessage(env, w, Terminate);
            && Core(w') && w'.health == Returned && w'.past.appended == w.past.appended
            && (w'.connection.Some? ==> w'.buffer == [])
            && w'.tracepoints == w.tracepoints && |w'.flags| == |w.flags| && w'.phase == w.phase
            && w'.sessions == w.sessions
            && (forall c :: Load(w'.flags, c) ==> Load(w.flags, c))
  {
    if w.connection.Some? {
      SendTraceDataKeepsCore(env, w);
    }
  }

  lemma TerminateKeepsBatching(env: Env, w: Worker)
    requires Core(w) && Batching(w) && w.health.Running?
    ensures Batching(HandleMessage(env, w, Terminate))
  {
    if w.connection.Some? {
      SendTraceDataKeepsCore(env, w);
    }
  }

  /** A handler that touches neither names nor the accounts, and sets no flag. */
  ghost predicate QuietShape(w: Worker, w': Worker) {
    && w'.past.appended == w.past.appended && w'.tracepoints == w.tracepoints && |w'.flags| == |w.flags|
    && (forall c :: Load(w'.flags, c) ==> Load(w.flags, c))
    && w'.health != Returned
  }

  lemma FiredTimers(t: Timers, id: nat)
    requires TimersAgree(t) && id in t.armed
    ensures var t' := t.(armed := t.armed - {id});
            && (t.armed[id].QueueTimer? ==> t.queue == Some(id) && TimersAgree(t'.(queue := None)))
            && (t.armed[id].AnnounceTimer? ==> t.udp == Some(id) && TimersAgree(StartUdpTimer(t'.(udp := None))))
  {
    var t' := t.(armed := t.armed - {id});
    if t.armed[id].AnnounceTimer? {
      assert TimersAgree(t'.(udp := None));
      TimersStay(t'.(udp := None));
    }
  }

  lemma HandleTimeoutKeeps(env: Env, w: Worker, id: nat)
    requires Core(w) && w.health.Running? && id in w.timers.armed
    ensures var w' := HandleTimeout(env, w, id);
            && (w'.health.Panicked? || (w'.health.Running? && Core(w')))
            && (w'.health.Panicked? ==> w.connection.None?)
            && QuietShape(w, w') && w'.phase == w.phase && w'.sessions == w.sessions
  {
    FiredTimers(w.timers, id);
    var t := w.timers.(armed := w.timers.armed - {id});
    match w.timers.armed[id]
    case QueueTimer =>
      var w1 := w.(timers := t.(queue := None));
      CoreWithTimers(w, w1.timers);
      if w1.connection.Some? {
        SendTraceDataKeepsCore(env, w1);
      } else {
        SendWithoutClient(env, w1);
      }
    case AnnounceTimer =>
      CoreWithTimers(w, StartUdpTimer(t.(udp := None)));
  }

  lemma HandleTimeoutKeepsBatching(env: Env, w: Worker, id: nat)
    requires Core(w) && Batching(w) && w.health.Running? && id in w.timers.armed
    ensures HandleTimeout(env, w, id).health.Panicked? || Batching(HandleTimeout(env, w, id))
  {
    FiredTimers(w.timers, id);
    if w.timers.armed[id].QueueTimer? {
      var w1 := w.(timers := w.timers.(armed := w.timers.armed - {id}, queue := None));
      CoreWithTimers(w, w1.timers);
      if w1.connection.Some? {
        SendTraceDataKeepsCore(env, w1);
      } else {
        SendWithoutClient(env, w1);
      }
    }
  }

  lemma HandleAcceptKeeps(w: Worker, ok: bool)
    requires Core(w) && Batching(w)
    ensures Core(HandleAccept(w, ok)) && Batching(HandleAccept(w, ok))
  {
    TimersStay(w.timers);
  }

  ghost predicate Sound(w: Worker) {
    Core(w) && Batching(w)
  }

  /** A step inside `receive` that stores no flag: it may panic, otherwise it keeps the worker sound. */
  ghost predicate Fine(w: Worker, w': Worker) {
    && (w'.health.Panicked? || (w'.health.Running? && Sound(w')))
    && (w'.health.Panicked? ==> w'.past.closes > 0)
    && QuietShape(w, w') && w'.sessions == w.sessions
  }

  lemma PhaseKeepsSound(w: Worker, p: Phase)
    requires Sound(w) && w.health.Running?
    ensures Fine(w, w.(phase := p))
  {
  }

  lemma CloseInReceive(w: Worker, p: Phase)
    requires Sound(w) && w.health.Running? && w.sessions > 0
    ensures Fine(w, CloseAndClean(w).(phase := p))
    ensures CloseAndClean(w).health.Panicked? <==> w.connection.None?
  {
    if w.connection.Some? {
      CloseKeepsCore(w);
    }
  }

  lemma RejectKeeps(w: Worker, rest: Stream)
    requires Sound(w) && w.health.Running? && w.sessions > 0
    ensures Fine(w, RejectHeader(w, rest))
  {
    CloseInReceive(w, Idle);
    var w1 := CloseAndClean(w).(phase := Idle);
    if !w1.health.Panicked? {
      CloseInReceive(w1, Idle);
      assert CloseAndClean(w1) == CloseAndClean(w1).(phase := Idle);
    }
  }

  lemma ReplyKeepsCore(env: Env, w: Worker, order: seq<Name>)
    requires Core(w) && w.connection.Some? && NormalNames(order)
    ensures Core(Transmit(env, w, ListReply(order)))
  {
    assert w.buffer == ElementsOf(ListReply(order)) + w.buffer;
    assert w == w.(buffer := w.buffer);
    TransmitKeepsCore(env, w, ListReply(order), w.buffer);
  }

  lemma ReplyKeepsBatching(env: Env, w: Worker, order: seq<Name>)
    requires Batching(w) && w.connection.Some? && w.health.Running?
    ensures var w' := Transmit(env, w, ListReply(order));
            Batching(w') && w'.health.Running? && QuietShape(w, w') && w'.sessions == w.sessions
  {
  }

  lemma ListReplyKeeps(env: Env, w: Worker)
    requires ValidEnv(env) && Sound(w) && w.health.Running? && w.sessions > 0
    ensures Fine(w, SendTracepointList(env, w))
  {
    if w.connection.Some? {
      var order := env.keys(|w.past.log|, w.tracepoints.Keys);
      assert Enumerates(order, w.tracepoints.Keys);
      assert forall i :: 0 <= i < |order| ==> order[i] in w.tracepoints.Keys;
      ReplyKeepsCore(env, w, order);
      ReplyKeepsBatching(env, w, order);
    }
  }

  lemma FineInAnyPhase(w: Worker, w1: Worker, p: Phase)
    requires Fine(w, w1)
    ensures Fine(w, w1.(phase := p))
  {
  }

  lemma ExecuteKeeps(env: Env, w: Worker, cmd: Command, len: nat, rest: Stream)
    requires ValidEnv(env) && Sound(w) && w.health.Running? && w.sessions > 0
    ensures Fine(w, ExecuteCommand(env, w, cmd, len, rest))
  {
    ListReplyKeeps(env, w);
    FineInAnyPhase(w, SendTracepointList(env, w), AtHeader(rest));
    PhaseKeepsSound(w, AtName(rest, 0, len, true));
    PhaseKeepsSound(w, AtName(rest, 0, len, false));
    PhaseKeepsSound(w, AtHeader(rest));
  }

  lemma HeaderStepKeeps(env: Env, w: Worker, s: Stream)
    requires ValidEnv(env) && Sound(w) && w.health.Running? && w.sessions > 0
    ensures Fine(w, HeaderStep(env, w, s))
  {
    match NextHeader(s)
    case NoHeader => PhaseKeepsSound(w, Idle);
    case LostClient => CloseInReceive(w, Idle);
    case BadHeader(rest) => RejectKeeps(w, rest);
    case Asked(cmd, len, rest) => ExecuteKeeps(env, w, cmd, len, rest);
  }

  /** No two names share a cell and every cell exists. */
  predicate CellsDistinct(m: map<Name, nat>, cells: nat) {
    && (forall n :: n in m ==> m[n] < cells)
    && (forall a, b :: a in m && b in m && m[a] == m[b] ==> a == b)
  }

  lemma SetFlagQuiet(w: Worker, name: Name, state: bool)
    requires FlagsQuiet(w)
    ensures FlagsQuiet(SetFlag(w, name, state))
  {
    var w' := SetFlag(w, name, state);
    if w'.connection.None? && !w'.past.lateStore {
      forall n | n in w'.tracepoints
        ensures !Load(w'.flags, w'.tracepoints[n])
      {
        assert !Load(w.flags, w.tracepoints[n]);
      }
    }
  }

  lemma SetFlagKeepsSound(w: Worker, name: Name, state: bool)
    requires Sound(w)
    ensures Sound(SetFlag(w, name, state))
  {
    SetFlagQuiet(w, name, state);
  }

  lemma SetFlagKeeps(w: Worker, name: Name, state: bool, p: Phase)
    requires Sound(w) && w.health.Running?
    ensures ReadShape(w, SetFlag(w, name, state).(phase := p))
  {
    var w1 := SetFlag(w, name, state);
    SetFlagKeepsSound(w, name, state);
    PhaseKeepsSound(w1, p);
    forall c | c !in w.tracepoints.Values
      ensures Load(w1.flags, c) == Load(w.flags, c)
    {
      assert name in w.tracepoints ==> w.tracepoints[name] in w.tracepoints.Values;
    }
  }

  /** A step of `receive`: flags change only in cells of registered names. */
  ghost predicate ReadShape(w: Worker, w': Worker) {
    && (w'.health.Panicked? || (w'.health.Running? && Sound(w')))
    && (w'.health.Panicked? ==> w'.past.closes > 0)
    && w'.past.appended == w.past.appended && w'.tracepoints == w.tracepoints && |w'.flags| == |w.flags|
    && w'.sessions == w.sessions
    && (forall c :: c !in w.tracepoints.Values && Load(w'.flags, c) ==> Load(w.flags, c))
  }

  lemma NameStepKeeps(w: Worker, s: Stream, count: nat, len: nat, state: bool)
    requires Sound(w) && w.health.Running? && w.sessions > 0
    ensures ReadShape(w, NameStep(w, s, count, len, state))
  {
    match NextName(s, count, len)
    case NoMore => PhaseKeepsSound(w, AtHeader(s));
    case Violation(rest) => CloseInReceive(w, AtHeader(rest));
    case OneName(name, rest, count') => SetFlagKeeps(w, LookupKey(name), state, AtName(rest, count', len, state));
  }

  lemma ReadStepKeeps(env: Env, w: Worker)
    requires ValidEnv(env) && Sound(w) && Reading(w) && w.sessions > 0
    ensures ReadShape(w, ReadStep(env, w))
  {
    match w.phase
    case AtHeader(s) => HeaderStepKeeps(env, w, s);
    case AtName(s, count, len, state) => NameStepKeeps(w, s, count, len, state);
  }
}
