/**
 What each handler achieves (src/lib.rs:536-617): a firing queue timer sends what is buffered, a
 channel event empties the channel, due entries fire, a batch is handled event by event, and
 `tracy_finit` ends the thread.
 */
module Handlers {
  import opened Bytes
  import opened Names
  import opened Codec
  import opened Packing
  import opened TracerThread
  import opened Protocol
  import opened WorkerInvariants
  import opened SystemInvariants
  import opened Theorems
  import opened Requests
  import opened RequestTheorems
  import opened WithoutClient

  // ----- sending -----

  /** While no write fails, sending takes everything out of the buffer and touches nothing but the log. */
  lemma {:induction false} SendHolds(env: Env, w: Worker, groups: seq<seq<Element>>)
    requires w.connection.Some? && WritesHold(env, |w.past.log|, |w.past.log| + |groups|)
    ensures var w' := SendGroups(env, w, groups);
            w' == w.(buffer := [], past := w.past.(log := w'.past.log)) && |w'.past.log| == |w.past.log| + |groups|
    ensures Handed(SendGroups(env, w, groups).past.log) == Handed(w.past.log) + Flatten(groups)
    decreases |groups|
  {
    if groups == [] {
      assert Handed(w.past.log) + [] == Handed(w.past.log);
    } else {
      var w1 := Transmit(env, w.(buffer := Flatten(groups[1..])), Push(groups[0]));
      SendHolds(env, w1, groups[1..]);
      HandedSnoc(w.past.log, w1.past.log[|w.past.log|]);
      Associate(Handed(w.past.log), groups[0], Flatten(groups[1..]));
    }
  }

  /** The buffer goes to the socket as it is, and the client stays. */
  lemma SendingEmptiesTheBuffer(env: Env, w: Worker)
    requires w.connection.Some? && WritesHold(env, |w.past.log|, |w.past.log| + |Pack(w.buffer)|)
    ensures var w' := SendTraceData(env, w);
            && w' == w.(buffer := [], past := w.past.(log := w'.past.log)) && |w'.past.log| >= |w.past.log|
            && Handed(w'.past.log) == Handed(w.past.log) + w.buffer
  {
    SendHolds(env, w, Pack(w.buffer));
    PackKeepsElements([], w.buffer);
    assert [] + w.buffer == w.buffer;
  }

  // ----- timers -----

  /** No queue entry is armed. */
  predicate NoQueueEntry(t: Timers) {
    forall id :: id in t.armed ==> t.armed[id].AnnounceTimer?
  }

  lemma QueueTimeoutSendsIn(env: Env, w: Worker, id: nat)
    requires TimersAgree(w.timers) && w.connection.Some? && w.timers.queue == Some(id)
    requires WritesHold(env, |w.past.log|, |w.past.log| + |Pack(w.buffer)|)
    ensures id in w.timers.armed
    ensures var w' := HandleTimeout(env, w, id);
            && w'.health == w.health && w'.connection == w.connection && w'.phase == w.phase
            && w'.buffer == [] && Handed(w'.past.log) == Handed(w.past.log) + w.buffer
            && NoQueueEntry(w'.timers) && w'.timers.armed == w.timers.armed - {id}
  {
    assert id in w.timers.armed && w.timers.armed[id].QueueTimer?;
    var w1 := w.(timers := w.timers.(armed := w.timers.armed - {id}, queue := None));
    SendingEmptiesTheBuffer(env, w1);
  }

  /** With a client a firing queue timer sends everything that is buffered, and leaves no queue entry armed. */
  lemma QueueTimeoutSends(env: Env, s: System, id: nat)
    requires ValidEnv(env) && Reachable(env, s) && s.w.health.Running? && s.w.phase.Idle? && s.w.connection.Some?
    requires id in s.w.timers.armed && s.w.timers.armed[id].QueueTimer?
    requires WritesHold(env, |s.w.past.log|, |s.w.past.log| + |Pack(s.w.buffer)|)
    ensures var w' := Step(env, s, Timeout(id)).w;
            && w'.health.Running? && w'.connection == s.w.connection
            && w'.buffer == [] && Handed(w'.past.log) == Handed(s.w.past.log) + s.w.buffer
            && NoQueueEntry(w'.timers)
  {
    ReachableInv(env, s);
    QueueTimeoutSendsIn(env, s.w, id);
  }

  /** Entries are only removed, and new ones have new numbers. */
  ghost predicate OnlyNewEntries(t: Timers, t': Timers) {
    t.next <= t'.next && forall id :: id in t'.armed ==> id in t.armed || id >= t.next
  }

  lemma {:induction false} SendAddsOnlyNew(env: Env, w: Worker, groups: seq<seq<Element>>)
    ensures OnlyNewEntries(w.timers, SendGroups(env, w, groups).timers)
    decreases |groups|
  {
    if groups != [] && w.connection.Some? {
      var w1 := Transmit(env, w.(buffer := Flatten(groups[1..])), Push(groups[0]));
      if w1.connection.Some? {
        SendAddsOnlyNew(env, w1, groups[1..]);
      }
    }
  }

  /** A due entry is gone after it fired, and no other comes back. */
  lemma TimeoutRemoves(env: Env, w: Worker, id: nat)
    requires id in w.timers.armed
    ensures var t' := HandleTimeout(env, w, id).timers;
            OnlyNewEntries(w.timers, t') && (id < w.timers.next ==> id !in t'.armed)
  {
    var w1 := w.(timers := w.timers.(armed := w.timers.armed - {id}, queue := None));
    SendAddsOnlyNew(env, w1, Pack(w1.buffer));
  }

  lemma {:induction false} FireAllFires(env: Env, w: Worker, due: seq<nat>, id: nat)
    requires id < w.timers.next && (id in due || id !in w.timers.armed)
    ensures var w' := FireAll(env, w, due);
            w'.health.Running? ==> id !in w'.timers.armed
    decreases |due|
  {
    if due != [] && w.health.Running? {
      if due[0] in w.timers.armed {
        TimeoutRemoves(env, w, due[0]);
        FireAllFires(env, HandleTimeout(env, w, due[0]), due[1..], id);
      } else {
        FireAllFires(env, w, due[1..], id);
      }
    }
  }

  lemma AllDueFire(env: Env, w: Worker, due: seq<nat>)
    ensures var w' := FireAll(env, w, due);
            w'.health.Running? ==> forall id :: id in due && id < w.timers.next ==> id !in w'.timers.armed
  {
    forall id | id in due && id < w.timers.next
      ensures FireAll(env, w, due).health.Running? ==> id !in FireAll(env, w, due).timers.armed
    {
      FireAllFires(env, w, due, id);
    }
  }

  /** A timer event fires all its entries: none that was armed and due is armed afterwards. */
  lemma DueEntriesFire(env: Env, s: System, due: seq<nat>, id: nat)
    requires ValidEnv(env) && Reachable(env, s) && s.w.health.Running? && s.w.phase.Idle?
    requires id in due && id in s.w.timers.armed
    ensures var w' := HandleEvent(env, s.w, s.channel, TimerReady(due)).0;
            w'.health.Running? ==> id !in w'.timers.armed
  {
    ReachableInv(env, s);
    FireAllFires(env, s.w, due, id);
  }

  lemma {:induction false} NothingFires(env: Env, w: Worker, due: seq<nat>)
    requires w.timers.armed == map[]
    ensures FireAll(env, w, due) == w
    decreases |due|
  {
    if due != [] && w.health.Running? {
      NothingFires(env, w, due[1..]);
    }
  }

  lemma {:induction false} OneFires(env: Env, w: Worker, due: seq<nat>, id: nat)
    requires w.health.Running? && id in due && w.timers.armed.Keys == {id}
    requires HandleTimeout(env, w, id).timers.armed == map[]
    ensures FireAll(env, w, due) == HandleTimeout(env, w, id)
    decreases |due|
  {
    if due[0] == id {
      NothingFires(env, HandleTimeout(env, w, id), due[1..]);
    } else {
      OneFires(env, w, due[1..], id);
    }
  }

  /** With a client, a timer event that finds the queue entry due sends everything that is buffered. */
  lemma TimerEventSends(env: Env, s: System, due: seq<nat>)
    requires ValidEnv(env) && Reachable(env, s) && s.w.health.Running? && s.w.phase.Idle? && s.w.connection.Some?
    requires s.w.timers.queue.Some? && s.w.timers.queue.value in due
    requires WritesHold(env, |s.w.past.log|, |s.w.past.log| + |Pack(s.w.buffer)|)
    ensures var w' := HandleEvent(env, s.w, s.channel, TimerReady(due)).0;
            && w'.health.Running? && w'.connection == s.w.connection && w'.buffer == []
            && Handed(w'.past.log) == Handed(s.w.past.log) + s.w.buffer
  {
    ReachableInv(env, s);
    var id := s.w.timers.queue.value;
    QueueTimeoutSendsIn(env, s.w, id);
    OnlyTheQueueEntry(s.w, id);
    assert HandleTimeout(env, s.w, id).timers.armed == map[];
    OneFires(env, s.w, due, id);
  }

  lemma OnlyTheQueueEntry(w: Worker, id: nat)
    requires TimersAgree(w.timers) && ConnectionAgrees(w) && w.connection.Some? && w.timers.queue == Some(id)
    ensures w.timers.armed.Keys == {id} && w.timers.armed - {id} == map[]
  {
    forall k | k in w.timers.armed
      ensures k == id
    {
      assert w.timers.udp.None?;
    }
  }

  // ----- the channel -----

  lemma {:induction false} SendKeepsHistory(env: Env, w: Worker, groups: seq<seq<Element>>)
    ensures var w' := SendGroups(env, w, groups);
            w'.tracepoints == w.tracepoints && w'.past.appended == w.past.appended
    decreases |groups|
  {
    if groups != [] && w.connection.Some? {
      var w1 := Transmit(env, w.(buffer := Flatten(groups[1..])), Push(groups[0]));
      if w1.connection.Some? {
        SendKeepsHistory(env, w1, groups[1..]);
      }
    }
  }

  /** A message is taken up: a payload is appended, a registration entered, and `Terminate` ends the thread. */
  lemma MessageIsTakenUp(env: Env, w: Worker, m: Message)
    requires w.health.Running?
    ensures var w' := HandleMessage(env, w, m);
            && w'.past.appended == w.past.appended + (if m.Payload? then [m.element] else [])
            && w'.tracepoints == (if m.NewTracepoint? then w.tracepoints[m.name := m.cell] else w.tracepoints)
            && (m.Terminate? <==> w'.health.Returned?)
  {
    match m
    case Payload(e) =>
      var w1 := TakeUp(w, e);
      var w2 := w1.(timers := StopQueueTimer(w1.timers));
      SendKeepsHistory(env, w2, Pack(w2.buffer));
      SendNeverReturns(env, w2, Pack(w2.buffer));
    case NewTracepoint(_, _) =>
      assert w.past.appended + [] == w.past.appended;
    case Terminate =>
      SendKeepsHistory(env, w, Pack(w.buffer));
      assert w.past.appended + [] == w.past.appended;
  }

  lemma {:induction false} SendNeverReturns(env: Env, w: Worker, groups: seq<seq<Element>>)
    requires w.health.Running?
    ensures !SendGroups(env, w, groups).health.Returned?
    decreases |groups|
  {
    if groups != [] && w.connection.Some? {
      var w1 := Transmit(env, w.(buffer := Flatten(groups[1..])), Push(groups[0]));
      if w1.connection.Some? {
        SendNeverReturns(env, w1, groups[1..]);
      }
    }
  }

  /** How a drained worker stands: nothing is left and everything was taken up, or the thread has ended. */
  ghost predicate TookUpAll(w: Worker, channel: seq<Message>, w': Worker, rest: seq<Message>) {
    && (w'.health.Running? ==>
          && rest == [] && !HasTerminate(channel)
          && w'.past.appended == w.past.appended + Payloads(channel)
          && w'.tracepoints == Merged(w.tracepoints, channel))
    && (w'.health.Returned? ==> HasTerminate(channel))
  }

  lemma OneMoreTakenUp(env: Env, w: Worker, channel: seq<Message>, w': Worker, rest: seq<Message>)
    requires w.health.Running? && channel != []
    requires var w1 := HandleMessage(env, w, channel[0]);
             if w1.health.Running? then TookUpAll(w1, channel[1..], w', rest) else w' == w1
    ensures TookUpAll(w, channel, w', rest)
  {
    MessageIsTakenUp(env, w, channel[0]);
    TerminateStays(channel);
    Associate(w.past.appended, if channel[0].Payload? then [channel[0].element] else [], Payloads(channel[1..]));
  }

  lemma {:induction false} DrainTakesUpAll(env: Env, w: Worker, channel: seq<Message>)
    requires w.health.Running?
    ensures TookUpAll(w, channel, Drain(env, w, channel).0, Drain(env, w, channel).1)
    decreases |channel|
  {
    if channel == [] {
      assert w.past.appended + [] == w.past.appended;
      assert !HasTerminate(channel);
    } else {
      var w1 := HandleMessage(env, w, channel[0]);
      assert Drain(env, w, channel) == Drain(env, w1, channel[1..]);
      if w1.health.Running? {
        DrainTakesUpAll(env, w1, channel[1..]);
      }
      OneMoreTakenUp(env, w, channel, Drain(env, w, channel).0, Drain(env, w, channel).1);
    }
  }

  /** A channel event takes up every message in order, up to `Terminate` or a panic. */
  lemma ChannelEventDrains(env: Env, w: Worker, channel: seq<Message>)
    requires w.health.Running?
    ensures var (w', rest) := HandleEvent(env, w, channel, ChannelReady);
            TookUpAll(w, channel, w', rest)
  {
    DrainTakesUpAll(env, w, channel);
  }

  // ----- the other events, and batches -----

  /** A listener event gives a tracer without a client one, if the accept succeeds, and changes nothing else. */
  lemma ListenerEventAccepts(env: Env, w: Worker, channel: seq<Message>, ok: bool)
    ensures var (w', rest) := HandleEvent(env, w, channel, ListenerReady(ok));
            && rest == channel
            && (w.connection.Some? ==> w' == w)
            && (w.connection.None? ==>
                  && w'.connection == (if ok then Some(w.sessions) else None)
                  && w'.clientConnected == (ok || w.clientConnected)
                  && w'.timers.udp.None? && w'.timers.queue == w.timers.queue
                  && w'.buffer == w.buffer && w'.flags == w.flags && w'.past == w.past && w'.health == w.health)
  {
  }

  /** A client event serves well-formed requests: the flags end as the last one naming them says. */
  lemma ClientEventServes(env: Env, w: Worker, channel: seq<Message>, rs: seq<Request>)
    requires w.health.Running? && w.phase.Idle? && w.connection.Some? && AllWellFormed(rs)
    requires CellsDistinct(w.tracepoints, |w.flags|)
    requires WritesHold(env, |w.past.log|, |w.past.log| + ListRequests(rs))
    ensures var (w', rest) := HandleEvent(env, w, channel, ClientReady(Burst(rs)));
            && rest == channel && OnlyFlagsAndLog(w, w') && |w'.past.log| == |w.past.log| + ListRequests(rs)
            && forall n :: n in w.tracepoints ==>
                 Load(w'.flags, w.tracepoints[n]) == LastWord(rs, n, Load(w.flags, w.tracepoints[n]))
  {
    LastWriterWins(env, w, rs);
    assert w.(phase := Idle) == w;
  }

  /** A batch is handled event by event: the second part where the first has led, if the thread still runs. */
  lemma {:induction false} BatchesCompose(env: Env, w: Worker, channel: seq<Message>, a: seq<Event>, b: seq<Event>)
    ensures var (w1, channel1) := HandleEvents(env, w, channel, a);
            HandleEvents(env, w, channel, a + b) == HandleEvents(env, w1, channel1, b)
    decreases |a|
  {
    if a == [] {
      assert a + b == b;
    } else if w.health.Running? {
      assert (a + b)[1..] == a[1..] + b;
      var (w1, channel1) := HandleEvent(env, w, channel, a[0]);
      BatchesCompose(env, w1, channel1, a[1..], b);
    }
  }

  lemma BatchOfOne(env: Env, w: Worker, channel: seq<Message>, e: Event)
    requires w.health.Running?
    ensures HandleEvents(env, w, channel, [e]) == HandleEvent(env, w, channel, e)
  {
    assert [e][1..] == [];
  }

  // ----- the end -----

  /** Every write that could still come does not fail. */
  ghost predicate WritesHoldFrom(env: Env, from: nat) {
    forall i :: from <= i ==> !env.net(i).Failed?
  }

  /** What a worker has been given: handed over or still buffered. */
  function Given(w: Worker): seq<Element> {
    Handed(w.past.log) + w.buffer
  }

  lemma SendingKeepsGiven(env: Env, w: Worker)
    requires w.connection.Some? && WritesHoldFrom(env, |w.past.log|)
    ensures var w' := SendTraceData(env, w);
            && w' == w.(buffer := [], past := w.past.(log := w'.past.log)) && WritesHoldFrom(env, |w'.past.log|)
            && Given(w') == Given(w) == Handed(w'.past.log)
  {
    SendingEmptiesTheBuffer(env, w);
    var w' := SendTraceData(env, w);
    assert Handed(w'.past.log) + [] == Handed(w'.past.log);
  }

  /** With a client and writes that hold, a message costs neither the client nor an element. */
  lemma MessageWithClient(env: Env, w: Worker, m: Message)
    requires w.health.Running? && w.connection.Some? && WritesHoldFrom(env, |w.past.log|)
    ensures var w' := HandleMessage(env, w, m);
            && w'.connection == w.connection && WritesHoldFrom(env, |w'.past.log|)
            && w'.health == (if m.Terminate? then Returned else Running)
            && Given(w') == Given(w) + (if m.Payload? then [m.element] else [])
            && (m.Terminate? ==> w'.buffer == [])
  {
    match m
    case Payload(e) =>
      var w1 := TakeUp(w, e);
      Associate(Handed(w.past.log), w.buffer, [e]);
      SendingKeepsGiven(env, w1.(timers := StopQueueTimer(w1.timers)));
    case NewTracepoint(_, _) =>
      assert Given(w) + [] == Given(w);
    case Terminate =>
      SendingKeepsGiven(env, w);
      assert Given(w) + [] == Given(w);
  }

  /** `Terminate` is the last message, and only that. */
  predicate EndsWithTerminate(channel: seq<Message>) {
    && channel != [] && channel[|channel| - 1].Terminate?
    && forall i :: 0 <= i < |channel| - 1 ==> !channel[i].Terminate?
  }

  lemma {:induction false} DrainToTheEnd(env: Env, w: Worker, channel: seq<Message>)
    requires w.health.Running? && w.connection.Some? && WritesHoldFrom(env, |w.past.log|) && EndsWithTerminate(channel)
    ensures var (w', rest) := Drain(env, w, channel);
            && w'.health.Returned? && rest == [] && w'.connection == w.connection && w'.buffer == []
            && Handed(w'.past.log) == Given(w) + Payloads(channel)
    decreases |channel|
  {
    var w1 := HandleMessage(env, w, channel[0]);
    MessageWithClient(env, w, channel[0]);
    assert Drain(env, w, channel) == Drain(env, w1, channel[1..]);
    var first := if channel[0].Payload? then [channel[0].element] else [];
    Associate(Given(w), first, Payloads(channel[1..]));
    if |channel| > 1 {
      assert EndsWithTerminate(channel[1..]);
      DrainToTheEnd(env, w1, channel[1..]);
    } else {
      assert channel[1..] == [] && Payloads(channel) == [];
      assert Handed(w1.past.log) + [] == Handed(w1.past.log);
    }
  }

  lemma FinitSendsTerminate(env: Env, s: System)
    requires Inv(s) && s.w.health.Running? && s.appLive && s.pending == map[]
    ensures var s1 := Step(env, s, Finit);
            s1 == s.(appLive := false, channel := s.channel + [Terminate]) && EndsWithTerminate(s1.channel)
    ensures Payloads(Step(env, s, Finit).channel) == Payloads(s.channel)
  {
    PayloadsSnoc(s.channel, Terminate);
    assert Payloads(s.channel) + [] == Payloads(s.channel);
    forall i | 0 <= i < |s.channel|
      ensures !s.channel[i].Terminate?
    {
      assert !HasTerminate(s.channel);
    }
  }

  /** After `tracy_finit` the next channel event ends the thread, whatever happens to the writes. */
  lemma FinitEndsTheThread(env: Env, s: System)
    requires ValidEnv(env) && Reachable(env, s) && s.w.health.Running? && s.appLive && s.pending == map[]
    ensures var s1 := Step(env, s, Finit);
            !HandleEvent(env, s1.w, s1.channel, ChannelReady).0.health.Running?
  {
    ReachableInv(env, s);
    FinitSendsTerminate(env, s);
    var s1 := Step(env, s, Finit);
    assert s1.channel[|s.channel|].Terminate?;
    ChannelEventDrains(env, s1.w, s1.channel);
  }

  /** With a client and writes that hold, it ends with everything submit ever accepted handed over. */
  lemma FinitFlushes(env: Env, s: System)
    requires ValidEnv(env) && Reachable(env, s) && s.w.health.Running? && s.appLive && s.pending == map[]
    requires s.w.connection.Some? && WritesHoldFrom(env, |s.w.past.log|)
    ensures var s1 := Step(env, s, Finit);
            var (w', rest) := HandleEvent(env, s1.w, s1.channel, ChannelReady);
            && w'.health.Returned? && rest == [] && w'.connection == s.w.connection && w'.buffer == []
            && Handed(w'.past.log) == s.accepted
  {
    ReachableInv(env, s);
    FinitSendsTerminate(env, s);
    DrainToTheEnd(env, s.w, Step(env, s, Finit).channel);
    NothingIsLostOrReordered(env, s);
  }
}
