/**
 The exact condition of `WithoutClient.dfy` extended to every disconnected state: a tracer that has
 closed the connection inside `receive` and is still reading can switch tracepoints on and so let a
 submission through that is already past its connection check.
 */
module WritesAfterClose {
  import opened Bytes
  import opened Names
  import opened Codec
  import opened Packing
  import opened TracerThread
  import opened Protocol
  import opened WorkerInvariants
  import opened SystemInvariants
  import opened Theorems
  import opened Requests
  import opened AfterClose
  import opened WithoutClient

  /** An enable request for `n` is among the bytes still to be read. */
  predicate EnabledAhead(p: Phase, n: Name)
    decreases Rank(p)
  {
    match p
    case AtHeader(s) =>
      BehindRanksDown(s);
      (match NextHeader(s)
       case Asked(cmd, len, rest) => EnabledAhead(Behind(cmd, len, rest), n)
       case _ => false)
    case AtName(s, count, len, state) =>
      NextNameWeight(s, count, len);
      (match NextName(s, count, len)
       case NoMore => EnabledAhead(AtHeader(s), n)
       case Violation(_) => false
       case OneName(name, rest, count') =>
         (state && LookupKey(name) == n) || EnabledAhead(AtName(rest, count', len, state), n))
    case _ => false
  }

  /** A submission past its connection check whose tracepoint the worker knows and is about to enable. */
  predicate AboutToBeAble(s: System, t: nat) {
    t in s.pending && s.pending[t].Connected? &&
    match FixTracepointStr(s.pending[t].raw)
    case None => false
    case Some(name) => name in s.w.tracepoints && EnabledAhead(s.w.phase, name)
  }

  predicate MayBeAble(s: System, t: nat) {
    Able(s, t) || AboutToBeAble(s, t)
  }

  /** What a disconnected tracer, wherever it stands, can still be made to write. */
  ghost predicate MayStillWrite(s: System) {
    && SurvivesClosed(s.w.phase)
    && (|| (!s.w.phase.Draining? && s.w.timers.queue.Some?)
        || Doomed(s)
        || (!HasTerminate(s.channel) && exists t :: MayBeAble(s, t)))
  }

  lemma SettledIsTheSame(s: System)
    requires Settled(s)
    ensures MayStillWrite(s) <==> CanStillWrite(s)
  {
    forall t
      ensures MayBeAble(s, t) <==> Able(s, t)
    {
    }
    if CanStillWrite(s) && !HasTerminate(s.channel) && exists t :: Able(s, t) {
      var t :| Able(s, t);
      assert MayBeAble(s, t);
    }
  }

  // ----- if not, then never -----

  /** Nothing in the channel, the timer or on its way into the channel can lead to a write. */
  ghost predicate Calm(s: System) {
    && s.w.timers.queue.None?
    && (if HasTerminate(s.channel) then
          Payloads(s.channel) == [] || s.w.occupancy + TotalLen(Payloads(s.channel)) <= QUEUE_TOTAL_SIZE
        else Payloads(s.channel) == [] && forall t :: !MayBeAble(s, t))
  }

  /** Inside `receive` without a client, and bound either for another panic or for no write at all. */
  ghost predicate QuietReader(s: System) {
    Inv(s) && Reading(s.w) && s.w.connection.None? && (SurvivesClosed(s.w.phase) ==> Calm(s))
  }

  /** A name the worker knows has the same cell in both maps. */
  lemma SameCell(s: System, n: Name)
    requires MapsAgree(s) && n in s.w.tracepoints
    ensures n in s.app && s.app[n] == s.w.tracepoints[n]
  {
    MergedExtends(s.w.tracepoints, s.channel, n);
  }

  /** A store makes a submission able only if it is the enabling of its own tracepoint. */
  lemma StoreMakesAble(s: System, key: Name, state: bool, p: Phase, t: nat)
    requires MapsAgree(s) && Able(s.(w := SetFlag(s.w, key, state).(phase := p)), t) && !Able(s, t)
    ensures state && key in s.w.tracepoints && s.pending[t].Connected?
    ensures FixTracepointStr(s.pending[t].raw) == Some(key)
  {
    var name := FixTracepointStr(s.pending[t].raw).value;
    assert key in s.w.tracepoints;
    SameCell(s, key);
    assert s.app[name] == s.app[key];
  }

  /** Reading on makes no submission able that was not about to be. */
  lemma ReadingMakesNoneAble(env: Env, s: System, t: nat)
    requires MapsAgree(s) && Reading(s.w) && s.w.connection.None? && !ReadStep(env, s.w).health.Panicked?
    requires MayBeAble(s.(w := ReadStep(env, s.w)), t)
    ensures MayBeAble(s, t)
  {
    match s.w.phase
    case AtHeader(i) =>
      BehindRanksDown(i);
      ClosedHeaderStep(env, s.w, i);
    case AtName(i, count, len, state) =>
      NextNameWeight(i, count, len);
      ClosedNameStep(env, s.w, i, count, len, state);
      NameMakesNoneAble(s, ReadStep(env, s.w), t);
  }

  lemma NameMakesNoneAble(s: System, w1: Worker, t: nat)
    requires MapsAgree(s) && s.w.phase.AtName? && MayBeAble(s.(w := w1), t)
    requires var AtName(i, count, len, state) := s.w.phase; var r := NextName(i, count, len);
             && !r.Violation?
             && (r.NoMore? ==> w1 == s.w.(phase := AtHeader(i)))
             && (r.OneName? ==>
                   w1 == SetFlag(s.w, LookupKey(r.name), state).(phase := AtName(r.rest, r.count, len, state)))
    ensures MayBeAble(s, t)
  {
    var AtName(i, count, len, state) := s.w.phase;
    var r := NextName(i, count, len);
    NextNameWeight(i, count, len);
    if r.OneName? && Able(s.(w := w1), t) && !Able(s, t) {
      StoreMakesAble(s, LookupKey(r.name), state, w1.phase, t);
    }
  }

  lemma ReadPanicSite(env: Env, w: Worker)
    requires Reading(w)
    ensures ReadStep(env, w).health != Panicked(TraceWrite)
  {
  }

  /** A step without a client leaves timers and counter alone. */
  lemma ClosedStepShape(env: Env, w: Worker)
    requires Reading(w) && w.connection.None? && !ReadStep(env, w).health.Panicked?
    ensures var w1 := ReadStep(env, w); w1.timers == w.timers && w1.occupancy == w.occupancy
  {
    match w.phase
    case AtHeader(i) => ClosedHeaderStep(env, w, i);
    case AtName(i, count, len, state) => ClosedNameStep(env, w, i, count, len, state);
  }

  lemma CalmAfterRead(env: Env, s: System)
    requires MapsAgree(s) && Calm(s) && Reading(s.w) && s.w.connection.None? && !ReadStep(env, s.w).health.Panicked?
    ensures Calm(s.(w := ReadStep(env, s.w)))
  {
    ClosedStepShape(env, s.w);
    var s1 := s.(w := ReadStep(env, s.w));
    if !HasTerminate(s.channel) {
      forall t
        ensures !MayBeAble(s1, t)
      {
        if MayBeAble(s1, t) {
          ReadingMakesNoneAble(env, s, t);
        }
      }
    }
  }

  /** Reading may end here, with nothing left to write. */
  lemma CalmIsOffline(s: System)
    requires Inv(s) && s.w.connection.None? && s.w.phase.Idle? && Calm(s)
    ensures Offline(s)
  {
    if !HasTerminate(s.channel) {
      forall t
        ensures !Able(s, t)
      {
        assert !MayBeAble(s, t);
      }
    }
  }

  /** From here on no trace data is written. */
  ghost predicate Safe(s: System) {
    s.w.health != Panicked(TraceWrite) && (s.w.health.Running? ==> Offline(s) || QuietReader(s))
  }

  lemma ReadOnStaysSafe(env: Env, s: System)
    requires ValidEnv(env) && QuietReader(s)
    ensures Safe(s.(w := ReadStep(env, s.w)))
  {
    var s1 := s.(w := ReadStep(env, s.w));
    ReadOnIs(env, s);
    ReadPanicSite(env, s.w);
    ClosedStepSurvives(env, s.w);
    if !s1.w.health.Panicked? {
      if SurvivesClosed(s.w.phase) {
        CalmAfterRead(env, s);
      }
      if s1.w.phase.Idle? {
        CalmIsOffline(s1);
      }
    }
  }

  lemma RegisterIsCalm(s: System, raw: Name)
    requires MapsAgree(s) && Calm(s) && s.appLive
    ensures Calm(AppStep(s, Register(raw)))
  {
    var s' := AppStep(s, Register(raw));
    var name := FixTracepointStr(raw);
    if name.Some? && name.value !in s.app {
      var m := NewTracepoint(name.value, |s.w.flags|);
      assert s'.channel == s.channel + [m];
      LoadGrown(s.w.flags);
      PayloadsSnoc(s.channel, m);
      assert Payloads(s.channel) + [] == Payloads(s.channel);
      RegisterAddsNoTerminate(s.channel, m);
      forall t
        ensures MayBeAble(s', t) ==> MayBeAble(s, t)
      {
      }
    } else {
      assert s' == s;
    }
  }

  lemma RegisterAddsNoTerminate(channel: seq<Message>, m: Message)
    requires !m.Terminate?
    ensures HasTerminate(channel + [m]) <==> HasTerminate(channel)
  {
    if HasTerminate(channel) {
      var i :| 0 <= i < |channel| && channel[i].Terminate?;
      assert (channel + [m])[i].Terminate?;
    }
  }

  lemma FinitIsCalm(s: System)
    requires Calm(s) && s.appLive && !HasTerminate(s.channel)
    ensures Calm(AppStep(s, Finit))
  {
    PayloadsSnoc(s.channel, Terminate);
    var s' := AppStep(s, Finit);
    assert s' != s ==> s'.channel[|s.channel|].Terminate?;
  }

  lemma AppStepIsCalm(s: System, a: Action)
    requires Inv(s) && Calm(s) && s.appLive && IsAppAction(a) && s.w.connection.None? && s.w.health.Running?
    ensures Calm(AppStep(s, a))
  {
    assert !HasTerminate(s.channel);
    match a
    case Register(raw) => RegisterIsCalm(s, raw);
    case SubmitCheckConnection(_, _, _) =>
    case SubmitCheckFlag(t, time) =>
      var s' := AppStep(s, a);
      assert !MayBeAble(s, t);
      forall u
        ensures MayBeAble(s', u) ==> MayBeAble(s, u)
      {
      }
    case SubmitSend(t) => assert !MayBeAble(s, t);
    case Finit => FinitIsCalm(s);
  }

  lemma StepStaysSafe(env: Env, s: System, a: Action)
    requires ValidEnv(env) && Safe(s) && a != Accept(true)
    ensures Safe(Step(env, s, a))
  {
    if !s.w.health.Running? || Offline(s) {
      StepStaysOffline(env, s, a);
    } else if IsAppAction(a) {
      if s.appLive {
        AppStepKeeps(s, a);
        AppKeepsReading(s, a);
        if SurvivesClosed(s.w.phase) {
          AppStepIsCalm(s, a);
        }
      }
    } else if a.ReadOn? {
      ReadOnStaysSafe(env, s);
    } else {
      assert WorkerStep(env, s, a) == s;
    }
  }

  /** The application touches nothing of the worker but the number of cells. */
  lemma AppKeepsReading(s: System, a: Action)
    requires s.appLive && IsAppAction(a)
    ensures AppStep(s, a).w == s.w.(flags := AppStep(s, a).w.flags)
  {
  }

  lemma {:induction false} RunStaysSafe(env: Env, s: System, actions: seq<Action>)
    requires ValidEnv(env) && Safe(s) && NoNewClient(actions)
    ensures Safe(Run(env, s, actions))
    decreases |actions|
  {
    if actions != [] {
      StepStaysSafe(env, s, actions[0]);
      RunStaysSafe(env, Step(env, s, actions[0]), actions[1..]);
    }
  }

  // ----- if so, then some run does -----

  /** `receive` runs to its end without a client and leaves channel, timers and counter as they are. */
  lemma {:induction false} ReadingEnds(env: Env, w: Worker)
    requires Reading(w) && w.connection.None? && SurvivesClosed(w.phase)
    ensures var w' := FinishReceive(env, w);
            && w'.health.Running? && w'.phase.Idle? && w'.connection.None?
            && w'.timers == w.timers && w'.occupancy == w.occupancy
    decreases Rank(w.phase)
  {
    var w1 := ReadStep(env, w);
    ReadStepRanksDown(env, w);
    assert FinishReceive(env, w) == FinishReceive(env, w1);
    ClosedStepSurvives(env, w);
    ClosedStepShape(env, w);
    if Reading(w1) {
      ReadingEnds(env, w1);
    } else {
      assert FinishReceive(env, w1) == w1;
    }
  }

  /** With something in the channel or the timer, reading on and then looking there writes. */
  lemma ReadThenWrite(env: Env, s: System) returns (actions: seq<Action>)
    requires ValidEnv(env) && SurvivingReader(s) && (s.w.timers.queue.Some? || Doomed(s))
    ensures NoNewClient(actions) && Run(env, s, actions).w.health == Panicked(TraceWrite)
  {
    var first := QuietReadOn(env, s);
    var s1 := Run(env, s, first);
    ReadingEnds(env, s.w);
    RunKeeps(env, s, first);
    var more := SomeRunWrites(env, s1);
    actions := first + more;
    RunConcat(env, s, first, more);
  }

  lemma {:induction false} QuietReadOn(env: Env, s: System) returns (actions: seq<Action>)
    ensures NoNewClient(actions) && Run(env, s, actions) == s.(w := FinishReceive(env, s.w))
    decreases Rank(s.w.phase)
  {
    if Reading(s.w) {
      ReadStepRanksDown(env, s.w);
      var s1 := Step(env, s, ReadOn);
      var more := QuietReadOn(env, s1);
      actions := [ReadOn] + more;
      assert actions[1..] == more;
    } else {
      actions := [];
      assert s == s.(w := s.w);
    }
  }

  /** A header on the way to the request that enables `n` is read without harm. */
  lemma HeaderNearerToEnabling(env: Env, w: Worker, n: Name)
    requires Reading(w) && w.connection.None? && w.phase.AtHeader? && SurvivesClosed(w.phase)
    requires EnabledAhead(w.phase, n)
    ensures var w1 := ReadStep(env, w); w1 == w.(phase := w1.phase) && Reading(w1) && EnabledAhead(w1.phase, n)
  {
    BehindRanksDown(w.phase.input);
    ClosedHeaderStep(env, w, w.phase.input);
  }

  /** A name on that way is stored: either it is `n` itself or the request still lies ahead. */
  lemma NameNearerToEnabling(env: Env, w: Worker, n: Name)
    requires Reading(w) && w.connection.None? && w.phase.AtName? && SurvivesClosed(w.phase)
    requires CellsDistinct(w.tracepoints, |w.flags|) && n in w.tracepoints && EnabledAhead(w.phase, n)
    ensures var w1 := ReadStep(env, w);
            && Reading(w1) && w1.tracepoints == w.tracepoints
            && (Load(w1.flags, w.tracepoints[n]) || EnabledAhead(w1.phase, n))
  {
    var AtName(i, count, len, state) := w.phase;
    NextNameWeight(i, count, len);
    ClosedNameStep(env, w, i, count, len, state);
    var r := NextName(i, count, len);
    if r.OneName? {
      SetFlagReads(w, LookupKey(r.name), state, n);
    }
  }

  lemma WorkerCellsDistinct(s: System)
    requires MapsAgree(s)
    ensures CellsDistinct(s.w.tracepoints, |s.w.flags|)
  {
    forall n | n in s.w.tracepoints
      ensures n in s.app && s.app[n] == s.w.tracepoints[n]
    {
      SameCell(s, n);
    }
  }

  /** One step towards the request that makes a submission able. */
  lemma NearerToAble(env: Env, s: System, t: nat)
    requires MapsAgree(s) && Reading(s.w) && s.w.connection.None? && SurvivesClosed(s.w.phase)
    requires AboutToBeAble(s, t)
    ensures var s1 := s.(w := ReadStep(env, s.w));
            Reading(s1.w) && MayBeAble(s1, t)
  {
    var n := FixTracepointStr(s.pending[t].raw).value;
    SameCell(s, n);
    if s.w.phase.AtHeader? {
      HeaderNearerToEnabling(env, s.w, n);
    } else {
      WorkerCellsDistinct(s);
      NameNearerToEnabling(env, s.w, n);
    }
  }

  /** A disconnected tracer inside `receive` that will get to its end. */
  ghost predicate SurvivingReader(s: System) {
    Inv(s) && Reading(s.w) && s.w.connection.None? && SurvivesClosed(s.w.phase)
  }

  lemma ReadOnIs(env: Env, s: System)
    requires ValidEnv(env) && Inv(s) && Reading(s.w)
    ensures Step(env, s, ReadOn) == s.(w := ReadStep(env, s.w)) && InvOrPanic(s.(w := ReadStep(env, s.w)))
  {
    ReadOnKeeps(env, s);
    assert WorkerStep(env, s, ReadOn) == s.(w := ReadStep(env, s.w));
  }

  lemma ReaderStep(env: Env, s: System, t: nat)
    requires ValidEnv(env) && SurvivingReader(s) && AboutToBeAble(s, t)
    ensures var s1 := Step(env, s, ReadOn);
            s1 == s.(w := ReadStep(env, s.w)) && SurvivingReader(s1) && MayBeAble(s1, t)
  {
    ReadOnIs(env, s);
    NearerToAble(env, s, t);
    ClosedStepSurvives(env, s.w);
  }

  /** The tracer reads on until a submission that was about to be able is able. */
  lemma {:induction false} ReadUntilAble(env: Env, s: System, t: nat) returns (actions: seq<Action>)
    requires ValidEnv(env) && SurvivingReader(s) && MayBeAble(s, t)
    ensures NoNewClient(actions)
    ensures var s' := Run(env, s, actions);
            s'.channel == s.channel && SurvivingReader(s') && Able(s', t)
    decreases Rank(s.w.phase)
  {
    if Able(s, t) {
      actions := [];
    } else {
      ReaderStep(env, s, t);
      ReadStepRanksDown(env, s.w);
      var s1 := Step(env, s, ReadOn);
      var more := ReadUntilAble(env, s1, t);
      actions := [ReadOn] + more;
      OneThenMore(env, s, ReadOn, more);
    }
  }

  lemma OneThenMore(env: Env, s: System, a: Action, more: seq<Action>)
    ensures Run(env, s, [a] + more) == Run(env, Step(env, s, a), more)
  {
    assert ([a] + more)[1..] == more;
  }

  lemma SomeReaderWrites(env: Env, s: System) returns (actions: seq<Action>)
    requires ValidEnv(env) && Inv(s) && Reading(s.w) && s.w.connection.None? && MayStillWrite(s)
    ensures NoNewClient(actions) && Run(env, s, actions).w.health == Panicked(TraceWrite)
  {
    if s.w.timers.queue.Some? || Doomed(s) {
      actions := ReadThenWrite(env, s);
    } else {
      var t :| MayBeAble(s, t);
      var first := ReadUntilAble(env, s, t);
      var s1 := Run(env, s, first);
      var second := AbleArrives(env, s1, t);
      var s2 := Run(env, s1, second);
      var third := ReadThenWrite(env, s2);
      RunConcat(env, s1, second, third);
      RunConcat(env, s, first, second + third);
      actions := first + (second + third);
    }
  }

  /**
   The claim made exact for every state of every run: a running tracer without a client, wherever it
   stands, can reach a trace-data write before the next client exactly when `MayStillWrite` holds.
   */
  lemma WritesWithoutClientIff(env: Env, s: System)
    requires ValidEnv(env) && Reachable(env, s) && s.w.health.Running? && s.w.connection.None?
    ensures MayWrite(env, s) <==> MayStillWrite(s)
  {
    ReachableInv(env, s);
    if Settled(s) {
      SettledIsTheSame(s);
      SettledWritesIff(env, s);
    } else if MayStillWrite(s) {
      var actions := SomeReaderWrites(env, s);
    } else {
      assert QuietReader(s);
      forall actions | NoNewClient(actions)
        ensures Run(env, s, actions).w.health != Panicked(TraceWrite)
      {
        RunStaysSafe(env, s, actions);
      }
    }
  }
}
