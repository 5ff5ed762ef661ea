/**
 What is proved of an uninterrupted `receive` holds when the application runs in between: a
 registration only adds a cell that no request of this client can name yet, and submissions only read.
 */
module Interleaving {
  import opened Bytes
  import opened Names
  import opened Codec
  import opened TracerThread
  import opened Protocol
  import opened WorkerInvariants
  import opened SystemInvariants
  import opened Theorems
  import opened Requests
  import opened RequestTheorems
  import opened AfterClose
  import opened WritesAfterClose

  predicate AllOff(cells: seq<bool>) {
    forall i :: 0 <= i < |cells| ==> !cells[i]
  }

  /** The worker with cells added that its map does not know. */
  function Grown(w: Worker, cells: seq<bool>): Worker {
    w.(flags := w.flags + cells)
  }

  predicate KnowsItsCells(w: Worker) {
    forall n :: n in w.tracepoints ==> w.tracepoints[n] < |w.flags|
  }

  lemma GrownLoad(flags: seq<bool>, cells: seq<bool>, c: nat)
    requires AllOff(cells)
    ensures Load(flags + cells, c) == Load(flags, c)
  {
  }

  lemma GrownClose(w: Worker, cells: seq<bool>)
    requires AllOff(cells)
    ensures CloseAndClean(Grown(w, cells)) == Grown(CloseAndClean(w), cells)
  {
    var on := w.tracepoints.Values;
    assert ClearCells(w.flags + cells, on) == ClearCells(w.flags, on) + cells;
  }

  lemma GrownSetFlag(w: Worker, n: Name, state: bool, cells: seq<bool>)
    requires KnowsItsCells(w)
    ensures SetFlag(Grown(w, cells), n, state) == Grown(SetFlag(w, n, state), cells)
  {
    if n in w.tracepoints {
      var c := w.tracepoints[n];
      assert Store(w.flags + cells, c, state) == Store(w.flags, c, state) + cells;
    }
  }

  lemma GrownTransmit(env: Env, w: Worker, c: Cargo, cells: seq<bool>)
    requires AllOff(cells) && w.connection.Some?
    ensures Transmit(env, Grown(w, cells), c) == Grown(Transmit(env, w, c), cells)
  {
    var logged := w.(past := w.past.(log := w.past.log + [Write(w.connection.value, c, env.net(|w.past.log|))]));
    GrownClose(logged, cells);
  }

  lemma GrownReject(w: Worker, rest: Stream, cells: seq<bool>)
    requires AllOff(cells)
    ensures RejectHeader(Grown(w, cells), rest) == Grown(RejectHeader(w, rest), cells)
  {
    GrownClose(w, cells);
    GrownClose(CloseAndClean(w).(phase := Idle), cells);
  }

  lemma GrownCommand(env: Env, w: Worker, cmd: Command, len: nat, rest: Stream, cells: seq<bool>)
    requires AllOff(cells)
    ensures ExecuteCommand(env, Grown(w, cells), cmd, len, rest) == Grown(ExecuteCommand(env, w, cmd, len, rest), cells)
  {
    if cmd.TracepointListRequest? && w.connection.Some? {
      GrownTransmit(env, w, ListReply(env.keys(|w.past.log|, w.tracepoints.Keys)), cells);
    }
  }

  lemma GrownHeaderStep(env: Env, w: Worker, s: Stream, cells: seq<bool>)
    requires AllOff(cells)
    ensures HeaderStep(env, Grown(w, cells), s) == Grown(HeaderStep(env, w, s), cells)
  {
    match NextHeader(s)
    case NoHeader =>
    case LostClient => GrownClose(w, cells);
    case BadHeader(rest) => GrownReject(w, rest, cells);
    case Asked(cmd, len, rest) => GrownCommand(env, w, cmd, len, rest, cells);
  }

  lemma GrownNameStep(w: Worker, s: Stream, count: nat, len: nat, state: bool, cells: seq<bool>)
    requires AllOff(cells) && KnowsItsCells(w)
    ensures NameStep(Grown(w, cells), s, count, len, state) == Grown(NameStep(w, s, count, len, state), cells)
  {
    match NextName(s, count, len)
    case NoMore =>
    case Violation(_) => GrownClose(w, cells);
    case OneName(name, _, _) => GrownSetFlag(w, LookupKey(name), state, cells);
  }

  lemma GrownStep(env: Env, w: Worker, cells: seq<bool>)
    requires AllOff(cells) && KnowsItsCells(w) && Reading(w)
    ensures ReadStep(env, Grown(w, cells)) == Grown(ReadStep(env, w), cells)
  {
    match w.phase
    case AtHeader(s) => GrownHeaderStep(env, w, s, cells);
    case AtName(s, count, len, state) => GrownNameStep(w, s, count, len, state, cells);
  }

  lemma CommandKeepsMap(env: Env, w: Worker, cmd: Command, len: nat, rest: Stream)
    ensures var w1 := ExecuteCommand(env, w, cmd, len, rest);
            w1.tracepoints == w.tracepoints && |w1.flags| == |w.flags|
  {
  }

  /** Reading changes neither the map nor the number of cells. */
  lemma StepKeepsMap(env: Env, w: Worker)
    requires Reading(w)
    ensures var w1 := ReadStep(env, w); w1.tracepoints == w.tracepoints && |w1.flags| == |w.flags|
  {
    if w.phase.AtHeader? && NextHeader(w.phase.input).Asked? {
      var h := NextHeader(w.phase.input);
      CommandKeepsMap(env, w, h.cmd, h.len, h.rest);
    }
  }

  /** Cells added beforehand make no difference to a whole `receive`. */
  lemma {:induction false} GrownReceive(env: Env, w: Worker, cells: seq<bool>)
    requires AllOff(cells) && KnowsItsCells(w)
    ensures FinishReceive(env, Grown(w, cells)) == Grown(FinishReceive(env, w), cells)
    decreases Rank(w.phase)
  {
    if Reading(w) {
      GrownStep(env, w, cells);
      StepKeepsMap(env, w);
      ReadStepRanksDown(env, w);
      GrownReceive(env, ReadStep(env, w), cells);
    }
  }

  /** The tracer thread only reads on; the application does anything. */
  predicate OnlyReadsOn(actions: seq<Action>) {
    forall i :: 0 <= i < |actions| ==> IsAppAction(actions[i]) || actions[i].ReadOn?
  }

  /** An application step adds at most one cell, which is off. */
  lemma AppGrows(s: System, a: Action) returns (cells: seq<bool>)
    requires s.appLive && IsAppAction(a)
    ensures AllOff(cells) && AppStep(s, a).w == Grown(s.w, cells)
  {
    var flags := AppStep(s, a).w.flags;
    cells := if |flags| == |s.w.flags| then [] else [false];
    AppKeepsReading(s, a);
    assert s.w.flags + [] == s.w.flags;
  }

  /** One step of either thread: where `receive` will end changes by at most new cells. */
  lemma StepCommutes(env: Env, s: System, a: Action) returns (cells: seq<bool>)
    requires KnowsItsCells(s.w) && (IsAppAction(a) || a.ReadOn?)
    ensures AllOff(cells) && FinishReceive(env, Step(env, s, a).w) == Grown(FinishReceive(env, s.w), cells)
    ensures KnowsItsCells(Step(env, s, a).w)
  {
    cells := [];
    if IsAppAction(a) && s.appLive {
      cells := AppGrows(s, a);
      GrownReceive(env, s.w, cells);
    } else {
      var f := FinishReceive(env, s.w);
      assert f.flags + [] == f.flags;
      if a.ReadOn? && Reading(s.w) {
        StepKeepsMap(env, s.w);
      }
      assert FinishReceive(env, Step(env, s, a).w) == f;
    }
  }

  /** Whatever the application does meanwhile, `receive` gets where it would have got alone. */
  lemma {:induction false} ReadingCommutes(env: Env, s: System, actions: seq<Action>) returns (cells: seq<bool>)
    requires KnowsItsCells(s.w) && OnlyReadsOn(actions)
    ensures AllOff(cells) && FinishReceive(env, Run(env, s, actions).w) == Grown(FinishReceive(env, s.w), cells)
    decreases |actions|
  {
    if actions == [] {
      cells := [];
      var f := FinishReceive(env, s.w);
      assert f.flags + [] == f.flags;
    } else {
      var first := StepCommutes(env, s, actions[0]);
      var more := ReadingCommutes(env, Step(env, s, actions[0]), actions[1..]);
      cells := first + more;
      Associate(FinishReceive(env, s.w).flags, first, more);
    }
  }

  // ----- a readable event in a run -----

  /**
   In some run the client's socket becomes readable in `s`, with `input`; `receive` has ended in `s'`,
   and `actions` are what both threads did in between.
   */
  ghost predicate Served(env: Env, s: System, input: Stream, actions: seq<Action>, s': System) {
    && ValidEnv(env) && Reachable(env, s) && s.w.health.Running? && s.w.phase.Idle? && s.w.connection.Some?
    && OnlyReadsOn(actions) && s' == Run(env, Step(env, s, Readable(input)), actions) && !Reading(s'.w)
  }

  /** What `receive` alone would have made of the input. */
  function Alone(env: Env, s: System, input: Stream): Worker {
    FinishReceive(env, s.w.(phase := AtHeader(input)))
  }

  /** The worker after the event is the one that nobody interrupted, up to cells added meanwhile. */
  lemma ServedAsAlone(env: Env, s: System, input: Stream, actions: seq<Action>, s': System) returns (cells: seq<bool>)
    requires Served(env, s, input, actions, s')
    ensures AllOff(cells) && s'.w == Grown(Alone(env, s, input), cells)
    ensures CellsDistinct(s.w.tracepoints, |s.w.flags|) && KeysNormal(s.w.tracepoints)
  {
    ReachableInv(env, s);
    WorkerCellsDistinct(s);
    var s1 := Step(env, s, Readable(input));
    assert s1.w == s.w.(phase := AtHeader(input));
    cells := ReadingCommutes(env, s1, actions);
    assert FinishReceive(env, s'.w) == s'.w;
  }

  /** Last writer wins, with registrations, submissions and `tracy_finit` at any point in between. */
  lemma LastWriterWinsInRuns(env: Env, s: System, rs: seq<Request>, actions: seq<Action>, s': System)
    requires Served(env, s, Burst(rs), actions, s') && AllWellFormed(rs)
    requires WritesHold(env, |s.w.past.log|, |s.w.past.log| + ListRequests(rs))
    ensures s'.w.health.Running? && s'.w.phase.Idle? && s'.w.connection == s.w.connection
    ensures |s'.w.past.log| == |s.w.past.log| + ListRequests(rs)
    ensures ConsumesAll(env, s.w.(phase := AtHeader(Burst(rs))))
    ensures forall n :: n in s.w.tracepoints ==>
              Load(s'.w.flags, s.w.tracepoints[n]) == LastWord(rs, n, Load(s.w.flags, s.w.tracepoints[n]))
  {
    var cells := ServedAsAlone(env, s, Burst(rs), actions, s');
    LastWriterWins(env, s.w, rs);
    forall n | n in s.w.tracepoints
      ensures Load(s'.w.flags, s.w.tracepoints[n]) == LastWord(rs, n, Load(s.w.flags, s.w.tracepoints[n]))
    {
      GrownLoad(Alone(env, s, Burst(rs)).flags, cells, s.w.tracepoints[n]);
    }
  }

  /** A list of all names the worker knows, sent back as an enable request, enables them all. */
  lemma ListedNamesInRuns(env: Env, s: System, names: seq<Name>, actions: seq<Action>, s': System)
    requires Served(env, s, Burst([Enable(names)]), actions, s')
    requires Enumerates(names, s.w.tracepoints.Keys) && |EncodeNames(names)| < U32
    ensures s'.w.health.Running? && s'.w.phase.Idle? && s'.w.connection == s.w.connection
    ensures forall n :: n in s.w.tracepoints ==> Load(s'.w.flags, s.w.tracepoints[n])
  {
    var cells := ServedAsAlone(env, s, Burst([Enable(names)]), actions, s');
    AllNamesEnabled(env, s.w, names);
    forall n | n in s.w.tracepoints
      ensures Load(s'.w.flags, s.w.tracepoints[n])
    {
      GrownLoad(Alone(env, s, Burst([Enable(names)])).flags, cells, s.w.tracepoints[n]);
    }
  }

  /** In every run, a readable event panics exactly on the input that does not survive. */
  lemma ServingPanicsIff(env: Env, s: System, input: Stream, actions: seq<Action>, s': System)
    requires Served(env, s, input, actions, s')
    ensures s'.w.health.Panicked? <==> !Survives(env.net, |s.w.past.log|, true, AtHeader(input))
  {
    var cells := ServedAsAlone(env, s, input, actions, s');
    ReceivePanicsIff(env, s.w.(phase := AtHeader(input)));
  }

  /**
   In every run, after a readable event that cost the connection the flag of a registered name is on
   exactly when the worker knew the name and bytes read after the close enabled it.
   */
  lemma FlagsAfterServingIff(env: Env, s: System, input: Stream, actions: seq<Action>, s': System, n: Name)
    requires Served(env, s, input, actions, s') && !s'.w.health.Panicked? && s'.w.connection.None? && n in s'.app
    ensures var f := FateOf(env.net, |s.w.past.log|, AtHeader(input));
            Load(s'.w.flags, s'.app[n]) <==>
            n in s.w.tracepoints && f.ReadsOn? && LateWord(AtHeader(f.rest), n, false)
  {
    var cells := ServedAsAlone(env, s, input, actions, s');
    ServedInv(env, s, input, actions, s');
    ReceiveKeepsMap(env, s.w.(phase := AtHeader(input)));
    if n in s.w.tracepoints {
      SameCell(s', n);
      FlagsAfterCloseIff(env, s.w.(phase := AtHeader(input)), n);
      GrownLoad(Alone(env, s, input).flags, cells, s.w.tracepoints[n]);
    }
  }

  lemma ServedInv(env: Env, s: System, input: Stream, actions: seq<Action>, s': System)
    requires Served(env, s, input, actions, s')
    ensures InvOrPanic(s')
  {
    ReachableInv(env, s);
    StepKeeps(env, s, Readable(input));
    RunKeeps(env, Step(env, s, Readable(input)), actions);
  }

  lemma {:induction false} ReceiveKeepsMap(env: Env, w: Worker)
    ensures FinishReceive(env, w).tracepoints == w.tracepoints
    decreases Rank(w.phase)
  {
    if Reading(w) {
      ReadStepRanksDown(env, w);
      StepKeepsMap(env, w);
      ReceiveKeepsMap(env, ReadStep(env, w));
    }
  }
}
