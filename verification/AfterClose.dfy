/**
 `receive` reads on after it has closed the connection (src/tcp_handler.rs:85-104, 277-295). This
 module proves exactly which input ends in a panic, and exactly which flags are on afterwards, both
 as functions of the bytes and of the outcomes of the list replies.
 */
module AfterClose {
  import opened Bytes
  import opened Names
  import opened Codec
  import opened TracerThread
  import opened WorkerInvariants
  import opened Requests
  import opened RequestTheorems

  /** Where `receive` stands after a header that asks for no reply. */
  function Behind(cmd: Command, len: nat, rest: Stream): Phase {
    match cmd
    case TracepointEnableRequest => AtName(rest, 0, len, true)
    case TracepointDisableRequest => AtName(rest, 0, len, false)
    case _ => AtHeader(rest)
  }

  lemma BehindRanksDown(s: Stream)
    ensures var h := NextHeader(s);
            h.Asked? ==> Rank(Behind(h.cmd, h.len, h.rest)) < Rank(AtHeader(s))
                         && Rank(AtHeader(h.rest)) < Rank(AtHeader(s))
  {
    NextHeaderWeight(s);
  }

  // ----- without a client -----

  /**
   The input a tracer that has already closed can read to the end: no list request, no bad header, no
   violation, and no end of the stream.
   */
  predicate SurvivesClosed(p: Phase)
    decreases Rank(p)
  {
    match p
    case AtHeader(s) =>
      BehindRanksDown(s);
      (match NextHeader(s)
       case NoHeader => true
       case LostClient => false
       case BadHeader(_) => false
       case Asked(cmd, len, rest) => !cmd.TracepointListRequest? && SurvivesClosed(Behind(cmd, len, rest)))
    case AtName(s, count, len, state) =>
      NextNameWeight(s, count, len);
      (match NextName(s, count, len)
       case NoMore => SurvivesClosed(AtHeader(s))
       case Violation(_) => false
       case OneName(_, rest, count') => SurvivesClosed(AtName(rest, count', len, state)))
    case _ => true
  }

  /** What the last request read from here on says about `n`, or `before` if none names it. */
  predicate LateWord(p: Phase, n: Name, before: bool)
    decreases Rank(p)
  {
    match p
    case AtHeader(s) =>
      BehindRanksDown(s);
      (match NextHeader(s)
       case Asked(cmd, len, rest) => LateWord(Behind(cmd, len, rest), n, before)
       case _ => before)
    case AtName(s, count, len, state) =>
      NextNameWeight(s, count, len);
      (match NextName(s, count, len)
       case NoMore => LateWord(AtHeader(s), n, before)
       case Violation(_) => before
       case OneName(name, rest, count') =>
         LateWord(AtName(rest, count', len, state), n, if LookupKey(name) == n then state else before))
    case _ => before
  }

  /** A step without a client panics, or ends `receive`, or only stores a flag and moves on. */
  lemma ClosedHeaderStep(env: Env, w: Worker, s: Stream)
    requires w.health.Running? && w.connection.None? && w.phase == AtHeader(s)
    ensures var h, w1 := NextHeader(s), ReadStep(env, w);
            && (w1.health.Panicked? <==> h.LostClient? || h.BadHeader? || (h.Asked? && h.cmd.TracepointListRequest?))
            && (h.NoHeader? ==> w1 == w.(phase := Idle))
            && (h.Asked? && !w1.health.Panicked? ==> w1 == w.(phase := Behind(h.cmd, h.len, h.rest)))
  {
  }

  lemma ClosedNameStep(env: Env, w: Worker, s: Stream, count: nat, len: nat, state: bool)
    requires w.health.Running? && w.connection.None? && w.phase == AtName(s, count, len, state)
    ensures var r, w1 := NextName(s, count, len), ReadStep(env, w);
            && (w1.health.Panicked? <==> r.Violation?)
            && (r.NoMore? ==> w1 == w.(phase := AtHeader(s)))
            && (r.OneName? ==>
                  w1 == SetFlag(w, LookupKey(r.name), state).(phase := AtName(r.rest, r.count, len, state)))
  {
  }

  /** One step keeps the verdict on the rest of the input. */
  lemma ClosedStepSurvives(env: Env, w: Worker)
    requires Reading(w) && w.connection.None?
    ensures var w1 := ReadStep(env, w);
            && (w1.health.Panicked? ==> !SurvivesClosed(w.phase))
            && (!w1.health.Panicked? ==>
                  && w1.connection.None? && (w1.phase.Idle? || Reading(w1))
                  && (SurvivesClosed(w.phase) <==> SurvivesClosed(w1.phase)))
  {
    match w.phase
    case AtHeader(s) =>
      BehindRanksDown(s);
      ClosedHeaderStep(env, w, s);
    case AtName(s, count, len, state) =>
      NextNameWeight(s, count, len);
      ClosedNameStep(env, w, s, count, len, state);
  }

  /** Reading on without a client panics exactly on the input that does not survive. */
  lemma {:induction false} ClosedReceivePanicsIff(env: Env, w: Worker)
    requires Reading(w) && w.connection.None?
    ensures FinishReceive(env, w).health.Panicked? <==> !SurvivesClosed(w.phase)
    decreases Rank(w.phase)
  {
    var w1 := ReadStep(env, w);
    ReadStepRanksDown(env, w);
    assert FinishReceive(env, w) == FinishReceive(env, w1);
    ClosedStepSurvives(env, w);
    if Reading(w1) {
      ClosedReceivePanicsIff(env, w1);
    }
  }

  /** One step does to the flag of `n` what the last word on it takes into account. */
  lemma ClosedStepStores(env: Env, w: Worker, n: Name)
    requires Reading(w) && w.connection.None? && !ReadStep(env, w).health.Panicked?
    requires CellsDistinct(w.tracepoints, |w.flags|) && n in w.tracepoints
    ensures var w1 := ReadStep(env, w);
            && w1.tracepoints == w.tracepoints && |w1.flags| == |w.flags|
            && LateWord(w.phase, n, Load(w.flags, w.tracepoints[n])) ==
               LateWord(w1.phase, n, Load(w1.flags, w.tracepoints[n]))
  {
    match w.phase
    case AtHeader(s) =>
      BehindRanksDown(s);
      ClosedHeaderStep(env, w, s);
    case AtName(s, count, len, state) =>
      NextNameWeight(s, count, len);
      ClosedNameStep(env, w, s, count, len, state);
      var r := NextName(s, count, len);
      if r.OneName? {
        SetFlagReads(w, LookupKey(r.name), state, n);
      }
  }

  /** And on the input that does, every flag ends as the last request read says. */
  lemma {:induction false} ClosedReceiveStores(env: Env, w: Worker, n: Name)
    requires Reading(w) && w.connection.None? && SurvivesClosed(w.phase)
    requires CellsDistinct(w.tracepoints, |w.flags|) && n in w.tracepoints
    ensures var w' := FinishReceive(env, w);
            && w'.connection.None? && w'.tracepoints == w.tracepoints
            && Load(w'.flags, w.tracepoints[n]) == LateWord(w.phase, n, Load(w.flags, w.tracepoints[n]))
    decreases Rank(w.phase)
  {
    var w1 := ReadStep(env, w);
    ReadStepRanksDown(env, w);
    assert FinishReceive(env, w) == FinishReceive(env, w1);
    ClosedStepSurvives(env, w);
    ClosedStepStores(env, w, n);
    if Reading(w1) {
      ClosedReceiveStores(env, w1, n);
    }
  }

  // ----- with a client -----

  /** How a `receive` that starts with a client ends as far as the connection goes. */
  datatype Fate =
    | StaysOpen
    | Leaves
    | ClosesTwice
    | ReadsOn(rest: Stream)

  /** The fate of some input, given the outcomes of the list replies from number `writes` on. */
  function FateOf(net: nat -> Outcome, writes: nat, p: Phase): Fate
    decreases Rank(p)
  {
    match p
    case AtHeader(s) =>
      BehindRanksDown(s);
      (match NextHeader(s)
       case NoHeader => StaysOpen
       case LostClient => Leaves
       case BadHeader(rest) => if rest.later == [] && rest.end.Broken? then ClosesTwice else Leaves
       case Asked(cmd, len, rest) =>
         if !cmd.TracepointListRequest? then FateOf(net, writes, Behind(cmd, len, rest))
         else if net(writes).Failed? then ReadsOn(rest)
         else FateOf(net, writes + 1, AtHeader(rest)))
    case AtName(s, count, len, state) =>
      NextNameWeight(s, count, len);
      (match NextName(s, count, len)
       case NoMore => FateOf(net, writes, AtHeader(s))
       case Violation(rest) => ReadsOn(rest)
       case OneName(_, rest, count') => FateOf(net, writes, AtName(rest, count', len, state)))
    case _ => StaysOpen
  }

  /** `w1` is `w` after a close inside `receive`: running, nobody connected, every flag off. */
  ghost predicate JustClosed(w: Worker, w1: Worker) {
    && w1.health.Running? && w1.connection.None? && w1.tracepoints == w.tracepoints && |w1.flags| == |w.flags|
    && w1.past.closes == w.past.closes + 1
    && forall n :: n in w.tracepoints ==> !Load(w1.flags, w.tracepoints[n])
  }

  /** How a worker that has been through `receive` stands, for each fate. */
  ghost predicate Meets(env: Env, f: Fate, w: Worker, w': Worker) {
    match f
    case StaysOpen => w'.health.Running? && w'.connection == w.connection
    case Leaves => JustClosed(w, w')
    case ClosesTwice => w'.health.Panicked?
    case ReadsOn(rest) => exists w1 :: JustClosed(w, w1) && w' == FinishReceive(env, w1.(phase := AtHeader(rest)))
  }

  lemma CloseIsJustClosed(w: Worker, p: Phase)
    requires w.health.Running? && w.connection.Some?
    ensures JustClosed(w, CloseAndClean(w).(phase := p))
  {
    var w1 := CloseAndClean(w);
    forall n | n in w.tracepoints
      ensures !Load(w1.flags, w.tracepoints[n])
    {
      assert w.tracepoints[n] in w.tracepoints.Values;
    }
  }

  /** `w1` is as connected as `w` and knows the same names. */
  predicate StillOpen(w: Worker, w1: Worker) {
    && w1.health.Running? && w1.connection == w.connection && w1.connection.Some? && w1.tracepoints == w.tracepoints
    && |w1.flags| == |w.flags| && w1.past.closes == w.past.closes
  }

  lemma MeetsEarlier(env: Env, f: Fate, w: Worker, w1: Worker, w': Worker)
    requires StillOpen(w, w1) && Meets(env, f, w1, w')
    ensures Meets(env, f, w, w')
  {
    if f.ReadsOn? {
      var w2 :| JustClosed(w1, w2) && w' == FinishReceive(env, w2.(phase := AtHeader(f.rest)));
      assert JustClosed(w, w2);
    }
  }

  lemma ClosedAndOn(env: Env, w: Worker, closed: Worker, rest: Stream)
    requires w.health.Running? && w.connection.Some? && StillOpen(w, closed)
    ensures Meets(env, ReadsOn(rest), w, FinishReceive(env, CloseAndClean(closed).(phase := AtHeader(rest))))
  {
    var w1 := CloseAndClean(closed).(phase := AtHeader(rest));
    CloseIsJustClosed(closed, AtHeader(rest));
    assert JustClosed(w, w1) && w1 == w1.(phase := AtHeader(rest));
  }

  /** A header read with a client: the fate is decided here, or nothing but the log changes. */
  lemma OpenHeaderStep(env: Env, w: Worker, s: Stream)
    requires w.health.Running? && w.connection.Some? && w.phase == AtHeader(s)
    ensures var h, w1, f := NextHeader(s), ReadStep(env, w), FateOf(env.net, |w.past.log|, w.phase);
            if h.Asked? && !(h.cmd.TracepointListRequest? && env.net(|w.past.log|).Failed?)
            then StillOpen(w, w1) && Reading(w1) && f == FateOf(env.net, |w1.past.log|, w1.phase)
            else Meets(env, f, w, FinishReceive(env, w1))
  {
    var h, w1 := NextHeader(s), ReadStep(env, w);
    BehindRanksDown(s);
    match h
    case NoHeader => assert FinishReceive(env, w1) == w1;
    case LostClient =>
      CloseIsJustClosed(w, Idle);
      assert FinishReceive(env, w1) == w1;
    case BadHeader(rest) =>
      CloseIsJustClosed(w, Idle);
      assert FinishReceive(env, w1) == w1;
    case Asked(cmd, len, rest) =>
      if cmd.TracepointListRequest? {
        var names := env.keys(|w.past.log|, w.tracepoints.Keys);
        FailedReply(env, w, ListReply(names), rest);
      }
  }

  lemma FailedReply(env: Env, w: Worker, c: Cargo, rest: Stream)
    requires w.health.Running? && w.connection.Some?
    ensures var o, w1 := env.net(|w.past.log|), Transmit(env, w, c).(phase := AtHeader(rest));
            if o.Failed? then Meets(env, ReadsOn(rest), w, FinishReceive(env, w1))
            else StillOpen(w, w1) && |w1.past.log| == |w.past.log| + 1
  {
    var x := Write(w.connection.value, c, env.net(|w.past.log|));
    var logged := w.(past := w.past.(log := w.past.log + [x]));
    ClosedAndOn(env, w, logged, rest);
  }

  lemma OpenNameStep(env: Env, w: Worker, s: Stream, count: nat, len: nat, state: bool)
    requires w.health.Running? && w.connection.Some? && w.phase == AtName(s, count, len, state)
    ensures var r, w1, f := NextName(s, count, len), ReadStep(env, w), FateOf(env.net, |w.past.log|, w.phase);
            if r.Violation? then Meets(env, f, w, FinishReceive(env, w1))
            else StillOpen(w, w1) && Reading(w1) && f == FateOf(env.net, |w1.past.log|, w1.phase)
  {
    NextNameWeight(s, count, len);
    match NextName(s, count, len)
    case NoMore =>
    case Violation(rest) => ClosedAndOn(env, w, w, rest);
    case OneName(_, _, _) =>
  }

  /** A step with a client leaves the fate as it is, or decides it. */
  ghost predicate FateGoesOn(env: Env, w: Worker, w1: Worker) {
    && StillOpen(w, w1) && Reading(w1)
    && FateOf(env.net, |w.past.log|, w.phase) == FateOf(env.net, |w1.past.log|, w1.phase)
  }

  lemma OpenStep(env: Env, w: Worker)
    requires Reading(w) && w.connection.Some?
    ensures var w1 := ReadStep(env, w);
            FateGoesOn(env, w, w1) || Meets(env, FateOf(env.net, |w.past.log|, w.phase), w, FinishReceive(env, w1))
  {
    match w.phase
    case AtHeader(s) => OpenHeaderStep(env, w, s);
    case AtName(s, count, len, state) => OpenNameStep(env, w, s, count, len, state);
  }

  /** Whatever a client sends, `receive` meets the fate of the input. */
  lemma {:induction false} ReceiveMeetsItsFate(env: Env, w: Worker)
    requires Reading(w) && w.connection.Some?
    ensures Meets(env, FateOf(env.net, |w.past.log|, w.phase), w, FinishReceive(env, w))
    decreases Rank(w.phase)
  {
    var w1 := ReadStep(env, w);
    ReadStepRanksDown(env, w);
    assert FinishReceive(env, w) == FinishReceive(env, w1);
    OpenStep(env, w);
    if FateGoesOn(env, w, w1) {
      ReceiveMeetsItsFate(env, w1);
      MeetsEarlier(env, FateOf(env.net, |w.past.log|, w.phase), w, w1, FinishReceive(env, w1));
    }
  }

  // ----- the exact conditions -----

  /** The input and the reply outcomes on which `receive` gets to its end. */
  predicate Survives(net: nat -> Outcome, writes: nat, connected: bool, p: Phase) {
    if !connected then SurvivesClosed(p) else
    var f := FateOf(net, writes, p);
    !f.ClosesTwice? && (f.ReadsOn? ==> SurvivesClosed(AtHeader(f.rest)))
  }

  /** From wherever it stands, `receive` panics exactly on the input that does not survive. */
  lemma ReceivePanicsIff(env: Env, w: Worker)
    requires Reading(w)
    ensures FinishReceive(env, w).health.Panicked? <==>
            !Survives(env.net, |w.past.log|, w.connection.Some?, w.phase)
  {
    if w.connection.None? {
      ClosedReceivePanicsIff(env, w);
    } else {
      ReceiveMeetsItsFate(env, w);
      var f := FateOf(env.net, |w.past.log|, w.phase);
      if f.ReadsOn? {
        var w1 :| JustClosed(w, w1) && FinishReceive(env, w) == FinishReceive(env, w1.(phase := AtHeader(f.rest)));
        ClosedReceivePanicsIff(env, w1.(phase := AtHeader(f.rest)));
      }
    }
  }

  /** A whole readable event on a running thread: also a reader without a client panics. */
  lemma ClientEventPanicsIff(env: Env, w: Worker, channel: seq<Message>, input: Stream)
    requires w.health.Running?
    ensures HandleEvent(env, w, channel, ClientReady(input)).0.health.Panicked? <==>
            w.connection.None? || !Survives(env.net, |w.past.log|, true, AtHeader(input))
  {
    if w.connection.Some? {
      ReceivePanicsIff(env, w.(phase := AtHeader(input)));
    }
  }

  /** Exactly which inputs end with the client gone and the thread alive. */
  lemma ReceiveClosesIff(env: Env, w: Worker)
    requires Reading(w) && w.connection.Some? && !FinishReceive(env, w).health.Panicked?
    ensures FinishReceive(env, w).connection.None? <==> !FateOf(env.net, |w.past.log|, w.phase).StaysOpen?
  {
    ReceiveMeetsItsFate(env, w);
    var f := FateOf(env.net, |w.past.log|, w.phase);
    if f.ReadsOn? {
      var w1 :| JustClosed(w, w1) && FinishReceive(env, w) == FinishReceive(env, w1.(phase := AtHeader(f.rest)));
      ClosedReceivePanicsIff(env, w1.(phase := AtHeader(f.rest)));
      ClosedStays(env, w1.(phase := AtHeader(f.rest)));
    }
  }

  lemma {:induction false} ClosedStays(env: Env, w: Worker)
    requires w.connection.None?
    ensures FinishReceive(env, w).connection.None?
    decreases Rank(w.phase)
  {
    if Reading(w) {
      ReadStepRanksDown(env, w);
      ClosedStays(env, ReadStep(env, w));
    }
  }

  /**
   A flag is on after a `receive` that lost the client exactly when bytes read after the close say so:
   on every other input the close has turned it off for good.
   */
  lemma FlagsAfterCloseIff(env: Env, w: Worker, n: Name)
    requires Reading(w) && w.connection.Some? && CellsDistinct(w.tracepoints, |w.flags|) && n in w.tracepoints
    requires FinishReceive(env, w).connection.None? && !FinishReceive(env, w).health.Panicked?
    ensures var f := FateOf(env.net, |w.past.log|, w.phase);
            Load(FinishReceive(env, w).flags, w.tracepoints[n]) <==> f.ReadsOn? && LateWord(AtHeader(f.rest), n, false)
  {
    ReceiveMeetsItsFate(env, w);
    var f := FateOf(env.net, |w.past.log|, w.phase);
    if f.ReadsOn? {
      var w1 :| JustClosed(w, w1) && FinishReceive(env, w) == FinishReceive(env, w1.(phase := AtHeader(f.rest)));
      ClosedReceivePanicsIff(env, w1.(phase := AtHeader(f.rest)));
      ClosedReceiveStores(env, w1.(phase := AtHeader(f.rest)), n);
    }
  }

  // ----- a client that goes away -----

  /** Without a client no stream that ends can be survived. */
  lemma {:induction false} EndedStreamIsFatal(p: Phase)
    requires (p.AtHeader? || p.AtName?) && Ends(p.input)
    ensures !SurvivesClosed(p)
    decreases Rank(p)
  {
    match p
    case AtHeader(s) =>
      BehindRanksDown(s);
      EndsStays(s, 0, 0);
      if NextHeader(s).Asked? {
        EndedStreamIsFatal(Behind(NextHeader(s).cmd, NextHeader(s).len, NextHeader(s).rest));
      }
    case AtName(s, count, len, state) =>
      NextNameWeight(s, count, len);
      EndsStays(s, count, len);
      match NextName(s, count, len) {
        case NoMore => EndedStreamIsFatal(AtHeader(s));
        case Violation(_) =>
        case OneName(_, rest, count') => EndedStreamIsFatal(AtName(rest, count', len, state));
      }
  }

  lemma {:induction false} EndedFate(net: nat -> Outcome, writes: nat, p: Phase)
    requires (p.AtHeader? || p.AtName?) && Ends(p.input)
    ensures var f := FateOf(net, writes, p); !f.StaysOpen? && (f.ReadsOn? ==> Ends(f.rest))
    decreases Rank(p)
  {
    match p
    case AtHeader(s) =>
      BehindRanksDown(s);
      EndsStays(s, 0, 0);
      var h := NextHeader(s);
      if h.Asked? {
        if h.cmd.TracepointListRequest? {
          EndedFate(net, writes + 1, AtHeader(h.rest));
        } else {
          EndedFate(net, writes, Behind(h.cmd, h.len, h.rest));
        }
      }
    case AtName(s, count, len, state) =>
      NextNameWeight(s, count, len);
      EndsStays(s, count, len);
      match NextName(s, count, len) {
        case NoMore => EndedFate(net, writes, AtHeader(s));
        case Violation(_) =>
        case OneName(_, rest, count') => EndedFate(net, writes, AtName(rest, count', len, state));
      }
  }

  /**
   A client that goes away takes the tracer thread with it, exactly unless everything it sent before
   was read with the connection open up to the header that is missing or bad.
   */
  lemma EndedStreamPanicsIff(env: Env, w: Worker)
    requires Reading(w) && w.connection.Some? && Ends(w.phase.input)
    ensures FinishReceive(env, w).health.Panicked? <==> !FateOf(env.net, |w.past.log|, w.phase).Leaves?
  {
    ReceivePanicsIff(env, w);
    var f := FateOf(env.net, |w.past.log|, w.phase);
    EndedFate(env.net, |w.past.log|, w.phase);
    if f.ReadsOn? {
      EndedStreamIsFatal(AtHeader(f.rest));
    }
  }

  /** Once the connection is closed and the client is gone, reading on always panics. */
  lemma ReadingOnAfterCloseAndEndPanics(env: Env, w: Worker)
    requires Reading(w) && w.connection.None? && Ends(w.phase.input)
    ensures FinishReceive(env, w).health.Panicked?
  {
    ClosedReceivePanicsIff(env, w);
    EndedStreamIsFatal(w.phase);
  }

  /** The input ends before the declared length is reached: the name loop closes and reads on. */
  lemma {:induction false} TruncatedFate(net: nat -> Outcome, writes: nat, p: Phase)
    requires p.AtName? && Ends(p.input) && p.len <= U32 - 34 && p.count + |p.input.ready| < p.len
    ensures FateOf(net, writes, p).ReadsOn?
    decreases Rank(p)
  {
    var AtName(s, count, len, state) := p;
    NextNameWeight(s, count, len);
    EndsStays(s, count, len);
    NextNameBytes(s, count, len);
    var r := NextName(s, count, len);
    if r.OneName? {
      TruncatedFate(net, writes, AtName(r.rest, r.count, len, state));
    }
  }

  /** A client that goes away inside an enable or disable request takes the tracer thread with it. */
  lemma TruncatedRequestPanics(env: Env, w: Worker)
    requires w.health.Running? && w.connection.Some? && w.phase.AtName? && Ends(w.phase.input)
    requires w.phase.len <= U32 - 34 && w.phase.count + |w.phase.input.ready| < w.phase.len
    ensures FinishReceive(env, w).health.Panicked?
  {
    TruncatedFate(env.net, |w.past.log|, w.phase);
    EndedStreamPanicsIff(env, w);
  }

  /** From the wire: a header that promises more than the client sends before it leaves. */
  lemma PromisedTooMuchPanics(env: Env, w: Worker, enable: bool, len: nat, body: seq<byte>, end: StreamEnd)
    requires w.health.Running? && w.connection.Some? && !end.Blocked?
    requires |body| < len <= U32 - 34
    ensures var cmd := if enable then ENABLE_REQUEST else DISABLE_REQUEST;
            FinishReceive(env, w.(phase := AtHeader(Stream(Header(cmd, len) + body, [], end)))).health.Panicked?
  {
    var cmd := if enable then ENABLE_REQUEST else DISABLE_REQUEST;
    var s := Stream(Header(cmd, len) + body, [], end);
    var w1 := w.(phase := AtName(s.(ready := body), 0, len, enable));
    HeaderExecuted(env, w, cmd, len, body, s);
    ReadsToFinish(env, w.(phase := AtHeader(s)), w1);
    TruncatedRequestPanics(env, w1);
  }

  // ----- well-formed requests behind a close -----

  predicate AsksForNoList(rs: seq<Request>) {
    forall i :: 0 <= i < |rs| ==> !rs[i].ListAll?
  }

  /** `w1` is a disconnected worker like `w` whose flags are as `rs` say last. */
  ghost predicate Decided(w: Worker, rs: seq<Request>, w1: Worker) {
    && w1.health.Running? && w1.connection.None? && w1.tracepoints == w.tracepoints && |w1.flags| == |w.flags|
    && forall n :: n in w.tracepoints ==>
         Load(w1.flags, w.tracepoints[n]) == LastWord(rs, n, Load(w.flags, w.tracepoints[n]))
  }

  lemma OneMoreDecides(env: Env, w: Worker, rs: seq<Request>, w1: Worker)
    requires rs != [] && !rs[|rs| - 1].ListAll? && Decided(w, rs[..|rs| - 1], w1)
    requires CellsDistinct(w.tracepoints, |w.flags|)
    ensures Decided(w, rs, Apply(env, w1, rs[|rs| - 1]))
  {
    var last := rs[|rs| - 1];
    SetAllOffline(w1, last.names, last.Enable?);
    forall n | n in w.tracepoints
      ensures Load(Apply(env, w1, last).flags, w.tracepoints[n]) == LastWord(rs, n, Load(w.flags, w.tracepoints[n]))
    {
      SetAllReads(w1, last.names, last.Enable?, n);
    }
  }

  /** Without a client well-formed requests are executed just the same. */
  lemma {:induction false} LateRequests(env: Env, w: Worker, rs: seq<Request>, tail: seq<byte>, s: Stream)
    requires w.health.Running? && w.connection.None? && AllWellFormed(rs) && AsksForNoList(rs)
    requires CellsDistinct(w.tracepoints, |w.flags|) && s.ready == EncodeRequests(rs) + tail
    ensures ReadsTo(env, w.(phase := AtHeader(s)), ApplyAll(env, w, rs).(phase := AtHeader(s.(ready := tail))))
    ensures Decided(w, rs, ApplyAll(env, w, rs))
    decreases |rs|
  {
    if rs == [] {
      assert EncodeRequests(rs) + tail == tail;
      ReadsNothing(env, w.(phase := AtHeader(s)));
    } else {
      var front, last := rs[..|rs| - 1], rs[|rs| - 1];
      var more := EncodeRequest(last) + tail;
      Associate(EncodeRequests(front), EncodeRequest(last), tail);
      LateRequests(env, w, front, more, s);
      var w1 := ApplyAll(env, w, front);
      OneMoreDecides(env, w, rs, w1);
      RequestExecuted(env, w1, last, tail, s.(ready := more));
      ReadsFurther(env, w.(phase := AtHeader(s)), w1.(phase := AtHeader(s.(ready := more))),
                   ApplyAll(env, w, rs).(phase := AtHeader(s.(ready := tail))));
    }
  }

  lemma {:induction false} SetAllOffline(w: Worker, ns: seq<Name>, state: bool)
    ensures var w1 := SetAll(w, ns, state);
            && w1.health == w.health && w1.connection == w.connection && w1.tracepoints == w.tracepoints
            && |w1.flags| == |w.flags|
    decreases |ns|
  {
    if ns != [] {
      SetAllOffline(SetFlag(w, LookupKey(ns[0]), state), ns[1..], state);
    }
  }

  /**
   A violation closes, and then any burst of well-formed enable and disable requests decides every
   flag as if a client were there, starting from off.
   */
  lemma LateRequestsDecide(env: Env, w: Worker, rs: seq<Request>, rest: Stream)
    requires w.health.Running? && w.connection.Some? && w.phase.AtName?
    requires NextName(w.phase.input, w.phase.count, w.phase.len) == Violation(rest)
    requires rest == Stream(EncodeRequests(rs), [], Blocked) && AllWellFormed(rs) && AsksForNoList(rs)
    requires CellsDistinct(w.tracepoints, |w.flags|)
    ensures var w' := FinishReceive(env, w);
            && w'.health.Running? && w'.phase == Idle && w'.connection.None?
            && forall n :: n in w.tracepoints ==> Load(w'.flags, w.tracepoints[n]) == LastWord(rs, n, false)
  {
    var w1 := CloseAndClean(w);
    CloseIsJustClosed(w, w.phase);
    assert FinishReceive(env, w) == FinishReceive(env, w1.(phase := AtHeader(rest)));
    assert EncodeRequests(rs) + [] == EncodeRequests(rs);
    LateRequests(env, w1, rs, [], rest);
    ReadsToFinish(env, w1.(phase := AtHeader(rest)),
                  ApplyAll(env, w1, rs).(phase := AtHeader(Stream([], [], Blocked))));
    ReceiveWaits(env, ApplyAll(env, w1, rs), Blocked);
  }

  /**
   The shortest such input: a name length over 32 closes the connection, and an enable request behind
   it switches a flag on with nobody connected.
   */
  lemma LateEnableIsExecuted(env: Env, w: Worker, n: Name)
    requires w.health.Running? && w.connection.Some? && n in w.tracepoints && IsNormal(n)
    requires CellsDistinct(w.tracepoints, |w.flags|)
    ensures var bytes := Header(ENABLE_REQUEST, 2) + (ToBytes(33, 2) + EncodeRequest(Enable([n])));
            var w' := FinishReceive(env, w.(phase := AtHeader(Stream(bytes, [], Blocked))));
            && w'.health.Running? && w'.phase == Idle && w'.connection.None? && w'.past.lateStore
            && Load(w'.flags, w.tracepoints[n])
  {
    var late := EncodeRequest(Enable([n]));
    var w1 := CloseAndClean(w);
    TooLongNameCloses(env, w, late);
    OneNameRequest(env, w1, n, Stream(late, [], Blocked));
    SetFlagReads(w1, n, true, n);
  }

  lemma TooLongNameCloses(env: Env, w: Worker, late: seq<byte>)
    requires w.health.Running? && w.connection.Some?
    ensures var bytes := Header(ENABLE_REQUEST, 2) + (ToBytes(33, 2) + late);
            FinishReceive(env, w.(phase := AtHeader(Stream(bytes, [], Blocked)))) ==
            FinishReceive(env, CloseAndClean(w).(phase := AtHeader(Stream(late, [], Blocked))))
  {
    var body := ToBytes(33, 2) + late;
    var s := Stream(Header(ENABLE_REQUEST, 2) + body, [], Blocked);
    var s1 := s.(ready := body);
    HeaderExecuted(env, w, ENABLE_REQUEST, 2, body, s);
    ReadsToFinish(env, w.(phase := AtHeader(s)), w.(phase := AtName(s1, 0, 2, true)));
    TooLongIsViolation(late, s1);
    ViolationCloses(env, w, s1, 0, 2, true, s1.(ready := late));
  }

  lemma ViolationCloses(env: Env, w: Worker, s: Stream, count: nat, len: nat, state: bool, rest: Stream)
    requires w.health.Running? && NextName(s, count, len) == Violation(rest)
    ensures FinishReceive(env, w.(phase := AtName(s, count, len, state))) ==
            FinishReceive(env, CloseAndClean(w).(phase := AtHeader(rest)))
  {
    var w0, w1 := w.(phase := AtName(s, count, len, state)), CloseAndClean(w).(phase := AtHeader(rest));
    assert ReadStep(env, w0) == w1;
    ReadsOnce(env, w0, w1);
    ReadsToFinish(env, w0, w1);
  }

  lemma TooLongIsViolation(late: seq<byte>, s: Stream)
    requires s.ready == ToBytes(33, 2) + late
    ensures NextName(s, 0, 2) == Violation(s.(ready := late))
  {
    Pow256Values();
    FromTo(33, 2);
    ReadReady(ToBytes(33, 2), late, s);
  }
}
