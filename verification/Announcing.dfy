/**
 The announce timer: it is meant to run whenever no client is connected (src/lib.rs:213, 504-515), but
 a failed accept stops it (src/lib.rs:549-552). This module proves exactly when it is armed.
 */
module Announcing {
  import opened Bytes
  import opened Names
  import opened Codec
  import opened Packing
  import opened TracerThread
  import opened Protocol
  import opened WorkerInvariants
  import opened SystemInvariants
  import opened Theorems
  import opened Delivery
  import opened WithoutClient

  /** A worker after a step: a close has armed the announce timer, and nothing else has changed it. */
  predicate AnnounceKept(w: Worker, w': Worker) {
    w'.connection.None? && !w'.health.Panicked? ==>
      && (w.connection.Some? ==> w'.timers.udp.Some?)
      && (w.connection.None? ==> w'.timers.udp.Some? == w.timers.udp.Some? && w'.sessions == w.sessions)
  }

  lemma {:induction false} SendAnnounces(env: Env, w: Worker, groups: seq<seq<Element>>)
    ensures AnnounceKept(w, SendGroups(env, w, groups))
    ensures w.connection.Some? ==> SendGroups(env, w, groups).health == w.health
    decreases |groups|
  {
    if groups != [] && w.connection.Some? {
      var w1 := Transmit(env, w.(buffer := Flatten(groups[1..])), Push(groups[0]));
      if w1.connection.Some? {
        SendAnnounces(env, w1, groups[1..]);
      }
    }
  }

  lemma MessageAnnounces(env: Env, w: Worker, m: Message)
    requires w.health.Running?
    ensures AnnounceKept(w, HandleMessage(env, w, m))
  {
    match m
    case Payload(e) =>
      var w1 := TakeUp(w, e);
      SendAnnounces(env, w1.(timers := StopQueueTimer(w1.timers)), Pack(w1.buffer));
    case NewTracepoint(_, _) =>
    case Terminate => SendAnnounces(env, w, Pack(w.buffer));
  }

  lemma TimeoutAnnounces(env: Env, w: Worker, id: nat)
    requires TimersAgree(w.timers) && id in w.timers.armed
    ensures AnnounceKept(w, HandleTimeout(env, w, id))
  {
    var w1 := w.(timers := w.timers.(armed := w.timers.armed - {id}, queue := None));
    SendAnnounces(env, w1, Pack(w1.buffer));
  }

  lemma ReadAnnounces(env: Env, w: Worker)
    requires Reading(w)
    ensures AnnounceKept(w, ReadStep(env, w))
  {
  }

  /** An accept fails and is noticed: the thread is waiting for events without a client. */
  predicate FailsToAccept(s: System, a: Action) {
    a == Accept(false) && s.w.health.Running? && s.w.phase.Idle? && s.w.connection.None?
  }

  /** Apart from a failed accept, every step of every thread keeps the announce timer as it should be. */
  lemma StepAnnounces(env: Env, s: System, a: Action)
    requires Inv(s) && !FailsToAccept(s, a)
    ensures AnnounceKept(s.w, Step(env, s, a).w)
  {
    if !IsAppAction(a) && s.w.health.Running? {
      match a
      case Receive =>
        if s.channel != [] {
          MessageAnnounces(env, s.w, s.channel[0]);
        }
      case Timeout(id) =>
        if id in s.w.timers.armed {
          TimeoutAnnounces(env, s.w, id);
        }
      case ReadOn =>
        if Reading(s.w) {
          ReadAnnounces(env, s.w);
        }
      case _ =>
    }
  }

  /** Since the tracer last had a client, or since it started, an accept has failed. */
  ghost predicate AcceptFailed(env: Env, s: System, actions: seq<Action>)
    decreases |actions|
  {
    actions != [] &&
    var front, last := actions[..|actions| - 1], actions[|actions| - 1];
    var before := Run(env, s, front);
    before.w.connection.None? && (FailsToAccept(before, last) || AcceptFailed(env, s, front))
  }

  lemma RunSnoc(env: Env, s: System, actions: seq<Action>)
    requires actions != []
    ensures Run(env, s, actions) == Step(env, Run(env, s, actions[..|actions| - 1]), actions[|actions| - 1])
  {
    var front, last := actions[..|actions| - 1], actions[|actions| - 1];
    assert actions == front + [last];
    RunConcat(env, s, front, [last]);
    RunOne(env, Run(env, s, front), last);
  }

  /** Announcing was asked for, or a client has been there and has gone. */
  predicate Due(announce: bool, w: Worker) {
    announce || w.sessions > 0
  }

  lemma StepDue(env: Env, announce: bool, s: System, a: Action, failed: bool)
    requires ValidEnv(env) && Inv(s)
    requires s.w.connection.None? ==> (s.w.timers.udp.Some? <==> Due(announce, s.w) && !failed)
    requires !Step(env, s, a).w.health.Panicked? && Step(env, s, a).w.connection.None?
    ensures Step(env, s, a).w.timers.udp.Some? <==>
            Due(announce, Step(env, s, a).w) && !(s.w.connection.None? && (FailsToAccept(s, a) || failed))
  {
    if !FailsToAccept(s, a) {
      StepAnnounces(env, s, a);
      StepGrows(env, s, a);
    }
  }

  /**
   In every state of every run without a client, the announce timer is armed exactly when it is due
   and no accept has failed since the last client.
   */
  lemma {:induction false} AnnouncesIff(env: Env, announce: bool, actions: seq<Action>)
    requires ValidEnv(env)
    requires var w := Run(env, Init(announce), actions).w; !w.health.Panicked? && w.connection.None?
    ensures var w := Run(env, Init(announce), actions).w;
            w.timers.udp.Some? <==> Due(announce, w) && !AcceptFailed(env, Init(announce), actions)
    decreases |actions|
  {
    if actions != [] {
      var front, last := actions[..|actions| - 1], actions[|actions| - 1];
      var s := Run(env, Init(announce), front);
      RunSnoc(env, Init(announce), actions);
      EveryRunKeepsInv(env, announce, front);
      assert !s.w.health.Panicked?;
      if s.w.connection.None? {
        AnnouncesIff(env, announce, front);
      }
      StepDue(env, announce, s, last, AcceptFailed(env, Init(announce), front));
    }
  }

  predicate NoFailedAccept(actions: seq<Action>) {
    forall i :: 0 <= i < |actions| ==> actions[i] != Accept(false)
  }

  lemma {:induction false} NoneFailed(env: Env, s: System, actions: seq<Action>)
    requires NoFailedAccept(actions)
    ensures !AcceptFailed(env, s, actions)
    decreases |actions|
  {
    if actions != [] {
      NoneFailed(env, s, actions[..|actions| - 1]);
    }
  }

  /** As long as no accept fails, a tracer that was asked to announce does so whenever it has no client. */
  lemma AnnouncesWhileAcceptsHold(env: Env, actions: seq<Action>)
    requires ValidEnv(env) && NoFailedAccept(actions)
    requires var w := Run(env, Init(true), actions).w; !w.health.Panicked? && w.connection.None?
    ensures var t := Run(env, Init(true), actions).w.timers;
            exists id :: id in t.armed && t.armed[id].AnnounceTimer?
  {
    var w := Run(env, Init(true), actions).w;
    AnnouncesIff(env, true, actions);
    NoneFailed(env, Init(true), actions);
    EveryRunKeepsInv(env, true, actions);
    assert w.timers.udp.value in w.timers.armed;
  }

  // ----- after a failed accept -----

  lemma MessageStaysWithoutClient(env: Env, w: Worker, m: Message)
    requires w.connection.None?
    ensures HandleMessage(env, w, m).connection.None?
  {
  }

  lemma ReadStaysWithoutClient(env: Env, w: Worker)
    requires w.connection.None? && Reading(w)
    ensures ReadStep(env, w).connection.None?
  {
  }

  /** Only a successful accept gives a tracer a client. */
  lemma StaysWithoutClient(env: Env, s: System, a: Action)
    requires s.w.connection.None? && a != Accept(true)
    ensures Step(env, s, a).w.connection.None?
  {
    if !IsAppAction(a) && s.w.health.Running? {
      if a.Receive? && s.channel != [] {
        MessageStaysWithoutClient(env, s.w, s.channel[0]);
      } else if a.ReadOn? && Reading(s.w) {
        ReadStaysWithoutClient(env, s.w);
      }
    }
  }

  lemma {:induction false} StaysMute(env: Env, s: System, actions: seq<Action>)
    requires ValidEnv(env) && Inv(s) && !s.w.health.Panicked? && NoNewClient(actions)
    requires s.w.connection.None? && s.w.timers.udp.None?
    ensures var s' := Run(env, s, actions);
            s'.w.health.Panicked? || (Inv(s') && s'.w.connection.None? && s'.w.timers.udp.None?)
    decreases |actions|
  {
    if actions != [] {
      var s1 := Step(env, s, actions[0]);
      StepKeeps(env, s, actions[0]);
      StaysWithoutClient(env, s, actions[0]);
      if !FailsToAccept(s, actions[0]) {
        StepAnnounces(env, s, actions[0]);
      }
      if s1.w.health.Panicked? {
        PanicStays(env, s1, actions[1..]);
      } else {
        StaysMute(env, s1, actions[1..]);
      }
    }
  }

  lemma {:induction false} PanicStays(env: Env, s: System, actions: seq<Action>)
    requires s.w.health.Panicked?
    ensures Run(env, s, actions).w.health.Panicked?
    decreases |actions|
  {
    if actions != [] {
      PanicIsFinal(env, s, actions[0]);
      PanicStays(env, Step(env, s, actions[0]), actions[1..]);
    }
  }

  /** One failed accept ends the announcements of a tracer without a client, until a client has come. */
  lemma FailedAcceptSilencesTheBeacon(env: Env, s: System, actions: seq<Action>)
    requires ValidEnv(env) && Reachable(env, s) && FailsToAccept(s, Accept(false)) && NoNewClient(actions)
    ensures var s' := Run(env, Step(env, s, Accept(false)), actions);
            !s'.w.health.Panicked? ==> forall id :: id in s'.w.timers.armed ==> s'.w.timers.armed[id].QueueTimer?
  {
    ReachableInv(env, s);
    var s1 := Step(env, s, Accept(false));
    StepKeeps(env, s, Accept(false));
    StaysMute(env, s1, actions);
    var t := Run(env, s1, actions).w.timers;
    if !Run(env, s1, actions).w.health.Panicked? {
      forall id | id in t.armed
        ensures t.armed[id].QueueTimer?
      {
        assert t.udp.None?;
      }
    }
  }
}
