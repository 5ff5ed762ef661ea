/**
 What the application's calls do (src/lib.rs:313-350, 387-440): a submission puts exactly its own name,
 time and data into the channel, and in every run every accepted element is that of one call.
 */
module Submissions {
  import opened Bytes
  import opened Names
  import opened Codec
  import opened TracerThread
  import opened Protocol

  // ----- one call -----

  /** A registered tracepoint is on under this name, as it is put in normal form. */
  predicate IsOn(s: System, raw: Name) {
    && IsAscii(raw)
    && FixTracepointStr(raw).value in s.app
    && s.app[FixTracepointStr(raw).value] < |s.w.flags|
    && s.w.flags[s.app[FixTracepointStr(raw).value]]
  }

  /** An undisturbed submission adds its own name, time and bytes, or nothing. */
  lemma SubmitAddsItsElement(env: Env, s: System, t: nat, raw: Name, time: int, data: seq<byte>)
    requires s.appLive && t !in s.pending
    ensures var s' := Run(env, s, [SubmitCheckConnection(t, raw, data), SubmitCheckFlag(t, time), SubmitSend(t)]);
            if s.w.clientConnected && 1 <= |data| <= 2048 && IsOn(s, raw) then
              var e := Element(FixTracepointStr(raw).value, time, data);
              s' == s.(accepted := s.accepted + [e], channel := s.channel + [Payload(e)])
            else s' == s
  {
    var a, b, c := SubmitCheckConnection(t, raw, data), SubmitCheckFlag(t, time), SubmitSend(t);
    var s1 := Step(env, s, a);
    var s2 := Step(env, s1, b);
    var s3 := Step(env, s2, c);
    assert Run(env, s, [a, b, c]) == s3 by {
      assert [a, b, c][1..] == [b, c] && [b, c][1..] == [c] && [c][1..] == [];
      assert Run(env, s2, [c]) == s3;
      assert Run(env, s1, [b, c]) == s3;
    }
    assert s3.pending == s.pending;
  }

  /** Registering succeeds exactly for an ASCII string whose normal form is new; otherwise nothing changes. */
  lemma RegisterSucceedsIff(v: AppView, raw: Name)
    ensures var (v', code) := RegisterEffect(v, raw);
            && (code == 0 <==> IsAscii(raw) && FixTracepointStr(raw).value !in v.tracepoints)
            && (code != 0 ==> code == -1 && v' == v)
            && (code == 0 ==>
                  var name, cell := FixTracepointStr(raw).value, |v.flags|;
                  && v'.tracepoints == v.tracepoints[name := cell] && v'.flags == v.flags + [false]
                  && v'.channel == v.channel + [NewTracepoint(name, cell)])
  {
  }

  // ----- calls in runs -----

  /** The states a run goes through. */
  ghost predicate IsTrace(env: Env, acts: seq<Action>, tr: seq<System>) {
    |tr| == |acts| + 1 && forall i :: 0 <= i < |acts| ==> tr[i + 1] == Step(env, tr[i], acts[i])
  }

  lemma {:induction false} TraceIsTheRun(env: Env, acts: seq<Action>, tr: seq<System>)
    requires IsTrace(env, acts, tr)
    ensures tr[|acts|] == Run(env, tr[0], acts)
    decreases |acts|
  {
    if acts != [] {
      assert tr[0 + 1] == Step(env, tr[0], acts[0]);
      forall i | 0 <= i < |acts[1..]|
        ensures tr[1..][i + 1] == Step(env, tr[1..][i], acts[1..][i])
      {
        assert tr[(i + 1) + 1] == Step(env, tr[i + 1], acts[i + 1]);
      }
      TraceIsTheRun(env, acts[1..], tr[1..]);
    }
  }

  /** A call of `tracy_submit`, with the steps at which it checked the connection and the flag. */
  datatype Call = Call(thread: nat, raw: Name, time: int, data: seq<byte>, began: nat, checked: nat)

  /** What the call submits: its own name in normal form, the time it took, and all its bytes. */
  function ElementOf(c: Call): Element {
    Element(if IsAscii(c.raw) then FixTracepointStr(c.raw).value else [], c.time, c.data)
  }

  /** The call began with a client connected and an acceptable length. */
  predicate Began(acts: seq<Action>, tr: seq<System>, c: Call) {
    && c.began < |acts| < |tr|
    && acts[c.began] == SubmitCheckConnection(c.thread, c.raw, c.data)
    && tr[c.began].appLive && c.thread !in tr[c.began].pending
    && tr[c.began].w.clientConnected && 1 <= |c.data| <= 2048
  }

  /** Later it found its tracepoint registered and on. */
  predicate Checked(acts: seq<Action>, tr: seq<System>, c: Call) {
    && c.began < c.checked < |acts| < |tr|
    && acts[c.checked] == SubmitCheckFlag(c.thread, c.time) && IsOn(tr[c.checked], c.raw)
  }

  /** Up to state `k` the call is past its first check only. */
  predicate WaitsUpTo(tr: seq<System>, c: Call, k: nat) {
    forall j :: c.began < j <= k && j < |tr| ==>
      c.thread in tr[j].pending && tr[j].pending[c.thread] == Connected(c.raw, c.data)
  }

  /** Up to state `k` the thread is inside the call. */
  predicate BusyUpTo(tr: seq<System>, c: Call, k: nat) {
    forall j :: c.began < j <= k && j < |tr| ==> c.thread in tr[j].pending
  }

  /** In state `k` the thread of `c` is inside `c`, as far as `pending` says. */
  predicate InCall(acts: seq<Action>, tr: seq<System>, c: Call, k: nat) {
    && k < |tr| && Began(acts, tr, c) && c.began < k && BusyUpTo(tr, c, k)
    && match tr[k].pending[c.thread]
       case Connected(raw, data) => raw == c.raw && data == c.data && WaitsUpTo(tr, c, k)
       case Admitted(e) => Checked(acts, tr, c) && c.checked < k && WaitsUpTo(tr, c, c.checked) && e == ElementOf(c)
  }

  /** Where a submission under way comes from: it was there before, it begins, or it passes its second check. */
  lemma PendingStep(env: Env, s: System, a: Action, t: nat)
    requires t in Step(env, s, a).pending
    ensures var p := Step(env, s, a).pending[t];
            || (t in s.pending && s.pending[t] == p)
            || (t !in s.pending && p.Connected? && a == SubmitCheckConnection(t, p.raw, p.data)
                && s.appLive && s.w.clientConnected && 1 <= |p.data| <= 2048)
            || (t in s.pending && s.pending[t].Connected? && a.SubmitCheckFlag? && a.thread == t
                && IsOn(s, s.pending[t].raw)
                && p == Admitted(Element(FixTracepointStr(s.pending[t].raw).value, a.time, s.pending[t].data)))
  {
  }

  lemma CallGoesOn(acts: seq<Action>, tr: seq<System>, c: Call, k: nat)
    requires InCall(acts, tr, c, k) && k + 1 < |tr|
    requires c.thread in tr[k + 1].pending && tr[k + 1].pending[c.thread] == tr[k].pending[c.thread]
    ensures InCall(acts, tr, c, k + 1)
  {
  }

  lemma CallIsChecked(acts: seq<Action>, tr: seq<System>, c: Call, k: nat, time: int)
    requires InCall(acts, tr, c, k) && k < |acts| < |tr| && tr[k].pending[c.thread].Connected?
    requires acts[k] == SubmitCheckFlag(c.thread, time) && IsOn(tr[k], c.raw) && c.thread in tr[k + 1].pending
    requires tr[k + 1].pending[c.thread] == Admitted(Element(FixTracepointStr(c.raw).value, time, c.data))
    ensures InCall(acts, tr, c.(time := time, checked := k), k + 1)
  {
  }

  /** Every submission under way in a run is that of one call. */
  lemma {:induction false} FindCall(env: Env, acts: seq<Action>, tr: seq<System>, k: nat, t: nat) returns (c: Call)
    requires IsTrace(env, acts, tr) && tr[0].pending == map[] && k < |tr| && t in tr[k].pending
    ensures c.thread == t && InCall(acts, tr, c, k)
    decreases k
  {
    var s, a := tr[k - 1], acts[k - 1];
    assert tr[(k - 1) + 1] == Step(env, s, a);
    PendingStep(env, s, a, t);
    var p := tr[k].pending[t];
    if t !in s.pending {
      c := Call(t, p.raw, 0, p.data, k - 1, k - 1);
    } else {
      c := FindCall(env, acts, tr, k - 1, t);
      if s.pending[t] == p {
        CallGoesOn(acts, tr, c, k - 1);
      } else {
        CallIsChecked(acts, tr, c, k - 1, a.time);
        c := c.(time := a.time, checked := k - 1);
      }
    }
  }

  /** Only the last step of a call adds to what is accepted. */
  lemma AcceptedStep(env: Env, s: System, a: Action)
    ensures var s' := Step(env, s, a);
            || s'.accepted == s.accepted
            || (&& a.SubmitSend? && a.thread in s.pending && s.pending[a.thread].Admitted?
                && s'.accepted == s.accepted + [s.pending[a.thread].element]
                && s'.channel == s.channel + [Payload(s.pending[a.thread].element)])
  {
  }

  /** Step `k` is where the call `c` sends what it submits, right behind all that was accepted before. */
  ghost predicate Sends(acts: seq<Action>, tr: seq<System>, c: Call, k: nat) {
    && k < |acts| < |tr| && Began(acts, tr, c) && Checked(acts, tr, c) && c.checked < k
    && WaitsUpTo(tr, c, c.checked) && BusyUpTo(tr, c, k) && acts[k] == SubmitSend(c.thread)
    && tr[k + 1].accepted == tr[k].accepted + [ElementOf(c)]
    && tr[k + 1].channel == tr[k].channel + [Payload(ElementOf(c))]
  }

  lemma StepSends(env: Env, acts: seq<Action>, tr: seq<System>, k: nat) returns (c: Call)
    requires IsTrace(env, acts, tr) && tr[0].pending == map[] && k < |acts| && tr[k + 1].accepted != tr[k].accepted
    ensures Sends(acts, tr, c, k)
  {
    assert tr[k + 1] == Step(env, tr[k], acts[k]);
    AcceptedStep(env, tr[k], acts[k]);
    c := FindCall(env, acts, tr, k, acts[k].thread);
  }

  /**
   In every run every accepted element is what one call of `tracy_submit` was given: `accepted[i]` is
   added by the last step of a call that began with a client, found its tracepoint on, and submitted
   exactly this name, time and data.
   */
  lemma {:induction false} AcceptedIsSubmitted(env: Env, acts: seq<Action>, tr: seq<System>, n: nat, i: nat)
    returns (c: Call, k: nat)
    requires IsTrace(env, acts, tr) && tr[0].pending == map[] && tr[0].accepted == []
    requires n < |tr| && i < |tr[n].accepted|
    ensures k < n && Sends(acts, tr, c, k) && |tr[k].accepted| == i && tr[n].accepted[i] == ElementOf(c)
    decreases n
  {
    assert tr[(n - 1) + 1] == Step(env, tr[n - 1], acts[n - 1]);
    AcceptedStep(env, tr[n - 1], acts[n - 1]);
    if i < |tr[n - 1].accepted| {
      c, k := AcceptedIsSubmitted(env, acts, tr, n - 1, i);
    } else {
      k := n - 1;
      c := StepSends(env, acts, tr, k);
    }
  }

  // ----- and the other way round -----

  predicate OwnStep(a: Action, t: nat) {
    (a.SubmitCheckFlag? || a.SubmitSend?) && a.thread == t
  }

  /** A submission under way stays as it is, and the application alive, until its own thread goes on. */
  lemma OthersLeaveItAlone(env: Env, s: System, a: Action, t: nat)
    requires s.appLive && t in s.pending && !OwnStep(a, t)
    ensures var s' := Step(env, s, a); s'.appLive && t in s'.pending && s'.pending[t] == s.pending[t]
  {
  }

  lemma {:induction false} StaysPending(env: Env, acts: seq<Action>, tr: seq<System>, t: nat, from: nat, k: nat)
    requires IsTrace(env, acts, tr) && from <= k < |tr| && tr[from].appLive && t in tr[from].pending
    requires forall j :: from <= j < k ==> !OwnStep(acts[j], t)
    ensures tr[k].appLive && t in tr[k].pending && tr[k].pending[t] == tr[from].pending[t]
    decreases k
  {
    if from < k {
      StaysPending(env, acts, tr, t, from, k - 1);
      assert tr[(k - 1) + 1] == Step(env, tr[k - 1], acts[k - 1]);
      OthersLeaveItAlone(env, tr[k - 1], acts[k - 1], t);
    }
  }

  lemma CheckAdmits(env: Env, s: System, t: nat, raw: Name, time: int, data: seq<byte>)
    requires s.appLive && t in s.pending && s.pending[t] == Connected(raw, data) && IsOn(s, raw)
    ensures var s' := Step(env, s, SubmitCheckFlag(t, time));
            && s'.appLive && t in s'.pending
            && s'.pending[t] == Admitted(Element(FixTracepointStr(raw).value, time, data))
  {
  }

  /**
   A call that begins with a client and finds its tracepoint on is accepted as soon as its thread goes
   on, whatever the other threads do meanwhile.
   */
  lemma SubmittedIsAccepted(env: Env, acts: seq<Action>, tr: seq<System>, c: Call, k: nat)
    requires IsTrace(env, acts, tr) && Began(acts, tr, c) && Checked(acts, tr, c)
    requires c.checked < k < |acts| && acts[k] == SubmitSend(c.thread)
    requires forall j :: c.began < j < k && j != c.checked ==> !OwnStep(acts[j], c.thread)
    ensures tr[k + 1].accepted == tr[k].accepted + [ElementOf(c)]
    ensures tr[k + 1].channel == tr[k].channel + [Payload(ElementOf(c))]
  {
    assert tr[c.began + 1] == Step(env, tr[c.began], acts[c.began]);
    StaysPending(env, acts, tr, c.thread, c.began + 1, c.checked);
    assert tr[c.checked + 1] == Step(env, tr[c.checked], acts[c.checked]);
    CheckAdmits(env, tr[c.checked], c.thread, c.raw, c.time, c.data);
    StaysPending(env, acts, tr, c.thread, c.checked + 1, k);
    assert tr[k + 1] == Step(env, tr[k], acts[k]);
  }
}
