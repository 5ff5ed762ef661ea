/**
 Delivery over all sessions: what submit accepted is cut into consecutive slices, one per client, and
 every client whose writes completed has decoded exactly its slice.
 */
module Sessions {
  import opened Bytes
  import opened Codec
  import opened TracerThread
  import opened Protocol
  import opened WorkerInvariants
  import opened SystemInvariants
  import opened Theorems
  import opened Delivery

  /** The writes to sessions before number `k`. */
  function Before(log: seq<Write>, k: nat): seq<Write> {
    if log == [] then []
    else Before(log[..|log| - 1], k) + (if log[|log| - 1].session < k then [log[|log| - 1]] else [])
  }

  predicate Ordered(log: seq<Write>) {
    forall i, j :: 0 <= i < j < |log| ==> log[i].session <= log[j].session
  }

  predicate AllBefore(log: seq<Write>, k: nat) {
    forall i :: 0 <= i < |log| ==> log[i].session < k
  }

  lemma {:induction false} ElementsInIsHanded(log: seq<Write>)
    ensures ElementsIn(log) == Handed(log)
  {
    if log != [] {
      var front, x := log[..|log| - 1], log[|log| - 1];
      ElementsInIsHanded(front);
      ElementsInSnoc(front, x);
      assert log == front + [x];
    }
  }

  lemma {:induction false} NoneOfSession(log: seq<Write>, k: nat)
    requires AllBefore(log, k)
    ensures OfSession(log, k) == [] && Before(log, k) == log
  {
    if log != [] {
      NoneOfSession(log[..|log| - 1], k);
      assert log == log[..|log| - 1] + [log[|log| - 1]];
    }
  }

  /** `both` hands over what `before` does and then what `own` does. */
  predicate Joins(before: seq<Write>, own: seq<Write>, both: seq<Write>) {
    Handed(both) == Handed(before) + Handed(own)
  }

  lemma JoinOwn(before: seq<Write>, own: seq<Write>, both: seq<Write>, x: Write)
    requires Joins(before, own, both)
    ensures Joins(before, own + [x], both + [x])
  {
    HandedSnoc(both, x);
    HandedSnoc(own, x);
    Associate(Handed(before), Handed(own), ElementsOf(x.cargo));
  }

  lemma JoinNothing(before: seq<Write>)
    ensures Joins(before, [], before)
  {
    assert Handed(before) + [] == Handed(before);
  }

  lemma OneMoreWrite(front: seq<Write>, x: Write, k: nat)
    ensures Before(front + [x], k) == if x.session < k then Before(front, k) + [x] else Before(front, k)
    ensures OfSession(front + [x], k) == if x.session == k then OfSession(front, k) + [x] else OfSession(front, k)
  {
    assert (front + [x])[..|front|] == front;
    assert Before(front, k) + [] == Before(front, k);
    assert OfSession(front, k) + [] == OfSession(front, k);
  }

  lemma LastIsLatest(log: seq<Write>, k: nat)
    requires Ordered(log) && !AllBefore(log, k)
    ensures log != [] && log[|log| - 1].session >= k && Ordered(log[..|log| - 1])
  {
    var i :| 0 <= i < |log| && log[i].session >= k;
    assert i < |log| - 1 ==> log[i].session <= log[|log| - 1].session;
  }

  lemma JoinLast(front: seq<Write>, x: Write, k: nat)
    requires Joins(Before(front, k), OfSession(front, k), Before(front, k + 1)) && x.session >= k
    ensures Joins(Before(front + [x], k), OfSession(front + [x], k), Before(front + [x], k + 1))
  {
    OneMoreWrite(front, x, k);
    OneMoreWrite(front, x, k + 1);
    if x.session == k {
      JoinOwn(Before(front, k), OfSession(front, k), Before(front, k + 1), x);
    }
  }

  /** The elements before the next session are those before this one and then its own. */
  lemma {:induction false} NextSessionStarts(log: seq<Write>, k: nat)
    requires Ordered(log)
    ensures Joins(Before(log, k), OfSession(log, k), Before(log, k + 1))
  {
    if AllBefore(log, k) {
      NoneOfSession(log, k);
      NoneOfSession(log, k + 1);
      JoinNothing(log);
    } else {
      LastIsLatest(log, k);
      var front, x := log[..|log| - 1], log[|log| - 1];
      assert log == front + [x];
      NextSessionStarts(front, k);
      JoinLast(front, x, k);
    }
  }

  lemma {:induction false} NothingBeforeTheFirst(log: seq<Write>)
    ensures Before(log, 0) == []
  {
    if log != [] {
      NothingBeforeTheFirst(log[..|log| - 1]);
    }
  }

  function Concat(part: nat -> seq<Element>, k: nat): seq<Element> {
    if k == 0 then [] else Concat(part, k - 1) + part(k - 1)
  }

  lemma {:induction false} ConcatIs(part: nat -> seq<Element>, upto: nat -> seq<Element>, k: nat)
    requires upto(0) == [] && forall j: nat {:trigger part(j)} :: upto(j + 1) == upto(j) + part(j)
    ensures Concat(part, k) == upto(k)
  {
    if k != 0 {
      ConcatIs(part, upto, k - 1);
      assert upto(k - 1 + 1) == upto(k - 1) + part(k - 1);
    }
  }

  /** What the writes of each session carried. */
  function ShareOf(log: seq<Write>): nat -> seq<Element> {
    (k: nat) => ElementsIn(OfSession(log, k))
  }

  /** What the writes of the first `k` sessions carried: one session's elements behind the other's. */
  function Shares(log: seq<Write>, k: nat): seq<Element> {
    Concat(ShareOf(log), k)
  }

  lemma SharesAreHanded(log: seq<Write>, k: nat)
    requires Ordered(log)
    ensures Shares(log, k) == Handed(Before(log, k))
  {
    var upto := (j: nat) => Handed(Before(log, j));
    NothingBeforeTheFirst(log);
    forall j: nat
      ensures upto(j + 1) == upto(j) + ShareOf(log)(j)
    {
      NextSessionStarts(log, j);
      ElementsInIsHanded(OfSession(log, j));
    }
    ConcatIs(ShareOf(log), upto, k);
  }

  /**
   In every reachable state what submit accepted is, in order, one slice per session so far, then the
   buffer, then the channel: no element is in two sessions, and none is skipped between them.
   */
  lemma SessionsShareOutTheAccepted(env: Env, s: System)
    requires ValidEnv(env) && Reachable(env, s)
    ensures s.accepted == Shares(s.w.past.log, s.w.sessions) + s.w.buffer + Payloads(s.channel)
  {
    ReachableInv(env, s);
    assert Ordered(s.w.past.log) && AllBefore(s.w.past.log, s.w.sessions);
    SharesAreHanded(s.w.past.log, s.w.sessions);
    NoneOfSession(s.w.past.log, s.w.sessions);
  }

  /** And every client whose writes completed has decoded exactly its session's slice. */
  lemma EveryClientDecodesItsSlice(env: Env, s: System, k: nat)
    requires ValidEnv(env) && Reachable(env, s) && k < s.w.sessions && SessionWritesComplete(s.w.past.log, k)
    ensures var share := ElementsIn(OfSession(s.w.past.log, k));
            && ClientView(Wire(OfSession(s.w.past.log, k))) == Some(Records(share))
            && Shares(s.w.past.log, k) + share <= s.accepted
  {
    ReachableInv(env, s);
    SessionIsDelivered(s, k);
    ShareIsASlice(env, s, k);
  }

  lemma ShareIsASlice(env: Env, s: System, k: nat)
    requires ValidEnv(env) && Reachable(env, s) && k < s.w.sessions
    ensures Shares(s.w.past.log, k) + ElementsIn(OfSession(s.w.past.log, k)) <= s.accepted
  {
    SessionsShareOutTheAccepted(env, s);
    SharesFollow(s.w.past.log, k + 1, s.w.sessions);
    assert Shares(s.w.past.log, k + 1) == Shares(s.w.past.log, k) + ShareOf(s.w.past.log)(k);
  }

  lemma {:induction false} SharesFollow(log: seq<Write>, j: nat, k: nat)
    requires j <= k
    ensures Shares(log, j) <= Shares(log, k)
  {
    if j < k {
      SharesFollow(log, j, k - 1);
    }
  }
}
