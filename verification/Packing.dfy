/**
 How `send_trace_data` (src/tcp_handler.rs:148-180) groups the buffer into frames, as a function of
 the buffer, and why no other order-preserving grouping needs fewer frames.
 */
module Packing {
  import opened Bytes
  import opened Names
  import opened Codec

  const QUEUE_TOTAL_SIZE: nat := 4096
  const BODY_LIMIT: nat := 4087

  /** The code's own test for appending `e` to a queue of `queued` bytes. */
  predicate HasSpace(queued: nat, e: Element) {
    ElementLen(e) + queued + HEADER_LEN < QUEUE_TOTAL_SIZE
  }

  /** Groups of elements, one per frame: `cur` is already in the queue, `rest` still in the buffer. */
  function PackFrom(cur: seq<Element>, rest: seq<Element>): seq<seq<Element>>
    decreases |rest|
  {
    if rest == [] then (if cur == [] then [] else [cur])
    else if cur == [] || HasSpace(|PushBody(cur)|, rest[0]) then PackFrom(cur + [rest[0]], rest[1..])
    else [cur] + PackFrom([rest[0]], rest[1..])
  }

  function Pack(buffer: seq<Element>): seq<seq<Element>> {
    PackFrom([], buffer)
  }

  /** Every element alone passes the test on an empty queue. */
  predicate AllFit(es: seq<Element>) {
    forall i :: 0 <= i < |es| ==> HasSpace(0, es[i])
  }

  lemma AcceptableFits(es: seq<Element>)
    requires AllAcceptable(es)
    ensures AllFit(es)
  {
  }

  predicate LegalGroup(g: seq<Element>) {
    |PushBody(g)| <= BODY_LIMIT
  }

  /** The test on the element's own length is a limit on the encoded body, 3 bytes more than it looks. */
  lemma SpaceTestIsBodyLimit(cur: seq<Element>, e: Element)
    ensures HasSpace(|PushBody(cur)|, e) <==> LegalGroup(cur + [e])
  {
    PushBodySnoc(cur, e);
  }

  /** Nothing is lost, duplicated or reordered. */
  lemma {:induction false} PackKeepsElements(cur: seq<Element>, rest: seq<Element>)
    ensures Flatten(PackFrom(cur, rest)) == cur + rest
    decreases |rest|
  {
    if rest == [] {
      assert Flatten([cur]) == cur + Flatten<Element>([]);
    } else if cur == [] || HasSpace(|PushBody(cur)|, rest[0]) {
      PackKeepsElements(cur + [rest[0]], rest[1..]);
      assert cur + [rest[0]] + rest[1..] == cur + rest;
    } else {
      PackKeepsElements([rest[0]], rest[1..]);
      assert [rest[0]] + rest[1..] == rest;
      assert ([cur] + PackFrom([rest[0]], rest[1..]))[1..] == PackFrom([rest[0]], rest[1..]);
    }
  }

  /** Every group is non-empty and legal. */
  lemma {:induction false} PackIsLegal(cur: seq<Element>, rest: seq<Element>)
    requires AllFit(rest) && LegalGroup(cur)
    ensures forall i :: 0 <= i < |PackFrom(cur, rest)| ==>
              PackFrom(cur, rest)[i] != [] && LegalGroup(PackFrom(cur, rest)[i])
    decreases |rest|
  {
    if rest != [] {
      var e := rest[0];
      if cur == [] || HasSpace(|PushBody(cur)|, e) {
        SpaceTestIsBodyLimit(cur, e);
        PackIsLegal(cur + [e], rest[1..]);
      } else {
        SpaceTestIsBodyLimit([], e);
        assert [] + [e] == [e];
        PackIsLegal([e], rest[1..]);
      }
    }
  }

  /** Each non-final frame could not have taken the element that starts the next one. */
  lemma {:induction false} PackIsMaximal(cur: seq<Element>, rest: seq<Element>, i: nat)
    requires i + 1 < |PackFrom(cur, rest)|
    ensures PackFrom(cur, rest)[i + 1] != []
    ensures !LegalGroup(PackFrom(cur, rest)[i] + [PackFrom(cur, rest)[i + 1][0]])
    decreases |rest|
  {
    var e := rest[0];
    if cur == [] || HasSpace(|PushBody(cur)|, e) {
      PackIsMaximal(cur + [e], rest[1..], i);
    } else {
      PackHead([e], rest[1..]);
      SpaceTestIsBodyLimit(cur, e);
      if i > 0 {
        PackIsMaximal([e], rest[1..], i - 1);
      }
    }
  }

  lemma {:induction false} PackHead(cur: seq<Element>, rest: seq<Element>)
    requires cur != []
    ensures PackFrom(cur, rest) != [] && cur <= PackFrom(cur, rest)[0]
    decreases |rest|
  {
    if rest != [] && HasSpace(|PushBody(cur)|, rest[0]) {
      PackHead(cur + [rest[0]], rest[1..]);
    }
  }

  // ----- greedy packing is optimal -----

  /** Starting with less in the queue never costs a frame. */
  lemma {:induction false} LessQueuedIsNoWorse(a: seq<Element>, b: seq<Element>, rest: seq<Element>)
    requires |PushBody(a)| <= |PushBody(b)| && (b == [] ==> a == [])
    ensures |PackFrom(a, rest)| <= |PackFrom(b, rest)|
    decreases |rest|, 1
  {
    if rest != [] {
      var e, tail := rest[0], rest[1..];
      PushBodySnoc(a, e);
      PushBodySnoc(b, e);
      PushBodySnoc([], e);
      assert [] + [e] == [e];
      if b == [] || HasSpace(|PushBody(b)|, e) {
        LessQueuedIsNoWorse(a + [e], b + [e], tail);
      } else if a == [] || HasSpace(|PushBody(a)|, e) {
        QueueCostsAtMostOne(a + [e], tail);
        LessQueuedIsNoWorse([], [e], tail);
      }
    }
  }

  /** What is already queued costs at most one frame. */
  lemma {:induction false} QueueCostsAtMostOne(cur: seq<Element>, rest: seq<Element>)
    ensures |PackFrom(cur, rest)| <= 1 + |PackFrom([], rest)|
    decreases |rest|, 0
  {
    if rest != [] {
      var e, tail := rest[0], rest[1..];
      assert [] + [e] == [e];
      if cur == [] || HasSpace(|PushBody(cur)|, e) {
        QueueCostsAtMostOne(cur + [e], tail);
        PushBodySnoc([], e);
        LessQueuedIsNoWorse([], [e], tail);
      }
    }
  }

  lemma {:induction false} PrefixIsLegal(g: seq<Element>, k: nat)
    requires k <= |g| && LegalGroup(g)
    ensures LegalGroup(g[..k])
    decreases |g| - k
  {
    if k < |g| {
      PrefixIsLegal(g, k + 1);
      PushBodySnoc(g[..k], g[k]);
      assert g[..k] + [g[k]] == g[..k + 1];
    } else {
      assert g[..k] == g;
    }
  }

  /** A legal group at the front is swallowed whole. */
  lemma {:induction false} LegalPrefixIsQueued(g: seq<Element>, k: nat, rest: seq<Element>)
    requires k <= |g| && LegalGroup(g)
    ensures PackFrom(g[..k], g[k..] + rest) == PackFrom(g, rest)
    decreases |g| - k
  {
    if k < |g| {
      PrefixIsLegal(g, k + 1);
      assert g[..k] + [g[k]] == g[..k + 1];
      SpaceTestIsBodyLimit(g[..k], g[k]);
      assert (g[k..] + rest)[1..] == g[k + 1..] + rest;
      LegalPrefixIsQueued(g, k + 1, rest);
    } else {
      assert g[..k] == g && g[k..] + rest == rest;
    }
  }

  /** No order-preserving split into legal groups uses fewer frames than the greedy loop. */
  lemma {:induction false} GreedyIsOptimal(groups: seq<seq<Element>>)
    requires forall i :: 0 <= i < |groups| ==> LegalGroup(groups[i])
    ensures |Pack(Flatten(groups))| <= |groups|
  {
    if groups != [] {
      var g, rest := groups[0], Flatten(groups[1..]);
      GreedyIsOptimal(groups[1..]);
      LegalPrefixIsQueued(g, 0, rest);
      assert g[..0] == [] && g[0..] + rest == g + rest;
      QueueCostsAtMostOne(g, rest);
    }
  }

  // ----- the frame bound, and why the loop ends -----

  /** A push frame's length field is exact and the frame exceeds the nominal size by at most 3 bytes. */
  lemma PushFrameBound(g: seq<Element>)
    requires g != [] && LegalGroup(g)
    ensures var f := Frame(TRACE_PUSH, PushBody(g));
            && HEADER_LEN < |f| <= QUEUE_TOTAL_SIZE + 3
            && CommandOf(f) == TRACE_PUSH && LengthOf(f) == |PushBody(g)| == |f| - HEADER_LEN
  {
    HeaderFields(TRACE_PUSH, |PushBody(g)|, PushBody(g));
    assert |PushBody(g)| >= 12;
  }

  /** The bound is reached: two acceptable elements whose single frame has 4099 bytes. */
  lemma PushFrameBoundIsTight(d: byte)
    ensures var a := Element([], 0, seq(2048, _ => d));
            var b := Element([], 0, seq(2015, _ => d));
            && Acceptable(a) && Acceptable(b)
            && Pack([a, b]) == [[a, b]]
            && |Frame(TRACE_PUSH, PushBody([a, b]))| == QUEUE_TOTAL_SIZE + 3
  {
    var a := Element([], 0, seq(2048, _ => d));
    var b := Element([], 0, seq(2015, _ => d));
    PushBodySnoc([], a);
    PushBodySnoc([a], b);
    assert [] + [a] == [a] && [a] + [b] == [a, b];
    assert [a, b][1..] == [b] && [b][1..] == [];
    assert PackFrom([a], [b]) == PackFrom([a, b], []);
  }

  /** One turn of the sending loop when every write succeeds: the queued elements and the buffer after it. */
  function LoopTurn(cur: seq<Element>, buffer: seq<Element>): (seq<Element>, seq<Element>)
    requires buffer != []
  {
    if HasSpace(|PushBody(cur)|, buffer[0]) then (cur + [buffer[0]], buffer[1..]) else ([], buffer)
  }

  function LoopTurns(cur: seq<Element>, buffer: seq<Element>, n: nat): (seq<Element>, seq<Element>)
    decreases n
  {
    if n == 0 || buffer == [] then (cur, buffer)
    else var (c, b) := LoopTurn(cur, buffer); LoopTurns(c, b, n - 1)
  }

  /** Within twice the buffer's length plus one turns the buffer is empty if every element fits. */
  lemma {:induction false} FittingBufferDrains(cur: seq<Element>, buffer: seq<Element>)
    requires AllFit(buffer)
    ensures LoopTurns(cur, buffer, 2 * |buffer|).1 == []
    decreases |buffer|
  {
    if buffer != [] {
      var n := 2 * |buffer|;
      var (c, b) := LoopTurn(cur, buffer);
      if HasSpace(|PushBody(cur)|, buffer[0]) {
        FittingBufferDrains(c, b);
        MoreTurnsKeepEmpty(c, b, 2 * |b|);
      } else {
        assert LoopTurn([], buffer) == ([] + [buffer[0]], buffer[1..]);
        FittingBufferDrains([buffer[0]], buffer[1..]);
        assert [] + [buffer[0]] == [buffer[0]];
      }
    }
  }

  lemma {:induction false} MoreTurnsKeepEmpty(cur: seq<Element>, buffer: seq<Element>, n: nat)
    requires LoopTurns(cur, buffer, n).1 == []
    ensures LoopTurns(cur, buffer, n + 1).1 == []
    decreases n
  {
    if n != 0 && buffer != [] {
      var (c, b) := LoopTurn(cur, buffer);
      MoreTurnsKeepEmpty(c, b, n - 1);
    }
  }

  /** The loop ends exactly when every element fits an empty queue: an oversize one is never removed. */
  lemma {:induction false} LoopEndsIffAllFit(buffer: seq<Element>)
    ensures (exists n: nat :: LoopTurns([], buffer, n).1 == []) <==> AllFit(buffer)
  {
    if AllFit(buffer) {
      FittingBufferDrains([], buffer);
    } else {
      forall n: nat
        ensures LoopTurns([], buffer, n).1 != []
      {
        OversizeNeverDrains([], buffer, n);
      }
    }
  }

  lemma {:induction false} OversizeNeverDrains(cur: seq<Element>, buffer: seq<Element>, n: nat)
    requires !AllFit(buffer)
    ensures !AllFit(LoopTurns(cur, buffer, n).1)
    decreases n
  {
    if n != 0 {
      var (c, b) := LoopTurn(cur, buffer);
      if b != buffer {
        var i :| 0 <= i < |buffer| && !HasSpace(0, buffer[i]);
        assert i > 0;
        assert b[i - 1] == buffer[i];
      }
      OversizeNeverDrains(c, b, n - 1);
    }
  }
}
