/**
 The application's side in place: `TracerNg` and the C entry points that use it
 (src/lib.rs:78-82, 312-457).
 */
module Application {
  import opened Bytes
  import opened Names
  import opened Codec
  import opened TracerThread
  import opened WorkerInvariants
  import opened Protocol
  import opened Context
  import opened Submissions

  class TracerNg {
    const shared: Shared
    var tracepoints: map<Name, nat>

    constructor (shared: Shared)
      ensures this.shared == shared && tracepoints == map[]
    {
      this.shared := shared;
      tracepoints := map[];
    }

    ghost function View(): AppView
      reads this, shared
    {
      AppView(tracepoints, shared.flags, shared.channel)
    }

    /** `tracy_register`: 0 for a new name, -1 for a bad or a known one. */
    method Register(raw: Name) returns (code: int)
      modifies this, shared`flags, shared`channel
      ensures (View(), code) == RegisterEffect(old(View()), raw)
      ensures code == 0 <==> IsAscii(raw) && FixTracepointStr(raw).value !in old(tracepoints)
    {
      RegisterSucceedsIff(View(), raw);
      var fixed := FixTracepointStr(raw);
      if fixed.None? { return -1; }
      if fixed.value in tracepoints { return -1; }
      var cell := |shared.flags|;
      shared.flags := shared.flags + [false];
      tracepoints := tracepoints[fixed.value := cell];
      shared.channel := shared.channel + [NewTracepoint(fixed.value, cell)];
      code := 0;
    }

    /** `tracy_tracepoint_enabled` looks the name up as it was given. */
    method Enabled(raw: Name) returns (enabled: bool)
      ensures enabled == TracepointEnabled(tracepoints, shared.flags, raw)
    {
      enabled := false;
      if raw in tracepoints {
        enabled := Load(shared.flags, tracepoints[raw]);
      }
    }

    /** `tracy_submit` without interference: at most one payload enters the channel. */
    method Submit(raw: Name, time: int, data: seq<byte>)
      modifies shared`channel
      ensures shared.channel == old(shared.channel) +
                (if 1 <= |data| <= 2048 && shared.clientConnected && IsAscii(raw) &&
                    TracepointEnabled(tracepoints, shared.flags, FixTracepointStr(raw).value)
                 then [Payload(Element(FixTracepointStr(raw).value, time, data))] else [])
    {
      if |data| == 0 || |data| > MAX_SUBMIT_LEN { return; }
      if !shared.clientConnected { return; }
      var fixed := FixTracepointStr(raw);
      if fixed.None? { return; }
      var on := Enabled(fixed.value);
      if !on { return; }
      shared.channel := shared.channel + [Payload(Element(fixed.value, time, data))];
    }

    /** `tracy_finit`. */
    method Finit()
      modifies shared`channel
      ensures shared.channel == old(shared.channel) + [Terminate]
    {
      shared.channel := shared.channel + [Terminate];
    }
  }

  /** What the header promises of `tracy_tracepoint_enabled`: the name is normalised first. */
  predicate PromisedEnabled(tracepoints: map<Name, nat>, flags: seq<bool>, raw: Name) {
    FixTracepointStr(raw).Some? && TracepointEnabled(tracepoints, flags, FixTracepointStr(raw).value)
  }

  /**
   The query keeps the promise of src/tracy.h in every state of the map exactly for the strings that
   are already in normal form or not ASCII at all.
   */
  lemma QueryKeepsItsPromiseIff(raw: Name)
    ensures (forall tracepoints, flags :: KeysNormal(tracepoints) ==>
               TracepointEnabled(tracepoints, flags, raw) == PromisedEnabled(tracepoints, flags, raw))
            <==> IsNormal(raw) || !IsAscii(raw)
  {
    NormalIffFixedPoint(raw);
    FixYieldsNormalNames(raw);
    if IsAscii(raw) && !IsNormal(raw) {
      var name := FixTracepointStr(raw).value;
      var tracepoints, flags := map[name := 0], [true];
      assert KeysNormal(tracepoints);
      assert PromisedEnabled(tracepoints, flags, raw) && !TracepointEnabled(tracepoints, flags, raw);
    }
  }
}
