/** Depth 2 against depth 1: the two machines side by side, and where the depth-2 code does not agree. */
module Agreement {
  import opened Tokens
  import opened InferRequests
  import opened ModelRunners
  import opened Reference
  import opened AheadEngine
  import AheadRun
  import EngineRun
  import DepthOne

  /** What the depth-1 Engine has launched as step `k`. */
  ghost function DepthOneInput(w: World, one: ReqState, k: nat, fastPath: bool): (x: StepInput)
    requires WorldOk(w) && DepthOne.InFlight(w, one, 0) && Running(w, k)
    ensures x == Ref(w, k)
  {
    var d := DepthOne.Run(w, one, k, fastPath);
    StepInput(d.forwarding, d.kv, d.prefixLen, d.draftNum, d.sampling, d.kind)
  }

  /** The first `n` inputs are what the depth-1 Engine has launched as these steps. */
  ghost predicate InputsOfDepthOne(w: World, inputs: seq<StepInput>, n: nat, one: ReqState, fastPath: bool)
    requires WorldOk(w) && DepthOne.InFlight(w, one, 0) && n <= |inputs| && (n > 0 ==> Running(w, n - 1))
  {
    forall k {:trigger inputs[k]} :: 0 <= k < n ==> inputs[k] == DepthOneInput(w, one, k, fastPath)
  }

  lemma {:induction false} DepthOneInputsAre(w: World, inputs: seq<StepInput>, n: nat, one: ReqState, fastPath: bool)
    requires WorldOk(w) && DepthOne.InFlight(w, one, 0) && n <= |inputs| && (n > 0 ==> Running(w, n - 1))
    ensures InputsOfDepthOne(w, inputs, n, one, fastPath) <==> AheadRun.InputsAgree(w, inputs, n)
  {
    if n > 0 {
      DepthOneInputsAre(w, inputs, n - 1, one, fastPath);
      assert DepthOneInput(w, one, n - 1, fastPath) == Ref(w, n - 1);
    }
  }

  /** In every depth-2 run, the Executor has forwarded its first `n` steps on what the depth-1 Engine has launched
      as these steps (same tokens, same cached prefix, same draft count) exactly when each of them sees its
      depth-1 input. */
  lemma ExecutorMatchesDepthOne(w: World, s: AheadRun.Sys, evs: seq<AheadRun.Event>, t: AheadRun.Sys, n: nat,
                                one: ReqState, fastPath: bool)
    requires AheadRun.Run(w, s, evs, t) && n <= |t.inputs|
    requires DepthOne.InFlight(w, one, 0) && (n > 0 ==> Running(w, n - 1))
    ensures InputsOfDepthOne(w, t.inputs, n, one, fastPath) <==> AheadRun.AllSeeDepthOne(w, t.modes, n)
  {
    AheadRun.ExecutorAgrees(w, s, evs, t, n);
    DepthOneInputsAre(w, t.inputs, n, one, fastPath);
  }

  /** The depth-1 Engine once the result of step `k` has returned. */
  ghost function DepthOneAfter(w: World, one: ReqState, k: nat, fastPath: bool): (s: ReqState)
    requires WorldOk(w) && DepthOne.InFlight(w, one, 0) && Running(w, k)
    ensures s.output == Output(w, k + 1) && (s.eos <==> Result(w, k).bonus in w.stops)
    ensures s.kv == |Prefix(w, k + 1)| && s.forwarding == Prefix(w, k + 1)
  {
    var d := DepthOne.Run(w, one, k, fastPath);
    DepthOne.RetireKeeps(w, d, k);
    DepthOne.Retired(d, Result(w, k), w.stops)
  }

  /** In every depth-2 run, the output and the stop flag are those of the depth-1 Engine after the same
      results, however many steps are still in flight and however many reserved slots went unfilled. */
  lemma OutputMatchesDepthOne(w: World, s: EngineRun.Engine, evs: seq<EngineRun.Event>, t: EngineRun.Engine,
                              one: ReqState, fastPath: bool)
    requires EngineRun.Run(w, s, evs, t) && DepthOne.InFlight(w, one, 0) && t.counted > 0
    ensures Running(w, t.counted - 1)
    ensures var d := DepthOneAfter(w, one, t.counted - 1, fastPath);
            t.req.output == d.output && t.req.eos == d.eos
  {
    EngineRun.OutputRefinesDepthOne(w, s, evs, t);
  }

  /** End to end: if every step executed in a run sees its depth-1 input, the output that comes back from the
      Executor and leaves the Engine is the depth-1 output. */
  lemma RunMatchesDepthOne(w: World, s: AheadRun.Sys, evs: seq<AheadRun.Event>, t: AheadRun.Sys,
                           one: ReqState, fastPath: bool)
    requires AheadRun.AgreedRun(w, s, evs, t) && DepthOne.InFlight(w, one, 0) && t.engine.counted > 0
    ensures Running(w, t.engine.counted - 1)
    ensures var d := DepthOneAfter(w, one, t.engine.counted - 1, fastPath);
            t.engine.req.output == d.output && t.engine.req.eos == d.eos
  {
    AheadRun.EngineRunsAlone(w, s, evs, t);
    OutputMatchesDepthOne(w, s.engine, AheadRun.EngineEvents(evs), t.engine, one, fastPath);
  }

  /** And so are the cached tokens, unless a step has been launched since the last retire. */
  lemma CacheMatchesDepthOne(w: World, s: EngineRun.Engine, evs: seq<EngineRun.Event>, t: EngineRun.Engine,
                             one: ReqState, fastPath: bool)
    requires EngineRun.Run(w, s, evs, t) && DepthOne.InFlight(w, one, 0)
    requires t.retired > 0 && (t.closed || |t.sent| == t.retired + 1)
    ensures t.counted > 0 && Running(w, t.counted - 1) && t.req.kv <= |t.req.forwarding|
    ensures var d := DepthOneAfter(w, one, t.counted - 1, fastPath);
            t.req.kv == d.kv && t.req.forwarding[..t.req.kv] == d.forwarding
  {
    EngineRun.CachedPrefixAlways(w, s, evs, t);
    EngineRun.RunInv(w, s, evs, t);
    OutputIsPrefix(w, t.counted);
  }

  // ---- Where the depth-2 code departs from depth 1 ----

  /** Retiring `d` with these accepted drafts emits what depth 1 emits. */
  predicate EmitsAccepted(d: ReqState, accepted: seq<int>, stops: seq<int>)
  {
    var e := d.(accepted := accepted);
    CanRetire(e) && Retire(e, stops).output == d.output + accepted + d.generated
  }

  /** Retiring through the successor's block never looks at the accepted drafts: the output is the depth-1
      output exactly when none was accepted. */
  lemma BackfillIgnoresAccepted(d: ReqState, accepted: seq<int>, stops: seq<int>)
    requires CanRetire(d) && !d.eos && !IsSplitPrefill(d) && d.pendingPos != [] && FrontAwaitsPredecessor(d)
    ensures EmitsAccepted(d, accepted, stops) <==> accepted == []
  {
    if accepted == [] {
      assert d.output + accepted == d.output;
    }
  }

  /** So the step before the first block agrees with depth 1 whatever it accepts exactly when it carries no draft. */
  lemma FirstBlockNeedsNoDrafts(d: ReqState, drafts: seq<int>, stops: seq<int>)
    requires CanRetire(d) && !d.eos && !IsSplitPrefill(d) && d.pendingPos != [] && FrontAwaitsPredecessor(d)
    ensures (forall accepted | accepted <= drafts :: EmitsAccepted(d, accepted, stops)) <==> drafts == []
  {
    BackfillIgnoresAccepted(d, [], stops);
    BackfillIgnoresAccepted(d, drafts, stops);
    if drafts == [] {
      forall accepted | accepted <= drafts ensures EmitsAccepted(d, accepted, stops) {
        assert accepted == [];
      }
    }
  }

  /** A decode launch reserves a block exactly when it is ahead, on the fast path, and no generated token is left
      over. */
  lemma ReservesWhenNothingIsLeft(s: ReqState, ahead: bool, fastPath: bool)
    requires CanLaunch(s, ahead) && s.planned.prefill == 0
    ensures |Launch(s, ahead, fastPath).pendingPos| == |s.pendingPos| + 1 <==> ahead && fastPath && s.generated == []
  {
  }

  /** Launching a step with its token known does not clear that token; a step launched behind it appends
      the same token once more. Only a step without one, the last prefill chunk, can be pipelined behind. */
  lemma LaunchBehindKnownToken(s: ReqState, slots: nat)
    requires CanLaunch(s, false) && s.planned.prefill == 0 && s.inflight == [] && |s.generated| == 1
    requires s.planning.prefill == 0 && s.remaining.prefill + s.remaining.offset == |s.prefilling|
    ensures var t := Launch(s, false, true);
            var p := Estimate(t, 1, slots);
            && t.generated == s.generated
            && s.forwarding + s.generated <= t.forwarding
            && CanPlan(p) && CanLaunch(Plan(p), true)
            && var u := Launch(Plan(p), true, true);
               t.forwarding + s.generated <= u.forwarding && u.pendingPos == s.pendingPos
  {
  }

  /** A step that retires its own block keeps its bonus token for the next launch exactly when the next
      launch has already happened. */
  lemma BonusNeedsSuccessor(w: World, s: ReqState, r: nat, l: nat)
    requires WorldOk(w) && r > 0 && InPipeline(w, s, r, l)
    ensures var d := AheadEngine.Received(s, Result(w, r));
            && CanRetire(d)
            && var t := PopInflight(Retire(d, w.stops));
               (t.output <= t.forwarding + t.generated <==> l == r + 2)
  {
    RetireWithBlock(w, s, r, l);
    OutputIsPrefix(w, r + 1);
    var t := PopInflight(Retire(AheadEngine.Received(s, Result(w, r)), w.stops));
    assert t.generated == [];
    if l == r + 2 {
      HeldSplit(w, r + 1);
      assert t.forwarding + t.generated == t.forwarding;
    }
  }
}
