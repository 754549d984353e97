/** A request that may be launched again after its pipeline has run dry: which runs still agree with depth 1. */
module Relaunch {
  import opened Tokens
  import opened InferRequests
  import opened RequestSteps
  import opened ModelRunners
  import opened Reference
  import opened AheadEngine
  import EngineRun

  /** One request of the Engine. `sent` lists the snapshots of all launched steps, `ahead` whether each was
      launched with another in flight or onto a dry pipeline. */
  datatype Engine = Engine(
    req: ReqState,
    sent: seq<Snapshot>,
    ahead: seq<bool>,
    retired: nat,
    counted: nat,
    closed: bool,
    failed: bool)

  datatype Event = Plan | Launch | Retire

  function Failed(s: Engine): Engine { s.(failed := true) }

  predicate Enabled(s: Engine, ev: Event)
  {
    match ev
    case Plan => !s.closed && s.req.planned.IsEmpty()
    case Launch => !s.closed && !s.req.planned.IsEmpty() && |s.req.inflight| < MAX_INFLIGHT_DEPTH
    case Retire => s.retired < |s.sent|
  }

  function PlanStep(w: World, s: Engine): Engine
  {
    var e := Estimate(s.req, 1, SlotsAt(w, |s.sent|));
    if CanPlan(e) then s.(req := InferRequests.Plan(e)) else Failed(s)
  }

  function LaunchStep(s: Engine): Engine
  {
    var ahead := s.req.inflight != [];
    if CanLaunch(s.req, ahead) then
      var e := InferRequests.Launch(s.req, ahead, true);
      s.(req := e, sent := s.sent + [AheadEngine.Freeze(e, ahead)], ahead := s.ahead + [ahead])
    else Failed(s)
  }

  /** Only a stop token closes the request. */
  function RetireStep(s: Engine, stops: seq<int>, res: StepResult): Engine
  {
    var d := Received(s.req, res);
    if CanRetire(d) then
      var e := PopInflight(InferRequests.Retire(d, stops));
      s.(req := e, retired := s.retired + 1, counted := if s.req.eos then s.counted else s.counted + 1,
         closed := s.closed || e.eos)
    else Failed(s)
  }

  ghost function Step(w: World, s: Engine, ev: Event): Engine
  {
    match ev
    case Plan => PlanStep(w, s)
    case Launch => LaunchStep(s)
    case Retire => RetireStep(s, w.stops, Result(w, s.retired))
  }

  ghost predicate Initial(w: World, s: Engine)
  {
    && EngineRun.RequestStart(w, s.req) && s.sent == [Frozen(w, 0)] && s.ahead == [false]
    && s.retired == s.counted == 0 && !s.closed && !s.failed
  }

  // ---- What a launched step should travel with ----

  /** Launched ahead, step `k` travels with its reserved block; launched onto a dry pipeline, with its depth-1
      input. */
  ghost function Expected(w: World, k: nat, ahead: bool): Snapshot
  {
    var x := Ref(w, k);
    if ahead then Frozen(w, k) else Snapshot(x.tokens, None, x.kv, x.prefixLen, x.draftNum, x.sampling, x.kind)
  }

  ghost predicate SentAgree(w: World, sent: seq<Snapshot>, ahead: seq<bool>, n: nat)
  {
    n <= |sent| == |ahead| && forall k {:trigger sent[k]} :: 0 <= k < n ==> sent[k] == Expected(w, k, ahead[k])
  }

  /** Of the first `n` steps, all behind step 0 were launched the same way. */
  predicate OneWay(ahead: seq<bool>, n: nat)
  {
    n <= |ahead| && forall k {:trigger ahead[k]} :: 1 < k < n ==> ahead[k] == ahead[1]
  }

  // ---- Steps without a block, and a request at rest ----

  ghost predicate Workloads(w: World, s: ReqState, l: nat)
  {
    && s.planning.prefill == 0 && s.remaining.prefill == 0 && s.remaining.offset == |s.prefilling|
    && PlannedFits(w, s.planned, l)
  }

  /** Step `k` is alone in flight and was launched with every token known. */
  ghost predicate SerialFlight(w: World, s: ReqState, k: nat)
  {
    var x := Ref(w, k);
    && k > 0 && s.forwarding == x.tokens && s.draftNum == x.draftNum && s.output == Output(w, k) && !s.eos
    && s.generated == [Result(w, k - 1).bonus]
    && |s.inflight| == 1 && s.inflight[0].draft == x.draftNum && s.inflight[0].prefill == 0
    && s.pendingPos == [] && s.pendingDraft == [] && Workloads(w, s, k + 1)
  }

  /** Step `k` has been retired, nothing is in flight, and `generated` is what is left to launch with. */
  ghost predicate Resting(w: World, s: ReqState, k: nat, generated: seq<int>)
  {
    && s.forwarding == Prefix(w, k + 1) && s.output == Output(w, k + 1) && !s.eos
    && s.generated == generated && s.drafts == Result(w, k).drafts
    && s.inflight == [] && s.pendingPos == [] && s.pendingDraft == [] && Workloads(w, s, k + 1)
  }

  lemma RestsAfterFirst(w: World, s: ReqState)
    requires WorldOk(w) && InPipeline(w, s, 0, 1) && Result(w, 0).bonus !in w.stops
    ensures var d := Received(s, Result(w, 0));
            CanRetire(d) && Resting(w, PopInflight(InferRequests.Retire(d, w.stops)), 0, [Result(w, 0).bonus])
  {
    assert WellFormedResult(Ref(w, 0), Result(w, 0));
    assert Prefix(w, 1) == w.prompt == Held(w, 0);
  }

  lemma RetireOwnKeepsDrafts(d: ReqState, stops: seq<int>)
    requires d.pendingPos != [] && QueueWellFormed(d) && CanRetireOwn(d)
    ensures RetireOwn(d, stops).drafts == d.drafts
  {
  }

  /** An own-block retire without a successor leaves no token to launch with. */
  lemma RestsAfterBlock(w: World, s: ReqState, r: nat)
    requires WorldOk(w) && r > 0 && InPipeline(w, s, r, r + 1) && Result(w, r).bonus !in w.stops
    ensures var d := Received(s, Result(w, r));
            CanRetire(d) && Resting(w, PopInflight(InferRequests.Retire(d, w.stops)), r, [])
  {
    var d := Received(s, Result(w, r));
    RetireWithBlock(w, s, r, r + 1);
    RetiresOwn(w, s, r, r + 1);
    RetireOwnLeaves(d, w.stops);
    RetireOwnKeepsDrafts(d, w.stops);
  }

  /** Retiring a step without a block leaves its token to launch with. */
  lemma RestsAfterSerial(w: World, s: ReqState, k: nat)
    requires WorldOk(w) && SerialFlight(w, s, k)
    ensures var d := Received(s, Result(w, k));
            && CanRetire(d)
            && var t := PopInflight(InferRequests.Retire(d, w.stops));
               && t.output == Output(w, k + 1) && (t.eos <==> Result(w, k).bonus in w.stops)
               && t.inflight == [] && t.pendingPos == [] && t.pendingDraft == [] && t.kv == |t.forwarding|
               && t.stage == Decode && t.forwarding == Prefix(w, k + 1)
               && (!t.eos ==> Resting(w, t, k, [Result(w, k).bonus]))
  {
    var x, r := Ref(w, k), Result(w, k);
    assert WellFormedResult(x, r);
    assert r.accepted == Drafts(x)[..|r.accepted|];
    if x.draftNum > 0 {
      assert Resize(x.tokens, |x.tokens| - x.draftNum + |r.accepted|) == Committed(x, r.accepted);
    } else {
      assert x.tokens == Committed(x, r.accepted);
    }
  }

  /** With its token at hand, the next step is launched on its depth-1 input. */
  lemma DryLaunch(w: World, s: ReqState, k: nat)
    requires WorldOk(w) && Resting(w, s, k, [Result(w, k).bonus]) && !s.planned.IsEmpty()
    ensures CanLaunch(s, false)
    ensures var t := InferRequests.Launch(s, false, true);
            SerialFlight(w, t, k + 1) && AheadEngine.Freeze(t, false) == Expected(w, k + 1, false)
  {
    RefShape(w, k + 1);
  }

  /** Without it, the step is launched without its main token. */
  lemma LostLaunch(w: World, s: ReqState, k: nat)
    requires WorldOk(w) && Resting(w, s, k, []) && !s.planned.IsEmpty()
    ensures CanLaunch(s, false)
    ensures AheadEngine.Freeze(InferRequests.Launch(s, false, true), false) != Expected(w, k + 1, false)
  {
    RefShape(w, k + 1);
    var t, x := InferRequests.Launch(s, false, true), Ref(w, k + 1);
    assert |t.forwarding| == |Prefix(w, k + 1)| + t.draftNum;
    assert |x.tokens| == |Prefix(w, k + 1)| + 1 + x.draftNum;
  }

  /** Behind a step without a block none is reserved: that step's token is appended once more. */
  lemma SerialAhead(w: World, s: ReqState, k: nat)
    requires WorldOk(w) && SerialFlight(w, s, k) && !s.planned.IsEmpty()
    ensures CanLaunch(s, true)
    ensures AheadEngine.Freeze(InferRequests.Launch(s, true, true), true) != Expected(w, k + 1, true)
  {
  }

  // ---- The invariant ----

  ghost predicate Open(w: World, s: ReqState, ahead: seq<bool>, r: nat)
  {
    var l := |ahead|;
    || (InPipeline(w, s, r, l) && forall k :: 0 < k < l ==> ahead[k])
    || (l == r + 1 && SerialFlight(w, s, r) && forall k :: 0 < k < l ==> !ahead[k])
    || (l == r > 0 && Resting(w, s, r - 1, [Result(w, r - 1).bonus]) && forall k :: 0 < k < l ==> !ahead[k])
    || (l == r > 1 && Resting(w, s, r - 1, []) && forall k :: 0 < k < l ==> ahead[k])
  }

  ghost predicate Inv(w: World, s: Engine)
  {
    && !s.failed && SentAgree(w, s.sent, s.ahead, |s.sent|) && OneWay(s.ahead, |s.ahead|)
    && EngineRun.OutputMatches(w, s.req, s.counted)
    && if s.closed then EngineRun.RequestMatches(w, s.req, |s.sent|, s.retired, s.counted, true)
       else s.counted == s.retired && !s.req.eos && Open(w, s.req, s.ahead, s.retired)
  }

  lemma InitialInv(w: World, s: Engine)
    requires WorldOk(w) && Initial(w, s)
    ensures Inv(w, s)
  {
  }

  lemma PlanOpen(w: World, s: ReqState, ahead: seq<bool>, r: nat)
    requires Open(w, s, ahead, r) && s.planned.IsEmpty()
    ensures var e := Estimate(s, 1, SlotsAt(w, |ahead|));
            CanPlan(e) && Open(w, InferRequests.Plan(e), ahead, r)
  {
  }

  lemma PlanKeeps(w: World, s: Engine)
    requires Inv(w, s) && Enabled(s, Plan)
    ensures Inv(w, PlanStep(w, s))
  {
    PlanOpen(w, s.req, s.ahead, s.retired);
  }

  /** A launch the same way as those before goes on; any other travels with the wrong fields. */
  ghost predicate LaunchesAs(w: World, s: ReqState, ahead: seq<bool>, r: nat, a: bool)
  {
    && CanLaunch(s, a)
    && var t := InferRequests.Launch(s, a, true);
       && t.output == s.output && t.eos == s.eos
       && (AheadEngine.Freeze(t, a) == Expected(w, |ahead|, a) <==> OneWay(ahead + [a], |ahead| + 1))
       && (OneWay(ahead + [a], |ahead| + 1) ==> Open(w, t, ahead + [a], r))
  }

  lemma SameWay(ahead: seq<bool>, a: bool)
    requires ahead != [] && forall k :: 0 < k < |ahead| ==> ahead[k] == a
    ensures OneWay(ahead + [a], |ahead| + 1) && forall k :: 0 < k < |ahead + [a]| ==> (ahead + [a])[k] == a
  {
  }

  lemma OtherWay(ahead: seq<bool>, a: bool)
    requires |ahead| > 1 && forall k :: 0 < k < |ahead| ==> ahead[k] != a
    ensures !OneWay(ahead + [a], |ahead| + 1)
  {
    var all := ahead + [a];
    assert all[|ahead|] == a && all[1] == ahead[1] != a;
  }

  lemma LaunchPiped(w: World, s: ReqState, ahead: seq<bool>, r: nat)
    requires WorldOk(w) && !s.planned.IsEmpty() && InPipeline(w, s, r, r + 1) && |ahead| == r + 1
    requires forall k :: 0 < k < |ahead| ==> ahead[k]
    ensures LaunchesAs(w, s, ahead, r, true)
  {
    LaunchAhead(w, s, r);
    SameWay(ahead, true);
  }

  lemma LaunchSerial(w: World, s: ReqState, ahead: seq<bool>, r: nat)
    requires WorldOk(w) && !s.planned.IsEmpty() && SerialFlight(w, s, r) && |ahead| == r + 1
    requires forall k :: 0 < k < |ahead| ==> !ahead[k]
    ensures LaunchesAs(w, s, ahead, r, true)
  {
    SerialAhead(w, s, r);
    OtherWay(ahead, true);
  }

  lemma LaunchRested(w: World, s: ReqState, ahead: seq<bool>, r: nat)
    requires WorldOk(w) && !s.planned.IsEmpty() && |ahead| == r > 0 && Resting(w, s, r - 1, [Result(w, r - 1).bonus])
    requires forall k :: 0 < k < |ahead| ==> !ahead[k]
    ensures LaunchesAs(w, s, ahead, r, false)
  {
    DryLaunch(w, s, r - 1);
    SameWay(ahead, false);
  }

  lemma LaunchDried(w: World, s: ReqState, ahead: seq<bool>, r: nat)
    requires WorldOk(w) && !s.planned.IsEmpty() && |ahead| == r > 1 && Resting(w, s, r - 1, [])
    requires forall k :: 0 < k < |ahead| ==> ahead[k]
    ensures LaunchesAs(w, s, ahead, r, false)
  {
    LostLaunch(w, s, r - 1);
    OtherWay(ahead, false);
  }

  lemma LaunchOpen(w: World, s: ReqState, ahead: seq<bool>, r: nat)
    requires WorldOk(w) && Open(w, s, ahead, r) && !s.planned.IsEmpty() && |s.inflight| < MAX_INFLIGHT_DEPTH
    ensures |ahead| > 0 && LaunchesAs(w, s, ahead, r, s.inflight != [])
  {
    if InPipeline(w, s, r, |ahead|) && forall k :: 0 < k < |ahead| ==> ahead[k] {
      LaunchPiped(w, s, ahead, r);
    } else if |ahead| == r + 1 {
      LaunchSerial(w, s, ahead, r);
    } else if s.generated == [] {
      LaunchDried(w, s, ahead, r);
    } else {
      LaunchRested(w, s, ahead, r);
    }
  }

  // ---- Retiring ----

  /** What a retire leaves of a request that was open. */
  ghost predicate RetiresTo(w: World, s: ReqState, ahead: seq<bool>, r: nat)
  {
    var d := Received(s, Result(w, r));
    && CanRetire(d)
    && var t := PopInflight(InferRequests.Retire(d, w.stops));
       && t.output == Output(w, r + 1) && (t.eos <==> Result(w, r).bonus in w.stops)
       && if t.eos then EngineRun.RequestMatches(w, t, |ahead|, r + 1, r + 1, true) else Open(w, t, ahead, r + 1)
  }

  lemma RestsDry(w: World, s: ReqState, ahead: seq<bool>, r: nat)
    requires WorldOk(w) && InPipeline(w, s, r, r + 1) && |ahead| == r + 1 && forall k :: 0 < k < |ahead| ==> ahead[k]
    requires Result(w, r).bonus !in w.stops
    ensures var d := Received(s, Result(w, r));
            CanRetire(d) && Open(w, PopInflight(InferRequests.Retire(d, w.stops)), ahead, r + 1)
  {
    if r == 0 {
      RestsAfterFirst(w, s);
    } else {
      RestsAfterBlock(w, s, r);
    }
  }

  lemma StopsAfter(w: World, t: ReqState, l: nat, r: nat)
    requires AfterRetire(w, t, r, l) && t.eos && r + 1 <= l <= r + 2
    ensures EngineRun.RequestMatches(w, t, l, r + 1, r + 1, true)
  {
  }

  lemma PipedOn(w: World, s: ReqState, ahead: seq<bool>, r: nat)
    requires WorldOk(w) && InPipeline(w, s, r, |ahead|) && forall k :: 0 < k < |ahead| ==> ahead[k]
    requires Result(w, r).bonus !in w.stops
    ensures var d := Received(s, Result(w, r));
            CanRetire(d) && Open(w, PopInflight(InferRequests.Retire(d, w.stops)), ahead, r + 1)
  {
    if |ahead| == r + 1 {
      RestsDry(w, s, ahead, r);
    } else {
      RetireLive(w, s, r, |ahead|);
    }
  }

  lemma PipedStops(w: World, s: ReqState, l: nat, r: nat)
    requires WorldOk(w) && InPipeline(w, s, r, l) && Result(w, r).bonus in w.stops
    ensures var d := Received(s, Result(w, r));
            && CanRetire(d)
            && EngineRun.RequestMatches(w, PopInflight(InferRequests.Retire(d, w.stops)), l, r + 1, r + 1, true)
  {
    RetireLive(w, s, r, l);
    StopsAfter(w, PopInflight(InferRequests.Retire(Received(s, Result(w, r)), w.stops)), l, r);
  }

  lemma PipedOutput(w: World, s: ReqState, l: nat, r: nat)
    requires WorldOk(w) && InPipeline(w, s, r, l)
    ensures var d := Received(s, Result(w, r));
            && CanRetire(d)
            && var t := PopInflight(InferRequests.Retire(d, w.stops));
               t.output == Output(w, r + 1) && (t.eos <==> Result(w, r).bonus in w.stops)
  {
    RetireLive(w, s, r, l);
  }

  lemma RetirePiped(w: World, s: ReqState, ahead: seq<bool>, r: nat)
    requires WorldOk(w) && InPipeline(w, s, r, |ahead|) && forall k :: 0 < k < |ahead| ==> ahead[k]
    ensures RetiresTo(w, s, ahead, r)
  {
    PipedOutput(w, s, |ahead|, r);
    if Result(w, r).bonus in w.stops {
      PipedStops(w, s, |ahead|, r);
    } else {
      PipedOn(w, s, ahead, r);
    }
  }

  lemma RetireSerial(w: World, s: ReqState, ahead: seq<bool>, r: nat)
    requires WorldOk(w) && SerialFlight(w, s, r) && |ahead| == r + 1 && forall k :: 0 < k < |ahead| ==> !ahead[k]
    ensures RetiresTo(w, s, ahead, r)
  {
    RestsAfterSerial(w, s, r);
    OutputIsPrefix(w, r + 1);
  }

  lemma RetireOpen(w: World, s: ReqState, ahead: seq<bool>, r: nat)
    requires WorldOk(w) && Open(w, s, ahead, r) && r < |ahead|
    ensures RetiresTo(w, s, ahead, r)
  {
    if InPipeline(w, s, r, |ahead|) && forall k :: 0 < k < |ahead| ==> ahead[k] {
      RetirePiped(w, s, ahead, r);
    } else {
      RetireSerial(w, s, ahead, r);
    }
  }

  lemma RunningNext(w: World, s: ReqState, r: nat)
    requires EngineRun.OutputMatches(w, s, r) && !s.eos
    ensures Running(w, r)
  {
  }

  lemma RetireClosedKeeps(w: World, s: Engine)
    requires WorldOk(w) && Inv(w, s) && Enabled(s, Retire) && s.closed
    ensures Inv(w, RetireStep(s, w.stops, Result(w, s.retired)))
  {
    EngineRun.DrainMatches(w, s.req, |s.sent|, s.retired, s.counted, Result(w, s.retired));
  }

  lemma RetireOpenKeeps(w: World, s: Engine)
    requires WorldOk(w) && Inv(w, s) && Enabled(s, Retire) && !s.closed
    ensures Inv(w, RetireStep(s, w.stops, Result(w, s.retired)))
  {
    RetireOpen(w, s.req, s.ahead, s.retired);
    RunningNext(w, s.req, s.retired);
  }

  lemma RetireKeeps(w: World, s: Engine)
    requires WorldOk(w) && Inv(w, s) && Enabled(s, Retire)
    ensures Inv(w, RetireStep(s, w.stops, Result(w, s.retired)))
  {
    if s.closed {
      RetireClosedKeeps(w, s);
    } else {
      RetireOpenKeeps(w, s);
    }
  }

  // ---- Every step, and every run ----

  lemma SentNext(w: World, sent: seq<Snapshot>, ahead: seq<bool>, snap: Snapshot, a: bool)
    requires SentAgree(w, sent, ahead, |sent|) && snap == Expected(w, |sent|, a)
    ensures SentAgree(w, sent + [snap], ahead + [a], |sent| + 1)
  {
  }

  /** A launch as those before keeps the invariant; after any other neither side of the equivalence holds. */
  lemma LaunchKeeps(w: World, s: Engine)
    requires WorldOk(w) && Inv(w, s) && Enabled(s, Launch)
    ensures var t, a := LaunchStep(s), s.req.inflight != [];
            && s.sent <= t.sent && t.ahead == s.ahead + [a] && |t.sent| == |t.ahead|
            && (t.sent[|s.sent|] == Expected(w, |s.sent|, a) <==> OneWay(t.ahead, |t.ahead|))
            && (OneWay(t.ahead, |t.ahead|) ==> Inv(w, t))
  {
    var a := s.req.inflight != [];
    LaunchOpen(w, s.req, s.ahead, s.retired);
    if OneWay(s.ahead + [a], |s.ahead| + 1) {
      SentNext(w, s.sent, s.ahead, AheadEngine.Freeze(InferRequests.Launch(s.req, a, true), a), a);
    }
  }

  /** Some run of the Engine takes `s` through the events `evs` to `t`. */
  ghost predicate Reaches(w: World, s: Engine, evs: seq<Event>, t: Engine)
    decreases |evs|
  {
    if evs == [] then s == t else Enabled(s, evs[0]) && Reaches(w, Step(w, s, evs[0]), evs[1..], t)
  }

  /** What has been launched stays on record. */
  lemma StepRecords(w: World, s: Engine, ev: Event)
    ensures var t := Step(w, s, ev);
            s.sent <= t.sent && s.ahead <= t.ahead && |t.sent| - |s.sent| == |t.ahead| - |s.ahead|
  {
  }

  lemma {:induction false} RunRecords(w: World, s: Engine, evs: seq<Event>, t: Engine)
    requires Reaches(w, s, evs, t)
    ensures s.sent <= t.sent && s.ahead <= t.ahead && |t.sent| - |s.sent| == |t.ahead| - |s.ahead|
    decreases |evs|
  {
    if evs != [] {
      StepRecords(w, s, evs[0]);
      RunRecords(w, Step(w, s, evs[0]), evs[1..], t);
    }
  }

  lemma LongerRecord(w: World, sent: seq<Snapshot>, ahead: seq<bool>, sent1: seq<Snapshot>, ahead1: seq<bool>,
                     sent2: seq<Snapshot>, ahead2: seq<bool>, n: nat)
    requires |sent| == |ahead| && SentAgree(w, sent, ahead, |sent|) && OneWay(ahead, |ahead|)
    requires |sent1| == |ahead1| == |sent| + 1 && sent <= sent1 <= sent2 && ahead <= ahead1 <= ahead2
    requires sent1[|sent|] != Expected(w, |sent|, ahead1[|sent|]) && !OneWay(ahead1, |sent| + 1)
    requires n <= |sent2| == |ahead2|
    ensures SentAgree(w, sent2, ahead2, n) <==> OneWay(ahead2, n)
    ensures n > |sent| ==> !OneWay(ahead2, n)
  {
    assert forall k :: 0 <= k < |sent| ==> sent2[k] == sent[k] && ahead2[k] == ahead[k];
    assert sent2[|sent|] == sent1[|sent|] && ahead2[|sent|] == ahead1[|sent|];
    assert forall k :: 0 <= k <= |sent| ==> ahead2[k] == ahead1[k];
  }

  /** A run that has launched a step the other way. */
  lemma DivergedTail(w: World, sent: seq<Snapshot>, ahead: seq<bool>, next: Engine, evs: seq<Event>, t: Engine, n: nat)
    requires |sent| == |ahead| && SentAgree(w, sent, ahead, |sent|) && OneWay(ahead, |ahead|)
    requires |next.sent| == |next.ahead| == |sent| + 1 && sent <= next.sent && ahead <= next.ahead
    requires next.sent[|sent|] != Expected(w, |sent|, next.ahead[|sent|]) && !OneWay(next.ahead, |sent| + 1)
    requires Reaches(w, next, evs, t) && n <= |t.sent|
    ensures SentAgree(w, t.sent, t.ahead, n) <==> OneWay(t.ahead, n)
    ensures !OneWay(t.ahead, |t.ahead|)
  {
    RunRecords(w, next, evs, t);
    LongerRecord(w, sent, ahead, next.sent, next.ahead, t.sent, t.ahead, n);
    LongerRecord(w, sent, ahead, next.sent, next.ahead, t.sent, t.ahead, |t.sent|);
  }

  lemma FirstOf(w: World, s: Engine, evs: seq<Event>, t: Engine) returns (next: Engine)
    requires Reaches(w, s, evs, t) && evs != []
    ensures Enabled(s, evs[0]) && next == Step(w, s, evs[0]) && Reaches(w, next, evs[1..], t)
  {
    next := Step(w, s, evs[0]);
  }

  lemma StepKeeps(w: World, s: Engine, ev: Event)
    requires WorldOk(w) && Inv(w, s) && Enabled(s, ev)
    ensures var t := Step(w, s, ev);
            && (Inv(w, t) || ev.Launch?)
            && (ev.Launch? && !Inv(w, t) ==>
                  && |t.sent| == |t.ahead| == |s.sent| + 1 && s.sent <= t.sent && s.ahead <= t.ahead
                  && t.sent[|s.sent|] != Expected(w, |s.sent|, t.ahead[|s.sent|]) && !OneWay(t.ahead, |t.ahead|))
  {
    match ev
    case Plan => PlanKeeps(w, s);
    case Launch => LaunchKeeps(w, s);
    case Retire => RetireKeeps(w, s);
  }

  lemma InvAgrees(w: World, s: Engine, n: nat)
    requires Inv(w, s) && n <= |s.sent|
    ensures |s.sent| == |s.ahead| && SentAgree(w, s.sent, s.ahead, n) && OneWay(s.ahead, n)
  {
  }

  lemma {:induction false} RunAgrees(w: World, s: Engine, evs: seq<Event>, t: Engine, n: nat)
    requires WorldOk(w) && Inv(w, s) && Reaches(w, s, evs, t) && n <= |t.sent|
    ensures SentAgree(w, t.sent, t.ahead, n) <==> OneWay(t.ahead, n)
    ensures OneWay(t.ahead, |t.ahead|) ==> Inv(w, t)
    decreases |evs|
  {
    if evs == [] {
      InvAgrees(w, s, n);
    } else {
      var next := FirstOf(w, s, evs, t);
      StepKeeps(w, s, evs[0]);
      if Inv(w, next) {
        RunAgrees(w, next, evs[1..], t, n);
      } else {
        InvAgrees(w, s, |s.sent|);
        DivergedTail(w, s.sent, s.ahead, next, evs[1..], t, n);
      }
    }
  }

  lemma LaunchStepAnnounces(s: Engine)
    requires TasksAnnounced(s.req, s.sent, s.retired)
    ensures var t := LaunchStep(s); TasksAnnounced(t.req, t.sent, t.retired)
  {
    if CanLaunch(s.req, s.req.inflight != []) {
      LaunchAnnounces(s.req, s.req.inflight != [], true, s.sent, s.retired);
    }
  }

  lemma RetireStepAnnounces(s: Engine, stops: seq<int>, res: StepResult)
    requires TasksAnnounced(s.req, s.sent, s.retired)
    ensures var t := RetireStep(s, stops, res); TasksAnnounced(t.req, t.sent, t.retired)
  {
    if CanRetire(Received(s.req, res)) {
      RetirePopsOldest(Received(s.req, res), stops);
      RetireAnnounces(s.req, RetireStep(s, stops, res).req, s.sent, s.retired);
    }
  }

  lemma StepAnnounces(w: World, s: Engine, ev: Event)
    requires TasksAnnounced(s.req, s.sent, s.retired)
    ensures var t := Step(w, s, ev); TasksAnnounced(t.req, t.sent, t.retired)
  {
    match ev
    case Plan =>
    case Launch => LaunchStepAnnounces(s);
    case Retire => RetireStepAnnounces(s, w.stops, Result(w, s.retired));
  }

  /** However its steps are launched, each one in flight travelled with the kind, the sampling count and the draft
      count it was planned with. */
  lemma {:induction false} StepKindsTravel(w: World, s: Engine, evs: seq<Event>, t: Engine)
    requires TasksAnnounced(s.req, s.sent, s.retired) && Reaches(w, s, evs, t)
    ensures TasksAnnounced(t.req, t.sent, t.retired)
    decreases |evs|
  {
    if evs != [] {
      StepAnnounces(w, s, evs[0]);
      StepKindsTravel(w, Step(w, s, evs[0]), evs[1..], t);
    }
  }

  /** In every run, in which the request may be launched again whenever its pipeline has run dry, the first `n`
      steps travel with what agrees with depth 1 exactly if all behind step 0 were launched the same way: each
      with its predecessor in flight, or each onto a dry pipeline. If all were, no check fails, and output and
      stop flag are the depth-1 ones. */
  lemma RelaunchAgrees(w: World, s: Engine, evs: seq<Event>, t: Engine, n: nat)
    requires WorldOk(w) && Initial(w, s) && Reaches(w, s, evs, t) && n <= |t.sent|
    ensures SentAgree(w, t.sent, t.ahead, n) <==> OneWay(t.ahead, n)
    ensures OneWay(t.ahead, |t.ahead|) ==>
              && !t.failed && t.req.output == Output(w, t.counted)
              && (t.req.eos <==> t.counted > 0 && Result(w, t.counted - 1).bonus in w.stops)
  {
    InitialInv(w, s);
    RunAgrees(w, s, evs, t, n);
  }
}
