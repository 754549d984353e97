/** The Engine at depth 1: each result returns before the next step is launched. */
module DepthOne {
  import opened Tokens
  import opened InferRequests
  import opened Reference

  /** Step `k` is the only one in flight, launched with every token known. */
  ghost predicate InFlight(w: World, s: ReqState, k: nat)
  {
    var x := Ref(w, k);
    && s.forwarding == x.tokens && s.kv == x.kv && s.prefixLen == x.prefixLen && s.draftNum == x.draftNum
    && s.sampling == x.sampling && s.kind == x.kind
    && s.output == Output(w, k) && s.stage == (if k == 0 then Context else Decode)
    && |s.inflight| == 1 && s.inflight[0].draft == x.draftNum && s.inflight[0].sampling == x.sampling
    && (if k == 0 then s.inflight[0].prefill > 0 && IsLastChunk(s.inflight[0], |s.prefilling|)
        else s.inflight[0].prefill == 0)
    && s.pendingPos == [] && s.pendingDraft == []
    && s.planned.IsEmpty() && s.planning.prefill == 0
    && s.remaining.prefill == 0 && s.remaining.offset == |s.prefilling|
    && !s.eos
  }

  function Received(s: ReqState, r: StepResult): ReqState
  {
    Deliver(s, r.accepted, [r.bonus], r.drafts)
  }

  /** The step's result is delivered and the step retired. */
  function Retired(s: ReqState, r: StepResult, stops: seq<int>): ReqState
    requires CanRetire(Received(s, r))
  {
    PopInflight(Retire(Received(s, r), stops))
  }

  /** The next step is planned with one generated token and `slots` drafts. */
  function Planned(s: ReqState, slots: nat): ReqState
  {
    s.(planning := Workload(0, 0, 1, slots, 0))
  }

  predicate CanLaunchNext(s: ReqState, slots: nat)
  {
    CanPlan(Planned(s, slots)) && CanLaunch(Plan(Planned(s, slots)), false)
  }

  function LaunchedNext(s: ReqState, slots: nat, fastPath: bool): ReqState
    requires CanLaunchNext(s, slots)
  {
    Launch(Plan(Planned(s, slots)), false, fastPath)
  }

  /** Step `k` has been retired and nothing is in flight. */
  ghost predicate AtRest(w: World, t: ReqState, k: nat)
  {
    && t.stage == Decode && t.output == Output(w, k + 1) && (t.eos <==> Result(w, k).bonus in w.stops)
    && t.forwarding == Prefix(w, k + 1) && t.kv == |t.forwarding|
    && t.generated == [Result(w, k).bonus] && t.drafts == Result(w, k).drafts
    && t.inflight == [] && t.pendingPos == [] && t.pendingDraft == []
    && t.planned.IsEmpty() && t.remaining.prefill == 0 && t.remaining.offset == |t.prefilling|
    && t.planning == Workload(0, 0, 1, |Result(w, k).drafts|, 0)
    && t.remaining.generated == 1 && t.remaining.draft == |Result(w, k).drafts|
  }

  /** Retiring a depth-1 step leaves the reference output and the committed tokens, and stops exactly on a
      stop token. */
  lemma RetireKeeps(w: World, s: ReqState, k: nat)
    requires WorldOk(w) && InFlight(w, s, k)
    ensures CanRetire(Received(s, Result(w, k))) && AtRest(w, Retired(s, Result(w, k), w.stops), k)
  {
    var x, r := Ref(w, k), Result(w, k);
    assert WellFormedResult(x, r);
    assert r.accepted == Drafts(x)[..|r.accepted|];
    if x.draftNum > 0 {
      assert Resize(x.tokens, |x.tokens| - x.draftNum + |r.accepted|) == Committed(x, r.accepted);
    } else {
      assert x.tokens == Committed(x, r.accepted);
    }
  }

  /** The launch after a retire feeds the next reference input. */
  lemma LaunchKeeps(w: World, t: ReqState, k: nat, fastPath: bool)
    requires WorldOk(w) && AtRest(w, t, k) && Result(w, k).bonus !in w.stops
    ensures CanLaunchNext(t, SlotsAt(w, k + 1)) && InFlight(w, LaunchedNext(t, SlotsAt(w, k + 1), fastPath), k + 1)
  {
    RefShape(w, k + 1);
  }

  /** From step `k - 1` in flight to step `k` in flight. */
  ghost function Advance(w: World, s: ReqState, k: nat, fastPath: bool): (t: ReqState)
    requires WorldOk(w) && k > 0 && InFlight(w, s, k - 1) && Result(w, k - 1).bonus !in w.stops
    ensures InFlight(w, t, k)
  {
    var r := Result(w, k - 1);
    RetireKeeps(w, s, k - 1);
    LaunchKeeps(w, Retired(s, r, w.stops), k - 1, fastPath);
    LaunchedNext(Retired(s, r, w.stops), SlotsAt(w, k), fastPath)
  }

  /** The depth-1 run from a launched last prefill chunk to the launch of step `k`. */
  ghost function Run(w: World, s: ReqState, k: nat, fastPath: bool): (t: ReqState)
    requires WorldOk(w) && InFlight(w, s, 0) && Running(w, k)
    ensures InFlight(w, t, k)
  {
    if k == 0 then s else Advance(w, Run(w, s, k - 1, fastPath), k, fastPath)
  }

  // ---- Planned with what the last result left, and nothing else ----

  /** The input of step `k` when each step verifies every draft the one before left. */
  ghost function OwnInput(w: World, k: nat): (x: StepInput)
    ensures x.draftNum <= |x.tokens|
  {
    if k == 0 then FirstInput(w.prompt, w.chunkStart)
    else
      var x := OwnInput(w, k - 1);
      var r := w.model(x);
      var c := Committed(x, r.accepted);
      DecodeInput(c + [r.bonus] + r.drafts, |c|, |r.drafts|)
  }

  /** The request in a scheduler that plans as many drafts as the last result brought. */
  ghost function SelfPlanned(w: World): World
  {
    w.(plan := k => if k == 0 then 0 else |w.model(OwnInput(w, k - 1)).drafts|)
  }

  lemma {:induction false} SelfPlannedInput(w: World, k: nat)
    ensures Ref(SelfPlanned(w), k) == OwnInput(w, k)
  {
    if k > 0 {
      SelfPlannedInput(w, k - 1);
      var r := w.model(OwnInput(w, k - 1));
      assert TakenDrafts(r, |r.drafts|) == r.drafts;
    }
  }

  /** Step `k` is planned with as many drafts as the one before brought. */
  ghost predicate OwnSlots(w: World, k: nat)
    requires k > 0
  {
    SlotsAt(w, k) == |Result(w, k - 1).drafts|
  }

  ghost predicate PlansForItself(w: World)
  {
    forall k: nat | k > 0 :: OwnSlots(w, k)
  }

  lemma SelfPlannedIs(w: World)
    ensures PlansForItself(SelfPlanned(w))
  {
    forall k: nat | k > 0 ensures OwnSlots(SelfPlanned(w), k) {
      SelfPlannedInput(w, k - 1);
    }
  }

  /** What the scheduler plans is what the retire left. */
  lemma LeftIsPlanned(w: World, t: ReqState, k: nat)
    requires AtRest(w, t, k)
    ensures Planned(t, |Result(w, k).drafts|) == t
  {
  }

  /** From one step in flight to the next: retired, planned and launched with no estimate, unless some check does not
      hold. */
  function AdvanceLeft(s: ReqState, r: StepResult, stops: seq<int>, fastPath: bool): Option<ReqState>
  {
    if !CanRetire(Received(s, r)) then None
    else
      var rest := Retired(s, r, stops);
      if CanPlan(rest) && CanLaunch(Plan(rest), false) then Some(Launch(Plan(rest), false, fastPath)) else None
  }

  /** The depth-1 run that plans for itself. */
  ghost function LeftRun(w: World, s: ReqState, k: nat, fastPath: bool): Option<ReqState>
  {
    if k == 0 then Some(s)
    else
      var before := LeftRun(w, s, k - 1, fastPath);
      if before.None? then None else AdvanceLeft(before.value, Result(w, k - 1), w.stops, fastPath)
  }

  /** Such a step passes every check and is the planned one. */
  lemma AdvancesLeft(w: World, s: ReqState, k: nat, fastPath: bool)
    requires WorldOk(w) && k > 0 && InFlight(w, s, k - 1) && Result(w, k - 1).bonus !in w.stops && OwnSlots(w, k)
    ensures AdvanceLeft(s, Result(w, k - 1), w.stops, fastPath) == Some(Advance(w, s, k, fastPath))
  {
    RetireKeeps(w, s, k - 1);
    var rest := Retired(s, Result(w, k - 1), w.stops);
    LeftIsPlanned(w, rest, k - 1);
    LaunchKeeps(w, rest, k - 1, fastPath);
  }

  lemma LeftRunNext(w: World, s: ReqState, k: nat, fastPath: bool)
    requires WorldOk(w) && InFlight(w, s, 0) && Running(w, k) && k > 0 && OwnSlots(w, k)
    requires LeftRun(w, s, k - 1, fastPath) == Some(Run(w, s, k - 1, fastPath))
    ensures LeftRun(w, s, k, fastPath) == Some(Run(w, s, k, fastPath))
  {
    AdvancesLeft(w, Run(w, s, k - 1, fastPath), k, fastPath);
  }

  /** It never fails a check, and is the run that is planned with as many drafts as each result brought. */
  lemma {:induction false} LeftRunIs(w: World, s: ReqState, k: nat, fastPath: bool)
    requires WorldOk(w) && PlansForItself(w) && InFlight(w, s, 0) && Running(w, k)
    ensures LeftRun(w, s, k, fastPath) == Some(Run(w, s, k, fastPath))
  {
    for j := 0 to k
      invariant LeftRun(w, s, j, fastPath) == Some(Run(w, s, j, fastPath))
    {
      LeftRunNext(w, s, j + 1, fastPath);
    }
  }

  lemma SelfPlannedStarts(w: World, s: ReqState)
    requires WorldOk(w) && InFlight(w, s, 0)
    ensures WorldOk(SelfPlanned(w)) && InFlight(SelfPlanned(w), s, 0)
  {
  }

  /** What a request in flight forwards. */
  function Forwards(t: ReqState): StepInput
  {
    StepInput(t.forwarding, t.kv, t.prefixLen, t.draftNum, t.sampling, t.kind)
  }

  /** In every depth-1 run that plans straight from what each retire left, every launch succeeds, and step `k` is
      fed the committed tokens, the bonus token and all drafts of the step before. */
  lemma LeftRunFeedsAll(w: World, s: ReqState, k: nat, fastPath: bool)
    requires WorldOk(w) && InFlight(w, s, 0) && Running(SelfPlanned(w), k)
    ensures var t := LeftRun(SelfPlanned(w), s, k, fastPath);
            t.Some? && Forwards(t.value) == OwnInput(w, k)
  {
    SelfPlannedIs(w);
    SelfPlannedStarts(w, s);
    SelfPlannedInput(w, k);
    LeftRunIs(SelfPlanned(w), s, k, fastPath);
    assert InFlight(SelfPlanned(w), Run(SelfPlanned(w), s, k, fastPath), k);
  }
}
