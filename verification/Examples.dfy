/** Concrete requests on which the depth-2 code departs from depth 1, each reached by a run. */
module Examples {
  import opened Tokens
  import opened InferRequests
  import opened ModelRunners
  import opened Reference
  import opened AheadEngine
  import opened AheadRun
  import EngineRun

  /** The prompt `[5, 6]`, prefilled in one chunk; every step samples token 7. */
  function Prompted(plan: nat -> nat, model: StepInput -> StepResult): World
  {
    World(1, [5, 6], 0, [], plan, model)
  }

  /** The last prefill chunk is in flight and the runner is fresh. */
  ghost function Start(w: World): Sys
    requires w.chunkStart <= |w.prompt|
  {
    var chunk := Workload(|w.prompt| - w.chunkStart, w.chunkStart, 0, 0, 1);
    var req := ReqState(w.prompt, w.prompt, w.prompt, [], [], [], [chunk], [], [], NO_WORK, NO_WORK,
                        NO_WORK.(offset := |w.prompt|), false, Context, PrefillStep, w.chunkStart, w.chunkStart, 0, 1);
    Sys(EngineRun.Engine(req, [Frozen(w, 0)], 0, 0, false, false), FRESH_RUNNER,
        ExecState(w.id, [], 0, 0, 0, 1, PrefillStep, None, [], [], []), [], [], [], false)
  }

  /** The request is executed on its own and arrives as a patch. */
  const RUN_STEP := Event.Execute([], [], Patch)

  const RUN_WHOLE := Event.Execute([], [], Full)

  /** The step may be executed next, and then forwards `x`. */
  ghost predicate Executes(w: World, s: Sys, ev: Event, x: StepInput)
  {
    Enabled(w, s, ev) && InputOf(Step(w, s, ev).exec) == x
  }

  // ---- The Engine's steps, as far as the scheduler sees them ----

  lemma PlanFills(w: World, s: EngineRun.Engine)
    requires EngineRun.Inv(w, s) && EngineRun.Enabled(s, EngineRun.Plan)
    ensures var t := EngineRun.PlanStep(w, s);
            !t.req.planned.IsEmpty() && |t.req.inflight| == |s.req.inflight| && t == s.(req := t.req)
  {
    EngineRun.PlanStaysInPipeline(w, s.req, s.retired, |s.sent|);
  }

  lemma LaunchEmpties(w: World, s: EngineRun.Engine)
    requires EngineRun.Inv(w, s) && EngineRun.Enabled(s, EngineRun.Launch)
    ensures var t := EngineRun.LaunchStep(s);
            t.req.planned.IsEmpty() && !t.closed && |t.sent| == |s.sent| + 1 && t.retired == s.retired
  {
    LaunchAhead(w, s.req, s.retired);
  }

  lemma RetireKeepsPlanned(s: ReqState, stops: seq<int>)
    requires CanRetire(s)
    ensures InferRequests.Retire(s, stops).planned == s.planned
  {
  }

  /** A retire that leaves the request running leaves it open. */
  lemma StaysOpen(w: World, t: ReqState, l: nat, r: nat)
    requires EngineRun.OutputMatches(w, t, r + 1) && w.stops == [] && l == r + 2
    requires EngineRun.RequestMatches(w, t, l, r + 1, r + 1, t.eos || t.inflight == [])
    ensures !t.eos && t.inflight != []
  {
  }

  lemma RetireLeaves(w: World, req: ReqState, r: nat) returns (t: ReqState)
    requires WorldOk(w) && w.stops == []
    requires EngineRun.OutputMatches(w, req, r) && EngineRun.RequestMatches(w, req, r + 2, r, r, false)
    ensures CanRetire(Received(req, Result(w, r)))
    ensures t == PopInflight(InferRequests.Retire(Received(req, Result(w, r)), w.stops))
    ensures t.planned == req.planned && !t.eos && t.inflight != []
  {
    t := EngineRun.LiveMatches(w, req, r + 2, r);
    RetireKeepsPlanned(Received(req, Result(w, r)), w.stops);
    StaysOpen(w, t, r + 2, r);
  }

  lemma RetireStaysOpen(w: World, s: EngineRun.Engine)
    requires WorldOk(w) && EngineRun.Inv(w, s) && !s.closed && |s.sent| == s.retired + 2 && w.stops == []
    requires s.req.planned.IsEmpty()
    ensures var t := EngineRun.RetireStep(s, w.stops, Result(w, s.retired));
            t.req.planned.IsEmpty() && !t.closed && t.sent == s.sent && t.retired == s.retired + 1
  {
    var t := RetireLeaves(w, s.req, s.retired);
  }

  // ---- A run that executes a second block ----

  /** Where a run stands: how many steps have been launched, executed and retired, and whether one is planned. */
  ghost predicate At(w: World, s: Sys, sent: nat, executed: nat, retired: nat, planned: bool)
  {
    && Inv(w, s) && !s.engine.closed
    && |s.engine.sent| == sent && Executed(s) == executed && s.engine.retired == retired
    && (planned <==> !s.engine.req.planned.IsEmpty())
  }

  lemma PlanAt(w: World, s: Sys, k: nat) returns (t: Sys)
    requires WorldOk(w) && At(w, s, k + 1, k, k, false)
    ensures Enabled(w, s, Event.Plan) && t == Step(w, s, Event.Plan) && At(w, t, k + 1, k, k, true)
  {
    StepKeeps(w, s, Event.Plan);
    PlanFills(w, s.engine);
    t := Step(w, s, Event.Plan);
  }

  lemma LaunchAt(w: World, s: Sys, k: nat) returns (t: Sys)
    requires WorldOk(w) && At(w, s, k + 1, k, k, true)
    ensures Enabled(w, s, Event.Launch) && t == Step(w, s, Event.Launch) && At(w, t, k + 2, k, k, false)
  {
    StepKeeps(w, s, Event.Launch);
    LaunchEmpties(w, s.engine);
    t := Step(w, s, Event.Launch);
  }

  lemma ExecuteAt(w: World, s: Sys, k: nat) returns (t: Sys)
    requires WorldOk(w) && At(w, s, k + 2, k, k, false) && SeesDepthOne(w, k, Patch)
    ensures Enabled(w, s, RUN_STEP) && t == Step(w, s, RUN_STEP) && At(w, t, k + 2, k + 1, k, false)
  {
    StepKeeps(w, s, RUN_STEP);
    ExecutesExactly(w, s, RUN_STEP);
    EngineStepsAlone(w, s, RUN_STEP);
    t := Step(w, s, RUN_STEP);
  }

  lemma RetireAt(w: World, s: Sys, k: nat) returns (t: Sys)
    requires WorldOk(w) && At(w, s, k + 2, k + 1, k, false) && w.stops == []
    ensures Enabled(w, s, Event.Retire) && t == Step(w, s, Event.Retire) && At(w, t, k + 2, k + 1, k + 1, false)
  {
    StepKeeps(w, s, Event.Retire);
    RetireStaysOpen(w, s.engine);
    t := Step(w, s, Event.Retire);
  }

  lemma ReachesOne(w: World, s: Sys, ev: Event)
    requires Enabled(w, s, ev)
    ensures AheadRun.Reaches(w, s, [ev], Step(w, s, ev))
  {
    assert [ev][1..] == [];
  }

  lemma ReachesMore(w: World, s: Sys, ev: Event, evs: seq<Event>, t: Sys)
    requires Enabled(w, s, ev) && AheadRun.Reaches(w, Step(w, s, ev), evs, t)
    ensures AheadRun.Reaches(w, s, [ev] + evs, t)
  {
    assert ([ev] + evs)[1..] == evs;
  }

  lemma FirstThenRest<T>(a: seq<T>, b: seq<T>)
    requires a != []
    ensures a + b == [a[0]] + (a[1..] + b)
  {
  }

  lemma {:induction false} ReachesBoth(w: World, s: Sys, evs: seq<Event>, t: Sys, more: seq<Event>, u: Sys)
    requires AheadRun.Reaches(w, s, evs, t) && AheadRun.Reaches(w, t, more, u)
    ensures AheadRun.Reaches(w, s, evs + more, u)
    decreases |evs|
  {
    if evs == [] {
      assert evs + more == more;
    } else {
      var next := FirstOf(w, s, evs, t);
      ReachesBoth(w, next, evs[1..], t, more, u);
      ReachesMore(w, s, evs[0], evs[1..] + more, u);
      FirstThenRest(evs, more);
    }
  }

  function Round(): seq<Event> { [Event.Plan] + [Event.Launch] + [RUN_STEP] }

  /** Planned, launched ahead, executed: from one step in flight to two. */
  lemma RoundAt(w: World, s: Sys, k: nat) returns (t: Sys)
    requires WorldOk(w) && At(w, s, k + 1, k, k, false) && SeesDepthOne(w, k, Patch)
    ensures AheadRun.Reaches(w, s, Round(), t) && At(w, t, k + 2, k + 1, k, false)
  {
    var a := PlanAt(w, s, k);
    var b := LaunchAt(w, a, k);
    t := ExecuteAt(w, b, k);
    ReachesOne(w, s, Event.Plan);
    ReachesOne(w, a, Event.Launch);
    ReachesOne(w, b, RUN_STEP);
    ReachesBoth(w, s, [Event.Plan], a, [Event.Launch], b);
    ReachesBoth(w, s, [Event.Plan] + [Event.Launch], b, [RUN_STEP], t);
  }

  /** A round, a retire and another round: step 2, the second block, is what executes next. */
  function ToStepTwo(): seq<Event> { Round() + [Event.Retire] + Round() }

  lemma RunsToStepTwo(w: World, s: Sys) returns (t: Sys)
    requires WorldOk(w) && At(w, s, 1, 0, 0, false) && w.stops == [] && SeesDepthOne(w, 1, Patch)
    ensures AheadRun.Reaches(w, s, ToStepTwo(), t) && At(w, t, 3, 2, 1, false)
  {
    var c := RoundAt(w, s, 0);
    var d := RetireAt(w, c, 0);
    t := RoundAt(w, d, 1);
    ReachesOne(w, c, Event.Retire);
    ReachesBoth(w, s, Round(), c, [Event.Retire], d);
    ReachesBoth(w, s, Round() + [Event.Retire], d, Round(), t);
  }

  lemma StartAt(w: World)
    requires WorldOk(w) && w.chunkStart < |w.prompt|
    ensures Initial(w, Start(w)) && At(w, Start(w), 1, 0, 0, false)
  {
    InitialInv(w, Start(w));
  }

  /** Every such request gets as far as the execution of step 2, its second block. */
  lemma ReachesStepTwo(w: World) returns (t: Sys)
    requires WorldOk(w) && w.chunkStart < |w.prompt| && w.stops == [] && SeesDepthOne(w, 1, Patch)
    ensures AgreedRun(w, Start(w), ToStepTwo(), t) && At(w, t, 3, 2, 1, false)
    ensures Enabled(w, t, RUN_STEP)
  {
    StartAt(w);
    t := RunsToStepTwo(w, Start(w));
  }

  // ---- An unfed step ----

  /** One draft slot is reserved for every step, and no step drafts anything. */
  ghost function Unfed(): World { Prompted(_ => 1, _ => StepResult([], 7, [], [])) }

  lemma UnfedInputs()
    ensures WorldOk(Unfed())
    ensures Ref(Unfed(), 1) == DecodeInput([5, 6, 7], 2, 0) && Held(Unfed(), 1) == [5, 6, 7, PLACEHOLDER]
    ensures Ref(Unfed(), 2) == DecodeInput([5, 6, 7, 7], 3, 0)
  {
    assert Ref(Unfed(), 0) == FirstInput([5, 6], 0);
    assert Ref(Unfed(), 1) == DecodeInput([5, 6, 7], 2, 0);
    assert Committed(DecodeInput([5, 6, 7], 2, 0), []) == [5, 6, 7];
    assert Ref(Unfed(), 2) == Next(Ref(Unfed(), 1), StepResult([], 7, [], []), 1);
  }

  lemma UnfedRepair(a: ExecState)
    requires a.kind == DecodeStep && a.forwarding == Frozen(Unfed(), 2).forwarding
    ensures AcceptedFits(Block(2, 0), 4, []) && 4 + 1 < |a.forwarding|
    ensures RepairedInput(a, StepResult([], 7, [], []), 4, 1, Block(2, 0)) ==
            DecodeInput([5, 6, 7, PLACEHOLDER, 7], 4, 0)
  {
    UnfedInputs();
    var x, res := DecodeInput([5, 6, 7], 2, 0), StepResult([], 7, [], []);
    assert WellFormedResult(x, res);
    RepairWithoutDrafts(x, 1, 4, res, 1, a);
    assert WithMtp([5, 6, 7] + Fill(PLACEHOLDER, 1), res, 1) == DecodeInput([5, 6, 7, PLACEHOLDER, 7], 4, 0);
  }

  lemma UnfedBlock(kv: nat)
    ensures PreviousBlock(LastBlock(Unfed(), 2), kv, |Held(Unfed(), 1)|) == Block(2, 0)
    ensures |Held(Unfed(), 1)| == 4 && Unfed().plan(2) == 1 && Result(Unfed(), 1) == StepResult([], 7, [], [])
  {
    UnfedInputs();
  }

  lemma UnfedStart()
    ensures SeesDepthOne(Unfed(), 1, Patch)
  {
  }

  lemma UnfedExecutes(t: Sys)
    requires WorldOk(Unfed()) && At(Unfed(), t, 3, 2, 1, false) && Enabled(Unfed(), t, RUN_STEP)
    ensures Executes(Unfed(), t, RUN_STEP, DecodeInput([5, 6, 7, PLACEHOLDER, 7], 4, 0))
  {
    ExecutesRepaired(Unfed(), t, RUN_STEP);
    var a := Arrive(t.exec, Frozen(Unfed(), 2), Patch);
    UnfedBlock(a.kv);
    UnfedRepair(a);
  }

  /** Step 1 verifies nothing though one slot was reserved: the slot stays in step 2's input, between the two
      sampled tokens. */
  lemma StaleSlotExample() returns (t: Sys)
    ensures Ref(Unfed(), 2) == DecodeInput([5, 6, 7, 7], 3, 0)
    ensures Executes(Unfed(), t, RUN_STEP, DecodeInput([5, 6, 7, PLACEHOLDER, 7], 4, 0))
    ensures AgreedRun(Unfed(), Start(Unfed()), ToStepTwo(), t)
  {
    UnfedInputs();
    UnfedStart();
    t := ReachesStepTwo(Unfed());
    UnfedExecutes(t);
  }

  // ---- A partly filled block ----

  /** Two slots are reserved for every step, and every step drafts one token. */
  ghost function HalfFed(): World { Prompted(_ => 2, _ => StepResult([], 7, [8], [8])) }

  lemma HalfFedInputs()
    ensures WorldOk(HalfFed()) && SeesDepthOne(HalfFed(), 1, Patch) && SeesDepthOne(HalfFed(), 2, Patch)
    ensures LastBlock(HalfFed(), 2) == Some(Block(2, 1)) && Frozen(HalfFed(), 2).placeholder == Some(5)
    ensures Ref(HalfFed(), 1) == DecodeInput([5, 6, 7, 8], 2, 1)
    ensures Ref(HalfFed(), 2) == DecodeInput([5, 6, 7, 7, 8], 3, 1)
    ensures NoPlaceholders(HalfFed()) && Result(HalfFed(), 1) == StepResult([], 7, [8], [8]) && HalfFed().plan(2) == 2
    ensures Frozen(HalfFed(), 2).forwarding ==
            [5, 6, 7, 8, PLACEHOLDER, PLACEHOLDER, PLACEHOLDER, PLACEHOLDER]
  {
    assert Ref(HalfFed(), 0) == FirstInput([5, 6], 0);
    assert Ref(HalfFed(), 1) == DecodeInput([5, 6, 7, 8], 2, 1);
    assert Committed(DecodeInput([5, 6, 7, 8], 2, 1), []) == [5, 6, 7];
  }

  /** The block remembered from step 1 ends at 4, and the block of step 2 starts at 5, so the fallback fires; the
      input is the depth-1 one all the same. */
  lemma FallbackExample() returns (t: Sys)
    ensures AgreedRun(HalfFed(), Start(HalfFed()), ToStepTwo(), t)
    ensures LastBlock(HalfFed(), 2) == Some(Block(2, 1)) && Frozen(HalfFed(), 2).placeholder == Some(5)
    ensures Executes(HalfFed(), t, RUN_STEP, Ref(HalfFed(), 2))
  {
    HalfFedInputs();
    t := ReachesStepTwo(HalfFed());
    NextStepAgrees(HalfFed(), Start(HalfFed()), ToStepTwo(), t, RUN_STEP);
  }

  // ---- A full transfer ----

  lemma HalfFedRepair(a: ExecState)
    requires a.kind == DecodeStep && a.forwarding == Frozen(HalfFed(), 2).forwarding
    ensures AcceptedFits(Block(2, 1), 4, []) && 4 + 2 < |a.forwarding|
    ensures RepairedInput(a, StepResult([], 7, [8], [8]), 4, 2, Block(2, 1)) ==
            DecodeInput([5, 6, 7, 7, 8, PLACEHOLDER], 3, 1)
  {
    HalfFedInputs();
    assert a.forwarding == [5, 6, 7, 8, PLACEHOLDER, PLACEHOLDER, PLACEHOLDER, PLACEHOLDER];
    assert KeepAccepted(a.forwarding, 4, Block(2, 1), []) ==
           [5, 6, 7, PLACEHOLDER, PLACEHOLDER, PLACEHOLDER, PLACEHOLDER];
    assert Fitting([8], 2) == [8];
  }

  lemma HalfFedScanned(t: Sys)
    requires WorldOk(HalfFed()) && At(HalfFed(), t, 3, 2, 1, false)
    ensures Executes(HalfFed(), t, RUN_WHOLE, DecodeInput([5, 6, 7, 7, 8, PLACEHOLDER], 3, 1))
  {
    HalfFedInputs();
    ExecutesRepaired(HalfFed(), t, RUN_WHOLE);
    HalfFedRepair(Arrive(t.exec, Frozen(HalfFed(), 2), Full));
  }

  /** The same step as a full transfer: the scan takes the unfilled slot of step 1 for the start of step 2's
      block, and a slot is left over at the end. Depth 1 has `[5, 6, 7, 7, 8]`. */
  lemma FullTransferExample() returns (t: Sys)
    ensures Ref(HalfFed(), 2) == DecodeInput([5, 6, 7, 7, 8], 3, 1)
    ensures Executes(HalfFed(), t, RUN_WHOLE, DecodeInput([5, 6, 7, 7, 8, PLACEHOLDER], 3, 1))
    ensures AgreedRun(HalfFed(), Start(HalfFed()), ToStepTwo(), t)
  {
    HalfFedInputs();
    t := ReachesStepTwo(HalfFed());
    HalfFedScanned(t);
  }

  // ---- Drafts from another source ----

  /** Step 0 drafts one token, every later step one MTP draft and one of another source. */
  ghost function Mixed(): World
  {
    Prompted(k => if k == 1 then 1 else 2,
             (x: StepInput) => if |x.tokens| == 2 then StepResult([], 7, [8], [8]) else StepResult([], 7, [8, 9], [8]))
  }

  lemma MixedInputs()
    ensures WorldOk(Mixed()) && SeesDepthOne(Mixed(), 1, Patch) && FedAt(Mixed(), 1)
    ensures !MtpCovers(Result(Mixed(), 1), Mixed().plan(2))
  {
    assert Ref(Mixed(), 0) == FirstInput([5, 6], 0);
    assert Ref(Mixed(), 1) == DecodeInput([5, 6, 7, 8], 2, 1);
    assert Result(Mixed(), 1) == StepResult([], 7, [8, 9], [8]);
    assert |Fitting([8], 2)| == 1 && |Fitting([8, 9], 2)| == 2;
  }

  /** Step 1 verifies its draft, yet the Executor leaves the other draft out of step 2's input. */
  lemma OtherDraftExample() returns (t: Sys)
    ensures AgreedRun(Mixed(), Start(Mixed()), ToStepTwo(), t) && Enabled(Mixed(), t, RUN_STEP)
    ensures FedAt(Mixed(), 1) && !MtpCovers(Result(Mixed(), 1), Mixed().plan(2))
    ensures InputOf(Step(Mixed(), t, RUN_STEP).exec) != Ref(Mixed(), 2)
  {
    MixedInputs();
    t := ReachesStepTwo(Mixed());
    NextStepAgrees(Mixed(), Start(Mixed()), ToStepTwo(), t, RUN_STEP);
  }
}
