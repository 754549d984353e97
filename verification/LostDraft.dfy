/** A run in which the backfill retire drops an accepted draft: a pipeline that has run dry is launched onto. */
module LostDraft {
  import opened Tokens
  import opened InferRequests
  import opened Reference
  import opened AheadEngine
  import opened Relaunch
  import EngineRun
  import Examples

  // ---- From a dry pipeline to the lost draft, for any request ----

  /** A step with a draft is alone in flight, launched without its main token. */
  ghost predicate DraftOnly(w: World, s: ReqState, k: nat, output: seq<int>)
  {
    && s.output == output && !s.eos && s.generated == [] && s.pendingPos == [] && s.pendingDraft == []
    && |s.inflight| == 1 && s.inflight[0].prefill == 0 && s.inflight[0].draft > 0 && Workloads(w, s, k + 1)
  }

  /** An own-block retire without a successor keeps the drafts but not the token, so the next launch takes a
      draft along and nothing else. */
  lemma LaunchesDraft(w: World, s: ReqState, k: nat)
    requires WorldOk(w) && Resting(w, s, k, []) && !s.planned.IsEmpty()
    requires Result(w, k).drafts != [] && SlotsAt(w, k + 1) > 0
    ensures CanLaunch(s, false) && DraftOnly(w, InferRequests.Launch(s, false, true), k + 1, s.output)
  {
  }

  /** A step with a draft and, behind it, one with a block are in flight. */
  ghost predicate DraftInFront(s: ReqState, output: seq<int>)
  {
    && s.output == output && !s.eos && |s.inflight| == 2 && s.inflight[0].prefill == 0 && s.inflight[0].draft > 0
    && |s.pendingPos| == |s.pendingDraft| == 1 && s.pendingPos[0] + 1 + s.pendingDraft[0] <= |s.forwarding|
    && s.forwarding[s.pendingPos[0]] == PLACEHOLDER
  }

  lemma ReservesBehind(w: World, s: ReqState, k: nat, output: seq<int>)
    requires DraftOnly(w, s, k, output) && !s.planned.IsEmpty()
    ensures CanLaunch(s, true) && DraftInFront(InferRequests.Launch(s, true, true), output)
  {
  }

  /** The front step's accepted drafts never reach the output. */
  lemma DropsAccepted(s: ReqState, output: seq<int>, r: StepResult, stops: seq<int>)
    requires DraftInFront(s, output)
    ensures var d := Received(s, r);
            CanRetire(d) && PopInflight(InferRequests.Retire(d, stops)).output == output + [r.bonus]
  {
  }

  // ---- A run that gets there ----

  /** One draft slot for every step; every step samples 7, drafts 8 and accepts an 8. */
  ghost function Eights(): World
  {
    Examples.Prompted(_ => 1, (x: StepInput) =>
      StepResult(if x.draftNum == 1 && x.tokens != [] && x.tokens[|x.tokens| - 1] == 8 then [8] else [], 7, [8], [8]))
  }

  lemma Results()
    ensures WorldOk(Eights()) && Eights().stops == [] && forall k :: Eights().plan(k) == 1
    ensures Result(Eights(), 1) == Result(Eights(), 2) == StepResult([8], 7, [8], [8])
    ensures Output(Eights(), 2) == [5, 6, 7, 8, 7] && Output(Eights(), 3) == [5, 6, 7, 8, 7, 8, 7]
  {
    var w := Eights();
    assert Ref(w, 0) == FirstInput([5, 6], 0);
    assert Ref(w, 1) == DecodeInput([5, 6, 7, 8], 2, 1);
    assert Committed(Ref(w, 1), [8]) == [5, 6, 7, 8];
    assert Ref(w, 2) == DecodeInput([5, 6, 7, 8, 7, 8], 4, 1);
    assert Output(w, 1) == [5, 6, 7];
  }

  /** The last prefill chunk of `[5, 6]` is in flight. */
  ghost function Start(): Engine
  {
    var req := ReqState([5, 6], [5, 6], [5, 6], [], [], [], [Workload(2, 0, 0, 0, 1)], [], [], NO_WORK, NO_WORK,
                        NO_WORK.(offset := 2), false, Context, PrefillStep, 0, 0, 0, 1);
    Engine(req, [Frozen(Eights(), 0)], [false], 0, 0, false, false)
  }

  /** How far a run has come. */
  ghost predicate At(s: Engine, launched: nat, retired: nat, planned: bool)
  {
    && |s.sent| == launched && s.retired == s.counted == retired && !s.closed && !s.failed
    && (planned <==> !s.req.planned.IsEmpty())
  }

  lemma ReachesOne(w: World, s: Engine, ev: Event)
    requires Enabled(s, ev)
    ensures Reaches(w, s, [ev], Step(w, s, ev))
  {
    assert [ev][1..] == [];
  }

  lemma ReachesMore(w: World, s: Engine, ev: Event, evs: seq<Event>, t: Engine)
    requires Enabled(s, ev) && Reaches(w, Step(w, s, ev), evs, t)
    ensures Reaches(w, s, [ev] + evs, t)
  {
    assert ([ev] + evs)[1..] == evs;
  }

  lemma {:induction false} ReachesBoth(w: World, s: Engine, evs: seq<Event>, t: Engine, more: seq<Event>, u: Engine)
    requires Reaches(w, s, evs, t) && Reaches(w, t, more, u)
    ensures Reaches(w, s, evs + more, u)
    decreases |evs|
  {
    if evs == [] {
      assert evs + more == more;
    } else {
      var next := FirstOf(w, s, evs, t);
      ReachesBoth(w, next, evs[1..], t, more, u);
      ReachesMore(w, s, evs[0], evs[1..] + more, u);
      Examples.FirstThenRest(evs, more);
    }
  }

  // ---- The pipeline runs dry ----

  lemma StartAt()
    ensures WorldOk(Eights()) && Initial(Eights(), Start()) && Inv(Eights(), Start()) && At(Start(), 1, 0, false)
  {
    Results();
    InitialInv(Eights(), Start());
  }

  /** Step 1 is planned and launched behind the chunk. */
  lemma Ahead(w: World, s: Engine) returns (t: Engine)
    requires WorldOk(w) && Inv(w, s) && At(s, 1, 0, false) && |s.req.inflight| == 1
    ensures Reaches(w, s, [Event.Plan] + [Event.Launch], t)
    ensures Inv(w, t) && At(t, 2, 0, false) && t.ahead == s.ahead + [true]
  {
    PlanKeeps(w, s);
    var a := Step(w, s, Event.Plan);
    LaunchKeeps(w, a);
    t := Step(w, a, Event.Launch);
    ReachesOne(w, s, Event.Plan);
    ReachesOne(w, a, Event.Launch);
    ReachesBoth(w, s, [Event.Plan], a, [Event.Launch], t);
  }

  lemma Returns(w: World, s: Engine, launched: nat, retired: nat) returns (t: Engine)
    requires WorldOk(w) && w.stops == [] && Inv(w, s) && At(s, launched, retired, false) && retired < launched
    ensures Reaches(w, s, [Event.Retire], t)
    ensures Inv(w, t) && At(t, launched, retired + 1, false) && t.ahead == s.ahead
  {
    RetireKeeps(w, s);
    t := Step(w, s, Event.Retire);
    Examples.RetireKeepsPlanned(Received(s.req, Result(w, s.retired)), w.stops);
    ReachesOne(w, s, Event.Retire);
  }

  /** With everything retired behind a step launched ahead, no token is left. */
  lemma Dry(s: Engine)
    requires Inv(Eights(), s) && At(s, 2, 2, false) && s.ahead == [false, true]
    ensures Resting(Eights(), s.req, 1, []) && s.req.output == Output(Eights(), 2)
  {
    assert s.ahead[1];
  }

  lemma RunsDry() returns (t: Engine)
    ensures WorldOk(Eights()) && Initial(Eights(), Start())
    ensures Reaches(Eights(), Start(), DryEvents(), t) && At(t, 2, 2, false)
    ensures Resting(Eights(), t.req, 1, []) && t.req.output == Output(Eights(), 2)
  {
    StartAt();
    Results();
    var w, s := Eights(), Start();
    var a := Ahead(Eights(), s);
    var b := Returns(Eights(), a, 2, 0);
    t := Returns(Eights(), b, 2, 1);
    Dry(t);
    ReachesBoth(w, s, Launches(), a, [Event.Retire], b);
    ReachesBoth(w, s, Launches() + [Event.Retire], b, [Event.Retire], t);
  }

  function Launches(): seq<Event> { [Event.Plan] + [Event.Launch] }

  function DryEvents(): seq<Event> { Launches() + [Event.Retire] + [Event.Retire] }

  // ---- And is launched onto ----

  lemma Plans(s: Engine, k: nat) returns (t: Engine)
    requires !s.closed && s.req.planned.IsEmpty() && Workloads(Eights(), s.req, k) && |s.sent| == k
    requires Eights().plan(k) == 1
    ensures Reaches(Eights(), s, [Event.Plan], t) && Workloads(Eights(), t.req, k) && !t.req.planned.IsEmpty()
    ensures t == s.(req := t.req) && t.req == s.req.(planned := t.req.planned, planning := t.req.planning,
                                                     remaining := t.req.remaining)
  {
    t := Step(Eights(), s, Event.Plan);
    ReachesOne(Eights(), s, Event.Plan);
  }

  /** Step 2 takes the draft along and nothing else. */
  lemma DryLaunched(s: Engine) returns (t: Engine)
    requires At(s, 2, 2, false) && Resting(Eights(), s.req, 1, [])
    ensures Reaches(Eights(), s, Launches(), t) && At(t, 3, 2, false) && DraftOnly(Eights(), t.req, 2, s.req.output)
  {
    Results();
    var w := Eights();
    var a := Plans(s, 2);
    assert Resting(w, a.req, 1, []);
    LaunchesDraft(w, a.req, 1);
    t := Step(w, a, Event.Launch);
    ReachesOne(w, a, Event.Launch);
    ReachesBoth(w, s, [Event.Plan], a, [Event.Launch], t);
  }

  /** Step 3 reserves a block behind it. */
  lemma LaunchedBehind(s: Engine, output: seq<int>) returns (t: Engine)
    requires At(s, 3, 2, false) && DraftOnly(Eights(), s.req, 2, output)
    ensures Reaches(Eights(), s, Launches(), t) && At(t, 4, 2, false) && DraftInFront(t.req, output)
  {
    Results();
    var w := Eights();
    var a := Plans(s, 3);
    assert DraftOnly(w, a.req, 2, output);
    ReservesBehind(w, a.req, 2, output);
    t := Step(w, a, Event.Launch);
    ReachesOne(w, a, Event.Launch);
    ReachesBoth(w, s, [Event.Plan], a, [Event.Launch], t);
  }

  lemma DropsTheEight(s: Engine, output: seq<int>) returns (t: Engine)
    requires At(s, 4, 2, false) && DraftInFront(s.req, output)
    ensures Reaches(Eights(), s, [Event.Retire], t) && t.counted == t.retired == 3 && t.req.output == output + [7]
  {
    Results();
    var w := Eights();
    DropsAccepted(s.req, output, Result(w, 2), w.stops);
    t := Step(w, s, Event.Retire);
    ReachesOne(w, s, Event.Retire);
  }

  /** Step 1 ahead, two retires; step 2 onto the dry pipeline, step 3 ahead, a retire. */
  function Events(): seq<Event> { DryEvents() + Launches() + Launches() + [Event.Retire] }

  /** A run whose output lacks an accepted draft: `[5, 6, 7, 8, 7, 7]` where depth 1 has
      `[5, 6, 7, 8, 7, 8, 7]`. */
  lemma LostDraftExample() returns (t: Engine)
    ensures WorldOk(Eights()) && Initial(Eights(), Start()) && Reaches(Eights(), Start(), Events(), t)
    ensures t.counted == 3 && t.req.output == [5, 6, 7, 8, 7, 7] && Output(Eights(), 3) == [5, 6, 7, 8, 7, 8, 7]
  {
    Results();
    var w, s := Eights(), Start();
    var a := RunsDry();
    var b := DryLaunched(a);
    var c := LaunchedBehind(b, a.req.output);
    t := DropsTheEight(c, a.req.output);
    ReachesBoth(w, s, DryEvents(), a, Launches(), b);
    ReachesBoth(w, s, DryEvents() + Launches(), b, Launches(), c);
    ReachesBoth(w, s, DryEvents() + Launches() + Launches(), c, [Event.Retire], t);
  }
}
