/** The scheduler's launch gate: per-request capacity and the global pipeline depth. */
module PipelineDepths {
  import opened Tokens

  const PIPELINE_MAX_DEPTH: nat := 2

  /** What the gate looks at: the global depth, each request's steps in flight, and which requests have a
      planned step or have stopped. */
  datatype Gate = Gate(depth: nat, inflight: map<int, nat>, planned: set<int>, stopped: set<int>)

  function InflightOf(g: Gate, id: int): nat
  {
    if id in g.inflight then g.inflight[id] else 0
  }

  function MaxDepth(fast: bool): nat { if fast then PIPELINE_MAX_DEPTH else 1 }

  predicate Ready(g: Gate, id: int)
  {
    id !in g.stopped && id in g.planned
  }

  /** `IsLaunchable`. */
  predicate IsLaunchable(g: Gate, running: seq<int>, maxDepth: nat)
  {
    && (exists id :: id in running && Ready(g, id))
    && (forall id :: id in running && Ready(g, id) ==> InflightOf(g, id) < maxDepth)
  }

  function Kept(running: seq<int>, stopped: set<int>): (r: seq<int>)
    ensures forall id :: id in r <==> id in running && id !in stopped
  {
    if running == [] then []
    else
      var n := |running| - 1;
      assert running == running[..n] + [running[n]];
      Kept(running[..n], stopped) + (if running[n] in stopped then [] else [running[n]])
  }

  function Dropped(running: seq<int>, stopped: set<int>): (r: seq<int>)
    ensures forall id :: id in r <==> id in running && id in stopped
  {
    if running == [] then []
    else
      var n := |running| - 1;
      assert running == running[..n] + [running[n]];
      Dropped(running[..n], stopped) + (if running[n] in stopped then [running[n]] else [])
  }

  /** `LaunchPlanningTask`, as far as the gate is concerned. */
  function LaunchOne(g: Gate, id: int): Gate
  {
    if Ready(g, id) then g.(inflight := g.inflight[id := InflightOf(g, id) + 1], planned := g.planned - {id}) else g
  }

  function LaunchEach(g: Gate, running: seq<int>): Gate
  {
    if running == [] then g
    else LaunchOne(LaunchEach(g, running[..|running| - 1]), running[|running| - 1])
  }

  /** The requests one launch starts a step of. */
  ghost function Launched(g: Gate, running: seq<int>): set<int>
  {
    set id | id in running && Ready(g, id)
  }

  /** Launching a batch starts one step of each ready request, however often it is listed. */
  lemma {:induction false} LaunchEachStartsOneEach(g: Gate, running: seq<int>)
    ensures var g' := LaunchEach(g, running);
            && g'.depth == g.depth && g'.stopped == g.stopped && g'.planned == g.planned - Launched(g, running)
            && forall id :: InflightOf(g', id) == InflightOf(g, id) + if id in Launched(g, running) then 1 else 0
    decreases |running|
  {
    if running != [] {
      var n := |running| - 1;
      LaunchEachStartsOneEach(g, running[..n]);
      assert running == running[..n] + [running[n]];
    }
  }

  datatype Outcome = Outcome(gate: Gate, launched: bool, running: seq<int>, dropped: seq<int>)

  /** `TryToLaunchPlannedScheduleOutput`. */
  function TryToLaunch(g: Gate, running: seq<int>, fast: bool): Outcome
  {
    var kept := Kept(running, g.stopped);
    if !IsLaunchable(g, running, MaxDepth(fast)) then Outcome(g, false, running, [])
    else if kept == [] then Outcome(g, true, kept, Dropped(running, g.stopped))
    else if fast && g.depth >= PIPELINE_MAX_DEPTH then Outcome(g, false, kept, Dropped(running, g.stopped))
    else
      var g' := LaunchEach(g, kept);
      Outcome(if fast then g'.(depth := g'.depth + 1) else g', true, kept, Dropped(running, g.stopped))
  }

  /** `a` is left of `b` when some of its members are taken out. */
  predicate IsSubsequence(a: seq<int>, b: seq<int>)
  {
    a == [] || (b != [] && if a[|a| - 1] == b[|b| - 1] then IsSubsequence(a[..|a| - 1], b[..|b| - 1])
                           else IsSubsequence(a, b[..|b| - 1]))
  }

  /** `kept` and `dropped` share the batch out: the stopped requests are dropped, all others kept, as often as they
      were listed and in that order. */
  ghost predicate SharesOut(running: seq<int>, stopped: set<int>, kept: seq<int>, dropped: seq<int>)
  {
    && (forall id :: id in kept ==> id !in stopped) && (forall id :: id in dropped ==> id in stopped)
    && multiset(kept) + multiset(dropped) == multiset(running)
    && IsSubsequence(kept, running) && IsSubsequence(dropped, running)
  }

  lemma SkipsLast(a: seq<int>, b: seq<int>)
    requires b != [] && b[|b| - 1] !in a && IsSubsequence(a, b[..|b| - 1])
    ensures IsSubsequence(a, b)
  {
    assert a != [] ==> a[|a| - 1] in a;
  }

  lemma {:induction false} KeptInOrder(running: seq<int>, stopped: set<int>)
    ensures IsSubsequence(Kept(running, stopped), running)
    decreases |running|
  {
    if running != [] {
      var n := |running| - 1;
      var kept := Kept(running[..n], stopped);
      KeptInOrder(running[..n], stopped);
      if running[n] in stopped {
        SkipsLast(kept, running);
        assert kept + [] == kept;
      } else {
        assert (kept + [running[n]])[..|kept|] == kept;
      }
    }
  }

  lemma {:induction false} DroppedInOrder(running: seq<int>, stopped: set<int>)
    ensures IsSubsequence(Dropped(running, stopped), running)
    decreases |running|
  {
    if running != [] {
      var n := |running| - 1;
      var dropped := Dropped(running[..n], stopped);
      DroppedInOrder(running[..n], stopped);
      if running[n] in stopped {
        assert (dropped + [running[n]])[..|dropped|] == dropped;
      } else {
        SkipsLast(dropped, running);
        assert dropped + [] == dropped;
      }
    }
  }

  lemma OneMore(a: seq<int>, b: seq<int>, c: seq<int>, x: int)
    requires multiset(a) + multiset(b) == multiset(c)
    ensures multiset(a) + multiset(b + [x]) == multiset(c + [x])
  {
  }

  lemma {:induction false} NoneIsLost(running: seq<int>, stopped: set<int>)
    ensures multiset(Kept(running, stopped)) + multiset(Dropped(running, stopped)) == multiset(running)
    decreases |running|
  {
    if running != [] {
      var n := |running| - 1;
      var kept, dropped := Kept(running[..n], stopped), Dropped(running[..n], stopped);
      NoneIsLost(running[..n], stopped);
      assert running == running[..n] + [running[n]];
      if running[n] in stopped {
        OneMore(kept, dropped, running[..n], running[n]);
        assert kept + [] == kept;
      } else {
        OneMore(dropped, kept, running[..n], running[n]);
        assert dropped + [] == dropped;
      }
    }
  }

  lemma DropSharesOut(running: seq<int>, stopped: set<int>)
    ensures SharesOut(running, stopped, Kept(running, stopped), Dropped(running, stopped))
  {
    KeptInOrder(running, stopped);
    DroppedInOrder(running, stopped);
    NoneIsLost(running, stopped);
  }

  /** Some request of the batch is planned and not stopped, and each such request has a step to spare. */
  ghost predicate SomeReadyAllFit(g: Gate, running: seq<int>, limit: nat)
  {
    && (exists id :: id in running && id in g.planned - g.stopped)
    && (forall id :: id in running && id in g.planned - g.stopped ==> InflightOf(g, id) < limit)
  }

  lemma LaunchableExactly(g: Gate, running: seq<int>, fast: bool)
    ensures IsLaunchable(g, running, MaxDepth(fast)) <==> SomeReadyAllFit(g, running, if fast then 2 else 1)
  {
    assert forall id :: Ready(g, id) <==> id in g.planned - g.stopped;
  }

  /** A launch succeeds exactly when some running request is ready, every ready one has capacity, and on the fast
      path the pipeline has room; it then starts one step of every ready request and of no other. Refused, it leaves
      the gate alone, and none succeeds without starting a step. */
  ghost predicate StartsReadyOnes(g: Gate, running: seq<int>, fast: bool, o: Outcome)
  {
    && (o.launched <==> SomeReadyAllFit(g, running, if fast then 2 else 1) && (fast ==> g.depth < 2))
    && (!o.launched ==> o.gate == g)
    && (o.launched ==>
          && Launched(g, running) != {}
          && o.gate.depth == g.depth + (if fast then 1 else 0)
          && o.gate.stopped == g.stopped && o.gate.planned == g.planned - Launched(g, running)
          && forall id :: InflightOf(o.gate, id) == InflightOf(g, id) + if id in Launched(g, running) then 1 else 0)
  }

  /** Launched or refused for want of room, the stopped requests are taken out of the batch and reported; refused
      otherwise, the batch stays as it is. Whatever is started stays in. */
  ghost predicate HandsOnTheRest(g: Gate, running: seq<int>, fast: bool, o: Outcome)
  {
    && (if IsLaunchable(g, running, MaxDepth(fast)) then SharesOut(running, g.stopped, o.running, o.dropped)
        else o.running == running && o.dropped == [])
    && forall id :: id in Launched(g, running) ==> id in o.running
  }

  lemma GateOutcome(g: Gate, running: seq<int>, fast: bool)
    ensures StartsReadyOnes(g, running, fast, TryToLaunch(g, running, fast))
  {
    var kept := Kept(running, g.stopped);
    LaunchableExactly(g, running, fast);
    assert Launched(g, kept) == Launched(g, running);
    LaunchEachStartsOneEach(g, kept);
    if IsLaunchable(g, running, MaxDepth(fast)) {
      var id :| id in running && Ready(g, id);
      assert id in kept && id in Launched(g, running);
    }
  }

  lemma BatchOutcome(g: Gate, running: seq<int>, fast: bool)
    ensures HandsOnTheRest(g, running, fast, TryToLaunch(g, running, fast))
  {
    DropSharesOut(running, g.stopped);
    var o := TryToLaunch(g, running, fast);
    assert IsLaunchable(g, running, MaxDepth(fast)) ==>
             o.running == Kept(running, g.stopped) && o.dropped == Dropped(running, g.stopped);
  }

  /** What a launch does to the gate, and what it does to the batch. */
  lemma LaunchOutcome(g: Gate, running: seq<int>, fast: bool)
    ensures StartsReadyOnes(g, running, fast, TryToLaunch(g, running, fast))
    ensures HandsOnTheRest(g, running, fast, TryToLaunch(g, running, fast))
  {
    GateOutcome(g, running, fast);
    BatchOutcome(g, running, fast);
  }

  // ---- Every run ----

  /** A result returns: one pipeline slot is freed and each request of the oldest schedule retires a step. */
  function Update(g: Gate, oldest: set<int>, fast: bool): Gate
    requires forall id :: id in oldest ==> InflightOf(g, id) > 0
  {
    Gate(if fast && g.depth > 0 then g.depth - 1 else g.depth,
         map id | id in g.inflight.Keys :: if id in oldest then InflightOf(g, id) - 1 else g.inflight[id],
         g.planned, g.stopped)
  }

  datatype Event =
    | Plan(ids: set<int>)
    | Stop(ids: set<int>)
    | TryLaunch(running: seq<int>)
    | Returned

  /** The gate beside the schedules in flight, oldest first, each the set of requests it launched. */
  datatype Flight = Flight(gate: Gate, schedules: seq<set<int>>)

  /** How many of the schedules launched request `id`. */
  function Count(schedules: seq<set<int>>, id: int): nat
  {
    if schedules == [] then 0
    else Count(schedules[..|schedules| - 1], id) + if id in schedules[|schedules| - 1] then 1 else 0
  }

  lemma {:induction false} CountHead(schedules: seq<set<int>>, id: int)
    requires schedules != []
    ensures Count(schedules, id) == (if id in schedules[0] then 1 else 0) + Count(schedules[1..], id)
    decreases |schedules|
  {
    var n := |schedules| - 1;
    if n > 0 {
      CountHead(schedules[..n], id);
      assert schedules[..n][1..] == schedules[1..][..n - 1];
    }
  }

  ghost predicate Inv(f: Flight, fast: bool)
  {
    && (forall id :: InflightOf(f.gate, id) == Count(f.schedules, id))
    && (forall id :: InflightOf(f.gate, id) <= MaxDepth(fast))
    && (forall i :: 0 <= i < |f.schedules| ==> f.schedules[i] != {})
    && f.gate.depth == (if fast then |f.schedules| else 0) && f.gate.depth <= PIPELINE_MAX_DEPTH
  }

  ghost predicate Enabled(f: Flight, ev: Event)
  {
    ev.Returned? ==> f.schedules != [] && forall id :: id in f.schedules[0] ==> InflightOf(f.gate, id) > 0
  }

  ghost function Step(f: Flight, fast: bool, ev: Event): Flight
    requires Enabled(f, ev)
  {
    match ev
    case Plan(ids) => f.(gate := f.gate.(planned := f.gate.planned + ids))
    case Stop(ids) => f.(gate := f.gate.(stopped := f.gate.stopped + ids))
    case TryLaunch(running) =>
      var o := TryToLaunch(f.gate, running, fast);
      Flight(o.gate, if o.launched then f.schedules + [Launched(f.gate, running)] else f.schedules)
    case Returned => Flight(Update(f.gate, f.schedules[0], fast), f.schedules[1..])
  }

  lemma LaunchKeeps(f: Flight, fast: bool, running: seq<int>)
    requires Inv(f, fast)
    ensures Inv(Step(f, fast, TryLaunch(running)), fast)
  {
    GateOutcome(f.gate, running, fast);
    var o := TryToLaunch(f.gate, running, fast);
    if o.launched {
      var now := f.schedules + [Launched(f.gate, running)];
      assert now[..|f.schedules|] == f.schedules;
      forall id ensures Count(now, id) == Count(f.schedules, id) + if id in Launched(f.gate, running) then 1 else 0 {
      }
    }
  }

  /** The schedule that returns always has a step in flight for each of its requests. */
  lemma OldestHasSteps(f: Flight, fast: bool)
    requires Inv(f, fast) && f.schedules != []
    ensures Enabled(f, Returned)
  {
    forall id | id in f.schedules[0] ensures InflightOf(f.gate, id) > 0 {
      CountHead(f.schedules, id);
    }
  }

  lemma ReturnedKeeps(f: Flight, fast: bool)
    requires Inv(f, fast) && Enabled(f, Returned)
    ensures Inv(Step(f, fast, Returned), fast)
  {
    forall id ensures InflightOf(Step(f, fast, Returned).gate, id) == Count(f.schedules[1..], id) {
      CountHead(f.schedules, id);
    }
  }

  ghost predicate Reaches(f: Flight, fast: bool, evs: seq<Event>, t: Flight)
    decreases |evs|
  {
    if evs == [] then f == t else Enabled(f, evs[0]) && Reaches(Step(f, fast, evs[0]), fast, evs[1..], t)
  }

  lemma StepKeeps(f: Flight, fast: bool, ev: Event)
    requires Inv(f, fast) && Enabled(f, ev)
    ensures Inv(Step(f, fast, ev), fast)
  {
    match ev
    case Plan(_) =>
    case Stop(_) =>
    case TryLaunch(running) => LaunchKeeps(f, fast, running);
    case Returned => ReturnedKeeps(f, fast);
  }

  lemma {:induction false} RunKeeps(f: Flight, fast: bool, evs: seq<Event>, t: Flight)
    requires Inv(f, fast) && Reaches(f, fast, evs, t)
    ensures Inv(t, fast)
    decreases |evs|
  {
    if evs != [] {
      StepKeeps(f, fast, evs[0]);
      RunKeeps(Step(f, fast, evs[0]), fast, evs[1..], t);
    }
  }

  const IDLE := Flight(Gate(0, map[], {}, {}), [])

  /** In-flight accounting, in every run: each request has as many steps in flight as there are schedules in
      flight that launched it, never more than the depth limit; no schedule in flight is empty; on the fast
      path the global depth is their number, at most two, and whenever one may return it can. */
  lemma InflightAccounting(fast: bool, evs: seq<Event>, t: Flight)
    requires Reaches(IDLE, fast, evs, t)
    ensures forall id :: InflightOf(t.gate, id) == Count(t.schedules, id) <= MaxDepth(fast)
    ensures forall i :: 0 <= i < |t.schedules| ==> t.schedules[i] != {}
    ensures fast ==> t.gate.depth == |t.schedules| <= PIPELINE_MAX_DEPTH
    ensures t.schedules != [] ==> Enabled(t, Returned)
  {
    RunKeeps(IDLE, fast, evs, t);
    if t.schedules != [] {
      OldestHasSteps(t, fast);
    }
  }

  /** On the fast path, a request that has a step in flight when a schedule is launched was launched by the
      schedule right before. */
  lemma AheadMeansPreviousSchedule(f: Flight, running: seq<int>, id: int)
    requires Inv(f, true) && TryToLaunch(f.gate, running, true).launched
    ensures |f.schedules| <= 1
    ensures InflightOf(f.gate, id) > 0 <==> f.schedules != [] && id in f.schedules[|f.schedules| - 1]
  {
    GateOutcome(f.gate, running, true);
    if f.schedules != [] {
      assert Count(f.schedules[..0], id) == 0;
    }
  }

  /** Once a request is ready, something is kept: the branch for an emptied batch is never taken. */
  lemma LaunchableKeepsSomething(g: Gate, running: seq<int>, maxDepth: nat)
    requires IsLaunchable(g, running, maxDepth)
    ensures Kept(running, g.stopped) != []
  {
    var id :| id in running && Ready(g, id);
    assert id in Kept(running, g.stopped);
  }

  // ---- The scheduler object ----

  class BatchScheduler {
    var executorPipelineDepth: nat
    var inflightCounts: map<int, nat>
    var planned: set<int>
    var stopped: set<int>
    const fastPathActive: bool

    ghost function State(): Gate
      reads this
    {
      Gate(executorPipelineDepth, inflightCounts, planned, stopped)
    }

    constructor (fast: bool)
      ensures State() == IDLE.gate && fastPathActive == fast
    {
      executorPipelineDepth, inflightCounts, planned, stopped := 0, map[], {}, {};
      fastPathActive := fast;
    }

    method CheckLaunchable(running: seq<int>, maxDepth: nat) returns (ok: bool)
      ensures ok <==> IsLaunchable(State(), running, maxDepth)
    {
      ghost var g := State();
      ok := false;
      for i := 0 to |running|
        invariant ok <==> exists id :: id in running[..i] && Ready(g, id)
        invariant forall id :: id in running[..i] && Ready(g, id) ==> InflightOf(g, id) < maxDepth
      {
        var id := running[i];
        assert running[..i + 1] == running[..i] + [id];
        assert id !in stopped && id in planned <==> Ready(g, id);
        if id !in stopped && id in planned {
          ok := true;
          var inflight := if id in inflightCounts then inflightCounts[id] else 0;
          if inflight >= maxDepth {
            assert id in running && Ready(g, id) && InflightOf(g, id) >= maxDepth;
            return false;
          }
          assert id in running[..i + 1];
        }
      }
      assert running[..|running|] == running;
    }

    method DropStopped(running: seq<int>) returns (kept: seq<int>, dropped: seq<int>)
      ensures kept == Kept(running, stopped) && dropped == Dropped(running, stopped)
    {
      kept, dropped := [], [];
      for i := 0 to |running|
        invariant kept == Kept(running[..i], stopped) && dropped == Dropped(running[..i], stopped)
      {
        assert running[..i + 1][..i] == running[..i];
        if running[i] in stopped {
          dropped := dropped + [running[i]];
        } else {
          kept := kept + [running[i]];
        }
      }
      assert running[..|running|] == running;
    }

    /** One round of the loop in `LaunchScheduleOutput`. */
    method LaunchIfPlanned(id: int) returns (launched: bool)
      modifies this`inflightCounts, this`planned
      ensures launched <==> Ready(old(State()), id)
      ensures State() == LaunchOne(old(State()), id)
    {
      launched := id !in stopped && id in planned;
      if launched {
        var inflight := if id in inflightCounts then inflightCounts[id] else 0;
        inflightCounts := inflightCounts[id := inflight + 1];
        planned := planned - {id};
      }
    }

    method LaunchScheduleOutput(running: seq<int>, maxDepth: nat) returns (launchedAny: bool)
      modifies this`inflightCounts, this`planned
      ensures launchedAny <==> IsLaunchable(old(State()), running, maxDepth)
      ensures State() == if launchedAny then LaunchEach(old(State()), running) else old(State())
    {
      var launchable := CheckLaunchable(running, maxDepth);
      if !launchable {
        return false;
      }
      ghost var was := State();
      launchedAny := false;
      for i := 0 to |running|
        invariant State() == LaunchEach(was, running[..i])
        invariant launchedAny <==> Launched(was, running[..i]) != {}
      {
        LaunchEachStartsOneEach(was, running[..i]);
        LaunchedNext(was, running, i);
        var launched := LaunchIfPlanned(running[i]);
        launchedAny := launchedAny || launched;
      }
      assert running[..|running|] == running;
      LaunchableLaunches(was, running, maxDepth);
    }

    method TryToLaunchPlannedScheduleOutput(running: seq<int>)
      returns (launched: bool, kept: seq<int>, stoppedReqs: seq<int>)
      modifies this
      ensures Outcome(State(), launched, kept, stoppedReqs) == TryToLaunch(old(State()), running, fastPathActive)
    {
      var maxDepth := if fastPathActive then PIPELINE_MAX_DEPTH else 1;
      var launchable := CheckLaunchable(running, maxDepth);
      if !launchable {
        return false, running, [];
      }
      kept, stoppedReqs := DropStopped(running);
      if kept == [] {
        return true, kept, stoppedReqs;
      }
      if fastPathActive && executorPipelineDepth >= PIPELINE_MAX_DEPTH {
        return false, kept, stoppedReqs;
      }
      KeptStaysLaunchable(State(), running, maxDepth);
      launched := LaunchScheduleOutput(kept, maxDepth);
      if !launched {
        return false, kept, stoppedReqs;
      }
      if fastPathActive {
        executorPipelineDepth := executorPipelineDepth + 1;
      }
    }

    method UpdateWithGenerationResult(oldest: set<int>)
      requires forall id :: id in oldest ==> InflightOf(State(), id) > 0
      modifies this`executorPipelineDepth, this`inflightCounts
      ensures State() == Update(old(State()), oldest, fastPathActive)
    {
      if fastPathActive && executorPipelineDepth > 0 {
        executorPipelineDepth := executorPipelineDepth - 1;
      }
      inflightCounts := map id | id in inflightCounts.Keys ::
        if id in oldest then inflightCounts[id] - 1 else inflightCounts[id];
    }
  }

  /** Dropping the stopped requests does not change whether the batch is launchable. */
  lemma KeptStaysLaunchable(g: Gate, running: seq<int>, maxDepth: nat)
    ensures IsLaunchable(g, Kept(running, g.stopped), maxDepth) <==> IsLaunchable(g, running, maxDepth)
  {
    var kept := Kept(running, g.stopped);
    assert forall id :: Ready(g, id) ==> (id in running <==> id in kept);
  }

  lemma LaunchedNext(g: Gate, running: seq<int>, i: nat)
    requires i < |running|
    ensures LaunchEach(g, running[..i + 1]) == LaunchOne(LaunchEach(g, running[..i]), running[i])
    ensures Launched(g, running[..i + 1]) ==
            Launched(g, running[..i]) + if Ready(g, running[i]) then {running[i]} else {}
  {
    assert running[..i + 1][..i] == running[..i];
    assert running[..i + 1] == running[..i] + [running[i]];
  }

  lemma LaunchableLaunches(g: Gate, running: seq<int>, maxDepth: nat)
    requires IsLaunchable(g, running, maxDepth)
    ensures Launched(g, running) != {}
  {
    var id :| id in running && Ready(g, id);
    assert id in Launched(g, running);
  }
}
