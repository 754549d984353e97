/** A run of the device-ring path in which a placeholder gets a token that is not its request's own. */
module MisalignedRun {
  import opened Tokens
  import opened BatchLayout
  import opened DeviceRings
  import opened DevicePipeline
  import Gates = PipelineDepths

  /** A middle prefill chunk of request 1, which samples nothing. */
  const CHUNK := Req(1, 0, [11, 12], 0, 0, 0, 0)

  /** A decode step of request 2, and the one behind it, launched ahead. */
  const DECODE := Req(2, 0, [21, 22], 1, 0, 0, 1)
  const AHEAD := Req(2, 0, [21, 22, PLACEHOLDER], 2, 0, 0, 1)

  const FIRST := [CHUNK, DECODE]
  const SECOND := [AHEAD]

  const CAPACITY: nat := 2

  /** Request 2's token is 100, at its logits offset; what the sampler's buffer holds behind it is no token of
      this batch. */
  const SAMPLED := [100, 200]

  lemma FirstIsSorted(threshold: nat)
    ensures BatchOk(FIRST) && Sorted(true, threshold, FIRST)
  {
    assert IsPaged(DECODE) && !IsPaged(CHUNK);
  }

  lemma FirstFits()
    ensures BatchFits(FIRST, CAPACITY)
  {
  }

  lemma FirstFlat()
    ensures BatchOk(FIRST) && Flat(FIRST, 1) == [11, 12] && Flat(FIRST, 2) == [11, 12, 22]
  {
    assert Input(CHUNK) == [11, 12] && Input(DECODE) == [22];
    assert Flat(FIRST, 0) == [];
    assert Flat(FIRST, 1) == Flat(FIRST, 0) + Input(CHUNK);
    assert Flat(FIRST, 2) == Flat(FIRST, 1) + Input(DECODE);
  }

  lemma FirstPairs()
    ensures BatchOk(FIRST) && Pairs(FIRST, 2) == [Pair(1, 1), Pair(2, 2)]
  {
    FirstFlat();
    assert Pairs(FIRST, 0) == [];
    assert End(FIRST, 0) == 2 && End(FIRST, 1) == 3;
    assert Pairs(FIRST, 1) == Pairs(FIRST, 0) + [Pair(1, 1)];
    assert Pairs(FIRST, 2) == Pairs(FIRST, 1) + [Pair(2, 2)];
  }

  lemma TwoPairs(a: Pair, b: Pair)
    ensures PairCells([a, b]) == [a.id, a.offset, b.id, b.offset]
  {
    var cells := PairCells([a, b]);
    assert PairAt(cells, 0) == a && PairAt(cells, 1) == b;
  }

  lemma OnePair(a: Pair)
    ensures PairCells([a]) == [a.id, a.offset]
  {
    assert PairAt(PairCells([a]), 0) == a;
  }

  lemma FirstIsBuilt()
    ensures BatchOk(FIRST) && BuiltSlot(FIRST) == Slot([11, 12, 22], [1, 1, 2, 2])
  {
    FirstFlat();
    FirstPairs();
    TwoPairs(Pair(1, 1), Pair(2, 2));
  }

  lemma SecondFits()
    ensures BatchFits(SECOND, CAPACITY)
  {
  }

  lemma SecondIsBuilt()
    ensures BatchOk(SECOND) && End(SECOND, 0) == 1 && BuiltSlot(SECOND) == Slot([PLACEHOLDER], [2, 0])
  {
    assert Input(AHEAD) == [PLACEHOLDER];
    assert Flat(SECOND, 0) == [];
    assert Flat(SECOND, 1) == Flat(SECOND, 0) + Input(AHEAD);
    assert Pairs(SECOND, 0) == [];
    assert Pairs(SECOND, 1) == Pairs(SECOND, 0) + [Pair(2, 0)];
    OnePair(Pair(2, 0));
  }

  /** Request 2 is the second of its batch, and the first of its batch to sample. */
  lemma OwnIndex()
    ensures Samples(FIRST, 1) == 0
  {
    assert Samples(FIRST, 0) == 0;
  }

  // ---- The gate ----

  /** Requests 1 and 2 are planned; nothing is in flight. */
  ghost function Gate0(): Gates.Gate { Gates.Gate(0, map[], {1, 2}, {}) }

  lemma FirstLaunches()
    ensures Gates.TryToLaunch(Gate0(), [1, 2], true).launched && Gates.Launched(Gate0(), [1, 2]) == {1, 2}
  {
    assert 1 in [1, 2] && Gates.Ready(Gate0(), 1);
    assert Gates.IsLaunchable(Gate0(), [1, 2], 2);
    Gates.GateOutcome(Gate0(), [1, 2], true);
  }

  /** What is left once both have been launched and request 2 is planned again. */
  ghost predicate Ahead(g: Gates.Gate)
  {
    && g.depth == 1 && g.stopped == {} && g.planned == {2}
    && forall id :: Gates.InflightOf(g, id) == if id == 1 || id == 2 then 1 else 0
  }

  lemma SecondLaunches(g: Gates.Gate)
    requires Ahead(g)
    ensures Gates.TryToLaunch(g, [2], true).launched && Gates.Launched(g, [2]) == {2}
  {
    assert 2 in [2] && Gates.Ready(g, 2);
    assert Gates.IsLaunchable(g, [2], 2);
    Gates.GateOutcome(g, [2], true);
  }

  ghost function Flight1(): Gates.Flight { Gates.Flight(Gate0(), []) }

  ghost function Flight2(): Gates.Flight { Gates.Step(Flight1(), true, Gates.TryLaunch([1, 2])) }

  ghost function Flight3(): Gates.Flight { Gates.Step(Flight2(), true, Gates.Plan({2})) }

  ghost function Flight4(): Gates.Flight { Gates.Step(Flight3(), true, Gates.TryLaunch([2])) }

  lemma IsAhead()
    ensures Ahead(Flight3().gate)
  {
    FirstLaunches();
    Gates.GateOutcome(Gate0(), [1, 2], true);
    var g := Flight2().gate;
    assert g.planned == Gate0().planned - {1, 2} == {};
    assert Flight3().gate == g.(planned := {} + {2});
    forall id ensures Gates.InflightOf(Flight3().gate, id) == if id == 1 || id == 2 then 1 else 0 {
      assert Gates.InflightOf(g, id) == Gates.InflightOf(Gate0(), id) + if id in {1, 2} then 1 else 0;
    }
  }

  // ---- The pipeline ----

  ghost function Pipe1(): Pipe
  {
    Pipe(Flight1(), [], 0, 0, 0, 0, Slot([], []), Slot([], []), [0, 0, 0, 0, 0], [0, 0, 0, 0, 0], [])
  }

  ghost function Start(): Pipe { Pipe1().(flight := Gates.IDLE) }

  ghost function Pipe2(): Pipe { Pipe1().(flight := Flight2(), history := [FIRST]) }

  ghost function Pipe3(): Pipe { Pipe2().(built := 1, slot := 1, input1 := Slot([11, 12, 22], [1, 1, 2, 2])) }

  ghost function Pipe4(): Pipe { Pipe3().(flight := Flight3()) }

  ghost function Pipe5(): Pipe { Pipe4().(flight := Flight4(), history := [FIRST, SECOND]) }

  ghost function Pipe6(): Pipe { Pipe5().(executed := 1, sampled := SAMPLED, ring1 := [2, 1, 100, 2, 200]) }

  ghost function Pipe7(): Pipe { Pipe6().(built := 2, slot := 0, input0 := Slot([PLACEHOLDER], [2, 0])) }

  /** `ev` takes `p` to `q`. */
  ghost predicate Goes(p: Pipe, ev: Event, q: Pipe)
  {
    Enabled(p, CAPACITY, ev) && Step(p, CAPACITY, ev) == q
  }

  lemma LaunchGoes(p: Pipe, running: seq<int>, rs: seq<Req>)
    requires Gates.TryToLaunch(p.flight.gate, running, true).launched
    requires Forwards(rs, Gates.TryToLaunch(p.flight.gate, running, true).running)
    requires BatchFits(rs, CAPACITY) && PlaceholdersAwait(p, rs)
    ensures Goes(p, Launch(running, rs), p.(flight := Gates.Step(p.flight, true, Gates.TryLaunch(running)),
                                            history := p.history + [rs]))
  {
  }

  lemma BuildGoes(p: Pipe, rs: seq<Req>, slot: Slot)
    requires p.built < |p.history| && p.history[p.built] == rs && BatchOk(rs) && BuiltSlot(rs) == slot
    ensures Goes(p, Build, WithInput(p, Flip(p.slot), slot).(built := p.built + 1, slot := Flip(p.slot)))
  {
  }

  lemma ExecuteGoes(p: Pipe, sampled: seq<int>, seen: seq<int>, ring: seq<int>)
    requires p.executed < p.built && p.executed < |p.history| && |p.history[p.executed]| <= |sampled|
    requires forall k :: 0 <= k < |sampled| ==> 0 <= sampled[k] < 0x8000_0000
    requires KernelsRan(p, sampled, seen, ring)
    ensures Goes(p, Execute(sampled, seen, ring),
                 WithRing(p, SlotOf(p.executed), ring).(executed := p.executed + 1, sampled := sampled))
  {
  }

  /** The first batch finds an empty ring, and fills the other. */
  lemma FirstKernels()
    ensures var cells, empty := [1, 1, 2, 2], [0, 0, 0, 0, 0];
            && (ReplaceArgs([11, 12, 22], cells, empty, 2) ==> Replaced([11, 12, 22], cells, empty, 2, [11, 12, 22]))
            && (WriteArgs(empty, cells, SAMPLED, 2) ==> Written(empty, cells, SAMPLED, 2, [2, 1, 100, 2, 200]))
  {
    var cells := [1, 1, 2, 2];
    assert PairAt(cells, 0) == Pair(1, 1) && PairAt(cells, 1) == Pair(2, 2);
  }

  /** The second batch finds 200 under request 2. */
  lemma SecondKernels()
    ensures var cells, ring, empty := [2, 0], [2, 1, 100, 2, 200], [0, 0, 0, 0, 0];
            && (ReplaceArgs([PLACEHOLDER], cells, ring, 1) ==> Replaced([PLACEHOLDER], cells, ring, 1, [200]))
            && (WriteArgs(empty, cells, [300], 1) ==> Written(empty, cells, [300], 1, [1, 2, 300, 0, 0]))
  {
    var cells, ring := [2, 0], [2, 1, 100, 2, 200];
    assert PairAt(cells, 0) == Pair(2, 0);
    assert Scan(ring, 2, 0) == Scan(ring, 2, 1) == Some(200);
  }

  lemma Go1()
    ensures Goes(Start(), Gate(Gates.Plan({1, 2})), Pipe1())
  {
    assert {} + {1, 2} == {1, 2};
  }

  lemma NoneAwaited(p: Pipe)
    ensures PlaceholdersAwait(p, FIRST)
  {
    assert !IsPlaceholder(CHUNK) && !IsPlaceholder(DECODE);
  }

  lemma FirstReady()
    ensures Gates.TryToLaunch(Gate0(), [1, 2], true).launched && BatchFits(FIRST, CAPACITY)
    ensures Forwards(FIRST, Gates.TryToLaunch(Gate0(), [1, 2], true).running)
  {
    FirstLaunches();
    FirstFits();
    NoneStopped([1, 2]);
    assert IdList(FIRST) == [1, 2];
  }

  lemma {:induction false} NoneStopped(running: seq<int>)
    ensures Gates.Kept(running, {}) == running
    decreases |running|
  {
    if running != [] {
      NoneStopped(running[..|running| - 1]);
    }
  }

  lemma Go2()
    ensures Goes(Pipe1(), Launch([1, 2], FIRST), Pipe2())
  {
    FirstReady();
    NoneAwaited(Pipe1());
    LaunchGoes(Pipe1(), [1, 2], FIRST);
    assert [] + [FIRST] == [FIRST];
  }

  lemma Go3()
    ensures Goes(Pipe2(), Build, Pipe3())
  {
    FirstIsBuilt();
    BuildGoes(Pipe2(), FIRST, Slot([11, 12, 22], [1, 1, 2, 2]));
  }

  lemma Go4()
    ensures Goes(Pipe3(), Gate(Gates.Plan({2})), Pipe4())
  {
  }

  lemma SecondAwaits(p: Pipe)
    requires p.history == [FIRST] && Ahead(p.flight.gate)
    ensures PlaceholdersAwait(p, SECOND)
  {
    assert FIRST[1].id == 2 && FIRST[1].sampling == 1;
    assert SampledIn(FIRST, 2);
  }

  lemma SecondReady(p: Pipe, g: Gates.Gate)
    requires p.history == [FIRST] && p.flight.gate == g && Ahead(g)
    ensures Gates.TryToLaunch(g, [2], true).launched && BatchFits(SECOND, CAPACITY)
    ensures Forwards(SECOND, Gates.TryToLaunch(g, [2], true).running) && PlaceholdersAwait(p, SECOND)
  {
    SecondLaunches(g);
    NoneStopped([2]);
    assert IdList(SECOND) == [2];
    SecondFits();
    SecondAwaits(p);
  }

  lemma Go5()
    ensures Goes(Pipe4(), Launch([2], SECOND), Pipe5())
  {
    IsAhead();
    SecondReady(Pipe4(), Flight3().gate);
    LaunchGoes(Pipe4(), [2], SECOND);
    assert [FIRST] + [SECOND] == [FIRST, SECOND];
  }

  lemma Go6()
    ensures Goes(Pipe5(), Execute(SAMPLED, [11, 12, 22], [2, 1, 100, 2, 200]), Pipe6())
  {
    FirstKernels();
    ExecuteGoes(Pipe5(), SAMPLED, [11, 12, 22], [2, 1, 100, 2, 200]);
  }

  lemma Go7()
    ensures Goes(Pipe6(), Build, Pipe7())
  {
    SecondIsBuilt();
    BuildGoes(Pipe6(), SECOND, Slot([PLACEHOLDER], [2, 0]));
  }

  /** The second batch can be executed, and then it sees 200. */
  lemma LastStep()
    ensures Enabled(Pipe7(), CAPACITY, Execute([300], [200], [1, 2, 300, 0, 0]))
  {
    SecondKernels();
    ExecuteGoes(Pipe7(), [300], [200], [1, 2, 300, 0, 0]);
  }

  lemma More(p: Pipe, ev: Event, q: Pipe, evs: seq<Event>, r: Pipe)
    requires Goes(p, ev, q) && Reaches(q, CAPACITY, evs, r)
    ensures Reaches(p, CAPACITY, [ev] + evs, r)
  {
    assert ([ev] + evs)[1..] == evs;
  }

  /** A run, with a first batch in the fast order, whose second batch is about to be executed: request 2's
      placeholder becomes 200, though its token, at its logits offset, is 100. */
  lemma MisalignedExample() returns (evs: seq<Event>)
    ensures Initial(Start(), CAPACITY) && Reaches(Start(), CAPACITY, evs, Pipe7())
    ensures Enabled(Pipe7(), CAPACITY, Execute([300], [200], [1, 2, 300, 0, 0]))
    ensures Pipe7().history == [FIRST, SECOND] && Pipe7().sampled == SAMPLED
    ensures Samples(FIRST, 1) == 0 && SAMPLED[0] == 100
  {
    Go1(); Go2(); Go3(); Go4(); Go5(); Go6(); Go7();
    LastStep();
    OwnIndex();
    assert Reaches(Pipe7(), CAPACITY, [], Pipe7());
    evs := [Build];
    More(Pipe6(), Build, Pipe7(), [], Pipe7());
    assert [Build] + [] == evs;
    More(Pipe5(), Execute(SAMPLED, [11, 12, 22], [2, 1, 100, 2, 200]), Pipe6(), evs, Pipe7());
    evs := [Execute(SAMPLED, [11, 12, 22], [2, 1, 100, 2, 200])] + evs;
    More(Pipe4(), Launch([2], SECOND), Pipe5(), evs, Pipe7());
    evs := [Launch([2], SECOND)] + evs;
    More(Pipe3(), Gate(Gates.Plan({2})), Pipe4(), evs, Pipe7());
    evs := [Gate(Gates.Plan({2}))] + evs;
    More(Pipe2(), Build, Pipe3(), evs, Pipe7());
    evs := [Build] + evs;
    More(Pipe1(), Launch([1, 2], FIRST), Pipe2(), evs, Pipe7());
    evs := [Launch([1, 2], FIRST)] + evs;
    More(Start(), Gate(Gates.Plan({1, 2})), Pipe1(), evs, Pipe7());
    evs := [Gate(Gates.Plan({1, 2}))] + evs;
  }
}
