/** The device-ring path: gate, two input slots and two rings, joined into one pipeline. */
module DevicePipeline {
  import opened Tokens
  import opened BatchLayout
  import opened PipelineDepths
  import opened DeviceRings

  /** One `ModelInput` slot. */
  datatype Slot = Slot(inputIds: seq<int>, cells: seq<int>)

  /** `history` lists every batch ever launched; the first `built` of them have been preprocessed, the first
      `executed` executed and the first `retired` returned to the Engine, which still counts the rest in
      `flight`. `slot` is `cur_ring_slot_`; `sampled` is what the sampler left in the step executed last. */
  datatype Pipe = Pipe(
    flight: Flight,
    history: seq<seq<Req>>,
    built: nat,
    executed: nat,
    retired: nat,
    slot: nat,
    input0: Slot,
    input1: Slot,
    ring0: seq<int>,
    ring1: seq<int>,
    sampled: seq<int>)

  datatype Event =
    | Gate(ev: PipelineDepths.Event)
    | Launch(running: seq<int>, batch: seq<Req>)
    | Build
    | Execute(sampled: seq<int>, seen: seq<int>, ring: seq<int>)
    | Return

  function InputSlot(p: Pipe, slot: nat): Slot { if slot == 1 then p.input1 else p.input0 }

  function RingSlot(p: Pipe, slot: nat): seq<int> { if slot == 1 then p.ring1 else p.ring0 }

  function Flip(slot: nat): nat { if slot == 1 then 0 else 1 }

  /** The slot batch `k` is given: the first flip makes it 1. */
  function SlotOf(k: nat): nat { if k % 2 == 0 then 1 else 0 }

  lemma NeighboursDiffer(k: nat)
    requires k > 0
    ensures SlotOf(k - 1) == Flip(SlotOf(k))
  {
  }

  function IdsOf(rs: seq<Req>): set<int> { set r | r in rs :: r.id }

  function IdList(rs: seq<Req>): seq<int> { seq(|rs|, i requires 0 <= i < |rs| => rs[i].id) }

  /** The batch forwards what the gate hands on, in whatever order the layout puts it. */
  ghost predicate Forwards(rs: seq<Req>, running: seq<int>)
  {
    multiset(IdList(rs)) == multiset(running)
  }

  lemma ForwardsIds(rs: seq<Req>, running: seq<int>, id: int)
    requires Forwards(rs, running) && id in running
    ensures id in IdsOf(rs)
  {
    assert id in multiset(IdList(rs));
    var i :| 0 <= i < |rs| && IdList(rs)[i] == id;
    assert rs[i] in rs;
  }

  /** `cur_batch_pairs_cpu_`: two cells per pair. */
  function PairCells(pairs: seq<Pair>): (cells: seq<int>)
    ensures |cells| == 2 * |pairs|
    ensures forall k {:trigger PairAt(cells, k)} :: 0 <= k < |pairs| ==> PairAt(cells, k) == pairs[k]
  {
    seq(2 * |pairs|, i requires 0 <= i < 2 * |pairs| => if i % 2 == 0 then pairs[i / 2].id else pairs[i / 2].offset)
  }

  function BuiltSlot(rs: seq<Req>): Slot
    requires BatchOk(rs)
  {
    Slot(Flat(rs, |rs|), PairCells(Pairs(rs, |rs|)))
  }

  // ---- What the Engine and the layout hand over ----

  /** Every request forwards something and samples at most once, ids differ, and the rings have room for the
      batch. */
  ghost predicate BatchFits(rs: seq<Req>, capacity: nat)
  {
    && rs != [] && |rs| <= capacity && BatchOk(rs)
    && (forall k :: 0 <= k < |rs| ==> InputLen(rs[k]) > 0 && rs[k].sampling <= 1)
    && (forall j, k :: 0 <= j < k < |rs| ==> rs[j].id != rs[k].id)
  }

  predicate IsPlaceholder(r: Req)
  {
    r.tokens != [] && r.tokens[|r.tokens| - 1] == PLACEHOLDER
  }

  /** Request `r` stands in `rs` and samples there. */
  ghost predicate SampledIn(rs: seq<Req>, id: int)
  {
    exists i :: 0 <= i < |rs| && rs[i].id == id && rs[i].sampling == 1
  }

  /** A placeholder is put only behind a step still in flight, and that step, if it is the newest, samples
      the request. */
  ghost predicate PlaceholdersAwait(p: Pipe, rs: seq<Req>)
  {
    forall k :: 0 <= k < |rs| && IsPlaceholder(rs[k]) ==>
      && InflightOf(p.flight.gate, rs[k].id) > 0
      && (p.history != [] && rs[k].id in IdsOf(Newest(p)) ==> SampledIn(Newest(p), rs[k].id))
  }

  function Newest(p: Pipe): seq<Req>
    requires p.history != []
  {
    p.history[|p.history| - 1]
  }

  // ---- Steps ----

  /** What the two kernels do in the step executed next. */
  ghost predicate KernelsRan(p: Pipe, sampled: seq<int>, seen: seq<int>, ring: seq<int>)
    requires p.executed < |p.history|
  {
    var slot, n := SlotOf(p.executed), |p.history[p.executed]|;
    var input := InputSlot(p, slot);
    && (ReplaceArgs(input.inputIds, input.cells, RingSlot(p, Flip(slot)), n) ==>
          Replaced(input.inputIds, input.cells, RingSlot(p, Flip(slot)), n, seen))
    && (WriteArgs(RingSlot(p, slot), input.cells, sampled, n) ==>
          Written(RingSlot(p, slot), input.cells, sampled, n, ring))
  }

  ghost predicate Enabled(p: Pipe, capacity: nat, ev: Event)
  {
    match ev
    case Gate(e) => e.Plan? || e.Stop?
    case Launch(running, rs) =>
      && TryToLaunch(p.flight.gate, running, true).launched
      && Forwards(rs, TryToLaunch(p.flight.gate, running, true).running)
      && BatchFits(rs, capacity) && PlaceholdersAwait(p, rs)
    case Build => p.built < |p.history|
    case Execute(sampled, seen, ring) =>
      && p.executed < p.built && p.executed < |p.history| && |p.history[p.executed]| <= |sampled|
      && (forall k :: 0 <= k < |sampled| ==> 0 <= sampled[k] < 0x8000_0000)
      && KernelsRan(p, sampled, seen, ring)
    case Return => p.retired < p.executed && PipelineDepths.Enabled(p.flight, Returned)
  }

  function WithInput(p: Pipe, slot: nat, input: Slot): Pipe
  {
    if slot == 1 then p.(input1 := input) else p.(input0 := input)
  }

  function WithRing(p: Pipe, slot: nat, ring: seq<int>): Pipe
  {
    if slot == 1 then p.(ring1 := ring) else p.(ring0 := ring)
  }

  function Built(p: Pipe): Pipe
    requires p.built < |p.history| && BatchOk(p.history[p.built])
  {
    WithInput(p, Flip(p.slot), BuiltSlot(p.history[p.built])).(built := p.built + 1, slot := Flip(p.slot))
  }

  function Executed(p: Pipe, sampled: seq<int>, ring: seq<int>): Pipe
  {
    WithRing(p, SlotOf(p.executed), ring).(executed := p.executed + 1, sampled := sampled)
  }

  ghost function Step(p: Pipe, capacity: nat, ev: Event): Pipe
    requires Enabled(p, capacity, ev)
  {
    match ev
    case Gate(e) => p.(flight := PipelineDepths.Step(p.flight, true, e))
    case Launch(running, rs) =>
      p.(flight := PipelineDepths.Step(p.flight, true, TryLaunch(running)), history := p.history + [rs])
    case Build => if BatchOk(p.history[p.built]) then Built(p) else p
    case Execute(sampled, seen, ring) => Executed(p, sampled, ring)
    case Return => p.(flight := PipelineDepths.Step(p.flight, true, Returned), retired := p.retired + 1)
  }

  // ---- The invariant ----

  /** The ring maps each request of the batch to the token at the request's index. */
  ghost predicate RingHolds(ring: seq<int>, rs: seq<Req>, sampled: seq<int>)
  {
    && RingOk(ring) && |rs| <= |sampled|
    && forall k :: 0 <= k < |rs| ==> Scan(ring, rs[k].id, 0) == Some(AsInt32(sampled[k]))
  }

  /** Each placeholder of `rs` stands for a token the batch before it samples. */
  ghost predicate Awaits(history: seq<seq<Req>>, k: nat)
    requires k < |history|
  {
    forall j :: 0 <= j < |history[k]| && IsPlaceholder(history[k][j]) ==>
      k > 0 && SampledIn(history[k - 1], history[k][j].id)
  }

  ghost predicate HistoryOk(history: seq<seq<Req>>, capacity: nat)
  {
    && (forall k {:trigger BatchFits(history[k], capacity)} :: 0 <= k < |history| ==>
          BatchFits(history[k], capacity))
    && (forall k {:trigger Awaits(history, k)} :: 0 <= k < |history| ==> Awaits(history, k))
  }

  /** The schedules in flight are the batches launched and not yet returned; each batch forwards what its schedule
      launched. */
  ghost predicate FlightMatches(flight: Flight, history: seq<seq<Req>>, retired: nat)
  {
    && PipelineDepths.Inv(flight, true)
    && retired <= |history| && |flight.schedules| == |history| - retired
    && forall i :: 0 <= i < |flight.schedules| ==> flight.schedules[i] <= IdsOf(history[retired + i])
  }

  /** Batch `k` stands in its slot as it was built. */
  ghost predicate Stands(p: Pipe, k: nat)
    requires k < |p.history|
  {
    BatchOk(p.history[k]) && InputSlot(p, SlotOf(k)) == BuiltSlot(p.history[k])
  }

  /** So does every built batch that has not been executed yet. */
  ghost predicate InputsStand(p: Pipe)
  {
    && p.built <= |p.history| && p.slot == p.built % 2
    && forall k: nat :: p.executed <= k < p.built ==> Stands(p, k)
  }

  ghost predicate RingsStand(p: Pipe, capacity: nat)
  {
    && |p.ring0| == |p.ring1| == 1 + 2 * capacity && p.executed <= |p.history|
    && (p.executed == 0 ==> p.ring0[0] == p.ring1[0] == 0)
    && (p.executed > 0 ==>
          && RingHolds(RingSlot(p, SlotOf(p.executed - 1)), p.history[p.executed - 1], p.sampled)
          && forall k :: 0 <= k < |p.sampled| ==> 0 <= p.sampled[k] < 0x8000_0000)
  }

  ghost predicate Inv(p: Pipe, capacity: nat)
  {
    && p.retired <= p.executed <= p.built
    && FlightMatches(p.flight, p.history, p.retired) && HistoryOk(p.history, capacity)
    && InputsStand(p) && RingsStand(p, capacity)
  }

  ghost predicate Initial(p: Pipe, capacity: nat)
  {
    && p.flight == IDLE && p.history == [] && p.built == p.executed == p.retired == p.slot == 0
    && |p.ring0| == |p.ring1| == 1 + 2 * capacity && p.ring0[0] == p.ring1[0] == 0
  }

  // ---- One batch through the kernels ----

  lemma PairOfRequest(rs: seq<Req>, capacity: nat, k: nat)
    requires BatchFits(rs, capacity) && k < |rs|
    ensures |BuiltSlot(rs).cells| == 2 * |rs| && End(rs, k) <= |Flat(rs, |rs|)|
    ensures PairAt(BuiltSlot(rs).cells, k) == Pair(rs[k].id, End(rs, k) - 1)
    ensures Flat(rs, |rs|)[End(rs, k) - 1] == rs[k].tokens[|rs[k].tokens| - 1]
  {
    EveryThreadHasAPair(rs, |rs|);
    EveryThreadHasAPair(rs, k);
    PairPointsAtLastToken(rs, |rs|, k);
  }

  /** A built batch meets what the kernels ask of their arguments. */
  lemma KernelArgsHold(rs: seq<Req>, capacity: nat, prevRing: seq<int>, ring: seq<int>, sampled: seq<int>)
    requires BatchFits(rs, capacity) && RingOk(prevRing) && |ring| == 1 + 2 * capacity && |rs| <= |sampled|
    ensures ReplaceArgs(BuiltSlot(rs).inputIds, BuiltSlot(rs).cells, prevRing, |rs|)
    ensures WriteArgs(ring, BuiltSlot(rs).cells, sampled, |rs|) && DistinctIds(BuiltSlot(rs).cells, |rs|)
  {
    var cells := BuiltSlot(rs).cells;
    EveryThreadHasAPair(rs, |rs|);
    PairsIncrease(rs, |rs|);
    forall k | 0 <= k < |rs| ensures PairAt(cells, k) == Pair(rs[k].id, End(rs, k) - 1) {
      PairOfRequest(rs, capacity, k);
    }
    forall k | 0 <= k < |rs| ensures Targets(PairAt(cells, k), Flat(rs, |rs|)) {
      PairOfRequest(rs, capacity, k);
    }
  }

  lemma WrittenHolds(rs: seq<Req>, capacity: nat, was: seq<int>, sampled: seq<int>, ring: seq<int>)
    requires BatchFits(rs, capacity) && |was| == 1 + 2 * capacity && |rs| <= |sampled|
    requires WriteArgs(was, BuiltSlot(rs).cells, sampled, |rs|)
    requires Written(was, BuiltSlot(rs).cells, sampled, |rs|, ring)
    ensures RingHolds(ring, rs, sampled)
  {
    KernelArgsHold(rs, capacity, [0], was, sampled);
    forall k | 0 <= k < |rs| ensures Scan(ring, rs[k].id, 0) == Some(AsInt32(sampled[k])) {
      PairOfRequest(rs, capacity, k);
      WrittenIsMap(was, BuiltSlot(rs).cells, sampled, |rs|, ring, rs[k].id);
    }
    WrittenIsMap(was, BuiltSlot(rs).cells, sampled, |rs|, ring, 0);
  }

  /** Request `j`'s last input id is the sampled token at the index the request had in the batch before. */
  ghost predicate GetsToken(rs: seq<Req>, j: nat, prev: seq<Req>, sampled: seq<int>, seen: seq<int>)
    requires BatchOk(rs) && j < |rs|
  {
    exists i :: 0 <= i < |prev| && prev[i].id == rs[j].id && prev[i].sampling == 1
                && i < |sampled| && 0 < End(rs, j) <= |seen| && seen[End(rs, j) - 1] == sampled[i]
  }

  /** Position `x` of the flat batch is the last input of no request. */
  ghost predicate IsLastOfNone(rs: seq<Req>, x: nat)
    requires BatchOk(rs)
  {
    forall j :: 0 <= j < |rs| ==> End(rs, j) - 1 != x
  }

  /** The step forwards its flat batch with every placeholder that ends a request's input replaced by the token
      sampled at the request's index in the batch before it, and every other input id unchanged. */
  ghost predicate SeenRight(rs: seq<Req>, prev: seq<Req>, sampled: seq<int>, seen: seq<int>)
    requires BatchOk(rs)
  {
    && |seen| == |Flat(rs, |rs|)|
    && (forall x :: 0 <= x < |seen| && (Flat(rs, |rs|)[x] != PLACEHOLDER || IsLastOfNone(rs, x)) ==>
          seen[x] == Flat(rs, |rs|)[x])
    && (forall j :: 0 <= j < |rs| && IsPlaceholder(rs[j]) ==> GetsToken(rs, j, prev, sampled, seen))
  }

  lemma SeenKeepsTokens(rs: seq<Req>, capacity: nat, prevRing: seq<int>, seen: seq<int>, p: nat)
    requires BatchFits(rs, capacity) && RingOk(prevRing) && p < |Flat(rs, |rs|)|
    requires ReplaceArgs(BuiltSlot(rs).inputIds, BuiltSlot(rs).cells, prevRing, |rs|)
    requires Replaced(BuiltSlot(rs).inputIds, BuiltSlot(rs).cells, prevRing, |rs|, seen)
    requires Flat(rs, |rs|)[p] != PLACEHOLDER || IsLastOfNone(rs, p)
    ensures |seen| == |Flat(rs, |rs|)| && seen[p] == Flat(rs, |rs|)[p]
  {
    var cells := BuiltSlot(rs).cells;
    if k :| 0 <= k < |rs| && PairAt(cells, k).offset == p {
      PairOfRequest(rs, capacity, k);
    }
  }

  lemma SeenFillsPlaceholder(rs: seq<Req>, capacity: nat, prevRing: seq<int>, seen: seq<int>,
                             prev: seq<Req>, sampled: seq<int>, j: nat, i: nat)
    requires BatchFits(rs, capacity) && BatchFits(prev, capacity) && RingHolds(prevRing, prev, sampled)
    requires forall k :: 0 <= k < |sampled| ==> 0 <= sampled[k] < 0x8000_0000
    requires ReplaceArgs(BuiltSlot(rs).inputIds, BuiltSlot(rs).cells, prevRing, |rs|)
    requires Replaced(BuiltSlot(rs).inputIds, BuiltSlot(rs).cells, prevRing, |rs|, seen)
    requires j < |rs| && IsPlaceholder(rs[j]) && i < |prev| && prev[i].id == rs[j].id && prev[i].sampling == 1
    ensures 0 < End(rs, j) <= |seen|
    ensures i < |sampled| && seen[End(rs, j) - 1] == sampled[i]
  {
    PairOfRequest(rs, capacity, j);
    assert PairAt(BuiltSlot(rs).cells, j).offset == End(rs, j) - 1;
  }

  /** The step executed next, in a state that keeps the invariant: both kernels have valid arguments. */
  lemma ExecuteArgs(p: Pipe, capacity: nat, sampled: seq<int>)
    requires Inv(p, capacity) && p.executed < p.built && |p.history[p.executed]| <= |sampled|
    ensures var rs, slot := p.history[p.executed], SlotOf(p.executed);
            var prevRing := RingSlot(p, Flip(slot));
            && BatchFits(rs, capacity) && InputSlot(p, slot) == BuiltSlot(rs) && RingOk(prevRing)
            && ReplaceArgs(BuiltSlot(rs).inputIds, BuiltSlot(rs).cells, prevRing, |rs|)
            && WriteArgs(RingSlot(p, slot), BuiltSlot(rs).cells, sampled, |rs|)
  {
    var rs, slot := p.history[p.executed], SlotOf(p.executed);
    assert BatchFits(rs, capacity) && Stands(p, p.executed);
    if p.executed > 0 {
      NeighboursDiffer(p.executed);
    }
    KernelArgsHold(rs, capacity, RingSlot(p, Flip(slot)), RingSlot(p, slot), sampled);
  }

  /** The first batch holds no placeholder, and the rings start empty. */
  lemma FirstSeen(rs: seq<Req>, capacity: nat, prevRing: seq<int>, seen: seq<int>)
    requires BatchFits(rs, capacity) && RingOk(prevRing) && prevRing[0] == 0
    requires ReplaceArgs(BuiltSlot(rs).inputIds, BuiltSlot(rs).cells, prevRing, |rs|)
    requires Replaced(BuiltSlot(rs).inputIds, BuiltSlot(rs).cells, prevRing, |rs|, seen)
    ensures seen == Flat(rs, |rs|)
  {
    var ids, cells := Flat(rs, |rs|), BuiltSlot(rs).cells;
    assert Replaced(ids, cells, prevRing, |rs|, ids);
    ReplacedIsUnique(ids, cells, prevRing, |rs|, seen, ids);
  }

  lemma PlaceholderSeen(rs: seq<Req>, prev: seq<Req>, capacity: nat, prevRing: seq<int>, sampled: seq<int>,
                        seen: seq<int>, j: nat)
    requires BatchFits(rs, capacity) && BatchFits(prev, capacity) && RingHolds(prevRing, prev, sampled)
    requires forall k :: 0 <= k < |sampled| ==> 0 <= sampled[k] < 0x8000_0000
    requires ReplaceArgs(BuiltSlot(rs).inputIds, BuiltSlot(rs).cells, prevRing, |rs|)
    requires Replaced(BuiltSlot(rs).inputIds, BuiltSlot(rs).cells, prevRing, |rs|, seen)
    requires j < |rs| && IsPlaceholder(rs[j]) && SampledIn(prev, rs[j].id)
    ensures GetsToken(rs, j, prev, sampled, seen)
  {
    var i :| 0 <= i < |prev| && prev[i].id == rs[j].id && prev[i].sampling == 1;
    SeenFillsPlaceholder(rs, capacity, prevRing, seen, prev, sampled, j, i);
  }

  lemma LaterSeen(rs: seq<Req>, prev: seq<Req>, capacity: nat, prevRing: seq<int>, sampled: seq<int>, seen: seq<int>)
    requires BatchFits(rs, capacity) && BatchFits(prev, capacity) && RingHolds(prevRing, prev, sampled)
    requires forall k :: 0 <= k < |sampled| ==> 0 <= sampled[k] < 0x8000_0000
    requires ReplaceArgs(BuiltSlot(rs).inputIds, BuiltSlot(rs).cells, prevRing, |rs|)
    requires Replaced(BuiltSlot(rs).inputIds, BuiltSlot(rs).cells, prevRing, |rs|, seen)
    requires forall j :: 0 <= j < |rs| && IsPlaceholder(rs[j]) ==> SampledIn(prev, rs[j].id)
    ensures SeenRight(rs, prev, sampled, seen)
  {
    forall x | 0 <= x < |Flat(rs, |rs|)| && (Flat(rs, |rs|)[x] != PLACEHOLDER || IsLastOfNone(rs, x))
      ensures seen[x] == Flat(rs, |rs|)[x]
    {
      SeenKeepsTokens(rs, capacity, prevRing, seen, x);
    }
    forall j | 0 <= j < |rs| && IsPlaceholder(rs[j]) ensures GetsToken(rs, j, prev, sampled, seen) {
      PlaceholderSeen(rs, prev, capacity, prevRing, sampled, seen, j);
    }
  }

  /** What the replacing kernel gets in the step executed next, and what it leaves. */
  lemma ExecuteReplaces(p: Pipe, capacity: nat, sampled: seq<int>, seen: seq<int>, ring: seq<int>)
    requires Inv(p, capacity) && Enabled(p, capacity, Execute(sampled, seen, ring))
    ensures var rs, prevRing := p.history[p.executed], RingSlot(p, Flip(SlotOf(p.executed)));
            && BatchFits(rs, capacity) && RingOk(prevRing)
            && ReplaceArgs(BuiltSlot(rs).inputIds, BuiltSlot(rs).cells, prevRing, |rs|)
            && Replaced(BuiltSlot(rs).inputIds, BuiltSlot(rs).cells, prevRing, |rs|, seen)
  {
    ExecuteArgs(p, capacity, sampled);
  }

  /** The ring read by a later step holds the batch before, and that batch samples what is awaited. */
  lemma PreviousHolds(p: Pipe, capacity: nat)
    requires Inv(p, capacity) && 0 < p.executed < |p.history|
    ensures var rs, prev := p.history[p.executed], p.history[p.executed - 1];
            && BatchFits(prev, capacity) && RingHolds(RingSlot(p, Flip(SlotOf(p.executed))), prev, p.sampled)
            && (forall k :: 0 <= k < |p.sampled| ==> 0 <= p.sampled[k] < 0x8000_0000)
            && forall j :: 0 <= j < |rs| && IsPlaceholder(rs[j]) ==> SampledIn(prev, rs[j].id)
  {
    assert BatchFits(p.history[p.executed - 1], capacity) && Awaits(p.history, p.executed);
    NeighboursDiffer(p.executed);
  }

  /** Every placeholder of an executed batch is replaced by the token sampled at that request's index in the
      immediately preceding step, and every other input id is unchanged. */
  lemma ExecuteSees(p: Pipe, capacity: nat, sampled: seq<int>, seen: seq<int>, ring: seq<int>)
    requires Inv(p, capacity) && Enabled(p, capacity, Execute(sampled, seen, ring))
    ensures BatchOk(p.history[p.executed])
    ensures p.executed == 0 ==> seen == Flat(p.history[0], |p.history[0]|)
    ensures p.executed > 0 ==> SeenRight(p.history[p.executed], p.history[p.executed - 1], p.sampled, seen)
  {
    ExecuteReplaces(p, capacity, sampled, seen, ring);
    var k, prevRing := p.executed, RingSlot(p, Flip(SlotOf(p.executed)));
    if k == 0 {
      FirstSeen(p.history[0], capacity, prevRing, seen);
    } else {
      PreviousHolds(p, capacity);
      LaterSeen(p.history[k], p.history[k - 1], capacity, prevRing, p.sampled, seen);
    }
  }

  // ---- Every step keeps the invariant ----

  lemma LaunchKeepsHistory(p: Pipe, capacity: nat, running: seq<int>, rs: seq<Req>)
    requires Inv(p, capacity) && Enabled(p, capacity, Launch(running, rs))
    ensures HistoryOk(p.history + [rs], capacity)
  {
    LaunchAwaits(p, capacity, running, rs);
    SnocHistoryOk(p.history, capacity, rs);
  }

  lemma SnocHistoryOk(past: seq<seq<Req>>, capacity: nat, rs: seq<Req>)
    requires HistoryOk(past, capacity) && BatchFits(rs, capacity) && Awaits(past + [rs], |past|)
    ensures HistoryOk(past + [rs], capacity)
  {
    var history := past + [rs];
    forall k {:trigger Awaits(history, k)} | 0 <= k < |past| ensures Awaits(history, k) {
      assert Awaits(past, k);
    }
    forall k {:trigger BatchFits(history[k], capacity)} | 0 <= k < |history| ensures BatchFits(history[k], capacity) {
      assert k < |past| ==> BatchFits(past[k], capacity);
    }
  }

  /** A request launched with a step in flight was in the batch launched right before. */
  lemma LaunchAwaits(p: Pipe, capacity: nat, running: seq<int>, rs: seq<Req>)
    requires Inv(p, capacity) && Enabled(p, capacity, Launch(running, rs))
    ensures Awaits(p.history + [rs], |p.history|)
  {
    forall j | 0 <= j < |rs| && IsPlaceholder(rs[j])
      ensures p.history != [] && SampledIn(Newest(p), rs[j].id)
    {
      assert rs[j] in rs && rs[j].id in IdsOf(rs);
      AheadMeansPreviousSchedule(p.flight, running, rs[j].id);
      var last := |p.flight.schedules| - 1;
      assert p.flight.schedules[last] <= IdsOf(p.history[p.retired + last]);
    }
  }

  lemma LaunchKeepsFlight(flight: Flight, history: seq<seq<Req>>, retired: nat, running: seq<int>, rs: seq<Req>)
    requires FlightMatches(flight, history, retired)
    requires TryToLaunch(flight.gate, running, true).launched
    requires Forwards(rs, TryToLaunch(flight.gate, running, true).running)
    ensures FlightMatches(PipelineDepths.Step(flight, true, TryLaunch(running)), history + [rs], retired)
  {
    PipelineDepths.LaunchKeeps(flight, true, running);
    BatchOutcome(flight.gate, running, true);
    forall id | id in Launched(flight.gate, running) ensures id in IdsOf(rs) {
      ForwardsIds(rs, TryToLaunch(flight.gate, running, true).running, id);
    }
  }

  lemma LaunchKeepsStanding(p: Pipe, capacity: nat, rs: seq<Req>, flight: Flight)
    requires InputsStand(p) && RingsStand(p, capacity)
    ensures InputsStand(p.(flight := flight, history := p.history + [rs]))
    ensures RingsStand(p.(flight := flight, history := p.history + [rs]), capacity)
  {
    var q := p.(flight := flight, history := p.history + [rs]);
    forall k: nat | q.executed <= k < q.built ensures Stands(q, k) {
      assert Stands(p, k) && q.history[k] == p.history[k];
    }
  }

  /** When a batch is built, the one two before has returned: the slot it takes is free. */
  lemma BuildFindsFreeSlot(p: Pipe, capacity: nat)
    requires Inv(p, capacity) && p.built < |p.history|
    ensures p.built <= p.retired + 1 && BatchFits(p.history[p.built], capacity)
  {
    assert |p.flight.schedules| <= 2;
  }

  lemma BuildKeepsInputs(p: Pipe)
    requires InputsStand(p) && p.executed <= p.built < |p.history| && BatchOk(p.history[p.built])
    requires p.built <= p.executed + 1
    ensures InputsStand(Built(p))
  {
    var q := Built(p);
    assert Flip(p.slot) == SlotOf(p.built);
    forall k: nat | q.executed <= k < q.built ensures Stands(q, k) {
      if k < p.built {
        assert k == p.built - 1 && Stands(p, k);
      }
    }
  }

  lemma ExecuteKeepsRings(p: Pipe, capacity: nat, sampled: seq<int>, ring: seq<int>)
    requires RingsStand(p, capacity) && p.executed < |p.history| && |ring| == 1 + 2 * capacity
    requires RingHolds(ring, p.history[p.executed], sampled)
    requires forall k :: 0 <= k < |sampled| ==> 0 <= sampled[k] < 0x8000_0000
    ensures RingsStand(Executed(p, sampled, ring), capacity)
  {
  }

  lemma ExecuteKeepsInputs(p: Pipe, sampled: seq<int>, ring: seq<int>)
    requires InputsStand(p)
    ensures InputsStand(Executed(p, sampled, ring))
  {
    var q := Executed(p, sampled, ring);
    forall k: nat | q.executed <= k < q.built ensures Stands(q, k) {
      assert Stands(p, k);
    }
  }

  lemma ExecuteKeeps(p: Pipe, capacity: nat, sampled: seq<int>, seen: seq<int>, ring: seq<int>)
    requires Inv(p, capacity) && Enabled(p, capacity, Execute(sampled, seen, ring))
    ensures Inv(Executed(p, sampled, ring), capacity)
  {
    ExecuteArgs(p, capacity, sampled);
    WrittenHolds(p.history[p.executed], capacity, RingSlot(p, SlotOf(p.executed)), sampled, ring);
    ExecuteKeepsRings(p, capacity, sampled, ring);
    ExecuteKeepsInputs(p, sampled, ring);
  }

  lemma ReturnKeepsFlight(flight: Flight, history: seq<seq<Req>>, retired: nat)
    requires FlightMatches(flight, history, retired) && retired < |history| && PipelineDepths.Enabled(flight, Returned)
    ensures FlightMatches(PipelineDepths.Step(flight, true, Returned), history, retired + 1)
  {
    PipelineDepths.ReturnedKeeps(flight, true);
    forall i | 0 <= i < |flight.schedules| - 1
      ensures flight.schedules[1..][i] <= IdsOf(history[retired + 1 + i])
    {
      assert flight.schedules[i + 1] <= IdsOf(history[retired + (i + 1)]);
    }
  }

  lemma LaunchKeeps(p: Pipe, capacity: nat, running: seq<int>, rs: seq<Req>)
    requires Inv(p, capacity) && Enabled(p, capacity, Launch(running, rs))
    ensures Inv(Step(p, capacity, Launch(running, rs)), capacity)
  {
    LaunchKeepsHistory(p, capacity, running, rs);
    LaunchKeepsFlight(p.flight, p.history, p.retired, running, rs);
    LaunchKeepsStanding(p, capacity, rs, PipelineDepths.Step(p.flight, true, TryLaunch(running)));
  }

  lemma BuildKeeps(p: Pipe, capacity: nat)
    requires Inv(p, capacity) && p.built < |p.history|
    ensures BatchOk(p.history[p.built]) && Inv(Built(p), capacity)
  {
    BuildFindsFreeSlot(p, capacity);
    BuildKeepsInputs(p);
  }

  lemma GateKeeps(p: Pipe, capacity: nat, ev: PipelineDepths.Event)
    requires Inv(p, capacity) && (ev.Plan? || ev.Stop?)
    ensures Inv(p.(flight := PipelineDepths.Step(p.flight, true, ev)), capacity)
  {
    PipelineDepths.StepKeeps(p.flight, true, ev);
    FlightOnly(p, capacity, PipelineDepths.Step(p.flight, true, ev), p.retired);
  }

  lemma ReturnMatches(p: Pipe, capacity: nat) returns (flight: Flight)
    requires Inv(p, capacity) && p.retired < p.executed && PipelineDepths.Enabled(p.flight, Returned)
    ensures flight == PipelineDepths.Step(p.flight, true, Returned) && FlightMatches(flight, p.history, p.retired + 1)
  {
    flight := PipelineDepths.Step(p.flight, true, Returned);
    ReturnKeepsFlight(p.flight, p.history, p.retired);
  }

  lemma ReturnKeeps(p: Pipe, capacity: nat)
    requires Inv(p, capacity) && p.retired < p.executed && PipelineDepths.Enabled(p.flight, Returned)
    ensures Inv(p.(flight := PipelineDepths.Step(p.flight, true, Returned), retired := p.retired + 1), capacity)
  {
    var flight := ReturnMatches(p, capacity);
    FlightOnly(p, capacity, flight, p.retired + 1);
  }

  /** The slots do not depend on what the scheduler counts. */
  lemma FlightOnly(p: Pipe, capacity: nat, flight: Flight, retired: nat)
    requires Inv(p, capacity) && FlightMatches(flight, p.history, retired) && retired <= p.executed
    ensures Inv(p.(flight := flight, retired := retired), capacity)
  {
    forall k: nat | p.executed <= k < p.built ensures Stands(p.(flight := flight, retired := retired), k) {
      assert Stands(p, k);
    }
  }

  lemma StepKeeps(p: Pipe, capacity: nat, ev: Event)
    requires Inv(p, capacity) && Enabled(p, capacity, ev)
    ensures Inv(Step(p, capacity, ev), capacity)
  {
    match ev
    case Gate(e) => GateKeeps(p, capacity, e);
    case Launch(running, rs) => LaunchKeeps(p, capacity, running, rs);
    case Build => BuildKeeps(p, capacity);
    case Execute(sampled, seen, ring) => ExecuteKeeps(p, capacity, sampled, seen, ring);
    case Return => ReturnKeeps(p, capacity);
  }

  // ---- Runs ----

  ghost predicate Reaches(p: Pipe, capacity: nat, evs: seq<Event>, q: Pipe)
    decreases |evs|
  {
    if evs == [] then p == q
    else Enabled(p, capacity, evs[0]) && Reaches(Step(p, capacity, evs[0]), capacity, evs[1..], q)
  }

  lemma {:induction false} RunKeeps(p: Pipe, capacity: nat, evs: seq<Event>, q: Pipe)
    requires Inv(p, capacity) && Reaches(p, capacity, evs, q)
    ensures Inv(q, capacity)
    decreases |evs|
  {
    if evs != [] {
      StepKeeps(p, capacity, evs[0]);
      RunKeeps(Step(p, capacity, evs[0]), capacity, evs[1..], q);
    }
  }

  lemma InitialInv(p: Pipe, capacity: nat)
    requires Initial(p, capacity)
    ensures Inv(p, capacity)
  {
  }

  /** In every run of the device-ring path, whatever the kernels' thread order: the step executed next sees its
      flat batch with every placeholder replaced by the token sampled at that request's index in the immediately
      preceding step and every other input id unchanged. */
  lemma PlaceholdersGetPreviousToken(p: Pipe, capacity: nat, evs: seq<Event>, q: Pipe,
                                     sampled: seq<int>, seen: seq<int>, ring: seq<int>)
    requires Initial(p, capacity) && Reaches(p, capacity, evs, q)
    requires Enabled(q, capacity, Execute(sampled, seen, ring))
    ensures BatchOk(q.history[q.executed])
    ensures q.executed == 0 ==> seen == Flat(q.history[0], |q.history[0]|)
    ensures q.executed > 0 ==> SeenRight(q.history[q.executed], q.history[q.executed - 1], q.sampled, seen)
  {
    InitialInv(p, capacity);
    RunKeeps(p, capacity, evs, q);
    ExecuteSees(q, capacity, sampled, seen, ring);
  }

  lemma IndexIsUnique(rs: seq<Req>, j: nat, prev: seq<Req>, capacity: nat, sampled: seq<int>, seen: seq<int>, i: nat)
    requires BatchOk(rs) && j < |rs| && GetsToken(rs, j, prev, sampled, seen) && BatchFits(prev, capacity)
    requires i < |prev| && prev[i].id == rs[j].id && prev[i].sampling == 1
    ensures i < |sampled| && 0 < End(rs, j) <= |seen| && seen[End(rs, j) - 1] == sampled[i]
  {
  }

  /** The sampler left request `i`'s token at its logits offset. In every run a placeholder that awaits it is
      replaced by that token, whatever is sampled, exactly when no request without a sample stands before
      request `i` in its batch. */
  lemma PlaceholderGetsOwnToken(p: Pipe, capacity: nat, evs: seq<Event>, q: Pipe, sampled: seq<int>, seen: seq<int>,
                                ring: seq<int>, j: nat, i: nat)
    requires Initial(p, capacity) && Reaches(p, capacity, evs, q)
    requires Enabled(q, capacity, Execute(sampled, seen, ring)) && q.executed > 0
    requires j < |q.history[q.executed]| && IsPlaceholder(q.history[q.executed][j])
    requires var prev := q.history[q.executed - 1];
             i < |prev| && prev[i].id == q.history[q.executed][j].id && prev[i].sampling == 1
    ensures BatchOk(q.history[q.executed])
    ensures var prev, at := q.history[q.executed - 1], End(q.history[q.executed], j) - 1;
            && 0 <= at < |seen| && i < |q.sampled| && seen[at] == q.sampled[i] && Samples(prev, i) <= i
            && ((forall s: seq<int> | |prev| <= |s| :: Samples(prev, i) < |s| && s[i] == s[Samples(prev, i)])
                <==> forall k :: 0 <= k < i ==> prev[k].sampling == 1)
            && ((forall k :: 0 <= k < i ==> prev[k].sampling == 1) ==> seen[at] == q.sampled[Samples(prev, i)])
  {
    PlaceholdersGetPreviousToken(p, capacity, evs, q, sampled, seen, ring);
    InitialInv(p, capacity);
    RunKeeps(p, capacity, evs, q);
    var prev := q.history[q.executed - 1];
    assert BatchFits(prev, capacity);
    IndexIsUnique(q.history[q.executed], j, prev, capacity, q.sampled, seen, i);
    OwnTokenExactly(prev, i);
    SamplesAtMost(prev, i);
  }

  /** And in every run a batch is built into a slot whose previous batch has returned, so the input and the
      ring of a batch in flight are never overwritten. */
  lemma SlotsAreFree(p: Pipe, capacity: nat, evs: seq<Event>, q: Pipe)
    requires Initial(p, capacity) && Reaches(p, capacity, evs, q)
    ensures q.built <= |q.history| <= q.retired + 2
    ensures q.built < |q.history| ==> forall k: nat :: k < q.built && SlotOf(k) == SlotOf(q.built) ==> k < q.retired
    ensures forall k: nat :: q.executed <= k < q.built ==> Stands(q, k)
  {
    InitialInv(p, capacity);
    RunKeeps(p, capacity, evs, q);
  }
}
