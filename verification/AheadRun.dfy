/** Engine and Executor running two steps deep, joined by two FIFO channels, in any interleaving. */
module AheadRun {
  import opened Tokens
  import opened HostRings
  import opened InferRequests
  import opened ModelRunners
  import opened Reference
  import opened AheadEngine
  import EngineRun

  /** What a later launch may have written over the request's own fields. */
  datatype Live = Live(forwarding: seq<int>, kv: nat, draftNum: nat, sampling: nat, offset: Option<nat>)

  /** How a launched step's fields reach the Executor: with the launch-time snapshot itself, beside fields that may
      be newer, as a patch, which carries the placeholder offset, or as a full request, which does not. */
  datatype Transfer = Carried(live: Live) | Patch | Full

  /** One request in both processes. `results` lists the results of all executed steps, so the snapshots
      `engine.sent[|results|..]` are on their way to the Executor and the results
      `results[engine.retired..]` on their way back; `inputs` and `modes` say what each executed step forwarded
      and how it was transferred. `failed` means some check of the Executor did not hold. */
  datatype Sys = Sys(
    engine: EngineRun.Engine,
    runner: RunnerState,
    exec: ExecState,
    results: seq<StepResult>,
    inputs: seq<StepInput>,
    modes: seq<Transfer>,
    failed: bool)

  /** What either process may do next. Other requests share the runner: they are repaired, written to
      the ring and forgotten at any time, also in the very batch this request is executed in. */
  datatype Event =
    | Plan
    | Launch
    | Execute(before: seq<ExecState>, after: seq<ExecState>, mode: Transfer)
    | Retire
    | OtherRepair(other: ExecState, snap: Option<Snapshot>)
    | OtherBatch(others: seq<ExecState>)
    | OtherFreeze(id: int, drafts: seq<int>)
    | OtherForget(ids: set<int>)

  predicate NoId(rs: seq<ExecState>, id: int)
  {
    forall r :: r in rs ==> r.id != id
  }

  function Executed(s: Sys): nat { |s.results| }

  /** What the scheduler and the channels allow; every check inside the two processes is left to `Step`. Of full
      requests, which are scanned for -1, something is said only if real tokens are never -1. */
  ghost predicate Enabled(w: World, s: Sys, ev: Event)
  {
    match ev
    case Plan => EngineRun.Enabled(s.engine, EngineRun.Plan)
    case Launch => EngineRun.Enabled(s.engine, EngineRun.Launch)
    case Execute(before, after, mode) =>
      && Executed(s) < |s.engine.sent| && NoId(before, w.id) && NoId(after, w.id) && DistinctIds(before + after)
      && (mode.Full? ==> NoPlaceholders(w))
    case Retire => s.engine.retired < Executed(s)
    case _ => Spares(ev, w.id)
  }

  /** `UpdateCachedRequests`: the Executor's copy takes the fields that were sent. Where the snapshot comes along and
      names a placeholder, the fields the repair restores or takes from it may hold anything. */
  function Arrive(r: ExecState, snap: Snapshot, mode: Transfer): ExecState
  {
    var sent := Sent(r, snap, mode);
    if mode.Carried? && snap.placeholder.Some? then
      sent.(forwarding := mode.live.forwarding, kv := mode.live.kv, draftNum := mode.live.draftNum,
            sampling := mode.live.sampling, launchOffset := mode.live.offset)
    else sent
  }

  function Sent(r: ExecState, snap: Snapshot, mode: Transfer): ExecState
  {
    r.(forwarding := snap.forwarding, kv := snap.kv, prefixLen := snap.prefixLen, draftNum := snap.draftNum,
       sampling := snap.sampling, kind := snap.kind, launchOffset := if mode.Patch? then snap.placeholder else None,
       generated := [], accepted := [])
  }

  /** The request as `BuildModelInput` sees it, and the runner after repair. */
  function Repaired(st: RunnerState, r: ExecState, snap: Option<Snapshot>): (ExecState, RunnerState)
    requires RingUsable(st.ring) ==> RepairSafe(st, r, snap)
  {
    if RingUsable(st.ring) then RepairOne(st, r, snap) else (r, st)
  }

  function InputOf(r: ExecState): StepInput
  {
    StepInput(r.forwarding, r.kv, r.prefixLen, r.draftNum, r.sampling, r.kind)
  }

  /** The request once its step has been forwarded, sampled and drafted. */
  ghost function Forwarded(w: World, r: ExecState): ExecState
  {
    var result := w.model(InputOf(r));
    r.(generated := [result.bonus], accepted := result.accepted, mtpDrafts := result.mtp)
  }

  /** The runner once the request's batch is written to the ring and its MTP drafts are frozen. */
  function Recorded(st: RunnerState, before: seq<ExecState>, r: ExecState, after: seq<ExecState>): RunnerState
  {
    ModelRunners.Freeze(WriteStep(st, before + [r] + after), r.id, r.mtpDrafts)
  }

  /** The system after a step that was forwarded as `r` and recorded as `st`. */
  ghost function AfterExecuting(w: World, s: Sys, r: ExecState, st: RunnerState, mode: Transfer): Sys
  {
    s.(exec := Forwarded(w, r), runner := st, results := s.results + [w.model(InputOf(r))],
       inputs := s.inputs + [InputOf(r)], modes := s.modes + [mode])
  }

  /** One step on the Execute thread: update, repair, forward and sample, write the ring, freeze drafts. */
  ghost function ExecuteStep(w: World, s: Sys, before: seq<ExecState>, after: seq<ExecState>, mode: Transfer): Sys
    requires Executed(s) < |s.engine.sent|
  {
    var sent := s.engine.sent[Executed(s)];
    var snap, arrived := SnapshotFor(sent, mode), Arrive(s.exec, sent, mode);
    if RingUsable(s.runner.ring) && !RepairSafe(s.runner, arrived, snap) then s.(failed := true)
    else
      var (r, st) := Repaired(s.runner, arrived, snap);
      AfterExecuting(w, s, r, Recorded(st, before, Forwarded(w, r), after), mode)
  }

  predicate IsOther(ev: Event)
  {
    ev.OtherRepair? || ev.OtherBatch? || ev.OtherFreeze? || ev.OtherForget?
  }

  /** What an event of other requests does to the runner. */
  function OtherStep(st: RunnerState, ev: Event): RunnerState
    requires IsOther(ev)
  {
    match ev
    case OtherRepair(other, snap) => if RepairSafe(st, other, snap) then RepairOne(st, other, snap).1 else st
    case OtherBatch(others) => WriteStep(st, others)
    case OtherFreeze(id, drafts) => ModelRunners.Freeze(st, id, drafts)
    case OtherForget(ids) => Forget(st, ids)
  }

  /** An event of requests other than `id`. */
  ghost predicate Spares(ev: Event, id: int)
  {
    match ev
    case OtherRepair(other, _) => other.id != id
    case OtherBatch(others) => NoId(others, id) && DistinctIds(others)
    case OtherFreeze(other, _) => other != id
    case OtherForget(ids) => id !in ids
    case _ => false
  }

  ghost function Step(w: World, s: Sys, ev: Event): Sys
    requires Enabled(w, s, ev)
  {
    match ev
    case Plan => s.(engine := EngineRun.PlanStep(w, s.engine))
    case Launch => s.(engine := EngineRun.LaunchStep(s.engine))
    case Execute(before, after, mode) => ExecuteStep(w, s, before, after, mode)
    case Retire => s.(engine := EngineRun.RetireStep(s.engine, w.stops, s.results[s.engine.retired]))
    case _ => s.(runner := OtherStep(s.runner, ev))
  }

  // ---- Start: the last prefill chunk is in flight, and the Executor knows nothing of the request ----

  ghost predicate Unknown(st: RunnerState, id: int)
  {
    && WellFormed(st.ring) && Find(Entries(st.ring), id).None?
    && id !in st.accepted && id !in st.lastBlock && id !in st.nextDrafts
  }

  ghost predicate Initial(w: World, s: Sys)
  {
    && EngineRun.Initial(w, s.engine)
    && s.results == [] && s.inputs == [] && s.modes == [] && !s.failed && s.exec.id == w.id && Unknown(s.runner, w.id)
  }

  // ---- When the Executor sees the depth-1 input ----

  /** Step `k` verifies at least one draft, or reserves no slot for one. */
  ghost predicate FedAt(w: World, k: nat)
  {
    k == 0 || Ref(w, k).draftNum > 0 || SlotsAt(w, k) == 0
  }

  /** The MTP drafts that fit into `slots` slots are the merged drafts that fit. */
  predicate MtpCovers(r: StepResult, slots: nat)
  {
    Fitting(r.mtp, slots) == Fitting(r.drafts, slots)
  }

  /** When MTP drafts come first in the merged list, they cover it exactly when no other draft fits. */
  lemma MtpCoversExactly(r: StepResult, others: seq<int>, slots: nat)
    requires r.drafts == r.mtp + others
    ensures MtpCovers(r, slots) <==> others == [] || slots <= |r.mtp|
  {
    if others == [] {
      assert r.drafts == r.mtp;
    }
  }

  /** Step `e` sees its depth-1 input: the step before was fed, or, where the Executor has to scan for the
      block, left no slot unfilled; and no draft but MTP ones fits. */
  ghost predicate SeesDepthOne(w: World, e: nat, mode: Transfer)
  {
    e == 0 || (MtpCovers(Result(w, e - 1), SlotsAt(w, e))
               && if mode.Full? then Unfilled(w, e - 1) == 0 else FedAt(w, e - 1))
  }

  /** So do the first `n` executed steps. */
  ghost predicate AllSeeDepthOne(w: World, modes: seq<Transfer>, n: nat)
  {
    n <= |modes| && forall k {:trigger modes[k]} :: 0 <= k < n ==> SeesDepthOne(w, k, modes[k])
  }

  /** The first `n` executed steps were forwarded on their depth-1 inputs. */
  ghost predicate InputsAgree(w: World, inputs: seq<StepInput>, n: nat)
  {
    n <= |inputs| && forall k {:trigger inputs[k]} :: 0 <= k < n ==> inputs[k] == Ref(w, k)
  }

  // ---- The invariant ----

  /** The ring entry of a step that forwarded `drafts` drafts and yielded `r`. */
  predicate Remembered(entry: Option<Entry>, id: int, r: StepResult, drafts: nat)
  {
    entry == Some(Entry(id, r.bonus, |r.accepted|, drafts))
  }

  /** The block the runner remembers from step `e - 1`. */
  ghost function LastBlock(w: World, e: nat): Option<Block>
    requires e > 0
  {
    if e == 1 then None else Some(Block(Ref(w, e - 1).kv, Ref(w, e - 1).draftNum))
  }

  /** What the runner remembers once steps `0 .. e-1` have been executed. */
  ghost predicate Remembers(w: World, st: RunnerState, e: nat)
  {
    && WellFormed(st.ring)
    && (e == 0 ==> Unknown(st, w.id))
    && (e > 0 ==>
          && Remembered(Find(Entries(st.ring), w.id), w.id, Result(w, e - 1), Ref(w, e - 1).draftNum)
          && Lookup(st.accepted, w.id) == Some(Result(w, e - 1).accepted)
          && Lookup(st.nextDrafts, w.id) == Some(Result(w, e - 1).mtp)
          && Lookup(st.lastBlock, w.id) == LastBlock(w, e))
  }

  /** What the Executor and the channels keep. */
  ghost predicate ExecutorInv(w: World, s: Sys)
  {
    && !s.failed && s.exec.id == w.id
    && s.engine.retired <= Executed(s) <= |s.engine.sent|
    && (forall k :: 0 <= k < Executed(s) ==> s.results[k] == Result(w, k))
    && |s.inputs| == |s.modes| == Executed(s)
    && InputsAgree(w, s.inputs, Executed(s)) && AllSeeDepthOne(w, s.modes, Executed(s))
    && Remembers(w, s.runner, Executed(s))
  }

  ghost predicate Inv(w: World, s: Sys)
  {
    ExecutorInv(w, s) && EngineRun.Inv(w, s.engine)
  }

  lemma InitialInv(w: World, s: Sys)
    requires WorldOk(w) && Initial(w, s)
    ensures Inv(w, s)
  {
    EngineRun.InitialInv(w, s.engine);
  }

  // ---- The Executor's half ----

  /** The input a repair with these arguments leaves. */
  function RepairedInput(r: ExecState, res: StepResult, phOff: nat, slots: nat, prev: Block): StepInput
    requires phOff + slots < |r.forwarding| && AcceptedFits(prev, phOff, res.accepted)
  {
    InputOf(Repair(r, res.bonus, res.accepted, phOff, slots, prev, res.mtp))
  }

  /** The input behind `c` when only the MTP drafts are filled in. */
  function WithMtp(c: seq<int>, res: StepResult, slots: nat): StepInput
  {
    DecodeInput(c + [res.bonus] + Fitting(res.mtp, slots), |c|, |Fitting(res.mtp, slots)|)
  }

  lemma WithMtpIsNext(x: StepInput, c: seq<int>, res: StepResult, slots: nat)
    requires x.draftNum <= |x.tokens| && c == Committed(x, res.accepted)
    ensures WithMtp(c, res, slots) == Next(x, res, slots) <==> MtpCovers(res, slots)
  {
    var a, b := c + [res.bonus] + Fitting(res.mtp, slots), c + [res.bonus] + Fitting(res.drafts, slots);
    assert a[|c| + 1..] == Fitting(res.mtp, slots) && b[|c| + 1..] == Fitting(res.drafts, slots);
  }

  /** Filling a reserved block right behind the committed tokens. */
  lemma FillsBlock(c: seq<int>, res: StepResult, slots: nat)
    ensures FillSlots(c + Fill(PLACEHOLDER, 1 + slots), |c|, res.bonus, res.mtp, slots)
         == c + [res.bonus] + Fitting(res.mtp, slots)
  {
    var vals := [res.bonus] + Fitting(res.mtp, slots);
    var left := Fill(PLACEHOLDER, 1 + slots - |vals|);
    assert c + Fill(PLACEHOLDER, 1 + slots) == c + Fill(PLACEHOLDER, |vals|) + left;
    OverwriteMiddle(c, Fill(PLACEHOLDER, |vals|), left, vals);
    assert c + vals + left == (c + vals) + left + [];
    EraseMiddle(c + vals, left, []);
  }

  /** With nothing to verify, the repair has no previous block: it inserts nothing and fills the reserved
      block, so the slots of an unfilled block stay in the sequence. */
  lemma RepairWithoutDrafts(x: StepInput, pad: nat, phOff: nat, res: StepResult, slots: nat, r: ExecState)
    requires x.kv + 1 + x.draftNum == |x.tokens| && x.draftNum == 0 && WellFormedResult(x, res)
    requires phOff == |x.tokens| + pad
    requires r.kind == DecodeStep && r.forwarding == x.tokens + Fill(PLACEHOLDER, pad) + Fill(PLACEHOLDER, 1 + slots)
    ensures RepairedInput(r, res, phOff, slots, Block(x.kv, 0)) ==
            WithMtp(x.tokens + Fill(PLACEHOLDER, pad), res, slots)
    ensures RepairedInput(r, res, phOff, slots, Block(x.kv, 0)) == Next(x, res, slots)
            <==> pad == 0 && MtpCovers(res, slots)
  {
    var head, block := x.tokens + Fill(PLACEHOLDER, pad), Fill(PLACEHOLDER, 1 + slots);
    assert res.accepted == [] && Committed(x, []) == x.tokens;
    assert KeepAccepted(r.forwarding, phOff, Block(x.kv, 0), []) == head + block;
    FillsBlock(head, res, slots);
    if pad == 0 {
      assert head == x.tokens;
      WithMtpIsNext(x, head, res, slots);
    }
  }

  /** With drafts to verify, the repair keeps the accepted ones and drops every other slot of their block. */
  lemma RepairWithDrafts(x: StepInput, pad: nat, res: StepResult, slots: nat, r: ExecState)
    requires x.kv + 1 + x.draftNum == |x.tokens| && x.draftNum > 0 && WellFormedResult(x, res)
    requires r.kind == DecodeStep && r.forwarding == x.tokens + Fill(PLACEHOLDER, pad) + Fill(PLACEHOLDER, 1 + slots)
    ensures var phOff := |x.tokens| + pad;
            && AcceptedFits(Block(x.kv, x.draftNum), phOff, res.accepted)
            && var y := RepairedInput(r, res, phOff, slots, Block(x.kv, x.draftNum));
               && y == WithMtp(Committed(x, res.accepted), res, slots)
               && (y == Next(x, res, slots) <==> MtpCovers(res, slots))
  {
    var block, head := Fill(PLACEHOLDER, 1 + slots), x.tokens[..x.kv + 1];
    var rejected := Drafts(x)[|res.accepted|..] + Fill(PLACEHOLDER, pad);
    assert Drafts(x) == res.accepted + Drafts(x)[|res.accepted|..];
    assert x.tokens == head + Drafts(x);
    assert r.forwarding == head + (res.accepted + rejected) + block;
    TrimSlots(head, res.accepted, rejected, block);
    FillsBlock(Committed(x, res.accepted), res, slots);
    WithMtpIsNext(x, Committed(x, res.accepted), res, slots);
  }

  /** The repair of one block rebuilds the depth-1 input from what the Engine froze, exactly when the
      previous step verified a draft or reserved no slot for one, and no draft but MTP ones fits. */
  lemma RepairRebuildsInput(x: StepInput, pad: nat, phOff: nat, res: StepResult, slots: nat, r: ExecState)
    requires x.kv + 1 + x.draftNum == |x.tokens| && WellFormedResult(x, res) && phOff == |x.tokens| + pad
    requires r.kind == DecodeStep && r.forwarding == x.tokens + Fill(PLACEHOLDER, pad) + Fill(PLACEHOLDER, 1 + slots)
    ensures var prev := PreviousBlock(Some(Block(x.kv, x.draftNum)), r.kv, phOff);
            && AcceptedFits(prev, phOff, res.accepted)
            && (RepairedInput(r, res, phOff, slots, prev) == Next(x, res, slots)
                <==> (x.draftNum > 0 || pad == 0) && MtpCovers(res, slots))
  {
    PreviousIsLast(x, r.kv, phOff);
    if x.draftNum == 0 {
      RepairWithoutDrafts(x, pad, phOff, res, slots, r);
    } else {
      RepairWithDrafts(x, pad, res, slots, r);
    }
  }

  /** Filling a block leaves what follows it alone. */
  lemma FillsBefore(c: seq<int>, res: StepResult, slots: nat, tail: seq<int>)
    ensures FillSlots(c + Fill(PLACEHOLDER, 1 + slots) + tail, |c|, res.bonus, res.mtp, slots)
         == c + [res.bonus] + Fitting(res.mtp, slots) + tail
  {
    var vals := [res.bonus] + Fitting(res.mtp, slots);
    var left := Fill(PLACEHOLDER, 1 + slots - |vals|);
    assert c + Fill(PLACEHOLDER, 1 + slots) + tail == c + Fill(PLACEHOLDER, |vals|) + (left + tail);
    OverwriteMiddle(c, Fill(PLACEHOLDER, |vals|), left + tail, vals);
    assert c + vals + (left + tail) == (c + vals) + left + tail;
    EraseMiddle(c + vals, left, tail);
    assert c + vals + tail == c + [res.bonus] + Fitting(res.mtp, slots) + tail;
  }

  predicate WellFormedTail(x: StepInput) { x.kv + 1 + x.draftNum == |x.tokens| }

  lemma KeepsOverDrafts(x: StepInput, accepted: seq<int>, block: seq<int>)
    requires WellFormedTail(x) && x.draftNum > 0 && accepted <= Drafts(x)
    ensures x.kv + 1 + |accepted| <= |x.tokens|
    ensures KeepAccepted(x.tokens + block, |x.tokens|, Block(x.kv, x.draftNum), accepted) ==
            Committed(x, accepted) + block
  {
    var head, rejected := x.tokens[..x.kv + 1], Drafts(x)[|accepted|..];
    assert Drafts(x) == accepted + rejected && x.tokens == head + Drafts(x);
    assert x.tokens + block == head + (accepted + rejected) + block;
    TrimSlots(head, accepted, rejected, block);
  }

  lemma KeepsWithoutDrafts(x: StepInput, accepted: seq<int>, block: seq<int>)
    requires WellFormedTail(x) && x.draftNum == 0 && accepted <= Drafts(x)
    ensures KeepAccepted(x.tokens + block, |x.tokens|, Block(x.kv, 0), accepted) == Committed(x, accepted) + block
  {
    assert accepted == [] && x.tokens[..|x.tokens|] == x.tokens;
    assert (x.tokens + block)[..|x.tokens|] == x.tokens && (x.tokens + block)[|x.tokens|..] == block;
  }

  /** The block starts right behind `x`, and whatever follows it stays: the accepted drafts are kept, the
      rejected ones dropped. */
  lemma KeepsAcceptedBefore(x: StepInput, res: StepResult, block: seq<int>)
    requires WellFormedTail(x) && WellFormedResult(x, res)
    ensures var prev := Block(x.kv, x.draftNum);
            && AcceptedFits(prev, |x.tokens|, res.accepted)
            && KeepAccepted(x.tokens + block, |x.tokens|, prev, res.accepted) == Committed(x, res.accepted) + block
            && MainPosition(|x.tokens|, prev, res.accepted) == |Committed(x, res.accepted)|
  {
    if x.draftNum > 0 {
      KeepsOverDrafts(x, res.accepted, block);
    } else {
      KeepsWithoutDrafts(x, res.accepted, block);
    }
  }

  /** A block that starts at or behind the last one's end leaves that one as it is remembered. */
  lemma PreviousIsLast(x: StepInput, kv: nat, phOff: nat)
    requires WellFormedTail(x) && |x.tokens| <= phOff
    ensures PreviousBlock(Some(Block(x.kv, x.draftNum)), kv, phOff) == Block(x.kv, x.draftNum)
  {
  }

  /** A scanned block of which `pad` slots belong to the one before: its repair leaves as many slots behind it. */
  lemma RepairAtScan(x: StepInput, pad: nat, res: StepResult, slots: nat, r: ExecState)
    requires WellFormedTail(x) && WellFormedResult(x, res)
    requires r.kind == DecodeStep && r.forwarding == x.tokens + Fill(PLACEHOLDER, 1 + slots) + Fill(PLACEHOLDER, pad)
    ensures var prev := PreviousBlock(Some(Block(x.kv, x.draftNum)), r.kv, |x.tokens|);
            && AcceptedFits(prev, |x.tokens|, res.accepted)
            && (RepairedInput(r, res, |x.tokens|, slots, prev) == Next(x, res, slots)
                <==> pad == 0 && MtpCovers(res, slots))
  {
    var c, block, tail := Committed(x, res.accepted), Fill(PLACEHOLDER, 1 + slots), Fill(PLACEHOLDER, pad);
    assert r.forwarding == x.tokens + (block + tail);
    PreviousIsLast(x, r.kv, |x.tokens|);
    KeepsAcceptedBefore(x, res, block + tail);
    assert c + (block + tail) == c + block + tail;
    FillsBefore(c, res, slots, tail);
    WithMtpIsNext(x, c, res, slots);
    var y := RepairedInput(r, res, |x.tokens|, slots, Block(x.kv, x.draftNum));
    assert y == WithMtp(c, res, slots).(tokens := WithMtp(c, res, slots).tokens + tail);
    if pad == 0 {
      assert WithMtp(c, res, slots).tokens + tail == WithMtp(c, res, slots).tokens;
    }
  }

  /** With no earlier block, the repair inserts nothing and fills the first one. */
  lemma RepairFirstInput(x: StepInput, res: StepResult, slots: nat, r: ExecState)
    requires x.draftNum == 0 && WellFormedResult(x, res)
    requires r.kind == DecodeStep && r.forwarding == x.tokens + Fill(PLACEHOLDER, 1 + slots)
    ensures var r' := Repair(r, res.bonus, res.accepted, |x.tokens|, slots, Block(r.kv, 0), res.mtp);
            InputOf(r') == Next(x, res, slots) <==> MtpCovers(res, slots)
  {
    assert res.accepted == [];
    assert KeepAccepted(r.forwarding, |x.tokens|, Block(r.kv, 0), []) == x.tokens + Fill(PLACEHOLDER, 1 + slots);
    assert Committed(x, []) == x.tokens;
    FillsBlock(x.tokens, res, slots);
    WithMtpIsNext(x, x.tokens, res, slots);
  }

  lemma FoundMeansUsable(ring: seq<int>, id: int)
    requires Find(Entries(ring), id).Some?
    ensures RingUsable(ring)
  {
  }

  /** What the repair of step `e` has to leave behind. */
  ghost predicate SeesReference(w: World, st: RunnerState, r': ExecState, st': RunnerState, e: nat)
  {
    && InputOf(r') == Ref(w, e) && r'.id == w.id && st'.ring == st.ring && st'.accepted == st.accepted
    && Lookup(st'.lastBlock, w.id) == LastBlock(w, e + 1)
  }

  function SnapshotFor(snap: Snapshot, mode: Transfer): Option<Snapshot>
  {
    if mode.Carried? then Some(snap) else None
  }

  lemma FirstStepNeedsNoRepair(w: World, st: RunnerState, r: ExecState, mode: Transfer)
    requires Remembers(w, st, 0) && r.id == w.id
    ensures var snap, a := SnapshotFor(Frozen(w, 0), mode), Arrive(r, Frozen(w, 0), mode);
            RepairSafe(st, a, snap) && SeesReference(w, st, Repaired(st, a, snap).0, Repaired(st, a, snap).1, 0)
  {
  }

  /** Where the Executor takes step `e`'s block to start: where the Engine put it, or at the first -1. */
  ghost function BlockStart(w: World, e: nat, mode: Transfer): nat
    requires e > 0
  {
    if mode.Full? then |Ref(w, e - 1).tokens| else |Held(w, e - 1)|
  }

  lemma FirstIs(tokens: seq<int>, at: nat)
    requires at < |tokens| && tokens[at] == PLACEHOLDER && PLACEHOLDER !in tokens[..at]
    ensures FirstPlaceholder(tokens, 0) == Some(at)
  {
    assert forall i :: 0 <= i < at ==> tokens[i] == tokens[..at][i];
  }

  lemma FirstBehind(known: seq<int>, m: nat, n: nat)
    requires PLACEHOLDER !in known && n > 0
    ensures FirstPlaceholder(known + Fill(PLACEHOLDER, m) + Fill(PLACEHOLDER, n), 0) == Some(|known|)
  {
    var tokens := known + Fill(PLACEHOLDER, m) + Fill(PLACEHOLDER, n);
    assert tokens[..|known|] == known && tokens[|known|] == PLACEHOLDER;
    FirstIs(tokens, |known|);
  }

  lemma ScanFindsStart(w: World, e: nat)
    requires WorldOk(w) && NoPlaceholders(w) && e > 0
    ensures FirstPlaceholder(HeldAhead(w, e), 0) == Some(|Ref(w, e - 1).tokens|)
  {
    RefHasNoPlaceholder(w, e - 1);
    FirstBehind(Ref(w, e - 1).tokens, Unfilled(w, e - 1), 1 + SlotsAt(w, e));
  }

  /** Of two runs of slots it does not matter which comes first. */
  lemma SlotsCommute(tokens: seq<int>, m: nat, n: nat)
    ensures tokens + Fill(PLACEHOLDER, m) + Fill(PLACEHOLDER, n) == tokens + Fill(PLACEHOLDER, n) + Fill(PLACEHOLDER, m)
  {
  }

  lemma RepairLaterStep(w: World, a: ExecState, e: nat, mode: Transfer)
    requires WorldOk(w) && e > 1 && a.kind == DecodeStep && a.forwarding == HeldAhead(w, e)
    ensures var phOff := BlockStart(w, e, mode);
            var prev := PreviousBlock(LastBlock(w, e), a.kv, phOff);
            && AcceptedFits(prev, phOff, Result(w, e - 1).accepted) && phOff + SlotsAt(w, e) < |a.forwarding|
            && (RepairedInput(a, Result(w, e - 1), phOff, SlotsAt(w, e), prev) == Ref(w, e)
                <==> SeesDepthOne(w, e, mode))
  {
    var x, pad := Ref(w, e - 1), Unfilled(w, e - 1);
    assert WellFormedResult(x, w.model(x));
    assert Ref(w, e) == Next(x, w.model(x), SlotsAt(w, e));
    if mode.Full? {
      SlotsCommute(x.tokens, pad, 1 + SlotsAt(w, e));
      RepairAtScan(x, pad, w.model(x), SlotsAt(w, e), a);
    } else {
      RepairRebuildsInput(x, pad, |Held(w, e - 1)|, w.model(x), SlotsAt(w, e), a);
    }
  }

  /** Repairing step `e` gives the reference input exactly under that condition. */
  lemma RepairGivesReference(w: World, a: ExecState, e: nat, mode: Transfer)
    requires WorldOk(w) && e > 0 && a.kind == DecodeStep && a.forwarding == HeldAhead(w, e)
    ensures var phOff := BlockStart(w, e, mode);
            var prev := PreviousBlock(LastBlock(w, e), a.kv, phOff);
            && AcceptedFits(prev, phOff, Result(w, e - 1).accepted) && phOff + SlotsAt(w, e) < |a.forwarding|
            && (RepairedInput(a, Result(w, e - 1), phOff, SlotsAt(w, e), prev) == Ref(w, e)
                <==> SeesDepthOne(w, e, mode))
  {
    if e == 1 {
      assert WellFormedResult(Ref(w, 0), Result(w, 0));
      RepairFirstInput(Ref(w, 0), Result(w, 0), SlotsAt(w, 1), a);
    } else {
      RepairLaterStep(w, a, e, mode);
    }
  }

  /** Whatever the interleaving, the repaired step is then the reference step. */
  lemma ExecuteSeesReference(w: World, st: RunnerState, r: ExecState, e: nat, mode: Transfer)
    requires WorldOk(w) && Remembers(w, st, e) && r.id == w.id && SeesDepthOne(w, e, mode)
    requires mode.Full? ==> NoPlaceholders(w)
    ensures var snap, a := SnapshotFor(Frozen(w, e), mode), Arrive(r, Frozen(w, e), mode);
            RepairSafe(st, a, snap) && SeesReference(w, st, Repaired(st, a, snap).0, Repaired(st, a, snap).1, e)
  {
    if e == 0 {
      FirstStepNeedsNoRepair(w, st, r, mode);
    } else {
      FoundMeansUsable(st.ring, w.id);
      RepairArguments(w, st, r, e, mode);
      RepairGivesReference(w, Restore(Arrive(r, Frozen(w, e), mode), SnapshotFor(Frozen(w, e), mode)), e, mode);
    }
  }

  /** And only then: otherwise stale slots stay in, or drafts the Executor does not know of are left out. */
  lemma OtherStepDiverges(w: World, st: RunnerState, r: ExecState, e: nat, mode: Transfer)
    requires WorldOk(w) && Remembers(w, st, e) && r.id == w.id && !SeesDepthOne(w, e, mode)
    requires mode.Full? ==> NoPlaceholders(w)
    ensures var snap, a := SnapshotFor(Frozen(w, e), mode), Arrive(r, Frozen(w, e), mode);
            RepairSafe(st, a, snap) && InputOf(Repaired(st, a, snap).0) != Ref(w, e)
  {
    FoundMeansUsable(st.ring, w.id);
    RepairArguments(w, st, r, e, mode);
    RepairGivesReference(w, Restore(Arrive(r, Frozen(w, e), mode), SnapshotFor(Frozen(w, e), mode)), e, mode);
  }

  /** The verify block the runner remembers ends where the next one starts exactly when every reserved slot
      was filled; otherwise the repair's fallback narrows it. */
  lemma FallbackFiresWhenUnfilled(w: World, e: nat, kv: nat)
    requires e > 1 && Ref(w, e - 1).draftNum > 0
    ensures var last := LastBlock(w, e).value;
            && (|Held(w, e - 1)| == last.main + 1 + last.slots <==> Unfilled(w, e - 1) == 0)
            && PreviousBlock(Some(last), kv, |Held(w, e - 1)|) == last
  {
  }

  /** The arguments the runner gathers for step `e` are the previous step's results and block. */
  lemma RepairArguments(w: World, st: RunnerState, r: ExecState, e: nat, mode: Transfer)
    requires WorldOk(w) && Remembers(w, st, e) && r.id == w.id && e > 0 && (mode.Full? ==> NoPlaceholders(w))
    ensures var snap, a := SnapshotFor(Frozen(w, e), mode), Arrive(r, Frozen(w, e), mode);
            var phOff := BlockStart(w, e, mode);
            var b := Restore(a, snap);
            && b.forwarding == HeldAhead(w, e) && b.kind == DecodeStep && b.id == w.id && Repairs(st, a, snap)
            && ResolveOffset(b, snap) == Some(phOff) && b.draftNum == SlotsAt(w, e)
            && AcceptedFor(st, b) == Result(w, e - 1).accepted && DraftsFor(st, b) == Result(w, e - 1).mtp
            && PrevFor(st, b, phOff) == PreviousBlock(LastBlock(w, e), b.kv, phOff)
  {
    assert WellFormedResult(Ref(w, e - 1), Result(w, e - 1));
    if mode.Full? {
      ScanFindsStart(w, e);
    }
  }

  /** A request a written ring says nothing of is not repaired: it forwards its frozen fields, however they were sent,
      or, when the ring lists no request at all, its fields as they arrived. */
  lemma UnknownRunsAsSent(st: RunnerState, es: seq<Entry>, r: ExecState, snap: Snapshot, mode: Transfer)
    requires st.ring == Cells(es) || (st.ring == [] && es == [])
    requires r.id !in Ids(es)
    ensures var arrived := Arrive(r, snap, mode);
            && RepairSafe(st, arrived, SnapshotFor(snap, mode))
            && var (r', st') := Repaired(st, arrived, SnapshotFor(snap, mode));
               && st' == st
               && InputOf(r') == if es == [] then InputOf(arrived)
                                 else StepInput(snap.forwarding, snap.kv, snap.prefixLen, snap.draftNum,
                                                snap.sampling, snap.kind)
  {
    CellsRoundTrip(es);
    FindRefines(es, r.id);
  }

  // ---- What other requests do to the runner ----

  /** The runner knows the same about request `id`. */
  ghost predicate SameKnowledge(a: RunnerState, b: RunnerState, id: int)
  {
    && WellFormed(b.ring)
    && Find(Entries(b.ring), id) == Find(Entries(a.ring), id)
    && Lookup(b.accepted, id) == Lookup(a.accepted, id)
    && Lookup(b.lastBlock, id) == Lookup(a.lastBlock, id)
    && Lookup(b.nextDrafts, id) == Lookup(a.nextDrafts, id)
  }

  /** Writing a batch changes this request's ring entry only if the batch holds this request. */
  lemma OtherBatchKeepsEntry(st: RunnerState, rs: seq<ExecState>, id: int)
    requires WellFormed(st.ring) && DistinctIds(rs) && NoId(rs, id)
    ensures var ring' := WriteStep(st, rs).ring;
            WellFormed(ring') && Find(Entries(ring'), id) == Find(Entries(st.ring), id)
  {
    WriteStepRefines(st, rs);
    RingIdsOf(rs, id);
    FindRefines(Entries(st.ring), id);
    FindRefines(Entries(WriteStep(st, rs).ring), id);
  }

  lemma OtherBatchKeeps(st: RunnerState, rs: seq<ExecState>, id: int)
    requires WellFormed(st.ring) && DistinctIds(rs) && NoId(rs, id)
    ensures SameKnowledge(st, WriteStep(st, rs), id)
  {
    OtherBatchKeepsEntry(st, rs, id);
    var ps := Producers(rs);
    AcceptedOfKeys(ps);
    assert id !in AcceptedOf(ps);
  }

  lemma RingIdsOf(rs: seq<ExecState>, id: int)
    requires DistinctIds(rs) && NoId(rs, id)
    ensures id !in Contents(EntriesOf(Producers(rs)))
  {
    ProducersDistinct(rs);
    EntriesOfUnique(Producers(rs));
  }

  /** A batch that holds this request leaves exactly its result in the ring. */
  lemma OwnBatchWrites(st: RunnerState, rs: seq<ExecState>, i: nat)
    requires WellFormed(st.ring) && DistinctIds(rs) && i < |rs| && rs[i].generated != []
    ensures var st' := WriteStep(st, rs);
            && WellFormed(st'.ring)
            && Find(Entries(st'.ring), rs[i].id) ==
               Some(Entry(rs[i].id, rs[i].generated[0], |rs[i].accepted|, rs[i].draftNum))
            && Lookup(st'.accepted, rs[i].id) == Some(rs[i].accepted)
  {
    var ps := Producers(rs);
    assert rs[i] in ps;
    var j :| 0 <= j < |ps| && ps[j] == rs[i];
    WriteStepRefines(st, rs);
    FindRefines(Entries(WriteStep(st, rs).ring), rs[i].id);
    ProducersDistinct(rs);
    EntriesOfUnique(ps);
    ContentsAt(EntriesOf(ps), j);
    AcceptedOfAt(ps, j);
  }

  lemma OtherForgetKeepsEntry(st: RunnerState, ids: set<int>, id: int)
    requires WellFormed(st.ring) && id !in ids
    ensures var ring' := Forget(st, ids).ring;
            WellFormed(ring') && Find(Entries(ring'), id) == Find(Entries(st.ring), id)
  {
    ForgetRefines(st, ids);
    FindRefines(Entries(st.ring), id);
    FindRefines(Entries(Forget(st, ids).ring), id);
  }

  lemma OtherForgetKeeps(st: RunnerState, ids: set<int>, id: int)
    requires WellFormed(st.ring) && id !in ids
    ensures SameKnowledge(st, Forget(st, ids), id)
  {
    OtherForgetKeepsEntry(st, ids, id);
  }

  /** Forgetting a request makes it unknown: a recomputed request starts over. */
  lemma ForgottenIsUnknown(st: RunnerState, ids: set<int>, id: int)
    requires WellFormed(st.ring) && id in ids
    ensures Unknown(Forget(st, ids), id)
  {
    ForgetRefines(st, ids);
    FindRefines(Entries(Forget(st, ids).ring), id);
  }

  lemma SameKnowledgeRemembers(w: World, a: RunnerState, b: RunnerState, e: nat)
    requires Remembers(w, a, e) && SameKnowledge(a, b, w.id)
    ensures Remembers(w, b, e)
  {
    assert w.id in b.accepted <==> Lookup(b.accepted, w.id).Some?;
    assert w.id in b.lastBlock <==> Lookup(b.lastBlock, w.id).Some?;
    assert w.id in b.nextDrafts <==> Lookup(b.nextDrafts, w.id).Some?;
  }

  lemma OtherKnowledge(st: RunnerState, id: int, ev: Event)
    requires IsOther(ev) && Spares(ev, id) && WellFormed(st.ring)
    ensures SameKnowledge(st, OtherStep(st, ev), id)
  {
    match ev
    case OtherRepair(_, _) =>
    case OtherFreeze(_, _) =>
    case OtherBatch(others) => OtherBatchKeeps(st, others, id);
    case OtherForget(ids) => OtherForgetKeeps(st, ids, id);
  }

  lemma OthersKeep(w: World, s: Sys, ev: Event)
    requires ExecutorInv(w, s) && IsOther(ev) && Enabled(w, s, ev)
    ensures ExecutorInv(w, Step(w, s, ev))
  {
    OtherKnowledge(s.runner, w.id, ev);
    SameKnowledgeRemembers(w, s.runner, OtherStep(s.runner, ev), Executed(s));
  }

  // ---- Every step keeps the invariant ----

  lemma InsertedDistinct(before: seq<ExecState>, r: ExecState, after: seq<ExecState>)
    requires DistinctIds(before + after) && NoId(before, r.id) && NoId(after, r.id)
    ensures DistinctIds(before + [r] + after)
  {
    assert forall i :: 0 <= i < |before| ==> before[i] in before && (before + after)[i] == before[i];
    assert forall i :: 0 <= i < |after| ==> after[i] in after && (before + after)[|before| + i] == after[i];
  }

  /** The runner after step `e` was executed in a batch of its own choosing. */
  lemma RecordedRemembers(w: World, st: RunnerState, before: seq<ExecState>, r: ExecState, after: seq<ExecState>,
                          e: nat)
    requires WellFormed(st.ring) && r.id == w.id
    requires NoId(before, w.id) && NoId(after, w.id) && DistinctIds(before + after)
    requires r.generated == [Result(w, e).bonus] && r.accepted == Result(w, e).accepted
    requires r.mtpDrafts == Result(w, e).mtp && r.draftNum == Ref(w, e).draftNum
    requires Lookup(st.lastBlock, w.id) == LastBlock(w, e + 1)
    ensures Remembers(w, Recorded(st, before, r, after), e + 1)
  {
    InsertedDistinct(before, r, after);
    assert (before + [r] + after)[|before|] == r;
    OwnBatchWrites(st, before + [r] + after, |before|);
  }

  lemma RecordAgrees(w: World, inputs: seq<StepInput>, modes: seq<Transfer>, n: nat, mode: Transfer)
    requires |inputs| == |modes| == n && InputsAgree(w, inputs, n) && AllSeeDepthOne(w, modes, n)
    requires SeesDepthOne(w, n, mode)
    ensures InputsAgree(w, inputs + [Ref(w, n)], n + 1) && AllSeeDepthOne(w, modes + [mode], n + 1)
  {
  }

  lemma ResultsAgree(w: World, results: seq<StepResult>, r: StepResult)
    requires (forall k :: 0 <= k < |results| ==> results[k] == Result(w, k)) && r == Result(w, |results|)
    ensures forall k :: 0 <= k < |results + [r]| ==> (results + [r])[k] == Result(w, k)
  {
  }

  lemma ExecutedKeeps(w: World, s: Sys, r: ExecState, st: RunnerState, mode: Transfer)
    requires ExecutorInv(w, s) && Executed(s) < |s.engine.sent| && Remembers(w, st, Executed(s) + 1)
    requires r.id == w.id && InputOf(r) == Ref(w, Executed(s)) && SeesDepthOne(w, Executed(s), mode)
    ensures ExecutorInv(w, AfterExecuting(w, s, r, st, mode))
  {
    RecordAgrees(w, s.inputs, s.modes, Executed(s), mode);
    ResultsAgree(w, s.results, w.model(InputOf(r)));
  }

  /** The repair inside an executed step leaves the reference input. */
  lemma ExecuteRepairs(w: World, s: Sys, before: seq<ExecState>, after: seq<ExecState>, mode: Transfer)
    returns (r: ExecState, st: RunnerState)
    requires WorldOk(w) && Inv(w, s) && Executed(s) < |s.engine.sent| && SeesDepthOne(w, Executed(s), mode)
    requires mode.Full? ==> NoPlaceholders(w)
    ensures SeesReference(w, s.runner, r, st, Executed(s))
    ensures ExecuteStep(w, s, before, after, mode)
         == AfterExecuting(w, s, r, Recorded(st, before, Forwarded(w, r), after), mode)
  {
    var sent := s.engine.sent[Executed(s)];
    assert sent == Frozen(w, Executed(s));
    ExecuteSeesReference(w, s.runner, s.exec, Executed(s), mode);
    var repaired := Repaired(s.runner, Arrive(s.exec, sent, mode), SnapshotFor(sent, mode));
    r, st := repaired.0, repaired.1;
  }

  /** Executing a step sees its depth-1 input and hands its depth-1 result on. */
  lemma ExecuteKeeps(w: World, s: Sys, before: seq<ExecState>, after: seq<ExecState>, mode: Transfer)
    returns (r: ExecState, st: RunnerState)
    requires WorldOk(w) && Inv(w, s) && Enabled(w, s, Execute(before, after, mode))
    requires SeesDepthOne(w, Executed(s), mode)
    ensures ExecuteStep(w, s, before, after, mode) == AfterExecuting(w, s, r, st, mode)
    ensures InputOf(r) == Ref(w, Executed(s)) && Inv(w, AfterExecuting(w, s, r, st, mode))
  {
    var repaired;
    r, repaired := ExecuteRepairs(w, s, before, after, mode);
    st := Recorded(repaired, before, Forwarded(w, r), after);
    RecordedRemembers(w, repaired, before, Forwarded(w, r), after, Executed(s));
    ExecutedKeeps(w, s, r, st, mode);
  }

  /** A step of the Engine leaves the Executor alone and only adds to the first channel. */
  lemma EngineKeeps(w: World, s: Sys, engine: EngineRun.Engine)
    requires Inv(w, s) && EngineRun.Inv(w, engine)
    requires |s.engine.sent| <= |engine.sent| && engine.retired <= Executed(s)
    ensures Inv(w, s.(engine := engine))
  {
  }

  lemma EngineGrows(w: World, s: EngineRun.Engine, ev: EngineRun.Event)
    ensures var t := EngineRun.Step(w, s, ev);
            |s.sent| <= |t.sent| && t.retired <= s.retired + if ev.Retire? then 1 else 0
  {
  }

  /** The step of the Engine behind an event, if there is one. */
  function EngineEvent(ev: Event): Option<EngineRun.Event>
  {
    match ev
    case Plan => Some(EngineRun.Plan)
    case Launch => Some(EngineRun.Launch)
    case Retire => Some(EngineRun.Retire)
    case _ => None
  }

  /** As long as the results are the depth-1 ones, the Engine steps as it does on its own. */
  lemma EngineStepsAlone(w: World, s: Sys, ev: Event)
    requires ExecutorInv(w, s) && Enabled(w, s, ev)
    ensures EngineEvent(ev).Some? ==>
              && EngineRun.Enabled(s.engine, EngineEvent(ev).value)
              && Step(w, s, ev) == s.(engine := EngineRun.Step(w, s.engine, EngineEvent(ev).value))
    ensures EngineEvent(ev).None? ==> Step(w, s, ev).engine == s.engine
  {
  }

  lemma StepKeeps(w: World, s: Sys, ev: Event)
    requires WorldOk(w) && Inv(w, s) && Enabled(w, s, ev)
    requires ev.Execute? ==> SeesDepthOne(w, Executed(s), ev.mode)
    ensures Inv(w, Step(w, s, ev))
  {
    EngineStepsAlone(w, s, ev);
    if EngineEvent(ev).Some? {
      var e := EngineEvent(ev).value;
      EngineRun.StepKeeps(w, s.engine, e);
      EngineGrows(w, s.engine, e);
      EngineKeeps(w, s, EngineRun.Step(w, s.engine, e));
    } else if ev.Execute? {
      var _, _ := ExecuteKeeps(w, s, ev.before, ev.after, ev.mode);
    } else {
      OthersKeep(w, s, ev);
    }
  }

  // ---- Runs ----

  /** Some run of the system takes `s` through the events `evs` to `t`. */
  ghost predicate Reaches(w: World, s: Sys, evs: seq<Event>, t: Sys)
    decreases |evs|
  {
    if evs == [] then s == t else Enabled(w, s, evs[0]) && Reaches(w, Step(w, s, evs[0]), evs[1..], t)
  }

  /** Executing a step outside that condition: it runs, on an input that is not the depth-1 input. */
  lemma OtherExecutes(w: World, s: Sys, ev: Event)
    requires WorldOk(w) && Inv(w, s) && Enabled(w, s, ev) && ev.Execute?
    requires !SeesDepthOne(w, Executed(s), ev.mode)
    ensures var s' := Step(w, s, ev);
            !s'.failed && Executed(s') == Executed(s) + 1 && InputOf(s'.exec) != Ref(w, Executed(s))
  {
    assert s.engine.sent[Executed(s)] == Frozen(w, Executed(s));
    OtherStepDiverges(w, s.runner, s.exec, Executed(s), ev.mode);
  }

  /** An executed step that does not fail is recorded. */
  lemma ExecuteRecords(w: World, s: Sys, ev: Event)
    requires Enabled(w, s, ev) && ev.Execute? && Executed(Step(w, s, ev)) > Executed(s)
    ensures var s' := Step(w, s, ev);
            s'.inputs == s.inputs + [InputOf(s'.exec)] && s'.modes == s.modes + [ev.mode]
  {
  }

  /** An executed step sees its depth-1 input exactly under that condition. */
  lemma ExecutesExactly(w: World, s: Sys, ev: Event)
    requires WorldOk(w) && Inv(w, s) && Enabled(w, s, ev) && ev.Execute?
    ensures var s', e := Step(w, s, ev), Executed(s);
            && !s'.failed && Executed(s') == e + 1
            && s'.inputs == s.inputs + [InputOf(s'.exec)] && s'.modes == s.modes + [ev.mode]
            && (InputOf(s'.exec) == Ref(w, e) <==> SeesDepthOne(w, e, ev.mode))
  {
    if SeesDepthOne(w, Executed(s), ev.mode) {
      var _, _ := ExecuteKeeps(w, s, ev.before, ev.after, ev.mode);
    } else {
      OtherExecutes(w, s, ev);
    }
    ExecuteRecords(w, s, ev);
  }

  /** What the repair of an arrived step leaves, whether or not that is the depth-1 input. */
  lemma ArrivedIsRepaired(w: World, st: RunnerState, r: ExecState, e: nat, mode: Transfer)
    requires WorldOk(w) && Remembers(w, st, e) && r.id == w.id && e > 0 && (mode.Full? ==> NoPlaceholders(w))
    ensures var snap, a := SnapshotFor(Frozen(w, e), mode), Arrive(r, Frozen(w, e), mode);
            var b, phOff := Restore(a, snap), BlockStart(w, e, mode);
            var prev := PreviousBlock(LastBlock(w, e), b.kv, phOff);
            && RepairSafe(st, a, snap) && AcceptedFits(prev, phOff, Result(w, e - 1).accepted)
            && phOff + SlotsAt(w, e) < |b.forwarding|
            && InputOf(Repaired(st, a, snap).0) == RepairedInput(b, Result(w, e - 1), phOff, SlotsAt(w, e), prev)
  {
    FoundMeansUsable(st.ring, w.id);
    RepairArguments(w, st, r, e, mode);
    RepairGivesReference(w, Restore(Arrive(r, Frozen(w, e), mode), SnapshotFor(Frozen(w, e), mode)), e, mode);
  }

  /** What an executed step behind another one sees. */
  lemma ExecutesRepaired(w: World, s: Sys, ev: Event)
    requires WorldOk(w) && Inv(w, s) && Enabled(w, s, ev) && ev.Execute? && Executed(s) > 0
    ensures var e := Executed(s);
            var a := Restore(Arrive(s.exec, Frozen(w, e), ev.mode), SnapshotFor(Frozen(w, e), ev.mode));
            var phOff := BlockStart(w, e, ev.mode);
            var prev := PreviousBlock(LastBlock(w, e), a.kv, phOff);
            && AcceptedFits(prev, phOff, Result(w, e - 1).accepted) && phOff + SlotsAt(w, e) < |a.forwarding|
            && InputOf(Step(w, s, ev).exec) == RepairedInput(a, Result(w, e - 1), phOff, SlotsAt(w, e), prev)
  {
    assert s.engine.sent[Executed(s)] == Frozen(w, Executed(s));
    ArrivedIsRepaired(w, s.runner, s.exec, Executed(s), ev.mode);
  }

  /** What has been executed stays on record. */
  lemma StepRecords(w: World, s: Sys, ev: Event)
    requires Enabled(w, s, ev)
    ensures s.inputs <= Step(w, s, ev).inputs && s.modes <= Step(w, s, ev).modes
    ensures |Step(w, s, ev).inputs| - |s.inputs| == |Step(w, s, ev).modes| - |s.modes|
  {
  }

  lemma {:induction false} RunRecords(w: World, s: Sys, evs: seq<Event>, t: Sys)
    requires Reaches(w, s, evs, t)
    ensures s.inputs <= t.inputs && s.modes <= t.modes && |t.inputs| - |s.inputs| == |t.modes| - |s.modes|
    decreases |evs|
  {
    if evs != [] {
      StepRecords(w, s, evs[0]);
      RunRecords(w, Step(w, s, evs[0]), evs[1..], t);
    }
  }

  /** The Engine's part of a sequence of events. */
  function EngineEvents(evs: seq<Event>): seq<EngineRun.Event>
  {
    if evs == [] then []
    else (if EngineEvent(evs[0]).Some? then [EngineEvent(evs[0]).value] else []) + EngineEvents(evs[1..])
  }

  lemma EngineFollows(w: World, s: Sys, evs: seq<Event>, t: EngineRun.Engine)
    requires ExecutorInv(w, s) && evs != [] && Enabled(w, s, evs[0])
    requires EngineRun.Reaches(w, Step(w, s, evs[0]).engine, EngineEvents(evs[1..]), t)
    ensures EngineRun.Reaches(w, s.engine, EngineEvents(evs), t)
  {
    EngineStepsAlone(w, s, evs[0]);
    if EngineEvent(evs[0]).Some? {
      assert EngineEvents(evs)[1..] == EngineEvents(evs[1..]);
    } else {
      assert EngineEvents(evs) == EngineEvents(evs[1..]);
    }
  }

  lemma LongerRecord(w: World, inputs: seq<StepInput>, modes: seq<Transfer>, e: nat, inputs': seq<StepInput>,
                     modes': seq<Transfer>, n: nat)
    requires |inputs| == |modes| == e && InputsAgree(w, inputs, e) && AllSeeDepthOne(w, modes, e)
    requires |inputs'| == |modes'| >= n && inputs <= inputs' && modes <= modes'
    requires e < |inputs'| && inputs'[e] != Ref(w, e) && !SeesDepthOne(w, e, modes'[e])
    ensures InputsAgree(w, inputs', n) <==> AllSeeDepthOne(w, modes', n)
    ensures n > e ==> !AllSeeDepthOne(w, modes', n)
  {
    assert forall k :: 0 <= k < e ==> inputs'[k] == inputs[k] && modes'[k] == modes[k];
  }

  /** The first step of a run, and the rest. */
  lemma FirstOf(w: World, s: Sys, evs: seq<Event>, t: Sys) returns (next: Sys)
    requires Reaches(w, s, evs, t) && evs != []
    ensures Enabled(w, s, evs[0]) && next == Step(w, s, evs[0]) && Reaches(w, next, evs[1..], t)
  {
    next := Step(w, s, evs[0]);
  }

  /** A step that diverges is on record. */
  lemma DivergesFirst(w: World, s: Sys, ev: Event)
    requires WorldOk(w) && Inv(w, s) && Enabled(w, s, ev) && ev.Execute? && !SeesDepthOne(w, Executed(s), ev.mode)
    ensures var next := Step(w, s, ev);
            && |next.inputs| == |next.modes| == Executed(s) + 1 && s.inputs <= next.inputs && s.modes <= next.modes
            && next.inputs[Executed(s)] != Ref(w, Executed(s)) && next.modes[Executed(s)] == ev.mode
  {
    ExecutesExactly(w, s, ev);
  }

  lemma DivergedTail(w: World, inputs: seq<StepInput>, modes: seq<Transfer>, e: nat, next: Sys, evs: seq<Event>, t: Sys,
                     n: nat)
    requires |inputs| == |modes| == e && InputsAgree(w, inputs, e) && AllSeeDepthOne(w, modes, e)
    requires |next.inputs| == |next.modes| == e + 1 && inputs <= next.inputs && modes <= next.modes
    requires next.inputs[e] != Ref(w, e) && !SeesDepthOne(w, e, next.modes[e])
    requires Reaches(w, next, evs, t) && n <= |t.inputs|
    ensures InputsAgree(w, t.inputs, n) <==> AllSeeDepthOne(w, t.modes, n)
    ensures |t.inputs| == |t.modes| && !AllSeeDepthOne(w, t.modes, |t.modes|)
  {
    RunRecords(w, next, evs, t);
    LongerRecord(w, inputs, modes, e, t.inputs, t.modes, n);
    LongerRecord(w, inputs, modes, e, t.inputs, t.modes, |t.modes|);
  }

  /** Once a step has been executed on another input, neither side of the equivalence holds of it. */
  lemma DivergedRun(w: World, s: Sys, evs: seq<Event>, t: Sys, n: nat)
    requires WorldOk(w) && Inv(w, s) && evs != [] && evs[0].Execute? && Reaches(w, s, evs, t) && n <= |t.inputs|
    requires !SeesDepthOne(w, Executed(s), evs[0].mode)
    ensures InputsAgree(w, t.inputs, n) <==> AllSeeDepthOne(w, t.modes, n)
    ensures |t.inputs| == |t.modes| && !AllSeeDepthOne(w, t.modes, |t.modes|)
  {
    var next := FirstOf(w, s, evs, t);
    DivergesFirst(w, s, evs[0]);
    DivergedTail(w, s.inputs, s.modes, Executed(s), next, evs[1..], t, n);
  }

  lemma InvAgrees(w: World, s: Sys, n: nat)
    requires Inv(w, s) && n <= |s.inputs|
    ensures |s.inputs| == |s.modes| && InputsAgree(w, s.inputs, n) && AllSeeDepthOne(w, s.modes, n)
  {
  }

  /** Along a run any number of executed inputs are the depth-1 ones exactly if as many steps see their own; if
      all do, the invariant holds, and the Engine does nothing it could not do on its own. */
  lemma {:induction false} RunKeeps(w: World, s: Sys, evs: seq<Event>, t: Sys, n: nat)
    requires WorldOk(w) && Inv(w, s) && Reaches(w, s, evs, t) && n <= |t.inputs|
    ensures |t.inputs| == |t.modes| && (InputsAgree(w, t.inputs, n) <==> AllSeeDepthOne(w, t.modes, n))
    ensures AllSeeDepthOne(w, t.modes, |t.modes|) ==>
              Inv(w, t) && EngineRun.Reaches(w, s.engine, EngineEvents(evs), t.engine)
    decreases |evs|
  {
    if evs == [] {
      InvAgrees(w, s, n);
    } else if evs[0].Execute? && !SeesDepthOne(w, Executed(s), evs[0].mode) {
      DivergedRun(w, s, evs, t, n);
    } else {
      var next := FirstOf(w, s, evs, t);
      StepKeeps(w, s, evs[0]);
      RunKeeps(w, next, evs[1..], t, n);
      if AllSeeDepthOne(w, t.modes, |t.modes|) {
        EngineFollows(w, s, evs, t.engine);
      }
    }
  }

  /** A run from the last prefill chunk in flight. */
  ghost predicate Run(w: World, s: Sys, evs: seq<Event>, t: Sys)
  {
    WorldOk(w) && Initial(w, s) && Reaches(w, s, evs, t)
  }

  /** One whose executed steps have all seen their depth-1 inputs. */
  ghost predicate AgreedRun(w: World, s: Sys, evs: seq<Event>, t: Sys)
  {
    Run(w, s, evs, t) && AllSeeDepthOne(w, t.modes, |t.modes|)
  }

  lemma RunInv(w: World, s: Sys, evs: seq<Event>, t: Sys)
    requires AgreedRun(w, s, evs, t)
    ensures Inv(w, t)
  {
    InitialInv(w, s);
    RunKeeps(w, s, evs, t, |t.inputs|);
  }

  /** Three-way agreement, the Executor: in every run, the first `n` steps are forwarded on their depth-1
      sequence, cached prefix and draft count exactly if each was preceded by a step that was fed, or, behind a
      full transfer, left no slot unfilled, and by MTP drafts only. */
  lemma ExecutorAgrees(w: World, s: Sys, evs: seq<Event>, t: Sys, n: nat)
    requires Run(w, s, evs, t) && n <= |t.inputs|
    ensures InputsAgree(w, t.inputs, n) <==> AllSeeDepthOne(w, t.modes, n)
  {
    InitialInv(w, s);
    RunKeeps(w, s, evs, t, n);
  }

  /** End to end: if all steps executed in a run see their depth-1 inputs, no check of either process fails,
      every result is the depth-1 result, and output and stop flag are those of depth 1. */
  lemma AgreedRunOutput(w: World, s: Sys, evs: seq<Event>, t: Sys)
    requires Run(w, s, evs, t) && InputsAgree(w, t.inputs, |t.inputs|)
    ensures !t.failed && !t.engine.failed && |t.inputs| == Executed(t)
    ensures forall k :: 0 <= k < Executed(t) ==> t.results[k] == Result(w, k)
    ensures var counted := t.engine.counted;
            && t.engine.req.output == Output(w, counted) && counted <= t.engine.retired <= Executed(t)
            && (t.engine.req.eos <==> counted > 0 && Result(w, counted - 1).bonus in w.stops)
  {
    InitialInv(w, s);
    RunKeeps(w, s, evs, t, |t.inputs|);
  }

  /** The step executed next, behind steps that all saw their depth-1 inputs, runs, and sees its own exactly
      under that condition. */
  lemma NextStepAgrees(w: World, s: Sys, evs: seq<Event>, t: Sys, ev: Event)
    requires AgreedRun(w, s, evs, t) && Enabled(w, t, ev) && ev.Execute?
    ensures var t', e := Step(w, t, ev), Executed(t);
            && !t.failed && !t.engine.failed && !t'.failed && Executed(t') == e + 1
            && (InputOf(t'.exec) == Ref(w, e) <==> SeesDepthOne(w, e, ev.mode))
  {
    RunInv(w, s, evs, t);
    ExecutesExactly(w, t, ev);
  }

  /** In every such run the Engine goes through a run of its own, so all that holds of those holds here. */
  lemma EngineRunsAlone(w: World, s: Sys, evs: seq<Event>, t: Sys)
    requires AgreedRun(w, s, evs, t)
    ensures EngineRun.Run(w, s.engine, EngineEvents(evs), t.engine)
  {
    InitialInv(w, s);
    RunKeeps(w, s, evs, t, |t.inputs|);
  }

  /** A snapshot on its way to the Executor can be scanned for its newest block exactly when the block before
      that was filled, if real tokens are never -1. */
  lemma ScanningInTransit(w: World, s: Sys, evs: seq<Event>, t: Sys, k: nat)
    requires AgreedRun(w, s, evs, t) && NoPlaceholders(w) && 0 < k && Executed(t) <= k < |t.engine.sent|
    ensures t.engine.sent[k].placeholder.Some?
    ensures FirstPlaceholder(t.engine.sent[k].forwarding, 0) == t.engine.sent[k].placeholder
            <==> Unfilled(w, k - 1) == 0
  {
    EngineRunsAlone(w, s, evs, t);
    EngineRun.ScanningSnapshots(w, s.engine, EngineEvents(evs), t.engine, k);
  }
}
