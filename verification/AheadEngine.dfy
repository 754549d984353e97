/** The Engine at depth 2: one step of its placeholder queue at a time. */
module AheadEngine {
  import opened Tokens
  import opened InferRequests
  import opened RequestSteps
  import opened ModelRunners
  import opened Reference

  // ---- What the Engine holds for a backfilled step ----

  /** Slots of step `k`'s block that its predecessor produced no draft for. */
  ghost function Unfilled(w: World, k: nat): nat
  {
    if k == 0 then 0 else SlotsAt(w, k) - Ref(w, k).draftNum
  }

  /** `forwarding` with step `k` newest and its block filled in. */
  ghost function Held(w: World, k: nat): seq<int>
  {
    Ref(w, k).tokens + Fill(PLACEHOLDER, Unfilled(w, k))
  }

  /** `forwarding` as step `k` is launched ahead: its block is all placeholders. */
  ghost function HeldAhead(w: World, k: nat): seq<int>
    requires k > 0
  {
    Held(w, k - 1) + Fill(PLACEHOLDER, 1 + SlotsAt(w, k))
  }

  /** The snapshot step `k` travels with. */
  ghost function Frozen(w: World, k: nat): Snapshot
  {
    if k == 0 then Snapshot(w.prompt, None, w.chunkStart, w.chunkStart, 0, 1, PrefillStep)
    else
      var at, slots := |Held(w, k - 1)|, SlotsAt(w, k);
      Snapshot(HeldAhead(w, k), Some(at), at, at, slots, 1 + slots, DecodeStep)
  }

  /** `LaunchScheduleOutput` freezes the fields right after the launch. */
  function Freeze(s: ReqState, ahead: bool): Snapshot
  {
    Snapshot(s.forwarding, if ahead && s.pendingPos != [] then Some(s.pendingPos[|s.pendingPos| - 1]) else None,
             s.kv, s.prefixLen, s.draftNum, s.sampling, s.kind)
  }

  ghost function OwnPos(w: World, k: nat): seq<nat>
  {
    if k == 0 then [] else [Ref(w, k).kv]
  }

  ghost function OwnDraft(w: World, k: nat): seq<nat>
  {
    if k == 0 then [] else [SlotsAt(w, k)]
  }

  /** The queue tiles the tail of `forwarding`, one block per step in flight that carries one. */
  ghost predicate QueueMatches(w: World, s: ReqState, r: nat, l: nat)
  {
    && r + 1 <= l <= r + 2
    && s.forwarding == (if l == r + 1 then Held(w, r) else HeldAhead(w, r + 1))
    && s.pendingPos == OwnPos(w, r) + (if l == r + 1 then [] else [|Held(w, r)|])
    && s.pendingDraft == OwnDraft(w, r) + (if l == r + 1 then [] else [SlotsAt(w, r + 1)])
  }

  /** Cached prefix and draft count: after a retire, those of the step just backfilled, with every reserved
      slot counted; after an ahead launch, those of the new block. Before the first retire the cached prefix
      depends on whether a prefill chunk was retired behind the last one. */
  ghost predicate KvMatches(w: World, s: ReqState, r: nat, l: nat)
  {
    && (l > r + 1 ==> s.kv == |Held(w, r)|) && (l == r + 1 && r > 0 ==> s.kv == Ref(w, r).kv)
    && s.draftNum == (if l > r + 1 then SlotsAt(w, r + 1) else if r > 0 then SlotsAt(w, r) else 0)
  }

  /** Nothing is planned, or step `l` with its drafts. */
  ghost predicate PlannedFits(w: World, task: Workload, l: nat)
  {
    task.prefill == 0 && (task.generated == task.draft == 0 || (task.generated == 1 && task.draft == SlotsAt(w, l)))
  }

  /** Steps `r .. l-1` are in flight and the results of the first `r` have been retired. */
  ghost predicate InPipeline(w: World, s: ReqState, r: nat, l: nat)
  {
    && QueueMatches(w, s, r, l) && KvMatches(w, s, r, l)
    && s.output == Output(w, r) && !s.eos && s.generated == [] && s.stage == (if r == 0 then Context else Decode)
    && |s.inflight| == l - r
    && (r == 0 ==> s.inflight[0].prefill > 0 && IsLastChunk(s.inflight[0], |s.prefilling|))
    && (forall i :: 0 <= i < |s.inflight| && r + i > 0 ==> s.inflight[i].prefill == 0)
    && (r == 0 ==> s.inflight[0].draft == 0)
    && (forall i :: 0 <= i < |s.inflight| && r + i > 0 ==> s.inflight[i].draft == SlotsAt(w, r + i))
    && s.planning.prefill == 0 && s.remaining.prefill == 0 && s.remaining.offset == |s.prefilling|
    && PlannedFits(w, s.planned, l)
  }

  /** Each block ends where the next one starts, the last one at the end of `forwarding`. */
  predicate QueueTiles(s: ReqState)
  {
    && QueueWellFormed(s)
    && forall i :: 0 <= i < |s.pendingPos| ==>
         s.pendingPos[i] + 1 + s.pendingDraft[i] ==
         if i + 1 < |s.pendingPos| then s.pendingPos[i + 1] else |s.forwarding|
  }

  /** The blocks reserve, in order, what the newest steps in flight were launched with. */
  predicate BlocksMatchTasks(s: ReqState)
  {
    && |s.pendingDraft| <= |s.inflight|
    && forall i :: 0 <= i < |s.pendingDraft| ==>
         s.pendingDraft[i] == s.inflight[|s.inflight| - |s.pendingDraft| + i].draft
  }

  lemma HeldLength(w: World, k: nat)
    requires WorldOk(w) && k > 0
    ensures |Held(w, k)| == Ref(w, k).kv + 1 + SlotsAt(w, k)
  {
  }

  /** A filled block starts with a real token. */
  lemma HeldStartsReal(w: World, k: nat)
    requires WorldOk(w) && k > 0
    ensures Ref(w, k).kv < |Held(w, k)| && Held(w, k)[Ref(w, k).kv] != PLACEHOLDER
  {
    HeldSplit(w, k);
    assert WellFormedResult(Ref(w, k - 1), Result(w, k - 1));
    assert Held(w, k)[|Prefix(w, k)|] == Result(w, k - 1).bonus;
  }

  lemma FrontIsFilled(w: World, s: ReqState, r: nat, l: nat)
    requires WorldOk(w) && InPipeline(w, s, r, l) && r > 0
    ensures s.pendingPos != [] && !FrontAwaitsPredecessor(s)
  {
    HeldStartsReal(w, r);
  }

  lemma BlocksAreTasks(w: World, s: ReqState, r: nat, l: nat)
    requires InPipeline(w, s, r, l)
    ensures BlocksMatchTasks(s) && |s.pendingPos| == |s.pendingDraft| == l - Max(r, 1)
  {
  }

  /** The queue tiles the tail, and its front awaits its predecessor only before the first block's retire. */
  lemma QueueTilesTail(w: World, s: ReqState, r: nat, l: nat)
    requires WorldOk(w) && InPipeline(w, s, r, l)
    ensures QueueTiles(s) && BlocksMatchTasks(s) && |s.pendingPos| == l - Max(r, 1)
    ensures s.pendingPos != [] ==> (FrontAwaitsPredecessor(s) <==> r == 0)
  {
    BlocksAreTasks(w, s, r, l);
    if r > 0 {
      HeldLength(w, r);
      FrontIsFilled(w, s, r, l);
    }
  }

  /** The cached prefix is the output without its last token. */
  predicate CachedPrefixIsOutput(s: ReqState)
  {
    && s.kv <= |s.forwarding| && s.output != []
    && s.forwarding[..s.kv] == s.output[..|s.output| - 1]
  }

  // ---- Launching ahead ----

  /** An ahead launch reserves the next block and freezes exactly the snapshot its step travels with. */
  lemma LaunchAhead(w: World, s: ReqState, r: nat)
    requires InPipeline(w, s, r, r + 1) && !s.planned.IsEmpty()
    ensures CanLaunch(s, true)
    ensures var t := Launch(s, true, true);
            InPipeline(w, t, r, r + 2) && Freeze(t, true) == Frozen(w, r + 1)
  {
    assert s.planned.draft == SlotsAt(w, r + 1);
  }

  /** Every token before the block of step `k` is a real one exactly when the block before it was filled and
      its depth-1 input has no placeholder. */
  lemma HeldIsReal(w: World, k: nat)
    ensures PLACEHOLDER !in Held(w, k) <==> Unfilled(w, k) == 0 && PLACEHOLDER !in Ref(w, k).tokens
  {
    var tokens := Held(w, k);
    assert forall i :: 0 <= i < |Ref(w, k).tokens| ==> tokens[i] == Ref(w, k).tokens[i];
    if Unfilled(w, k) > 0 {
      assert tokens[|Ref(w, k).tokens|] == PLACEHOLDER;
    }
  }

  /** Scanning a launched snapshot for the first -1 finds the offset it travels with, and -1 stands in its
      newest block and nowhere else, exactly when every token before that block is a real one. */
  lemma ScanFindsNewestBlock(w: World, k: nat)
    requires k > 0
    ensures var f := Frozen(w, k);
            && (FirstPlaceholder(f.forwarding, 0) == f.placeholder <==> PLACEHOLDER !in Held(w, k - 1))
            && ((forall i :: 0 <= i < |f.forwarding| ==> (f.forwarding[i] == PLACEHOLDER <==> i >= f.placeholder.value))
                <==> PLACEHOLDER !in Held(w, k - 1))
  {
    var tokens, held := Frozen(w, k).forwarding, Held(w, k - 1);
    assert tokens[|held|] == PLACEHOLDER;
    assert forall i :: 0 <= i < |held| ==> tokens[i] == held[i];
    if PLACEHOLDER in held {
      var i :| 0 <= i < |held| && held[i] == PLACEHOLDER;
      assert tokens[i] == PLACEHOLDER;
    }
  }

  /** -1 stands in a launched snapshot's newest block and nowhere else, and scanning for it finds the offset
      the snapshot carries, exactly when the block before was filled, if real tokens are never -1. */
  lemma PlaceholdersOnlyInNewestBlock(w: World, k: nat)
    requires WorldOk(w) && NoPlaceholders(w) && k > 0
    ensures var f := Frozen(w, k);
            && (FirstPlaceholder(f.forwarding, 0) == f.placeholder <==> Unfilled(w, k - 1) == 0)
            && ((forall i :: 0 <= i < |f.forwarding| ==> (f.forwarding[i] == PLACEHOLDER <==> i >= f.placeholder.value))
                <==> Unfilled(w, k - 1) == 0)
  {
    RefHasNoPlaceholder(w, k - 1);
    HeldIsReal(w, k - 1);
    ScanFindsNewestBlock(w, k);
  }

  // ---- What a step travels with, and what it was planned to do ----

  /** The snapshot tells the Executor what the launched step is: a middle prefill chunk samples nothing, a decode
      step brings no prompt token, and whatever else is launched is the end of a prefill. */
  predicate Announces(snap: Snapshot, task: Workload)
  {
    && snap.sampling == task.sampling && snap.draftNum == task.draft
    && (snap.kind == PrefillChunkMid <==> task.sampling == 0)
    && (snap.kind == DecodeStep <==> task.prefill == 0)
  }

  /** Every step in flight travelled with a snapshot that announces it. */
  predicate TasksAnnounced(s: ReqState, sent: seq<Snapshot>, retired: nat)
  {
    && |sent| == retired + |s.inflight|
    && forall i :: 0 <= i < |s.inflight| ==> Announces(sent[retired + i], s.inflight[i])
  }

  /** A launch of any kind sends a snapshot that announces it. */
  lemma LaunchAnnounces(s: ReqState, ahead: bool, fastPath: bool, sent: seq<Snapshot>, retired: nat)
    requires CanLaunch(s, ahead) && TasksAnnounced(s, sent, retired)
    ensures var t := Launch(s, ahead, fastPath);
            TasksAnnounced(t, sent + [Freeze(t, ahead)], retired)
  {
    var t, n := Launch(s, ahead, fastPath), |s.inflight|;
    assert t.inflight[..n] == s.inflight && Announces(Freeze(t, ahead), t.inflight[n]);
  }

  lemma RetireAnnounces(s: ReqState, t: ReqState, sent: seq<Snapshot>, retired: nat)
    requires s.inflight != [] && TasksAnnounced(s, sent, retired) && t.inflight == s.inflight[1..]
    ensures TasksAnnounced(t, sent, retired + 1)
  {
  }

  // ---- Retiring ----

  function Received(s: ReqState, r: StepResult): ReqState
  {
    Deliver(s, r.accepted, [r.bonus], r.drafts)
  }

  lemma HeldSplit(w: World, k: nat)
    requires WorldOk(w) && k > 0
    ensures var res := Result(w, k - 1);
            && Ref(w, k).kv == |Prefix(w, k)|
            && Held(w, k) ==
               Prefix(w, k) + [res.bonus] + TakenDrafts(res, SlotsAt(w, k)) + Fill(PLACEHOLDER, Unfilled(w, k))
            && |TakenDrafts(res, SlotsAt(w, k))| + Unfilled(w, k) == SlotsAt(w, k)
  {
    RefShape(w, k);
  }

  /** Filling a reserved block gives what the Engine holds for that step. */
  lemma FillReserved(w: World, k: nat, before: seq<int>)
    requires WorldOk(w) && k > 0 && before == Prefix(w, k)
    ensures var res := Result(w, k - 1);
            Overwrite(before + Fill(PLACEHOLDER, 1 + SlotsAt(w, k)), |before|,
                      BlockFill(res.bonus, res.drafts, SlotsAt(w, k))) == Held(w, k)
  {
    HeldSplit(w, k);
    var res := Result(w, k - 1);
    var fill := BlockFill(res.bonus, res.drafts, SlotsAt(w, k));
    assert fill == [res.bonus] + TakenDrafts(res, SlotsAt(w, k));
    assert Fill(PLACEHOLDER, 1 + SlotsAt(w, k)) == Fill(PLACEHOLDER, |fill|) + Fill(PLACEHOLDER, Unfilled(w, k));
    OverwriteMiddle(before, Fill(PLACEHOLDER, |fill|), Fill(PLACEHOLDER, Unfilled(w, k)), fill);
    assert before + Fill(PLACEHOLDER, 1 + SlotsAt(w, k))
        == before + Fill(PLACEHOLDER, |fill|) + Fill(PLACEHOLDER, Unfilled(w, k));
  }

  /** What a retire through the successor's block leaves. */
  lemma BackfillLeaves(d: ReqState, stops: seq<int>)
    requires CanRetire(d) && !d.eos && !IsSplitPrefill(d) && d.pendingPos != [] && FrontAwaitsPredecessor(d)
    requires d.generated != []
    ensures var t := PopInflight(Retire(d, stops));
            && t.forwarding ==
               Overwrite(d.forwarding, d.pendingPos[0], BlockFill(d.generated[0], d.drafts, d.pendingDraft[0]))
            && t.output == d.output + d.generated && (t.eos <==> t.output[|t.output| - 1] in stops)
            && t.pendingPos == d.pendingPos && t.pendingDraft == d.pendingDraft && t.generated == []
            && t.stage == Decode && t.kv == d.kv && t.draftNum == d.draftNum && t.inflight == d.inflight[1..]
            && t.planned == d.planned && t.prefilling == d.prefilling && t.planning.prefill == 0
            && t.remaining.prefill == d.remaining.prefill && t.remaining.offset == d.remaining.offset
  {
  }

  /** The front block awaits the step before it, which retires next. */
  lemma FirstBlockAwaits(w: World, s: ReqState)
    requires WorldOk(w) && InPipeline(w, s, 0, 2)
    ensures var d := Received(s, Result(w, 0));
            CanRetire(d) && !IsSplitPrefill(d) && FrontAwaitsPredecessor(d)
  {
  }

  lemma FirstState(w: World, s: ReqState, t: ReqState)
    requires WorldOk(w) && InPipeline(w, s, 0, 2)
    requires t.forwarding == Held(w, 1) && t.output == Output(w, 1) && t.generated == [] && t.stage == Decode
    requires t.pendingPos == s.pendingPos && t.pendingDraft == s.pendingDraft
    requires t.kv == s.kv && t.draftNum == s.draftNum && t.inflight == s.inflight[1..]
    requires t.planned == s.planned && t.prefilling == s.prefilling && t.planning.prefill == 0
    requires t.remaining.prefill == s.remaining.prefill && t.remaining.offset == s.remaining.offset
    ensures |t.pendingPos| == |t.inflight| == 1 && QueueTiles(t) && BlocksMatchTasks(t) && CachedPrefixIsOutput(t)
    ensures !t.eos ==> InPipeline(w, t, 1, 2)
  {
    assert WellFormedResult(Ref(w, 0), Result(w, 0));
    assert Prefix(w, 1) == w.prompt == Held(w, 0);
    HeldSplit(w, 1);
    OutputIsPrefix(w, 1);
  }

  lemma FillsFirst(w: World, s: ReqState)
    requires WorldOk(w) && InPipeline(w, s, 0, 2)
    ensures var res := Result(w, 0);
            && |w.prompt| + 1 + SlotsAt(w, 1) == |s.forwarding|
            && Overwrite(s.forwarding, |w.prompt|, BlockFill(res.bonus, res.drafts, SlotsAt(w, 1))) == Held(w, 1)
            && Output(w, 1) == w.prompt + [res.bonus]
  {
    assert WellFormedResult(Ref(w, 0), Result(w, 0));
    assert Prefix(w, 1) == w.prompt == Held(w, 0);
    FillReserved(w, 1, w.prompt);
  }

  /** The step before the first block retires by filling that block. */
  lemma RetireFirst(w: World, s: ReqState)
    requires WorldOk(w) && InPipeline(w, s, 0, 2)
    ensures var d := Received(s, Result(w, 0));
            && CanRetire(d) && FrontAwaitsPredecessor(d)
            && var t := PopInflight(Retire(d, w.stops));
               && t.output == Output(w, 1) && (t.eos <==> Result(w, 0).bonus in w.stops)
               && |t.pendingPos| == |t.inflight| == 1 && QueueTiles(t) && BlocksMatchTasks(t)
               && (!t.eos ==> InPipeline(w, t, 1, 2))
               && CachedPrefixIsOutput(t) && t.stage == Decode
  {
    FirstBlockAwaits(w, s);
    FillsFirst(w, s);
    var d := Received(s, Result(w, 0));
    BackfillLeaves(d, w.stops);
    FirstState(w, s, PopInflight(Retire(d, w.stops)));
  }

  /** What follows step `r`'s own block. */
  ghost function Behind(w: World, r: nat, l: nat): seq<int>
  {
    if l == r + 1 then [] else Fill(PLACEHOLDER, 1 + SlotsAt(w, r + 1))
  }

  /** A step's own block, split where the accepted drafts end. */
  lemma OwnBlock(w: World, r: nat) returns (main: seq<int>, rejected: seq<int>)
    requires WorldOk(w) && r > 0
    ensures Held(w, r) == main + (Result(w, r).accepted + rejected)
    ensures |Result(w, r).accepted| + |rejected| == SlotsAt(w, r)
    ensures Prefix(w, r + 1) == main + Result(w, r).accepted
    ensures |main| == Ref(w, r).kv + 1 && main[Ref(w, r).kv] == Result(w, r - 1).bonus != PLACEHOLDER
  {
    var x, res := Ref(w, r), Result(w, r);
    assert WellFormedResult(Ref(w, r - 1), Result(w, r - 1));
    main := Prefix(w, r) + [Result(w, r - 1).bonus];
    var drafts := TakenDrafts(Result(w, r - 1), SlotsAt(w, r));
    HeldSplit(w, r);
    RefShape(w, r);
    assert WellFormedResult(x, res) && Drafts(x) == drafts;
    rejected := drafts[|res.accepted|..] + Fill(PLACEHOLDER, Unfilled(w, r));
    assert drafts == res.accepted + drafts[|res.accepted|..];
    assert Held(w, r) == main + (res.accepted + rejected);
    assert Prefix(w, r + 1) == main + res.accepted;
  }

  /** The front block of `d` is `[..|accepted|rejected]` behind `main`, and `tail` follows it. */
  predicate FrontBlock(d: ReqState, main: seq<int>, rejected: seq<int>, tail: seq<int>)
  {
    && QueueWellFormed(d) && 1 <= |d.pendingPos| <= 2
    && d.forwarding == main + (d.accepted + rejected) + tail
    && d.pendingPos[0] + 1 == |main| && d.pendingDraft[0] == |d.accepted| + |rejected|
    && (|d.pendingPos| == 2 ==>
          d.pendingPos[1] == |main| + |d.accepted| + |rejected| && |tail| == 1 + d.pendingDraft[1])
  }

  lemma ShiftTail(pos: seq<nat>, start: nat, shift: nat)
    requires 1 <= |pos| <= 2 && (|pos| == 2 ==> start < pos[1] && shift <= pos[1])
    ensures ShiftPositions(pos[1..], start, shift) == if |pos| == 1 then [] else [pos[1] - shift]
  {
  }

  lemma FrontBlockInRange(d: ReqState, main: seq<int>, rejected: seq<int>, tail: seq<int>)
    requires FrontBlock(d, main, rejected, tail)
    ensures CanRetireOwn(d)
  {
    assert |d.forwarding| == |main| + |d.accepted| + |rejected| + |tail|;
  }

  lemma TrimmedParts(d: ReqState)
    requires d.pendingPos != [] && QueueWellFormed(d) && CanRetireOwn(d)
    ensures var from, kept, slots := d.pendingPos[0] + 1, |d.accepted|, d.pendingDraft[0];
            && TrimOwn(d).forwarding == Erase(Overwrite(d.forwarding, from, d.accepted), from + kept, from + slots)
            && TrimOwn(d).pendingPos == ShiftPositions(d.pendingPos[1..], d.pendingPos[0], slots - kept)
  {
  }

  lemma TrimFrontBlock(d: ReqState, main: seq<int>, rejected: seq<int>, tail: seq<int>)
    requires FrontBlock(d, main, rejected, tail)
    ensures CanRetireOwn(d)
    ensures TrimOwn(d).forwarding == main + d.accepted + tail
    ensures TrimOwn(d).pendingPos == if |d.pendingPos| == 1 then [] else [|main| + |d.accepted|]
  {
    FrontBlockInRange(d, main, rejected, tail);
    TrimmedParts(d);
    TrimSlots(main, d.accepted, rejected, tail);
    ShiftTail(d.pendingPos, d.pendingPos[0], |rejected|);
  }

  /** Trimming a step's own block leaves the committed tokens, and the successor's block right behind them. */
  lemma TrimLeavesPrefix(w: World, s: ReqState, r: nat, l: nat)
    requires WorldOk(w) && r > 0 && InPipeline(w, s, r, l)
    ensures var d := Received(s, Result(w, r));
            && QueueWellFormed(d) && d.pendingPos != [] && CanRetireOwn(d) && !FrontAwaitsPredecessor(d)
            && TrimOwn(d).forwarding == Prefix(w, r + 1) + Behind(w, r, l)
            && TrimOwn(d).pendingPos == (if l == r + 1 then [] else [|Prefix(w, r + 1)|])
            && d.pendingPos[0] + 1 + |d.accepted| == |Prefix(w, r + 1)|
  {
    var main, rejected := OwnBlock(w, r);
    var d := Received(s, Result(w, r));
    assert d.forwarding == Held(w, r) + Behind(w, r, l);
    TrimFrontBlock(d, main, rejected, Behind(w, r, l));
  }

  /** What retiring a step with a block leaves in `forwarding`: the committed tokens, then the successor's
      block filled in, if one is in flight. */
  lemma RetireOwnTokens(w: World, s: ReqState, r: nat, l: nat)
    requires WorldOk(w) && r > 0 && InPipeline(w, s, r, l)
    ensures var d := Received(s, Result(w, r));
            && QueueWellFormed(d) && d.pendingPos != [] && CanRetireOwn(d)
            && FillFront(TrimOwn(d)).forwarding == if l == r + 1 then Prefix(w, r + 1) else Held(w, r + 1)
  {
    TrimLeavesPrefix(w, s, r, l);
    if l == r + 2 {
      FillReserved(w, r + 1, Prefix(w, r + 1));
    }
  }

  /** What an own-block retire leaves of the tokens. */
  lemma RetireOwnEmits(d: ReqState, stops: seq<int>)
    requires d.pendingPos != [] && QueueWellFormed(d) && CanRetireOwn(d) && d.generated != [] && !d.eos
    ensures var t := RetireOwn(d, stops);
            && t.output == d.output + d.accepted + d.generated && (t.eos <==> t.output[|t.output| - 1] in stops)
            && t.forwarding == FillFront(TrimOwn(d)).forwarding
            && t.kv == d.pendingPos[0] + 1 + |d.accepted|
            && |t.pendingPos| == |t.pendingDraft| == |d.pendingPos| - 1
  {
  }

  lemma RetiresOwn(w: World, s: ReqState, r: nat, l: nat)
    requires WorldOk(w) && r > 0 && InPipeline(w, s, r, l)
    ensures var d := Received(s, Result(w, r));
            && d.pendingPos != [] && QueueWellFormed(d) && CanRetireOwn(d) && CanRetire(d)
            && Retire(d, w.stops) == RetireOwn(d, w.stops)
  {
    TrimLeavesPrefix(w, s, r, l);
  }

  /** A step with a block retires by trimming it and filling its successor's, if one is in flight. */
  lemma RetireWithBlock(w: World, s: ReqState, r: nat, l: nat)
    requires WorldOk(w) && r > 0 && InPipeline(w, s, r, l)
    ensures var d := Received(s, Result(w, r));
            && CanRetire(d)
            && var t := PopInflight(Retire(d, w.stops));
               && t.output == Output(w, r + 1) && (t.eos <==> Result(w, r).bonus in w.stops)
               && |t.pendingPos| == |t.inflight| == l - r - 1 && QueueWellFormed(t)
               && t.kv == |Prefix(w, r + 1)|
               && t.forwarding == if l == r + 1 then Prefix(w, r + 1) else Held(w, r + 1)
  {
    var d := Received(s, Result(w, r));
    RetiresOwn(w, s, r, l);
    TrimLeavesPrefix(w, s, r, l);
    RetireOwnTokens(w, s, r, l);
    RetireOwnEmits(d, w.stops);
    RetireOwnLeaves(d, w.stops);
  }

  /** What an own-block retire leaves of the queue and of the workloads. */
  lemma RetireOwnLeaves(d: ReqState, stops: seq<int>)
    requires d.pendingPos != [] && QueueWellFormed(d) && CanRetireOwn(d)
    ensures var t := PopInflight(RetireOwn(d, stops));
            && t.pendingPos == TrimOwn(d).pendingPos && t.pendingDraft == d.pendingDraft[1..] && t.generated == []
            && t.stage == Decode
            && t.draftNum == (if |t.forwarding| - t.kv > 1 then |t.forwarding| - t.kv - 1 else 0)
            && t.planned == d.planned && t.prefilling == d.prefilling && t.planning.prefill == 0
            && t.remaining.prefill == d.remaining.prefill && t.remaining.offset == d.remaining.offset
            && t.inflight == if d.inflight == [] then [] else d.inflight[1..]
  {
  }

  /** With its successor in flight, the retired step leaves the pipeline one step further. */
  lemma RetireAdvances(w: World, s: ReqState, r: nat)
    requires WorldOk(w) && r > 0 && InPipeline(w, s, r, r + 2) && Result(w, r).bonus !in w.stops
    ensures var d := Received(s, Result(w, r));
            CanRetire(d) && InPipeline(w, PopInflight(Retire(d, w.stops)), r + 1, r + 2)
  {
    RetireWithBlock(w, s, r, r + 2);
    TrimLeavesPrefix(w, s, r, r + 2);
    var d := Received(s, Result(w, r));
    RetiresOwn(w, s, r, r + 2);
    RetireOwnLeaves(d, w.stops);
    AdvancedState(w, s, PopInflight(RetireOwn(d, w.stops)), r);
  }

  lemma AdvancedState(w: World, s: ReqState, t: ReqState, r: nat)
    requires WorldOk(w) && r > 0 && InPipeline(w, s, r, r + 2)
    requires t.output == Output(w, r + 1) && !t.eos && t.kv == |Prefix(w, r + 1)| && t.forwarding == Held(w, r + 1)
    requires t.pendingPos == [|Prefix(w, r + 1)|] && t.pendingDraft == s.pendingDraft[1..] && t.generated == []
    requires t.stage == Decode
    requires t.draftNum == (if |t.forwarding| - t.kv > 1 then |t.forwarding| - t.kv - 1 else 0)
    requires t.planned == s.planned && t.prefilling == s.prefilling && t.planning.prefill == 0
    requires t.remaining.prefill == s.remaining.prefill && t.remaining.offset == s.remaining.offset
    requires t.inflight == s.inflight[1..]
    ensures InPipeline(w, t, r + 1, r + 2)
  {
    HeldSplit(w, r + 1);
  }

  lemma PrefixIsCached(w: World, t: ReqState, k: nat)
    requires WorldOk(w) && k > 0 && t.kv == |Prefix(w, k)| && t.output == Output(w, k)
    requires t.forwarding == Prefix(w, k) || t.forwarding == Held(w, k)
    ensures CachedPrefixIsOutput(t)
  {
    OutputIsPrefix(w, k);
    HeldSplit(w, k);
  }

  /** After an own-block retire the cached prefix is the output without its last token. */
  lemma RetireCachesOutput(w: World, s: ReqState, r: nat, l: nat)
    requires WorldOk(w) && r > 0 && InPipeline(w, s, r, l)
    ensures var d := Received(s, Result(w, r));
            CanRetire(d) && CachedPrefixIsOutput(PopInflight(Retire(d, w.stops)))
  {
    RetireWithBlock(w, s, r, l);
    PrefixIsCached(w, PopInflight(Retire(Received(s, Result(w, r)), w.stops)), r + 1);
  }

  /** The step before the first block, retired with no successor in flight. */
  lemma RetireAlone(w: World, s: ReqState)
    requires WorldOk(w) && InPipeline(w, s, 0, 1)
    ensures var d := Received(s, Result(w, 0));
            && CanRetire(d)
            && var t := PopInflight(Retire(d, w.stops));
               && t.output == Output(w, 1) && (t.eos <==> Result(w, 0).bonus in w.stops)
               && t.pendingPos == t.pendingDraft == [] && t.inflight == [] && CachedPrefixIsOutput(t)
               && t.stage == Decode
  {
    assert WellFormedResult(Ref(w, 0), Result(w, 0));
  }

  /** What retiring step `r` leaves, while no stop token has been seen before. */
  ghost predicate AfterRetire(w: World, t: ReqState, r: nat, l: nat)
  {
    && |t.inflight| == l - r - 1 && QueueTiles(t) && BlocksMatchTasks(t) && |t.pendingPos| == |t.inflight|
    && t.output == Output(w, r + 1) && (t.eos <==> Result(w, r).bonus in w.stops) && CachedPrefixIsOutput(t)
    && t.stage == Decode && (!t.eos && l == r + 2 ==> InPipeline(w, t, r + 1, l))
  }

  lemma TiledAfter(w: World, s: ReqState, t: ReqState, r: nat, l: nat)
    requires WorldOk(w) && r > 0 && InPipeline(w, s, r, l)
    requires t.pendingPos == (if l == r + 1 then [] else [|Prefix(w, r + 1)|])
    requires t.pendingDraft == s.pendingDraft[1..] && t.inflight == s.inflight[1..]
    requires t.forwarding == if l == r + 1 then Prefix(w, r + 1) else Held(w, r + 1)
    ensures QueueTiles(t) && BlocksMatchTasks(t)
  {
    HeldSplit(w, r + 1);
  }

  /** Whatever the result, the queue still tiles the tail and matches the steps in flight. */
  lemma RetireTiles(w: World, s: ReqState, r: nat, l: nat)
    requires WorldOk(w) && r > 0 && InPipeline(w, s, r, l)
    ensures var d := Received(s, Result(w, r));
            && CanRetire(d)
            && var t := PopInflight(Retire(d, w.stops));
               QueueTiles(t) && BlocksMatchTasks(t) && t.stage == Decode
  {
    var d := Received(s, Result(w, r));
    RetireWithBlock(w, s, r, l);
    RetiresOwn(w, s, r, l);
    TrimLeavesPrefix(w, s, r, l);
    RetireOwnLeaves(d, w.stops);
    TiledAfter(w, s, PopInflight(RetireOwn(d, w.stops)), r, l);
  }

  lemma RetireLater(w: World, s: ReqState, r: nat, l: nat)
    requires WorldOk(w) && r > 0 && InPipeline(w, s, r, l)
    ensures var d := Received(s, Result(w, r));
            CanRetire(d) && AfterRetire(w, PopInflight(Retire(d, w.stops)), r, l)
  {
    RetireWithBlock(w, s, r, l);
    RetireCachesOutput(w, s, r, l);
    RetireTiles(w, s, r, l);
    if l == r + 2 && Result(w, r).bonus !in w.stops {
      RetireAdvances(w, s, r);
    }
  }

  /** Every retire before a stop token, whatever is in flight behind it. */
  lemma RetireLive(w: World, s: ReqState, r: nat, l: nat)
    requires WorldOk(w) && InPipeline(w, s, r, l)
    ensures var d := Received(s, Result(w, r));
            CanRetire(d) && AfterRetire(w, PopInflight(Retire(d, w.stops)), r, l)
  {
    if r > 0 {
      RetireLater(w, s, r, l);
    } else if l == 1 {
      RetireAlone(w, s);
    } else {
      RetireFirst(w, s);
    }
  }

  // ---- Retiring past a stop token ----

  /** After a stop token every step still in flight drains: it adds nothing and its block leaves the queue. */
  lemma DrainKeeps(s: ReqState, accepted: seq<int>, generated: seq<int>, drafts: seq<int>, stops: seq<int>)
    requires s.eos && s.inflight != [] && QueueWellFormed(s) && |s.pendingPos| == |s.inflight|
    ensures var d := Deliver(s, accepted, generated, drafts);
            && CanRetire(d)
            && var t := PopInflight(Retire(d, stops));
               && t.output == s.output && t.forwarding == s.forwarding && t.kv == s.kv && t.eos
               && t.generated == t.accepted == t.drafts == [] && t.stage == s.stage
               && QueueWellFormed(t) && |t.pendingPos| == |t.inflight| == |s.inflight| - 1
  {
  }
}
