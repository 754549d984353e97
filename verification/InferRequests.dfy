/** The Engine's request: planning, launching and retiring steps over `forwarding_tokens`. */
module InferRequests {
  import opened Tokens

  /** Tokens one scheduled step is planned to process (`ScheduleTaskWorkload`). */
  datatype Workload = Workload(prefill: nat, offset: nat, generated: nat, draft: nat, sampling: nat) {
    predicate IsEmpty() { prefill == 0 && generated == 0 && draft == 0 }
  }

  const NO_WORK := Workload(0, 0, 0, 0, 0)

  datatype Stage = Context | Decode

  /** Most steps of one request that may be in flight (`kMaxInflightDepth`). */
  const MAX_INFLIGHT_DEPTH: nat := 2

  /** The request's fields as one value. `inflight` lists the occupied slots, oldest first. */
  datatype ReqState = ReqState(
    forwarding: seq<int>,
    output: seq<int>,
    prefilling: seq<int>,
    generated: seq<int>,
    accepted: seq<int>,
    drafts: seq<int>,
    inflight: seq<Workload>,
    pendingPos: seq<nat>,
    pendingDraft: seq<nat>,
    planned: Workload,
    planning: Workload,
    remaining: Workload,
    eos: bool,
    stage: Stage,
    kind: StepKind,
    kv: nat,
    prefixLen: nat,
    draftNum: nat,
    sampling: nat)

  // ---- Specification: one function per operation ----

  /** Forgets every launched, reserved or planned step. */
  function ClearSteps(s: ReqState): ReqState
  {
    s.(forwarding := [], generated := [], accepted := [], drafts := [], pendingPos := [], pendingDraft := [],
       inflight := [], planned := NO_WORK, eos := false, draftNum := 0)
  }

  /** Queues all output so far for prefill. */
  function QueuePrefill(s: ReqState, customLogits: nat): ReqState
  {
    var work := Workload(|s.output|, 0, 0, 0, Max(1 + |s.drafts|, customLogits));
    s.(stage := Context, kind := PrefillStep, prefilling := s.output, kv := 0, prefixLen := 0,
       remaining := work, planning := work, sampling := work.sampling)
  }

  /** `ResetPrefillingTokens`, shared by a new request and a recomputed one. */
  function Reset(s: ReqState, customLogits: nat): ReqState
  {
    QueuePrefill(ClearSteps(s), customLogits)
  }

  predicate CanPlan(s: ReqState)
  {
    && s.planned.IsEmpty()
    && s.planning.prefill <= s.remaining.prefill
    && s.remaining.prefill + s.remaining.offset == |s.prefilling|
  }

  function Plan(s: ReqState): ReqState
    requires CanPlan(s)
  {
    s.(planned := s.planning,
       planning := NO_WORK,
       remaining := s.remaining.(prefill := s.remaining.prefill - s.planning.prefill,
                                 offset := s.remaining.offset + s.planning.prefill,
                                 generated := 0, draft := 0))
  }

  function Estimate(s: ReqState, generated: nat, draft: nat): ReqState
  {
    s.(planning := s.planning.(generated := generated, draft := draft),
       remaining := s.remaining.(generated := generated, draft := draft))
  }

  /** What `LaunchPlanningTask` checks before it runs, and the ranges it reads. */
  predicate CanLaunch(s: ReqState, ahead: bool)
  {
    && !s.planned.IsEmpty()
    && |s.inflight| < MAX_INFLIGHT_DEPTH
    && (ahead ==> s.inflight != [])
    && if s.planned.prefill > 0
       then s.planned.offset + s.planned.prefill <= |s.prefilling|
       else |s.generated| <= s.planned.generated + s.planned.draft && (ahead ==> |s.generated| <= 1)
  }

  predicate IsLastChunk(task: Workload, total: nat)
  {
    task.prefill + task.offset >= total
  }

  /** The chunk continues what is forwarded, or jumps ahead behind a cache hit. */
  function Grow(s: ReqState, task: Workload): ReqState
    requires task.offset + task.prefill <= |s.prefilling|
  {
    var next := task.offset + task.prefill;
    if |s.forwarding| == task.offset then s.(forwarding := s.forwarding + s.prefilling[task.offset..next])
    else s.(forwarding := s.prefilling[..next], kv := task.offset, prefixLen := task.offset)
  }

  function LaunchPrefill(s: ReqState, task: Workload): (r: (ReqState, Workload))
    requires task.offset + task.prefill <= |s.prefilling|
  {
    var grown := Grow(s, task);
    if IsLastChunk(task, |s.prefilling|) then
      (grown.(forwarding := grown.forwarding + s.drafts, kind := PrefillStep),
       task.(draft := |s.drafts|, sampling := 1 + |s.drafts|))
    else
      (grown.(kind := PrefillChunkMid), task.(sampling := 0))
  }

  function ReserveBlock(s: ReqState, task: Workload): (r: (ReqState, Workload))
  {
    (s.(forwarding := s.forwarding + Fill(PLACEHOLDER, 1 + task.draft),
        pendingPos := s.pendingPos + [|s.forwarding|],
        pendingDraft := s.pendingDraft + [task.draft]),
     task.(generated := 1, sampling := 1 + task.draft))
  }

  function AppendTokens(s: ReqState, task: Workload): (r: (ReqState, Workload))
    requires |s.generated| <= task.generated + task.draft
  {
    var taken := Min(task.generated + task.draft - |s.generated|, |s.drafts|);
    (s.(forwarding := s.forwarding + s.generated + s.drafts[..taken], drafts := s.drafts[..taken]),
     task.(generated := |s.generated|, draft := taken, sampling := 1 + taken))
  }

  function LaunchDecode(s: ReqState, task: Workload, reserve: bool): (r: (ReqState, Workload))
    requires |s.generated| <= task.generated + task.draft
  {
    var r := if reserve then ReserveBlock(s, task) else AppendTokens(s, task);
    (r.0.(kind := DecodeStep), r.1)
  }

  function LaunchTask(s: ReqState, task: Workload, reserve: bool): (r: (ReqState, Workload))
    requires if task.prefill > 0 then task.offset + task.prefill <= |s.prefilling|
             else |s.generated| <= task.generated + task.draft
  {
    if task.prefill > 0 then LaunchPrefill(s, task) else LaunchDecode(s, task, reserve)
  }

  function Dequeue(s: ReqState): ReqState
  {
    s.(planned := NO_WORK, kv := |s.forwarding|, prefixLen := |s.forwarding|)
  }

  function Enqueue(s: ReqState, task: Workload): ReqState
  {
    s.(inflight := s.inflight + [task], sampling := task.sampling, draftNum := task.draft)
  }

  /** `LaunchPlanningTask`. */
  function Launch(s: ReqState, ahead: bool, fastPath: bool): ReqState
    requires CanLaunch(s, ahead)
  {
    var (s1, task) := LaunchTask(Dequeue(s), s.planned, ahead && fastPath && s.generated == []);
    Enqueue(s1, task)
  }

  predicate IsSplitPrefill(s: ReqState)
  {
    s.inflight != [] && s.inflight[0].prefill > 0 && !IsLastChunk(s.inflight[0], |s.prefilling|)
  }

  /** The queue's front block still holds the sentinel and belongs to a successor in flight. */
  predicate FrontAwaitsPredecessor(s: ReqState)
    requires s.pendingPos != []
  {
    |s.inflight| > 1 && s.pendingPos[0] < |s.forwarding| && s.forwarding[s.pendingPos[0]] == PLACEHOLDER
  }

  predicate QueueWellFormed(s: ReqState)
  {
    |s.pendingPos| == |s.pendingDraft|
  }

  /** What retiring the oldest step checks, and the ranges it reads and writes. */
  predicate CanRetire(s: ReqState)
  {
    && s.inflight != []
    && QueueWellFormed(s)
    && (if s.eos || IsSplitPrefill(s) then true
        else if s.pendingPos == [] then
          s.inflight[0].draft > 0 ==> s.draftNum <= |s.forwarding|
        else if FrontAwaitsPredecessor(s) then
          s.pendingPos[0] + 1 + s.pendingDraft[0] <= |s.forwarding|
        else CanRetireOwn(s))
  }

  predicate CanRetireOwn(s: ReqState)
    requires s.pendingPos != [] && QueueWellFormed(s)
  {
    var end := s.pendingPos[0] + 1 + s.pendingDraft[0];
    && |s.accepted| <= s.pendingDraft[0]
    && end <= |s.forwarding|
    && (|s.pendingPos| > 1 ==> s.pendingPos[1] + 1 + s.pendingDraft[1] <= |s.forwarding|)
    && (forall i :: 0 < i < |s.pendingPos| ==> end <= s.pendingPos[i])
  }

  /** `main` and as many drafts as there are slots, as written over a reserved block. */
  function BlockFill(generated: int, drafts: seq<int>, slots: nat): seq<int>
  {
    [generated] + drafts[..Min(slots, |drafts|)]
  }

  function StopSeen(output: seq<int>, stops: seq<int>, eos: bool): bool
  {
    eos || (output != [] && output[|output| - 1] in stops)
  }

  /** Is the queue's front block, if any, inside `forwarding`? */
  predicate FrontInRange(s: ReqState)
  {
    QueueWellFormed(s) && (s.pendingPos != [] ==> s.pendingPos[0] + 1 + s.pendingDraft[0] <= |s.forwarding|)
  }

  /** Writes this step's bonus token and drafts over the queue's front block. */
  function FillFront(s: ReqState): ReqState
    requires FrontInRange(s)
  {
    if s.pendingPos == [] || s.generated == [] then s
    else s.(forwarding := Overwrite(s.forwarding, s.pendingPos[0],
                                    BlockFill(s.generated[0], s.drafts, s.pendingDraft[0])))
  }

  function EmitGenerated(s: ReqState, stops: seq<int>): ReqState
  {
    var output := s.output + s.generated;
    s.(output := output, eos := StopSeen(output, stops, s.eos))
  }

  /** The workload both block branches leave for the scheduler. */
  function FinishBlock(s: ReqState): ReqState
  {
    s.(remaining := s.remaining.(generated := |s.generated|, draft := |s.drafts|),
       planning := NO_WORK.(generated := |s.generated|, draft := |s.drafts|),
       generated := [])
  }

  /** `TryRetireBackfillNextPlaceholderBlock`, once its test has succeeded. */
  function Backfill(s: ReqState, stops: seq<int>): ReqState
    requires FrontInRange(s)
  {
    FinishBlock(EmitGenerated(FillFront(s.(stage := Decode)), stops))
  }

  function ShiftPositions(pos: seq<nat>, start: nat, shift: nat): (r: seq<nat>)
    requires forall i :: 0 <= i < |pos| && pos[i] > start ==> shift <= pos[i]
    ensures |r| == |pos|
    ensures forall i :: 0 <= i < |pos| ==> r[i] == if pos[i] > start then pos[i] - shift else pos[i]
  {
    seq(|pos|, i requires 0 <= i < |pos| => if pos[i] > start then pos[i] - shift else pos[i])
  }

  function PopFrontBlock(s: ReqState): ReqState
    requires s.pendingPos != [] && QueueWellFormed(s)
  {
    s.(pendingPos := s.pendingPos[1..], pendingDraft := s.pendingDraft[1..])
  }

  /** The accepted drafts stay in the block at `start`; the gap its rejected slots leave is closed. */
  function Compact(s: ReqState, start: nat, slots: nat): ReqState
    requires |s.accepted| <= slots && start + 1 + slots <= |s.forwarding|
    requires forall i :: 0 <= i < |s.pendingPos| ==> start + 1 + slots <= s.pendingPos[i]
  {
    s.(forwarding := Erase(Overwrite(s.forwarding, start + 1, s.accepted),
                           start + 1 + |s.accepted|, start + 1 + slots),
       pendingPos := ShiftPositions(s.pendingPos, start, slots - |s.accepted|))
  }

  function CommitAccepted(s: ReqState): ReqState
  {
    s.(output := s.output + s.accepted, accepted := [])
  }

  /** Pops the request's own block and commits its accepted drafts. */
  function TrimOwn(s: ReqState): ReqState
    requires s.pendingPos != [] && QueueWellFormed(s) && CanRetireOwn(s)
  {
    CommitAccepted(Compact(PopFrontBlock(s.(stage := Decode)), s.pendingPos[0], s.pendingDraft[0]))
  }

  function SettleKv(s: ReqState, kv: nat): ReqState
  {
    s.(kv := kv, draftNum := if |s.forwarding| - kv > 1 then |s.forwarding| - kv - 1 else 0)
  }

  /** `RetireOwnPlaceholderBlockAndShift`. */
  function RetireOwn(s: ReqState, stops: seq<int>): ReqState
    requires s.pendingPos != [] && QueueWellFormed(s) && CanRetireOwn(s)
  {
    FinishBlock(SettleKv(EmitGenerated(FillFront(TrimOwn(s)), stops), s.pendingPos[0] + 1 + |s.accepted|))
  }

  function RetireDrained(s: ReqState): ReqState
    requires QueueWellFormed(s)
  {
    s.(generated := [], accepted := [], drafts := [],
       pendingPos := if s.pendingPos == [] then [] else s.pendingPos[1..],
       pendingDraft := if s.pendingPos == [] then [] else s.pendingDraft[1..])
  }

  /** The tail shared by prefill chunks and steps that carry no block. */
  function AfterPlainRetire(s: ReqState): ReqState
  {
    var remaining := s.remaining.(generated := |s.generated|, draft := |s.drafts|);
    s.(kv := |s.forwarding|, remaining := remaining,
       planning := if remaining.prefill > 0 then NO_WORK.(prefill := remaining.prefill)
                   else NO_WORK.(generated := |s.generated|, draft := |s.drafts|))
  }

  /** A verified step's forwarding sequence is cut to its accepted drafts. */
  function CutRejected(s: ReqState): ReqState
    requires s.inflight != [] && (s.inflight[0].draft > 0 ==> s.draftNum <= |s.forwarding|)
  {
    if s.inflight[0].draft == 0 then s.(stage := Decode)
    else CommitAccepted(s.(forwarding := Resize(s.forwarding, |s.forwarding| - s.draftNum + |s.accepted|),
                           stage := Decode))
  }

  /** Retiring a step that carries no block. */
  function RetirePlain(s: ReqState, stops: seq<int>): ReqState
    requires s.inflight != [] && (s.inflight[0].draft > 0 ==> s.draftNum <= |s.forwarding|)
  {
    AfterPlainRetire(EmitGenerated(CutRejected(s), stops))
  }

  /** `UpdateAfterInflightTaskFinished`. */
  function Retire(s: ReqState, stops: seq<int>): ReqState
    requires CanRetire(s)
  {
    if s.eos then RetireDrained(s)
    else if IsSplitPrefill(s) then AfterPlainRetire(s.(generated := [], drafts := []))
    else if s.pendingPos == [] then RetirePlain(s, stops)
    else if FrontAwaitsPredecessor(s) then Backfill(s, stops)
    else RetireOwn(s, stops)
  }

  /** `ResetInflightTask`. */
  function PopInflight(s: ReqState): ReqState
  {
    if s.inflight == [] then s else s.(inflight := s.inflight[1..])
  }

  /** A step's result as the Engine receives it, just before it retires that step. */
  function Deliver(s: ReqState, accepted: seq<int>, generated: seq<int>, drafts: seq<int>): ReqState
  {
    s.(accepted := accepted, generated := generated, drafts := drafts)
  }

  // ---- The object the Engine updates in place ----

  class InferRequest {
    var forwardingTokens: seq<int>
    var outputTokens: seq<int>
    var prefillingTokens: seq<int>
    var generatedTokens: seq<int>
    var acceptedTokens: seq<int>
    /** The drafts of every source, as `GetDraftTokens` merges them. */
    var draftTokens: seq<int>
    const inflightTasks: array<Workload>
    var inflightCount: nat
    var pendingPlaceholderPositions: seq<nat>
    var pendingPlaceholderDraftNums: seq<nat>
    var planningTask: Workload
    var planningWorkload: Workload
    var remainingWorkload: Workload
    var isEosGenerated: bool
    var inferStage: Stage
    var forwardStepKind: StepKind
    var kvCachedTokenNum: nat
    var prefixCacheLen: nat
    var forwardingTokensDraftNum: nat
    var samplingTokenNum: nat
    const stopTokenIds: seq<int>
    const logitsCustomLength: nat
    const fastPathEnabled: bool

    ghost predicate Valid()
      reads this
    {
      inflightTasks.Length == MAX_INFLIGHT_DEPTH && inflightCount <= MAX_INFLIGHT_DEPTH
    }

    ghost function State(): (s: ReqState)
      reads this, inflightTasks
      requires Valid()
    {
      ReqState(forwardingTokens, outputTokens, prefillingTokens, generatedTokens, acceptedTokens, draftTokens,
               inflightTasks[..inflightCount], pendingPlaceholderPositions, pendingPlaceholderDraftNums,
               planningTask, planningWorkload, remainingWorkload, isEosGenerated, inferStage, forwardStepKind,
               kvCachedTokenNum, prefixCacheLen, forwardingTokensDraftNum, samplingTokenNum)
    }

    /** A fresh request: its input tokens are its output so far. */
    constructor (inputTokens: seq<int>, stops: seq<int>, customLogits: nat, fastPath: bool)
      ensures Valid() && fresh(inflightTasks)
      ensures State().output == inputTokens && State() == Reset(State(), customLogits)
      ensures stopTokenIds == stops && logitsCustomLength == customLogits && fastPathEnabled == fastPath
    {
      outputTokens := inputTokens;
      stopTokenIds, logitsCustomLength, fastPathEnabled := stops, customLogits, fastPath;
      inflightTasks := new Workload[MAX_INFLIGHT_DEPTH](_ => NO_WORK);
      inflightCount := 0;
      new;
      ResetPrefillingTokens();
    }

    method ClearInflight()
      requires Valid()
      modifies this`inflightCount, inflightTasks
      ensures Valid() && State() == old(State()).(inflight := [])
    {
      for i := 0 to inflightCount
        modifies inflightTasks
      {
        inflightTasks[i] := NO_WORK;
      }
      inflightCount := 0;
    }

    method DropTokens()
      requires Valid()
      modifies this`forwardingTokens, this`generatedTokens, this`acceptedTokens, this`draftTokens
      ensures Valid()
      ensures State() == old(State()).(forwarding := [], generated := [], accepted := [], drafts := [])
    {
      forwardingTokens := [];
      generatedTokens := [];
      acceptedTokens := [];
      draftTokens := [];
    }

    method PopPending()
      requires Valid() && pendingPlaceholderPositions != [] && QueueWellFormed(State())
      modifies this`pendingPlaceholderPositions, this`pendingPlaceholderDraftNums
      ensures Valid() && State() == PopFrontBlock(old(State()))
    {
      pendingPlaceholderPositions := pendingPlaceholderPositions[1..];
      pendingPlaceholderDraftNums := pendingPlaceholderDraftNums[1..];
    }

    method DropPending()
      requires Valid()
      modifies this`pendingPlaceholderPositions, this`pendingPlaceholderDraftNums
      ensures Valid() && State() == old(State()).(pendingPos := [], pendingDraft := [])
    {
      pendingPlaceholderPositions := [];
      pendingPlaceholderDraftNums := [];
    }

    method DiscardSteps()
      requires Valid()
      modifies this, inflightTasks
      ensures Valid() && State() == ClearSteps(old(State()))
    {
      DropTokens();
      DropPending();
      planningTask := NO_WORK;
      ClearInflight();
      isEosGenerated := false;
      forwardingTokensDraftNum := 0;
    }

    method EnterContext()
      requires Valid()
      modifies this`forwardStepKind, this`inferStage
      ensures Valid() && State() == old(State()).(stage := Context, kind := PrefillStep)
    {
      forwardStepKind := PrefillStep;
      inferStage := Context;
    }

    method RestartTokens()
      requires Valid()
      modifies this`prefillingTokens, this`kvCachedTokenNum, this`prefixCacheLen
      ensures Valid() && State() == old(State()).(prefilling := old(State()).output, kv := 0, prefixLen := 0)
    {
      prefillingTokens := outputTokens;
      kvCachedTokenNum, prefixCacheLen := 0, 0;
    }

    method RestartWorkloads()
      requires Valid()
      modifies this`remainingWorkload, this`planningWorkload, this`samplingTokenNum
      ensures Valid()
      ensures var work := Workload(|prefillingTokens|, 0, 0, 0, Max(1 + |draftTokens|, logitsCustomLength));
              State() == old(State()).(remaining := work, planning := work, sampling := work.sampling)
    {
      remainingWorkload := Workload(|prefillingTokens|, 0, 0, 0, Max(1 + |draftTokens|, logitsCustomLength));
      planningWorkload := remainingWorkload;
      samplingTokenNum := planningWorkload.sampling;
    }

    method ResetPrefillingTokens()
      requires Valid()
      modifies this, inflightTasks
      ensures Valid() && State() == Reset(old(State()), logitsCustomLength)
    {
      DiscardSteps();
      EnterContext();
      RestartTokens();
      RestartWorkloads();
    }

    method SetInflightTaskGenResultEstimation(generatedNum: nat, draftNum: nat)
      requires Valid() && inflightCount > 0
      modifies this`planningWorkload, this`remainingWorkload
      ensures Valid() && State() == Estimate(old(State()), generatedNum, draftNum)
    {
      planningWorkload := planningWorkload.(generated := generatedNum, draft := draftNum);
      remainingWorkload := remainingWorkload.(generated := generatedNum, draft := draftNum);
    }

    method SetPlanningTask()
      requires Valid() && CanPlan(State())
      modifies this`planningTask, this`planningWorkload, this`remainingWorkload
      ensures Valid() && State() == Plan(old(State()))
    {
      planningTask := planningWorkload;
      remainingWorkload := remainingWorkload.(prefill := remainingWorkload.prefill - planningWorkload.prefill);
      remainingWorkload := remainingWorkload.(offset := remainingWorkload.offset + planningWorkload.prefill,
                                              generated := 0, draft := 0);
      planningWorkload := NO_WORK;
    }

    method ReserveBuildAheadPlaceholderBlock(task: Workload) returns (newTask: Workload)
      modifies this`forwardingTokens, this`pendingPlaceholderPositions, this`pendingPlaceholderDraftNums
      ensures forwardingTokens == old(forwardingTokens) + Fill(PLACEHOLDER, 1 + task.draft)
      ensures pendingPlaceholderPositions == old(pendingPlaceholderPositions) + [|old(forwardingTokens)|]
      ensures pendingPlaceholderDraftNums == old(pendingPlaceholderDraftNums) + [task.draft]
      ensures newTask == task.(generated := 1, sampling := 1 + task.draft)
    {
      var blockStart := |forwardingTokens|;
      forwardingTokens := forwardingTokens + [PLACEHOLDER];
      for i := 0 to task.draft
        modifies this`forwardingTokens
        invariant forwardingTokens == old(forwardingTokens) + Fill(PLACEHOLDER, 1 + i)
      {
        forwardingTokens := forwardingTokens + [PLACEHOLDER];
      }
      pendingPlaceholderPositions := pendingPlaceholderPositions + [blockStart];
      pendingPlaceholderDraftNums := pendingPlaceholderDraftNums + [task.draft];
      newTask := task.(generated := 1, sampling := 1 + task.draft);
    }

    method AppendDecodeTokensWithoutPlaceholder(task: Workload, resourceReady: nat) returns (newTask: Workload)
      requires |generatedTokens| <= resourceReady
      modifies this`forwardingTokens, this`draftTokens
      ensures var taken := Min(resourceReady - |generatedTokens|, |old(draftTokens)|);
              && forwardingTokens == old(forwardingTokens) + generatedTokens + old(draftTokens)[..taken]
              && draftTokens == old(draftTokens)[..taken]
              && newTask == task.(generated := |generatedTokens|, draft := taken, sampling := 1 + taken)
    {
      forwardingTokens := forwardingTokens + generatedTokens;
      var draftNum := Min(resourceReady - |generatedTokens|, |draftTokens|);
      forwardingTokens := forwardingTokens + draftTokens[..draftNum];
      if draftNum < |draftTokens| {
        draftTokens := draftTokens[..draftNum];
      }
      newTask := task.(generated := |generatedTokens|, draft := draftNum, sampling := 1 + draftNum);
    }

    method GrowForwarding(task: Workload)
      requires Valid() && task.offset + task.prefill <= |prefillingTokens|
      modifies this`forwardingTokens, this`kvCachedTokenNum, this`prefixCacheLen
      ensures Valid() && State() == Grow(old(State()), task)
    {
      var forwarded := |forwardingTokens|;
      if forwarded == task.offset {
        forwardingTokens := forwardingTokens + prefillingTokens[forwarded..forwarded + task.prefill];
      } else {
        forwardingTokens := prefillingTokens[..task.offset + task.prefill];
        kvCachedTokenNum, prefixCacheLen := task.offset, task.offset;
      }
    }

    /** The prefill branch of `LaunchPlanningTask`. */
    method LaunchPrefillChunk(task: Workload) returns (newTask: Workload)
      requires Valid() && task.offset + task.prefill <= |prefillingTokens|
      modifies this`forwardingTokens, this`kvCachedTokenNum, this`prefixCacheLen, this`forwardStepKind
      ensures Valid() && (State(), newTask) == LaunchPrefill(old(State()), task)
    {
      GrowForwarding(task);
      if task.prefill + task.offset >= |prefillingTokens| {
        forwardStepKind := PrefillStep;
        forwardingTokens := forwardingTokens + draftTokens;
        newTask := task.(draft := |draftTokens|, sampling := 1 + |draftTokens|);
      } else {
        forwardStepKind := PrefillChunkMid;
        newTask := task.(sampling := 0);
      }
    }

    /** The decode branch of `LaunchPlanningTask`. */
    method LaunchDecodeStep(task: Workload, ahead: bool) returns (newTask: Workload)
      requires Valid() && |generatedTokens| <= task.generated + task.draft
      modifies this`forwardingTokens, this`draftTokens, this`forwardStepKind,
               this`pendingPlaceholderPositions, this`pendingPlaceholderDraftNums
      ensures Valid()
      ensures (State(), newTask) ==
              LaunchDecode(old(State()), task, ahead && fastPathEnabled && old(generatedTokens) == [])
    {
      if ahead && fastPathEnabled && generatedTokens == [] {
        newTask := ReserveBuildAheadPlaceholderBlock(task);
      } else {
        newTask := AppendDecodeTokensWithoutPlaceholder(task, task.generated + task.draft);
      }
      forwardStepKind := DecodeStep;
    }

    method TakePlanningTask() returns (task: Workload)
      requires Valid()
      modifies this`planningTask, this`kvCachedTokenNum, this`prefixCacheLen
      ensures Valid() && task == old(planningTask) && State() == Dequeue(old(State()))
    {
      task := planningTask;
      planningTask := NO_WORK;
      kvCachedTokenNum, prefixCacheLen := |forwardingTokens|, |forwardingTokens|;
    }

    method PushInflight(task: Workload)
      requires Valid() && inflightCount < MAX_INFLIGHT_DEPTH
      modifies this`samplingTokenNum, this`forwardingTokensDraftNum, this`inflightCount, inflightTasks
      ensures Valid() && State() == Enqueue(old(State()), task)
    {
      samplingTokenNum := task.sampling;
      forwardingTokensDraftNum := task.draft;
      inflightTasks[inflightCount] := task;
      inflightCount := inflightCount + 1;
    }

    method LaunchPlanningTask(usePlaceholderForLastToken: bool)
      requires Valid() && CanLaunch(State(), usePlaceholderForLastToken)
      modifies this, inflightTasks
      ensures Valid() && State() == Launch(old(State()), usePlaceholderForLastToken, fastPathEnabled)
    {
      var newInflight := TakePlanningTask();
      if newInflight.prefill > 0 {
        newInflight := LaunchPrefillChunk(newInflight);
      } else {
        newInflight := LaunchDecodeStep(newInflight, usePlaceholderForLastToken);
      }
      PushInflight(newInflight);
    }

    /** Writes the bonus token and the available drafts over the queue's front block. */
    method BackfillFrontBlock()
      requires Valid() && FrontInRange(State())
      modifies this`forwardingTokens
      ensures Valid() && State() == FillFront(old(State()))
    {
      if pendingPlaceholderPositions != [] && generatedTokens != [] {
        var start, slots := pendingPlaceholderPositions[0], pendingPlaceholderDraftNums[0];
        ghost var was := forwardingTokens;
        forwardingTokens := forwardingTokens[start := generatedTokens[0]];
        forwardingTokens := WriteOver(forwardingTokens, start + 1, draftTokens[..Min(slots, |draftTokens|)]);
        assert forwardingTokens == Overwrite(was, start, BlockFill(generatedTokens[0], draftTokens, slots));
      }
    }

    method AppendGeneratedToOutput()
      requires Valid()
      modifies this`outputTokens, this`isEosGenerated
      ensures Valid() && State() == EmitGenerated(old(State()), stopTokenIds)
    {
      outputTokens := outputTokens + generatedTokens;
      if outputTokens != [] && outputTokens[|outputTokens| - 1] in stopTokenIds {
        isEosGenerated := true;
      }
    }

    method FinishBlockRetire()
      requires Valid()
      modifies this`remainingWorkload, this`planningWorkload, this`generatedTokens
      ensures Valid() && State() == FinishBlock(old(State()))
    {
      remainingWorkload := remainingWorkload.(generated := |generatedTokens|, draft := |draftTokens|);
      planningWorkload := NO_WORK;
      planningWorkload := planningWorkload.(generated := |generatedTokens|, draft := |draftTokens|);
      generatedTokens := [];
    }

    method TryRetireBackfillNextPlaceholderBlock() returns (done: bool)
      requires Valid() && pendingPlaceholderPositions != [] && QueueWellFormed(State())
      requires FrontAwaitsPredecessor(State()) ==> FrontInRange(State())
      modifies this
      ensures Valid() && done == FrontAwaitsPredecessor(old(State()))
      ensures State() == if done then Backfill(old(State()), stopTokenIds) else old(State())
    {
      var start := pendingPlaceholderPositions[0];
      if !(inflightCount > 1 && start < |forwardingTokens| && forwardingTokens[start] == PLACEHOLDER) {
        return false;
      }
      inferStage := Decode;
      BackfillFrontBlock();
      AppendGeneratedToOutput();
      FinishBlockRetire();
      return true;
    }

    /** Moves every queued block behind `start` forward by `trimmed` slots. */
    method ShiftPending(start: nat, trimmed: nat)
      requires forall i :: 0 <= i < |pendingPlaceholderPositions| && pendingPlaceholderPositions[i] > start ==>
                 trimmed <= pendingPlaceholderPositions[i]
      modifies this`pendingPlaceholderPositions
      ensures pendingPlaceholderPositions == ShiftPositions(old(pendingPlaceholderPositions), start, trimmed)
    {
      ghost var was := pendingPlaceholderPositions;
      for i := 0 to |pendingPlaceholderPositions|
        invariant |pendingPlaceholderPositions| == |was|
        invariant forall j :: 0 <= j < i ==>
                    pendingPlaceholderPositions[j] == if was[j] > start then was[j] - trimmed else was[j]
        invariant forall j :: i <= j < |was| ==> pendingPlaceholderPositions[j] == was[j]
      {
        if pendingPlaceholderPositions[i] > start {
          pendingPlaceholderPositions := pendingPlaceholderPositions[i := pendingPlaceholderPositions[i] - trimmed];
        }
      }
    }

    method CommitAcceptedTokens()
      requires Valid()
      modifies this`outputTokens, this`acceptedTokens
      ensures Valid() && State() == CommitAccepted(old(State()))
    {
      outputTokens := outputTokens + acceptedTokens;
      acceptedTokens := [];
    }

    method WriteAccepted(start: nat)
      requires Valid() && start + 1 + |acceptedTokens| <= |forwardingTokens|
      modifies this`forwardingTokens
      ensures Valid() && State() == var s := old(State());
                                    s.(forwarding := Overwrite(s.forwarding, start + 1, s.accepted))
    {
      forwardingTokens := WriteOver(forwardingTokens, start + 1, acceptedTokens);
    }

    /** Closes the gap the rejected slots of the block at `start` leave. */
    method CloseGap(start: nat, slots: nat)
      requires |acceptedTokens| <= slots && start + 1 + slots <= |forwardingTokens|
      requires forall i :: 0 <= i < |pendingPlaceholderPositions| ==>
                 start + 1 + slots <= pendingPlaceholderPositions[i]
      modifies this`forwardingTokens, this`pendingPlaceholderPositions
      ensures forwardingTokens == Erase(old(forwardingTokens), start + 1 + |acceptedTokens|, start + 1 + slots)
      ensures pendingPlaceholderPositions ==
              ShiftPositions(old(pendingPlaceholderPositions), start, slots - |acceptedTokens|)
    {
      var kept := start + 1 + |acceptedTokens|;
      var trimmed := slots - |acceptedTokens|;
      if trimmed > 0 {
        forwardingTokens := forwardingTokens[..kept] + forwardingTokens[start + 1 + slots..];
        ShiftPending(start, trimmed);
      }
    }

    /** Keeps the accepted drafts of the block at `start` and drops its rejected ones. */
    method CompactBlock(start: nat, slots: nat)
      requires Valid() && |acceptedTokens| <= slots && start + 1 + slots <= |forwardingTokens|
      requires forall i :: 0 <= i < |pendingPlaceholderPositions| ==>
                 start + 1 + slots <= pendingPlaceholderPositions[i]
      modifies this`forwardingTokens, this`pendingPlaceholderPositions
      ensures Valid() && State() == Compact(old(State()), start, slots)
    {
      WriteAccepted(start);
      CloseGap(start, slots);
    }

    /** Pops the front block and commits its accepted drafts. */
    method TrimOwnBlock()
      requires Valid() && pendingPlaceholderPositions != [] && QueueWellFormed(State()) && CanRetireOwn(State())
      modifies this`forwardingTokens, this`pendingPlaceholderPositions, this`pendingPlaceholderDraftNums,
               this`outputTokens, this`acceptedTokens, this`inferStage
      ensures Valid() && State() == TrimOwn(old(State()))
    {
      var start, slots := pendingPlaceholderPositions[0], pendingPlaceholderDraftNums[0];
      inferStage := Decode;
      PopPending();
      CompactBlock(start, slots);
      CommitAcceptedTokens();
    }

    method SettleKvAfterBlock(kv: nat)
      requires Valid() && kv <= |forwardingTokens|
      modifies this`kvCachedTokenNum, this`forwardingTokensDraftNum
      ensures Valid() && State() == SettleKv(old(State()), kv)
    {
      kvCachedTokenNum := kv;
      var uncachedTail := |forwardingTokens| - kvCachedTokenNum;
      forwardingTokensDraftNum := if uncachedTail > 1 then uncachedTail - 1 else 0;
    }

    method RetireOwnPlaceholderBlockAndShift()
      requires Valid() && pendingPlaceholderPositions != [] && QueueWellFormed(State()) && CanRetireOwn(State())
      modifies this
      ensures Valid() && State() == RetireOwn(old(State()), stopTokenIds)
    {
      var kv := pendingPlaceholderPositions[0] + 1 + |acceptedTokens|;
      TrimOwnBlock();
      BackfillFrontBlock();
      AppendGeneratedToOutput();
      SettleKvAfterBlock(kv);
      FinishBlockRetire();
    }

    method DropStepPastStop()
      requires Valid() && QueueWellFormed(State())
      modifies this`generatedTokens, this`acceptedTokens, this`draftTokens,
               this`pendingPlaceholderPositions, this`pendingPlaceholderDraftNums
      ensures Valid() && State() == RetireDrained(old(State()))
    {
      generatedTokens, acceptedTokens, draftTokens := [], [], [];
      if pendingPlaceholderPositions != [] {
        PopPending();
      }
    }

    method CutRejectedDrafts(oldestDraft: nat)
      requires Valid() && inflightCount > 0 && oldestDraft == inflightTasks[0].draft
      requires oldestDraft > 0 ==> forwardingTokensDraftNum <= |forwardingTokens|
      modifies this`forwardingTokens, this`outputTokens, this`acceptedTokens, this`inferStage
      ensures Valid() && State() == CutRejected(old(State()))
    {
      inferStage := Decode;
      if oldestDraft > 0 {
        forwardingTokens := Resize(forwardingTokens, |forwardingTokens| - forwardingTokensDraftNum + |acceptedTokens|);
        CommitAcceptedTokens();
      }
    }

    method FinishPlainRetire()
      requires Valid()
      modifies this`kvCachedTokenNum, this`remainingWorkload, this`planningWorkload
      ensures Valid() && State() == AfterPlainRetire(old(State()))
    {
      kvCachedTokenNum := |forwardingTokens|;
      remainingWorkload := remainingWorkload.(generated := |generatedTokens|, draft := |draftTokens|);
      planningWorkload := NO_WORK;
      if remainingWorkload.prefill > 0 {
        planningWorkload := planningWorkload.(prefill := remainingWorkload.prefill);
      } else {
        planningWorkload := planningWorkload.(generated := |generatedTokens|, draft := |draftTokens|);
      }
    }

    method UpdateAfterInflightTaskFinished()
      requires Valid() && CanRetire(State())
      modifies this
      ensures Valid() && State() == Retire(old(State()), stopTokenIds)
    {
      var oldest := inflightTasks[0];
      if isEosGenerated {
        DropStepPastStop();
        return;
      }
      if oldest.prefill > 0 && oldest.prefill + oldest.offset < |prefillingTokens| {
        generatedTokens, draftTokens := [], [];
      } else if pendingPlaceholderPositions != [] {
        var done := TryRetireBackfillNextPlaceholderBlock();
        if !done {
          RetireOwnPlaceholderBlockAndShift();
        }
        return;
      } else {
        CutRejectedDrafts(oldest.draft);
        AppendGeneratedToOutput();
      }
      FinishPlainRetire();
    }

    method ResetInflightTask()
      requires Valid()
      modifies this`inflightCount, inflightTasks
      ensures Valid() && State() == PopInflight(old(State()))
    {
      if inflightCount == 0 {
        return;
      }
      ghost var was := inflightTasks[..inflightCount];
      var i := 0;
      while i + 1 < inflightCount
        invariant i < inflightCount == |was| <= inflightTasks.Length
        invariant forall j :: 0 <= j < i ==> inflightTasks[j] == was[j + 1]
        invariant forall j :: i <= j < inflightCount ==> inflightTasks[j] == was[j]
      {
        inflightTasks[i] := inflightTasks[i + 1];
        i := i + 1;
      }
      inflightTasks[inflightCount - 1] := NO_WORK;
      inflightCount := inflightCount - 1;
      assert inflightTasks[..inflightCount] == was[1..];
    }
  }
}
