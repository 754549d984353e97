/** Chunked prefill: any chunking, one or two chunks in flight, with or without a prefix-cache hit. */
module Prefill {
  import opened Tokens
  import opened InferRequests
  import opened RequestSteps
  import opened ModelRunners
  import opened Reference
  import opened AheadEngine
  import DepthOne
  import EngineRun

  /** A request in prefill, the chunks it has launched, oldest first, and the snapshots they travel with. */
  datatype Progress = Progress(req: ReqState, chunks: seq<Workload>, sent: seq<Snapshot>)

  /** `CacheHit(o)`: the first `o` tokens are cached. `RetireChunk`: the oldest chunk returns; whatever it
      carries is dropped. */
  datatype Event =
    | CacheHit(offset: nat)
    | PlanChunk(n: nat)
    | LaunchChunk
    | RetireChunk(accepted: seq<int>, generated: seq<int>, drafts: seq<int>)

  function EndOf(chunk: Workload): nat { chunk.offset + chunk.prefill }

  /** How many prompt tokens the launched chunks reach. */
  function Reached(chunks: seq<Workload>): nat
  {
    if chunks == [] then 0 else EndOf(chunks[|chunks| - 1])
  }

  predicate Enabled(p: Progress, ev: Event)
  {
    match ev
    case CacheHit(o) => p.req.planned.IsEmpty() && p.req.remaining.offset <= o < |p.req.prefilling|
    case PlanChunk(n) => p.req.planned.IsEmpty() && 0 < n <= p.req.remaining.prefill
    case LaunchChunk => !p.req.planned.IsEmpty() && |p.req.inflight| < MAX_INFLIGHT_DEPTH
    case RetireChunk(_, _, _) => IsSplitPrefill(p.req)
  }

  function WithHit(s: ReqState, o: nat): ReqState
    requires o <= |s.prefilling|
  {
    s.(remaining := s.remaining.(prefill := |s.prefilling| - o, offset := o))
  }

  /** The planner cuts the next chunk at the remaining workload's offset. */
  function WithChunk(s: ReqState, n: nat): ReqState
  {
    s.(planning := s.remaining.(prefill := n, generated := 0, draft := 0))
  }

  /** A check of the request that does not hold leaves no successor. */
  function Step(p: Progress, ev: Event): Option<Progress>
    requires Enabled(p, ev)
  {
    match ev
    case CacheHit(o) => Some(p.(req := WithHit(p.req, o)))
    case PlanChunk(n) =>
      var s := WithChunk(p.req, n);
      if CanPlan(s) then Some(p.(req := Plan(s))) else None
    case LaunchChunk =>
      var ahead := p.req.inflight != [];
      if CanLaunch(p.req, ahead) then
        var t := Launch(p.req, ahead, true);
        Some(Progress(t, p.chunks + [t.inflight[|t.inflight| - 1]], p.sent + [AheadEngine.Freeze(t, ahead)]))
      else None
    case RetireChunk(accepted, generated, drafts) =>
      var d := Deliver(p.req, accepted, generated, drafts);
      if CanRetire(d) then Some(p.(req := PopInflight(Retire(d, [])))) else None
  }

  /** A chunk continues or jumps ahead, and samples one token exactly when it ends the prompt. */
  predicate ChunkOk(chunk: Workload, reached: nat, total: nat)
  {
    && chunk.prefill > 0 && chunk.generated == 0 && chunk.draft == 0
    && reached <= chunk.offset && EndOf(chunk) <= total
    && chunk.sampling == if EndOf(chunk) == total then 1 else 0
  }

  predicate ChunksOk(chunks: seq<Workload>, total: nat)
  {
    chunks == [] ||
      var front := chunks[..|chunks| - 1];
      ChunksOk(front, total) && ChunkOk(chunks[|chunks| - 1], Reached(front), total)
  }

  predicate PlannedOk(s: ReqState, reached: nat)
  {
    && s.remaining.prefill + s.remaining.offset == |s.prefilling|
    && (s.remaining.prefill == 0 ==> s.planning.prefill == 0)
    && if s.planned.IsEmpty() then reached <= s.remaining.offset
       else && s.planned.prefill > 0 && s.planned.generated == 0 && s.planned.draft == 0
            && reached <= s.planned.offset && EndOf(s.planned) == s.remaining.offset
  }

  predicate Untouched(s: ReqState)
  {
    && !s.eos && s.generated == [] && s.drafts == [] && s.pendingPos == [] && s.pendingDraft == []
    && s.output == s.prefilling && s.draftNum == 0 && s.stage == Context && BooksBalance(s)
    && s.remaining.generated == s.remaining.draft == 0
  }

  function ChunkKind(last: bool): StepKind { if last then PrefillStep else PrefillChunkMid }

  /** What a chunk of the prompt `output` is launched with: the prompt up to its end, cached up to its start. */
  function ChunkSnapshot(output: seq<int>, chunk: Workload): Snapshot
    requires EndOf(chunk) <= |output|
  {
    Snapshot(output[..EndOf(chunk)], None, chunk.offset, chunk.offset, 0, chunk.sampling,
             ChunkKind(EndOf(chunk) == |output|))
  }

  predicate SentOk(output: seq<int>, chunks: seq<Workload>, sent: seq<Snapshot>)
  {
    && |sent| == |chunks|
    && forall i :: 0 <= i < |chunks| ==> EndOf(chunks[i]) <= |output| && sent[i] == ChunkSnapshot(output, chunks[i])
  }

  predicate Inv(p: Progress)
  {
    && SentOk(p.req.output, p.chunks, p.sent)
    && Untouched(p.req) && PlannedOk(p.req, Reached(p.chunks)) && ChunksOk(p.chunks, |p.req.prefilling|)
    && Reached(p.chunks) <= |p.req.prefilling|
    && p.req.forwarding == p.req.prefilling[..Reached(p.chunks)]
    && |p.req.inflight| <= |p.chunks| && p.req.inflight == p.chunks[|p.chunks| - |p.req.inflight|..]
    && (p.chunks != [] ==>
          var last := p.sent[|p.sent| - 1];
          p.req.sampling == last.sampling && p.req.prefixLen == last.prefixLen && p.req.kind == last.kind)
  }

  /** A request reset from any state, however many steps it had in flight, starts over on all its output. */
  lemma ResetStarts(s: ReqState, customLogits: nat)
    ensures var t := Reset(s, customLogits);
            Inv(Progress(t, [], [])) && t.prefilling == t.output == s.output && t.remaining.prefill == |s.output|
  {
  }

  // ---- Every event keeps the invariant ----

  lemma SnocChunksOk(chunks: seq<Workload>, chunk: Workload, total: nat)
    requires ChunksOk(chunks, total) && ChunkOk(chunk, Reached(chunks), total)
    ensures ChunksOk(chunks + [chunk], total) && Reached(chunks + [chunk]) == EndOf(chunk)
  {
    assert (chunks + [chunk])[..|chunks|] == chunks;
  }

  lemma PlanKeeps(p: Progress, n: nat)
    requires Inv(p) && Enabled(p, PlanChunk(n))
    ensures var p' := Step(p, PlanChunk(n));
            p'.Some? && Inv(p'.value) && p'.value.req.remaining.prefill == p.req.remaining.prefill - n
  {
  }

  /** The request once the planned chunk is launched. */
  function Launched(s: ReqState): ReqState
    requires EndOf(s.planned) <= |s.prefilling|
  {
    var next := EndOf(s.planned);
    var last := next == |s.prefilling|;
    s.(forwarding := s.prefilling[..next], kv := s.planned.offset, prefixLen := s.planned.offset,
       kind := ChunkKind(last), planned := NO_WORK, sampling := if last then 1 else 0,
       inflight := s.inflight + [LaunchedChunk(s)])
  }

  function LaunchedChunk(s: ReqState): Workload
  {
    s.planned.(draft := 0, sampling := if EndOf(s.planned) == |s.prefilling| then 1 else 0)
  }

  /** Launching chunk `[o, o + n)` makes `forwarding` the first `o + n` prompt tokens with the first `o` of
      them cached, and freezes exactly that; it samples one token if it is the last chunk, else none. */
  lemma LaunchBuilds(s: ReqState, reached: nat)
    requires Untouched(s) && PlannedOk(s, reached) && !s.planned.IsEmpty() && |s.inflight| < MAX_INFLIGHT_DEPTH
    requires s.forwarding == s.prefilling[..reached]
    ensures var ahead, o, next := s.inflight != [], s.planned.offset, EndOf(s.planned);
            && CanLaunch(s, ahead) && Launch(s, ahead, true) == Launched(s)
            && AheadEngine.Freeze(Launched(s), ahead) ==
               Snapshot(s.prefilling[..next], None, o, o, 0, if next == |s.prefilling| then 1 else 0,
                        ChunkKind(next == |s.prefilling|))
            && next <= |s.output| && AheadEngine.Freeze(Launched(s), ahead) == ChunkSnapshot(s.output, LaunchedChunk(s))
  {
    if reached == s.planned.offset {
      assert s.prefilling[..reached] + s.prefilling[reached..EndOf(s.planned)] == s.prefilling[..EndOf(s.planned)];
    }
    assert s.prefilling[..EndOf(s.planned)] + s.drafts == s.prefilling[..EndOf(s.planned)];
  }

  function AfterLaunch(p: Progress): Progress
    requires EndOf(p.req.planned) <= |p.req.prefilling| == |p.req.output|
  {
    var chunk := LaunchedChunk(p.req);
    Progress(Launched(p.req), p.chunks + [chunk], p.sent + [ChunkSnapshot(p.req.output, chunk)])
  }

  lemma SnocSentOk(output: seq<int>, chunks: seq<Workload>, sent: seq<Snapshot>, chunk: Workload)
    requires SentOk(output, chunks, sent) && EndOf(chunk) <= |output|
    ensures SentOk(output, chunks + [chunk], sent + [ChunkSnapshot(output, chunk)])
  {
  }

  /** The chunks in flight are the newest ones. */
  lemma SnocSuffix(chunks: seq<Workload>, inflight: seq<Workload>, chunk: Workload)
    requires |inflight| <= |chunks| && inflight == chunks[|chunks| - |inflight|..]
    ensures inflight + [chunk] == (chunks + [chunk])[|chunks| - |inflight|..]
  {
  }

  lemma LaunchedRequest(s: ReqState, reached: nat)
    requires Untouched(s) && PlannedOk(s, reached) && !s.planned.IsEmpty()
    ensures EndOf(s.planned) <= |s.prefilling| == |s.output|
    ensures Untouched(Launched(s)) && PlannedOk(Launched(s), EndOf(s.planned))
    ensures ChunkOk(LaunchedChunk(s), reached, |s.prefilling|) && EndOf(LaunchedChunk(s)) == EndOf(s.planned)
  {
  }

  lemma LaunchedKeeps(p: Progress)
    requires Inv(p) && !p.req.planned.IsEmpty()
    ensures EndOf(p.req.planned) <= |p.req.prefilling| == |p.req.output|
    ensures Inv(AfterLaunch(p))
  {
    LaunchedRequest(p.req, Reached(p.chunks));
    var chunk := LaunchedChunk(p.req);
    SnocChunksOk(p.chunks, chunk, |p.req.prefilling|);
    SnocSentOk(p.req.output, p.chunks, p.sent, chunk);
    SnocSuffix(p.chunks, p.req.inflight, chunk);
  }

  lemma LaunchKeeps(p: Progress)
    requires Inv(p) && Enabled(p, LaunchChunk)
    ensures EndOf(p.req.planned) <= |p.req.prefilling| == |p.req.output|
    ensures Step(p, LaunchChunk) == Some(AfterLaunch(p))
  {
    LaunchBuilds(p.req, Reached(p.chunks));
  }

  /** What a retired chunk leaves behind, whatever it returned. */
  lemma RetireDrops(s: ReqState, accepted: seq<int>, generated: seq<int>, drafts: seq<int>)
    requires Untouched(s) && IsSplitPrefill(s)
    ensures var d := Deliver(s, accepted, generated, drafts);
            && CanRetire(d)
            && var t := PopInflight(Retire(d, []));
               t == s.(accepted := accepted, kv := |s.forwarding|, planning := NO_WORK.(prefill := s.remaining.prefill),
                       remaining := s.remaining.(generated := 0, draft := 0), inflight := s.inflight[1..])
  {
  }

  lemma RetiredKeeps(p: Progress, t: ReqState, accepted: seq<int>)
    requires Inv(p) && p.req.inflight != []
    requires t == p.req.(accepted := accepted, kv := |p.req.forwarding|,
                         planning := NO_WORK.(prefill := p.req.remaining.prefill),
                         remaining := p.req.remaining.(generated := 0, draft := 0), inflight := p.req.inflight[1..])
    ensures Inv(p.(req := t))
  {
  }

  /** What every event keeps, and how it changes what remains. */
  predicate Keeps(p: Progress, ev: Event, p': Option<Progress>)
  {
    && p'.Some? && Inv(p'.value)
    && p'.value.req.prefilling == p.req.prefilling && p'.value.req.output == p.req.output
    && p'.value.req.remaining.prefill <= p.req.remaining.prefill
    && (ev.PlanChunk? ==> p'.value.req.remaining.prefill == p.req.remaining.prefill - ev.n)
  }

  lemma HitKeeps(p: Progress, o: nat)
    requires Inv(p) && Enabled(p, CacheHit(o))
    ensures Keeps(p, CacheHit(o), Step(p, CacheHit(o)))
  {
  }

  lemma PlanStepKeeps(p: Progress, n: nat)
    requires Inv(p) && Enabled(p, PlanChunk(n))
    ensures Keeps(p, PlanChunk(n), Step(p, PlanChunk(n)))
  {
    PlanKeeps(p, n);
  }

  lemma LaunchStepKeeps(p: Progress)
    requires Inv(p) && Enabled(p, LaunchChunk)
    ensures Keeps(p, LaunchChunk, Step(p, LaunchChunk))
  {
    LaunchKeeps(p);
    LaunchedKeeps(p);
  }

  lemma RetireStepKeeps(p: Progress, accepted: seq<int>, generated: seq<int>, drafts: seq<int>)
    requires Inv(p) && IsSplitPrefill(p.req)
    ensures var ev := RetireChunk(accepted, generated, drafts); Keeps(p, ev, Step(p, ev))
  {
    RetireDrops(p.req, accepted, generated, drafts);
    RetiredKeeps(p, Step(p, RetireChunk(accepted, generated, drafts)).value.req, accepted);
  }

  lemma StepKeeps(p: Progress, ev: Event)
    requires Inv(p) && Enabled(p, ev)
    ensures Keeps(p, ev, Step(p, ev))
  {
    match ev
    case CacheHit(o) => HitKeeps(p, o);
    case PlanChunk(n) => PlanStepKeeps(p, n);
    case LaunchChunk => LaunchStepKeeps(p);
    case RetireChunk(accepted, generated, drafts) => RetireStepKeeps(p, accepted, generated, drafts);
  }

  // ---- Runs ----

  /** Some run takes `p` through the events `evs` to `q`, or fails a check on the way (`q` is `None`). */
  ghost predicate Reaches(p: Progress, evs: seq<Event>, q: Option<Progress>)
    decreases |evs|
  {
    if evs == [] then q == Some(p)
    else Enabled(p, evs[0]) &&
         match Step(p, evs[0])
         case None => q.None?
         case Some(next) => Reaches(next, evs[1..], q)
  }

  lemma {:induction false} RunKeeps(p: Progress, evs: seq<Event>, q: Option<Progress>)
    requires Inv(p) && Reaches(p, evs, q)
    ensures q.Some? && Inv(q.value) && q.value.req.prefilling == p.req.prefilling && q.value.req.output == p.req.output
    decreases |evs|
  {
    if evs != [] {
      StepKeeps(p, evs[0]);
      RunKeeps(Step(p, evs[0]).value, evs[1..], q);
    }
  }

  /** In every chunked prefill of a request reset from any state: no check fails, `forwarding` is the output
      so far up to where the launched chunks reach, each chunk travels with the prompt up to its end, its own
      start as cached prefix, no chunk overlaps an earlier one, so that what remains behind it strictly
      decreases, and a chunk samples exactly when it is the last, behind which no other is launched. */
  lemma PrefillRebuilds(s: ReqState, customLogits: nat, evs: seq<Event>, q: Option<Progress>)
    requires Reaches(Progress(Reset(s, customLogits), [], []), evs, q)
    ensures q.Some?
    ensures var chunks, t := q.value.chunks, q.value.req;
            && t.prefilling == t.output == s.output
            && Reached(chunks) <= |s.output| && t.forwarding == s.output[..Reached(chunks)]
            && SentOk(s.output, chunks, q.value.sent)
            && (forall i, j :: 0 <= i < j < |chunks| ==>
                  EndOf(chunks[i]) <= chunks[j].offset && |s.output| - EndOf(chunks[j]) < |s.output| - EndOf(chunks[i]))
            && (forall i :: 0 <= i < |chunks| ==>
                  (chunks[i].sampling > 0 <==> i == |chunks| - 1 && Reached(chunks) == |s.output|))
            && (forall i :: 0 <= i < |chunks| ==> Announces(q.value.sent[i], chunks[i]))
  {
    ResetStarts(s, customLogits);
    RunKeeps(Progress(Reset(s, customLogits), [], []), evs, q);
    ChunksAscend(q.value.chunks, |s.output|);
  }

  /** In every such prefill, whatever happens next never adds to what remains to be planned, and planning a
      chunk takes exactly that chunk off it. */
  lemma RemainingDecreases(s: ReqState, customLogits: nat, evs: seq<Event>, q: Progress, ev: Event)
    requires Reaches(Progress(Reset(s, customLogits), [], []), evs, Some(q)) && Enabled(q, ev)
    ensures Step(q, ev).Some?
    ensures var left, left' := q.req.remaining.prefill, Step(q, ev).value.req.remaining.prefill;
            left' <= left <= |s.output| && (ev.PlanChunk? ==> left' == left - ev.n < left)
  {
    ResetStarts(s, customLogits);
    RunKeeps(Progress(Reset(s, customLogits), [], []), evs, Some(q));
    StepKeeps(q, ev);
  }

  lemma {:induction false} ChunksAscend(chunks: seq<Workload>, total: nat)
    requires ChunksOk(chunks, total)
    ensures forall i, j :: 0 <= i < j < |chunks| ==> EndOf(chunks[i]) <= chunks[j].offset
    ensures forall i :: 0 <= i < |chunks| ==> EndOf(chunks[i]) <= Reached(chunks) <= total
    ensures forall i :: 0 <= i < |chunks| ==> (chunks[i].sampling > 0 <==> EndOf(chunks[i]) == total)
    ensures forall i :: 0 <= i < |chunks| ==> chunks[i].prefill > 0 && chunks[i].draft == 0
    decreases |chunks|
  {
    if chunks != [] {
      var front := chunks[..|chunks| - 1];
      ChunksAscend(front, total);
      assert forall i :: 0 <= i < |front| ==> front[i] == chunks[i];
    }
  }

  // ---- Where prefill ends, decoding starts ----

  /** With the last chunk alone in flight, the request is where every depth-2 run starts; straight after the
      launch it is also where the depth-1 run starts. */
  lemma LastChunkStarts(p: Progress, w: World)
    requires Inv(p) && p.chunks != [] && Reached(p.chunks) == |p.req.prefilling| && |p.req.inflight| == 1
    requires w.prompt == p.req.output && w.chunkStart == p.chunks[|p.chunks| - 1].offset
    ensures EngineRun.RequestStart(w, p.req)
    ensures p.req.kv == w.chunkStart ==> DepthOne.InFlight(w, p.req, 0)
  {
  }

  // ---- The planner's side of the bargain ----

  /** Retiring a chunk leaves a planning workload that starts at 0. A chunk launched from offset `o` extends
      the prompt reached so far exactly when the planner cut it at the remaining offset. */
  lemma ChunkNeedsOffset(s: ReqState, n: nat, o: nat)
    requires s.remaining.prefill + s.remaining.offset == |s.prefilling| && 0 < n <= s.remaining.prefill
    requires Untouched(s) && s.planned.IsEmpty() && s.forwarding == s.prefilling[..s.remaining.offset]
    requires |s.inflight| < MAX_INFLIGHT_DEPTH && o <= s.remaining.offset
    ensures var c := s.(planning := Workload(n, o, 0, 0, 0));
            && CanPlan(c) && CanLaunch(Plan(c), s.inflight != [])
            && (Launch(Plan(c), s.inflight != [], true).forwarding == s.prefilling[..s.remaining.offset + n]
                <==> o == s.remaining.offset)
  {
    var t := Launch(Plan(s.(planning := Workload(n, o, 0, 0, 0))), s.inflight != [], true);
    if o == s.remaining.offset {
      assert s.prefilling[..o] + s.prefilling[o..o + n] == s.prefilling[..o + n];
    } else {
      assert |t.forwarding| == o + n;
    }
  }

  lemma RetiredChunkPlansFromZero(s: ReqState, stops: seq<int>)
    requires CanRetire(s) && !s.eos && IsSplitPrefill(s)
    ensures Retire(s, stops).planning.offset == 0 && Retire(s, stops).planning.prefill == s.remaining.prefill
  {
  }
}
