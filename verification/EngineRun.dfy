/** The Engine on its own, two steps deep: every interleaving of launches and retires, with the depth-1
    result for each step. */
module EngineRun {
  import opened Tokens
  import opened InferRequests
  import opened RequestSteps
  import opened ModelRunners
  import opened Reference
  import opened AheadEngine

  /** One request of the Engine. `sent` lists the snapshots of all launched steps, `counted` is how many
      results have reached the output; `closed` means the request launches nothing more, `failed` that some
      check of the Engine did not hold. */
  datatype Engine = Engine(
    req: ReqState,
    sent: seq<Snapshot>,
    retired: nat,
    counted: nat,
    closed: bool,
    failed: bool)

  datatype Event = Plan | Launch | Retire

  function Failed(s: Engine): Engine { s.(failed := true) }

  /** What the scheduler allows; every check of the request itself is left to `Step`. A step may retire as
      soon as it is launched: when it is executed is not the Engine's concern. */
  predicate Enabled(s: Engine, ev: Event)
  {
    match ev
    case Plan => !s.closed && s.req.planned.IsEmpty()
    case Launch => !s.closed && !s.req.planned.IsEmpty() && |s.req.inflight| < MAX_INFLIGHT_DEPTH
    case Retire => s.retired < |s.sent|
  }

  function PlanStep(w: World, s: Engine): Engine
  {
    var e := Estimate(s.req, 1, SlotsAt(w, |s.sent|));
    if CanPlan(e) then s.(req := InferRequests.Plan(e)) else Failed(s)
  }

  function LaunchStep(s: Engine): Engine
  {
    var ahead := s.req.inflight != [];
    if CanLaunch(s.req, ahead) then
      var e := InferRequests.Launch(s.req, ahead, true);
      s.(req := e, sent := s.sent + [AheadEngine.Freeze(e, ahead)])
    else Failed(s)
  }

  /** The request stops launching once a stop token is seen or the pipeline has run dry. */
  function RetireStep(s: Engine, stops: seq<int>, res: StepResult): Engine
  {
    var d := Received(s.req, res);
    if CanRetire(d) then
      var e := PopInflight(InferRequests.Retire(d, stops));
      s.(req := e, retired := s.retired + 1,
         counted := if s.req.eos then s.counted else s.counted + 1,
         closed := s.closed || e.eos || e.inflight == [])
    else Failed(s)
  }

  ghost function Step(w: World, s: Engine, ev: Event): Engine
  {
    match ev
    case Plan => PlanStep(w, s)
    case Launch => LaunchStep(s)
    case Retire => RetireStep(s, w.stops, Result(w, s.retired))
  }

  /** The last prefill chunk, with no drafts, is the only step in flight. Earlier chunks may have been retired
      before or after it was launched. */
  ghost predicate RequestStart(w: World, req: ReqState)
  {
    && req.forwarding == w.prompt && req.output == w.prompt && req.generated == [] && !req.eos
    && req.draftNum == 0 && req.stage == Context && BooksBalance(req)
    && |req.inflight| == 1 && req.inflight[0].draft == 0 && req.inflight[0].sampling == 1
    && req.inflight[0].prefill > 0 && IsLastChunk(req.inflight[0], |req.prefilling|)
    && req.pendingPos == [] && req.pendingDraft == []
    && req.planned.IsEmpty() && req.planning.prefill == 0
    && req.remaining.prefill == 0 && req.remaining.offset == |req.prefilling|
  }

  ghost predicate Initial(w: World, s: Engine)
  {
    RequestStart(w, s.req) && s.sent == [Frozen(w, 0)] && s.retired == s.counted == 0 && !s.closed && !s.failed
  }

  // ---- The invariant ----

  ghost predicate OutputMatches(w: World, req: ReqState, counted: nat)
  {
    && req.output == Output(w, counted)
    && (req.eos <==> counted > 0 && Result(w, counted - 1).bonus in w.stops)
    && (counted > 0 ==> Running(w, counted - 1))
  }

  /** Open, the request's steps `retired .. launched-1` are in flight; closed, what is left of them drains. */
  ghost predicate RequestMatches(w: World, req: ReqState, launched: nat, retired: nat, counted: nat, closed: bool)
  {
    && |req.inflight| == launched - retired
    && counted <= retired && (counted < retired ==> req.eos)
    && if closed then
         && QueueTiles(req) && BlocksMatchTasks(req)
         && |req.pendingPos| == |req.inflight| <= 1 && (req.inflight != [] ==> req.eos)
         && CachedPrefixIsOutput(req) && counted > 0 && req.stage == Decode
       else
         && !req.eos && counted == retired && InPipeline(w, req, retired, launched)
         && (retired > 0 && launched == retired + 1 ==> CachedPrefixIsOutput(req))
  }

  ghost predicate Inv(w: World, s: Engine)
  {
    && !s.failed
    && (forall k :: 0 <= k < |s.sent| ==> s.sent[k] == Frozen(w, k))
    && OutputMatches(w, s.req, s.counted)
    && RequestMatches(w, s.req, |s.sent|, s.retired, s.counted, s.closed)
  }

  lemma InitialInv(w: World, s: Engine)
    requires WorldOk(w) && Initial(w, s)
    ensures Inv(w, s)
  {
  }

  // ---- Every step keeps it ----

  lemma PlanStaysInPipeline(w: World, req: ReqState, r: nat, l: nat)
    requires InPipeline(w, req, r, l) && req.planned.IsEmpty()
    ensures var e := Estimate(req, 1, SlotsAt(w, l));
            CanPlan(e) && InPipeline(w, InferRequests.Plan(e), r, l)
  {
  }

  lemma PlanKeeps(w: World, s: Engine)
    requires Inv(w, s) && Enabled(s, Plan)
    ensures Inv(w, PlanStep(w, s))
  {
    PlanStaysInPipeline(w, s.req, s.retired, |s.sent|);
  }

  lemma LaunchedMatches(w: World, req: ReqState, t: ReqState, r: nat)
    requires InPipeline(w, req, r, r + 1) && InPipeline(w, t, r, r + 2)
    requires OutputMatches(w, req, r)
    ensures OutputMatches(w, t, r) && RequestMatches(w, t, r + 2, r, r, false)
  {
  }

  /** A step is launched onto the one in flight, never onto a dry pipeline. */
  lemma LaunchesOntoOne(w: World, s: Engine)
    requires Inv(w, s) && Enabled(s, Launch)
    ensures |s.sent| == s.retired + 1 && s.counted == s.retired && s.req.inflight != []
    ensures InPipeline(w, s.req, s.retired, s.retired + 1)
  {
  }

  lemma LaunchStepIs(s: Engine, snap: Snapshot)
    requires s.req.inflight != [] && CanLaunch(s.req, true)
    requires AheadEngine.Freeze(InferRequests.Launch(s.req, true, true), true) == snap
    ensures LaunchStep(s) == s.(req := InferRequests.Launch(s.req, true, true), sent := s.sent + [snap])
  {
  }

  /** A launch sends the next snapshot and leaves both steps in the pipeline. */
  lemma LaunchSends(w: World, s: Engine) returns (t: ReqState)
    requires Inv(w, s) && Enabled(s, Launch)
    ensures |s.sent| == s.retired + 1 && s.counted == s.retired
    ensures InPipeline(w, t, s.retired, s.retired + 2)
    ensures LaunchStep(s) == s.(req := t, sent := s.sent + [Frozen(w, |s.sent|)])
  {
    LaunchesOntoOne(w, s);
    LaunchAhead(w, s.req, s.retired);
    LaunchStepIs(s, Frozen(w, s.retired + 1));
    t := InferRequests.Launch(s.req, true, true);
  }

  lemma SentNext(w: World, sent: seq<Snapshot>)
    requires forall k :: 0 <= k < |sent| ==> sent[k] == Frozen(w, k)
    ensures var sent' := sent + [Frozen(w, |sent|)];
            forall k :: 0 <= k < |sent'| ==> sent'[k] == Frozen(w, k)
  {
  }

  lemma LaunchKeeps(w: World, s: Engine)
    requires Inv(w, s) && Enabled(s, Launch)
    ensures Inv(w, LaunchStep(s))
  {
    var t := LaunchSends(w, s);
    LaunchedMatches(w, s.req, t, s.retired);
    SentNext(w, s.sent);
  }

  /** Retiring after a stop token. */
  lemma DrainMatches(w: World, req: ReqState, l: nat, r: nat, counted: nat, res: StepResult)
    requires OutputMatches(w, req, counted) && RequestMatches(w, req, l, r, counted, true) && r < l
    ensures var d := Received(req, res);
            && CanRetire(d)
            && var t := PopInflight(InferRequests.Retire(d, w.stops));
               OutputMatches(w, t, counted) && RequestMatches(w, t, l, r + 1, counted, true)
  {
    DrainKeeps(req, res.accepted, [res.bonus], res.drafts, w.stops);
  }

  lemma AfterRetireMatches(w: World, req: ReqState, t: ReqState, l: nat, r: nat)
    requires OutputMatches(w, req, r) && !req.eos && r + 1 <= l <= r + 2 && AfterRetire(w, t, r, l)
    ensures OutputMatches(w, t, r + 1) && RequestMatches(w, t, l, r + 1, r + 1, t.eos || t.inflight == [])
  {
  }

  /** Retiring before one. */
  lemma LiveMatches(w: World, req: ReqState, l: nat, r: nat) returns (t: ReqState)
    requires WorldOk(w) && OutputMatches(w, req, r) && RequestMatches(w, req, l, r, r, false)
    ensures CanRetire(Received(req, Result(w, r)))
    ensures t == PopInflight(InferRequests.Retire(Received(req, Result(w, r)), w.stops))
    ensures OutputMatches(w, t, r + 1) && RequestMatches(w, t, l, r + 1, r + 1, t.eos || t.inflight == [])
  {
    RetireLive(w, req, r, l);
    t := PopInflight(InferRequests.Retire(Received(req, Result(w, r)), w.stops));
    AfterRetireMatches(w, req, t, l, r);
  }

  lemma OpenFacts(w: World, s: Engine)
    requires Inv(w, s) && !s.closed
    ensures s.counted == s.retired && !s.req.eos && |s.sent| <= s.retired + 2
    ensures OutputMatches(w, s.req, s.retired) && RequestMatches(w, s.req, |s.sent|, s.retired, s.retired, false)
  {
  }

  /** What is left once the oldest step has been retired. */
  lemma RetiredKeeps(w: World, s: Engine, t: ReqState, counted: nat, closed: bool)
    requires Inv(w, s) && OutputMatches(w, t, counted)
    requires RequestMatches(w, t, |s.sent|, s.retired + 1, counted, closed)
    ensures Inv(w, s.(req := t, retired := s.retired + 1, counted := counted, closed := closed))
  {
  }

  lemma DrainKeepsInv(w: World, s: Engine)
    requires WorldOk(w) && Inv(w, s) && Enabled(s, Retire) && s.closed
    ensures Inv(w, RetireStep(s, w.stops, Result(w, s.retired)))
  {
    DrainMatches(w, s.req, |s.sent|, s.retired, s.counted, Result(w, s.retired));
    RetiredKeeps(w, s, RetireStep(s, w.stops, Result(w, s.retired)).req, s.counted, true);
  }

  /** What is left once the oldest step has been retired before a stop token. */
  function AfterLive(s: Engine, t: ReqState): Engine
  {
    s.(req := t, retired := s.retired + 1, counted := s.counted + 1, closed := t.eos || t.inflight == [])
  }

  lemma LiveStepIs(s: Engine, stops: seq<int>, res: StepResult, t: ReqState)
    requires CanRetire(Received(s.req, res)) && t == PopInflight(InferRequests.Retire(Received(s.req, res), stops))
    requires !s.req.eos && !s.closed
    ensures RetireStep(s, stops, res) == AfterLive(s, t)
  {
  }

  lemma AfterLiveInv(w: World, s: Engine, t: ReqState)
    requires Inv(w, s) && !s.closed && AfterRetire(w, t, s.retired, |s.sent|)
    ensures Inv(w, AfterLive(s, t))
  {
    OpenFacts(w, s);
    AfterRetireMatches(w, s.req, t, |s.sent|, s.retired);
  }

  lemma LiveAfter(w: World, s: Engine) returns (t: ReqState)
    requires WorldOk(w) && Inv(w, s) && Enabled(s, Retire) && !s.closed
    ensures !s.req.eos && CanRetire(Received(s.req, Result(w, s.retired)))
    ensures t == PopInflight(InferRequests.Retire(Received(s.req, Result(w, s.retired)), w.stops))
    ensures AfterRetire(w, t, s.retired, |s.sent|)
  {
    OpenFacts(w, s);
    RetireLive(w, s.req, s.retired, |s.sent|);
    t := PopInflight(InferRequests.Retire(Received(s.req, Result(w, s.retired)), w.stops));
  }

  lemma LiveRetires(w: World, s: Engine) returns (t: ReqState)
    requires WorldOk(w) && Inv(w, s) && Enabled(s, Retire) && !s.closed
    ensures !s.req.eos && CanRetire(Received(s.req, Result(w, s.retired)))
    ensures t == PopInflight(InferRequests.Retire(Received(s.req, Result(w, s.retired)), w.stops))
    ensures Inv(w, AfterLive(s, t))
  {
    t := LiveAfter(w, s);
    AfterLiveInv(w, s, t);
  }

  lemma LiveKeepsInv(w: World, s: Engine)
    requires WorldOk(w) && Inv(w, s) && Enabled(s, Retire) && !s.closed
    ensures Inv(w, RetireStep(s, w.stops, Result(w, s.retired)))
  {
    var t := LiveRetires(w, s);
    LiveStepIs(s, w.stops, Result(w, s.retired), t);
  }

  lemma RetireKeeps(w: World, s: Engine)
    requires WorldOk(w) && Inv(w, s) && Enabled(s, Retire)
    ensures Inv(w, RetireStep(s, w.stops, Result(w, s.retired)))
  {
    if s.closed {
      DrainKeepsInv(w, s);
    } else {
      LiveKeepsInv(w, s);
    }
  }

  lemma StepKeeps(w: World, s: Engine, ev: Event)
    requires WorldOk(w) && Inv(w, s) && Enabled(s, ev)
    ensures Inv(w, Step(w, s, ev))
  {
    match ev
    case Plan => PlanKeeps(w, s);
    case Launch => LaunchKeeps(w, s);
    case Retire => RetireKeeps(w, s);
  }

  // ---- Runs ----

  /** Some run of the Engine takes `s` through the events `evs` to `t`. */
  ghost predicate Reaches(w: World, s: Engine, evs: seq<Event>, t: Engine)
    decreases |evs|
  {
    if evs == [] then s == t else Enabled(s, evs[0]) && Reaches(w, Step(w, s, evs[0]), evs[1..], t)
  }

  lemma {:induction false} RunKeeps(w: World, s: Engine, evs: seq<Event>, t: Engine)
    requires WorldOk(w) && Inv(w, s) && Reaches(w, s, evs, t)
    ensures Inv(w, t)
    decreases |evs|
  {
    if evs != [] {
      StepKeeps(w, s, evs[0]);
      RunKeeps(w, Step(w, s, evs[0]), evs[1..], t);
    }
  }

  /** A run from the last prefill chunk in flight. */
  ghost predicate Run(w: World, s: Engine, evs: seq<Event>, t: Engine)
  {
    WorldOk(w) && Initial(w, s) && Reaches(w, s, evs, t)
  }

  lemma RunInv(w: World, s: Engine, evs: seq<Event>, t: Engine)
    requires Run(w, s, evs, t)
    ensures Inv(w, t)
  {
    InitialInv(w, s);
    RunKeeps(w, s, evs, t);
  }

  /** Three-way agreement, the Engine: in every run, until a stop token, once the block of step `k` has been
      backfilled `forwarding` is the depth-1 input of step `k` with any unfilled slots still behind it, and
      the cached prefix is the depth-1 one. The draft count is that of the reserved slots: the depth-1 count
      exactly when all of them were filled. */
  lemma EngineAgrees(w: World, s: Engine, evs: seq<Event>, t: Engine)
    requires Run(w, s, evs, t) && !t.closed && |t.sent| == t.retired + 1
    ensures t.req.forwarding == Ref(w, t.retired).tokens + Fill(PLACEHOLDER, Unfilled(w, t.retired))
    ensures t.retired > 0 ==> t.req.kv == Ref(w, t.retired).kv
    ensures t.req.draftNum == Ref(w, t.retired).draftNum + Unfilled(w, t.retired)
    ensures t.req.draftNum == Ref(w, t.retired).draftNum <==> Unfilled(w, t.retired) == 0
  {
    RunInv(w, s, evs, t);
  }

  /** In every run, unless a step has been launched since the last retire, the cached prefix
      `forwarding[..kv]` is the output without its last token. */
  lemma CachedPrefixAlways(w: World, s: Engine, evs: seq<Event>, t: Engine)
    requires Run(w, s, evs, t) && t.retired > 0 && (t.closed || |t.sent| == t.retired + 1)
    ensures CachedPrefixIsOutput(t.req)
  {
    RunInv(w, s, evs, t);
  }

  /** In every run, before a stop token and after it, the pending blocks tile the tail of `forwarding`, there is
      one per step in flight that carries one, in the same order and with as many slots, and the backfill test
      takes a retire for the first block's predecessor exactly when it is. */
  lemma QueueInvariant(w: World, s: Engine, evs: seq<Event>, t: Engine)
    requires Run(w, s, evs, t)
    ensures QueueTiles(t.req) && BlocksMatchTasks(t.req) && |t.req.pendingPos| == |t.sent| - Max(t.retired, 1)
    ensures t.req.pendingPos != [] ==> (FrontAwaitsPredecessor(t.req) <==> t.retired == 0)
  {
    RunInv(w, s, evs, t);
    if !t.closed {
      QueueTilesTail(w, t.req, t.retired, |t.sent|);
    }
  }

  lemma LiveIsDecoding(w: World, s: Engine)
    requires Inv(w, s) && Enabled(s, Retire) && !s.req.eos
    ensures !s.closed && s.req.remaining.prefill == 0 && s.req.remaining.offset == |s.req.prefilling|
    ensures !IsSplitPrefill(s.req)
  {
  }

  lemma RetireLeavesPlan(w: World, s: Engine) returns (t: Engine)
    requires WorldOk(w) && Inv(w, s) && Enabled(s, Retire) && !s.req.eos
    ensures t == Step(w, s, Retire) && Inv(w, t) && t.sent == s.sent && t.req.remaining.offset == |t.req.prefilling|
    ensures t.req.planning == Workload(0, 0, 1, |Result(w, s.retired).drafts|, 0)
    ensures t.req.remaining.prefill == 0 && t.req.remaining.generated == 1
    ensures t.req.remaining.draft == |Result(w, s.retired).drafts| && (!t.closed ==> |t.sent| == t.retired + 1)
  {
    LiveIsDecoding(w, s);
    OpenFacts(w, s);
    var req := LiveRetires(w, s);
    RetireLeavesWork(Received(s.req, Result(w, s.retired)), w.stops);
    RetireKeeps(w, s);
    LiveStepIs(s, w.stops, Result(w, s.retired), req);
    t := Step(w, s, Retire);
  }

  /** Planned without an estimate and launched, the step travels as if scheduled with what was left. */
  lemma LeftPlanLaunches(w: World, t: Engine, n: nat)
    requires Inv(w, t) && !t.closed && t.req.planned.IsEmpty() && SlotsAt(w, |t.sent|) == n && |t.sent| == t.retired + 1
    requires t.req.planning == Workload(0, 0, 1, n, 0) && t.req.remaining.generated == 1 && t.req.remaining.draft == n
    requires t.req.remaining.prefill == 0 && t.req.remaining.offset == |t.req.prefilling|
    ensures CanPlan(t.req)
    ensures var p := t.(req := InferRequests.Plan(t.req));
            p == PlanStep(w, t) && LaunchStep(p).sent == t.sent + [Frozen(w, |t.sent|)]
  {
    EstimateOfLeft(t.req, n);
    PlanKeeps(w, t);
    var _ := LaunchSends(w, t.(req := InferRequests.Plan(t.req)));
  }

  /** In every run, a retire before a stop token leaves to plan one token and every draft its result brought;
      planned straight from that, with no estimate, the next step reserves a slot for each of them and travels
      with the snapshot of a step scheduled so. */
  lemma LeftPlanReservesAll(w: World, s: Engine, evs: seq<Event>, q: Engine)
    requires Run(w, s, evs, q) && Enabled(q, Retire) && !q.req.eos
    ensures var t, n := Step(w, q, Retire), |Result(w, q.retired).drafts|;
            && t.req.planning == Workload(0, 0, 1, n, 0)
            && (!t.closed && t.req.planned.IsEmpty() && SlotsAt(w, |t.sent|) == n ==>
                  && CanPlan(t.req)
                  && var p := t.(req := InferRequests.Plan(t.req));
                     p == PlanStep(w, t) && LaunchStep(p).sent == t.sent + [Frozen(w, |t.sent|)])
  {
    RunInv(w, s, evs, q);
    var t := RetireLeavesPlan(w, q);
    var n := |Result(w, q.retired).drafts|;
    if !t.closed && t.req.planned.IsEmpty() && SlotsAt(w, |t.sent|) == n {
      LeftPlanLaunches(w, t, n);
    }
  }

  lemma LaunchStepAnnounces(s: Engine)
    requires TasksAnnounced(s.req, s.sent, s.retired)
    ensures var t := LaunchStep(s); TasksAnnounced(t.req, t.sent, t.retired)
  {
    if CanLaunch(s.req, s.req.inflight != []) {
      LaunchAnnounces(s.req, s.req.inflight != [], true, s.sent, s.retired);
    }
  }

  lemma RetireStepAnnounces(s: Engine, stops: seq<int>, res: StepResult)
    requires TasksAnnounced(s.req, s.sent, s.retired)
    ensures var t := RetireStep(s, stops, res); TasksAnnounced(t.req, t.sent, t.retired)
  {
    if CanRetire(Received(s.req, res)) {
      RetirePopsOldest(Received(s.req, res), stops);
      RetireAnnounces(s.req, RetireStep(s, stops, res).req, s.sent, s.retired);
    }
  }

  lemma StepAnnounces(w: World, s: Engine, ev: Event)
    requires TasksAnnounced(s.req, s.sent, s.retired)
    ensures var t := Step(w, s, ev); TasksAnnounced(t.req, t.sent, t.retired)
  {
    match ev
    case Plan =>
    case Launch => LaunchStepAnnounces(s);
    case Retire => RetireStepAnnounces(s, w.stops, Result(w, s.retired));
  }

  lemma {:induction false} RunAnnounces(w: World, s: Engine, evs: seq<Event>, t: Engine)
    requires TasksAnnounced(s.req, s.sent, s.retired) && Reaches(w, s, evs, t)
    ensures TasksAnnounced(t.req, t.sent, t.retired)
    decreases |evs|
  {
    if evs != [] {
      StepAnnounces(w, s, evs[0]);
      RunAnnounces(w, Step(w, s, evs[0]), evs[1..], t);
    }
  }

  /** In every run each step in flight travelled with the kind, the sampling count and the draft count it was
      planned with; the first step is the end of the prefill, all others decode, and each samples. */
  lemma StepKindsTravel(w: World, s: Engine, evs: seq<Event>, t: Engine)
    requires Run(w, s, evs, t)
    ensures TasksAnnounced(t.req, t.sent, t.retired)
    ensures forall k :: 0 <= k < |t.sent| ==>
              && t.sent[k].kind == (if k == 0 then PrefillStep else DecodeStep)
              && t.sent[k].sampling == 1 + t.sent[k].draftNum && t.sent[k].prefixLen == t.sent[k].kv
    ensures t.req.stage == if t.retired == 0 then Context else Decode
  {
    RunAnnounces(w, s, evs, t);
    RunInv(w, s, evs, t);
  }

  /** Depth 2 refines depth 1: in every run the output is the depth-1 output after as many results, it
      stops on the same stop token, and a step launched past that token adds nothing and leaves no
      pending block. */
  lemma OutputRefinesDepthOne(w: World, s: Engine, evs: seq<Event>, t: Engine)
    requires Run(w, s, evs, t)
    ensures !t.failed
    ensures t.req.output == Output(w, t.counted) && t.counted <= t.retired
    ensures t.counted > 0 ==> Running(w, t.counted - 1)
    ensures t.req.eos <==> t.counted > 0 && Result(w, t.counted - 1).bonus in w.stops
    ensures t.counted < t.retired ==> t.req.eos
    ensures t.req.inflight == [] ==> t.req.pendingPos == [] && t.req.pendingDraft == []
  {
    RunInv(w, s, evs, t);
  }

  /** In every run, a launched snapshot has -1 in its newest block and nowhere else, and its first -1 stands
      where that block starts, exactly when the block before was filled, if real tokens are never -1. */
  lemma ScanningSnapshots(w: World, s: Engine, evs: seq<Event>, t: Engine, k: nat)
    requires Run(w, s, evs, t) && NoPlaceholders(w) && 0 < k < |t.sent|
    ensures t.sent[k].placeholder.Some?
    ensures var f := t.sent[k];
            && (FirstPlaceholder(f.forwarding, 0) == f.placeholder <==> Unfilled(w, k - 1) == 0)
            && ((forall i :: 0 <= i < |f.forwarding| ==> (f.forwarding[i] == PLACEHOLDER <==> i >= f.placeholder.value))
                <==> Unfilled(w, k - 1) == 0)
  {
    RunInv(w, s, evs, t);
    PlaceholdersOnlyInNewestBlock(w, k);
  }
}
