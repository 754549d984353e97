/** What every launch and every retire of a request keeps, whatever state it is in. */
module RequestSteps {
  import opened Tokens
  import opened InferRequests

  function Newest(t: ReqState): Workload
    requires t.inflight != []
  {
    t.inflight[|t.inflight| - 1]
  }

  // ---- Launching ----

  /** A launched step's workload is what it leaves behind the cached prefix: prompt tokens, generated tokens or the
      slot of one, and drafts or their slots. */
  lemma LaunchedWork(s: ReqState, ahead: bool, fastPath: bool)
    requires CanLaunch(s, ahead) && (s.planned.prefill > 0 ==> s.planned.generated == s.planned.draft == 0)
    ensures var t := Launch(s, ahead, fastPath);
            && t.inflight == s.inflight + [Newest(t)] && t.prefixLen == t.kv
            && |t.forwarding| == t.kv + Newest(t).prefill + Newest(t).generated + Newest(t).draft
            && t.draftNum == Newest(t).draft && t.sampling == Newest(t).sampling
            && t.sampling == if t.kind == PrefillChunkMid then 0 else 1 + t.draftNum
  {
  }

  /** Unless slots are reserved, or it is the middle of a prefill, the drafts kept are the ones being verified: they
      end the sequence. */
  lemma LaunchedDrafts(s: ReqState, ahead: bool, fastPath: bool)
    requires CanLaunch(s, ahead)
    ensures var t := Launch(s, ahead, fastPath);
            t.kind != PrefillChunkMid && t.pendingPos == s.pendingPos ==>
              && Newest(t).draft == |t.drafts| <= |t.forwarding|
              && t.forwarding[|t.forwarding| - |t.drafts|..] == t.drafts
  {
    var t := Launch(s, ahead, fastPath);
    if t.pendingPos != s.pendingPos {
    } else if t.kind != PrefillChunkMid {
      assert t.forwarding == t.forwarding[..|t.forwarding| - |t.drafts|] + t.drafts;
    }
  }

  /** A decode step with known tokens takes as much of what is at hand, generated tokens before drafts, as was
      planned. */
  lemma LaunchedFillsPlan(s: ReqState, ahead: bool, fastPath: bool)
    requires CanLaunch(s, ahead) && s.planned.prefill == 0
    ensures var t := Launch(s, ahead, fastPath);
            var taken := Min(s.planned.generated + s.planned.draft, |s.generated| + |s.drafts|);
            t.pendingPos == s.pendingPos ==> t.forwarding == s.forwarding + (s.generated + s.drafts)[..taken]
  {
    var t := Launch(s, ahead, fastPath);
    var taken := Min(s.planned.generated + s.planned.draft, |s.generated| + |s.drafts|);
    if t.pendingPos == s.pendingPos {
      assert (s.generated + s.drafts)[..taken] == s.generated + s.drafts[..taken - |s.generated|];
      assert t.forwarding == s.forwarding + s.generated + s.drafts[..taken - |s.generated|];
    }
  }

  /** The last chunk of a prompt takes the request's drafts along; retired, it leaves the prompt with the accepted
      ones behind it. */
  lemma LastChunkVerifies(s: ReqState, fastPath: bool, accepted: seq<int>, bonus: int, drafts: seq<int>,
                          stops: seq<int>)
    requires s.inflight == [] && s.pendingPos == s.pendingDraft == [] && !s.eos && CanLaunch(s, false)
    requires s.planned.prefill > 0 && s.planned.offset + s.planned.prefill == |s.prefilling|
    requires |s.forwarding| == s.planned.offset ==> s.forwarding == s.prefilling[..s.planned.offset]
    requires accepted <= s.drafts
    ensures var t := Launch(s, false, fastPath);
            var d := Deliver(t, accepted, [bonus], drafts);
            && t.forwarding == s.prefilling + s.drafts && CanRetire(d)
            && var u := PopInflight(Retire(d, stops));
               && u.forwarding == s.prefilling + accepted && u.kv == |u.forwarding|
               && u.output == s.output + accepted + [bonus]
  {
    var t := Launch(s, false, fastPath);
    assert s.prefilling[..s.planned.offset] + s.prefilling[s.planned.offset..] == s.prefilling;
    assert t.forwarding == s.prefilling + s.drafts;
    if s.drafts != [] {
      assert Resize(t.forwarding, |s.prefilling| + |accepted|) == s.prefilling + accepted;
    } else {
      assert t.forwarding == s.prefilling;
    }
  }

  // ---- Retiring ----

  /** A retire of any kind takes the oldest step out of flight and no other. */
  lemma RetirePopsOldest(d: ReqState, stops: seq<int>)
    requires CanRetire(d)
    ensures PopInflight(Retire(d, stops)).inflight == d.inflight[1..]
  {
  }

  /** Before a stop token, retiring a step that samples enters the decode stage, and each token it brought is output
      once: the generated ones, and the accepted drafts unless they are left standing, then not. */
  lemma RetireMovesTokens(d: ReqState, stops: seq<int>)
    requires CanRetire(d) && !d.eos && !IsSplitPrefill(d)
    ensures var t := PopInflight(Retire(d, stops));
            && t.stage == Decode
            && (t.accepted == [] || t.accepted == d.accepted)
            && t.output == d.output + (if t.accepted == [] then d.accepted else []) + d.generated
  {
    assert d.output + [] + d.generated == d.output + d.generated;
    if d.pendingPos == [] || FrontAwaitsPredecessor(d) {
    } else {
      assert RetireOwn(d, stops).output == d.output + d.accepted + d.generated;
    }
  }

  // ---- The books: what is left to do, and what is planned next ----

  /** Of the tokens to decode, what is planned next is what is left to do. */
  predicate BooksBalance(s: ReqState)
  {
    s.remaining.generated == s.planning.generated && s.remaining.draft == s.planning.draft
  }

  /** Whatever is estimated, planned, launched or retired, the books balance; a plan settles them. */
  lemma BooksStayBalanced(s: ReqState, generated: nat, draft: nat, ahead: bool, fastPath: bool, stops: seq<int>)
    requires BooksBalance(s)
    ensures BooksBalance(Estimate(s, generated, draft))
    ensures CanPlan(s) ==> BooksBalance(Plan(s)) && Plan(s).planning.IsEmpty()
    ensures CanLaunch(s, ahead) ==> BooksBalance(Launch(s, ahead, fastPath))
    ensures CanRetire(s) && (IsSplitPrefill(s) || s.remaining.prefill == 0) ==>
              BooksBalance(PopInflight(Retire(s, stops)))
  {
  }

  /** Whichever block it retires, if any, a step leaves for the scheduler what its result brought: the generated
      tokens and every draft. */
  lemma RetireLeavesWork(d: ReqState, stops: seq<int>)
    requires CanRetire(d) && !d.eos && !IsSplitPrefill(d) && d.remaining.prefill == 0
    ensures var t, made, drafted := PopInflight(Retire(d, stops)), |d.generated|, |d.drafts|;
            && t.planning == Workload(0, 0, made, drafted, 0)
            && t.remaining == d.remaining.(generated := made, draft := drafted)
            && t.planned == d.planned && t.prefilling == d.prefilling
  {
  }

  /** Planning with an estimate of what is already there is planning without one. */
  lemma EstimateOfLeft(t: ReqState, n: nat)
    requires t.planning == Workload(0, 0, 1, n, 0) && t.remaining.generated == 1 && t.remaining.draft == n
    ensures Estimate(t, 1, n) == t
  {
  }

  // ---- Starting over ----

  /** A request that is reset is ready to be planned as it stands: launched in one go, all its output is prefilled
      from nothing. The launch samples one token, so a custom logits length stays in the sampling count exactly if
      it is at most 1. */
  lemma ResetLaunches(s: ReqState, customLogits: nat, fastPath: bool)
    requires s.output != []
    ensures var t := Reset(s, customLogits);
            && t.stage == Context && t.kind == PrefillStep && BooksBalance(t) && t.sampling == Max(1, customLogits)
            && CanPlan(t) && CanLaunch(Plan(t), false)
            && var u := Launch(Plan(t), false, fastPath);
               && u.forwarding == s.output && u.kv == u.prefixLen == u.draftNum == 0 && u.remaining.prefill == 0
               && u.kind == PrefillStep && u.stage == Context && |u.inflight| == 1
               && u.sampling == 1 && (u.sampling == t.sampling <==> customLogits <= 1)
  {
  }
}
