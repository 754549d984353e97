/** What the depth-1 path computes for one request, step by step. */
module Reference {
  import opened Tokens

  /** What the model and the sampler see in one step: the sequence, where its cached prefix ends, how many of
      its last tokens are drafts to verify, how many positions are sampled, and what kind of step it is. */
  datatype StepInput = StepInput(tokens: seq<int>, kv: nat, prefixLen: nat, draftNum: nat, sampling: nat,
                                 kind: StepKind)

  /** The last prefill chunk: it samples one token. */
  function FirstInput(prompt: seq<int>, chunkStart: nat): StepInput
  {
    StepInput(prompt, chunkStart, chunkStart, 0, 1, PrefillStep)
  }

  /** A decode step: it samples behind its main token and behind each draft. */
  function DecodeInput(tokens: seq<int>, kv: nat, draftNum: nat): StepInput
  {
    StepInput(tokens, kv, kv, draftNum, 1 + draftNum, DecodeStep)
  }

  /** What one step yields: the accepted drafts, the bonus token and the next drafts. `drafts` is the list
      `GetDraftTokens` merges from every source; `mtp` are the MTP drafts alone. */
  datatype StepResult = StepResult(accepted: seq<int>, bonus: int, drafts: seq<int>, mtp: seq<int>)

  /** One request in its surroundings. `plan(k)` is the number of drafts the scheduler plans for step
      `k`; `model` stands for forward, sampling, verification and MTP. */
  datatype World = World(id: int, prompt: seq<int>, chunkStart: nat, stops: seq<int>,
                         plan: nat -> nat, model: StepInput -> StepResult)

  /** How many drafts the scheduler plans for step `k`. */
  function SlotsAt(w: World, k: nat): nat { w.plan(k) }

  function Drafts(x: StepInput): seq<int>
    requires x.draftNum <= |x.tokens|
  {
    x.tokens[|x.tokens| - x.draftNum..]
  }

  /** Accepted tokens are a prefix of the drafts, and no sampled token is the placeholder. */
  ghost predicate WellFormedResult(x: StepInput, r: StepResult)
    requires x.draftNum <= |x.tokens|
  {
    r.accepted <= Drafts(x) && r.bonus != PLACEHOLDER
  }

  ghost predicate WorldOk(w: World)
  {
    && w.chunkStart <= |w.prompt|
    && forall x: StepInput :: x.draftNum <= |x.tokens| ==> WellFormedResult(x, w.model(x))
  }

  /** The tokens a verified step leaves committed. */
  function Committed(x: StepInput, accepted: seq<int>): seq<int>
    requires x.draftNum <= |x.tokens|
  {
    x.tokens[..|x.tokens| - x.draftNum] + accepted
  }

  /** The drafts that fit into `slots` slots. */
  function Fitting(drafts: seq<int>, slots: nat): (d: seq<int>)
    ensures |d| == Min(slots, |drafts|)
  {
    drafts[..Min(slots, |drafts|)]
  }

  function TakenDrafts(r: StepResult, slots: nat): (d: seq<int>)
    ensures |d| == Min(slots, |r.drafts|)
  {
    Fitting(r.drafts, slots)
  }

  /** The next step's input after `x` yielded `r`, when `slots` drafts are planned for it. */
  function Next(x: StepInput, r: StepResult, slots: nat): (y: StepInput)
    requires x.draftNum <= |x.tokens|
    ensures y.draftNum <= slots && y.kv + 1 + y.draftNum == |y.tokens|
  {
    var c := Committed(x, r.accepted);
    DecodeInput(c + [r.bonus] + TakenDrafts(r, slots), |c|, |TakenDrafts(r, slots)|)
  }

  /** The input of sampled step `k`; step 0 is the last prefill chunk. */
  ghost function Ref(w: World, k: nat): (x: StepInput)
    ensures x.draftNum <= |x.tokens|
    ensures k > 0 ==> x.kv + 1 + x.draftNum == |x.tokens| && x.draftNum <= SlotsAt(w, k)
  {
    if k == 0 then FirstInput(w.prompt, w.chunkStart)
    else Next(Ref(w, k - 1), w.model(Ref(w, k - 1)), SlotsAt(w, k))
  }

  ghost function Result(w: World, k: nat): StepResult
  {
    w.model(Ref(w, k))
  }

  /** The output after the results of the first `k` sampled steps. */
  ghost function Output(w: World, k: nat): seq<int>
  {
    if k == 0 then w.prompt else Output(w, k - 1) + Result(w, k - 1).accepted + [Result(w, k - 1).bonus]
  }

  /** None of the first `k` results ends on a stop token. */
  ghost predicate Running(w: World, k: nat)
  {
    forall j :: 0 <= j < k ==> Result(w, j).bonus !in w.stops
  }

  /** The committed tokens after `k` results: everything the next step's main token follows. */
  ghost function Prefix(w: World, k: nat): seq<int>
    requires k > 0
  {
    Committed(Ref(w, k - 1), Result(w, k - 1).accepted)
  }

  lemma RefShape(w: World, k: nat)
    requires k > 0
    ensures var x, r := Ref(w, k), Result(w, k - 1);
            && x.kv == |Prefix(w, k)|
            && x.tokens == Prefix(w, k) + [r.bonus] + TakenDrafts(r, SlotsAt(w, k))
  {
  }

  /** The committed tokens are the output without its last token. */
  lemma {:induction false} OutputIsPrefix(w: World, k: nat)
    requires WorldOk(w) && k > 0
    ensures Output(w, k) == Prefix(w, k) + [Result(w, k - 1).bonus]
  {
    if k == 1 {
      assert WellFormedResult(Ref(w, 0), Result(w, 0));
    } else {
      OutputIsPrefix(w, k - 1);
      RefShape(w, k - 1);
      var x := Ref(w, k - 1);
      assert x.tokens[..|x.tokens| - x.draftNum] == Output(w, k - 1);
    }
  }

  // ---- Real tokens are never the placeholder ----

  /** Neither the prompt nor any draft is the placeholder; `WorldOk` says the same of sampled tokens. */
  ghost predicate NoPlaceholders(w: World)
  {
    PLACEHOLDER !in w.prompt && forall x: StepInput :: PLACEHOLDER !in w.model(x).drafts
  }

  /** What has no placeholder has none in any of its parts. */
  lemma PartHasNoPlaceholder(s: seq<int>, lo: nat, hi: nat)
    requires lo <= hi <= |s| && PLACEHOLDER !in s
    ensures PLACEHOLDER !in s[lo..hi]
  {
    assert forall i :: lo <= i < hi ==> s[lo..hi][i - lo] == s[i];
  }

  lemma NextHasNoPlaceholder(x: StepInput, r: StepResult, slots: nat)
    requires x.draftNum <= |x.tokens| && WellFormedResult(x, r)
    requires PLACEHOLDER !in x.tokens && PLACEHOLDER !in r.drafts
    ensures PLACEHOLDER !in Next(x, r, slots).tokens
  {
    PartHasNoPlaceholder(x.tokens, 0, |x.tokens| - x.draftNum);
    PartHasNoPlaceholder(x.tokens, |x.tokens| - x.draftNum, |x.tokens|);
    PartHasNoPlaceholder(Drafts(x), 0, |r.accepted|);
    PartHasNoPlaceholder(r.drafts, 0, Min(slots, |r.drafts|));
  }

  /** No depth-1 input holds the placeholder. */
  lemma {:induction false} RefHasNoPlaceholder(w: World, k: nat)
    requires WorldOk(w) && NoPlaceholders(w)
    ensures PLACEHOLDER !in Ref(w, k).tokens
  {
    if k > 0 {
      RefHasNoPlaceholder(w, k - 1);
      NextHasNoPlaceholder(Ref(w, k - 1), w.model(Ref(w, k - 1)), SlotsAt(w, k));
    }
  }
}
