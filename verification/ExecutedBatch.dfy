/** The steps the Executor runs, as the batch layout sees them. */
module ExecutedBatches {
  import opened Tokens
  import opened BatchLayout
  import opened Reference
  import AheadRun

  /** A request of the batch with the fields of a forwarded step. */
  function AsReq(id: int, group: nat, x: StepInput): Req
  {
    Req(id, group, x.tokens, x.kv, x.prefixLen, 0, x.sampling)
  }

  /** A decode step forwards its main token and its drafts, and samples behind each of them: as many rows as tokens.
      It counts as paged exactly when it has no draft, and as a decode step on the slow path exactly up to the
      threshold; both only behind a cached prefix. */
  lemma DecodeStepLayout(id: int, group: nat, x: StepInput, threshold: nat)
    requires x.kv + 1 + x.draftNum == |x.tokens| && x == DecodeInput(x.tokens, x.kv, x.draftNum)
    ensures var r := AsReq(id, group, x);
            && ReqOk(r) && InputLen(r) == r.sampling == 1 + x.draftNum
            && (IsPaged(r) <==> x.draftNum == 0 && x.kv > 0)
            && (IsDecode(r, threshold) <==> x.draftNum < threshold && x.kv > 0)
  {
  }

  /** The end of a prefill forwards the tokens behind its cached prefix and samples one. It counts as paged exactly when
      all but its last token are cached, and as a decode step exactly when at most `threshold` are not; both only
      behind a cached prefix. */
  lemma PrefillStepLayout(id: int, group: nat, prompt: seq<int>, chunkStart: nat, threshold: nat)
    requires chunkStart <= |prompt|
    ensures var r := AsReq(id, group, FirstInput(prompt, chunkStart));
            && ReqOk(r) && InputLen(r) == |prompt| - chunkStart && r.sampling == 1
            && (IsPaged(r) <==> 0 < chunkStart == |prompt| - 1)
            && (IsDecode(r, threshold) <==> chunkStart > 0 && |prompt| - chunkStart <= threshold)
  {
  }

  /** In every run whose executed inputs are the depth-1 ones, each step behind the prefill finds a logits row for
      every token it forwards and for no other, wherever it stands in its batch: row `j` of its own is its token
      `j`. */
  lemma ExecutedStepsSampleTheirInput(w: World, s: AheadRun.Sys, evs: seq<AheadRun.Event>, t: AheadRun.Sys, k: nat,
                                      batch: seq<Req>, i: nat, group: nat, j: nat)
    requires AheadRun.Run(w, s, evs, t) && AheadRun.InputsAgree(w, t.inputs, |t.inputs|) && 0 < k < |t.inputs|
    requires BatchOk(batch) && i < |batch| && batch[i] == AsReq(w.id, group, t.inputs[k])
    ensures batch[i].sampling == InputLen(batch[i]) == 1 + Ref(w, k).draftNum
    ensures j < batch[i].sampling ==>
              && Samples(batch, i) + j < |LogitsIdx(batch, |batch|)|
              && LogitsIdx(batch, |batch|)[Samples(batch, i) + j] == |Flat(batch, i)| + j
  {
    assert t.inputs[k] == Ref(w, k);
    RefShape(w, k);
    DecodeStepLayout(w.id, group, Ref(w, k), 0);
    if j < batch[i].sampling {
      LogitsPointAtWantedTokens(batch, |batch|, i, j);
    }
  }
}
