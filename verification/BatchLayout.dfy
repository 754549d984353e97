/** How a batch is ordered and flattened before a step runs. */
module BatchLayout {
  import opened Tokens

  /** A request and where its last input token stands in the flat batch. */
  datatype Pair = Pair(id: int, offset: int)

  /** A request of the batch. */
  datatype Req = Req(id: int, dpGroup: nat, tokens: seq<int>, kv: nat, prefixLen: nat, flexibleLen: nat,
                     sampling: nat)

  /** Tokens served from a cache are not forwarded. */
  function Skipped(r: Req): nat { Max(r.kv, r.prefixLen + r.flexibleLen) }

  predicate ReqOk(r: Req) { Skipped(r) <= |r.tokens| }

  function InputLen(r: Req): nat
    requires ReqOk(r)
  {
    |r.tokens| - Skipped(r)
  }

  /** A request forwards exactly the tokens that neither its cached tokens nor its prefix with what was copied behind
      it cover. */
  lemma ForwardsUncovered(r: Req, i: nat)
    requires ReqOk(r) && i < |r.tokens|
    ensures |r.tokens| - InputLen(r) <= i <==> r.kv <= i && r.prefixLen + r.flexibleLen <= i
  {
  }

  // ---- The two orders ----

  predicate IsPaged(r: Req)
    requires ReqOk(r)
  {
    InputLen(r) == 1 && r.kv > 0
  }

  /** `ReorderInferRequestsBuildAhead`. */
  predicate AheadLess(a: Req, b: Req)
    requires ReqOk(a) && ReqOk(b)
  {
    if a.dpGroup != b.dpGroup then a.dpGroup < b.dpGroup
    else if IsPaged(a) != IsPaged(b) then !IsPaged(a)
    else if InputLen(a) != InputLen(b) then InputLen(a) > InputLen(b)
    else if a.kv != b.kv then a.kv < b.kv
    else a.id < b.id
  }

  function Uncached(r: Req): nat
    requires ReqOk(r)
  {
    |r.tokens| - r.kv
  }

  predicate IsDecode(r: Req, threshold: nat)
    requires ReqOk(r)
  {
    Uncached(r) <= threshold && r.kv > 0
  }

  /** `ReorderInferRequestsSlowPath`. */
  predicate SlowLess(a: Req, b: Req, threshold: nat)
    requires ReqOk(a) && ReqOk(b)
  {
    if a.dpGroup != b.dpGroup then a.dpGroup < b.dpGroup
    else if IsDecode(a, threshold) == IsDecode(b, threshold) then
      if Uncached(a) != Uncached(b) then Uncached(a) > Uncached(b)
      else if a.kv != b.kv then a.kv < b.kv
      else a.id < b.id
    else !IsDecode(a, threshold)
  }

  /** Either comparator, by path. */
  predicate Less(fast: bool, threshold: nat, a: Req, b: Req)
    requires ReqOk(a) && ReqOk(b)
  {
    if fast then AheadLess(a, b) else SlowLess(a, b, threshold)
  }

  /** Both comparators are strict total orders on requests with distinct ids. */
  lemma LessIsStrictTotalOrder(fast: bool, threshold: nat, a: Req, b: Req, c: Req)
    requires ReqOk(a) && ReqOk(b) && ReqOk(c)
    ensures !Less(fast, threshold, a, a)
    ensures Less(fast, threshold, a, b) && Less(fast, threshold, b, c) ==> Less(fast, threshold, a, c)
    ensures a.id != b.id ==> (Less(fast, threshold, a, b) <==> !Less(fast, threshold, b, a))
  {
  }

  ghost predicate BatchOk(rs: seq<Req>)
  {
    forall i :: 0 <= i < |rs| ==> ReqOk(rs[i])
  }

  ghost predicate Sorted(fast: bool, threshold: nat, s: seq<Req>)
    requires BatchOk(s)
  {
    forall i, j :: 0 <= i < j < |s| ==> Less(fast, threshold, s[i], s[j])
  }

  lemma HeadIsLeast(fast: bool, threshold: nat, s: seq<Req>, r: Req)
    requires BatchOk(s) && Sorted(fast, threshold, s) && r in s && r != s[0]
    ensures ReqOk(r) && Less(fast, threshold, s[0], r)
  {
  }

  lemma TailOfSorted(fast: bool, threshold: nat, s: seq<Req>)
    requires BatchOk(s) && Sorted(fast, threshold, s) && s != []
    ensures BatchOk(s[1..]) && Sorted(fast, threshold, s[1..])
    ensures multiset(s[1..]) == multiset(s) - multiset{s[0]}
  {
    assert s == [s[0]] + s[1..];
  }

  /** So a batch has exactly one sorted order: whatever sorts it returns the same sequence. */
  lemma {:induction false} SortedIsUnique(fast: bool, threshold: nat, s: seq<Req>, t: seq<Req>)
    requires multiset(s) == multiset(t) && BatchOk(s) && BatchOk(t)
    requires Sorted(fast, threshold, s) && Sorted(fast, threshold, t)
    ensures s == t
    decreases |s|
  {
    assert |s| == |multiset(s)| == |multiset(t)| == |t|;
    if s != [] {
      assert s[0] in multiset(t) && t[0] in multiset(s);
      if s[0] != t[0] {
        HeadIsLeast(fast, threshold, s, t[0]);
        HeadIsLeast(fast, threshold, t, s[0]);
        LessIsStrictTotalOrder(fast, threshold, s[0], t[0], s[0]);
        assert false;
      }
      TailOfSorted(fast, threshold, s);
      TailOfSorted(fast, threshold, t);
      SortedIsUnique(fast, threshold, s[1..], t[1..]);
      assert s == [s[0]] + s[1..] && t == [t[0]] + t[1..];
    }
  }

  /** More tokens to compute, else a shorter cached prefix, else a smaller id. */
  predicate InOrder(m: nat, a: Req, n: nat, b: Req)
  {
    && m >= n && (m == n ==> a.kv <= b.kv) && (m == n && a.kv == b.kv ==> a.id < b.id)
  }

  /** Groups are contiguous; within one, the fast order puts every non-paged request before every paged one,
      the slow order every prefill before every decode; among equals of those, more tokens to compute come first,
      then the shorter cached prefix, then the smaller id. */
  lemma SortedGroups(fast: bool, threshold: nat, s: seq<Req>, i: nat, j: nat)
    requires BatchOk(s) && Sorted(fast, threshold, s) && i < j < |s|
    ensures s[i].dpGroup <= s[j].dpGroup
    ensures s[i].dpGroup == s[j].dpGroup && fast ==> (IsPaged(s[i]) ==> IsPaged(s[j]))
    ensures s[i].dpGroup == s[j].dpGroup && !fast ==> (IsDecode(s[i], threshold) ==> IsDecode(s[j], threshold))
    ensures s[i].dpGroup == s[j].dpGroup && fast && IsPaged(s[i]) == IsPaged(s[j]) ==>
              InOrder(InputLen(s[i]), s[i], InputLen(s[j]), s[j])
    ensures s[i].dpGroup == s[j].dpGroup && !fast && IsDecode(s[i], threshold) == IsDecode(s[j], threshold) ==>
              InOrder(|s[i].tokens| - s[i].kv, s[i], |s[j].tokens| - s[j].kv, s[j])
  {
    assert Less(fast, threshold, s[i], s[j]);
  }

  // ---- Logits offsets ----

  /** Samples taken by the first `n` requests. */
  function Samples(rs: seq<Req>, n: nat): nat
    requires n <= |rs|
  {
    if n == 0 then 0 else Samples(rs, n - 1) + rs[n - 1].sampling
  }

  lemma {:induction false} SamplesGrow(rs: seq<Req>, m: nat, n: nat)
    requires m <= n <= |rs|
    ensures Samples(rs, m) <= Samples(rs, n)
    decreases n - m
  {
    if m < n {
      SamplesGrow(rs, m, n - 1);
    }
  }

  /** Sample `x` of the batch belongs to request `k`. */
  predicate Owns(rs: seq<Req>, k: nat, x: nat)
    requires k < |rs|
  {
    Samples(rs, k) <= x < Samples(rs, k + 1)
  }

  /** The logits ranges tile `[0, total)`: every sample belongs to a request, and to only one. */
  lemma {:induction false} RangesCover(rs: seq<Req>, n: nat, x: nat) returns (k: nat)
    requires n <= |rs| && x < Samples(rs, n)
    ensures k < n && Owns(rs, k, x)
    decreases n
  {
    if x < Samples(rs, n - 1) {
      k := RangesCover(rs, n - 1, x);
    } else {
      k := n - 1;
    }
  }

  lemma RangesDisjoint(rs: seq<Req>, j: nat, k: nat, x: nat)
    requires j < |rs| && k < |rs| && Owns(rs, j, x) && Owns(rs, k, x)
    ensures j == k
  {
    if j < k {
      SamplesGrow(rs, j + 1, k);
    } else if k < j {
      SamplesGrow(rs, k + 1, j);
    }
  }

  class BatchRequest {
    const req: Req
    var logitsOffset: nat

    constructor (req: Req)
      ensures this.req == req && logitsOffset == 0
    {
      this.req := req;
      logitsOffset := 0;
    }
  }

  function Reqs(rs: seq<BatchRequest>): (s: seq<Req>)
    ensures |s| == |rs| && forall i {:trigger s[i]} :: 0 <= i < |rs| ==> s[i] == rs[i].req
  {
    seq(|rs|, i requires 0 <= i < |rs| => rs[i].req)
  }

  /** Each request's logits start where those of the requests before it end. */
  method ResetLogitsOffsetsAfterReorder(rs: seq<BatchRequest>)
    requires forall i, j :: 0 <= i < j < |rs| ==> rs[i] != rs[j]
    modifies rs
    ensures forall i {:trigger rs[i].logitsOffset} :: 0 <= i < |rs| ==>
              rs[i].logitsOffset == Samples(Reqs(rs), i)
  {
    ghost var reqs := Reqs(rs);
    var offset := 0;
    for i := 0 to |rs|
      invariant offset == Samples(reqs, i)
      invariant forall k {:trigger rs[k].logitsOffset} :: 0 <= k < i ==> rs[k].logitsOffset == Samples(reqs, k)
    {
      rs[i].logitsOffset := offset;
      offset := offset + rs[i].req.sampling;
    }
  }

  // ---- Flattening ----

  function Input(r: Req): (ids: seq<int>)
    requires ReqOk(r)
    ensures |ids| == InputLen(r)
  {
    r.tokens[Skipped(r)..]
  }

  /** `input_ids` after the first `n` requests. */
  function Flat(rs: seq<Req>, n: nat): seq<int>
    requires BatchOk(rs) && n <= |rs|
  {
    if n == 0 then [] else Flat(rs, n - 1) + Input(rs[n - 1])
  }

  /** One past the request's last input token. */
  function End(rs: seq<Req>, k: nat): nat
    requires BatchOk(rs) && k < |rs|
  {
    |Flat(rs, k)| + InputLen(rs[k])
  }

  /** `(req_id, last offset)` for the first `n` requests that forward anything. */
  function Pairs(rs: seq<Req>, n: nat): seq<Pair>
    requires BatchOk(rs) && n <= |rs|
  {
    if n == 0 then []
    else Pairs(rs, n - 1) + (if InputLen(rs[n - 1]) > 0 then [Pair(rs[n - 1].id, End(rs, n - 1) - 1)] else [])
  }

  function Iota(from: int, n: nat): (s: seq<int>)
    ensures |s| == n && forall i :: 0 <= i < n ==> s[i] == from + i
  {
    seq(n, i => from + i)
  }

  /** `logits_idx_list` after the first `n` requests: the last `sampling` positions of each. */
  function LogitsIdx(rs: seq<Req>, n: nat): seq<int>
    requires BatchOk(rs) && n <= |rs|
  {
    if n == 0 then []
    else LogitsIdx(rs, n - 1) + Iota(End(rs, n - 1) - rs[n - 1].sampling, rs[n - 1].sampling)
  }

  /** `PrepareInputIds`. */
  method PrepareInputIds(rs: seq<Req>) returns (inputIds: seq<int>, pairs: seq<Pair>, logitsIdx: seq<int>)
    requires BatchOk(rs)
    ensures inputIds == Flat(rs, |rs|)
    ensures pairs == Pairs(rs, |rs|)
    ensures logitsIdx == LogitsIdx(rs, |rs|)
  {
    inputIds, pairs, logitsIdx := [], [], [];
    for i := 0 to |rs|
      invariant inputIds == Flat(rs, i) && pairs == Pairs(rs, i) && logitsIdx == LogitsIdx(rs, i)
    {
      var r := rs[i];
      inputIds := inputIds + r.tokens[Skipped(r)..];
      assert |inputIds| == End(rs, i);
      if InputLen(r) > 0 {
        pairs := pairs + [Pair(r.id, |inputIds| - 1)];
      }
      assert pairs == Pairs(rs, i + 1);
      logitsIdx := logitsIdx + Iota(|inputIds| - r.sampling, r.sampling);
    }
  }

  // ---- What the flat batch holds ----

  /** Every input token of a request stands in the flat batch, behind those of the requests before it. */
  lemma {:induction false} FlatAt(rs: seq<Req>, n: nat, k: nat, i: nat)
    requires BatchOk(rs) && k < n <= |rs| && i < InputLen(rs[k])
    ensures End(rs, k) <= |Flat(rs, n)|
    ensures Flat(rs, n)[|Flat(rs, k)| + i] == rs[k].tokens[Skipped(rs[k]) + i]
    decreases n
  {
    if k < n - 1 {
      FlatAt(rs, n - 1, k, i);
    }
  }

  lemma {:induction false} LogitsIdxLen(rs: seq<Req>, n: nat)
    requires BatchOk(rs) && n <= |rs|
    ensures |LogitsIdx(rs, n)| == Samples(rs, n)
    decreases n
  {
    if n > 0 {
      LogitsIdxLen(rs, n - 1);
    }
  }

  /** `logits_idx_list[logits_offset + i]` is the flat position of the `i`-th of the request's last
      `sampling` tokens. */
  lemma {:induction false} LogitsPointAtWantedTokens(rs: seq<Req>, n: nat, k: nat, i: nat)
    requires BatchOk(rs) && k < n <= |rs| && i < rs[k].sampling
    ensures |LogitsIdx(rs, n)| == Samples(rs, n) && Samples(rs, k) + i < Samples(rs, n)
    ensures LogitsIdx(rs, n)[Samples(rs, k) + i] == End(rs, k) - rs[k].sampling + i
    decreases n
  {
    LogitsIdxLen(rs, n);
    LogitsIdxLen(rs, n - 1);
    if k < n - 1 {
      LogitsPointAtWantedTokens(rs, n - 1, k, i);
    }
  }

  /** Flat position `x` holds a token of request `k`. */
  predicate Inside(rs: seq<Req>, k: nat, x: int)
    requires BatchOk(rs) && k < |rs|
  {
    |Flat(rs, k)| <= x < End(rs, k)
  }

  /** The last of them is the request's last token; the first lies in the request's own input exactly when
      it forwards at least as many tokens as it samples. */
  lemma LogitsStayInside(rs: seq<Req>, k: nat)
    requires BatchOk(rs) && k < |rs| && rs[k].sampling > 0
    ensures var idx, first := LogitsIdx(rs, |rs|), Samples(rs, k);
            && first + rs[k].sampling <= |idx|
            && idx[first + rs[k].sampling - 1] == End(rs, k) - 1
            && (Inside(rs, k, idx[first]) <==> rs[k].sampling <= InputLen(rs[k]))
  {
    LogitsPointAtWantedTokens(rs, |rs|, k, 0);
    LogitsPointAtWantedTokens(rs, |rs|, k, rs[k].sampling - 1);
  }

  /** The pair of a request points at its last input token. */
  lemma {:induction false} PairPointsAtLastToken(rs: seq<Req>, n: nat, k: nat)
    requires BatchOk(rs) && k < n <= |rs| && InputLen(rs[k]) > 0
    ensures |Pairs(rs, k)| < |Pairs(rs, n)| && Pairs(rs, n)[|Pairs(rs, k)|] == Pair(rs[k].id, End(rs, k) - 1)
    ensures End(rs, k) <= |Flat(rs, |rs|)|
    ensures Flat(rs, |rs|)[End(rs, k) - 1] == rs[k].tokens[|rs[k].tokens| - 1]
    decreases n
  {
    FlatAt(rs, |rs|, k, InputLen(rs[k]) - 1);
    if k < n - 1 {
      PairPointsAtLastToken(rs, n - 1, k);
    }
  }

  /** Pairs point ever further right. */
  lemma {:induction false} PairsIncrease(rs: seq<Req>, n: nat)
    requires BatchOk(rs) && n <= |rs|
    ensures forall i :: 0 <= i < |Pairs(rs, n)| ==> Pairs(rs, n)[i].offset < |Flat(rs, n)|
    ensures forall i, j :: 0 <= i < j < |Pairs(rs, n)| ==> Pairs(rs, n)[i].offset < Pairs(rs, n)[j].offset
    decreases n
  {
    if n > 0 {
      PairsIncrease(rs, n - 1);
    }
  }
}
