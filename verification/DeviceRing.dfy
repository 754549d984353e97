/** The device ring: two kernels whose threads run in any order. */
module DeviceRings {
  import opened Tokens
  import opened BatchLayout

  /** `static_cast<int32_t>` of a token id that was sampled as `uint32_t`. */
  function AsInt32(x: int): int
  {
    if x < 0x8000_0000 then x else x - 0x1_0000_0000
  }

  /** Layout: `[count, id, token, id, token, ...]`, allocated for the largest batch. */
  predicate RingOk(ring: seq<int>)
  {
    ring != [] && 0 <= ring[0] && 1 + 2 * ring[0] <= |ring|
  }

  /** The scan one thread runs for its placeholder, from entry `j` on. */
  function Scan(ring: seq<int>, id: int, j: nat): Option<int>
    requires RingOk(ring) && j <= ring[0]
    decreases ring[0] - j
  {
    if j == ring[0] then None
    else if ring[1 + 2 * j] == id then Some(AsInt32(ring[2 + 2 * j]))
    else Scan(ring, id, j + 1)
  }

  function PairAt(cells: seq<int>, k: nat): Pair
    requires 2 * k + 1 < |cells|
  {
    Pair(cells[2 * k], cells[2 * k + 1])
  }

  predicate Targets(pair: Pair, ids: seq<int>)
  {
    0 <= pair.offset < |ids|
  }

  /** What becomes of the slot a thread looks at. */
  function Filled(token: int, id: int, ring: seq<int>): int
    requires RingOk(ring)
  {
    if token != PLACEHOLDER then token
    else match Scan(ring, id, 0) case None => token case Some(t) => t
  }

  /** `ReplaceLastTokenKernel`, one thread. */
  method ReplaceLastTokenThread(inputIds: array<int>, curPairs: array<int>, prevRing: array<int>, idx: nat)
    requires inputIds != curPairs && inputIds != prevRing
    requires 2 * idx + 1 < curPairs.Length && Targets(PairAt(curPairs[..], idx), inputIds[..]) && RingOk(prevRing[..])
    modifies inputIds
    ensures var pair, was := PairAt(curPairs[..], idx), old(inputIds[..]);
            inputIds[..] == was[pair.offset := Filled(was[pair.offset], pair.id, prevRing[..])]
  {
    var target, dstOff := curPairs[2 * idx], curPairs[2 * idx + 1];
    if inputIds[dstOff] != PLACEHOLDER {
      return;
    }
    var prevCount := prevRing[0];
    for j := 0 to prevCount
      invariant inputIds[..] == old(inputIds[..])
      invariant Scan(prevRing[..], target, 0) == Scan(prevRing[..], target, j)
    {
      if prevRing[1 + 2 * j] == target {
        inputIds[dstOff] := AsInt32(prevRing[2 + 2 * j]);
        return;
      }
    }
  }

  /** `WriteRingKernel`, one thread. */
  method WriteRingThread(ring: array<int>, curPairs: array<int>, sampled: array<int>, idx: nat, batchSize: nat)
    requires ring != curPairs && ring != sampled && 2 * idx + 1 < curPairs.Length && idx < sampled.Length
    requires idx < batchSize && 2 + 2 * idx < ring.Length
    modifies ring
    ensures ring[..] == WriteOne(old(ring[..]), PairAt(curPairs[..], idx).id, sampled[idx], idx, batchSize)
  {
    if idx == 0 {
      ring[0] := batchSize;
    }
    ring[1 + 2 * idx] := curPairs[2 * idx];
    ring[1 + 2 * idx + 1] := sampled[idx];
  }

  function WriteOne(ring: seq<int>, id: int, token: int, idx: nat, batchSize: nat): (r: seq<int>)
    requires 2 + 2 * idx < |ring|
    ensures |r| == |ring|
  {
    var headed := if idx == 0 then ring[0 := batchSize] else ring;
    headed[1 + 2 * idx := id][2 + 2 * idx := token]
  }

  // ---- Whole launches, threads in any order ----

  /** Every thread of the launch runs once, in the order given. */
  ghost predicate IsSchedule(order: seq<nat>, batchSize: nat)
  {
    && (forall i :: 0 <= i < |order| ==> order[i] < batchSize)
    && (forall i, j :: 0 <= i < j < |order| ==> order[i] != order[j])
    && (forall k :: 0 <= k < batchSize ==> k in order)
  }

  ghost predicate ReplaceArgs(ids: seq<int>, cells: seq<int>, ring: seq<int>, batchSize: nat)
  {
    && RingOk(ring) && 2 * batchSize <= |cells|
    && (forall k :: 0 <= k < batchSize ==> Targets(PairAt(cells, k), ids))
    && (forall j, k :: 0 <= j < k < batchSize ==> PairAt(cells, j).offset != PairAt(cells, k).offset)
  }

  /** The slots named by the pairs are filled, every other one is unchanged. */
  ghost predicate Replaced(ids: seq<int>, cells: seq<int>, ring: seq<int>, batchSize: nat, r: seq<int>)
    requires ReplaceArgs(ids, cells, ring, batchSize)
  {
    && |r| == |ids|
    && (forall k :: 0 <= k < batchSize ==>
          var pair := PairAt(cells, k); r[pair.offset] == Filled(ids[pair.offset], pair.id, ring))
    && (forall p :: 0 <= p < |ids| && (forall k :: 0 <= k < batchSize ==> PairAt(cells, k).offset != p) ==>
          r[p] == ids[p])
  }

  /** The result does not depend on the order: at most one sequence meets the specification. */
  lemma ReplacedIsUnique(ids: seq<int>, cells: seq<int>, ring: seq<int>, batchSize: nat, a: seq<int>, b: seq<int>)
    requires ReplaceArgs(ids, cells, ring, batchSize)
    requires Replaced(ids, cells, ring, batchSize, a) && Replaced(ids, cells, ring, batchSize, b)
    ensures a == b
  {
    forall p | 0 <= p < |ids| ensures a[p] == b[p] {
      if exists k :: 0 <= k < batchSize && PairAt(cells, k).offset == p {
        var k :| 0 <= k < batchSize && PairAt(cells, k).offset == p;
      }
    }
  }

  /** `LaunchReplaceLastTokenKernel`: whatever the thread order, exactly the pairs' slots are filled. */
  method LaunchReplaceLastTokenKernel(inputIds: array<int>, curPairs: array<int>, prevRing: array<int>,
                                      batchSize: int, order: seq<nat>)
    requires inputIds != curPairs && inputIds != prevRing
    requires batchSize > 0 ==> IsSchedule(order, batchSize)
                               && ReplaceArgs(inputIds[..], curPairs[..], prevRing[..], batchSize)
    modifies inputIds
    ensures batchSize <= 0 ==> inputIds[..] == old(inputIds[..])
    ensures batchSize > 0 ==> Replaced(old(inputIds[..]), curPairs[..], prevRing[..], batchSize, inputIds[..])
  {
    if batchSize <= 0 {
      return;
    }
    ghost var was, cells, ring := inputIds[..], curPairs[..], prevRing[..];
    for i := 0 to |order|
      invariant forall k :: 0 <= k < batchSize ==>
        inputIds[PairAt(cells, k).offset] ==
        if k in order[..i] then Filled(was[PairAt(cells, k).offset], PairAt(cells, k).id, ring)
        else was[PairAt(cells, k).offset]
      invariant forall p :: 0 <= p < |was| && (forall k :: 0 <= k < batchSize ==> PairAt(cells, k).offset != p) ==>
        inputIds[p] == was[p]
    {
      assert order[..i + 1] == order[..i] + [order[i]];
      ReplaceLastTokenThread(inputIds, curPairs, prevRing, order[i]);
    }
    assert order[..|order|] == order;
  }

  ghost predicate WriteArgs(ring: seq<int>, cells: seq<int>, sampled: seq<int>, batchSize: nat)
  {
    2 * batchSize <= |cells| && batchSize <= |sampled| && 1 + 2 * batchSize <= |ring|
  }

  /** The ring lists the batch: its size, then each request's id and the token at the same index. */
  ghost predicate Written(ring: seq<int>, cells: seq<int>, sampled: seq<int>, batchSize: nat, r: seq<int>)
    requires WriteArgs(ring, cells, sampled, batchSize)
  {
    && |r| == |ring| && r[0] == batchSize
    && (forall k :: 0 <= k < batchSize ==> r[1 + 2 * k] == PairAt(cells, k).id && r[2 + 2 * k] == sampled[k])
    && r[1 + 2 * batchSize..] == ring[1 + 2 * batchSize..]
  }

  /** `LaunchWriteRingKernel`: whatever the thread order, the ring lists the batch; an empty batch writes
      nothing, so the old entries stay. */
  method LaunchWriteRingKernel(ring: array<int>, curPairs: array<int>, sampled: array<int>, batchSize: int,
                               order: seq<nat>)
    requires ring != curPairs && ring != sampled
    requires batchSize > 0 ==> IsSchedule(order, batchSize)
                               && WriteArgs(ring[..], curPairs[..], sampled[..], batchSize)
    modifies ring
    ensures batchSize <= 0 ==> ring[..] == old(ring[..])
    ensures batchSize > 0 ==> Written(old(ring[..]), curPairs[..], sampled[..], batchSize, ring[..])
  {
    if batchSize <= 0 {
      return;
    }
    ghost var was, cells := ring[..], curPairs[..];
    for i := 0 to |order|
      invariant 0 in order[..i] ==> ring[0] == batchSize
      invariant forall k :: 0 <= k < batchSize && k in order[..i] ==>
        ring[1 + 2 * k] == PairAt(cells, k).id && ring[2 + 2 * k] == sampled[k]
      invariant forall p :: 1 + 2 * batchSize <= p < |was| ==> ring[p] == was[p]
    {
      assert order[..i + 1] == order[..i] + [order[i]];
      WriteRingThread(ring, curPairs, sampled, order[i], batchSize);
    }
    assert order[..|order|] == order;
  }

  // ---- Reading back what was written ----

  ghost predicate DistinctIds(cells: seq<int>, batchSize: nat)
    requires 2 * batchSize <= |cells|
  {
    forall j, k :: 0 <= j < k < batchSize ==> PairAt(cells, j).id != PairAt(cells, k).id
  }

  /** A scan from entry `j` stops at entry `k` when no entry between them has the id. */
  lemma {:induction false} ScanStopsAt(ring: seq<int>, id: int, j: nat, k: nat)
    requires RingOk(ring) && j <= k < ring[0] && ring[1 + 2 * k] == id
    requires forall i :: j <= i < k ==> ring[1 + 2 * i] != id
    ensures Scan(ring, id, j) == Some(AsInt32(ring[2 + 2 * k]))
    decreases k - j
  {
    if j < k {
      ScanStopsAt(ring, id, j + 1, k);
    }
  }

  lemma {:induction false} ScanMisses(ring: seq<int>, id: int, j: nat)
    requires RingOk(ring) && j <= ring[0] && forall i :: j <= i < ring[0] ==> ring[1 + 2 * i] != id
    ensures Scan(ring, id, j) == None
    decreases ring[0] - j
  {
    if j < ring[0] {
      ScanMisses(ring, id, j + 1);
    }
  }

  /** A written ring is a map from the batch's ids to its tokens: entry `k` is found under its id, and no
      other id is found. A placeholder under an id it does not list stays one. */
  lemma WrittenIsMap(ring: seq<int>, cells: seq<int>, sampled: seq<int>, batchSize: nat, r: seq<int>, id: int)
    requires WriteArgs(ring, cells, sampled, batchSize) && Written(ring, cells, sampled, batchSize, r)
    requires DistinctIds(cells, batchSize)
    ensures RingOk(r)
    ensures forall k :: 0 <= k < batchSize && PairAt(cells, k).id == id ==>
              Scan(r, id, 0) == Some(AsInt32(sampled[k]))
    ensures (forall k :: 0 <= k < batchSize ==> PairAt(cells, k).id != id) ==>
              Scan(r, id, 0) == None && Filled(PLACEHOLDER, id, r) == PLACEHOLDER
  {
    if k :| 0 <= k < batchSize && PairAt(cells, k).id == id {
      forall i | 0 <= i < k ensures r[1 + 2 * i] != id {
        assert r[1 + 2 * i] == PairAt(cells, i).id != PairAt(cells, k).id;
      }
      assert r[1 + 2 * k] == id;
      ScanStopsAt(r, id, 0, k);
    } else {
      forall i | 0 <= i < r[0] ensures r[1 + 2 * i] != id {
        assert r[1 + 2 * i] == PairAt(cells, i).id;
      }
      ScanMisses(r, id, 0);
    }
  }

  /** The narrowing is harmless exactly for token ids below `2^31`. */
  lemma NarrowingKeepsToken(token: int)
    requires 0 <= token < 0x1_0000_0000
    ensures AsInt32(token) == token <==> token < 0x8000_0000
    ensures AsInt32(token) != PLACEHOLDER <==> token != 0xFFFF_FFFF
  {
  }

  // ---- Which token stands at which index ----

  /** The sampler leaves the token of request `k` at its logits offset; the kernel pairs index `k` with the
      token at `k`. They mean the same token for every request that samples. */
  ghost predicate Aligned(rs: seq<Req>)
  {
    forall k :: 0 <= k < |rs| && rs[k].sampling > 0 ==> Samples(rs, k) == k
  }

  /** No request without a sample stands before one with. */
  ghost predicate SamplersFirst(rs: seq<Req>)
  {
    forall j, k :: 0 <= j < k < |rs| && rs[k].sampling > 0 ==> rs[j].sampling > 0
  }

  lemma {:induction false} SamplesAtMost(rs: seq<Req>, n: nat)
    requires n <= |rs| && forall k :: 0 <= k < |rs| ==> rs[k].sampling <= 1
    ensures Samples(rs, n) <= n
    ensures Samples(rs, n) == n <==> forall k :: 0 <= k < n ==> rs[k].sampling == 1
    decreases n
  {
    if n > 0 {
      SamplesAtMost(rs, n - 1);
    }
  }

  /** With at most one sample per request, the ring pairs every sampling request with its own token exactly
      when no request without a sample stands before one with. */
  lemma AlignedExactly(rs: seq<Req>)
    requires forall k :: 0 <= k < |rs| ==> rs[k].sampling <= 1
    ensures Aligned(rs) <==> SamplersFirst(rs)
  {
    forall k | 0 <= k < |rs| && rs[k].sampling > 0
      ensures Samples(rs, k) == k <==> forall j :: 0 <= j < k ==> rs[j].sampling > 0
    {
      SamplesAtMost(rs, k);
    }
  }

  /** So does each single request: whatever is sampled, the token at its index is its own exactly when no
      request without a sample stands before it. */
  lemma OwnTokenExactly(rs: seq<Req>, i: nat)
    requires i < |rs| && rs[i].sampling == 1 && forall k :: 0 <= k < |rs| ==> rs[k].sampling <= 1
    ensures (forall sampled: seq<int> | |rs| <= |sampled| ::
               Samples(rs, i) < |sampled| && sampled[i] == sampled[Samples(rs, i)])
            <==> forall k :: 0 <= k < i ==> rs[k].sampling == 1
  {
    SamplesAtMost(rs, i);
    if Samples(rs, i) != i {
      var sampled := seq(|rs|, k => k);
      assert sampled[i] != sampled[Samples(rs, i)];
    }
  }

  /** A prefill chunk that samples nothing, in the same group as a decoding request: the order the fast path
      sorts into puts the chunk first, so the ring pairs the decoding request with another's token. */
  lemma MiddleChunkMisaligns(threshold: nat, rs: seq<Req>, chunk: Req, decoding: Req)
    requires BatchOk(rs) && Sorted(true, threshold, rs) && forall k :: 0 <= k < |rs| ==> rs[k].sampling <= 1
    requires chunk in rs && decoding in rs && chunk.dpGroup == decoding.dpGroup
    requires ReqOk(chunk) && ReqOk(decoding) && !IsPaged(chunk) && IsPaged(decoding)
    requires chunk.sampling == 0 && decoding.sampling == 1
    ensures !Aligned(rs)
  {
    var i :| 0 <= i < |rs| && rs[i] == chunk;
    var j :| 0 <= j < |rs| && rs[j] == decoding;
    assert i < j;
    AlignedExactly(rs);
  }

  /** The kernel launches one thread per request, but only requests that forward something have a pair:
      every thread has one exactly when every request forwards something. */
  lemma {:induction false} EveryThreadHasAPair(rs: seq<Req>, n: nat)
    requires BatchOk(rs) && n <= |rs|
    ensures |Pairs(rs, n)| <= n
    ensures |Pairs(rs, n)| == n <==> forall k :: 0 <= k < n ==> InputLen(rs[k]) > 0
    decreases n
  {
    if n > 0 {
      EveryThreadHasAPair(rs, n - 1);
    }
  }
}
