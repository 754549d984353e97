/** Greedy distribution of waiting requests over data-parallel ranks. */
module Distribution {
  import opened Tokens

  /** A waiting request and the tokens it still has to compute. */
  datatype Waiting = Waiting(tokens: nat, id: int)

  function Sum(s: seq<nat>): nat
  {
    if s == [] then 0 else Sum(s[..|s| - 1]) + s[|s| - 1]
  }

  /** `k * x`, as the sum of `k` copies: keeps the inductions below linear. */
  function Times(k: nat, x: nat): nat
  {
    if k == 0 then 0 else Times(k - 1, x) + x
  }

  lemma {:induction false} TimesIsProduct(k: nat, x: nat)
    ensures Times(k, x) == k * x
    decreases k
  {
    if k > 0 {
      TimesIsProduct(k - 1, x);
      assert k * x == (k - 1) * x + x;
    }
  }

  /** What the jobs assigned to rank `i` add up to. */
  function On(sizes: seq<nat>, assign: seq<nat>, i: nat): nat
    requires |sizes| == |assign|
  {
    if sizes == [] then 0
    else
      var n := |sizes| - 1;
      On(sizes[..n], assign[..n], i) + if assign[n] == i then sizes[n] else 0
  }

  /** What all ranks below `m` are assigned. */
  function OnAll(sizes: seq<nat>, assign: seq<nat>, m: nat): nat
    requires |sizes| == |assign|
  {
    if m == 0 then 0 else OnAll(sizes, assign, m - 1) + On(sizes, assign, m - 1)
  }

  predicate Assigns(assign: seq<nat>, m: nat)
  {
    forall k :: 0 <= k < |assign| ==> assign[k] < m
  }

  lemma {:induction false} OnAllNext(sizes: seq<nat>, assign: seq<nat>, m: nat)
    requires |sizes| == |assign| > 0
    ensures var n := |sizes| - 1;
            OnAll(sizes, assign, m) == OnAll(sizes[..n], assign[..n], m) + if assign[n] < m then sizes[n] else 0
    decreases m
  {
    if m > 0 {
      OnAllNext(sizes, assign, m - 1);
    }
  }

  /** No job is lost or counted twice. */
  lemma {:induction false} RanksShareTheSum(sizes: seq<nat>, assign: seq<nat>, m: nat)
    requires |sizes| == |assign| && Assigns(assign, m)
    ensures OnAll(sizes, assign, m) == Sum(sizes)
    decreases |sizes|
  {
    if sizes != [] {
      var n := |sizes| - 1;
      OnAllNext(sizes, assign, m);
      RanksShareTheSum(sizes[..n], assign[..n], m);
    } else {
      NothingAssigned(m);
    }
  }

  lemma {:induction false} NothingAssigned(m: nat)
    ensures OnAll([], [], m) == 0
    decreases m
  {
    if m > 0 {
      NothingAssigned(m - 1);
    }
  }

  // ---- The greedy choice ----

  /** Rank `i`'s load. */
  function Load(init: seq<nat>, sizes: seq<nat>, assign: seq<nat>, i: nat): nat
    requires |sizes| == |assign| && i < |init|
  {
    init[i] + On(sizes, assign, i)
  }

  /** The first of the ranks below `m` with the least load. */
  function LeastRank(init: seq<nat>, sizes: seq<nat>, assign: seq<nat>, m: nat): (r: nat)
    requires |sizes| == |assign| && 0 < m <= |init|
    ensures r < m
  {
    if m == 1 then 0
    else
      var r := LeastRank(init, sizes, assign, m - 1);
      if Load(init, sizes, assign, m - 1) < Load(init, sizes, assign, r) then m - 1 else r
  }

  lemma {:induction false} LeastRankIsLeast(init: seq<nat>, sizes: seq<nat>, assign: seq<nat>, m: nat, i: nat)
    requires |sizes| == |assign| && i < m <= |init|
    ensures Load(init, sizes, assign, LeastRank(init, sizes, assign, m)) <= Load(init, sizes, assign, i)
    decreases m
  {
    if m > 1 {
      LeastRankIsLeast(init, sizes, assign, m - 1, if i < m - 1 then i else 0);
    }
  }

  /** And of those with the least load it is the first. */
  lemma {:induction false} LeastRankIsFirst(init: seq<nat>, sizes: seq<nat>, assign: seq<nat>, m: nat, i: nat)
    requires |sizes| == |assign| && 0 < m <= |init| && i < LeastRank(init, sizes, assign, m)
    ensures Load(init, sizes, assign, LeastRank(init, sizes, assign, m)) < Load(init, sizes, assign, i)
    decreases m
  {
    if m > 1 {
      var r := LeastRank(init, sizes, assign, m - 1);
      if LeastRank(init, sizes, assign, m) == r {
        LeastRankIsFirst(init, sizes, assign, m - 1, i);
      } else {
        LeastRankIsLeast(init, sizes, assign, m - 1, i);
      }
    }
  }

  /** Each job goes to the least loaded rank. */
  function Greedy(init: seq<nat>, sizes: seq<nat>): (assign: seq<nat>)
    requires init != []
    ensures |assign| == |sizes| && Assigns(assign, |init|)
  {
    if sizes == [] then []
    else
      var jobs := sizes[..|sizes| - 1];
      Greedy(init, jobs) + [LeastRank(init, jobs, Greedy(init, jobs), |init|)]
  }

  /** Rank `i`'s load once the first `n` jobs are placed. */
  function LoadAfter(init: seq<nat>, sizes: seq<nat>, n: nat, i: nat): nat
    requires init != [] && n <= |sizes| && i < |init|
  {
    init[i] + On(sizes[..n], Greedy(init, sizes[..n]), i)
  }

  lemma GreedyPrefix(init: seq<nat>, sizes: seq<nat>, n: nat)
    requires init != [] && n < |sizes|
    ensures var before := Greedy(init, sizes[..n]);
            Greedy(init, sizes[..n + 1]) == before + [LeastRank(init, sizes[..n], before, |init|)]
  {
    assert sizes[..n + 1][..n] == sizes[..n];
  }

  lemma OnNext(sizes: seq<nat>, n: nat, before: seq<nat>, r: nat, i: nat)
    requires n < |sizes| && |before| == n
    ensures On(sizes[..n + 1], before + [r], i) == On(sizes[..n], before, i) + if i == r then sizes[n] else 0
  {
    assert sizes[..n + 1][..n] == sizes[..n] && (before + [r])[..n] == before;
  }

  /** Placing job `n` changes one load, which was least, by its size. */
  lemma LoadStep(init: seq<nat>, sizes: seq<nat>, n: nat) returns (r: nat)
    requires init != [] && n < |sizes|
    ensures r < |init|
    ensures forall i :: 0 <= i < |init| ==> LoadAfter(init, sizes, n, r) <= LoadAfter(init, sizes, n, i)
    ensures forall i :: 0 <= i < |init| ==>
              LoadAfter(init, sizes, n + 1, i) == LoadAfter(init, sizes, n, i) + if i == r then sizes[n] else 0
  {
    var before := Greedy(init, sizes[..n]);
    r := LeastRank(init, sizes[..n], before, |init|);
    GreedyPrefix(init, sizes, n);
    forall i | 0 <= i < |init|
      ensures LoadAfter(init, sizes, n, r) <= LoadAfter(init, sizes, n, i)
      ensures LoadAfter(init, sizes, n + 1, i) == LoadAfter(init, sizes, n, i) + if i == r then sizes[n] else 0
    {
      LeastRankIsLeast(init, sizes[..n], before, |init|, i);
      OnNext(sizes, n, before, r, i);
    }
  }

  /** The least load is at most the average. */
  lemma {:induction false} LeastIsAtMostAverage(init: seq<nat>, sizes: seq<nat>, assign: seq<nat>, m: nat, x: nat)
    requires |sizes| == |assign| && m <= |init|
    requires forall i :: 0 <= i < m ==> x <= init[i] + On(sizes, assign, i)
    ensures Times(m, x) <= Sum(init[..m]) + OnAll(sizes, assign, m)
    decreases m
  {
    if m > 0 {
      LeastIsAtMostAverage(init, sizes, assign, m - 1, x);
      assert init[..m][..m - 1] == init[..m - 1];
      assert x <= init[m - 1] + On(sizes, assign, m - 1);
    }
  }

  /** And no load is below `x` on average when every rank has at most `x`. */
  lemma {:induction false} AverageIsAtMostMost(init: seq<nat>, sizes: seq<nat>, assign: seq<nat>, m: nat, x: nat)
    requires |sizes| == |assign| && m <= |init|
    requires forall i :: 0 <= i < m ==> init[i] + On(sizes, assign, i) <= x
    ensures Sum(init[..m]) + OnAll(sizes, assign, m) <= Times(m, x)
    decreases m
  {
    if m > 0 {
      AverageIsAtMostMost(init, sizes, assign, m - 1, x);
      assert init[..m][..m - 1] == init[..m - 1];
      assert init[m - 1] + On(sizes, assign, m - 1) <= x;
    }
  }

  // ---- Against every other assignment ----

  /** `assign` keeps every rank's load within `cap`. */
  ghost predicate Within(init: seq<nat>, sizes: seq<nat>, assign: seq<nat>, cap: nat)
  {
    && |sizes| == |assign| && Assigns(assign, |init|)
    && forall i :: 0 <= i < |init| ==> init[i] + On(sizes, assign, i) <= cap
  }

  lemma {:induction false} JobIsOnItsRank(sizes: seq<nat>, assign: seq<nat>, k: nat)
    requires |sizes| == |assign| && k < |sizes|
    ensures sizes[k] <= On(sizes, assign, assign[k])
    decreases |sizes|
  {
    if k < |sizes| - 1 {
      JobIsOnItsRank(sizes[..|sizes| - 1], assign[..|sizes| - 1], k);
    }
  }

  /** What any assignment within `cap` says about the jobs: their sum and each of them is bounded. */
  lemma CapBounds(init: seq<nat>, sizes: seq<nat>, assign: seq<nat>, cap: nat)
    requires init != [] && Within(init, sizes, assign, cap)
    ensures Sum(init) + Sum(sizes) <= Times(|init|, cap)
    ensures forall k :: 0 <= k < |sizes| ==> sizes[k] <= cap
    ensures forall i :: 0 <= i < |init| ==> init[i] <= cap
  {
    RanksShareTheSum(sizes, assign, |init|);
    AverageIsAtMostMost(init, sizes, assign, |init|, cap);
    assert init[..|init|] == init;
    forall k | 0 <= k < |sizes| ensures sizes[k] <= cap {
      JobIsOnItsRank(sizes, assign, k);
      assert init[assign[k]] + On(sizes, assign, assign[k]) <= cap;
    }
    forall i | 0 <= i < |init| ensures init[i] <= cap {
      assert init[i] + On(sizes, assign, i) <= cap;
    }
  }

  lemma {:induction false} SumGrows(s: seq<nat>, n: nat)
    requires n <= |s|
    ensures Sum(s[..n]) <= Sum(s)
    decreases |s|
  {
    if n < |s| {
      SumGrows(s[..|s| - 1], n);
      assert s[..|s| - 1][..n] == s[..n];
    } else {
      assert s[..n] == s;
    }
  }

  lemma SumWithJob(sizes: seq<nat>, n: nat)
    requires n < |sizes|
    ensures Sum(sizes[..n]) + sizes[n] == Sum(sizes[..n + 1]) <= Sum(sizes)
  {
    assert sizes[..n + 1][..n] == sizes[..n];
    SumGrows(sizes, n + 1);
  }

  /** `m` loads of at least `x` come to at most `t - p`; what a job of size `p` makes of one of them. */
  lemma ShareOfJob(m: nat, x: nat, p: nat, t: nat)
    requires m > 0 && Times(m, x) + p <= t
    ensures Times(m, x + p) <= t + Times(m - 1, p)
  {
    TimesIsProduct(m, x);
    TimesIsProduct(m, x + p);
    TimesIsProduct(m - 1, p);
    assert m * (x + p) == m * x + (m - 1) * p + p;
  }

  lemma {:induction false} TimesGrows(k: nat, a: nat, b: nat)
    requires a <= b
    ensures Times(k, a) <= Times(k, b)
    decreases k
  {
    if k > 0 {
      TimesGrows(k - 1, a, b);
    }
  }

  lemma {:induction false} TimesAdds(j: nat, k: nat, x: nat)
    ensures Times(j + k, x) == Times(j, x) + Times(k, x)
    decreases k
  {
    if k > 0 {
      TimesAdds(j, k - 1, x);
    }
  }

  lemma {:induction false} TimesOfSum(k: nat, a: nat, b: nat)
    ensures Times(k, a + b) == Times(k, a) + Times(k, b)
    decreases k
  {
    if k > 0 {
      TimesOfSum(k - 1, a, b);
    }
  }

  /** The two bounds on the optimum, put together. */
  lemma TwoMinusOneOverM(m: nat, y: nat, t: nat, p: nat, cap: nat)
    requires m > 0 && Times(m, y) <= t + Times(m - 1, p) && t <= Times(m, cap) && p <= cap
    ensures Times(m, y) <= Times(2 * m - 1, cap)
  {
    TimesGrows(m - 1, p, cap);
    TimesAdds(m, m - 1, cap);
  }

  /** A job on a least loaded rank: the rank ends at most at the average plus the job's share. */
  lemma PlacedOnLeast(init: seq<nat>, jobs: seq<nat>, assign: seq<nat>, x: nat, p: nat)
    requires init != [] && |jobs| == |assign| && Assigns(assign, |init|)
    requires forall i :: 0 <= i < |init| ==> x <= init[i] + On(jobs, assign, i)
    ensures Times(|init|, x + p) <= Sum(init) + Sum(jobs) + p + Times(|init| - 1, p)
  {
    LeastIsAtMostAverage(init, jobs, assign, |init|, x);
    RanksShareTheSum(jobs, assign, |init|);
    assert init[..|init|] == init;
    ShareOfJob(|init|, x, p, Sum(init) + Sum(jobs) + p);
  }

  lemma PlacedLoad(init: seq<nat>, sizes: seq<nat>, n: nat, r: nat)
    requires init != [] && n < |sizes| && r < |init|
    requires forall i :: 0 <= i < |init| ==> LoadAfter(init, sizes, n, r) <= LoadAfter(init, sizes, n, i)
    ensures Times(|init|, LoadAfter(init, sizes, n, r) + sizes[n]) <=
            Sum(init) + Sum(sizes) + Times(|init| - 1, sizes[n])
  {
    LeastOfGreedy(init, sizes, n, LoadAfter(init, sizes, n, r));
    SumWithJob(sizes, n);
  }

  lemma LeastOfGreedy(init: seq<nat>, sizes: seq<nat>, n: nat, x: nat)
    requires init != [] && n < |sizes|
    requires forall i :: 0 <= i < |init| ==> x <= LoadAfter(init, sizes, n, i)
    ensures Times(|init|, x + sizes[n]) <= Sum(init) + Sum(sizes[..n]) + sizes[n] + Times(|init| - 1, sizes[n])
  {
    var assign := Greedy(init, sizes[..n]);
    forall i | 0 <= i < |init| ensures x <= init[i] + On(sizes[..n], assign, i) {
      assert x <= LoadAfter(init, sizes, n, i);
    }
    PlacedOnLeast(init, sizes[..n], assign, x, sizes[n]);
  }

  lemma {:induction false} GreedyWithinTwice(init: seq<nat>, sizes: seq<nat>, n: nat, other: seq<nat>, cap: nat, i: nat)
    requires init != [] && n <= |sizes| && Within(init, sizes, other, cap) && i < |init|
    ensures Times(|init|, LoadAfter(init, sizes, n, i)) <= Times(2 * |init| - 1, cap)
    decreases n
  {
    var m := |init|;
    CapBounds(init, sizes, other, cap);
    if n == 0 {
      TimesGrows(m, init[i], cap);
      TimesAdds(m, m - 1, cap);
    } else {
      GreedyWithinTwice(init, sizes, n - 1, other, cap, i);
      var r := LoadStep(init, sizes, n - 1);
      if i == r {
        PlacedLoad(init, sizes, n - 1, r);
        assert LoadAfter(init, sizes, n, r) == LoadAfter(init, sizes, n - 1, r) + sizes[n - 1];
        TwoMinusOneOverM(m, LoadAfter(init, sizes, n, r), Sum(init) + Sum(sizes), sizes[n - 1], cap);
      }
    }
  }

  /** Every rank's load is within `2 - 1/m` of the maximum any other assignment keeps to, for any initial
      loads, any token counts and any order. */
  lemma GreedyBound(init: seq<nat>, sizes: seq<nat>, other: seq<nat>, cap: nat, i: nat)
    requires init != [] && Within(init, sizes, other, cap) && i < |init|
    ensures |init| * (init[i] + On(sizes, Greedy(init, sizes), i)) <= (2 * |init| - 1) * cap
  {
    GreedyWithinTwice(init, sizes, |sizes|, other, cap, i);
    assert sizes[..|sizes|] == sizes;
    TimesIsProduct(|init|, LoadAfter(init, sizes, |sizes|, i));
    TimesIsProduct(2 * |init| - 1, cap);
  }

  // ---- Largest first, from empty ranks ----

  ghost predicate Descending(sizes: seq<nat>)
  {
    forall i, j :: 0 <= i < j < |sizes| ==> sizes[i] >= sizes[j]
  }

  function Zeros(m: nat): (s: seq<nat>)
    ensures |s| == m && forall i :: 0 <= i < m ==> s[i] == 0
  {
    seq(m, _ => 0)
  }

  lemma {:induction false} SumOfZeros(m: nat)
    ensures Sum(Zeros(m)) == 0
    decreases m
  {
    if m > 0 {
      assert Zeros(m)[..m - 1] == Zeros(m - 1);
      SumOfZeros(m - 1);
    }
  }

  /** A job weighs two when no other job fits beside it within `cap`, else one. */
  function Weights(sizes: seq<nat>, least: nat, cap: nat): (w: seq<nat>)
    ensures |w| == |sizes|
    ensures forall k :: 0 <= k < |sizes| ==> w[k] == if sizes[k] + least > cap then 2 else 1
  {
    seq(|sizes|, k requires 0 <= k < |sizes| => if sizes[k] + least > cap then 2 else 1)
  }

  /** A rank loaded beyond what a job of size `least` would fit under weighs at least two. */
  lemma {:induction false} FullRankWeighsTwo(sizes: seq<nat>, assign: seq<nat>, least: nat, cap: nat, i: nat)
    requires |sizes| == |assign| && On(sizes, assign, i) > 0
    requires On(sizes, assign, i) + least > cap
    ensures On(Weights(sizes, least, cap), assign, i) >= 2
    decreases |sizes|
  {
    var n := |sizes| - 1;
    assert Weights(sizes, least, cap)[..n] == Weights(sizes[..n], least, cap);
    if assign[n] != i || sizes[n] == 0 {
      FullRankWeighsTwo(sizes[..n], assign[..n], least, cap, i);
    } else if sizes[n] + least <= cap {
      SomethingWeighsOne(sizes[..n], assign[..n], least, cap, i);
    }
  }

  lemma {:induction false} SomethingWeighsOne(sizes: seq<nat>, assign: seq<nat>, least: nat, cap: nat, i: nat)
    requires |sizes| == |assign| && On(sizes, assign, i) > 0
    ensures On(Weights(sizes, least, cap), assign, i) >= 1
    decreases |sizes|
  {
    var n := |sizes| - 1;
    assert Weights(sizes, least, cap)[..n] == Weights(sizes[..n], least, cap);
    if assign[n] != i {
      SomethingWeighsOne(sizes[..n], assign[..n], least, cap, i);
    }
  }

  /** A rank within `cap`, all of whose jobs are larger than a third of it, weighs at most two. */
  lemma {:induction false} RankWithinWeighsTwo(sizes: seq<nat>, assign: seq<nat>, least: nat, cap: nat, i: nat)
    requires |sizes| == |assign| && 3 * least > cap && On(sizes, assign, i) <= cap
    requires forall k :: 0 <= k < |sizes| ==> sizes[k] >= least
    ensures var w := On(Weights(sizes, least, cap), assign, i);
            && w <= 2 && (w == 0 ==> On(sizes, assign, i) == 0)
            && (w == 1 ==> least <= On(sizes, assign, i) <= cap - least)
            && (w == 2 ==> On(sizes, assign, i) > cap - least)
    decreases |sizes|
  {
    if sizes != [] {
      var n := |sizes| - 1;
      assert Weights(sizes, least, cap)[..n] == Weights(sizes[..n], least, cap);
      RankWithinWeighsTwo(sizes[..n], assign[..n], least, cap, i);
    }
  }

  lemma {:induction false} OnGrows(sizes: seq<nat>, assign: seq<nat>, n: nat, i: nat)
    requires n <= |sizes| == |assign|
    ensures On(sizes[..n], assign[..n], i) <= On(sizes, assign, i)
    decreases |sizes|
  {
    if n < |sizes| {
      OnGrows(sizes[..|sizes| - 1], assign[..|sizes| - 1], n, i);
      assert sizes[..|sizes| - 1][..n] == sizes[..n] && assign[..|sizes| - 1][..n] == assign[..n];
    } else {
      assert sizes[..n] == sizes && assign[..n] == assign;
    }
  }

  lemma WeightsNext(sizes: seq<nat>, n: nat, cap: nat)
    requires n < |sizes|
    ensures Sum(Weights(sizes[..n], sizes[n], cap)) < Sum(Weights(sizes[..n + 1], sizes[n], cap))
  {
    var w := Weights(sizes[..n + 1], sizes[n], cap);
    assert w[..n] == Weights(sizes[..n], sizes[n], cap);
  }

  /** Before job `n` is placed, ranks that all hold too much for it weigh at least `2 m` together. */
  lemma GreedyWeighs(sizes: seq<nat>, m: nat, n: nat, cap: nat)
    requires m > 0 && n < |sizes|
    requires forall i :: 0 <= i < m ==> LoadAfter(Zeros(m), sizes, n, i) > 0
                                        && LoadAfter(Zeros(m), sizes, n, i) + sizes[n] > cap
    ensures Sum(Weights(sizes[..n], sizes[n], cap)) >= 2 * m
  {
    var assign, w := Greedy(Zeros(m), sizes[..n]), Weights(sizes[..n], sizes[n], cap);
    forall i | 0 <= i < m ensures 2 <= Zeros(m)[i] + On(w, assign, i) {
      assert LoadAfter(Zeros(m), sizes, n, i) == On(sizes[..n], assign, i);
      FullRankWeighsTwo(sizes[..n], assign, sizes[n], cap, i);
    }
    LeastIsAtMostAverage(Zeros(m), w, assign, m, 2);
    TimesIsProduct(m, 2);
    RanksShareTheSum(w, assign, m);
    assert Zeros(m)[..m] == Zeros(m);
    SumOfZeros(m);
  }

  /** Any assignment within `cap` makes jobs larger than a third of it weigh at most `2 m` together. */
  lemma OtherWeighs(sizes: seq<nat>, m: nat, n: nat, other: seq<nat>, cap: nat)
    requires m > 0 && n < |sizes| && Within(Zeros(m), sizes, other, cap)
    requires Descending(sizes) && 3 * sizes[n] > cap
    ensures Sum(Weights(sizes[..n + 1], sizes[n], cap)) <= 2 * m
  {
    var jobs, assign, w := sizes[..n + 1], other[..n + 1], Weights(sizes[..n + 1], sizes[n], cap);
    forall i | 0 <= i < m ensures Zeros(m)[i] + On(w, assign, i) <= 2 {
      assert Zeros(m)[i] + On(sizes, other, i) <= cap;
      OnGrows(sizes, other, n + 1, i);
      RankWithinWeighsTwo(jobs, assign, sizes[n], cap, i);
    }
    AverageIsAtMostMost(Zeros(m), w, assign, m, 2);
    TimesIsProduct(m, 2);
    RanksShareTheSum(w, assign, m);
    assert Zeros(m)[..m] == Zeros(m);
    SumOfZeros(m);
  }

  /** A job larger than a third of the optimum always fits within it on the least loaded rank. */
  lemma LargeJobFits(sizes: seq<nat>, m: nat, n: nat, other: seq<nat>, cap: nat, r: nat)
    requires m > 0 && n < |sizes| && r < m && Within(Zeros(m), sizes, other, cap)
    requires Descending(sizes) && 3 * sizes[n] > cap
    requires forall i :: 0 <= i < m ==> LoadAfter(Zeros(m), sizes, n, r) <= LoadAfter(Zeros(m), sizes, n, i)
    ensures LoadAfter(Zeros(m), sizes, n, r) + sizes[n] <= cap
  {
    var x := LoadAfter(Zeros(m), sizes, n, r);
    CapBounds(Zeros(m), sizes, other, cap);
    if x > 0 && x + sizes[n] > cap {
      WeightsNext(sizes, n, cap);
      GreedyWeighs(sizes, m, n, cap);
      OtherWeighs(sizes, m, n, other, cap);
    }
  }

  lemma FourThirds(m: nat, y: nat, t: nat, p: nat, cap: nat)
    requires m > 0 && Times(m, y) <= t + Times(m - 1, p) && t <= Times(m, cap) && 3 * p <= cap
    ensures 3 * Times(m, y) <= Times(4 * m - 1, cap)
  {
    TimesGrows(m - 1, p + p + p, cap);
    TimesOfSum(m - 1, p + p, p);
    TimesOfSum(m - 1, p, p);
    ThreeTimes(m, cap);
  }

  lemma ThreeTimes(m: nat, cap: nat)
    requires m > 0
    ensures Times(4 * m - 1, cap) == 3 * Times(m, cap) + Times(m - 1, cap)
  {
    TimesAdds(m, m, cap);
    TimesAdds(2 * m, m, cap);
    TimesAdds(3 * m, m - 1, cap);
  }

  lemma StepWithin(m: nat, y: nat, y': nat, size: nat, placed: bool, bound: nat)
    requires y' == y + (if placed then size else 0) && 3 * Times(m, y) <= bound
    requires placed ==> 3 * Times(m, y + size) <= bound
    ensures 3 * Times(m, y') <= bound
  {
  }

  lemma LargestFirstStep(sizes: seq<nat>, m: nat, n: nat, other: seq<nat>, cap: nat, i: nat, bound: nat)
    requires m > 0 && n < |sizes| && Within(Zeros(m), sizes, other, cap) && Descending(sizes) && i < m
    requires 3 * Times(m, LoadAfter(Zeros(m), sizes, n, i)) <= bound == Times(4 * m - 1, cap)
    ensures 3 * Times(m, LoadAfter(Zeros(m), sizes, n + 1, i)) <= bound
  {
    var r := LoadStep(Zeros(m), sizes, n);
    if i == r {
      PlacedLargest(sizes, m, n, other, cap, r);
    }
    StepWithin(m, LoadAfter(Zeros(m), sizes, n, i), LoadAfter(Zeros(m), sizes, n + 1, i), sizes[n], i == r, bound);
  }

  lemma {:induction false} LargestFirstWithin(sizes: seq<nat>, m: nat, n: nat, other: seq<nat>, cap: nat, i: nat)
    requires m > 0 && n <= |sizes| && Within(Zeros(m), sizes, other, cap) && Descending(sizes) && i < m
    ensures 3 * Times(m, LoadAfter(Zeros(m), sizes, n, i)) <= Times(4 * m - 1, cap)
    decreases n
  {
    if n > 0 {
      LargestFirstWithin(sizes, m, n - 1, other, cap, i);
      LargestFirstStep(sizes, m, n - 1, other, cap, i, Times(4 * m - 1, cap));
    } else {
      ThreeTimes(m, cap);
      TimesGrows(m, 0, cap);
    }
  }

  /** The rank the next largest job goes to stays within the bound. */
  lemma PlacedLargest(sizes: seq<nat>, m: nat, n: nat, other: seq<nat>, cap: nat, r: nat)
    requires m > 0 && n < |sizes| && r < m && Within(Zeros(m), sizes, other, cap) && Descending(sizes)
    requires forall i :: 0 <= i < m ==> LoadAfter(Zeros(m), sizes, n, r) <= LoadAfter(Zeros(m), sizes, n, i)
    ensures 3 * Times(m, LoadAfter(Zeros(m), sizes, n, r) + sizes[n]) <= Times(4 * m - 1, cap)
  {
    var y := LoadAfter(Zeros(m), sizes, n, r) + sizes[n];
    if 3 * sizes[n] <= cap {
      CapBounds(Zeros(m), sizes, other, cap);
      PlacedLoad(Zeros(m), sizes, n, r);
      FourThirds(m, y, Sum(Zeros(m)) + Sum(sizes), sizes[n], cap);
    } else {
      LargeJobFits(sizes, m, n, other, cap, r);
      TimesGrows(m, y, cap);
      ThreeTimes(m, cap);
    }
  }

  /** From empty ranks, largest first: every rank's load is within `4/3 - 1/(3m)` of the maximum any other
      assignment keeps to. */
  lemma LargestFirstBound(sizes: seq<nat>, m: nat, other: seq<nat>, cap: nat, i: nat)
    requires m > 0 && Within(Zeros(m), sizes, other, cap) && Descending(sizes) && i < m
    ensures 3 * m * On(sizes, Greedy(Zeros(m), sizes), i) <= (4 * m - 1) * cap
  {
    LargestFirstWithin(sizes, m, |sizes|, other, cap, i);
    assert sizes[..|sizes|] == sizes;
    ThreeTimesProduct(m, LoadAfter(Zeros(m), sizes, |sizes|, i), cap);
  }

  lemma ThreeTimesProduct(m: nat, y: nat, cap: nat)
    requires m > 0 && 3 * Times(m, y) <= Times(4 * m - 1, cap)
    ensures 3 * m * y <= (4 * m - 1) * cap
  {
    TimesIsProduct(m, y);
    TimesIsProduct(4 * m - 1, cap);
    assert 3 * m * y == 3 * (m * y);
  }

  // ---- The scheduler's method ----

  function TokenCounts(reqs: seq<Waiting>): (s: seq<nat>)
    ensures |s| == |reqs| && forall k {:trigger s[k]} :: 0 <= k < |reqs| ==> s[k] == reqs[k].tokens
  {
    seq(|reqs|, k requires 0 <= k < |reqs| => reqs[k].tokens)
  }

  /** The ids rank `i` is assigned, in order. */
  function Queue(reqs: seq<Waiting>, assign: seq<nat>, i: nat): seq<int>
    requires |reqs| == |assign|
  {
    if reqs == [] then []
    else
      var n := |reqs| - 1;
      Queue(reqs[..n], assign[..n], i) + if assign[n] == i then [reqs[n].id] else []
  }

  function Ids(reqs: seq<Waiting>): (s: seq<int>)
    ensures |s| == |reqs| && forall k {:trigger s[k]} :: 0 <= k < |reqs| ==> s[k] == reqs[k].id
  {
    seq(|reqs|, k requires 0 <= k < |reqs| => reqs[k].id)
  }

  /** How often the queues of the ranks below `m` hold `x`. */
  function Occurrences(reqs: seq<Waiting>, assign: seq<nat>, m: nat, x: int): nat
    requires |reqs| == |assign|
  {
    if m == 0 then 0 else Occurrences(reqs, assign, m - 1, x) + Count(Queue(reqs, assign, m - 1), x)
  }

  /** One for each request with id `x`. */
  function Hits(reqs: seq<Waiting>, x: int): (s: seq<nat>)
    ensures |s| == |reqs| && forall k {:trigger s[k]} :: 0 <= k < |reqs| ==> s[k] == if reqs[k].id == x then 1 else 0
  {
    seq(|reqs|, k requires 0 <= k < |reqs| => if reqs[k].id == x then 1 else 0)
  }

  lemma {:induction false} QueueHits(reqs: seq<Waiting>, assign: seq<nat>, i: nat, x: int)
    requires |reqs| == |assign|
    ensures Count(Queue(reqs, assign, i), x) == On(Hits(reqs, x), assign, i)
    decreases |reqs|
  {
    if reqs != [] {
      var n := |reqs| - 1;
      QueueHits(reqs[..n], assign[..n], i, x);
      assert Hits(reqs, x)[..n] == Hits(reqs[..n], x);
      CountOfSum(Queue(reqs[..n], assign[..n], i), if assign[n] == i then [reqs[n].id] else [], x);
    }
  }

  lemma {:induction false} OccurrencesAre(reqs: seq<Waiting>, assign: seq<nat>, m: nat, x: int, hits: seq<nat>)
    requires |reqs| == |assign| == |hits|
    requires forall i: nat {:trigger On(hits, assign, i)} ::
               Count(Queue(reqs, assign, i), x) == On(hits, assign, i)
    ensures Occurrences(reqs, assign, m, x) == OnAll(hits, assign, m)
    decreases m
  {
    if m > 0 {
      OccurrencesAre(reqs, assign, m - 1, x, hits);
    }
  }

  lemma {:induction false} IdsAreHits(reqs: seq<Waiting>, x: int)
    ensures Count(Ids(reqs), x) == Sum(Hits(reqs, x))
    decreases |reqs|
  {
    if reqs != [] {
      var n := |reqs| - 1;
      IdsAreHits(reqs[..n], x);
      assert Hits(reqs, x)[..n] == Hits(reqs[..n], x);
      assert Ids(reqs)[..n] == Ids(reqs[..n]);
    }
  }

  /** Distribution loses no request and duplicates none: the queues together hold every id as often as it
      was handed in. */
  lemma QueuesConserve(reqs: seq<Waiting>, assign: seq<nat>, m: nat, x: int)
    requires |reqs| == |assign| && Assigns(assign, m)
    ensures Occurrences(reqs, assign, m, x) == Count(Ids(reqs), x)
  {
    forall i: nat {:trigger On(Hits(reqs, x), assign, i)}
      ensures Count(Queue(reqs, assign, i), x) == On(Hits(reqs, x), assign, i)
    {
      QueueHits(reqs, assign, i, x);
    }
    OccurrencesAre(reqs, assign, m, x, Hits(reqs, x));
    RanksShareTheSum(Hits(reqs, x), assign, m);
    IdsAreHits(reqs, x);
  }

  /** The workloads are what has been placed so far adds up to. */
  ghost predicate LoadsHold(init: seq<nat>, workload: seq<nat>, sizes: seq<nat>, assign: seq<nat>)
    requires |workload| == |init| && |sizes| == |assign|
  {
    forall i {:trigger workload[i]} :: 0 <= i < |init| ==> workload[i] == Load(init, sizes, assign, i)
  }

  method FindBestRank(workload: array<nat>, tokens: nat, ghost init: seq<nat>, ghost sizes: seq<nat>,
                      ghost assign: seq<nat>) returns (best: nat)
    requires workload.Length == |init| > 0 && |sizes| == |assign| && LoadsHold(init, workload[..], sizes, assign)
    ensures best == LeastRank(init, sizes, assign, |init|)
  {
    best := 0;
    var least := workload[0] + tokens;
    for i := 1 to workload.Length
      invariant best == LeastRank(init, sizes, assign, i) && least == workload[best] + tokens
    {
      assert workload[..][i] == Load(init, sizes, assign, i) && workload[..][best] == Load(init, sizes, assign, best);
      if workload[i] + tokens < least {
        least := workload[i] + tokens;
        best := i;
      }
    }
  }

  /** Every rank's queue is what it was, then what it is assigned. */
  ghost predicate QueuesHold(was: seq<seq<int>>, now: seq<seq<int>>, reqs: seq<Waiting>, assign: seq<nat>)
    requires |was| == |now| && |reqs| == |assign|
  {
    forall i {:trigger now[i]} :: 0 <= i < |was| ==> now[i] == was[i] + Queue(reqs, assign, i)
  }

  lemma QueuesHoldNext(was: seq<seq<int>>, now: seq<seq<int>>, reqs: seq<Waiting>, k: nat, assign: seq<nat>, r: nat)
    requires k < |reqs| && |assign| == k && |was| == |now| && QueuesHold(was, now, reqs[..k], assign) && r < |was|
    ensures QueuesHold(was, now[r := now[r] + [reqs[k].id]], reqs[..k + 1], assign + [r])
  {
    assert reqs[..k + 1][..k] == reqs[..k] && (assign + [r])[..k] == assign;
  }

  lemma LoadsHoldNext(init: seq<nat>, workload: seq<nat>, sizes: seq<nat>, k: nat, assign: seq<nat>, r: nat)
    requires k < |sizes| && |assign| == k && |workload| == |init| && LoadsHold(init, workload, sizes[..k], assign)
    requires r < |init|
    ensures LoadsHold(init, workload[r := workload[r] + sizes[k]], sizes[..k + 1], assign + [r])
  {
    var next := workload[r := workload[r] + sizes[k]];
    forall i {:trigger next[i]} | 0 <= i < |init| ensures next[i] == Load(init, sizes[..k + 1], assign + [r], i) {
      OnNext(sizes, k, assign, r, i);
      assert workload[i] == Load(init, sizes[..k], assign, i);
    }
  }

  /** The first `k` requests have been placed. */
  ghost predicate Placed(init: seq<nat>, was: seq<seq<int>>, reqs: seq<Waiting>, k: nat, assign: seq<nat>,
                         workload: seq<nat>, queues: seq<seq<int>>)
    requires init != [] && k <= |reqs| && |was| == |queues| && |init| == |workload|
  {
    && assign == Greedy(init, TokenCounts(reqs)[..k])
    && LoadsHold(init, workload, TokenCounts(reqs)[..k], assign)
    && QueuesHold(was, queues, reqs[..k], assign)
  }

  lemma PlacedNext(init: seq<nat>, was: seq<seq<int>>, reqs: seq<Waiting>, k: nat, assign: seq<nat>,
                   workload: seq<nat>, queues: seq<seq<int>>, r: nat)
    requires init != [] && k < |reqs| && |was| == |queues| == |init| == |workload|
    requires Placed(init, was, reqs, k, assign, workload, queues)
    requires r == LeastRank(init, TokenCounts(reqs)[..k], assign, |init|)
    ensures Placed(init, was, reqs, k + 1, assign + [r], workload[r := workload[r] + reqs[k].tokens],
                   queues[r := queues[r] + [reqs[k].id]])
  {
    var sizes := TokenCounts(reqs);
    GreedyPrefix(init, sizes, k);
    LoadsHoldNext(init, workload, sizes, k, assign, r);
    QueuesHoldNext(was, queues, reqs, k, assign, r);
    assert Greedy(init, sizes[..k + 1]) == assign + [r] && sizes[k] == reqs[k].tokens;
  }

  /** One round of the loop below. */
  method PlaceRequest(workload: array<nat>, queues: array<seq<int>>, sorted: seq<Waiting>, k: nat,
                      ghost init: seq<nat>, ghost was: seq<seq<int>>, ghost assign: seq<nat>) returns (best: nat)
    requires workload.Length == queues.Length == |init| == |was| > 0 && k < |sorted|
    requires Placed(init, was, sorted, k, assign, workload[..], queues[..])
    modifies workload, queues
    ensures Placed(init, was, sorted, k + 1, assign + [best], workload[..], queues[..])
  {
    ghost var loads, now := workload[..], queues[..];
    best := FindBestRank(workload, sorted[k].tokens, init, TokenCounts(sorted)[..k], assign);
    PlacedNext(init, was, sorted, k, assign, loads, now, best);
    queues[best] := queues[best] + [sorted[k].id];
    workload[best] := workload[best] + sorted[k].tokens;
    assert workload[..] == loads[best := loads[best] + sorted[k].tokens];
    assert queues[..] == now[best := now[best] + [sorted[k].id]];
  }

  /** `DistributeRequestsByToken`, on the requests as sorted: every rank's queue grows by what the greedy
      assignment gives it, and its workload by as many tokens. */
  method DistributeRequestsByToken(workload: array<nat>, queues: array<seq<int>>, sorted: seq<Waiting>)
    returns (ghost assign: seq<nat>)
    requires workload.Length == queues.Length > 0
    modifies workload, queues
    ensures assign == Greedy(old(workload[..]), TokenCounts(sorted))
    ensures LoadsHold(old(workload[..]), workload[..], TokenCounts(sorted), assign)
    ensures QueuesHold(old(queues[..]), queues[..], sorted, assign)
  {
    ghost var init, was := workload[..], queues[..];
    assign := [];
    for k := 0 to |sorted|
      invariant Placed(init, was, sorted, k, assign, workload[..], queues[..])
    {
      var best := PlaceRequest(workload, queues, sorted, k, init, was, assign);
      assign := assign + [best];
    }
    assert TokenCounts(sorted)[..|sorted|] == TokenCounts(sorted) && sorted[..|sorted|] == sorted;
  }

  // ---- What the method's workloads keep to ----

  /** The workloads the method leaves are within `2 - 1/m` of the maximum any other assignment keeps to. */
  lemma WorkloadsWithin(init: seq<nat>, after: seq<nat>, sorted: seq<Waiting>, other: seq<nat>, cap: nat, i: nat)
    requires |init| == |after| > 0 && LoadsHold(init, after, TokenCounts(sorted), Greedy(init, TokenCounts(sorted)))
    requires Within(init, TokenCounts(sorted), other, cap) && i < |after|
    ensures |init| * after[i] <= (2 * |init| - 1) * cap
  {
    GreedyBound(init, TokenCounts(sorted), other, cap, i);
    assert after[i] == Load(init, TokenCounts(sorted), Greedy(init, TokenCounts(sorted)), i);
  }

  /** From empty ranks and largest first, they are within `4/3 - 1/(3m)`. */
  lemma WorkloadsFromEmptyRanks(after: seq<nat>, sorted: seq<Waiting>, other: seq<nat>, cap: nat, i: nat)
    requires after != [] && Descending(TokenCounts(sorted))
    requires LoadsHold(Zeros(|after|), after, TokenCounts(sorted), Greedy(Zeros(|after|), TokenCounts(sorted)))
    requires Within(Zeros(|after|), TokenCounts(sorted), other, cap) && i < |after|
    ensures 3 * |after| * after[i] <= (4 * |after| - 1) * cap
  {
    LargestFirstBound(TokenCounts(sorted), |after|, other, cap, i);
  }
}
