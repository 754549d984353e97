/** Balancing prefill over attention data-parallel ranks: collect, decide, then distribute or defer. */
module AdpBalance {
  import opened Tokens
  import opened Distribution
  import InferRequests

  /** The lengths a request's workload is computed from. */
  datatype Lengths = Lengths(forwarding: nat, input: nat, kv: nat)

  function AtLeastOne(n: nat, kv: nat): (r: nat)
    ensures r >= 1
  {
    if n > kv then n - kv else 1
  }

  function Pending(l: Lengths): nat
  {
    AtLeastOne(if l.forwarding > 0 then l.forwarding else l.input, l.kv)
  }

  /** Requests in a batch's own queue are counted by their input alone. */
  function PendingInput(l: Lengths): nat
  {
    AtLeastOne(l.input, l.kv)
  }

  /** A request weighs what its next step has to compute: the tokens behind its cached prefix, of its sequence or,
      before it has one, of its input; at least one. */
  lemma PendingIsUncached(l: Lengths)
    ensures l.forwarding > l.kv ==> Pending(l) + l.kv == l.forwarding
    ensures l.forwarding == 0 && l.input > l.kv ==> Pending(l) + l.kv == l.input
    ensures l.kv >= Max(l.forwarding, if l.forwarding == 0 then l.input else 0) ==> Pending(l) == 1
    ensures l.input > l.kv ==> PendingInput(l) + l.kv == l.input
    ensures l.input <= l.kv ==> PendingInput(l) == 1
  {
  }

  /** A request that starts over weighs what it has left to prefill exactly if that is its input: one that is
      recomputed is weighed without the tokens it has generated. */
  lemma ResetWeighsItsInput(s: InferRequests.ReqState, customLogits: nat, input: nat)
    requires 0 < input <= |s.output|
    ensures var t := InferRequests.Reset(s, customLogits);
            Pending(Lengths(|t.forwarding|, input, t.kv)) == t.remaining.prefill <==> input == |s.output|
  {
  }

  function Measured(ids: seq<int>, tokens: int -> nat): (r: seq<Waiting>)
    ensures |r| == |ids|
    ensures forall k {:trigger r[k]} :: 0 <= k < |ids| ==> r[k] == Waiting(tokens(ids[k]), ids[k])
  {
    seq(|ids|, k requires 0 <= k < |ids| => Waiting(tokens(ids[k]), ids[k]))
  }

  // ---- std::sort, by token count, largest first ----

  function Insert(r: Waiting, s: seq<Waiting>): seq<Waiting>
  {
    if s == [] || r.tokens >= s[0].tokens then [r] + s else [s[0]] + Insert(r, s[1..])
  }

  function SortedByTokens(s: seq<Waiting>): seq<Waiting>
  {
    if s == [] then [] else Insert(s[0], SortedByTokens(s[1..]))
  }

  ghost predicate LargestFirst(s: seq<Waiting>)
  {
    forall i, j :: 0 <= i < j < |s| ==> s[i].tokens >= s[j].tokens
  }

  lemma {:induction false} InsertSorts(r: Waiting, s: seq<Waiting>)
    requires LargestFirst(s)
    ensures LargestFirst(Insert(r, s)) && multiset(Insert(r, s)) == multiset(s) + multiset{r}
    ensures Insert(r, s) != [] && (Insert(r, s)[0] == r || (s != [] && Insert(r, s)[0] == s[0]))
    decreases |s|
  {
    if s != [] && r.tokens < s[0].tokens {
      InsertSorts(r, s[1..]);
      var rest := Insert(r, s[1..]);
      assert s == [s[0]] + s[1..];
      forall x | x in rest ensures s[0].tokens >= x.tokens {
        assert x in multiset(rest);
      }
    } else {
      assert [r] + s == Insert(r, s);
    }
  }

  /** Sorting is a permutation, largest first. */
  lemma {:induction false} SortSorts(s: seq<Waiting>)
    ensures LargestFirst(SortedByTokens(s)) && multiset(SortedByTokens(s)) == multiset(s)
    decreases |s|
  {
    if s != [] {
      SortSorts(s[1..]);
      InsertSorts(s[0], SortedByTokens(s[1..]));
      assert s == [s[0]] + s[1..];
    }
  }

  lemma IdsOfSum(a: seq<Waiting>, b: seq<Waiting>, x: int)
    ensures Count(Ids(a + b), x) == Count(Ids(a), x) + Count(Ids(b), x)
  {
    assert Ids(a + b) == Ids(a) + Ids(b);
    CountOfSum(Ids(a), Ids(b), x);
  }

  lemma {:induction false} InsertKeepsIds(r: Waiting, s: seq<Waiting>, x: int)
    ensures Count(Ids(Insert(r, s)), x) == Count(Ids([r]), x) + Count(Ids(s), x)
    decreases |s|
  {
    if s == [] || r.tokens >= s[0].tokens {
      IdsOfSum([r], s, x);
    } else {
      InsertKeepsIds(r, s[1..], x);
      IdsOfSum([s[0]], Insert(r, s[1..]), x);
      IdsOfSum([s[0]], s[1..], x);
      assert s == [s[0]] + s[1..];
    }
  }

  lemma {:induction false} SortKeepsIds(s: seq<Waiting>, x: int)
    ensures Count(Ids(SortedByTokens(s)), x) == Count(Ids(s), x)
    decreases |s|
  {
    if s != [] {
      SortKeepsIds(s[1..], x);
      InsertKeepsIds(s[0], SortedByTokens(s[1..]), x);
      IdsOfSum([s[0]], s[1..], x);
      assert s == [s[0]] + s[1..];
    }
  }

  // ---- Collecting ----

  /** Every queue a waiting request may stand in. `dp` and `batch` have one queue per rank. */
  datatype Queues = Queues(waiting: seq<int>, dp: seq<seq<int>>, batch: seq<seq<int>>)

  predicate QueuesOk(q: Queues, m: nat)
  {
    |q.dp| == m && |q.batch| == m
  }

  /** How often the queues of the first `n` ranks hold `x`. */
  function RankCount(q: Queues, n: nat, x: int): nat
    requires n <= |q.dp| == |q.batch|
  {
    if n == 0 then 0 else RankCount(q, n - 1, x) + Count(q.dp[n - 1], x) + Count(q.batch[n - 1], x)
  }

  function Holds(q: Queues, x: int): nat
    requires |q.dp| == |q.batch|
  {
    Count(q.waiting, x) + RankCount(q, |q.dp|, x)
  }

  function CollectedFrom(q: Queues, info: int -> Lengths, n: nat): seq<Waiting>
    requires n <= |q.dp| == |q.batch|
  {
    if n == 0 then Measured(q.waiting, id => Pending(info(id)))
    else CollectedFrom(q, info, n - 1) + Measured(q.dp[n - 1], id => Pending(info(id)))
         + Measured(q.batch[n - 1], id => PendingInput(info(id)))
  }

  lemma IdsOfMeasured(ids: seq<int>, tokens: int -> nat)
    ensures Ids(Measured(ids, tokens)) == ids
  {
  }

  /** Collecting takes every waiting request once. */
  lemma {:induction false} CollectingCounts(q: Queues, info: int -> Lengths, n: nat, x: int)
    requires n <= |q.dp| == |q.batch|
    ensures Count(Ids(CollectedFrom(q, info, n)), x) == Count(q.waiting, x) + RankCount(q, n, x)
    decreases n
  {
    if n == 0 {
      IdsOfMeasured(q.waiting, id => Pending(info(id)));
    } else {
      CollectingCounts(q, info, n - 1, x);
      var front := CollectedFrom(q, info, n - 1);
      var a := Measured(q.dp[n - 1], id => Pending(info(id)));
      var b := Measured(q.batch[n - 1], id => PendingInput(info(id)));
      IdsOfSum(front, a, x);
      IdsOfSum(front + a, b, x);
      IdsOfMeasured(q.dp[n - 1], id => Pending(info(id)));
      IdsOfMeasured(q.batch[n - 1], id => PendingInput(info(id)));
    }
  }

  /** Which queue a collected request comes from, and what it weighs there. */
  ghost predicate WeighedFrom(q: Queues, info: int -> Lengths, n: nat, r: Waiting)
    requires n <= |q.dp| == |q.batch|
  {
    || (r.tokens == Pending(info(r.id)) && (r.id in q.waiting || exists i :: 0 <= i < n && r.id in q.dp[i]))
    || (r.tokens == PendingInput(info(r.id)) && exists i :: 0 <= i < n && r.id in q.batch[i])
  }

  lemma {:induction false} CollectedAreWeighed(q: Queues, info: int -> Lengths, n: nat, r: Waiting)
    requires n <= |q.dp| == |q.batch| && r in CollectedFrom(q, info, n)
    ensures WeighedFrom(q, info, n, r)
    decreases n
  {
    if n == 0 {
    } else if r in CollectedFrom(q, info, n - 1) {
      CollectedAreWeighed(q, info, n - 1, r);
    } else if r in Measured(q.dp[n - 1], id => Pending(info(id))) {
      assert r.id in q.dp[n - 1];
    } else {
      assert r in Measured(q.batch[n - 1], id => PendingInput(info(id)));
      assert r.id in q.batch[n - 1];
    }
  }

  // ---- Deciding ----

  /** The balancer between two calls. */
  datatype Balancer = Balancer(queues: Queues, waitingIters: nat, startTime: int)

  /** What one call sees: requests running per rank in this batch, their prefill workload, the clock, and the
      configured limits. */
  datatype Call = Call(running: seq<nat>, workload: seq<nat>, now: int, maxSteps: nat, maxTime: int)

  predicate CallOk(b: Balancer, c: Call)
  {
    |c.running| == |c.workload| > 0 && QueuesOk(b.queues, |c.running|)
  }

  /** `IsADPBalanceTimeout`. */
  predicate TimedOut(b: Balancer, c: Call)
  {
    (b.waitingIters > 0 && c.now - b.startTime >= c.maxTime) || b.waitingIters >= c.maxSteps
  }

  function Collected(b: Balancer, info: int -> Lengths): seq<Waiting>
    requires |b.queues.dp| == |b.queues.batch|
  {
    CollectedFrom(b.queues, info, |b.queues.dp|)
  }

  ghost predicate Proceeds(b: Balancer, info: int -> Lengths, c: Call)
    requires CallOk(b, c)
  {
    || |Collected(b, info)| >= |c.running|
    || (exists i :: 0 <= i < |c.running| && c.running[i] == 0)
    || TimedOut(b, c)
  }

  function Empties(m: nat): (s: seq<seq<int>>)
    ensures |s| == m && forall i :: 0 <= i < m ==> s[i] == []
  {
    seq(m, _ => [])
  }

  /** What `BalanceADPRequests` leaves. */
  ghost predicate Balanced(b: Balancer, info: int -> Lengths, c: Call, after: Balancer)
    requires CallOk(b, c)
  {
    var m, sorted := |c.running|, SortedByTokens(Collected(b, info));
    && QueuesOk(after.queues, m) && (forall i :: 0 <= i < m ==> after.queues.batch[i] == [])
    && if Proceeds(b, info, c) then
         && after.queues.waiting == [] && after.waitingIters == 0 && after.startTime == b.startTime
         && forall i {:trigger after.queues.dp[i]} :: 0 <= i < m ==>
              after.queues.dp[i] == Queue(sorted, Greedy(c.workload, TokenCounts(sorted)), i)
       else
         && after.queues.waiting == Ids(Collected(b, info)) && after.waitingIters == b.waitingIters + 1
         && after.startTime == (if b.waitingIters == 0 then c.now else b.startTime)
         && forall i {:trigger after.queues.dp[i]} :: 0 <= i < m ==> after.queues.dp[i] == []
  }

  lemma {:induction false} EmptyRanksCount(q: Queues, n: nat, x: int)
    requires n <= |q.dp| == |q.batch|
    requires forall i {:trigger q.dp[i]} :: 0 <= i < |q.dp| ==> Count(q.dp[i], x) == 0
    requires forall i {:trigger q.batch[i]} :: 0 <= i < |q.batch| ==> Count(q.batch[i], x) == 0
    ensures RankCount(q, n, x) == 0
    decreases n
  {
    if n > 0 {
      EmptyRanksCount(q, n - 1, x);
    }
  }

  lemma {:induction false} AssignedRanksCount(q: Queues, reqs: seq<Waiting>, assign: seq<nat>, n: nat, x: int)
    requires n <= |q.dp| == |q.batch| && |reqs| == |assign|
    requires forall i {:trigger q.dp[i]} :: 0 <= i < |q.dp| ==> Count(q.dp[i], x) == Count(Queue(reqs, assign, i), x)
    requires forall i {:trigger q.batch[i]} :: 0 <= i < |q.batch| ==> Count(q.batch[i], x) == 0
    ensures RankCount(q, n, x) == Occurrences(reqs, assign, n, x)
    decreases n
  {
    if n > 0 {
      AssignedRanksCount(q, reqs, assign, n - 1, x);
    }
  }

  /** Balancing conserves the waiting requests, whichever branch it takes: afterwards the queues together
      hold each id as often as before. */
  lemma BalanceConserves(b: Balancer, info: int -> Lengths, c: Call, after: Balancer, x: int)
    requires CallOk(b, c) && Balanced(b, info, c, after)
    ensures Holds(after.queues, x) == Holds(b.queues, x)
  {
    var m, collected := |c.running|, Collected(b, info);
    CollectingCounts(b.queues, info, m, x);
    if Proceeds(b, info, c) {
      var sorted := SortedByTokens(collected);
      var assign := Greedy(c.workload, TokenCounts(sorted));
      SortKeepsIds(collected, x);
      QueuesConserve(sorted, assign, m, x);
      AssignedRanksCount(after.queues, sorted, assign, m, x);
    } else {
      EmptyRanksCount(after.queues, m, x);
    }
  }

  // ---- How long prefill can be put off ----

  /** One call: the balancer before and after it, and the request lengths it reads. */
  datatype Round = Round(before: Balancer, info: int -> Lengths, call: Call, after: Balancer)

  ghost predicate RoundOk(r: Round)
  {
    CallOk(r.before, r.call) && Balanced(r.before, r.info, r.call, r.after)
  }

  /** Calls in a row. Between two of them requests come and go and grow as they like; only the counter and
      the start time are the balancer's own. */
  ghost predicate Trace(rs: seq<Round>)
  {
    && (forall r :: r in rs ==> RoundOk(r))
    && forall k {:trigger rs[k]} :: 0 < k < |rs| ==>
         && rs[k].before.waitingIters == rs[k - 1].after.waitingIters
         && rs[k].before.startTime == rs[k - 1].after.startTime
  }

  /** The call put prefill off. */
  ghost predicate Defers(r: Round)
  {
    RoundOk(r) && !Proceeds(r.before, r.info, r.call)
  }

  lemma {:induction false} DeferralsCount(rs: seq<Round>, n: nat)
    requires Trace(rs) && (forall r :: r in rs ==> Defers(r)) && n < |rs|
    ensures rs[n].before.waitingIters == rs[0].before.waitingIters + n
    decreases n
  {
    if n > 0 {
      DeferralsCount(rs, n - 1);
      assert rs[n - 1] in rs && RoundOk(rs[n - 1]) && Defers(rs[n - 1]);
    }
  }

  /** Prefill is put off at most `max_waiting_steps` times in a row, whatever arrives, finishes or grows
      between the calls and wherever the row starts, as long as no call is configured with more. */
  lemma DeferralsAreBounded(rs: seq<Round>, limit: nat)
    requires Trace(rs) && forall r :: r in rs ==> Defers(r) && r.call.maxSteps <= limit
    ensures |rs| <= limit
  {
    if rs != [] {
      var last := rs[|rs| - 1];
      DeferralsCount(rs, |rs| - 1);
      assert last in rs && Defers(last);
    }
  }

  /** In a row of calls of which all before call `n` put prefill off, the wait started with the first one. */
  lemma {:induction false} WaitStarted(rs: seq<Round>, n: nat)
    requires Trace(rs) && 0 < n < |rs| && rs[0].before.waitingIters == 0
    requires forall k {:trigger rs[k]} :: 0 <= k < n ==> Defers(rs[k])
    ensures rs[n].before.waitingIters == n && rs[n].before.startTime == rs[0].call.now
    decreases n
  {
    assert rs[n - 1] in rs && RoundOk(rs[n - 1]) && Defers(rs[n - 1]);
    if n > 1 {
      WaitStarted(rs, n - 1);
    }
  }

  /** Call `n` of such a row puts prefill off once more exactly while there are fewer requests than ranks, every rank
      has one running, and neither as many calls nor, unless it is the first itself, as much time as configured have
      gone by since the first. */
  lemma DefersExactly(rs: seq<Round>, n: nat)
    requires Trace(rs) && n < |rs| && rs[0].before.waitingIters == 0
    requires forall k {:trigger rs[k]} :: 0 <= k < n ==> Defers(rs[k])
    ensures var r := rs[n];
            RoundOk(r) && (Defers(r) <==>
                           && |Collected(r.before, r.info)| < |r.call.running|
                           && (forall i :: 0 <= i < |r.call.running| ==> r.call.running[i] > 0)
                           && n < r.call.maxSteps
                           && (n > 0 ==> r.call.now - rs[0].call.now < r.call.maxTime))
  {
    assert rs[n] in rs;
    if n > 0 {
      WaitStarted(rs, n);
    }
  }

  // ---- The scheduler object ----

  class AdpBalancer {
    var waitingReqs: seq<int>
    const dpWaitingReqs: array<seq<int>>
    const batchWaiting: array<seq<int>>
    var waitingIters: nat
    var startTime: int
    const info: int -> Lengths

    ghost predicate Valid()
      reads this
    {
      dpWaitingReqs.Length == batchWaiting.Length && dpWaitingReqs != batchWaiting
    }

    ghost function State(): Balancer
      reads this, dpWaitingReqs, batchWaiting
    {
      Balancer(Queues(waitingReqs, dpWaitingReqs[..], batchWaiting[..]), waitingIters, startTime)
    }

    constructor (ranks: nat, info: int -> Lengths)
      ensures Valid() && fresh(dpWaitingReqs) && fresh(batchWaiting) && dpWaitingReqs.Length == ranks
      ensures State() == Balancer(Queues([], Empties(ranks), Empties(ranks)), 0, 0) && this.info == info
    {
      waitingReqs, waitingIters, startTime := [], 0, 0;
      dpWaitingReqs := new seq<int>[ranks](_ => []);
      batchWaiting := new seq<int>[ranks](_ => []);
      this.info := info;
      new;
      assert dpWaitingReqs[..] == batchWaiting[..] == Empties(ranks);
    }

    /** Step 1: takes every waiting request out of its queue. */
    method Collect() returns (reqs: seq<Waiting>)
      requires Valid()
      modifies this`waitingReqs, dpWaitingReqs, batchWaiting
      ensures reqs == Collected(old(State()), info)
      ensures State().queues == Queues([], Empties(dpWaitingReqs.Length), Empties(dpWaitingReqs.Length))
    {
      ghost var q := State().queues;
      reqs := Measured(waitingReqs, id => Pending(info(id)));
      waitingReqs := [];
      for i := 0 to dpWaitingReqs.Length
        invariant reqs == CollectedFrom(q, info, i) && waitingReqs == []
        invariant forall k :: 0 <= k < i ==> dpWaitingReqs[k] == batchWaiting[k] == []
        invariant forall k :: i <= k < dpWaitingReqs.Length ==>
                    dpWaitingReqs[k] == q.dp[k] && batchWaiting[k] == q.batch[k]
      {
        reqs := reqs + Measured(dpWaitingReqs[i], id => Pending(info(id)));
        dpWaitingReqs[i] := [];
        reqs := reqs + Measured(batchWaiting[i], id => PendingInput(info(id)));
        batchWaiting[i] := [];
      }
      assert dpWaitingReqs[..] == batchWaiting[..] == Empties(dpWaitingReqs.Length);
    }

    method AllRanksGenerate(running: seq<nat>) returns (all: bool)
      ensures all <==> forall i :: 0 <= i < |running| ==> running[i] > 0
    {
      for i := 0 to |running|
        invariant forall k :: 0 <= k < i ==> running[k] > 0
      {
        if running[i] == 0 {
          return false;
        }
      }
      all := true;
    }

    method DistributeAll(workload: array<nat>, reqs: seq<Waiting>)
      requires Valid() && workload.Length == dpWaitingReqs.Length > 0
      requires forall i :: 0 <= i < dpWaitingReqs.Length ==> dpWaitingReqs[i] == []
      modifies dpWaitingReqs, workload
      ensures var sorted := SortedByTokens(reqs);
              var assign := Greedy(old(workload[..]), TokenCounts(sorted));
              forall i :: 0 <= i < dpWaitingReqs.Length ==> dpWaitingReqs[i] == Queue(sorted, assign, i)
    {
      var sorted := SortedByTokens(reqs);
      ghost var assign := DistributeRequestsByToken(workload, dpWaitingReqs, sorted);
      assert forall i :: 0 <= i < dpWaitingReqs.Length ==> dpWaitingReqs[..][i] == [] + Queue(sorted, assign, i);
    }

    method BalanceADPRequests(running: seq<nat>, workload: array<nat>, now: int, maxSteps: nat, maxTime: int)
      requires Valid() && |running| == workload.Length == dpWaitingReqs.Length > 0
      modifies this`waitingReqs, this`waitingIters, this`startTime, dpWaitingReqs, batchWaiting, workload
      ensures Balanced(old(State()), info, Call(running, old(workload[..]), now, maxSteps, maxTime), State())
    {
      var reqs := Collect();
      var allRanksGenerate := AllRanksGenerate(running);
      var timeout := (waitingIters > 0 && now - startTime >= maxTime) || waitingIters >= maxSteps;
      if |reqs| >= |running| || !allRanksGenerate || timeout {
        DistributeAll(workload, reqs);
        waitingIters := 0;
      } else {
        waitingReqs := Ids(reqs);
        if waitingIters == 0 {
          startTime := now;
        }
        waitingIters := waitingIters + 1;
      }
    }
  }
}
