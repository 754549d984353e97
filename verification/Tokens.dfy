/** Token sequences: the slot operations both sides of the pipeline apply to `forwarding_tokens`. */
module Tokens {

  /** Sentinel written into a slot whose token is still being sampled (`kFastPathPlaceholderTokenId`). */
  const PLACEHOLDER: int := -1

  /** What a step does with its tokens (`ForwardStepKind`): a middle prefill chunk only fills the cache. */
  datatype StepKind = DecodeStep | PrefillStep | PrefillChunkMid

  datatype Option<+T> = None | Some(value: T)

  function Min(a: nat, b: nat): nat { if a <= b then a else b }

  function Max(a: nat, b: nat): nat { if a >= b then a else b }

  /** `n` copies of `v`. */
  function Fill<T>(v: T, n: nat): (s: seq<T>)
    ensures |s| == n && forall i :: 0 <= i < n ==> s[i] == v
  {
    seq(n, _ => v)
  }

  /** `s` with `vals` written over the slots starting at `at`. */
  function Overwrite(s: seq<int>, at: nat, vals: seq<int>): (r: seq<int>)
    requires at + |vals| <= |s|
    ensures |r| == |s|
    ensures forall i :: 0 <= i < |s| ==> r[i] == if at <= i < at + |vals| then vals[i - at] else s[i]
  {
    s[..at] + vals + s[at + |vals|..]
  }

  /** `s` without the slots `lo <= i < hi`. */
  function Erase(s: seq<int>, lo: nat, hi: nat): (r: seq<int>)
    requires lo <= hi <= |s|
    ensures |r| == |s| - (hi - lo)
  {
    s[..lo] + s[hi..]
  }

  /** `std::vector::resize`: truncate, or grow with zeros. */
  function Resize(s: seq<int>, n: nat): (r: seq<int>)
    ensures |r| == n
  {
    if n <= |s| then s[..n] else s + Fill(0, n - |s|)
  }

  /** Writing one more value extends an overwritten range. */
  lemma OverwriteNext(s: seq<int>, at: nat, vals: seq<int>, i: nat)
    requires i < |vals| && at + |vals| <= |s|
    ensures Overwrite(s, at, vals[..i])[at + i := vals[i]] == Overwrite(s, at, vals[..i + 1])
  {
  }

  /** `vals` written over `s` slot by slot. */
  method WriteOver(s: seq<int>, at: nat, vals: seq<int>) returns (r: seq<int>)
    requires at + |vals| <= |s|
    ensures r == Overwrite(s, at, vals)
  {
    r := s;
    for i := 0 to |vals|
      invariant r == Overwrite(s, at, vals[..i])
    {
      OverwriteNext(s, at, vals, i);
      r := r[at + i := vals[i]];
    }
    assert vals[..|vals|] == vals;
  }

  lemma OverwriteMiddle(a: seq<int>, b: seq<int>, c: seq<int>, vals: seq<int>)
    requires |vals| == |b|
    ensures Overwrite(a + b + c, |a|, vals) == a + vals + c
  {
  }

  lemma EraseMiddle(a: seq<int>, b: seq<int>, c: seq<int>)
    ensures Erase(a + b + c, |a|, |a| + |b|) == a + c
  {
  }

  /** Writing a prefix of what is already there changes nothing. */
  lemma OverwriteSame(a: seq<int>, vals: seq<int>, c: seq<int>)
    ensures Overwrite(a + vals + c, |a|, vals) == a + vals + c
  {
  }

  /** Writing values over the front of a range and erasing its rest puts them in the range's place. */
  lemma OverwriteErase(s: seq<int>, lo: nat, hi: nat, vals: seq<int>)
    requires lo + |vals| <= hi <= |s|
    ensures Erase(Overwrite(s, lo, vals), lo + |vals|, hi) == s[..lo] + vals + s[hi..]
  {
    assert s == s[..lo] + s[lo..lo + |vals|] + s[lo + |vals|..];
    OverwriteMiddle(s[..lo], s[lo..lo + |vals|], s[lo + |vals|..], vals);
    EraseMiddle(s[..lo] + vals, s[lo + |vals|..hi], s[hi..]);
    assert s[lo + |vals|..] == s[lo + |vals|..hi] + s[hi..];
    assert s[..lo] + vals + s[lo + |vals|..] == s[..lo] + vals + s[lo + |vals|..hi] + s[hi..];
  }

  /** A block `[..|kept|rejected]` between `head` and `tail`, trimmed to what was kept. */
  lemma TrimSlots(head: seq<int>, kept: seq<int>, rejected: seq<int>, tail: seq<int>)
    ensures var f := head + (kept + rejected) + tail;
            Erase(Overwrite(f, |head|, kept), |head| + |kept|, |head| + |kept| + |rejected|) == head + kept + tail
  {
    assert head + (kept + rejected) + tail == head + kept + (rejected + tail);
    OverwriteSame(head, kept, rejected + tail);
    assert head + kept + (rejected + tail) == (head + kept) + rejected + tail;
    EraseMiddle(head + kept, rejected, tail);
  }

  // ---- Occurrences ----

  /** How often `s` holds `x`. */
  function Count(s: seq<int>, x: int): nat
  {
    if s == [] then 0 else Count(s[..|s| - 1], x) + if s[|s| - 1] == x then 1 else 0
  }

  lemma {:induction false} CountIsMultiplicity(s: seq<int>, x: int)
    ensures Count(s, x) == multiset(s)[x]
    decreases |s|
  {
    if s != [] {
      CountIsMultiplicity(s[..|s| - 1], x);
      assert s == s[..|s| - 1] + [s[|s| - 1]];
    }
  }

  lemma {:induction false} CountOfSum(a: seq<int>, b: seq<int>, x: int)
    ensures Count(a + b, x) == Count(a, x) + Count(b, x)
    decreases |b|
  {
    if b == [] {
      assert a + b == a;
    } else {
      CountOfSum(a, b[..|b| - 1], x);
      assert (a + b)[..|a + b| - 1] == a + b[..|b| - 1];
    }
  }
}
