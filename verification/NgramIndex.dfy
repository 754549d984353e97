/** The n-gram index behind the no-repeat processors. */
module NgramIndexes {
  import opened Tokens

  /** Each context of `n - 1` tokens, and the tokens that have followed it. */
  type NgramDict = map<seq<int>, seq<int>>

  function AddNgram(dict: NgramDict, gram: seq<int>): NgramDict
    requires gram != []
  {
    var context := gram[..|gram| - 1];
    dict[context := (if context in dict then dict[context] else []) + [gram[|gram| - 1]]]
  }

  /** How often the index says `x` has followed `context`. */
  function Mentions(dict: NgramDict, context: seq<int>, x: int): nat
  {
    if context in dict then Count(dict[context], x) else 0
  }

  lemma AddMentionsOwn(dict: NgramDict, context: seq<int>, last: int, x: int)
    ensures Mentions(AddNgram(dict, context + [last]), context, x) ==
            Mentions(dict, context, x) + if last == x then 1 else 0
  {
    assert (context + [last])[..|context|] == context;
    CountOfSum(if context in dict then dict[context] else [], [last], x);
    assert Count([last], x) == if last == x then 1 else 0;
  }

  lemma AddMentions(dict: NgramDict, gram: seq<int>, context: seq<int>, x: int)
    requires gram != []
    ensures Mentions(AddNgram(dict, gram), context, x) ==
            Mentions(dict, context, x) + if gram == context + [x] then 1 else 0
  {
    var own, last := gram[..|gram| - 1], gram[|gram| - 1];
    assert gram == own + [last];
    if context == own {
      AddMentionsOwn(dict, context, last, x);
      assert gram == context + [x] ==> gram[|gram| - 1] == x;
    } else {
      assert gram == context + [x] ==> own == context;
    }
  }

  predicate StandsAt(tokens: seq<int>, gram: seq<int>, i: nat)
  {
    i + |gram| <= |tokens| && tokens[i..i + |gram|] == gram
  }

  function Positions(tokens: seq<int>, gram: seq<int>): set<nat>
  {
    set i: nat | i <= |tokens| && StandsAt(tokens, gram, i)
  }

  /** How often `gram` stands in `tokens`. */
  function Occurs(tokens: seq<int>, gram: seq<int>): nat
  {
    |Positions(tokens, gram)|
  }

  /** One more token can only add the n-gram it ends. */
  lemma OccursNext(tokens: seq<int>, gram: seq<int>)
    requires 0 < |gram| <= |tokens|
    ensures Occurs(tokens, gram) ==
            Occurs(tokens[..|tokens| - 1], gram) + if tokens[|tokens| - |gram|..] == gram then 1 else 0
  {
    var front, last := tokens[..|tokens| - 1], |tokens| - |gram|;
    forall i: nat ensures i in Positions(tokens, gram) <==>
                          i in Positions(front, gram) || (i == last && tokens[last..] == gram) {
      if i + |gram| <= |front| {
        assert tokens[i..i + |gram|] == front[i..i + |gram|];
      } else if i == last {
        assert tokens[last..] == tokens[i..i + |gram|];
      }
    }
    if tokens[last..] == gram {
      assert Positions(tokens, gram) == Positions(front, gram) + {last};
    } else {
      assert Positions(tokens, gram) == Positions(front, gram);
    }
  }

  /** The index rebuilt from the whole sequence and this one hold, for each context, the same tokens
      equally often. */
  ghost predicate Indexes(dict: NgramDict, tokens: seq<int>, n: nat)
    requires n > 0
  {
    forall context, x {:trigger Mentions(dict, context, x)} :: |context| == n - 1 ==>
      Mentions(dict, context, x) == Occurs(tokens, context + [x])
  }

  lemma EmptyIndexes(tokens: seq<int>, n: nat)
    requires n > |tokens|
    ensures Indexes(map[], tokens, n)
  {
    forall context, x {:trigger Mentions(map[], context, x)} | |context| == n - 1
      ensures Occurs(tokens, context + [x]) == 0
    {
      assert Positions(tokens, context + [x]) == {};
    }
  }

  /** Adding the n-gram that ends a sequence brings the index up to date with it. */
  lemma AddIndexes(dict: NgramDict, tokens: seq<int>, n: nat)
    requires 0 < n <= |tokens| && Indexes(dict, tokens[..|tokens| - 1], n)
    ensures Indexes(AddNgram(dict, tokens[|tokens| - n..]), tokens, n)
  {
    var gram := tokens[|tokens| - n..];
    forall context, x {:trigger Mentions(AddNgram(dict, gram), context, x)} | |context| == n - 1
      ensures Mentions(AddNgram(dict, gram), context, x) == Occurs(tokens, context + [x])
    {
      AddMentions(dict, gram, context, x);
      assert Mentions(dict, context, x) == Occurs(tokens[..|tokens| - 1], context + [x]);
      OccursNext(tokens, context + [x]);
    }
  }

  /** The last `n - 1` tokens. */
  function LastContext(tokens: seq<int>, n: nat): (context: seq<int>)
    requires 0 < n <= |tokens| + 1
    ensures |context| == n - 1
  {
    tokens[|tokens| - n + 1..]
  }

  /** What the processor bans: the tokens known to have followed the context. */
  function Banned(dict: NgramDict, context: seq<int>): seq<int>
  {
    if context in dict then dict[context] else []
  }

  lemma {:induction false} CountFindsMembers(s: seq<int>, x: int)
    ensures Count(s, x) > 0 <==> x in s
    decreases |s|
  {
    if s != [] {
      CountFindsMembers(s[..|s| - 1], x);
      assert s == s[..|s| - 1] + [s[|s| - 1]];
    }
  }

  lemma BannedIsMentioned(dict: NgramDict, context: seq<int>, x: int)
    ensures x in Banned(dict, context) <==> Mentions(dict, context, x) > 0
  {
    CountFindsMembers(Banned(dict, context), x);
  }

  /** With an up-to-date index the banned set is exact: a token is banned if and only if appending it would
      repeat an n-gram. */
  lemma BannedExactly(dict: NgramDict, tokens: seq<int>, n: nat, x: int)
    requires 0 < n <= |tokens| + 1 && Indexes(dict, tokens, n)
    ensures x in Banned(dict, LastContext(tokens, n)) <==> Occurs(tokens, LastContext(tokens, n) + [x]) > 0
  {
    BannedIsMentioned(dict, LastContext(tokens, n), x);
  }

  // ---- Runs ----

  /** The n-gram that ends at `e` has not stood in the sequence before. */
  ghost predicate NewAt(tokens: seq<int>, e: nat, n: nat)
    requires 0 < n <= e <= |tokens|
  {
    Occurs(tokens[..e - 1], tokens[e - n..e]) == 0
  }

  /** No n-gram that ends behind position `from` has. */
  ghost predicate NoRepeatFrom(tokens: seq<int>, from: nat, n: nat)
    requires n > 0
  {
    forall e: nat :: from < e <= |tokens| && n <= e ==> NewAt(tokens, e, n)
  }

  lemma NewStaysNew(tokens: seq<int>, e: nat, n: nat, x: int)
    requires 0 < n <= e <= |tokens| && NewAt(tokens, e, n)
    ensures NewAt(tokens + [x], e, n)
  {
    assert (tokens + [x])[..e - 1] == tokens[..e - 1] && (tokens + [x])[e - n..e] == tokens[e - n..e];
  }

  lemma NewAtEnd(tokens: seq<int>, n: nat, x: int)
    requires 0 < n <= |tokens| + 1 && Occurs(tokens, LastContext(tokens, n) + [x]) == 0
    ensures NewAt(tokens + [x], |tokens| + 1, n)
  {
    var longer := tokens + [x];
    assert longer[..|tokens|] == tokens && longer[|longer| - n..|longer|] == LastContext(tokens, n) + [x];
  }

  lemma NoRepeatNext(tokens: seq<int>, from: nat, n: nat, x: int)
    requires 0 < n <= |tokens| + 1 && NoRepeatFrom(tokens, from, n)
    requires Occurs(tokens, LastContext(tokens, n) + [x]) == 0
    ensures NoRepeatFrom(tokens + [x], from, n)
  {
    forall e: nat | from < e <= |tokens| + 1 && n <= e ensures NewAt(tokens + [x], e, n) {
      if e <= |tokens| {
        NewStaysNew(tokens, e, n, x);
      } else {
        NewAtEnd(tokens, n, x);
      }
    }
  }

  /** One step of a request that yields one token: index, ban, sample a token that is not banned. */
  ghost predicate Samples(dict: NgramDict, tokens: seq<int>, n: nat, dict': NgramDict, tokens': seq<int>)
    requires 0 < n <= |tokens|
  {
    exists x :: && x !in Banned(dict, LastContext(tokens, n)) && tokens' == tokens + [x]
                && dict' == AddNgram(dict, tokens'[|tokens'| - n..])
  }

  ghost predicate Run(dicts: seq<NgramDict>, outputs: seq<seq<int>>, n: nat)
    requires n > 0
  {
    && |dicts| == |outputs| > 0
    && forall k {:trigger Follows(dicts, outputs, n, k)} :: 0 < k < |dicts| ==> Follows(dicts, outputs, n, k)
  }

  ghost predicate Follows(dicts: seq<NgramDict>, outputs: seq<seq<int>>, n: nat, k: nat)
    requires n > 0 && 0 < k < |dicts| == |outputs|
  {
    n <= |outputs[k - 1]| && Samples(dicts[k - 1], outputs[k - 1], n, dicts[k], outputs[k])
  }

  /** In every run that starts from an index of the prompt and samples one token that is not banned per step,
      no n-gram that ends in the generated part repeats an earlier one, and the index stays exact. */
  lemma {:induction false} RunNeverRepeats(dicts: seq<NgramDict>, outputs: seq<seq<int>>, n: nat, k: nat)
    requires n > 0 && Run(dicts, outputs, n) && k < |dicts| && Indexes(dicts[0], outputs[0], n)
    ensures Indexes(dicts[k], outputs[k], n) && NoRepeatFrom(outputs[k], |outputs[0]|, n)
    ensures outputs[0] <= outputs[k]
    decreases k
  {
    if k > 0 {
      RunNeverRepeats(dicts, outputs, n, k - 1);
      assert Follows(dicts, outputs, n, k);
      var tokens := outputs[k - 1];
      var x :| x !in Banned(dicts[k - 1], LastContext(tokens, n)) && outputs[k] == tokens + [x]
               && dicts[k] == AddNgram(dicts[k - 1], outputs[k][|outputs[k]| - n..]);
      BannedExactly(dicts[k - 1], tokens, n, x);
      NoRepeatNext(tokens, |outputs[0]|, n, x);
      assert outputs[k][..|outputs[k]| - 1] == tokens;
      AddIndexes(dicts[k - 1], outputs[k], n);
    }
  }

  // ---- Several tokens per step ----

  /** The n-gram that ends `i` tokens before the end. */
  function Ending(tokens: seq<int>, n: nat, i: nat): seq<int>
    requires n + i <= |tokens|
  {
    tokens[|tokens| - n - i..|tokens| - i]
  }

  /** How many of the last `t` n-grams are `gram`. */
  function Recent(tokens: seq<int>, gram: seq<int>, t: nat): nat
    requires t == 0 || |gram| + t <= |tokens| + 1
  {
    if t == 0 then 0
    else Recent(tokens, gram, t - 1) + if Ending(tokens, |gram|, t - 1) == gram then 1 else 0
  }

  /** The last `t` tokens can only add the n-grams they end. */
  lemma {:induction false} OccursRecent(tokens: seq<int>, gram: seq<int>, t: nat)
    requires 0 < |gram| && t <= |tokens| && (t == 0 || |gram| + t <= |tokens| + 1)
    ensures Occurs(tokens, gram) == Occurs(tokens[..|tokens| - t], gram) + Recent(tokens, gram, t)
    decreases t
  {
    if t == 0 {
      assert tokens[..|tokens|] == tokens;
    } else {
      OccursRecent(tokens, gram, t - 1);
      var front := tokens[..|tokens| - (t - 1)];
      OccursNext(front, gram);
      assert front[..|front| - 1] == tokens[..|tokens| - t];
      assert front[|front| - |gram|..] == Ending(tokens, |gram|, t - 1);
    }
  }

  /** `now` holds what `was` held and the last `t` n-grams of `tokens`. */
  ghost predicate Extends(was: NgramDict, now: NgramDict, tokens: seq<int>, n: nat, t: nat)
    requires n > 0 && (t == 0 || n + t <= |tokens| + 1)
  {
    forall context, x {:trigger Mentions(now, context, x)} :: |context| == n - 1 ==>
      Mentions(now, context, x) == Mentions(was, context, x) + Recent(tokens, context + [x], t)
  }

  lemma ExtendsNothing(was: NgramDict, now: NgramDict, tokens: seq<int>, n: nat)
    requires n > 0 && now == was
    ensures Extends(was, now, tokens, n, 0)
  {
    forall context, x {:trigger Mentions(now, context, x)} | |context| == n - 1
      ensures Mentions(now, context, x) == Mentions(was, context, x) + Recent(tokens, context + [x], 0)
    {
      assert Recent(tokens, context + [x], 0) == 0;
    }
  }

  lemma ExtendsNext(was: NgramDict, now: NgramDict, tokens: seq<int>, n: nat, t: nat)
    requires n > 0 && n + t <= |tokens| && Extends(was, now, tokens, n, t)
    ensures Extends(was, AddNgram(now, Ending(tokens, n, t)), tokens, n, t + 1)
  {
    var gram := Ending(tokens, n, t);
    forall context, x {:trigger Mentions(AddNgram(now, gram), context, x)} | |context| == n - 1
      ensures Mentions(AddNgram(now, gram), context, x) ==
              Mentions(was, context, x) + Recent(tokens, context + [x], t + 1)
    {
      AddMentions(now, gram, context, x);
      assert Mentions(now, context, x) == Mentions(was, context, x) + Recent(tokens, context + [x], t);
    }
  }

  /** The incrementally updated index equals the one rebuilt from the whole sequence. */
  lemma ExtendedIndexes(was: NgramDict, now: NgramDict, tokens: seq<int>, n: nat, t: nat)
    requires n > 0 && t <= |tokens| && (t == 0 || n + t <= |tokens| + 1)
    requires Indexes(was, tokens[..|tokens| - t], n) && Extends(was, now, tokens, n, t)
    ensures Indexes(now, tokens, n)
  {
    forall context, x {:trigger Mentions(now, context, x)} | |context| == n - 1
      ensures Mentions(now, context, x) == Occurs(tokens, context + [x])
    {
      assert Mentions(was, context, x) == Occurs(tokens[..|tokens| - t], context + [x]);
      OccursRecent(tokens, context + [x], t);
    }
  }

  /** N-grams that end in the last `t` tokens are n-grams of the generated part, if it is long enough. */
  lemma {:induction false} RecentOfGenerated(tokens: seq<int>, from: nat, gram: seq<int>, t: nat)
    requires gram != [] && from <= |tokens| && (t == 0 || |gram| + t <= |tokens| - from + 1)
    ensures Recent(tokens, gram, t) == Recent(tokens[from..], gram, t)
    decreases t
  {
    if t > 0 {
      RecentOfGenerated(tokens, from, gram, t - 1);
      assert Ending(tokens, |gram|, t - 1) == Ending(tokens[from..], |gram|, t - 1);
    }
  }

  lemma GeneratedIndexes(was: NgramDict, now: NgramDict, tokens: seq<int>, from: nat, n: nat, t: nat)
    requires n > 0 && from + t <= |tokens| && (t == 0 || n + t <= |tokens| - from + 1)
    requires Indexes(was, tokens[from..][..|tokens| - from - t], n) && Extends(was, now, tokens, n, t)
    ensures Indexes(now, tokens[from..], n)
  {
    forall context, x {:trigger Mentions(now, context, x)} | |context| == n - 1
      ensures Mentions(now, context, x) == Mentions(was, context, x) + Recent(tokens[from..], context + [x], t)
    {
      RecentOfGenerated(tokens, from, context + [x], t);
    }
    ExtendedIndexes(was, now, tokens[from..], n, t);
  }

  lemma {:induction false} RecentGrows(tokens: seq<int>, gram: seq<int>, t: nat, more: nat)
    requires t <= more && (more == 0 || |gram| + more <= |tokens| + 1)
    ensures Recent(tokens, gram, t) <= Recent(tokens, gram, more)
    decreases more
  {
    if t < more {
      RecentGrows(tokens, gram, t, more - 1);
    }
  }

  /** A sequence holds no more of `gram` than the n-grams it ends with, counted back to its start. */
  lemma OccursIsRecent(tokens: seq<int>, gram: seq<int>)
    requires 0 < |gram| <= |tokens|
    ensures Occurs(tokens, gram) == Recent(tokens, gram, |tokens| - |gram| + 1)
  {
    var t := |tokens| - |gram| + 1;
    OccursRecent(tokens, gram, t);
    assert Positions(tokens[..|tokens| - t], gram) == {};
  }

  /** The generated part holds no more of `gram` than the `m` newest n-grams, once these reach to its start. */
  lemma GeneratedCountsLess(tokens: seq<int>, from: nat, gram: seq<int>, m: nat)
    requires 0 < |gram| && from + |gram| <= |tokens| && |gram| + m <= |tokens| + 1
    requires |tokens| - from - |gram| + 1 <= m
    ensures Occurs(tokens[from..], gram) <= Recent(tokens, gram, m)
  {
    var fitting := |tokens| - from - |gram| + 1;
    RecentGrows(tokens, gram, fitting, m);
    RecentOfGenerated(tokens, from, gram, fitting);
    OccursIsRecent(tokens[from..], gram);
  }

  /** A step that brings more tokens than n-grams fit into the generated part adds one that reaches into the
      prompt. */
  lemma StraddlingGramIsExtra(was: NgramDict, now: NgramDict, tokens: seq<int>, from: nat, n: nat, t: nat)
    requires n > 0 && from + t <= |tokens| && n + t <= |tokens| + 1
    requires n <= |tokens| - from && n + t > |tokens| - from + 1
    requires Extends(was, now, tokens, n, t)
    ensures !Indexes(now, tokens[from..], n)
  {
    var gram := Ending(tokens, n, t - 1);
    var context, x := gram[..n - 1], gram[n - 1];
    assert gram == context + [x];
    GeneratedCountsLess(tokens, from, gram, t - 1);
    assert Mentions(now, context, x) >= Recent(tokens, context + [x], t) == Recent(tokens, gram, t - 1) + 1;
  }

  /** The decoder's index of the generated part stays exact if and only if the step brings no more tokens
      than the n-grams that end there. */
  lemma GeneratedIndexesExactly(was: NgramDict, now: NgramDict, tokens: seq<int>, from: nat, n: nat, t: nat)
    requires 0 < n <= |tokens| - from && from + t <= |tokens| && (t == 0 || n + t <= |tokens| + 1)
    requires Indexes(was, tokens[from..][..|tokens| - from - t], n) && Extends(was, now, tokens, n, t)
    ensures Indexes(now, tokens[from..], n) <==> n + t <= |tokens| - from + 1
  {
    if n + t <= |tokens| - from + 1 {
      GeneratedIndexes(was, now, tokens, from, n, t);
    } else {
      StraddlingGramIsExtra(was, now, tokens, from, n, t);
    }
  }

  // ---- The processors ----

  class NgramIndex {
    var dict: NgramDict

    constructor ()
      ensures dict == map[]
    {
      dict := map[];
    }

    /** `GetNgrams`: builds the index once; a dictionary that already holds something is kept. */
    method GetNgrams(n: nat, tokens: seq<int>)
      requires n > 0
      modifies this
      ensures old(dict) != map[] ==> dict == old(dict)
      ensures old(dict) == map[] ==> Indexes(dict, tokens, n)
    {
      if dict != map[] {
        return;
      }
      EmptyIndexes(tokens[..if n - 1 <= |tokens| then n - 1 else |tokens|], n);
      if |tokens| < n {
        assert tokens[..if n - 1 <= |tokens| then n - 1 else |tokens|] == tokens;
        return;
      }
      for i := 0 to |tokens| - n + 1
        invariant Indexes(dict, tokens[..i + n - 1], n)
      {
        ghost var seen := tokens[..i + n];
        assert seen[..|seen| - 1] == tokens[..i + n - 1] && seen[|seen| - n..] == tokens[i..i + n];
        AddIndexes(dict, seen, n);
        dict := AddNgram(dict, tokens[i..i + n]);
      }
      assert tokens[..|tokens|] == tokens;
    }

    /** The update loop: one n-gram for each token of the last step, newest first. */
    method AddLastStep(n: nat, tokens: seq<int>, lastStepTokens: nat)
      requires n > 0 && (lastStepTokens == 0 || n + lastStepTokens <= |tokens| + 1)
      modifies this
      ensures Extends(old(dict), dict, tokens, n, lastStepTokens)
    {
      ghost var was := dict;
      ExtendsNothing(was, dict, tokens, n);
      for i := 0 to lastStepTokens
        invariant Extends(was, dict, tokens, n, i)
      {
        ExtendsNext(was, dict, tokens, n, i);
        dict := AddNgram(dict, tokens[|tokens| - n - i..|tokens| - i]);
      }
    }

    method BanRepeatTokens(n: nat, tokens: seq<int>) returns (repeatIds: seq<int>)
      requires 0 < n <= |tokens|
      ensures repeatIds == Banned(dict, LastContext(tokens, n))
    {
      var context := tokens[|tokens| - n + 1..];
      repeatIds := if context in dict then dict[context] else [];
    }

    /** `NoRepeatNgramProcessor`. The last step's n-grams must lie inside the sequence. */
    method NoRepeatNgramProcessor(n: nat, inputSize: nat, tokens: seq<int>, lastStepTokens: nat)
      returns (banned: seq<int>)
      requires n > 0 && lastStepTokens <= |tokens|
      requires n <= |tokens| && inputSize < |tokens| ==> lastStepTokens == 0 || n + lastStepTokens <= |tokens| + 1
      modifies this
      ensures n > |tokens| || inputSize > |tokens| || (inputSize == |tokens| && old(dict) != map[]) ==>
                dict == old(dict)
      ensures n <= |tokens| && inputSize < |tokens| ==> Extends(old(dict), dict, tokens, n, lastStepTokens)
      ensures banned == if n > |tokens| then [] else Banned(dict, LastContext(tokens, n))
      ensures n <= |tokens| == inputSize && old(dict) == map[] ==> Indexes(dict, tokens, n)
      ensures n <= |tokens| && inputSize < |tokens| && Indexes(old(dict), tokens[..|tokens| - lastStepTokens], n) ==>
                Indexes(dict, tokens, n)
    {
      banned := [];
      if n > |tokens| {
        return;
      }
      if inputSize == |tokens| {
        GetNgrams(n, tokens);
      } else if inputSize < |tokens| {
        ghost var was := dict;
        AddLastStep(n, tokens, lastStepTokens);
        if Indexes(was, tokens[..|tokens| - lastStepTokens], n) {
          ExtendedIndexes(was, dict, tokens, n, lastStepTokens);
        }
      }
      banned := BanRepeatTokens(n, tokens);
    }

    /** `EncoderNoRepeatNgramProcessor`: the index of the prompt is never updated. */
    method EncoderNoRepeatNgramProcessor(n: nat, inputSize: nat, tokens: seq<int>) returns (banned: seq<int>)
      requires n > 0
      modifies this
      ensures n > |tokens| || inputSize != |tokens| || old(dict) != map[] ==> dict == old(dict)
      ensures n <= |tokens| == inputSize && old(dict) == map[] ==> Indexes(dict, tokens, n)
      ensures banned == if n > |tokens| then [] else Banned(dict, LastContext(tokens, n))
    {
      banned := [];
      if n > |tokens| {
        return;
      }
      if inputSize == |tokens| {
        GetNgrams(n, tokens);
      }
      banned := BanRepeatTokens(n, tokens);
    }

    /** `DecoderNoRepeatNgramProcessor`: the index covers the generated part, from the moment it holds an
        n-gram, exactly as long as no step brings more tokens than the n-grams that end there. */
    method DecoderNoRepeatNgramProcessor(n: nat, inputSize: nat, tokens: seq<int>, lastStepTokens: nat)
      returns (banned: seq<int>)
      requires n > 0 && inputSize + lastStepTokens <= |tokens|
      requires n <= |tokens| - inputSize ==> lastStepTokens == 0 || n + lastStepTokens <= |tokens| + 1
      modifies this
      ensures n > |tokens| - inputSize ==> dict == old(dict) && banned == []
      ensures n <= |tokens| - inputSize ==> banned == Banned(dict, LastContext(tokens, n))
      ensures n <= |tokens| - inputSize ==> Extends(old(dict), dict, tokens, n, lastStepTokens)
      ensures n <= |tokens| - inputSize
              && Indexes(old(dict), tokens[inputSize..][..|tokens| - inputSize - lastStepTokens], n) ==>
                (Indexes(dict, tokens[inputSize..], n) <==> n + lastStepTokens <= |tokens| - inputSize + 1)
    {
      banned := [];
      if n > |tokens| - inputSize {
        return;
      }
      ghost var was := dict;
      AddLastStep(n, tokens, lastStepTokens);
      if Indexes(was, tokens[inputSize..][..|tokens| - inputSize - lastStepTokens], n) {
        GeneratedIndexesExactly(was, dict, tokens, inputSize, n, lastStepTokens);
      }
      banned := BanRepeatTokens(n, tokens);
    }
  }
}
