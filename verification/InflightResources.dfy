/** Per-request resource slots: free first, then allocate. */
module InflightResources {

  /** What one schedule output says about requests. */
  datatype Output = Output(finished: seq<seq<int>>, recomputed: seq<seq<int>>, live: seq<int>, running: seq<int>)

  function Members(s: seq<int>): set<int> { set id | id in s }

  /** The ids in any of the per-rank lists. */
  function Listed(lists: seq<seq<int>>): set<int>
  {
    if lists == [] then {} else Listed(lists[..|lists| - 1]) + Members(lists[|lists| - 1])
  }

  function Below(n: nat): (s: set<nat>)
    ensures |s| == n && forall x :: x in s <==> 0 <= x < n
  {
    if n == 0 then {} else Below(n - 1) + {n - 1}
  }

  lemma DropBoth(m: map<int, nat>, a: set<int>, b: set<int>)
    ensures m - a - b == m - (a + b)
  {
  }

  lemma MovedOne(done: set<int>, left: set<int>, id: int)
    requires id in left && done !! left
    ensures (done + {id}) + (left - {id}) == done + left && (done + {id}) !! (left - {id})
  {
  }

  lemma {:induction false} SubsetIsSmaller<T>(a: set<T>, b: set<T>)
    requires a <= b
    ensures |a| <= |b|
    decreases |a|
  {
    if a != {} {
      var x :| x in a;
      SubsetIsSmaller(a - {x}, b - {x});
    }
  }

  method Pick<T>(s: set<T>) returns (x: T)
    requires s != {}
    ensures x in s
  {
    x :| x in s;
  }

  /** The holders that keep their slot. */
  function Survivors(held: set<int>, out: Output, freeInactive: bool): set<int>
  {
    var kept := held - Listed(out.finished) - Listed(out.recomputed);
    if freeInactive && out.live != [] then kept * Members(out.live) else kept
  }

  /** Who holds a slot once the output has been processed. */
  function Holders(held: set<int>, out: Output, freeInactive: bool): set<int>
  {
    Survivors(held, out, freeInactive) + Members(out.running)
  }

  /** The slots left once finished and recomputed requests have given theirs back. */
  function Released(slots: map<int, nat>, out: Output): map<int, nat>
  {
    slots - Listed(out.finished) - Listed(out.recomputed)
  }

  lemma ReleasedKeys(slots: map<int, nat>, out: Output)
    ensures Released(slots, out).Keys == slots.Keys - Listed(out.finished) - Listed(out.recomputed)
    ensures forall id :: id in Released(slots, out) ==> Released(slots, out)[id] == slots[id]
  {
  }

  lemma LiveKeys(slots: map<int, nat>, live: set<int>)
    ensures (slots - (slots.Keys - live)).Keys == slots.Keys * live
    ensures forall id :: id in slots - (slots.Keys - live) ==> (slots - (slots.Keys - live))[id] == slots[id]
  {
  }

  ghost predicate Injective(slots: map<int, nat>)
  {
    forall a, b :: a in slots && b in slots && a != b ==> slots[a] != slots[b]
  }

  /** What processing an output leaves of a pool it does not exhaust. */
  ghost predicate Processed(before: map<int, nat>, out: Output, freeInactive: bool, capacity: nat, after: map<int, nat>)
  {
    && after.Keys == Holders(before.Keys, out, freeInactive)
    && (forall id :: id in Survivors(before.Keys, out, freeInactive) ==> after[id] == before[id])
    && Injective(after) && forall id :: id in after ==> after[id] < capacity
  }

  /** Every running request holds a slot. Any other holds one exactly if it held one before, has neither finished nor
      been recomputed, and, where inactive requests are cleared, is still live; it is the slot it held. */
  lemma ProcessedServes(before: map<int, nat>, out: Output, freeInactive: bool, capacity: nat,
                        after: map<int, nat>, id: int)
    requires Processed(before, out, freeInactive, capacity, after)
    ensures id in out.running ==> id in after
    ensures id !in out.running ==>
              (id in after <==> && id in before && id !in Listed(out.finished) && id !in Listed(out.recomputed)
                                && (freeInactive && out.live != [] ==> id in out.live))
    ensures id !in out.running && id in after ==> after[id] == before[id]
  {
  }

  /** The pool's states through a run of outputs. */
  ghost predicate Run(states: seq<map<int, nat>>, outs: seq<Output>, freeInactive: bool, capacity: nat)
  {
    && |states| == |outs| + 1
    && forall k {:trigger outs[k]} :: 0 <= k < |outs| ==>
         Processed(states[k], outs[k], freeInactive, capacity, states[k + 1])
  }

  /** A request keeps one slot for as long as no output drops it, and shares it with no other meanwhile. */
  lemma {:induction false} SlotIsStable(states: seq<map<int, nat>>, outs: seq<Output>, freeInactive: bool,
                                        capacity: nat, id: int, n: nat)
    requires Run(states, outs, freeInactive, capacity) && n <= |outs| && id in states[0]
    requires forall k {:trigger outs[k]} :: 0 <= k < n ==> id in Survivors(states[k].Keys, outs[k], freeInactive)
    ensures id in states[n] && states[n][id] == states[0][id]
    ensures n > 0 ==> forall other :: other in states[n] && other != id ==> states[n][other] != states[0][id]
    decreases n
  {
    if n > 0 {
      SlotIsStable(states, outs, freeInactive, capacity, id, n - 1);
      assert Processed(states[n - 1], outs[n - 1], freeInactive, capacity, states[n]);
    }
  }

  /** One pool of `capacity` slots. */
  class SlotPool {
    const capacity: nat
    var slots: map<int, nat>
    var free: set<nat>

    ghost predicate Valid()
      reads this
    {
      && |slots| + |free| == capacity && Injective(slots)
      && (forall id :: id in slots ==> slots[id] < capacity && slots[id] !in free)
      && (forall s :: s in free ==> s < capacity)
    }

    constructor (capacity: nat)
      ensures Valid() && this.capacity == capacity && slots == map[]
    {
      this.capacity := capacity;
      slots := map[];
      free := Below(capacity);
    }

    /** Takes any free slot; a request that holds one keeps it. */
    method Alloc(id: int) returns (ok: bool)
      requires Valid()
      modifies this
      ensures Valid()
      ensures ok <==> id in old(slots) || |old(slots)| < capacity
      ensures !ok ==> slots == old(slots)
      ensures ok ==> slots.Keys == old(slots).Keys + {id}
      ensures forall other :: other in old(slots) ==> other in slots && slots[other] == old(slots)[other]
    {
      if id in slots {
        return true;
      }
      if free == {} {
        return false;
      }
      var s := Pick(free);
      ghost var was := slots;
      free := free - {s};
      slots := slots[id := s];
      assert slots.Keys == was.Keys + {id};
      assert |slots| == |slots.Keys| == |was.Keys| + 1 && |was.Keys| == |was|;
      return true;
    }

    /** Gives a held slot back; a request without one is left alone. */
    method Free(id: int)
      requires Valid()
      modifies this
      ensures Valid() && slots == old(slots) - {id}
    {
      if id !in slots {
        assert slots - {id} == slots;
        return;
      }
      ghost var was := slots;
      free := free + {slots[id]};
      slots := slots - {id};
      assert slots.Keys == was.Keys - {id};
      assert |slots| == |slots.Keys| == |was.Keys| - 1 && |was.Keys| == |was|;
    }

    /** Gives a stale request's slot back, on the way from `was` to `was` without the stale ones. */
    method FreeStale(id: int, ghost was: map<int, nat>, ghost freed: set<int>)
      requires Valid() && slots == was - freed
      modifies this
      ensures Valid() && slots == was - (freed + {id})
    {
      Free(id);
      DropBoth(was, freed, {id});
    }

    /** Gives back the slots of every request that is not live. */
    method FreeInactive(live: set<int>)
      requires Valid()
      modifies this
      ensures Valid() && slots == old(slots) - (old(slots).Keys - live)
    {
      ghost var was, freed: set<int> := slots, {};
      var stale := slots.Keys - live;
      while stale != {}
        invariant Valid() && slots == was - freed && freed + stale == was.Keys - live && freed !! stale
        decreases |stale|
      {
        var id := Pick(stale);
        FreeStale(id, was, freed);
        MovedOne(freed, stale, id);
        freed := freed + {id};
        stale := stale - {id};
      }
      assert freed == was.Keys - live;
    }

    method FreeAll(ids: seq<int>)
      requires Valid()
      modifies this
      ensures Valid() && slots == old(slots) - Members(ids)
    {
      ghost var was := slots;
      for i := 0 to |ids|
        invariant Valid() && slots == was - Members(ids[..i])
      {
        Free(ids[i]);
        DropBoth(was, Members(ids[..i]), {ids[i]});
        assert Members(ids[..i + 1]) == Members(ids[..i]) + {ids[i]};
      }
      assert ids[..|ids|] == ids;
    }

    method FreeListed(lists: seq<seq<int>>)
      requires Valid()
      modifies this
      ensures Valid() && slots == old(slots) - Listed(lists)
    {
      ghost var was := slots;
      for i := 0 to |lists|
        invariant Valid() && slots == was - Listed(lists[..i])
      {
        FreeAll(lists[i]);
        DropBoth(was, Listed(lists[..i]), Members(lists[i]));
        assert lists[..i + 1][..i] == lists[..i];
      }
      assert lists[..|lists|] == lists;
    }

    /** The first pass of `ProcessScheduleOutput`, for this pool. */
    method Release(out: Output)
      requires Valid()
      modifies this
      ensures Valid() && slots == Released(old(slots), out)
    {
      FreeListed(out.finished);
      FreeListed(out.recomputed);
    }

    /** Allocates for every listed request, as long as there are slots. */
    method AllocAll(ids: seq<int>) returns (ok: bool)
      requires Valid()
      modifies this
      ensures Valid()
      ensures ok <==> |old(slots).Keys + Members(ids)| <= capacity
      ensures ok ==> slots.Keys == old(slots).Keys + Members(ids)
      ensures forall id :: id in old(slots) ==> id in slots && slots[id] == old(slots)[id]
    {
      ghost var was := slots;
      for i := 0 to |ids|
        invariant Valid() && slots.Keys == was.Keys + Members(ids[..i])
        invariant forall id :: id in was ==> slots[id] == was[id]
      {
        assert Members(ids[..i + 1]) == Members(ids[..i]) + {ids[i]};
        ghost var keys := slots.Keys;
        ok := Alloc(ids[i]);
        if !ok {
          SubsetIsSmaller(keys + {ids[i]}, was.Keys + Members(ids));
          assert |keys + {ids[i]}| == |keys| + 1;
          return;
        }
      }
      assert ids[..|ids|] == ids;
      assert |slots.Keys| <= capacity;
      ok := true;
    }

    /** Between the passes: what only waits for its finish signal is given back too. */
    method ReleaseInactive(out: Output, freeInactive: bool, ghost before: map<int, nat>)
      requires Valid() && slots == Released(before, out)
      modifies this
      ensures Valid() && slots.Keys == Survivors(before.Keys, out, freeInactive)
      ensures forall id :: id in slots ==> slots[id] == before[id]
    {
      ReleasedKeys(before, out);
      if freeInactive && out.live != [] {
        LiveKeys(slots, Members(out.live));
        FreeInactive(Members(out.live));
      }
    }

    /** `ProcessScheduleOutput`, for one resource: it runs out of slots exactly when survivors and running
        requests together outnumber them; otherwise the pool has been processed. */
    method ProcessScheduleOutput(out: Output, freeInactive: bool) returns (exhausted: bool)
      requires Valid()
      modifies this
      ensures Valid()
      ensures exhausted <==> |Holders(old(slots).Keys, out, freeInactive)| > capacity
      ensures !exhausted ==> Processed(old(slots), out, freeInactive, capacity, slots)
    {
      ghost var before := slots;
      Release(out);
      ReleaseInactive(out, freeInactive, before);
      var ok := AllocAll(out.running);
      exhausted := !ok;
    }
  }
}
