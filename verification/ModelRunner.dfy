/** The Executor's CPU repair of placeholder blocks, and the per-request state it keeps between steps. */
module ModelRunners {
  import opened Tokens
  import opened HostRings

  /** A request's fields as frozen when its step was launched (`InferRequestSerializationSnapshot`). */
  datatype Snapshot = Snapshot(forwarding: seq<int>, placeholder: Option<nat>, kv: nat, prefixLen: nat, draftNum: nat,
                               sampling: nat, kind: StepKind)

  /** The Executor's copy of a request, as one value. Of its drafts the runner reads the MTP ones only. */
  datatype ExecState = ExecState(
    id: int,
    forwarding: seq<int>,
    kv: nat,
    prefixLen: nat,
    draftNum: nat,
    sampling: nat,
    kind: StepKind,
    launchOffset: Option<nat>,
    mtpDrafts: seq<int>,
    generated: seq<int>,
    accepted: seq<int>)

  /** A repaired verify block: where its main token stands and how many drafts follow. */
  datatype Block = Block(main: nat, slots: nat)

  /** What the runner remembers between steps. */
  datatype RunnerState = RunnerState(
    ring: seq<int>,
    accepted: map<int, seq<int>>,
    lastBlock: map<int, Block>,
    nextDrafts: map<int, seq<int>>)

  const FRESH_RUNNER := RunnerState([], map[], map[], map[])

  function Lookup<T>(m: map<int, T>, id: int): Option<T>
  {
    if id in m then Some(m[id]) else None
  }

  // ---- Repair of one block ----

  function FirstPlaceholder(tokens: seq<int>, from: nat): (r: Option<nat>)
    requires from <= |tokens|
    ensures r.None? <==> forall i :: from <= i < |tokens| ==> tokens[i] != PLACEHOLDER
    ensures r.Some? ==> from <= r.value < |tokens| && tokens[r.value] == PLACEHOLDER
    ensures r.Some? ==> forall i :: from <= i < r.value ==> tokens[i] != PLACEHOLDER
    decreases |tokens| - from
  {
    if from == |tokens| then None
    else if tokens[from] == PLACEHOLDER then Some(from)
    else FirstPlaceholder(tokens, from + 1)
  }

  /** `ResolveLaunchPlaceholderOffset`. */
  function ResolveOffset(r: ExecState, snap: Option<Snapshot>): Option<nat>
  {
    if snap.Some? && snap.value.placeholder.Some? then snap.value.placeholder
    else if r.launchOffset.Some? then r.launchOffset
    else FirstPlaceholder(r.forwarding, 0)
  }

  /** The accepted drafts the repair uses: the ring's count, cut to the values at hand. */
  function UsableAccepted(count: int, values: Option<seq<int>>): (r: seq<int>)
    ensures count <= 0 || values.None? ==> r == []
    ensures values.Some? ==> r <= values.value
    ensures values.Some? && count > 0 ==> |r| == Min(count, |values.value|)
  {
    if values.None? then [] else values.value[..Min(if count > 0 then count else 0, |values.value|)]
  }

  /** The block the last step verified, narrowed when it does not end where the reserved block starts. */
  function PreviousBlock(last: Option<Block>, kv: nat, phOff: nat): Block
  {
    if last.None? then Block(kv, 0)
    else if last.value.slots == 0 || phOff == last.value.main + 1 + last.value.slots then last.value
    else if phOff > last.value.main + 1 then
      Block(last.value.main, Min(last.value.slots, phOff - last.value.main - 1))
    else Block(Min(last.value.main, kv), 0)
  }

  /** Accepted drafts go over the previous block's slots and its rejected ones are erased; with no
      previous block they are inserted before the reserved one. */
  function KeepAccepted(tokens: seq<int>, phOff: nat, prev: Block, accepted: seq<int>): (r: seq<int>)
    requires phOff <= |tokens|
    requires prev.slots > 0 ==> prev.main + 1 + |accepted| <= phOff
    ensures |r| == MainPosition(phOff, prev, accepted) + |tokens| - phOff
  {
    if prev.slots > 0 then
      Erase(Overwrite(tokens, prev.main + 1, accepted), prev.main + 1 + |accepted|, phOff)
    else tokens[..phOff] + accepted + tokens[phOff..]
  }

  function MainPosition(phOff: nat, prev: Block, accepted: seq<int>): nat
  {
    if prev.slots > 0 then prev.main + 1 + |accepted| else phOff + |accepted|
  }

  /** Bonus token and drafts over the reserved block at `main`; slots without a draft are erased. */
  function FillSlots(tokens: seq<int>, main: nat, bonus: int, drafts: seq<int>, slots: nat): seq<int>
    requires main + slots < |tokens|
  {
    var fill := Min(slots, |drafts|);
    Erase(Overwrite(tokens, main, [bonus] + drafts[..fill]), main + 1 + fill, main + 1 + slots)
  }

  /** Can the repair run on these arguments? */
  predicate Repairable(r: ExecState, entry: Option<Entry>, phOff: Option<nat>, slots: nat)
  {
    && entry.Some? && entry.value.token != PLACEHOLDER
    && phOff.Some? && phOff.value + slots < |r.forwarding|
  }

  /** The accepted drafts fit between the previous block's main token and the reserved block. */
  predicate AcceptedFits(prev: Block, phOff: nat, accepted: seq<int>)
  {
    prev.slots > 0 ==> prev.main + 1 + |accepted| <= phOff
  }

  /** `RepairMtpSerialBlock` on repairable arguments. */
  function Repair(r: ExecState, bonus: int, accepted: seq<int>, phOff: nat, slots: nat, prev: Block,
                  drafts: seq<int>): (r': ExecState)
    requires phOff + slots < |r.forwarding| && AcceptedFits(prev, phOff, accepted)
  {
    var main := MainPosition(phOff, prev, accepted);
    var fill := Min(slots, |drafts|);
    r.(forwarding := FillSlots(KeepAccepted(r.forwarding, phOff, prev, accepted), main, bonus, drafts, slots),
       kv := main, prefixLen := main, draftNum := fill, sampling := 1 + fill)
  }

  function KeptUpTo(prev: Block, phOff: nat): nat
  {
    if prev.slots > 0 then prev.main + 1 else phOff
  }

  lemma KeepIsSplice(tokens: seq<int>, phOff: nat, prev: Block, accepted: seq<int>)
    requires phOff <= |tokens| && AcceptedFits(prev, phOff, accepted)
    ensures MainPosition(phOff, prev, accepted) == KeptUpTo(prev, phOff) + |accepted|
    ensures KeepAccepted(tokens, phOff, prev, accepted) ==
            tokens[..KeptUpTo(prev, phOff)] + accepted + tokens[phOff..]
  {
    if prev.slots > 0 {
      OverwriteErase(tokens, prev.main + 1, phOff, accepted);
    }
  }

  lemma FillIsSplice(head: seq<int>, tail: seq<int>, bonus: int, drafts: seq<int>, slots: nat)
    requires slots < |tail|
    ensures FillSlots(head + tail, |head|, bonus, drafts, slots) ==
            head + ([bonus] + drafts[..Min(slots, |drafts|)]) + tail[1 + slots..]
  {
    OverwriteErase(head + tail, |head|, |head| + 1 + slots, [bonus] + drafts[..Min(slots, |drafts|)]);
    assert (head + tail)[|head| + 1 + slots..] == tail[1 + slots..];
  }

  /** What a repair makes of the sequence, whatever its arguments: the part up to the previous block's main token, or
      else up to the reserved block, then the accepted drafts, the bonus token, the drafts that fit, and whatever
      stood behind the reserved block. */
  lemma RepairIsSplice(r: ExecState, bonus: int, accepted: seq<int>, phOff: nat, slots: nat, prev: Block,
                       drafts: seq<int>)
    requires phOff + slots < |r.forwarding| && AcceptedFits(prev, phOff, accepted)
    ensures Repair(r, bonus, accepted, phOff, slots, prev, drafts).forwarding ==
            r.forwarding[..KeptUpTo(prev, phOff)] + accepted + ([bonus] + drafts[..Min(slots, |drafts|)])
            + r.forwarding[phOff + 1 + slots..]
  {
    KeepIsSplice(r.forwarding, phOff, prev, accepted);
    FillIsSplice(r.forwarding[..KeptUpTo(prev, phOff)] + accepted, r.forwarding[phOff..], bonus, drafts, slots);
    assert r.forwarding[phOff..][1 + slots..] == r.forwarding[phOff + 1 + slots..];
  }

  function Restore(r: ExecState, snap: Option<Snapshot>): ExecState
  {
    if snap.Some? && snap.value.placeholder.Some? then
      r.(forwarding := snap.value.forwarding, kv := snap.value.kv, sampling := snap.value.sampling,
         draftNum := snap.value.draftNum)
    else r
  }

  // ---- One request of a batch ----

  /** The arguments `ApplyCpuBuildAheadRepairFromRing` gathers for one request. */
  function PrevFor(st: RunnerState, r: ExecState, phOff: nat): Block
  {
    PreviousBlock(Lookup(st.lastBlock, r.id), r.kv, phOff)
  }

  function AcceptedFor(st: RunnerState, r: ExecState): seq<int>
  {
    var entry := Find(Entries(st.ring), r.id);
    if entry.None? then [] else UsableAccepted(entry.value.accepted, Lookup(st.accepted, r.id))
  }

  function DraftsFor(st: RunnerState, r: ExecState): seq<int>
  {
    if r.id in st.nextDrafts then st.nextDrafts[r.id] else r.mtpDrafts
  }

  predicate Repairs(st: RunnerState, r: ExecState, snap: Option<Snapshot>)
  {
    var r0 := Restore(r, snap);
    Repairable(r0, Find(Entries(st.ring), r.id), ResolveOffset(r0, snap), r0.draftNum)
  }

  /** Nothing the repair writes falls outside the sequence. */
  predicate RepairSafe(st: RunnerState, r: ExecState, snap: Option<Snapshot>)
  {
    Repairs(st, r, snap) ==>
      var r0 := Restore(r, snap);
      var phOff := ResolveOffset(r0, snap).value;
      AcceptedFits(PrevFor(st, r0, phOff), phOff, AcceptedFor(st, r0))
  }

  function RepairOne(st: RunnerState, r: ExecState, snap: Option<Snapshot>): (ExecState, RunnerState)
    requires RepairSafe(st, r, snap)
  {
    var r0 := Restore(r, snap);
    if !Repairs(st, r, snap) then (r0, st)
    else
      var phOff := ResolveOffset(r0, snap).value;
      var r1 := Repair(r0, Find(Entries(st.ring), r.id).value.token, AcceptedFor(st, r0), phOff, r0.draftNum,
                       PrevFor(st, r0, phOff), DraftsFor(st, r0));
      (r1, st.(lastBlock := st.lastBlock[r.id := Block(r1.kv, r1.draftNum)], nextDrafts := st.nextDrafts - {r.id}))
  }

  /** Where no drafts were frozen for a request, its own stand in for them. */
  lemma OwnDraftsStandIn(st: RunnerState, r: ExecState, snap: Option<Snapshot>)
    requires r.id !in st.nextDrafts && RepairSafe(st, r, snap)
    ensures var frozen := Freeze(st, r.id, r.mtpDrafts);
            RepairSafe(frozen, r, snap) && RepairOne(frozen, r, snap).0 == RepairOne(st, r, snap).0
  {
    var frozen, r0 := Freeze(st, r.id, r.mtpDrafts), Restore(r, snap);
    assert DraftsFor(frozen, r0) == DraftsFor(st, r0) && AcceptedFor(frozen, r0) == AcceptedFor(st, r0);
  }

  // ---- The whole batch ----

  predicate RingUsable(ring: seq<int>)
  {
    ring != [] && ring[0] != 0
  }

  ghost predicate DistinctIds(rs: seq<ExecState>)
  {
    forall i, j :: 0 <= i < j < |rs| ==> rs[i].id != rs[j].id
  }

  /** Everything a repair of request `id` reads. */
  datatype View = View(ring: seq<int>, accepted: Option<seq<int>>, last: Option<Block>, drafts: Option<seq<int>>)

  function ViewOf(st: RunnerState, id: int): View
  {
    View(st.ring, Lookup(st.accepted, id), Lookup(st.lastBlock, id), Lookup(st.nextDrafts, id))
  }

  /** A repair depends on nothing but its request's view. */
  lemma RepairFrame(a: RunnerState, b: RunnerState, r: ExecState, snap: Option<Snapshot>)
    requires ViewOf(a, r.id) == ViewOf(b, r.id) && RepairSafe(a, r, snap)
    ensures RepairSafe(b, r, snap) && RepairOne(a, r, snap).0 == RepairOne(b, r, snap).0
    ensures ViewOf(RepairOne(a, r, snap).1, r.id) == ViewOf(RepairOne(b, r, snap).1, r.id)
  {
    var r0 := Restore(r, snap);
    assert a.ring == b.ring && Lookup(a.lastBlock, r.id) == Lookup(b.lastBlock, r.id);
    assert AcceptedFor(a, r0) == AcceptedFor(b, r0);
    assert DraftsFor(a, r0) == DraftsFor(b, r0) by {
      assert Lookup(a.nextDrafts, r.id) == Lookup(b.nextDrafts, r.id);
    }
  }

  /** `r'` and `now` are what repairing `r` alone, from `st`, leaves of the request and of its entries. */
  ghost predicate RepairedAlone(st: RunnerState, r: ExecState, snap: Option<Snapshot>, now: RunnerState, r': ExecState)
  {
    && RepairSafe(st, r, snap)
    && r' == RepairOne(st, r, snap).0
    && ViewOf(now, r.id) == ViewOf(RepairOne(st, r, snap).1, r.id)
  }

  /** What a repair leaves: the ring's token, which is never the placeholder, at the end of the cached prefix; behind
      it the request's drafts, as many as it will verify and sample behind; the block on record where it stands; and
      the frozen drafts used up. */
  lemma RepairLeavesBlock(st: RunnerState, r: ExecState, snap: Option<Snapshot>)
    requires RepairSafe(st, r, snap) && Repairs(st, r, snap)
    ensures var (r', st') := RepairOne(st, r, snap);
            var drafts := DraftsFor(st, Restore(r, snap));
            && r'.kv == r'.prefixLen && r'.sampling == 1 + r'.draftNum && r'.kind == r.kind
            && r'.kv + 1 + r'.draftNum <= |r'.forwarding| && r'.draftNum <= |drafts|
            && Find(Entries(st.ring), r.id).Some? && r'.forwarding[r'.kv] == Find(Entries(st.ring), r.id).value.token
            && r'.forwarding[r'.kv] != PLACEHOLDER
            && r'.forwarding[r'.kv + 1..r'.kv + 1 + r'.draftNum] == drafts[..r'.draftNum]
            && Lookup(st'.lastBlock, r.id) == Some(Block(r'.kv, r'.draftNum)) && r.id !in st'.nextDrafts
  {
    var r0 := Restore(r, snap);
    var phOff := ResolveOffset(r0, snap).value;
    var prev, accepted, drafts := PrevFor(st, r0, phOff), AcceptedFor(st, r0), DraftsFor(st, r0);
    FilledSlots(KeepAccepted(r0.forwarding, phOff, prev, accepted), MainPosition(phOff, prev, accepted),
                Find(Entries(st.ring), r.id).value.token, drafts, r0.draftNum);
  }

  lemma FilledSlots(tokens: seq<int>, main: nat, bonus: int, drafts: seq<int>, slots: nat)
    requires main + slots < |tokens|
    ensures var fill, filled := Min(slots, |drafts|), FillSlots(tokens, main, bonus, drafts, slots);
            && main + 1 + fill <= |filled| && filled[main] == bonus
            && filled[main + 1..main + 1 + fill] == drafts[..fill]
  {
  }

  /** A repair inside a batch does what it would have done first, and leaves every other request alone. */
  lemma RepairStep(st: RunnerState, now: RunnerState, r: ExecState, snap: Option<Snapshot>)
    requires ViewOf(st, r.id) == ViewOf(now, r.id) && RepairSafe(st, r, snap)
    ensures RepairSafe(now, r, snap)
    ensures RepairedAlone(st, r, snap, RepairOne(now, r, snap).1, RepairOne(now, r, snap).0)
    ensures forall id :: id != r.id ==> ViewOf(now, id) == ViewOf(RepairOne(now, r, snap).1, id)
  {
    RepairFrame(st, now, r, snap);
  }

  /** The first `i` requests of the batch `rs` have been repaired, each as if it were alone: `now` and `rs'` are
      what is left of the runner and of the batch. */
  ghost predicate BatchRepaired(was: RunnerState, rs: seq<ExecState>, snaps: map<int, Snapshot>, i: nat,
                                now: RunnerState, rs': seq<ExecState>)
  {
    && i <= |rs| == |rs'|
    && (forall j {:trigger rs'[j]} :: 0 <= j < i ==> RepairedAlone(was, rs[j], Lookup(snaps, rs[j].id), now, rs'[j]))
    && (forall j {:trigger rs'[j]} :: i <= j < |rs| ==> rs'[j] == rs[j])
    && (forall id {:trigger ViewOf(now, id)} :: (forall j :: 0 <= j < i ==> rs[j].id != id) ==>
          ViewOf(now, id) == ViewOf(was, id))
  }

  /** Repairing one more request of the batch. */
  lemma BatchRepairedNext(was: RunnerState, rs: seq<ExecState>, snaps: map<int, Snapshot>, i: nat,
                          before: RunnerState, rs0: seq<ExecState>, now: RunnerState, rs': seq<ExecState>)
    requires BatchRepaired(was, rs, snaps, i, before, rs0) && DistinctIds(rs) && i < |rs| == |rs'|
    requires RepairedAlone(was, rs[i], Lookup(snaps, rs[i].id), now, rs'[i])
    requires forall j :: 0 <= j < |rs| && j != i ==> rs'[j] == rs0[j]
    requires forall id :: id != rs[i].id ==> ViewOf(now, id) == ViewOf(before, id)
    ensures BatchRepaired(was, rs, snaps, i + 1, now, rs')
  {
    forall j {:trigger rs'[j]} | 0 <= j < i + 1
      ensures RepairedAlone(was, rs[j], Lookup(snaps, rs[j].id), now, rs'[j])
    {
      if j < i {
        assert rs'[j] == rs0[j];
        assert ViewOf(now, rs[j].id) == ViewOf(before, rs[j].id);
      }
    }
    forall id {:trigger ViewOf(now, id)} | forall j :: 0 <= j < i + 1 ==> rs[j].id != id
      ensures ViewOf(now, id) == ViewOf(was, id)
    {
      assert ViewOf(now, id) == ViewOf(before, id);
    }
  }

  // ---- Writing the ring after a step, and forgetting requests ----

  function EntryOf(r: ExecState): Entry
    requires r.generated != []
  {
    Entry(r.id, r.generated[0], |r.accepted|, r.draftNum)
  }

  /** The requests of a batch that produced a token, in order. */
  function Producers(rs: seq<ExecState>): (ps: seq<ExecState>)
    ensures forall p :: p in ps <==> p in rs && p.generated != []
  {
    if rs == [] then []
    else
      var n := |rs| - 1;
      assert rs == rs[..n] + [rs[n]];
      Producers(rs[..n]) + (if rs[n].generated != [] then [rs[n]] else [])
  }

  lemma ProducersNext(rs: seq<ExecState>, i: nat)
    requires i < |rs|
    ensures Producers(rs[..i + 1]) == Producers(rs[..i]) + (if rs[i].generated != [] then [rs[i]] else [])
  {
    assert rs[..i + 1][..i] == rs[..i];
  }

  function EntriesOf(ps: seq<ExecState>): (es: seq<Entry>)
    requires forall p :: p in ps ==> p.generated != []
    ensures |es| == |ps| && forall i :: 0 <= i < |ps| ==> es[i] == EntryOf(ps[i])
  {
    seq(|ps|, i requires 0 <= i < |ps| => assert ps[i] in ps; EntryOf(ps[i]))
  }

  function AcceptedOf(ps: seq<ExecState>): map<int, seq<int>>
  {
    if ps == [] then map[] else AcceptedOf(ps[..|ps| - 1])[ps[|ps| - 1].id := ps[|ps| - 1].accepted]
  }

  /** `WriteMtpSerialHostRingAfterGenerationState`. */
  function WriteStep(st: RunnerState, rs: seq<ExecState>): RunnerState
  {
    var ps := Producers(rs);
    if ps == [] then st
    else
      var es := EntriesOf(ps);
      st.(ring := Cells(Without(Entries(st.ring), Ids(es)) + es), accepted := st.accepted + AcceptedOf(ps))
  }

  /** MTP drafts are frozen once the step's MTP forward has run. */
  function Freeze(st: RunnerState, id: int, drafts: seq<int>): RunnerState
  {
    st.(nextDrafts := st.nextDrafts[id := drafts])
  }

  /** `ClearMtpSerialStateForLifecycle` for the finished and recomputed ids. */
  function Forget(st: RunnerState, ids: set<int>): RunnerState
  {
    var kept := Without(Entries(st.ring), ids);
    RunnerState(if ids == {} || st.ring == [] then st.ring else if kept == [] then [] else Cells(kept),
                st.accepted - ids, st.lastBlock - ids, st.nextDrafts - ids)
  }

  // ---- The ring and the accepted-token map agree ----

  ghost predicate MapsAgree(ring: map<int, Entry>, accepted: map<int, seq<int>>)
  {
    accepted.Keys == ring.Keys && forall id :: id in accepted ==> ring[id].accepted == |accepted[id]|
  }

  ghost predicate Agrees(st: RunnerState)
  {
    WellFormed(st.ring) && MapsAgree(Contents(Entries(st.ring)), st.accepted)
  }

  lemma OverrideAgrees(m: map<int, Entry>, a: map<int, seq<int>>, m': map<int, Entry>, a': map<int, seq<int>>)
    requires MapsAgree(m, a) && MapsAgree(m', a')
    ensures MapsAgree(m + m', a + a')
  {
  }

  lemma {:induction false} AcceptedOfAt(ps: seq<ExecState>, i: nat)
    requires DistinctIds(ps) && i < |ps|
    ensures ps[i].id in AcceptedOf(ps) && AcceptedOf(ps)[ps[i].id] == ps[i].accepted
    decreases |ps|
  {
    var n := |ps| - 1;
    if i < n {
      AcceptedOfAt(ps[..n], i);
    }
  }

  lemma {:induction false} AcceptedOfKeys(ps: seq<ExecState>)
    ensures AcceptedOf(ps).Keys == set p | p in ps :: p.id
    decreases |ps|
  {
    if ps != [] {
      var n := |ps| - 1;
      AcceptedOfKeys(ps[..n]);
      assert ps == ps[..n] + [ps[n]];
    }
  }

  lemma {:induction false} ProducersDistinct(rs: seq<ExecState>)
    requires DistinctIds(rs)
    ensures DistinctIds(Producers(rs))
    decreases |rs|
  {
    if rs != [] {
      var n := |rs| - 1;
      ProducersDistinct(rs[..n]);
      forall p | p in Producers(rs[..n]) ensures p.id != rs[n].id {
        assert p in rs[..n];
      }
    }
  }

  lemma EntriesOfUnique(ps: seq<ExecState>)
    requires DistinctIds(ps) && forall p :: p in ps ==> p.generated != []
    ensures UniqueIds(EntriesOf(ps)) && Ids(EntriesOf(ps)) == set p | p in ps :: p.id
  {
    var es := EntriesOf(ps);
    forall p | p in ps ensures p.id in Ids(es) {
      var i :| 0 <= i < |ps| && ps[i] == p;
      assert es[i] in es;
    }
    forall id | id in Ids(es) ensures exists p :: p in ps && p.id == id {
      var e :| e in es && e.id == id;
      var i :| 0 <= i < |es| && es[i] == e;
      assert ps[i] in ps && ps[i].id == id;
    }
  }

  /** Writing a step overrides the map at the batch's producers and nowhere else. */
  lemma WriteStepRefines(st: RunnerState, rs: seq<ExecState>)
    requires WellFormed(st.ring) && DistinctIds(rs)
    ensures var ring' := WriteStep(st, rs).ring;
            && WellFormed(ring')
            && Contents(Entries(ring')) == Contents(Entries(st.ring)) + Contents(EntriesOf(Producers(rs)))
  {
    var ps := Producers(rs);
    if ps != [] {
      ProducersDistinct(rs);
      EntriesOfUnique(ps);
      var es := EntriesOf(ps);
      WriteRefines(Entries(st.ring), es);
      CellsRoundTrip(Without(Entries(st.ring), Ids(es)) + es);
    }
  }

  lemma BatchAgrees(ps: seq<ExecState>)
    requires DistinctIds(ps) && forall p :: p in ps ==> p.generated != []
    ensures MapsAgree(Contents(EntriesOf(ps)), AcceptedOf(ps))
  {
    AcceptedOfKeys(ps);
    EntriesOfUnique(ps);
    forall id | id in AcceptedOf(ps) ensures Contents(EntriesOf(ps))[id].accepted == |AcceptedOf(ps)[id]| {
      var p :| p in ps && p.id == id;
      var i :| 0 <= i < |ps| && ps[i] == p;
      AcceptedOfAt(ps, i);
      ContentsAt(EntriesOf(ps), i);
    }
  }

  lemma WriteStepAgrees(st: RunnerState, rs: seq<ExecState>)
    requires Agrees(st) && DistinctIds(rs)
    ensures Agrees(WriteStep(st, rs))
  {
    var ps := Producers(rs);
    WriteStepRefines(st, rs);
    ProducersDistinct(rs);
    BatchAgrees(ps);
    OverrideAgrees(Contents(Entries(st.ring)), st.accepted, Contents(EntriesOf(ps)), AcceptedOf(ps));
  }

  /** Forgetting requests is domain subtraction, on the ring's map and on every other. */
  lemma ForgetRefines(st: RunnerState, ids: set<int>)
    requires WellFormed(st.ring)
    ensures var ring' := Forget(st, ids).ring;
            && WellFormed(ring')
            && Contents(Entries(ring')) == Contents(Entries(st.ring)) - ids
  {
    if ids == {} {
      assert Contents(Entries(st.ring)) - ids == Contents(Entries(st.ring));
    } else {
      ClearRefines(Entries(st.ring), ids);
      if st.ring != [] && Without(Entries(st.ring), ids) != [] {
        CellsRoundTrip(Without(Entries(st.ring), ids));
      }
    }
  }

  lemma {:induction false} WithoutAll(es: seq<Entry>, ids: set<int>)
    requires forall e :: e in es ==> e.id in ids
    ensures Without(es, ids) == []
    decreases |es|
  {
    if es != [] {
      WithoutAll(es[1..], ids);
    }
  }

  /** A ring of which nothing is left is emptied. */
  lemma ForgetEmptiesRing(st: RunnerState, ids: set<int>)
    requires st.ring != [] && ids != {} && Ids(Entries(st.ring)) <= ids
    ensures Forget(st, ids).ring == []
  {
    WithoutAll(Entries(st.ring), ids);
  }

  lemma ForgetAgrees(st: RunnerState, ids: set<int>)
    requires Agrees(st)
    ensures Agrees(Forget(st, ids))
  {
    ForgetRefines(st, ids);
  }

  lemma RepairAgrees(st: RunnerState, r: ExecState, snap: Option<Snapshot>)
    requires Agrees(st) && RepairSafe(st, r, snap)
    ensures Agrees(RepairOne(st, r, snap).1)
  {
  }

  /** What happens to the runner's state, in any order. */
  datatype Change =
    | WriteBatch(batch: seq<ExecState>)
    | ForgetIds(ids: set<int>)
    | RepairRequest(req: ExecState, snap: Option<Snapshot>)
    | FreezeDrafts(id: int, drafts: seq<int>)

  ghost predicate Possible(st: RunnerState, c: Change)
  {
    match c
    case WriteBatch(batch) => DistinctIds(batch)
    case RepairRequest(req, snap) => RepairSafe(st, req, snap)
    case _ => true
  }

  function Changed(st: RunnerState, c: Change): RunnerState
    requires c.RepairRequest? ==> RepairSafe(st, c.req, c.snap)
  {
    match c
    case WriteBatch(batch) => WriteStep(st, batch)
    case ForgetIds(ids) => Forget(st, ids)
    case RepairRequest(req, snap) => RepairOne(st, req, snap).1
    case FreezeDrafts(id, drafts) => Freeze(st, id, drafts)
  }

  ghost predicate Reaches(st: RunnerState, cs: seq<Change>, t: RunnerState)
    decreases |cs|
  {
    if cs == [] then st == t else Possible(st, cs[0]) && Reaches(Changed(st, cs[0]), cs[1..], t)
  }

  lemma ChangeAgrees(st: RunnerState, c: Change)
    requires Agrees(st) && Possible(st, c)
    ensures Agrees(Changed(st, c))
  {
    match c
    case WriteBatch(batch) => WriteStepAgrees(st, batch);
    case ForgetIds(ids) => ForgetAgrees(st, ids);
    case RepairRequest(req, snap) => RepairAgrees(st, req, snap);
    case FreezeDrafts(_, _) =>
  }

  lemma {:induction false} AgreesAlong(st: RunnerState, cs: seq<Change>, t: RunnerState)
    requires Agrees(st) && Reaches(st, cs, t)
    ensures Agrees(t)
    decreases |cs|
  {
    if cs != [] {
      ChangeAgrees(st, cs[0]);
      AgreesAlong(Changed(st, cs[0]), cs[1..], t);
    }
  }

  /** In every run of a fresh runner the ring's ids are unique, and its ids and accepted counts are those of
      the separate accepted-token map. */
  lemma AgreesAlways(cs: seq<Change>, t: RunnerState)
    requires Reaches(FRESH_RUNNER, cs, t)
    ensures Agrees(t)
  {
    AgreesAlong(FRESH_RUNNER, cs, t);
  }

  // ---- The objects the Executor updates in place ----

  class ExecutorInferRequest {
    const reqId: int
    var forwardingTokens: seq<int>
    var kvCachedTokenNum: nat
    var prefixCacheLen: nat
    var forwardingTokensDraftNum: nat
    var samplingTokenNum: nat
    var forwardStepKind: StepKind
    var launchPlaceholderOffset: Option<nat>
    var mtpDraftTokens: seq<int>
    var generatedTokens: seq<int>
    var acceptedTokens: seq<int>

    constructor (id: int)
      ensures reqId == id
    {
      reqId := id;
      forwardingTokens, mtpDraftTokens, generatedTokens, acceptedTokens := [], [], [], [];
      kvCachedTokenNum, prefixCacheLen, forwardingTokensDraftNum, samplingTokenNum := 0, 0, 0, 1;
      forwardStepKind, launchPlaceholderOffset := PrefillStep, None;
    }

    function State(): ExecState
      reads this
    {
      ExecState(reqId, forwardingTokens, kvCachedTokenNum, prefixCacheLen, forwardingTokensDraftNum, samplingTokenNum,
                forwardStepKind, launchPlaceholderOffset, mtpDraftTokens, generatedTokens, acceptedTokens)
    }
  }

  ghost function States(reqs: seq<ExecutorInferRequest>): (rs: seq<ExecState>)
    reads reqs
    ensures |rs| == |reqs| && forall i :: 0 <= i < |reqs| ==> rs[i] == reqs[i].State()
  {
    if reqs == [] then [] else [reqs[0].State()] + States(reqs[1..])
  }

  /** The batch holds exactly these values. */
  ghost predicate Hold(reqs: seq<ExecutorInferRequest>, states: seq<ExecState>)
    reads reqs
  {
    |states| == |reqs| && forall j {:trigger states[j]} :: 0 <= j < |reqs| ==> states[j] == reqs[j].State()
  }

  class ModelRunner {
    const hostRing: HostRing
    var acceptedTokens: map<int, seq<int>>
    var lastBlock: map<int, Block>
    var nextMtpDrafts: map<int, seq<int>>

    constructor ()
      ensures fresh(hostRing) && State() == FRESH_RUNNER
    {
      hostRing := new HostRing();
      acceptedTokens, lastBlock, nextMtpDrafts := map[], map[], map[];
    }

    ghost function State(): RunnerState
      reads this, hostRing
    {
      RunnerState(hostRing.cells, acceptedTokens, lastBlock, nextMtpDrafts)
    }

    /** The first half of a repair: commit the previous block's accepted drafts, drop its rejected ones. */
    static method ShapePrefix(req: ExecutorInferRequest, phOff: nat, prev: Block, accepted: seq<int>)
      returns (mainPos: nat)
      requires phOff <= |req.forwardingTokens| && AcceptedFits(prev, phOff, accepted)
      modifies req`forwardingTokens
      ensures req.forwardingTokens == KeepAccepted(old(req.forwardingTokens), phOff, prev, accepted)
      ensures mainPos == MainPosition(phOff, prev, accepted)
    {
      if prev.slots > 0 {
        req.forwardingTokens := WriteOver(req.forwardingTokens, prev.main + 1, accepted);
        mainPos := prev.main + 1 + |accepted|;
        if phOff > mainPos {
          req.forwardingTokens := req.forwardingTokens[..mainPos] + req.forwardingTokens[phOff..];
        }
      } else {
        req.forwardingTokens := req.forwardingTokens[..phOff] + accepted + req.forwardingTokens[phOff..];
        mainPos := phOff + |accepted|;
      }
    }

    /** The second half: bonus token and drafts over the reserved block, unfilled slots erased. */
    static method FillReserved(req: ExecutorInferRequest, mainPos: nat, bonus: int, drafts: seq<int>, slots: nat)
      returns (fill: nat)
      requires mainPos + slots < |req.forwardingTokens|
      modifies req`forwardingTokens
      ensures fill == Min(slots, |drafts|)
      ensures req.forwardingTokens == FillSlots(old(req.forwardingTokens), mainPos, bonus, drafts, slots)
    {
      ghost var was := req.forwardingTokens;
      req.forwardingTokens := req.forwardingTokens[mainPos := bonus];
      fill := 0;
      for i := 0 to |drafts|
        invariant fill == Min(i, slots)
        invariant req.forwardingTokens == Overwrite(was, mainPos, [bonus] + drafts[..fill])
      {
        if fill >= slots {
          break;
        }
        req.forwardingTokens := req.forwardingTokens[mainPos + 1 + fill := drafts[i]];
        fill := fill + 1;
      }
      if fill < slots {
        req.forwardingTokens :=
          req.forwardingTokens[..mainPos + 1 + fill] + req.forwardingTokens[mainPos + 1 + slots..];
      }
    }

    /** `RepairMtpSerialBlock`. */
    static method RepairMtpSerialBlock(req: ExecutorInferRequest, prevRing: seq<int>, acceptedMap: map<int, seq<int>>,
                                       phOff: Option<nat>, slots: nat, prev: Block, frozen: Option<seq<int>>)
      returns (repaired: bool)
      requires var entry := Find(Entries(prevRing), req.reqId);
               Repairable(req.State(), entry, phOff, slots) ==>
                 AcceptedFits(prev, phOff.value, UsableAccepted(entry.value.accepted, Lookup(acceptedMap, req.reqId)))
      modifies req
      ensures repaired == Repairable(old(req.State()), Find(Entries(prevRing), req.reqId), phOff, slots)
      ensures var entry := Find(Entries(prevRing), req.reqId);
              req.State() ==
                if repaired then
                  Repair(old(req.State()), entry.value.token,
                         UsableAccepted(entry.value.accepted, Lookup(acceptedMap, req.reqId)), phOff.value, slots, prev,
                         if frozen.Some? then frozen.value else old(req.mtpDraftTokens))
                else old(req.State())
    {
      var entry := LookupBuildAheadHostRingEntry(prevRing, req.reqId);
      if entry.None? || entry.value.token == PLACEHOLDER {
        return false;
      }
      if phOff.None? || phOff.value + slots >= |req.forwardingTokens| {
        return false;
      }
      var accepted := UsableAccepted(entry.value.accepted, Lookup(acceptedMap, req.reqId));
      var mainPos := ShapePrefix(req, phOff.value, prev, accepted);
      var drafts := if frozen.Some? then frozen.value else req.mtpDraftTokens;
      var fill := FillReserved(req, mainPos, entry.value.token, drafts, slots);
      req.kvCachedTokenNum := mainPos;
      req.prefixCacheLen := mainPos;
      req.forwardingTokensDraftNum := fill;
      req.samplingTokenNum := 1 + fill;
      return true;
    }

    /** The loop body of `ApplyCpuBuildAheadRepairFromRing`. */
    method RepairRequest(req: ExecutorInferRequest, snap: Option<Snapshot>)
      requires RepairSafe(State(), req.State(), snap)
      modifies this`lastBlock, this`nextMtpDrafts, req
      ensures (req.State(), State()) == RepairOne(old(State()), old(req.State()), snap)
    {
      if snap.Some? && snap.value.placeholder.Some? {
        req.forwardingTokens := snap.value.forwarding;
        req.kvCachedTokenNum := snap.value.kv;
        req.samplingTokenNum := snap.value.sampling;
        req.forwardingTokensDraftNum := snap.value.draftNum;
      }
      var phOff := ResolveOffset(req.State(), snap);
      if phOff.None? {
        return;
      }
      var entry := LookupBuildAheadHostRingEntry(hostRing.cells, req.reqId);
      if entry.None? {
        return;
      }
      var prev := PreviousBlock(Lookup(lastBlock, req.reqId), req.kvCachedTokenNum, phOff.value);
      var repaired := RepairMtpSerialBlock(req, hostRing.cells, acceptedTokens, phOff, req.forwardingTokensDraftNum,
                                           prev, Lookup(nextMtpDrafts, req.reqId));
      if repaired {
        lastBlock := lastBlock[req.reqId := Block(req.kvCachedTokenNum, req.forwardingTokensDraftNum)];
        nextMtpDrafts := nextMtpDrafts - {req.reqId};
      }
    }

    /** The loop body, relative to the state `was` the batch started from. */
    method RepairInBatch(req: ExecutorInferRequest, snap: Option<Snapshot>, ghost was: RunnerState)
      requires ViewOf(was, req.reqId) == ViewOf(State(), req.reqId) && RepairSafe(was, req.State(), snap)
      modifies this`lastBlock, this`nextMtpDrafts, req
      ensures RepairedAlone(was, old(req.State()), snap, State(), req.State())
      ensures forall id :: id != req.reqId ==> ViewOf(State(), id) == old(ViewOf(State(), id))
    {
      RepairStep(was, State(), req.State(), snap);
      RepairRequest(req, snap);
    }

    /** The batch loop's body, when its first `i` requests have been repaired and the batch holds `states`. */
    method RepairNext(reqs: seq<ExecutorInferRequest>, snaps: map<int, Snapshot>, i: nat,
                      ghost was: RunnerState, ghost rs: seq<ExecState>, ghost states: seq<ExecState>)
      returns (ghost states': seq<ExecState>)
      requires i < |reqs| == |rs| && DistinctIds(rs) && (forall j :: 0 <= j < |reqs| ==> rs[j].id == reqs[j].reqId)
      requires Hold(reqs, states) && BatchRepaired(was, rs, snaps, i, State(), states)
      requires RepairSafe(was, rs[i], Lookup(snaps, rs[i].id))
      modifies this`lastBlock, this`nextMtpDrafts, reqs
      ensures Hold(reqs, states') && BatchRepaired(was, rs, snaps, i + 1, State(), states')
      ensures forall id :: (forall r :: r in reqs ==> r.reqId != id) ==> ViewOf(State(), id) == old(ViewOf(State(), id))
    {
      ghost var before := State();
      assert states[i] == rs[i] && ViewOf(before, rs[i].id) == ViewOf(was, rs[i].id);
      RepairInBatch(reqs[i], Lookup(snaps, reqs[i].reqId), was);
      states' := states[i := reqs[i].State()];
      BatchRepairedNext(was, rs, snaps, i, before, states, State(), states');
    }

    /** The batch loop: each request is repaired as if it were alone in the batch. */
    method RepairBatch(reqs: seq<ExecutorInferRequest>, snaps: map<int, Snapshot>)
      requires forall i, j :: 0 <= i < j < |reqs| ==> reqs[i].reqId != reqs[j].reqId
      requires forall i :: 0 <= i < |reqs| ==> RepairSafe(State(), reqs[i].State(), Lookup(snaps, reqs[i].reqId))
      modifies this`lastBlock, this`nextMtpDrafts, reqs
      ensures forall i :: 0 <= i < |reqs| ==>
                RepairedAlone(old(State()), old(reqs[i].State()), Lookup(snaps, reqs[i].reqId),
                              State(), reqs[i].State())
      ensures forall id :: (forall r :: r in reqs ==> r.reqId != id) ==> ViewOf(State(), id) == old(ViewOf(State(), id))
    {
      ghost var was, rs := State(), States(reqs);
      ghost var states := rs;
      for i := 0 to |reqs|
        invariant Hold(reqs, states) && BatchRepaired(was, rs, snaps, i, State(), states)
        invariant forall id :: (forall r :: r in reqs ==> r.reqId != id) ==> ViewOf(State(), id) == ViewOf(was, id)
      {
        states := RepairNext(reqs, snaps, i, was, rs, states);
      }
      forall i | 0 <= i < |reqs|
        ensures RepairedAlone(was, old(reqs[i].State()), Lookup(snaps, reqs[i].reqId), State(), reqs[i].State())
      {
        assert states[i] == reqs[i].State() && rs[i] == old(reqs[i].State());
      }
    }

    /** `ApplyCpuBuildAheadRepairFromRing`. */
    method ApplyCpuBuildAheadRepairFromRing(reqs: seq<ExecutorInferRequest>, snaps: map<int, Snapshot>)
      requires forall i, j :: 0 <= i < j < |reqs| ==> reqs[i].reqId != reqs[j].reqId
      requires RingUsable(State().ring) ==>
                 forall i :: 0 <= i < |reqs| ==> RepairSafe(State(), reqs[i].State(), Lookup(snaps, reqs[i].reqId))
      modifies this`lastBlock, this`nextMtpDrafts, reqs
      ensures !RingUsable(old(State()).ring) ==>
                State() == old(State()) && forall i :: 0 <= i < |reqs| ==> reqs[i].State() == old(reqs[i].State())
      ensures RingUsable(old(State()).ring) ==>
                forall i :: 0 <= i < |reqs| ==>
                  RepairedAlone(old(State()), old(reqs[i].State()), Lookup(snaps, reqs[i].reqId),
                                State(), reqs[i].State())
      ensures forall id :: (forall r :: r in reqs ==> r.reqId != id) ==> ViewOf(State(), id) == old(ViewOf(State(), id))
    {
      if hostRing.cells == [] || hostRing.cells[0] == 0 {
        return;
      }
      RepairBatch(reqs, snaps);
    }

    /** The batch's producers, in order. */
    static method CollectProducers(reqs: seq<ExecutorInferRequest>) returns (ps: seq<ExecState>)
      ensures ps == Producers(States(reqs))
    {
      ghost var all := States(reqs);
      ps := [];
      for i := 0 to |reqs|
        invariant ps == Producers(all[..i])
      {
        ProducersNext(all, i);
        assert all[i] == reqs[i].State();
        if reqs[i].generatedTokens != [] {
          ps := ps + [reqs[i].State()];
        }
      }
      assert all[..|reqs|] == all;
    }

    method RecordAccepted(ps: seq<ExecState>)
      modifies this`acceptedTokens
      ensures acceptedTokens == old(acceptedTokens) + AcceptedOf(ps)
    {
      for i := 0 to |ps|
        invariant acceptedTokens == old(acceptedTokens) + AcceptedOf(ps[..i])
      {
        assert ps[..i + 1][..i] == ps[..i];
        acceptedTokens := acceptedTokens[ps[i].id := ps[i].accepted];
      }
      assert ps[..|ps|] == ps;
    }

    /** Keeps the entries of absent requests and appends these. */
    method ReplaceEntries(es: seq<Entry>)
      modifies hostRing
      ensures hostRing.cells == Cells(Without(Entries(old(hostRing.cells)), Ids(es)) + es)
    {
      var kept := hostRing.Keep(Ids(es));
      hostRing.Rewrite(kept + es);
    }

    /** `WriteMtpSerialHostRingAfterGenerationState`. The values dropped from the accepted-token map
        while old entries are filtered are the ones written again here. */
    method WriteMtpSerialHostRingAfterGenerationState(reqs: seq<ExecutorInferRequest>)
      modifies this`acceptedTokens, hostRing
      ensures State() == WriteStep(old(State()), old(States(reqs)))
    {
      var ps := CollectProducers(reqs);
      if ps == [] {
        return;
      }
      ReplaceEntries(EntriesOf(ps));
      RecordAccepted(ps);
    }

    /** Records the drafts of the step that has just run its MTP forward. */
    method FreezeDrafts(req: ExecutorInferRequest)
      modifies this`nextMtpDrafts
      ensures State() == Freeze(old(State()), req.reqId, req.mtpDraftTokens)
    {
      nextMtpDrafts := nextMtpDrafts[req.reqId := req.mtpDraftTokens];
    }

    /** `ClearMtpSerialStateForLifecycle`. */
    method ClearMtpSerialStateForLifecycle(finished: seq<int>, recomputed: seq<int>)
      modifies this, hostRing
      ensures State() == Forget(old(State()), set id | id in finished + recomputed)
    {
      var all := finished + recomputed;
      var drop: set<int> := {};
      for i := 0 to |all|
        modifies this
        invariant drop == set id | id in all[..i]
        invariant lastBlock == old(lastBlock) - drop
        invariant acceptedTokens == old(acceptedTokens) - drop
        invariant nextMtpDrafts == old(nextMtpDrafts) - drop
      {
        lastBlock := lastBlock - {all[i]};
        acceptedTokens := acceptedTokens - {all[i]};
        nextMtpDrafts := nextMtpDrafts - {all[i]};
        drop := drop + {all[i]};
      }
      assert all[..|all|] == all;
      if drop != {} && hostRing.cells != [] {
        var kept := hostRing.Keep(drop);
        if kept == [] {
          hostRing.cells := [];
        } else {
          hostRing.Rewrite(kept);
        }
      }
    }
  }
}
