/** What the Executor reads out of a schedule, field by field, and the request it leaves there. */
module Arrivals {
  import opened Tokens
  import opened ByteCodecs
  import opened ScheduleCodecs
  import opened ModelRunners
  import opened InferRequests
  import AheadRun

  // ---- The two deserializers, by name ----

  /** `InferRequestPatch`. */
  datatype PatchRead = PatchRead(
    id: int,
    tokens: seq<int>,
    tokensOffset: int,
    draftNum: int,
    kv: int,
    fromRemote: int,
    prefixLen: int,
    blocks: seq<int>,
    blocksOffset: int,
    swaBlocks: seq<int>,
    swaOffsets: seq<int>,
    stage: int,
    stepKind: int,
    step: int,
    sampling: int,
    launchOffset: int)

  function PodAt(fs: seq<Field>, i: nat): int { if i < |fs| && fs[i].Pod? then fs[i].value else 0 }

  function VecAt(fs: seq<Field>, i: nat): seq<int> { if i < |fs| && fs[i].Vec? then fs[i].values else [] }

  /** `DeserializeInferRequestPatches`, for one patch: its fields in the order they are read. */
  function ReadPatch(fs: seq<Field>): PatchRead
  {
    PatchRead(PodAt(fs, 0), VecAt(fs, 1), PodAt(fs, 2), PodAt(fs, 3), PodAt(fs, 4), PodAt(fs, 5), PodAt(fs, 6),
              VecAt(fs, 7), PodAt(fs, 8), VecAt(fs, 9), VecAt(fs, 10), PodAt(fs, 11), PodAt(fs, 12), PodAt(fs, 13),
              PodAt(fs, 14), PodAt(fs, 15))
  }

  /** What of a full request is read in its own right; the groups of fields in between are read as they come. */
  datatype FullRead = FullRead(
    id: int,
    customLength: int,
    sampling: int,
    draftNum: int,
    generated: seq<int>,
    tokens: seq<int>,
    samplingResult: seq<int>,
    stage: int,
    stepKind: int,
    step: int,
    kv: int,
    fromRemote: int,
    blocks: seq<int>,
    swaBlocks: seq<int>,
    swaOffsets: seq<int>,
    prefixLen: int,
    incremental: seq<int>)

  function FieldsAt(segs: seq<Segment>, i: nat): seq<Field>
  {
    if i < |segs| && segs[i].Fields? then segs[i].fields else []
  }

  /** `DeserializeInferRequests`, for one request. */
  function ReadFull(x: Wire): FullRead
  {
    var start, drafts, tokens, position, cache, end :=
      FieldsAt(x.front, 0), FieldsAt(x.front, 2), FieldsAt(x.front, 7), FieldsAt(x.front, 8), FieldsAt(x.front, 9),
      FieldsAt(x.front, 11);
    FullRead(PodAt(start, 0), PodAt(start, 1), PodAt(start, 2), PodAt(drafts, 0), VecAt(drafts, 1),
             VecAt(tokens, 0), VecAt(tokens, 1),
             PodAt(position, 0), PodAt(position, 1), PodAt(position, 2), PodAt(position, 3), PodAt(position, 4),
             VecAt(cache, 0), VecAt(cache, 1), VecAt(cache, 2), PodAt(end, 0), VecAt(end, 1))
  }

  // ---- What is read is what was frozen ----

  ghost predicate PatchCarries(p: PatchRead, r: LiveRequest, f: Frozen)
  {
    && p.id == r.id && p.stage == r.stage && p.fromRemote == r.kvFromRemote
    && p.tokens == f.forwarding && p.tokensOffset == 0 && p.blocks == f.blocks && p.blocksOffset == 0
    && p.kv == f.kv && p.draftNum == f.draftNum && p.sampling == f.sampling && p.prefixLen == f.prefixLen
    && p.swaBlocks == f.swaBlocks && p.swaOffsets == f.swaOffsets && p.step == f.step && p.stepKind == f.stepKind
  }

  ghost predicate FullCarries(p: FullRead, r: LiveRequest, f: Frozen)
  {
    && p.id == r.id && p.stage == r.stage && p.fromRemote == r.kvFromRemote && p.customLength == r.customLength
    && p.generated == r.generated && p.samplingResult == r.samplingResult && p.incremental == r.incremental
    && p.tokens == f.forwarding && p.blocks == f.blocks
    && p.kv == f.kv && p.draftNum == f.draftNum && p.sampling == f.sampling && p.prefixLen == f.prefixLen
    && p.swaBlocks == f.swaBlocks && p.swaOffsets == f.swaOffsets && p.step == f.step && p.stepKind == f.stepKind
  }

  /** A patch gives every field back under its own name: the frozen value if the launch left a snapshot, else the
      live one; the placeholder offset is the snapshot's, or none. */
  lemma PatchReadsBack(r: LiveRequest, snaps: map<int, Frozen>, noPlaceholder: int)
    ensures var p := ReadPatch(ToPatch(r, snaps, noPlaceholder));
            && (r.id in snaps ==> PatchCarries(p, r, snaps[r.id]) && p.launchOffset == snaps[r.id].placeholder)
            && (r.id !in snaps ==> PatchCarries(p, r, r.now) && p.launchOffset == noPlaceholder)
  {
  }

  /** So does a full request, which has no placeholder offset to give. */
  lemma FullReadsBack(r: LiveRequest, snaps: map<int, Frozen>)
    ensures var p := ReadFull(ToWire(r, snaps));
            && (r.id in snaps ==> FullCarries(p, r, snaps[r.id]))
            && (r.id !in snaps ==> FullCarries(p, r, r.now))
  {
  }

  /** Changing one value of a record leaves it in shape exactly if the new value fits. */
  lemma OneFieldFits(fs: seq<Field>, schema: seq<Shape>, i: nat, v: int)
    requires HasSchema(fs, schema) && i < |fs| && schema[i].PodOf?
    ensures HasSchema(fs[i := Pod(v)], schema) <==> Fits(schema[i].kind, v)
  {
    assert fs[i := Pod(v)][i] == Pod(v);
  }

  lemma OneSegmentFits(segs: seq<Segment>, layouts: seq<Layout>, i: nat, seg: Segment)
    requires HaveLayouts(segs, layouts) && i < |segs|
    ensures HaveLayouts(segs[i := seg], layouts) <==> HasLayout(seg, layouts[i])
  {
    assert segs[i := seg][i] == seg;
  }

  /** A patch can carry a cached token count exactly below 2^64, */
  lemma PatchKvFits(r: LiveRequest, kv: nat, noPlaceholder: int)
    requires HasSchema(ToPatch(r, map[], noPlaceholder), PATCH)
    ensures HasSchema(ToPatch(r.(now := r.now.(kv := kv)), map[], noPlaceholder), PATCH)
            <==> kv < 0x1_0000_0000_0000_0000
  {
    assert Pow256(8) == 0x1_0000_0000_0000_0000;
    OneFieldFits(ToPatch(r, map[], noPlaceholder), PATCH, 4, kv);
    assert ToPatch(r.(now := r.now.(kv := kv)), map[], noPlaceholder) == ToPatch(r, map[], noPlaceholder)[4 := Pod(kv)];
  }

  /** a full request exactly below 2^31. */
  lemma FullKvFits(r: LiveRequest, kv: nat)
    requires Sendable(r, map[])
    ensures Sendable(r.(now := r.now.(kv := kv)), map[]) <==> kv < 0x8000_0000
  {
    var front, position := FrontOf(r, r.now), FrontOf(r, r.now)[8];
    assert Pow256(4) == 0x1_0000_0000;
    OneFieldFits(position.fields, POSITION, 3, kv);
    OneSegmentFits(front, FRONT, 8, Fields(position.fields[3 := Pod(kv)]));
    var moved := FrontOf(r, r.now.(kv := kv));
    assert moved[8].fields == position.fields[3 := Pod(kv)];
    assert moved == front[8 := moved[8]];
  }

  /** Request ids can be listed in a schedule exactly if each is an `int64`, */
  lemma IdsFit(ids: seq<int>)
    requires Fits(SIZE, |ids|)
    ensures HasShape(Vec(ids), IDS) <==>
            forall id :: id in ids ==> -0x8000_0000_0000_0000 <= id < 0x8000_0000_0000_0000
  {
    assert Pow256(8) == 0x1_0000_0000_0000_0000;
    assert forall i :: 0 <= i < |ids| ==> ids[i] in ids;
  }

  /** and tokens in a patch or a full request exactly if each is an `int`. */
  lemma TokensFit(tokens: seq<int>)
    requires Fits(SIZE, |tokens|)
    ensures HasShape(Vec(tokens), PATCH[1]) <==> forall x :: x in tokens ==> -0x8000_0000 <= x < 0x8000_0000
    ensures HasShape(Vec(tokens), FRONT[7].schema[0]) <==> forall x :: x in tokens ==> -0x8000_0000 <= x < 0x8000_0000
  {
    assert Pow256(4) == 0x1_0000_0000;
    assert forall i :: 0 <= i < |tokens| ==> tokens[i] in tokens;
  }

  /** `InferStage` on the wire. */
  function StageCode(stage: Stage): int
  {
    match stage
    case Context => 0
    case Decode => 1
  }

  /** A full request takes its embedding along exactly in the context stage. */
  lemma EmbeddingGoesWithContext(r: LiveRequest, snaps: map<int, Frozen>, stage: Stage)
    requires r.stage == StageCode(stage) && r.embedding != []
    ensures ToWire(r, snaps).embedding == r.embedding <==> stage == Context
  {
  }

  // ---- Through the whole schedule ----

  /** How many of the requests are sent as patches. */
  function PatchesIn(running: seq<LiveRequest>, snaps: map<int, Frozen>): nat
  {
    if running == [] then 0
    else PatchesIn(running[..|running| - 1], snaps) + if IsPatch(running[|running| - 1], snaps) then 1 else 0
  }

  lemma {:induction false} PartSizes(running: seq<LiveRequest>, snaps: map<int, Frozen>, noPlaceholder: int)
    ensures |PatchesOf(running, snaps, noPlaceholder)| == PatchesIn(running, snaps) <= |running|
    ensures |FullOf(running, snaps)| == |running| - PatchesIn(running, snaps)
    decreases |running|
  {
    if running != [] {
      PartSizes(running[..|running| - 1], snaps, noPlaceholder);
    }
  }

  /** A patch stands behind the patches in front of it. */
  lemma {:induction false} PatchAt(running: seq<LiveRequest>, snaps: map<int, Frozen>, noPlaceholder: int, i: nat)
    requires i < |running| && IsPatch(running[i], snaps)
    ensures var at, parts := PatchesIn(running[..i], snaps), PatchesOf(running, snaps, noPlaceholder);
            at < |parts| && parts[at] == ToPatch(running[i], snaps, noPlaceholder)
    decreases |running|
  {
    var n := |running| - 1;
    PartSizes(running[..n], snaps, noPlaceholder);
    if i < n {
      PatchAt(running[..n], snaps, noPlaceholder, i);
      assert running[..n][..i] == running[..i];
    }
  }

  /** And a full request behind the full requests in front of it. */
  lemma {:induction false} FullAt(running: seq<LiveRequest>, snaps: map<int, Frozen>, i: nat)
    requires i < |running| && !IsPatch(running[i], snaps)
    ensures PatchesIn(running[..i], snaps) <= i
    ensures var at, parts := i - PatchesIn(running[..i], snaps), FullOf(running, snaps);
            at < |parts| && parts[at] == ToWire(running[i], snaps)
    decreases |running|
  {
    var n := |running| - 1;
    var front := FullOf(running[..n], snaps);
    assert front <= FullOf(running, snaps);
    if i < n {
      FullAt(running[..n], snaps, i);
      assert running[..n][..i] == running[..i];
    } else {
      PartSizes(running[..n], snaps, 0);
    }
  }

  /** The mode a request travels in: the recorded one, if the snapshot holds one, else the live flag. */
  lemma ModeIsRecorded(r: LiveRequest, snaps: map<int, Frozen>)
    ensures r.id in snaps && snaps[r.id].patch == Some(true) ==> IsPatch(r, snaps)
    ensures r.id in snaps && snaps[r.id].patch == Some(false) ==> !IsPatch(r, snaps)
    ensures r.id !in snaps || snaps[r.id].patch.None? ==> (IsPatch(r, snaps) <==> r.patchTransfer)
  {
  }

  /** The record of request `i` in what the Executor decodes. */
  lemma SentRequestArrives(header: seq<Segment>, running: seq<LiveRequest>, snaps: map<int, Frozen>,
                           noPlaceholder: int, rest: seq<int>, i: nat)
    requires HaveLayouts(header, HEADER) && Fits(SIZE, |running|) && AllSendable(running, snaps, noPlaceholder)
    requires i < |running|
    ensures var d := DecodeSchedule(EncodeSchedule(ToSchedule(header, running, snaps, noPlaceholder)) + rest);
            var at := PatchesIn(running[..i], snaps);
            && d.Some? && d.value.1 == rest
            && if IsPatch(running[i], snaps) then
                 at < |d.value.0.patches| && d.value.0.patches[at] == ToPatch(running[i], snaps, noPlaceholder)
               else 0 <= i - at < |d.value.0.full| && d.value.0.full[i - at] == ToWire(running[i], snaps)
  {
    SentScheduleArrives(header, running, snaps, noPlaceholder, rest);
    if IsPatch(running[i], snaps) {
      PatchAt(running, snaps, noPlaceholder, i);
    } else {
      FullAt(running, snaps, i);
    }
  }

  // ---- The request it leaves on the Executor ----

  /** `SIZE_MAX`, for no placeholder. */
  const NO_OFFSET: int := 0xFFFF_FFFF_FFFF_FFFF

  function OffsetCode(offset: Option<nat>): int { if offset.Some? then offset.value else NO_OFFSET }

  function KindCode(kind: StepKind): int
  {
    match kind
    case DecodeStep => 0
    case PrefillStep => 1
    case PrefillChunkMid => 2
  }

  function KindOf(code: int): StepKind
  {
    if code == 0 then DecodeStep else if code == 1 then PrefillStep else PrefillChunkMid
  }

  function AsNat(v: int): nat { if v < 0 then 0 else v }

  function AsOffset(v: int): Option<nat> { if v == NO_OFFSET then None else Some(AsNat(v)) }

  /** `f` holds the fields of a launched step. */
  predicate Holds(f: Frozen, snap: Snapshot)
  {
    && f.forwarding == snap.forwarding && f.kv == snap.kv && f.prefixLen == snap.prefixLen
    && f.draftNum == snap.draftNum && f.sampling == snap.sampling && f.stepKind == KindCode(snap.kind)
    && f.placeholder == OffsetCode(snap.placeholder)
    && (snap.placeholder.Some? ==> snap.placeholder.value < NO_OFFSET)
  }

  /** The Executor's copy takes a patch over. */
  function WithPatch(r: ExecState, p: PatchRead): ExecState
  {
    r.(forwarding := p.tokens, kv := AsNat(p.kv), prefixLen := AsNat(p.prefixLen), draftNum := AsNat(p.draftNum),
       sampling := AsNat(p.sampling), kind := KindOf(p.stepKind), launchOffset := AsOffset(p.launchOffset))
  }

  /** Or is replaced by a full request, which starts without a placeholder offset. */
  function WithFull(r: ExecState, p: FullRead): ExecState
  {
    r.(forwarding := p.tokens, kv := AsNat(p.kv), prefixLen := AsNat(p.prefixLen), draftNum := AsNat(p.draftNum),
       sampling := AsNat(p.sampling), kind := KindOf(p.stepKind), launchOffset := None)
  }

  /** The same request apart from what its last step left in it. */
  predicate SameStep(a: ExecState, b: ExecState)
  {
    a.(generated := [], accepted := []) == b.(generated := [], accepted := [])
  }

  lemma PatchLeavesStep(r: LiveRequest, snaps: map<int, Frozen>, snap: Snapshot, exec: ExecState)
    requires r.id in snaps && Holds(snaps[r.id], snap)
    ensures SameStep(WithPatch(exec, ReadPatch(ToPatch(r, snaps, NO_OFFSET))),
                     AheadRun.Arrive(exec, snap, AheadRun.Patch))
  {
    PatchReadsBack(r, snaps, NO_OFFSET);
  }

  lemma FullLeavesStep(r: LiveRequest, snaps: map<int, Frozen>, snap: Snapshot, exec: ExecState)
    requires r.id in snaps && Holds(snaps[r.id], snap)
    ensures SameStep(WithFull(exec, ReadFull(ToWire(r, snaps))), AheadRun.Arrive(exec, snap, AheadRun.Full))
  {
    FullReadsBack(r, snaps);
  }

  /** From launch to execution: a step frozen as `snap`, sent among any other requests, patches and full ones, leaves
      on the Executor, once its bytes are decoded and its fields read, exactly the request that the two-process
      system executes, in either transfer mode. */
  lemma LaunchedStepArrives(header: seq<Segment>, running: seq<LiveRequest>, snaps: map<int, Frozen>,
                            rest: seq<int>, i: nat, snap: Snapshot, exec: ExecState)
    requires HaveLayouts(header, HEADER) && Fits(SIZE, |running|) && AllSendable(running, snaps, NO_OFFSET)
    requires i < |running| && running[i].id in snaps && Holds(snaps[running[i].id], snap)
    ensures var d := DecodeSchedule(EncodeSchedule(ToSchedule(header, running, snaps, NO_OFFSET)) + rest);
            var at := PatchesIn(running[..i], snaps);
            && d.Some?
            && if IsPatch(running[i], snaps) then
                 && at < |d.value.0.patches|
                 && SameStep(WithPatch(exec, ReadPatch(d.value.0.patches[at])),
                             AheadRun.Arrive(exec, snap, AheadRun.Patch))
               else
                 && 0 <= i - at < |d.value.0.full|
                 && SameStep(WithFull(exec, ReadFull(d.value.0.full[i - at])),
                             AheadRun.Arrive(exec, snap, AheadRun.Full))
  {
    SentRequestArrives(header, running, snaps, NO_OFFSET, rest, i);
    PatchLeavesStep(running[i], snaps, snap, exec);
    FullLeavesStep(running[i], snaps, snap, exec);
  }
}
