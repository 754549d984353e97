/** A schedule as it travels to the Executor: full requests first, then patches. */
module ScheduleCodecs {
  import opened Tokens
  import opened ByteCodecs

  const I32: Kind := Signed(4)
  const I64: Kind := Signed(8)
  const U32: Kind := Unsigned(4)
  const BOOL: Kind := Unsigned(1)

  /** A string, as its bytes. */
  const STRING: Shape := VecOf(Unsigned(1))

  /** `ForwardStepKind` and `InferStage` values; a context-stage request carries its embeddings. */
  const CONTEXT_STAGE: int := 0

  // ---- What is sent of a request ----

  /** The fields that a launch freezes. `patch` is the transfer mode, if the snapshot holds one. */
  datatype Frozen = Frozen(forwarding: seq<int>, placeholder: int, kv: int, draftNum: int, sampling: int,
                           blocks: seq<int>, swaBlocks: seq<int>, swaOffsets: seq<int>, prefixLen: int, step: int,
                           stepKind: int, patch: Option<bool>)

  /** A live request: the fields a launch freezes as they stand now, and every other field that is sent.
      `head` runs from `logits_custom_length` on, in the order of the code. */
  datatype LiveRequest = LiveRequest(
    id: int,
    now: Frozen,
    patchTransfer: bool,
    stage: int,
    kvFromRemote: int,
    customLength: int,
    head: seq<Field>,
    generated: seq<int>,
    targets: seq<seq<Field>>,
    samplingConfig: seq<Field>,
    stopStrings: seq<seq<Field>>,
    middle: seq<Field>,
    samplingResult: seq<int>,
    tail: seq<Field>,
    incremental: seq<int>,
    embedding: seq<Segment>,
    generator: Option<seq<Field>>,
    decodeTargets: seq<seq<Field>>,
    route: seq<Field>)

  /** `FindReqSnapshot`: the frozen fields if the launch left a snapshot, else the live ones. */
  function FieldsSent(r: LiveRequest, snaps: map<int, Frozen>): Frozen
  {
    if r.id in snaps then snaps[r.id] else r.now
  }

  /** The snapshotted transfer mode, if it was filled in, else the live flag. */
  predicate IsPatch(r: LiveRequest, snaps: map<int, Frozen>)
  {
    if r.id in snaps && snaps[r.id].patch.Some? then snaps[r.id].patch.value else r.patchTransfer
  }

  // ---- Full requests ----

  /** `last_step_token_num` .. `accepted_tokens`. */
  const HEAD: seq<Shape> := [PodOf(SIZE), VecOf(I32), PodOf(I64), PodOf(I64), VecOf(I32), VecOf(I32), VecOf(I32),
                             VecOf(I32), VecOf(I32)]

  /** One `TargetDescribe`, with its name. */
  const TARGET: seq<Shape> := [STRING, VecOf(I32), VecOf(I32), VecOf(Unsigned(8)), PodOf(I32), PodOf(I32)]

  /** `SamplingConfig` up to `decoder_no_repeat_ngram_size`; floats travel as their four bytes. */
  const SAMPLING: seq<Shape> := [PodOf(I32), PodOf(I32), PodOf(I32), PodOf(U32), PodOf(U32), PodOf(U32), PodOf(U32),
                                 VecOf(I32), PodOf(BOOL), PodOf(I32), PodOf(I32), PodOf(I32), PodOf(I32), PodOf(I32)]

  /** `json_schema` .. `kv_comm_group_key`. */
  const MIDDLE: seq<Shape> := [STRING, PodOf(BOOL), PodOf(BOOL), PodOf(I32), PodOf(U32), STRING]

  /** `infer_stage` .. `kv_from_remote`: the cached token count is narrowed to 32 bits. */
  const POSITION: seq<Shape> := [PodOf(I32), PodOf(I32), PodOf(I32), PodOf(I32), PodOf(BOOL)]

  const CACHE: seq<Shape> := [VecOf(I32), VecOf(I32), VecOf(SIZE)]

  const TENSOR: seq<Shape> := [VecOf(SIZE), PodOf(I32), VecOf(Unsigned(1))]

  const FRONT: seq<Layout> := [
    FieldsOf([PodOf(I64), PodOf(SIZE), PodOf(SIZE)]), FieldsOf(HEAD), FieldsOf([PodOf(I64), VecOf(I32)]),
    RecordsOf(TARGET), FieldsOf(SAMPLING), RecordsOf([STRING]), FieldsOf(MIDDLE), FieldsOf([VecOf(I32), VecOf(I32)]),
    FieldsOf(POSITION), FieldsOf(CACHE), FieldsOf([PodOf(SIZE), PodOf(SIZE)]), FieldsOf([PodOf(I32), STRING])]

  const EMBEDDING: seq<Layout> := [FieldsOf([VecOf(I32)]), RecordsOf([VecOf(U32)]), RecordsOf(TENSOR),
                                   RecordsOf(TENSOR)]

  const FLAG: seq<Layout> := [FieldsOf([PodOf(BOOL)])]

  const GENERATOR: seq<Layout> := [FieldsOf([PodOf(I32), STRING])]

  const BACK: seq<Layout> := [RecordsOf([PodOf(U32), PodOf(Unsigned(8)), VecOf(I32)]), FieldsOf([STRING, PodOf(U32)])]

  /** A full request on the wire: two of its sections are there only if an earlier field says so. */
  datatype Wire = Wire(front: seq<Segment>, embedding: seq<Segment>, generator: Option<seq<Segment>>,
                       back: seq<Segment>)

  function FrontOf(r: LiveRequest, f: Frozen): seq<Segment>
  {
    [Fields([Pod(r.id), Pod(r.customLength), Pod(f.sampling)]), Fields(r.head),
     Fields([Pod(f.draftNum), Vec(r.generated)]), Records(r.targets), Fields(r.samplingConfig), Records(r.stopStrings),
     Fields(r.middle), Fields([Vec(f.forwarding), Vec(r.samplingResult)]),
     Fields([Pod(r.stage), Pod(f.stepKind), Pod(f.step), Pod(f.kv), Pod(r.kvFromRemote)]),
     Fields([Vec(f.blocks), Vec(f.swaBlocks), Vec(f.swaOffsets)]), Fields(r.tail),
     Fields([Pod(f.prefixLen), Vec(r.incremental)])]
  }

  /** `SerializeInferRequests`, what one request sends. */
  function ToWire(r: LiveRequest, snaps: map<int, Frozen>): Wire
  {
    Wire(FrontOf(r, FieldsSent(r, snaps)),
         if r.stage == CONTEXT_STAGE then r.embedding else [],
         if r.generator.Some? then Some([Fields(r.generator.value)]) else None,
         [Records(r.decodeTargets), Fields(r.route)])
  }

  /** The stage as the decoder has just read it. */
  function StageOf(front: seq<Segment>): Option<int>
  {
    if |front| == |FRONT| && front[8].Fields? && |front[8].fields| == |POSITION| && front[8].fields[0].Pod?
    then Some(front[8].fields[0].value) else None
  }

  ghost predicate WireOk(x: Wire)
  {
    && HaveLayouts(x.front, FRONT) && HaveLayouts(x.back, BACK)
    && (if StageOf(x.front) == Some(CONTEXT_STAGE) then HaveLayouts(x.embedding, EMBEDDING) else x.embedding == [])
    && (x.generator.Some? ==> HaveLayouts(x.generator.value, GENERATOR))
  }

  function FlagSegment(there: bool): seq<Segment> { [Fields([Pod(if there then 1 else 0)])] }

  predicate FlagSet(segs: seq<Segment>)
  {
    |segs| == 1 && segs[0].Fields? && segs[0].fields == [Pod(1)]
  }

  function EncodeGenerator(generator: Option<seq<Segment>>): seq<int>
  {
    EncodeSegments(FLAG, FlagSegment(generator.Some?))
    + if generator.Some? then EncodeSegments(GENERATOR, generator.value) else []
  }

  function DecodeGenerator(bytes: seq<int>): Option<(Option<seq<Segment>>, seq<int>)>
  {
    match DecodeSegments(FLAG, bytes)
    case None => None
    case Some((flag, rest)) =>
      if !FlagSet(flag) then Some((None, rest))
      else
        match DecodeSegments(GENERATOR, rest)
        case None => None
        case Some((config, after)) => Some((Some(config), after))
  }

  lemma GeneratorRoundTrip(generator: Option<seq<Segment>>, rest: seq<int>)
    requires generator.Some? ==> HaveLayouts(generator.value, GENERATOR)
    ensures DecodeGenerator(EncodeGenerator(generator) + rest) == Some((generator, rest))
  {
    var flag := FlagSegment(generator.Some?);
    var tail := if generator.Some? then EncodeSegments(GENERATOR, generator.value) else [];
    assert Fits(BOOL, 0) && Fits(BOOL, 1);
    assert HaveLayouts(flag, FLAG);
    assert EncodeGenerator(generator) + rest == EncodeSegments(FLAG, flag) + (tail + rest);
    SegmentsRoundTrip(FLAG, flag, tail + rest);
    if generator.Some? {
      SegmentsRoundTrip(GENERATOR, generator.value, rest);
    } else {
      assert tail + rest == rest;
    }
  }

  function EncodeEmbedding(embedding: seq<Segment>): seq<int>
  {
    EncodeSegments(if embedding == [] then [] else EMBEDDING, embedding)
  }

  function DecodeEmbedding(context: bool, bytes: seq<int>): Option<(seq<Segment>, seq<int>)>
  {
    DecodeSegments(if context then EMBEDDING else [], bytes)
  }

  lemma EmbeddingRoundTrip(context: bool, embedding: seq<Segment>, rest: seq<int>)
    requires if context then HaveLayouts(embedding, EMBEDDING) else embedding == []
    ensures DecodeEmbedding(context, EncodeEmbedding(embedding) + rest) == Some((embedding, rest))
  {
    SegmentsRoundTrip(if context then EMBEDDING else [], embedding, rest);
  }

  function EncodeBack(generator: Option<seq<Segment>>, back: seq<Segment>): seq<int>
  {
    EncodeGenerator(generator) + EncodeSegments(BACK, back)
  }

  function DecodeBack(bytes: seq<int>): Option<((Option<seq<Segment>>, seq<Segment>), seq<int>)>
  {
    match DecodeGenerator(bytes)
    case None => None
    case Some((generator, rest)) =>
      match DecodeSegments(BACK, rest)
      case None => None
      case Some((back, after)) => Some(((generator, back), after))
  }

  lemma BackRoundTrip(generator: Option<seq<Segment>>, back: seq<Segment>, rest: seq<int>)
    requires (generator.Some? ==> HaveLayouts(generator.value, GENERATOR)) && HaveLayouts(back, BACK)
    ensures DecodeBack(EncodeBack(generator, back) + rest) == Some(((generator, back), rest))
  {
    var tail := EncodeSegments(BACK, back) + rest;
    assert EncodeBack(generator, back) + rest == EncodeGenerator(generator) + tail;
    GeneratorRoundTrip(generator, tail);
    SegmentsRoundTrip(BACK, back, rest);
  }

  function EncodeWire(x: Wire): seq<int>
  {
    EncodeSegments(FRONT, x.front) + (EncodeEmbedding(x.embedding) + EncodeBack(x.generator, x.back))
  }

  function DecodeWire(bytes: seq<int>): Option<(Wire, seq<int>)>
  {
    match DecodeSegments(FRONT, bytes)
    case None => None
    case Some((front, rest)) =>
      match DecodeEmbedding(StageOf(front) == Some(CONTEXT_STAGE), rest)
      case None => None
      case Some((embedding, rest)) =>
        match DecodeBack(rest)
        case None => None
        case Some((back, rest)) => Some((Wire(front, embedding, back.0, back.1), rest))
  }

  /** A request is decoded once each of its sections is. */
  lemma WireFromSections(x: Wire, bytes: seq<int>, r1: seq<int>, r2: seq<int>, r3: seq<int>)
    requires DecodeSegments(FRONT, bytes) == Some((x.front, r1))
    requires DecodeEmbedding(StageOf(x.front) == Some(CONTEXT_STAGE), r1) == Some((x.embedding, r2))
    requires DecodeBack(r2) == Some(((x.generator, x.back), r3))
    ensures DecodeWire(bytes) == Some((x, r3))
  {
  }

  lemma Regrouped(a: seq<int>, b: seq<int>, c: seq<int>, rest: seq<int>)
    ensures (a + (b + c)) + rest == a + (b + (c + rest))
  {
  }

  lemma WireRoundTrip(x: Wire, rest: seq<int>)
    requires WireOk(x)
    ensures DecodeWire(EncodeWire(x) + rest) == Some((x, rest))
  {
    var a, b, c := EncodeSegments(FRONT, x.front), EncodeEmbedding(x.embedding), EncodeBack(x.generator, x.back);
    Regrouped(a, b, c, rest);
    SegmentsRoundTrip(FRONT, x.front, b + (c + rest));
    EmbeddingRoundTrip(StageOf(x.front) == Some(CONTEXT_STAGE), x.embedding, c + rest);
    BackRoundTrip(x.generator, x.back, rest);
    WireFromSections(x, a + (b + (c + rest)), b + (c + rest), c + rest, rest);
  }

  // ---- What the Engine guarantees of a request, and what arrives ----

  /** Every field fits its place on the wire. */
  ghost predicate Sendable(r: LiveRequest, snaps: map<int, Frozen>)
  {
    && HaveLayouts(FrontOf(r, FieldsSent(r, snaps)), FRONT)
    && (r.stage == CONTEXT_STAGE ==> HaveLayouts(r.embedding, EMBEDDING))
    && (r.generator.Some? ==> HaveLayouts([Fields(r.generator.value)], GENERATOR))
    && HaveLayouts([Records(r.decodeTargets), Fields(r.route)], BACK)
  }

  /** A full request arrives exactly as it was sent, with its conditional sections, and nothing behind it is
      touched. */
  lemma FullRequestRoundTrip(r: LiveRequest, snaps: map<int, Frozen>, rest: seq<int>)
    requires Sendable(r, snaps)
    ensures DecodeWire(EncodeWire(ToWire(r, snaps)) + rest) == Some((ToWire(r, snaps), rest))
  {
    WireRoundTrip(ToWire(r, snaps), rest);
  }

  /** The cached token count arrives unchanged exactly below `2^31`: it is narrowed to an `int`. */
  lemma KvIsNarrowed(kv: nat)
    ensures Interpret(I32, EncodePod(I32, kv)) == kv <==> kv < 0x8000_0000
  {
    StoredExactly(I32, kv);
    assert Pow256(4) == 0x1_0000_0000;
  }

  // ---- Patches ----

  const PATCH: seq<Shape> := [PodOf(I64), VecOf(I32), PodOf(SIZE), PodOf(SIZE), PodOf(SIZE), PodOf(BOOL), PodOf(I32),
                              VecOf(I32), PodOf(SIZE), VecOf(I32), VecOf(SIZE), PodOf(I32), PodOf(I32), PodOf(I32),
                              PodOf(SIZE), PodOf(SIZE)]

  /** `InferRequestPatch`: its token and block lists are whole, from offset 0. A patch without a snapshot names
      no placeholder. */
  function ToPatch(r: LiveRequest, snaps: map<int, Frozen>, noPlaceholder: int): seq<Field>
  {
    var f := FieldsSent(r, snaps);
    [Pod(r.id), Vec(f.forwarding), Pod(0), Pod(f.draftNum), Pod(f.kv), Pod(r.kvFromRemote), Pod(f.prefixLen),
     Vec(f.blocks), Pod(0), Vec(f.swaBlocks), Vec(f.swaOffsets), Pod(r.stage), Pod(f.stepKind), Pod(f.step),
     Pod(f.sampling), Pod(if r.id in snaps then f.placeholder else noPlaceholder)]
  }

  /** A full request does not carry the placeholder offset: the Executor has to find it in the tokens. A patch
      does. */
  lemma OnlyPatchesNameThePlaceholder(r: LiveRequest, snaps: map<int, Frozen>, p: int, noPlaceholder: int)
    requires r.id in snaps && p != snaps[r.id].placeholder
    ensures var moved := snaps[r.id := snaps[r.id].(placeholder := p)];
            && ToWire(r, moved) == ToWire(r, snaps)
            && ToPatch(r, moved, noPlaceholder) != ToPatch(r, snaps, noPlaceholder)
  {
    var moved := snaps[r.id := snaps[r.id].(placeholder := p)];
    assert ToPatch(r, moved, noPlaceholder)[15] != ToPatch(r, snaps, noPlaceholder)[15];
  }

  // ---- The whole schedule ----

  const IDS: Shape := VecOf(I64)

  const HEADER: seq<Layout> := [FieldsOf([PodOf(SIZE), PodOf(BOOL), PodOf(I64)]), RecordsOf([IDS]), RecordsOf([IDS]),
                                FieldsOf([IDS])]

  datatype Schedule = Schedule(header: seq<Segment>, full: seq<Wire>, patches: seq<seq<Field>>)

  function FullOf(running: seq<LiveRequest>, snaps: map<int, Frozen>): seq<Wire>
  {
    if running == [] then []
    else
      var n := |running| - 1;
      FullOf(running[..n], snaps) + if IsPatch(running[n], snaps) then [] else [ToWire(running[n], snaps)]
  }

  function PatchesOf(running: seq<LiveRequest>, snaps: map<int, Frozen>, noPlaceholder: int): seq<seq<Field>>
  {
    if running == [] then []
    else
      var n := |running| - 1;
      PatchesOf(running[..n], snaps, noPlaceholder)
      + if IsPatch(running[n], snaps) then [ToPatch(running[n], snaps, noPlaceholder)] else []
  }

  /** `SerializeScheduleOutput`: running requests are split by their transfer mode, each part in order. */
  function ToSchedule(header: seq<Segment>, running: seq<LiveRequest>, snaps: map<int, Frozen>,
                      noPlaceholder: int): Schedule
  {
    Schedule(header, FullOf(running, snaps), PatchesOf(running, snaps, noPlaceholder))
  }

  function EncodeFull(unit: (), x: Wire): seq<int> { EncodeWire(x) }

  function DecodeFull(unit: (), bytes: seq<int>): Option<(Wire, seq<int>)> { DecodeWire(bytes) }

  function EncodeSchedule(s: Schedule): seq<int>
  {
    EncodeSegments(HEADER, s.header)
    + (EncodeCounted(EncodeFull, (), s.full) + EncodeCounted(EncodeRecord, PATCH, s.patches))
  }

  function DecodeSchedule(bytes: seq<int>): Option<(Schedule, seq<int>)>
  {
    match DecodeSegments(HEADER, bytes)
    case None => None
    case Some((header, rest)) =>
      match DecodeCounted(DecodeFull, (), rest)
      case None => None
      case Some((full, rest)) =>
        match DecodeCounted(DecodeRecord, PATCH, rest)
        case None => None
        case Some((patches, rest)) => Some((Schedule(header, full, patches), rest))
  }

  ghost predicate ScheduleOk(s: Schedule)
  {
    && HaveLayouts(s.header, HEADER) && Fits(SIZE, |s.full|) && Fits(SIZE, |s.patches|)
    && (forall i :: 0 <= i < |s.full| ==> WireOk(s.full[i]))
    && (forall i :: 0 <= i < |s.patches| ==> HasSchema(s.patches[i], PATCH))
  }

  lemma FullsRoundTrip(full: seq<Wire>, rest: seq<int>)
    requires Fits(SIZE, |full|) && forall i :: 0 <= i < |full| ==> WireOk(full[i])
    ensures DecodeCounted(DecodeFull, (), EncodeCounted(EncodeFull, (), full) + rest) == Some((full, rest))
  {
    forall i | 0 <= i < |full| ensures Inverse(EncodeFull, DecodeFull, (), full[i]) {
      forall rest: seq<int> ensures DecodeFull((), EncodeFull((), full[i]) + rest) == Some((full[i], rest)) {
        WireRoundTrip(full[i], rest);
      }
    }
    CountedRoundTrip(EncodeFull, DecodeFull, (), full, rest);
  }

  lemma PatchesRoundTrip(patches: seq<seq<Field>>, rest: seq<int>)
    requires Fits(SIZE, |patches|) && forall i :: 0 <= i < |patches| ==> HasSchema(patches[i], PATCH)
    ensures DecodeCounted(DecodeRecord, PATCH, EncodeCounted(EncodeRecord, PATCH, patches) + rest) ==
            Some((patches, rest))
  {
    forall i | 0 <= i < |patches| ensures Inverse(EncodeRecord, DecodeRecord, PATCH, patches[i]) {
      RecordInverse(PATCH, patches[i]);
    }
    CountedRoundTrip(EncodeRecord, DecodeRecord, PATCH, patches, rest);
  }

  /** Decoding an encoded schedule gives it back and consumes exactly the bytes written. */
  lemma ScheduleRoundTrip(s: Schedule, rest: seq<int>)
    requires ScheduleOk(s)
    ensures DecodeSchedule(EncodeSchedule(s) + rest) == Some((s, rest))
  {
    var a, b, c := EncodeSegments(HEADER, s.header), EncodeCounted(EncodeFull, (), s.full),
                   EncodeCounted(EncodeRecord, PATCH, s.patches);
    assert EncodeSchedule(s) + rest == a + (b + (c + rest));
    SegmentsRoundTrip(HEADER, s.header, b + (c + rest));
    FullsRoundTrip(s.full, c + rest);
    PatchesRoundTrip(s.patches, rest);
  }

  /** Every field of every running request fits its place, in whichever form it is sent. */
  ghost predicate AllSendable(running: seq<LiveRequest>, snaps: map<int, Frozen>, noPlaceholder: int)
  {
    forall i :: 0 <= i < |running| ==>
      if IsPatch(running[i], snaps) then HasSchema(ToPatch(running[i], snaps, noPlaceholder), PATCH)
      else Sendable(running[i], snaps)
  }

  lemma ToWireIsOk(r: LiveRequest, snaps: map<int, Frozen>)
    requires Sendable(r, snaps)
    ensures WireOk(ToWire(r, snaps))
  {
  }

  lemma {:induction false} FullsAreOk(running: seq<LiveRequest>, snaps: map<int, Frozen>, noPlaceholder: int)
    requires AllSendable(running, snaps, noPlaceholder)
    ensures forall i :: 0 <= i < |FullOf(running, snaps)| ==> WireOk(FullOf(running, snaps)[i])
    decreases |running|
  {
    if running != [] {
      var n := |running| - 1;
      FullsAreOk(running[..n], snaps, noPlaceholder);
      if !IsPatch(running[n], snaps) {
        ToWireIsOk(running[n], snaps);
      }
    }
  }

  lemma {:induction false} PatchesAreOk(running: seq<LiveRequest>, snaps: map<int, Frozen>, noPlaceholder: int)
    requires AllSendable(running, snaps, noPlaceholder)
    ensures forall i :: 0 <= i < |PatchesOf(running, snaps, noPlaceholder)| ==>
              HasSchema(PatchesOf(running, snaps, noPlaceholder)[i], PATCH)
    decreases |running|
  {
    if running != [] {
      PatchesAreOk(running[..|running| - 1], snaps, noPlaceholder);
    }
  }

  lemma {:induction false} PartsAddUp(running: seq<LiveRequest>, snaps: map<int, Frozen>, noPlaceholder: int)
    ensures |FullOf(running, snaps)| + |PatchesOf(running, snaps, noPlaceholder)| == |running|
    decreases |running|
  {
    if running != [] {
      PartsAddUp(running[..|running| - 1], snaps, noPlaceholder);
    }
  }

  /** What the Engine sends is what the Executor reads: the full requests in order, then the patches in order,
      each running request in exactly one of the two, and the decoder stops where the encoder did. */
  lemma SentScheduleArrives(header: seq<Segment>, running: seq<LiveRequest>, snaps: map<int, Frozen>,
                            noPlaceholder: int, rest: seq<int>)
    requires HaveLayouts(header, HEADER) && Fits(SIZE, |running|) && AllSendable(running, snaps, noPlaceholder)
    ensures var s := ToSchedule(header, running, snaps, noPlaceholder);
            && DecodeSchedule(EncodeSchedule(s) + rest) == Some((s, rest))
            && |s.full| + |s.patches| == |running|
  {
    FullsAreOk(running, snaps, noPlaceholder);
    PatchesAreOk(running, snaps, noPlaceholder);
    PartsAddUp(running, snaps, noPlaceholder);
    ScheduleRoundTrip(ToSchedule(header, running, snaps, noPlaceholder), rest);
  }
}
