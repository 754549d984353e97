/** The byte buffer both sides walk with a running offset. */
module ByteBuffers {
  import opened Tokens
  import opened ByteCodecs
  import opened ScheduleCodecs

  lemma {:induction false} EncodeSnoc<S, T>(enc: (S, T) -> seq<int>, shapes: seq<S>, xs: seq<T>, i: nat)
    requires i < |xs| == |shapes|
    ensures EncodeEach(enc, shapes[..i + 1], xs[..i + 1]) ==
            EncodeEach(enc, shapes[..i], xs[..i]) + enc(shapes[i], xs[i])
    decreases |xs|
  {
    if i == 0 {
      assert shapes[..1][1..] == [] && xs[..1][1..] == [];
    } else {
      EncodeSnoc(enc, shapes[1..], xs[1..], i - 1);
      assert shapes[..i + 1][1..] == shapes[1..][..i] && xs[..i + 1][1..] == xs[1..][..i];
      assert shapes[..i][1..] == shapes[1..][..i - 1] && xs[..i][1..] == xs[1..][..i - 1];
    }
  }

  /** What has been written so far is never longer than the whole. */
  lemma {:induction false} EncodePrefixFits<S, T>(enc: (S, T) -> seq<int>, shapes: seq<S>, xs: seq<T>, i: nat)
    requires i <= |xs| == |shapes|
    ensures |EncodeEach(enc, shapes[..i], xs[..i])| <= |EncodeEach(enc, shapes, xs)|
    decreases |xs| - i
  {
    if i == |xs| {
      assert shapes[..i] == shapes && xs[..i] == xs;
    } else {
      EncodeSnoc(enc, shapes, xs, i);
      EncodePrefixFits(enc, shapes, xs, i + 1);
    }
  }

  /** Room for element `i`, and what a buffer that held `was` holds after it. */
  lemma EncodeStep<S, T>(was: seq<int>, enc: (S, T) -> seq<int>, shapes: seq<S>, xs: seq<T>, i: nat)
    requires i < |xs| == |shapes|
    ensures was + EncodeEach(enc, shapes[..i + 1], xs[..i + 1]) ==
            was + EncodeEach(enc, shapes[..i], xs[..i]) + enc(shapes[i], xs[i])
    ensures |EncodeEach(enc, shapes[..i], xs[..i])| + |enc(shapes[i], xs[i])| <= |EncodeEach(enc, shapes, xs)|
  {
    EncodeSnoc(enc, shapes, xs, i);
    EncodePrefixFits(enc, shapes, xs, i + 1);
    Regroup(was, EncodeEach(enc, shapes[..i], xs[..i]), enc(shapes[i], xs[i]));
  }

  lemma Regroup(a: seq<int>, b: seq<int>, c: seq<int>)
    ensures (a + b) + c == a + (b + c)
  {
  }

  /** A request whose transfer mode is a patch is sent as one, any other in full. */
  method SplitByTransfer(running: seq<LiveRequest>, snaps: map<int, Frozen>, noPlaceholder: int)
    returns (full: seq<Wire>, patches: seq<seq<Field>>)
    ensures full == FullOf(running, snaps) && patches == PatchesOf(running, snaps, noPlaceholder)
  {
    full, patches := [], [];
    for i := 0 to |running|
      invariant full == FullOf(running[..i], snaps) && patches == PatchesOf(running[..i], snaps, noPlaceholder)
    {
      assert running[..i + 1][..i] == running[..i];
      if IsPatch(running[i], snaps) {
        patches := patches + [ToPatch(running[i], snaps, noPlaceholder)];
      } else {
        full := full + [ToWire(running[i], snaps)];
      }
    }
    assert running[..|running|] == running;
  }

  class ByteBuffer {
    const bytes: array<int>
    var offset: nat

    ghost predicate Valid()
      reads this
    {
      offset <= bytes.Length
    }

    ghost function Written(): seq<int>
      reads this, bytes
      requires Valid()
    {
      bytes[..offset]
    }

    ghost function Rest(): seq<int>
      reads this, bytes
      requires Valid()
    {
      bytes[offset..]
    }

    ghost predicate HasRoom(n: nat)
      reads this
    {
      Valid() && offset + n <= bytes.Length
    }

    constructor (bytes: array<int>)
      ensures Valid() && this.bytes == bytes && offset == 0
    {
      this.bytes := bytes;
      offset := 0;
    }

    /** `memcpy`, then the offset moves on. */
    method Put(data: seq<int>)
      requires HasRoom(|data|)
      modifies this`offset, bytes
      ensures Valid() && Written() == old(Written()) + data
    {
      for i := 0 to |data|
        modifies bytes
        invariant bytes[..offset] == old(bytes[..offset])
        invariant bytes[offset..offset + i] == data[..i]
      {
        bytes[offset + i] := data[i];
      }
      assert bytes[..offset + |data|] == bytes[..offset] + bytes[offset..offset + |data|];
      offset := offset + |data|;
    }

    method SerializePod(kind: Kind, v: int)
      requires HasRoom(kind.width)
      modifies this`offset, bytes
      ensures Valid() && Written() == old(Written()) + EncodePod(kind, v)
    {
      Put(EncodePod(kind, v));
    }

    method SerializePods(kinds: seq<Kind>, vs: seq<int>)
      requires |kinds| == |vs| && HasRoom(|EncodeEach(EncodePod, kinds, vs)|)
      modifies this`offset, bytes
      ensures Valid() && Written() == old(Written()) + EncodeEach(EncodePod, kinds, vs)
    {
      ghost var was := Written();
      for i := 0 to |vs|
        invariant Valid() && Written() == was + EncodeEach(EncodePod, kinds[..i], vs[..i])
      {
        EncodeStep(was, EncodePod, kinds, vs, i);
        SerializePod(kinds[i], vs[i]);
      }
      assert kinds[..|vs|] == kinds && vs[..|vs|] == vs;
    }

    /** A count, then the elements. */
    method SerializeVector(kind: Kind, vs: seq<int>)
      requires HasRoom(|EncodeCounted(EncodePod, kind, vs)|)
      modifies this`offset, bytes
      ensures Valid() && Written() == old(Written()) + EncodeCounted(EncodePod, kind, vs)
    {
      Regroup(Written(), EncodePod(SIZE, |vs|), EncodeEach(EncodePod, Fill(kind, |vs|), vs));
      SerializePod(SIZE, |vs|);
      SerializePods(Fill(kind, |vs|), vs);
    }

    method SerializeField(s: Shape, f: Field)
      requires HasRoom(|EncodeField(s, f)|)
      modifies this`offset, bytes
      ensures Valid() && Written() == old(Written()) + EncodeField(s, f)
    {
      match f
      case Pod(v) => SerializePod(s.kind, v);
      case Vec(vs) => SerializeVector(s.kind, vs);
    }

    /** The fields of one record, in order. */
    method SerializeRecord(schema: seq<Shape>, fs: seq<Field>)
      requires |schema| == |fs| && HasRoom(|EncodeRecord(schema, fs)|)
      modifies this`offset, bytes
      ensures Valid() && Written() == old(Written()) + EncodeRecord(schema, fs)
    {
      ghost var was := Written();
      for i := 0 to |fs|
        invariant Valid() && Written() == was + EncodeEach(EncodeField, schema[..i], fs[..i])
      {
        EncodeStep(was, EncodeField, schema, fs, i);
        SerializeField(schema[i], fs[i]);
      }
      assert schema[..|fs|] == schema && fs[..|fs|] == fs;
    }

    method SerializeRows(schemas: seq<seq<Shape>>, rows: seq<seq<Field>>)
      requires |schemas| == |rows| && forall i :: 0 <= i < |rows| ==> |rows[i]| == |schemas[i]|
      requires HasRoom(|EncodeEach(EncodeRecord, schemas, rows)|)
      modifies this`offset, bytes
      ensures Valid() && Written() == old(Written()) + EncodeEach(EncodeRecord, schemas, rows)
    {
      ghost var was := Written();
      for i := 0 to |rows|
        invariant Valid() && Written() == was + EncodeEach(EncodeRecord, schemas[..i], rows[..i])
      {
        EncodeStep(was, EncodeRecord, schemas, rows, i);
        SerializeRecord(schemas[i], rows[i]);
      }
      assert schemas[..|rows|] == schemas && rows[..|rows|] == rows;
    }

    method SerializeRecords(schema: seq<Shape>, rows: seq<seq<Field>>)
      requires forall i :: 0 <= i < |rows| ==> |rows[i]| == |schema|
      requires HasRoom(|EncodeCounted(EncodeRecord, schema, rows)|)
      modifies this`offset, bytes
      ensures Valid() && Written() == old(Written()) + EncodeCounted(EncodeRecord, schema, rows)
    {
      Regroup(Written(), EncodePod(SIZE, |rows|), EncodeEach(EncodeRecord, Fill(schema, |rows|), rows));
      SerializePod(SIZE, |rows|);
      SerializeRows(Fill(schema, |rows|), rows);
    }

    method SerializeSegment(layout: Layout, seg: Segment)
      requires Matches(layout, seg) && HasRoom(|EncodeSegment(layout, seg)|)
      modifies this`offset, bytes
      ensures Valid() && Written() == old(Written()) + EncodeSegment(layout, seg)
    {
      match seg
      case Fields(fs) => SerializeRecord(layout.schema, fs);
      case Records(rows) => SerializeRecords(layout.schema, rows);
    }

    method SerializeSegments(layouts: seq<Layout>, segs: seq<Segment>)
      requires AllMatch(layouts, segs) && HasRoom(|EncodeSegments(layouts, segs)|)
      modifies this`offset, bytes
      ensures Valid() && Written() == old(Written()) + EncodeSegments(layouts, segs)
    {
      ghost var was := Written();
      for i := 0 to |segs|
        invariant Valid() && Written() == was + EncodeEach(EncodeSegment, layouts[..i], segs[..i])
      {
        EncodeStep(was, EncodeSegment, layouts, segs, i);
        SerializeSegment(layouts[i], segs[i]);
      }
      assert layouts[..|segs|] == layouts && segs[..|segs|] == segs;
    }

    /** `SerializeInferRequests`, for one request. */
    method SerializeWire(x: Wire)
      requires WireOk(x) && HasRoom(|EncodeWire(x)|)
      modifies this`offset, bytes
      ensures Valid() && Written() == old(Written()) + EncodeWire(x)
    {
      ghost var was := Written();
      LayoutsMatch(FRONT, x.front);
      SerializeSegments(FRONT, x.front);
      SerializeEmbedding(x.embedding, StageOf(x.front) == Some(CONTEXT_STAGE));
      SerializeBack(x.generator, x.back);
      Regroup(was, EncodeSegments(FRONT, x.front), EncodeEmbedding(x.embedding));
      Regroup(was, EncodeSegments(FRONT, x.front), EncodeEmbedding(x.embedding) + EncodeBack(x.generator, x.back));
      Regroup(was + EncodeSegments(FRONT, x.front), EncodeEmbedding(x.embedding), EncodeBack(x.generator, x.back));
    }

    /** The embedding is sent in the context stage only. */
    method SerializeEmbedding(embedding: seq<Segment>, context: bool)
      requires if context then HaveLayouts(embedding, EMBEDDING) else embedding == []
      requires HasRoom(|EncodeEmbedding(embedding)|)
      modifies this`offset, bytes
      ensures Valid() && Written() == old(Written()) + EncodeEmbedding(embedding)
    {
      if context {
        LayoutsMatch(EMBEDDING, embedding);
        SerializeSegments(EMBEDDING, embedding);
      } else {
        assert EncodeEmbedding(embedding) == [];
      }
    }

    /** The flag, and the generator's configuration only if it is set. */
    method SerializeGenerator(generator: Option<seq<Segment>>)
      requires generator.Some? ==> HaveLayouts(generator.value, GENERATOR)
      requires HasRoom(|EncodeGenerator(generator)|)
      modifies this`offset, bytes
      ensures Valid() && Written() == old(Written()) + EncodeGenerator(generator)
    {
      ghost var was := Written();
      assert AllMatch(FLAG, FlagSegment(generator.Some?));
      SerializeSegments(FLAG, FlagSegment(generator.Some?));
      if generator.Some? {
        LayoutsMatch(GENERATOR, generator.value);
        SerializeSegments(GENERATOR, generator.value);
        Regroup(was, EncodeSegments(FLAG, FlagSegment(true)), EncodeSegments(GENERATOR, generator.value));
      }
    }

    method SerializeBack(generator: Option<seq<Segment>>, back: seq<Segment>)
      requires (generator.Some? ==> HaveLayouts(generator.value, GENERATOR)) && HaveLayouts(back, BACK)
      requires HasRoom(|EncodeBack(generator, back)|)
      modifies this`offset, bytes
      ensures Valid() && Written() == old(Written()) + EncodeBack(generator, back)
    {
      Regroup(Written(), EncodeGenerator(generator), EncodeSegments(BACK, back));
      LayoutsMatch(BACK, back);
      SerializeGenerator(generator);
      SerializeSegments(BACK, back);
    }

    /** `SerializeInferRequests`: a count, then each full request. */
    method SerializeFullRequests(full: seq<Wire>)
      requires (forall x :: x in full ==> WireOk(x)) && HasRoom(|EncodeCounted(EncodeFull, (), full)|)
      modifies this`offset, bytes
      ensures Valid() && Written() == old(Written()) + EncodeCounted(EncodeFull, (), full)
    {
      ghost var units := Fill((), |full|);
      Regroup(Written(), EncodePod(SIZE, |full|), EncodeEach(EncodeFull, units, full));
      SerializePod(SIZE, |full|);
      ghost var was := Written();
      for i := 0 to |full|
        invariant Valid() && Written() == was + EncodeEach(EncodeFull, units[..i], full[..i])
      {
        EncodeStep(was, EncodeFull, units, full, i);
        SerializeWire(full[i]);
      }
      assert units[..|full|] == units && full[..|full|] == full;
    }

    method SerializeSchedule(s: Schedule)
      requires ScheduleOk(s) && HasRoom(|EncodeSchedule(s)|)
      modifies this`offset, bytes
      ensures Valid() && Written() == old(Written()) + EncodeSchedule(s)
    {
      ghost var was, a, b, c := Written(), EncodeSegments(HEADER, s.header), EncodeCounted(EncodeFull, (), s.full),
                                EncodeCounted(EncodeRecord, PATCH, s.patches);
      LayoutsMatch(HEADER, s.header);
      SerializeSegments(HEADER, s.header);
      SerializeFullRequests(s.full);
      SerializeRecords(PATCH, s.patches);
      Regroup(was, a, b + c);
      Regroup(was + a, b, c);
    }

    /** `SerializeScheduleOutput`: splits the running requests by transfer mode, then writes both parts. */
    method SerializeScheduleOutput(header: seq<Segment>, running: seq<LiveRequest>, snaps: map<int, Frozen>,
                                   noPlaceholder: int)
      requires HaveLayouts(header, HEADER) && Fits(SIZE, |running|) && AllSendable(running, snaps, noPlaceholder)
      requires HasRoom(|EncodeSchedule(ToSchedule(header, running, snaps, noPlaceholder))|)
      modifies this`offset, bytes
      ensures Valid()
      ensures Written() == old(Written()) + EncodeSchedule(ToSchedule(header, running, snaps, noPlaceholder))
    {
      var full, patches := SplitByTransfer(running, snaps, noPlaceholder);
      FullsAreOk(running, snaps, noPlaceholder);
      PatchesAreOk(running, snaps, noPlaceholder);
      PartsAddUp(running, snaps, noPlaceholder);
      SerializeSchedule(Schedule(header, full, patches));
    }

    // ---- Reading back ----

    method DeserializePod(kind: Kind) returns (v: int)
      requires Valid() && DecodePod(kind, Rest()).Some?
      modifies this`offset
      ensures Valid() && DecodePod(kind, old(Rest())) == Some((v, Rest()))
    {
      assert bytes[offset..][..kind.width] == bytes[offset..offset + kind.width];
      v := Interpret(kind, bytes[offset..offset + kind.width]);
      offset := offset + kind.width;
    }

    method DeserializePods(kinds: seq<Kind>) returns (vs: seq<int>)
      requires Valid() && DecodeEach(DecodePod, kinds, Rest()).Some?
      modifies this`offset
      ensures Valid() && DecodeEach(DecodePod, kinds, old(Rest())) == Some((vs, Rest()))
    {
      ghost var start := Rest();
      vs := [];
      ResumeStart(DecodePod, kinds, start);
      for i := 0 to |kinds|
        invariant Valid() && Resumes(DecodePod, kinds, start, i, vs, Rest())
      {
        ResumeStep(DecodePod, kinds, start, i, vs, Rest());
        var v := DeserializePod(kinds[i]);
        vs := vs + [v];
      }
      ResumeEnd(DecodePod, kinds, start, vs, Rest());
    }

    method DeserializeVector(kind: Kind) returns (vs: seq<int>)
      requires Valid() && DecodeCounted(DecodePod, kind, Rest()).Some?
      modifies this`offset
      ensures Valid() && DecodeCounted(DecodePod, kind, old(Rest())) == Some((vs, Rest()))
    {
      var n := DeserializePod(SIZE);
      vs := DeserializePods(Fill(kind, n));
    }

    method DeserializeField(s: Shape) returns (f: Field)
      requires Valid() && DecodeField(s, Rest()).Some?
      modifies this`offset
      ensures Valid() && DecodeField(s, old(Rest())) == Some((f, Rest()))
    {
      match s
      case PodOf(kind) =>
        var v := DeserializePod(kind);
        f := Pod(v);
      case VecOf(kind) =>
        var vs := DeserializeVector(kind);
        f := Vec(vs);
    }

    method DeserializeRecord(schema: seq<Shape>) returns (fs: seq<Field>)
      requires Valid() && DecodeRecord(schema, Rest()).Some?
      modifies this`offset
      ensures Valid() && DecodeRecord(schema, old(Rest())) == Some((fs, Rest()))
    {
      ghost var start := Rest();
      fs := [];
      ResumeStart(DecodeField, schema, start);
      for i := 0 to |schema|
        invariant Valid() && Resumes(DecodeField, schema, start, i, fs, Rest())
      {
        ResumeStep(DecodeField, schema, start, i, fs, Rest());
        var f := DeserializeField(schema[i]);
        fs := fs + [f];
      }
      ResumeEnd(DecodeField, schema, start, fs, Rest());
    }

    method DeserializeRows(schemas: seq<seq<Shape>>) returns (rows: seq<seq<Field>>)
      requires Valid() && DecodeEach(DecodeRecord, schemas, Rest()).Some?
      modifies this`offset
      ensures Valid() && DecodeEach(DecodeRecord, schemas, old(Rest())) == Some((rows, Rest()))
    {
      ghost var start := Rest();
      rows := [];
      ResumeStart(DecodeRecord, schemas, start);
      for i := 0 to |schemas|
        invariant Valid() && Resumes(DecodeRecord, schemas, start, i, rows, Rest())
      {
        ResumeStep(DecodeRecord, schemas, start, i, rows, Rest());
        var fs := DeserializeRecord(schemas[i]);
        rows := rows + [fs];
      }
      ResumeEnd(DecodeRecord, schemas, start, rows, Rest());
    }

    method DeserializeRecords(schema: seq<Shape>) returns (rows: seq<seq<Field>>)
      requires Valid() && DecodeCounted(DecodeRecord, schema, Rest()).Some?
      modifies this`offset
      ensures Valid() && DecodeCounted(DecodeRecord, schema, old(Rest())) == Some((rows, Rest()))
    {
      var n := DeserializePod(SIZE);
      rows := DeserializeRows(Fill(schema, n));
    }

    method DeserializeSegment(layout: Layout) returns (seg: Segment)
      requires Valid() && DecodeSegment(layout, Rest()).Some?
      modifies this`offset
      ensures Valid() && DecodeSegment(layout, old(Rest())) == Some((seg, Rest()))
    {
      match layout
      case FieldsOf(schema) =>
        var fs := DeserializeRecord(schema);
        seg := Fields(fs);
      case RecordsOf(schema) =>
        var rows := DeserializeRecords(schema);
        seg := Records(rows);
    }

    method DeserializeSegments(layouts: seq<Layout>) returns (segs: seq<Segment>)
      requires Valid() && DecodeSegments(layouts, Rest()).Some?
      modifies this`offset
      ensures Valid() && DecodeSegments(layouts, old(Rest())) == Some((segs, Rest()))
    {
      ghost var start := Rest();
      segs := [];
      ResumeStart(DecodeSegment, layouts, start);
      for i := 0 to |layouts|
        invariant Valid() && Resumes(DecodeSegment, layouts, start, i, segs, Rest())
      {
        ResumeStep(DecodeSegment, layouts, start, i, segs, Rest());
        var seg := DeserializeSegment(layouts[i]);
        segs := segs + [seg];
      }
      ResumeEnd(DecodeSegment, layouts, start, segs, Rest());
    }

    method DeserializeGenerator() returns (generator: Option<seq<Segment>>)
      requires Valid() && DecodeGenerator(Rest()).Some?
      modifies this`offset
      ensures Valid() && DecodeGenerator(old(Rest())) == Some((generator, Rest()))
    {
      var flag := DeserializeSegments(FLAG);
      if FlagSet(flag) {
        var config := DeserializeSegments(GENERATOR);
        generator := Some(config);
      } else {
        generator := None;
      }
    }

    /** `DeserializeInferRequests`, for one request: the stage just read decides on the embedding. */
    method DeserializeWire() returns (x: Wire)
      requires Valid() && DecodeWire(Rest()).Some?
      modifies this`offset
      ensures Valid() && DecodeWire(old(Rest())) == Some((x, Rest()))
    {
      var front := DeserializeSegments(FRONT);
      var embedding := DeserializeSegments(if StageOf(front) == Some(CONTEXT_STAGE) then EMBEDDING else []);
      var generator := DeserializeGenerator();
      var back := DeserializeSegments(BACK);
      x := Wire(front, embedding, generator, back);
    }

    method DeserializeFullRequests() returns (full: seq<Wire>)
      requires Valid() && DecodeCounted(DecodeFull, (), Rest()).Some?
      modifies this`offset
      ensures Valid() && DecodeCounted(DecodeFull, (), old(Rest())) == Some((full, Rest()))
    {
      var n := DeserializePod(SIZE);
      ghost var start, units := Rest(), Fill((), n);
      full := [];
      ResumeStart(DecodeFull, units, start);
      for i := 0 to n
        invariant Valid() && Resumes(DecodeFull, units, start, i, full, Rest())
      {
        ResumeStep(DecodeFull, units, start, i, full, Rest());
        var x := DeserializeWire();
        full := full + [x];
      }
      ResumeEnd(DecodeFull, units, start, full, Rest());
    }

    /** `DeserializeScheduleOutput`. */
    method DeserializeScheduleOutput() returns (s: Schedule)
      requires Valid() && DecodeSchedule(Rest()).Some?
      modifies this`offset
      ensures Valid() && DecodeSchedule(old(Rest())) == Some((s, Rest()))
    {
      var header := DeserializeSegments(HEADER);
      var full := DeserializeFullRequests();
      var patches := DeserializeRecords(PATCH);
      s := Schedule(header, full, patches);
    }
  }

  /** A segment of the right form: as many fields as the layout has, in every record. */
  ghost predicate Matches(layout: Layout, seg: Segment)
  {
    if layout.FieldsOf? then seg.Fields? && |seg.fields| == |layout.schema|
    else seg.Records? && forall i :: 0 <= i < |seg.rows| ==> |seg.rows[i]| == |layout.schema|
  }

  ghost predicate AllMatch(layouts: seq<Layout>, segs: seq<Segment>)
  {
    |layouts| == |segs| && forall i :: 0 <= i < |segs| ==> Matches(layouts[i], segs[i])
  }

  lemma LayoutsMatch(layouts: seq<Layout>, segs: seq<Segment>)
    requires HaveLayouts(segs, layouts)
    ensures AllMatch(layouts, segs)
  {
    forall i | 0 <= i < |segs| ensures Matches(layouts[i], segs[i]) {
      assert HasLayout(segs[i], layouts[i]);
    }
  }

  /** Decoding from `start` has given `xs`, and goes on with element `i` at `rest`. */
  ghost predicate Resumes<S, T>(dec: (S, seq<int>) -> Option<(T, seq<int>)>, shapes: seq<S>, start: seq<int>, i: nat,
                                xs: seq<T>, rest: seq<int>)
  {
    && i <= |shapes| && DecodeEach(dec, shapes[i..], rest).Some?
    && var todo := DecodeEach(dec, shapes[i..], rest).value;
       DecodeEach(dec, shapes, start) == Some((xs + todo.0, todo.1))
  }

  lemma ResumeStart<S, T>(dec: (S, seq<int>) -> Option<(T, seq<int>)>, shapes: seq<S>, start: seq<int>)
    requires DecodeEach(dec, shapes, start).Some?
    ensures Resumes(dec, shapes, start, 0, [], start)
  {
    assert shapes[0..] == shapes;
    var all := DecodeEach(dec, shapes, start).value;
    assert [] + all.0 == all.0;
  }

  lemma ResumeEnd<S, T>(dec: (S, seq<int>) -> Option<(T, seq<int>)>, shapes: seq<S>, start: seq<int>, xs: seq<T>,
                        rest: seq<int>)
    requires Resumes(dec, shapes, start, |shapes|, xs, rest)
    ensures DecodeEach(dec, shapes, start) == Some((xs, rest))
  {
    assert shapes[|shapes|..] == [];
    assert xs + [] == xs;
  }

  lemma ResumeStep<S, T>(dec: (S, seq<int>) -> Option<(T, seq<int>)>, shapes: seq<S>, start: seq<int>, i: nat,
                         xs: seq<T>, rest: seq<int>)
    requires i < |shapes| && Resumes(dec, shapes, start, i, xs, rest)
    ensures dec(shapes[i], rest).Some?
    ensures var (x, after) := dec(shapes[i], rest).value;
            Resumes(dec, shapes, start, i + 1, xs + [x], after)
  {
    var (x, after) := dec(shapes[i], rest).value;
    assert shapes[i..][1..] == shapes[i + 1..];
    var todo := DecodeEach(dec, shapes[i + 1..], after).value;
    assert xs + ([x] + todo.0) == xs + [x] + todo.0;
  }

  /** `GetSerializedSize`: every packet has this size, whatever it carries. */
  const PACKET_BYTES: nat := 0x400_0000

  /** `PutSendScheduleOutput`: a schedule no longer than a packet is written to its start. */
  method Send(header: seq<Segment>, running: seq<LiveRequest>, snaps: map<int, Frozen>, noPlaceholder: int)
    returns (packet: array<int>, size: nat)
    requires HaveLayouts(header, HEADER) && Fits(SIZE, |running|) && AllSendable(running, snaps, noPlaceholder)
    requires |EncodeSchedule(ToSchedule(header, running, snaps, noPlaceholder))| <= PACKET_BYTES
    ensures fresh(packet) && packet.Length == PACKET_BYTES && size <= packet.Length
    ensures packet[..size] == EncodeSchedule(ToSchedule(header, running, snaps, noPlaceholder))
  {
    packet := new int[PACKET_BYTES](_ => 0);
    var sender := new ByteBuffer(packet);
    ghost var before := sender.Written();
    sender.SerializeScheduleOutput(header, running, snaps, noPlaceholder);
    size := sender.offset;
    WrittenFromStart(sender, before, EncodeSchedule(ToSchedule(header, running, snaps, noPlaceholder)));
  }

  lemma WrittenFromStart(b: ByteBuffer, before: seq<int>, data: seq<int>)
    requires b.Valid() && before == [] && b.Written() == before + data
    ensures b.offset == |data| && b.bytes[..b.offset] == data
  {
  }

  method Receive(bytes: array<int>) returns (s: Schedule)
    requires DecodeSchedule(bytes[..]).Some?
    ensures s == DecodeSchedule(bytes[..]).value.0
  {
    var receiver := new ByteBuffer(bytes);
    assert bytes[0..] == bytes[..];
    s := receiver.DeserializeScheduleOutput();
  }

  /** A packet that starts with a schedule reads as that schedule. */
  lemma PacketArrives(header: seq<Segment>, running: seq<LiveRequest>, snaps: map<int, Frozen>, noPlaceholder: int,
                      packet: seq<int>, size: nat)
    requires HaveLayouts(header, HEADER) && Fits(SIZE, |running|) && AllSendable(running, snaps, noPlaceholder)
    requires size <= |packet| && packet[..size] == EncodeSchedule(ToSchedule(header, running, snaps, noPlaceholder))
    ensures DecodeSchedule(packet) == Some((ToSchedule(header, running, snaps, noPlaceholder), packet[size..]))
  {
    SentScheduleArrives(header, running, snaps, noPlaceholder, packet[size..]);
    assert packet[..size] + packet[size..] == packet;
  }

  /** What the sender's code writes is what the receiver's code reads, though the packet goes on behind it. */
  method SendAndReceive(header: seq<Segment>, running: seq<LiveRequest>, snaps: map<int, Frozen>, noPlaceholder: int)
    returns (s: Schedule)
    requires HaveLayouts(header, HEADER) && Fits(SIZE, |running|) && AllSendable(running, snaps, noPlaceholder)
    requires |EncodeSchedule(ToSchedule(header, running, snaps, noPlaceholder))| <= PACKET_BYTES
    ensures s == ToSchedule(header, running, snaps, noPlaceholder)
  {
    var packet, size := Send(header, running, snaps, noPlaceholder);
    ghost var data := packet[..];
    assert data[..size] == packet[..size];
    PacketArrives(header, running, snaps, noPlaceholder, data, size);
    s := Receive(packet);
  }
}
