/** Length-prefixed little-endian primitives, and records of fields built from them. */
module ByteCodecs {
  import opened Arithmetic
  import opened Tokens

  function Pow256(width: nat): (p: nat)
    ensures p > 0
  {
    if width == 0 then 1 else 256 * Pow256(width - 1)
  }

  /** The low `width` bytes of `n`, lowest first. */
  function Bytes(n: int, width: nat): (s: seq<int>)
    ensures |s| == width
    decreases width
  {
    if width == 0 then [] else [n % 256] + Bytes(n / 256, width - 1)
  }

  function Value(bytes: seq<int>): int
  {
    if bytes == [] then 0 else bytes[0] + 256 * Value(bytes[1..])
  }

  lemma {:induction false} ValueOfBytes(n: int, width: nat)
    ensures 0 <= Value(Bytes(n, width)) < Pow256(width)
    ensures exists k: int :: n == Value(Bytes(n, width)) + k * Pow256(width)
    decreases width
  {
    if width == 0 {
      assert n == 0 + n * 1;
    } else {
      ValueOfBytes(n / 256, width - 1);
      var k: int :| n / 256 == Value(Bytes(n / 256, width - 1)) + k * Pow256(width - 1);
      assert Bytes(n, width)[1..] == Bytes(n / 256, width - 1);
      assert n == n % 256 + 256 * (n / 256);
      assert 256 * (k * Pow256(width - 1)) == k * Pow256(width);
      assert n == Value(Bytes(n, width)) + k * Pow256(width);
    }
  }

  // ---- Plain data ----

  datatype Kind = Unsigned(width: nat) | Signed(width: nat)

  /** Does a value survive being stored in this many bytes? */
  predicate Fits(kind: Kind, v: int)
  {
    if kind.Unsigned? then 0 <= v < Pow256(kind.width)
    else -(Pow256(kind.width) as int) <= 2 * v < Pow256(kind.width)
  }

  function Interpret(kind: Kind, bytes: seq<int>): int
  {
    var v := Value(bytes);
    if kind.Signed? && 2 * v >= Pow256(kind.width) then v - Pow256(kind.width) else v
  }

  lemma SameResidue(a: int, b: int, k: int, p: nat)
    requires a == b + k * p && p > 0 && b - p < a < b + p
    ensures a == b
  {
    if k >= 1 {
      MulGrows(1, k, p);
    } else if k <= -1 {
      MulGrows(k, -1, p);
    }
  }

  /** Storing and reading gives a value back exactly when it fits: what `static_cast` narrows is lost. */
  lemma StoredExactly(kind: Kind, v: int)
    ensures Interpret(kind, Bytes(v, kind.width)) == v <==> Fits(kind, v)
  {
    ValueOfBytes(v, kind.width);
    var stored, p := Value(Bytes(v, kind.width)), Pow256(kind.width);
    var k: int :| v == stored + k * p;
    var r := Interpret(kind, Bytes(v, kind.width));
    if Fits(kind, v) {
      if r == stored {
        SameResidue(v, r, k, p);
      } else {
        assert v == r + (k + 1) * p;
        SameResidue(v, r, k + 1, p);
      }
    }
  }

  function EncodePod(kind: Kind, v: int): (s: seq<int>)
    ensures |s| == kind.width
  {
    Bytes(v, kind.width)
  }

  function DecodePod(kind: Kind, bytes: seq<int>): Option<(int, seq<int>)>
  {
    if |bytes| < kind.width then None else Some((Interpret(kind, bytes[..kind.width]), bytes[kind.width..]))
  }

  lemma PodRoundTrip(kind: Kind, v: int, rest: seq<int>)
    requires Fits(kind, v)
    ensures DecodePod(kind, EncodePod(kind, v) + rest) == Some((v, rest))
  {
    StoredExactly(kind, v);
    assert (EncodePod(kind, v) + rest)[..kind.width] == EncodePod(kind, v);
  }

  /** `size_t`. */
  const SIZE: Kind := Unsigned(8)

  // ---- Lists, with the codec of their elements as a parameter ----

  /** One element after the other, each in its own shape. */
  function EncodeEach<S, T>(enc: (S, T) -> seq<int>, shapes: seq<S>, xs: seq<T>): seq<int>
  {
    if shapes == [] || xs == [] then [] else enc(shapes[0], xs[0]) + EncodeEach(enc, shapes[1..], xs[1..])
  }

  function DecodeEach<S, T>(dec: (S, seq<int>) -> Option<(T, seq<int>)>, shapes: seq<S>, bytes: seq<int>)
    : Option<(seq<T>, seq<int>)>
  {
    if shapes == [] then Some(([], bytes))
    else
      match dec(shapes[0], bytes)
      case None => None
      case Some((x, rest)) =>
        match DecodeEach(dec, shapes[1..], rest)
        case None => None
        case Some((xs, after)) => Some(([x] + xs, after))
  }

  /** Decoding gives `x` back and leaves whatever follows it. */
  ghost predicate Inverse<S(!new), T(!new)>(enc: (S, T) -> seq<int>, dec: (S, seq<int>) -> Option<(T, seq<int>)>,
                                            shape: S, x: T)
  {
    forall rest: seq<int> :: dec(shape, enc(shape, x) + rest) == Some((x, rest))
  }

  ghost predicate Inverses<S(!new), T(!new)>(enc: (S, T) -> seq<int>, dec: (S, seq<int>) -> Option<(T, seq<int>)>,
                                             shapes: seq<S>, xs: seq<T>)
  {
    |shapes| == |xs| && forall i :: 0 <= i < |xs| ==> Inverse(enc, dec, shapes[i], xs[i])
  }

  lemma {:induction false} EachRoundTrip<S(!new), T(!new)>(
    enc: (S, T) -> seq<int>, dec: (S, seq<int>) -> Option<(T, seq<int>)>, shapes: seq<S>, xs: seq<T>, rest: seq<int>)
    requires Inverses(enc, dec, shapes, xs)
    ensures DecodeEach(dec, shapes, EncodeEach(enc, shapes, xs) + rest) == Some((xs, rest))
    decreases |xs|
  {
    if xs != [] {
      var tail := EncodeEach(enc, shapes[1..], xs[1..]) + rest;
      assert EncodeEach(enc, shapes, xs) + rest == enc(shapes[0], xs[0]) + tail;
      assert Inverse(enc, dec, shapes[0], xs[0]);
      EachRoundTrip(enc, dec, shapes[1..], xs[1..], rest);
      assert xs == [xs[0]] + xs[1..];
    } else {
      assert EncodeEach(enc, shapes, xs) + rest == rest;
    }
  }

  /** A count, then as many elements of one shape. */
  function EncodeCounted<S, T>(enc: (S, T) -> seq<int>, shape: S, xs: seq<T>): seq<int>
  {
    EncodePod(SIZE, |xs|) + EncodeEach(enc, Fill(shape, |xs|), xs)
  }

  function DecodeCounted<S, T>(dec: (S, seq<int>) -> Option<(T, seq<int>)>, shape: S, bytes: seq<int>)
    : Option<(seq<T>, seq<int>)>
  {
    match DecodePod(SIZE, bytes)
    case None => None
    case Some((n, rest)) => if n < 0 then None else DecodeEach(dec, Fill(shape, n), rest)
  }

  lemma CountedRoundTrip<S(!new), T(!new)>(
    enc: (S, T) -> seq<int>, dec: (S, seq<int>) -> Option<(T, seq<int>)>, shape: S, xs: seq<T>, rest: seq<int>)
    requires Fits(SIZE, |xs|) && forall i :: 0 <= i < |xs| ==> Inverse(enc, dec, shape, xs[i])
    ensures DecodeCounted(dec, shape, EncodeCounted(enc, shape, xs) + rest) == Some((xs, rest))
  {
    var body := EncodeEach(enc, Fill(shape, |xs|), xs);
    assert EncodeCounted(enc, shape, xs) + rest == EncodePod(SIZE, |xs|) + (body + rest);
    PodRoundTrip(SIZE, |xs|, body + rest);
    EachRoundTrip(enc, dec, Fill(shape, |xs|), xs, rest);
  }

  // ---- Fields and records ----

  datatype Shape = PodOf(kind: Kind) | VecOf(kind: Kind)

  datatype Field = Pod(value: int) | Vec(values: seq<int>)

  ghost predicate HasShape(f: Field, s: Shape)
  {
    if s.PodOf? then f.Pod? && Fits(s.kind, f.value)
    else f.Vec? && Fits(SIZE, |f.values|) && forall i :: 0 <= i < |f.values| ==> Fits(s.kind, f.values[i])
  }

  function EncodeField(s: Shape, f: Field): seq<int>
  {
    match f
    case Pod(v) => EncodePod(s.kind, v)
    case Vec(vs) => EncodeCounted(EncodePod, s.kind, vs)
  }

  function DecodeField(s: Shape, bytes: seq<int>): Option<(Field, seq<int>)>
  {
    match s
    case PodOf(kind) =>
      (match DecodePod(kind, bytes) case None => None case Some((v, rest)) => Some((Pod(v), rest)))
    case VecOf(kind) =>
      (match DecodeCounted(DecodePod, kind, bytes) case None => None case Some((vs, rest)) => Some((Vec(vs), rest)))
  }

  lemma PodInverse(kind: Kind, v: int)
    requires Fits(kind, v)
    ensures Inverse(EncodePod, DecodePod, kind, v)
  {
    forall rest: seq<int> ensures DecodePod(kind, EncodePod(kind, v) + rest) == Some((v, rest)) {
      PodRoundTrip(kind, v, rest);
    }
  }

  lemma FieldInverse(s: Shape, f: Field)
    requires HasShape(f, s)
    ensures Inverse(EncodeField, DecodeField, s, f)
  {
    forall rest: seq<int> ensures DecodeField(s, EncodeField(s, f) + rest) == Some((f, rest)) {
      match f
      case Pod(v) => PodRoundTrip(s.kind, v, rest);
      case Vec(vs) =>
        forall i | 0 <= i < |vs| ensures Inverse(EncodePod, DecodePod, s.kind, vs[i]) {
          PodInverse(s.kind, vs[i]);
        }
        CountedRoundTrip(EncodePod, DecodePod, s.kind, vs, rest);
    }
  }

  ghost predicate HasSchema(fs: seq<Field>, schema: seq<Shape>)
  {
    |fs| == |schema| && forall i :: 0 <= i < |fs| ==> HasShape(fs[i], schema[i])
  }

  function EncodeRecord(schema: seq<Shape>, fs: seq<Field>): seq<int>
  {
    EncodeEach(EncodeField, schema, fs)
  }

  function DecodeRecord(schema: seq<Shape>, bytes: seq<int>): Option<(seq<Field>, seq<int>)>
  {
    DecodeEach(DecodeField, schema, bytes)
  }

  lemma RecordInverse(schema: seq<Shape>, fs: seq<Field>)
    requires HasSchema(fs, schema)
    ensures Inverse(EncodeRecord, DecodeRecord, schema, fs)
  {
    forall i | 0 <= i < |fs| ensures Inverse(EncodeField, DecodeField, schema[i], fs[i]) {
      FieldInverse(schema[i], fs[i]);
    }
    forall rest: seq<int> ensures DecodeRecord(schema, EncodeRecord(schema, fs) + rest) == Some((fs, rest)) {
      EachRoundTrip(EncodeField, DecodeField, schema, fs, rest);
    }
  }

  // ---- Segments: a run of fields, or a counted list of records ----

  datatype Layout = FieldsOf(schema: seq<Shape>) | RecordsOf(schema: seq<Shape>)

  datatype Segment = Fields(fields: seq<Field>) | Records(rows: seq<seq<Field>>)

  ghost predicate HasLayout(seg: Segment, layout: Layout)
  {
    if layout.FieldsOf? then seg.Fields? && HasSchema(seg.fields, layout.schema)
    else seg.Records? && Fits(SIZE, |seg.rows|)
         && forall i :: 0 <= i < |seg.rows| ==> HasSchema(seg.rows[i], layout.schema)
  }

  function EncodeSegment(layout: Layout, seg: Segment): seq<int>
  {
    match seg
    case Fields(fs) => EncodeRecord(layout.schema, fs)
    case Records(rows) => EncodeCounted(EncodeRecord, layout.schema, rows)
  }

  function DecodeSegment(layout: Layout, bytes: seq<int>): Option<(Segment, seq<int>)>
  {
    match layout
    case FieldsOf(schema) =>
      (match DecodeRecord(schema, bytes) case None => None case Some((fs, rest)) => Some((Fields(fs), rest)))
    case RecordsOf(schema) =>
      (match DecodeCounted(DecodeRecord, schema, bytes)
       case None => None
       case Some((rows, rest)) => Some((Records(rows), rest)))
  }

  lemma SegmentInverse(layout: Layout, seg: Segment)
    requires HasLayout(seg, layout)
    ensures Inverse(EncodeSegment, DecodeSegment, layout, seg)
  {
    forall rest: seq<int> ensures DecodeSegment(layout, EncodeSegment(layout, seg) + rest) == Some((seg, rest)) {
      match seg
      case Fields(fs) => RecordInverse(layout.schema, fs);
      case Records(rows) =>
        forall i | 0 <= i < |rows| ensures Inverse(EncodeRecord, DecodeRecord, layout.schema, rows[i]) {
          RecordInverse(layout.schema, rows[i]);
        }
        CountedRoundTrip(EncodeRecord, DecodeRecord, layout.schema, rows, rest);
    }
  }

  ghost predicate HaveLayouts(segs: seq<Segment>, layouts: seq<Layout>)
  {
    |segs| == |layouts| && forall i :: 0 <= i < |segs| ==> HasLayout(segs[i], layouts[i])
  }

  function EncodeSegments(layouts: seq<Layout>, segs: seq<Segment>): seq<int>
  {
    EncodeEach(EncodeSegment, layouts, segs)
  }

  function DecodeSegments(layouts: seq<Layout>, bytes: seq<int>): Option<(seq<Segment>, seq<int>)>
  {
    DecodeEach(DecodeSegment, layouts, bytes)
  }

  lemma SegmentsRoundTrip(layouts: seq<Layout>, segs: seq<Segment>, rest: seq<int>)
    requires HaveLayouts(segs, layouts)
    ensures DecodeSegments(layouts, EncodeSegments(layouts, segs) + rest) == Some((segs, rest))
  {
    forall i | 0 <= i < |segs| ensures Inverse(EncodeSegment, DecodeSegment, layouts[i], segs[i]) {
      SegmentInverse(layouts[i], segs[i]);
    }
    EachRoundTrip(EncodeSegment, DecodeSegment, layouts, segs, rest);
  }
}
