/** The geometry builder of lyon/src/builder.rs and lyon/src/builder/lyon_builders.rs:
    a tessellator drives a `ShapeBuilder` through callbacks that append vertices and
    triangles to two lists, which are then uploaded as a vertex and an index buffer.
    Floats are copied, never computed with, so an f32 is kept as its bit pattern. */
module Shapes {
  import opened Ints
  import opened Panics
  import Devices

  /** An f32, as its 32-bit pattern. */
  type Float32 = bv32

  /** lyon's `Point`. */
  datatype Point = Point(x: Float32, y: Float32)

  /** `easygpu::color::Rgba`, four float channels. */
  datatype Rgba = Rgba(r: Float32, g: Float32, b: Float32, a: Float32)

  /** `Vertex { position: [f32; 3], color }`. The colour is kept before its
      conversion to `Rgba8`. */
  datatype Vertex = Vertex(position: (Float32, Float32, Float32), color: Rgba)

  /** Bytes per vertex in the vertex buffer: three f32 and one `Rgba8`. */
  const VERTEX_SIZE: nat := 16

  /** `u16::MAX`: the most vertices a shape may hold, so that every vertex id fits
      in a u16 index. */
  const MAX_VERTICES: nat := 0xFFFF

  /** lyon's `GeometryBuilderError`, of which the builder returns one kind. */
  datatype GeometryBuilderError = TooManyVertices

  /** A `Result<T, GeometryBuilderError>` returned to the tessellator (unlike a panic,
      the builder goes on working after it). */
  datatype Outcome<T> = Success(value: T) | Failure(error: GeometryBuilderError)

  /** lyon's `Count` that `end_geometry` reports. */
  datatype Count = Count(vertices: u32, indices: u32)

  /** The fields of a `ShapeBuilder`, as a value. */
  datatype Builder = Builder(zdepth: Float32, defaultColor: Rgba, vertices: seq<Vertex>, indices: seq<u16>)

  /** `Shape { index_count, vertices, indices }`. */
  datatype Shape = Shape(indexCount: u32, vertices: Devices.VertexBuffer<Vertex>, indices: Devices.IndexBuffer)

  /** The invariant the builder keeps when it is driven correctly: the indices
      come in triangles, and every index names a stored vertex. */
  predicate Valid(b: Builder) {
    && |b.indices| % 3 == 0
    && forall i :: 0 <= i < |b.indices| ==> b.indices[i] as int < |b.vertices|
  }

  /** `ShapeBuilder::new_vertex`: empty attributes mean the default colour; any
      other attribute slice must be exactly one RGBA colour. The position is the
      point at the builder's depth. */
  function NewVertex(b: Builder, point: Point, attributes: seq<Float32>): (r: Result<Vertex>)
    ensures r.Err? <==> |attributes| != 0 && |attributes| != 4
    ensures r.Err? ==> r.panic == AttributesNotRgba
    ensures r.Ok? ==> r.value.position == (point.x, point.y, b.zdepth)
    ensures r.Ok? && attributes == [] ==> r.value.color == b.defaultColor
    ensures r.Ok? && attributes != [] ==>
      [r.value.color.r, r.value.color.g, r.value.color.b, r.value.color.a] == attributes
  {
    var position := (point.x, point.y, b.zdepth);
    if attributes == [] then Ok(Vertex(position, b.defaultColor))
    else if |attributes| != 4 then Err(AttributesNotRgba)
    else Ok(Vertex(position, Rgba(attributes[0], attributes[1], attributes[2], attributes[3])))
  }

  /** `ShapeBuilder::add_vertex` on the builder's value: the vertex is appended
      and its id is the former vertex count; once the list holds more than
      `MAX_VERTICES` vertices the call reports `TooManyVertices`, with the vertex
      already appended. */
  function AddVertexStep(b: Builder, point: Point, attributes: seq<Float32>): (r: Result<(Builder, Outcome<u32>)>)
    ensures r.Err? <==> NewVertex(b, point, attributes).Err?
    ensures r.Err? ==> r.panic == AttributesNotRgba
    ensures r.Ok? ==>
      && r.value.0 == b.(vertices := b.vertices + [NewVertex(b, point, attributes).value])
      && (r.value.1.Failure? <==> |b.vertices| >= MAX_VERTICES)
      && (r.value.1.Success? ==> r.value.1.value as int == |b.vertices|)
  {
    match NewVertex(b, point, attributes)
    case Err(p) => Err(p)
    case Ok(v) =>
      var id := AsU32(|b.vertices|);
      var next := b.(vertices := b.vertices + [v]);
      if |next.vertices| > MAX_VERTICES then Ok((next, Failure(TooManyVertices)))
      else Ok((next, Success(id)))
  }

  /** `add_triangle` on the builder's value: three indices, each the low 16 bits
      of its id. */
  function AddTriangleStep(b: Builder, x: u32, y: u32, z: u32): (next: Builder)
    ensures next.vertices == b.vertices && next.zdepth == b.zdepth && next.defaultColor == b.defaultColor
    ensures |next.indices| == |b.indices| + 3 && next.indices[..|b.indices|] == b.indices
    ensures next.indices[|b.indices|..] == [AsU16(x as int), AsU16(y as int), AsU16(z as int)]
  {
    b.(indices := b.indices + [AsU16(x as int), AsU16(y as int), AsU16(z as int)])
  }

  /** `prepare`: a vertex buffer of the vertices, an index buffer of the indices,
      and as many indices to draw as there are. */
  function PrepareShape(b: Builder): (s: Shape)
    ensures s.vertices.contents == b.vertices && s.indices.contents == b.indices
    ensures |b.indices| < U32_LIMIT ==> s.indexCount as int == |b.indices| == s.indices.elements as int
    ensures |b.vertices| * VERTEX_SIZE < U32_LIMIT ==> s.vertices.size as int == |b.vertices| * VERTEX_SIZE
  {
    Shape(AsU32(|b.indices|), Devices.CreateBuffer(b.vertices, VERTEX_SIZE), Devices.CreateIndex(b.indices))
  }

  /** The callbacks a tessellator makes on the builder. */
  datatype Event =
    | BeginGeometry
    | FillVertex(point: Point, attributes: seq<Float32>)
    | StrokeVertex(point: Point, attributes: seq<Float32>)
    | BasicVertex(point: Point)
    | Triangle(a: u32, b: u32, c: u32)
    | EndGeometry
    | AbortGeometry

  /** A vertex callback whose attribute slice is neither empty nor one colour. */
  predicate RejectsAttributes(e: Event) {
    (e.FillVertex? || e.StrokeVertex?) && |e.attributes| != 0 && |e.attributes| != 4
  }

  /** The builder after one callback, or the panic it raises: only a vertex with
      a malformed attribute slice panics; vertex callbacks append one vertex,
      triangles three indices, an abort empties both lists, and the other
      callbacks change nothing. No callback touches the depth or default colour. */
  function Step(b: Builder, e: Event): (r: Result<Builder>)
    ensures r.Err? <==> RejectsAttributes(e)
    ensures r.Err? ==> r.panic == AttributesNotRgba
    ensures r.Ok? ==> r.value.zdepth == b.zdepth && r.value.defaultColor == b.defaultColor
    ensures r.Ok? && (e.FillVertex? || e.StrokeVertex? || e.BasicVertex?) ==>
      r.value.indices == b.indices && |r.value.vertices| == |b.vertices| + 1
      && r.value.vertices[..|b.vertices|] == b.vertices
    ensures r.Ok? && e.Triangle? ==> r.value.vertices == b.vertices && |r.value.indices| == |b.indices| + 3
    ensures e.BeginGeometry? || e.EndGeometry? ==> r == Ok(b)
    ensures e.AbortGeometry? ==> r == Ok(b.(vertices := [], indices := []))
  {
    match e
    case BeginGeometry => Ok(b)
    case FillVertex(p, attrs) => (match AddVertexStep(b, p, attrs) case Ok(r) => Ok(r.0) case Err(x) => Err(x))
    case StrokeVertex(p, attrs) => (match AddVertexStep(b, p, attrs) case Ok(r) => Ok(r.0) case Err(x) => Err(x))
    case BasicVertex(p) => (match AddVertexStep(b, p, DefaultAttributes(b)) case Ok(r) => Ok(r.0) case Err(x) => Err(x))
    case Triangle(x, y, z) => Ok(AddTriangleStep(b, x, y, z))
    case EndGeometry => Ok(b)
    case AbortGeometry => Ok(b.(vertices := [], indices := []))
  }

  /** The default colour as an attribute slice. */
  function DefaultAttributes(b: Builder): (attrs: seq<Float32>)
    ensures |attrs| == 4
  {
    [b.defaultColor.r, b.defaultColor.g, b.defaultColor.b, b.defaultColor.a]
  }

  /** The builder after a sequence of callbacks; the first panic ends the run.
      A run panics exactly when one of its callbacks has a malformed attribute
      slice, and it never touches the depth or the default colour. */
  function Run(b: Builder, events: seq<Event>): (r: Result<Builder>)
    ensures r.Err? ==> r.panic == AttributesNotRgba
    ensures r.Err? <==> exists i :: 0 <= i < |events| && RejectsAttributes(events[i])
    ensures r.Ok? ==> r.value.zdepth == b.zdepth && r.value.defaultColor == b.defaultColor
  {
    if events == [] then Ok(b)
    else
      match Run(b, events[..|events| - 1])
      case Err(p) => Err(p)
      case Ok(mid) => Step(mid, events[|events| - 1])
  }

  /** A callback the tessellator may make in state `b` without breaking the
      invariant: triangle ids must be ids the builder has handed out and not taken
      back, i.e. below the vertex count and in u16 range. */
  predicate Sound(b: Builder, e: Event) {
    e.Triangle? ==>
      && e.a as int < |b.vertices| && e.b as int < |b.vertices| && e.c as int < |b.vertices|
      && e.a as int < U16_LIMIT && e.b as int < U16_LIMIT && e.c as int < U16_LIMIT
  }

  /** Every callback of `events` is sound in the state it is made in. */
  predicate Driven(b: Builder, events: seq<Event>) {
    if events == [] then true
    else
      && Driven(b, events[..|events| - 1])
      && match Run(b, events[..|events| - 1])
         case Err(_) => true
         case Ok(mid) => Sound(mid, events[|events| - 1])
  }

  /** An id reported as a success is sound for triangles: it names the vertex just
      appended and fits in a u16. */
  lemma AddedIdIsSound(b: Builder, point: Point, attributes: seq<Float32>)
    requires AddVertexStep(b, point, attributes).Ok? && AddVertexStep(b, point, attributes).value.1.Success?
    ensures var (next, outcome) := AddVertexStep(b, point, attributes).value;
      && outcome.value as int < |next.vertices|
      && outcome.value as int < MAX_VERTICES
      && AsU16(outcome.value as int) as int == outcome.value as int
  {
  }

  /** One sound callback keeps the invariant. */
  lemma {:induction false} StepKeepsValid(b: Builder, e: Event)
    requires Valid(b) && Sound(b, e) && Step(b, e).Ok?
    ensures Valid(Step(b, e).value)
  {
    match e
    case Triangle(x, y, z) =>
      var next := AddTriangleStep(b, x, y, z);
      forall i | 0 <= i < |next.indices|
        ensures next.indices[i] as int < |next.vertices|
      {
        if i >= |b.indices| {
          assert next.indices[i] in [AsU16(x as int), AsU16(y as int), AsU16(z as int)];
        } else {
          assert next.indices[i] == next.indices[..|b.indices|][i];
        }
      }
    case FillVertex(p, attrs) =>
    case StrokeVertex(p, attrs) =>
    case BasicVertex(p) =>
    case _ =>
  }

  /** A correctly driven run keeps the invariant: every index refers to an
      existing vertex and the index count is a multiple of 3. */
  lemma {:induction false} RunKeepsValid(b: Builder, events: seq<Event>)
    requires Valid(b) && Driven(b, events) && Run(b, events).Ok?
    ensures Valid(Run(b, events).value)
  {
    if events != [] {
      var prefix := events[..|events| - 1];
      RunKeepsValid(b, prefix);
      StepKeepsValid(Run(b, prefix).value, events[|events| - 1]);
    }
  }

  /** A shape prepared from a valid builder draws only whole triangles of
      vertices in its vertex buffer. */
  lemma ShapeDrawsTriangles(b: Builder)
    requires Valid(b) && |b.indices| < U32_LIMIT
    ensures var s := PrepareShape(b);
      && s.indexCount as int % 3 == 0
      && forall i :: 0 <= i < s.indexCount as int ==> s.indices.contents[i] as int < |s.vertices.contents|
  {
  }

  /** `ShapeBuilder`: the depth and default colour it was created with, and the
      vertex and index lists the callbacks fill. */
  class ShapeBuilder {
    var zdepth: Float32
    var defaultColor: Rgba
    var vertices: seq<Vertex>
    var indices: seq<u16>

    /** The builder's fields as a value. */
    function State(): (b: Builder)
      reads this
      ensures b.vertices == vertices && b.indices == indices
    {
      Builder(zdepth, defaultColor, vertices, indices)
    }

    /** `ShapeBuilder::new`: both lists empty. */
    constructor (zdepth: Float32, defaultColor: Rgba)
      ensures State() == Builder(zdepth, defaultColor, [], [])
      ensures Valid(State())
    {
      this.zdepth := zdepth;
      this.defaultColor := defaultColor;
      vertices := [];
      indices := [];
    }

    /** `ShapeBuilder::add_vertex`. A panic leaves the builder as it was. */
    method AddVertex(point: Point, attributes: seq<Float32>) returns (r: Result<Outcome<u32>>)
      modifies this
      ensures AddVertexStep(old(State()), point, attributes).Err? ==>
        r == Err(AttributesNotRgba) && State() == old(State())
      ensures AddVertexStep(old(State()), point, attributes).Ok? ==>
        && r == Ok(AddVertexStep(old(State()), point, attributes).value.1)
        && State() == AddVertexStep(old(State()), point, attributes).value.0
    {
      var vertex := NewVertex(State(), point, attributes);
      if vertex.Err? {
        return Err(vertex.panic);
      }
      var newId := AsU32(|vertices|);
      vertices := vertices + [vertex.value];
      if |vertices| > MAX_VERTICES {
        return Ok(Failure(TooManyVertices));
      }
      return Ok(Success(newId));
    }

    /** `FillGeometryBuilder::add_fill_vertex`: `add_vertex` with the attributes the
      fill tessellator interpolated. */
    method AddFillVertex(point: Point, attributes: seq<Float32>) returns (r: Result<Outcome<u32>>)
      modifies this
      ensures AddVertexStep(old(State()), point, attributes).Err? ==>
        r == Err(AttributesNotRgba) && State() == old(State())
      ensures AddVertexStep(old(State()), point, attributes).Ok? ==>
        && r == Ok(AddVertexStep(old(State()), point, attributes).value.1)
        && State() == AddVertexStep(old(State()), point, attributes).value.0
    {
      r := AddVertex(point, attributes);
    }

    /** `StrokeGeometryBuilder::add_stroke_vertex`: `add_vertex` with the attributes
      the stroke tessellator interpolated. */
    method AddStrokeVertex(point: Point, attributes: seq<Float32>) returns (r: Result<Outcome<u32>>)
      modifies this
      ensures AddVertexStep(old(State()), point, attributes).Err? ==>
        r == Err(AttributesNotRgba) && State() == old(State())
      ensures AddVertexStep(old(State()), point, attributes).Ok? ==>
        && r == Ok(AddVertexStep(old(State()), point, attributes).value.1)
        && State() == AddVertexStep(old(State()), point, attributes).value.0
    {
      r := AddVertex(point, attributes);
    }

    /** `BasicGeometryBuilder::add_vertex`: `add_vertex` with the default colour,
      which never panics. */
    method AddBasicVertex(point: Point) returns (r: Result<Outcome<u32>>)
      modifies this
      ensures AddVertexStep(old(State()), point, DefaultAttributes(old(State()))).Ok?
      ensures r == Ok(AddVertexStep(old(State()), point, DefaultAttributes(old(State()))).value.1)
      ensures State() == AddVertexStep(old(State()), point, DefaultAttributes(old(State()))).value.0
      ensures State().vertices[|old(vertices)|].color == defaultColor
    {
      r := AddVertex(point, DefaultAttributes(State()));
    }

    /** `GeometryBuilder::begin_geometry`: does nothing. */
    method BeginGeometry()
      ensures State() == Step(old(State()), Event.BeginGeometry).value
    {
    }

    /** `GeometryBuilder::add_triangle`. */
    method AddTriangle(a: u32, b: u32, c: u32)
      modifies this
      ensures State() == AddTriangleStep(old(State()), a, b, c)
    {
      indices := indices + [AsU16(a as int)];
      indices := indices + [AsU16(b as int)];
      indices := indices + [AsU16(c as int)];
    }

    /** `GeometryBuilder::abort_geometry`: empties both lists. */
    method AbortGeometry()
      modifies this
      ensures State() == Step(old(State()), Event.AbortGeometry).value
      ensures vertices == [] && indices == []
    {
      vertices := [];
      indices := [];
    }

    /** `GeometryBuilder::end_geometry`: reports both counts and changes nothing. */
    method EndGeometry() returns (count: Count)
      ensures |vertices| < U32_LIMIT ==> count.vertices as int == |vertices|
      ensures |indices| < U32_LIMIT ==> count.indices as int == |indices|
    {
      count := Count(AsU32(|vertices|), AsU32(|indices|));
    }

    /** `ShapeBuilder::prepare`: uploads both lists; the builder is unchanged. The
      renderer it is given only reaches the device's buffer constructors, which
      read nothing of the device. */
    function Prepare(): (s: Shape)
      reads this
      ensures s == PrepareShape(State())
    {
      PrepareShape(State())
    }

    /** The tessellator: makes the callbacks of `events` in order, stopping at the
      first panic. */
    method Replay(events: seq<Event>) returns (r: Result<()>)
      modifies this
      ensures r.Err? <==> Run(old(State()), events).Err?
      ensures r.Ok? ==> State() == Run(old(State()), events).value
    {
      ghost var start := State();
      for i := 0 to |events|
        invariant Run(start, events[..i]) == Ok(State())
      {
        assert events[..i + 1][..i] == events[..i];
        var e := events[i];
        match e {
          case BeginGeometry =>
            BeginGeometry();
          case FillVertex(p, attrs) =>
            var outcome := AddFillVertex(p, attrs);
            if outcome.Err? { assert Run(start, events[..i + 1]).Err?; RunStops(start, events, i + 1); return Err(outcome.panic); }
          case StrokeVertex(p, attrs) =>
            var outcome := AddStrokeVertex(p, attrs);
            if outcome.Err? { assert Run(start, events[..i + 1]).Err?; RunStops(start, events, i + 1); return Err(outcome.panic); }
          case BasicVertex(p) =>
            var _ := AddBasicVertex(p);
          case Triangle(x, y, z) =>
            AddTriangle(x, y, z);
          case EndGeometry =>
            var _ := EndGeometry();
          case AbortGeometry =>
            AbortGeometry();
        }
      }
      assert events[..|events|] == events;
      return Ok(());
    }
  }

  /** Once a run has panicked, running more callbacks does not undo it. */
  lemma {:induction false} RunStops(b: Builder, events: seq<Event>, n: nat)
    requires n <= |events| && Run(b, events[..n]).Err?
    ensures Run(b, events).Err?
  {
    if n < |events| {
      var prefix := events[..|events| - 1];
      assert prefix[..n] == events[..n];
      RunStops(b, prefix, n);
    } else {
      assert events[..n] == events;
    }
  }
}
