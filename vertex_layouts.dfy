/** Vertex buffer layouts (easygpu/src/vertex.rs): a list of vertex formats becomes
    a list of attributes with sequential shader locations and byte offsets that are
    the running total of the format sizes; the total is the stride of one vertex. */
module VertexLayouts {
  import opened Ints

  /** `VertexFormat`, the formats a vertex attribute may have. */
  datatype VertexFormat = Float | Float2 | Float3 | Float4 | UByte4

  /** `VertexFormat::bytesize`: the number of bytes the format occupies. */
  function ByteSize(f: VertexFormat): (n: nat)
    ensures 4 <= n <= 16 && n % 4 == 0
    ensures n == 4 <==> f == Float || f == UByte4
  {
    match f
    case Float => 4
    case Float2 => 8
    case Float3 => 12
    case Float4 => 16
    case UByte4 => 4
  }

  /** The native vertex formats of the newer wgpu release. */
  datatype WgpuVertexFormat = Float32 | Float32x2 | Float32x3 | Float32x4 | Unorm8x4

  /** `wgpu::VertexFormat::size` of the newer wgpu release: the bytes one value
      of the native format occupies. */
  function NativeSize(w: WgpuVertexFormat): nat {
    match w
    case Float32 => 4
    case Float32x2 => 8
    case Float32x3 => 12
    case Float32x4 => 16
    case Unorm8x4 => 4
  }

  /** `VertexFormat::to_wgpu` of the newer revision: the native format occupies
      as many bytes as `bytesize` reports, so offsets computed from `ByteSize` are
      native offsets. */
  function ToWgpu(f: VertexFormat): (w: WgpuVertexFormat)
    ensures NativeSize(w) == ByteSize(f)
  {
    match f
    case Float => Float32
    case Float2 => Float32x2
    case Float3 => Float32x3
    case Float4 => Float32x4
    case UByte4 => Unorm8x4
  }

  /** Distinct formats map to distinct native formats, and the mapping keeps the
      size: each FloatN becomes an N-component 32-bit float, UByte4 four bytes. */
  lemma ToWgpuInjective(f: VertexFormat, g: VertexFormat)
    ensures ToWgpu(f) == ToWgpu(g) ==> f == g
    ensures ToWgpu(f) == Unorm8x4 <==> f == UByte4
  {
  }

  /** One vertex attribute: its location in the shader, its byte offset within a
      vertex, and its native format (of type `F`, which differs between wgpu
      releases). */
  datatype VertexAttribute<F> = VertexAttribute(shaderLocation: u32, offset: nat, format: F)

  /** `VertexLayout { wgpu_attrs, size }`. */
  datatype VertexLayout<F> = VertexLayout(attrs: seq<VertexAttribute<F>>, size: nat)

  datatype StepMode = PerVertex | PerInstance

  /** `wgpu::VertexBufferLayout`, what `VertexLayout::to_wgpu` hands to the pipeline. */
  datatype VertexBufferLayout<F> =
    VertexBufferLayout(arrayStride: nat, stepMode: StepMode, attributes: seq<VertexAttribute<F>>)

  /** Sum of the byte sizes of `formats`; on a prefix it is the offset at which the
      next attribute starts. */
  function TotalSize(formats: seq<VertexFormat>): nat {
    if formats == [] then 0
    else TotalSize(formats[..|formats| - 1]) + ByteSize(formats[|formats| - 1])
  }

  /** Everything `VertexLayout::from` promises about its result: one attribute per
      format in input order, attribute k at shader location k and at the offset
      where the formats before it end, and a size equal to the total. */
  ghost predicate IsLayoutOf<F>(vl: VertexLayout<F>, formats: seq<VertexFormat>, toWgpu: VertexFormat -> F) {
    && |vl.attrs| == |formats|
    && (forall k :: 0 <= k < |formats| ==>
          vl.attrs[k] == VertexAttribute(AsU32(k), TotalSize(formats[..k]), toWgpu(formats[k])))
    && vl.size == TotalSize(formats)
  }

  /** The attributes the loop of `VertexLayout::from` has pushed after visiting
      `formats`, one push per format. */
  function Pushed<F>(formats: seq<VertexFormat>, toWgpu: VertexFormat -> F): (attrs: seq<VertexAttribute<F>>)
    ensures |attrs| == |formats|
  {
    if formats == [] then []
    else
      var before := formats[..|formats| - 1];
      Pushed(before, toWgpu) + [VertexAttribute(AsU32(|before|), TotalSize(before), toWgpu(formats[|formats| - 1]))]
  }

  /** The k-th pushed attribute is the one for the k-th format. */
  lemma {:induction false} PushedAt<F>(formats: seq<VertexFormat>, toWgpu: VertexFormat -> F, k: nat)
    requires k < |formats|
    ensures Pushed(formats, toWgpu)[k] == VertexAttribute(AsU32(k), TotalSize(formats[..k]), toWgpu(formats[k]))
  {
    var before := formats[..|formats| - 1];
    if k < |before| {
      PushedAt(before, toWgpu, k);
      assert before[..k] == formats[..k];
    }
  }

  /** `VertexLayout::from`: the loop that pushes one attribute per format and adds
      the format's size to the running size. `toWgpu` is the revision's
      `VertexFormat::to_wgpu`. */
  method From<F>(formats: seq<VertexFormat>, toWgpu: VertexFormat -> F) returns (vl: VertexLayout<F>)
    ensures IsLayoutOf(vl, formats, toWgpu)
    ensures formats == [] ==> vl.attrs == [] && vl.size == 0
  {
    vl := VertexLayout([], 0);
    for i := 0 to |formats|
      invariant vl.attrs == Pushed(formats[..i], toWgpu)
      invariant vl.size == TotalSize(formats[..i])
    {
      assert formats[..i + 1][..i] == formats[..i];
      vl := VertexLayout(vl.attrs + [VertexAttribute(AsU32(|vl.attrs|), vl.size, toWgpu(formats[i]))],
                         vl.size + ByteSize(formats[i]));
    }
    assert formats[..|formats|] == formats;
    forall k | 0 <= k < |formats|
      ensures vl.attrs[k] == VertexAttribute(AsU32(k), TotalSize(formats[..k]), toWgpu(formats[k]))
    {
      PushedAt(formats, toWgpu, k);
    }
  }

  /** `VertexLayout::to_wgpu`: the layout's attributes, unchanged, stepped per
      vertex with the layout's size as stride. */
  function ToWgpuLayout<F>(vl: VertexLayout<F>): (b: VertexBufferLayout<F>)
    ensures b.stepMode == PerVertex
    ensures b.arrayStride == vl.size && b.attributes == vl.attrs
  {
    VertexBufferLayout(vl.size, PerVertex, vl.attrs)
  }

  /** The running total grows with every format: it strictly increases along the
      prefixes, stays a multiple of 4, and no prefix exceeds the whole. */
  lemma {:induction false} TotalSizeMonotone(formats: seq<VertexFormat>, i: nat, j: nat)
    requires i < j <= |formats|
    ensures TotalSize(formats[..i]) + ByteSize(formats[i]) <= TotalSize(formats[..j])
    ensures TotalSize(formats[..i]) < TotalSize(formats[..j])
  {
    var p := formats[..j];
    assert p[..|p| - 1] == formats[..j - 1];
    if i < j - 1 {
      TotalSizeMonotone(formats, i, j - 1);
    } else {
      assert formats[..i] == p[..|p| - 1];
    }
  }

  /** Every total is a multiple of 4, since every format's size is. */
  lemma {:induction false} TotalSizeAligned(formats: seq<VertexFormat>)
    ensures TotalSize(formats) % 4 == 0
  {
    if formats != [] {
      TotalSizeAligned(formats[..|formats| - 1]);
    }
  }

  /** What the pipeline receives for a layout built by `From`: the stride is the
      sum of all format sizes (0 for no formats) and a multiple of 4; there is one
      attribute per format, carrying that format's native format; attribute k is
      at location k (for fewer than 2^32 formats); offsets strictly increase; and
      every attribute ends within the stride. */
  lemma BufferLayoutWellFormed<F>(vl: VertexLayout<F>, formats: seq<VertexFormat>, toWgpu: VertexFormat -> F)
    requires IsLayoutOf(vl, formats, toWgpu)
    ensures ToWgpuLayout(vl).arrayStride == TotalSize(formats)
    ensures ToWgpuLayout(vl).arrayStride % 4 == 0
    ensures |ToWgpuLayout(vl).attributes| == |formats|
    ensures forall k :: 0 <= k < |formats| ==> ToWgpuLayout(vl).attributes[k].format == toWgpu(formats[k])
    ensures |formats| < U32_LIMIT ==>
      forall k :: 0 <= k < |formats| ==> ToWgpuLayout(vl).attributes[k].shaderLocation as int == k
    ensures forall i, j :: 0 <= i < j < |formats| ==>
      ToWgpuLayout(vl).attributes[i].offset < ToWgpuLayout(vl).attributes[j].offset
    ensures forall k :: 0 <= k < |formats| ==>
      ToWgpuLayout(vl).attributes[k].offset + ByteSize(formats[k]) <= ToWgpuLayout(vl).arrayStride
  {
    TotalSizeAligned(formats);
    forall i, j | 0 <= i < j < |formats|
      ensures vl.attrs[i].offset < vl.attrs[j].offset
    {
      TotalSizeMonotone(formats, i, j);
    }
    forall k | 0 <= k < |formats|
      ensures vl.attrs[k].offset + ByteSize(formats[k]) <= vl.size
    {
      TotalSizeMonotone(formats, k, |formats|);
      assert formats[..|formats|] == formats;
    }
  }
}

/** The same vertex layouts in the older revision (src/vertex.rs, and the copy in
    src/core.rs): only the names of the native formats differ. */
module LegacyVertexLayouts {
  import VL = VertexLayouts

  /** The native vertex formats of the older wgpu release. */
  datatype LegacyVertexFormat = Float | Float2 | Float3 | Float4 | Uchar4Norm

  /** `wgpu::VertexFormat::size` of the older wgpu release. */
  function NativeSize(w: LegacyVertexFormat): nat {
    match w
    case Float => 4
    case Float2 => 8
    case Float3 => 12
    case Float4 => 16
    case Uchar4Norm => 4
  }

  /** `VertexFormat::to_wgpu` of the older revision: the native format occupies as
      many bytes as `bytesize` reports. */
  function ToWgpu(f: VL.VertexFormat): (w: LegacyVertexFormat)
    ensures NativeSize(w) == VL.ByteSize(f)
  {
    match f
    case Float => Float
    case Float2 => Float2
    case Float3 => Float3
    case Float4 => Float4
    case UByte4 => Uchar4Norm
  }

  /** UByte4 becomes the normalised four-byte format, each FloatN the float format
      of the same name, and distinct formats stay distinct. */
  lemma ToWgpuInjective(f: VL.VertexFormat, g: VL.VertexFormat)
    ensures ToWgpu(f) == ToWgpu(g) ==> f == g
    ensures ToWgpu(f) == Uchar4Norm <==> f == VL.UByte4
  {
  }
}
