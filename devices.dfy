/** Descriptor numbering and buffer bookkeeping of `Device` (easygpu/src/device.rs,
    src/device.rs and the copy in src/core.rs). The native device, queue, layouts
    and buffers are left out; what the Rust code computes around them -- binding
    numbers, set indices, slot counts, byte sizes -- is kept, together with the
    values it hands to the native calls. */
module Devices {
  import opened Ints
  import opened Panics
  import Textures

  datatype Option<T> = None | Some(value: T)

  /** `Binding { binding, stage }`: one slot of a binding-group layout, of binding
      type `B` visible to the shader stages `S`. */
  datatype Binding<B, S> = Binding(binding: B, stage: S)

  /** `wgpu::BindGroupLayoutEntry`, with the native binding type `W` of the slot
      (its `count` is always `None`). */
  datatype LayoutEntry<W, S> = LayoutEntry(binding: u32, visibility: S, ty: W)

  /** `BindingGroupLayout { set_index, size }`, with the entries the native layout
      was created from. */
  datatype BindingGroupLayout<W, S> = BindingGroupLayout(setIndex: u32, entries: seq<LayoutEntry<W, S>>, size: nat)

  /** `PipelineLayout { sets }`. */
  datatype PipelineLayout<W, S> = PipelineLayout(sets: seq<BindingGroupLayout<W, S>>)

  /** `wgpu::BindGroupEntry`: what `Bind::binding(index)` returns for a resource. */
  datatype GroupEntry<R> = GroupEntry(binding: u32, resource: R)

  /** `BindingGroup { set_index }`, with the entries the native group was created from. */
  datatype BindingGroup<R> = BindingGroup(setIndex: u32, entries: seq<GroupEntry<R>>)

  /** `VertexBuffer { size }`, with the elements the native buffer was filled with. */
  datatype VertexBuffer<T> = VertexBuffer(contents: seq<T>, size: u32)

  /** `UniformBuffer { size, count }`: the size of one element and the number of them. */
  datatype UniformBuffer<T> = UniformBuffer(contents: seq<T>, size: nat, count: nat)

  /** `IndexBuffer { elements }`. */
  datatype IndexBuffer = IndexBuffer(contents: seq<u16>, elements: u32)

  /** A write of `byteCount` bytes of `data` into the uniform buffer `target`,
      reading from `sourceOffset` and writing at `destinationOffset`. */
  datatype BufferWrite<T> =
    BufferWrite(target: UniformBuffer<T>, data: seq<T>, sourceOffset: nat, destinationOffset: nat, byteCount: nat)

  /** Everything `create_binding_group_layout(index, slots)` promises: entry k is
      slot k under binding number k, the layout has one slot per entry, and it is
      placed at set `index`. */
  ghost predicate IsLayoutFor<B, W, S>(l: BindingGroupLayout<W, S>, index: u32, slots: seq<Binding<B, S>>, toWgpu: B -> W) {
    && l.setIndex == index
    && |l.entries| == |slots| == l.size
    && forall k :: 0 <= k < |slots| ==>
         l.entries[k] == LayoutEntry(AsU32(k), slots[k].stage, toWgpu(slots[k].binding))
  }

  /** Everything a successful `create_binding_group(layout, binds)` promises: entry
      i binds `binds[i]` under binding number i, and the group takes the layout's set. */
  ghost predicate IsGroupFor<R, W, S>(g: BindingGroup<R>, layout: BindingGroupLayout<W, S>, binds: seq<R>) {
    && g.setIndex == layout.setIndex
    && |g.entries| == |binds|
    && forall i :: 0 <= i < |binds| ==> g.entries[i] == GroupEntry(AsU32(i), binds[i])
  }

  /** The state of a `Device` that its methods read or update: the surface it
      presents to, if any, and the size it was last configured with. `H` is the
      native surface handle. */
  class Device<H> {
    var surface: Option<H>
    var size: Textures.Size

    /** `Device::for_surface`: a device presenting to `surface`, of default size. */
    constructor ForSurface(surface: H)
      ensures this.surface == Some(surface) && size == Textures.Size(0, 0)
    {
      this.surface := Some(surface);
      size := Textures.Size(0, 0);
    }

    /** `Device::offscreen`: a device without a surface, of default size. */
    constructor Offscreen()
      ensures surface == None && size == Textures.Size(0, 0)
    {
      surface := None;
      size := Textures.Size(0, 0);
    }

    /** `Device::size`. */
    function Size(): (s: Textures.Size)
      reads this
      ensures s == size
    {
      size
    }

    /** `Device::configure`: configures the surface for `newSize`, then records the
      size. A device without a surface panics (`expect`) and keeps its size. */
    method Configure(newSize: Textures.Size) returns (r: Result<()>)
      modifies this
      ensures surface == old(surface)
      ensures r.Err? <==> old(surface).None?
      ensures r.Err? ==> r.panic == NoSurface && size == old(size)
      ensures r.Ok? ==> Size() == newSize
    {
      if surface.None? {
        return Err(NoSurface);
      }
      size := newSize;
      return Ok(());
    }

    /** `Device::create_binding_group_layout`: the loop that pushes one entry per
      slot, numbered by the count of entries pushed before it. */
    method CreateBindingGroupLayout<B, W, S>(index: u32, slots: seq<Binding<B, S>>, toWgpu: B -> W)
      returns (l: BindingGroupLayout<W, S>)
      ensures IsLayoutFor(l, index, slots, toWgpu)
    {
      var bindings: seq<LayoutEntry<W, S>> := [];
      for k := 0 to |slots|
        invariant |bindings| == k
        invariant forall j :: 0 <= j < k ==>
          bindings[j] == LayoutEntry(AsU32(j), slots[j].stage, toWgpu(slots[j].binding))
      {
        bindings := bindings + [LayoutEntry(AsU32(|bindings|), slots[k].stage, toWgpu(slots[k].binding))];
      }
      l := BindingGroupLayout(index, bindings, |bindings|);
    }

    /** `Device::create_pipeline_layout`: one binding-group layout per set, set i
      placed at index i. */
    method CreatePipelineLayout<B, W, S>(sets: seq<seq<Binding<B, S>>>, toWgpu: B -> W)
      returns (p: PipelineLayout<W, S>)
      ensures |p.sets| == |sets|
      ensures forall i :: 0 <= i < |sets| ==> IsLayoutFor(p.sets[i], AsU32(i), sets[i], toWgpu)
    {
      var layouts: seq<BindingGroupLayout<W, S>> := [];
      for i := 0 to |sets|
        invariant |layouts| == i
        invariant forall j :: 0 <= j < i ==> IsLayoutFor(layouts[j], AsU32(j), sets[j], toWgpu)
      {
        var l := CreateBindingGroupLayout(AsU32(i), sets[i], toWgpu);
        layouts := layouts + [l];
      }
      p := PipelineLayout(layouts);
    }

    /** `Device::create_binding_group`: panics unless there is one resource per
      layout slot; otherwise binds resource i at binding number i, in the layout's
      set. */
    method CreateBindingGroup<R, W, S>(layout: BindingGroupLayout<W, S>, binds: seq<R>)
      returns (r: Result<BindingGroup<R>>)
      ensures r.Err? <==> |binds| != layout.size
      ensures r.Err? ==> r.panic == SlotCountMismatch
      ensures r.Ok? ==> IsGroupFor(r.value, layout, binds)
    {
      if |binds| != layout.size {
        return Err(SlotCountMismatch);
      }
      var bindings: seq<GroupEntry<R>> := [];
      for i := 0 to |binds|
        invariant |bindings| == i
        invariant forall j :: 0 <= j < i ==> bindings[j] == GroupEntry(AsU32(j), binds[j])
      {
        bindings := bindings + [GroupEntry(AsU32(i), binds[i])];
      }
      return Ok(BindingGroup(layout.setIndex, bindings));
    }
  }

  /** `Device::create_buffer`: the byte size is element count times element size
      (`elementSize` is `size_of::<T>()`), cast to u32. */
  function CreateBuffer<T>(vertices: seq<T>, elementSize: nat): (b: VertexBuffer<T>)
    ensures b.contents == vertices
    ensures |vertices| * elementSize < U32_LIMIT ==> b.size as int == |vertices| * elementSize
  {
    VertexBuffer(vertices, AsU32(|vertices| * elementSize))
  }

  /** `Device::create_uniform_buffer`: records the size of one element and their number. */
  function CreateUniformBuffer<T>(buf: seq<T>, elementSize: nat): (u: UniformBuffer<T>)
    ensures u.contents == buf && u.count == |buf|
    ensures u.size == elementSize
    ensures u.size * u.count == |buf| * elementSize
  {
    UniformBuffer(buf, elementSize, |buf|)
  }

  /** `Device::create_index`: records the number of indices, cast to u32. */
  function CreateIndex(indices: seq<u16>): (b: IndexBuffer)
    ensures b.contents == indices
    ensures |indices| < U32_LIMIT ==> b.elements as int == |indices|
  {
    IndexBuffer(indices, AsU32(|indices|))
  }

  /** `Device::update_uniform_buffer`: copies `size_of::<T>() * slice.len()` bytes
      of `slice` to the start of the uniform buffer. */
  function UpdateUniformBuffer<T>(slice: seq<T>, buf: UniformBuffer<T>, elementSize: nat): (w: BufferWrite<T>)
    ensures w.target == buf
    ensures w.data == slice && w.sourceOffset == 0 && w.destinationOffset == 0
    ensures w.byteCount == |slice| * elementSize
  {
    BufferWrite(buf, slice, 0, 0, elementSize * |slice|)
  }

  /** With fewer than 2^32 slots, the binding numbers of a layout are exactly
      0, 1, .., n - 1 and distinct, and its size is its entry count. */
  lemma LayoutNumbersSlots<B, W, S>(l: BindingGroupLayout<W, S>, index: u32, slots: seq<Binding<B, S>>, toWgpu: B -> W)
    requires IsLayoutFor(l, index, slots, toWgpu) && |slots| < U32_LIMIT
    ensures l.size == |l.entries|
    ensures forall k :: 0 <= k < |slots| ==> l.entries[k].binding as int == k
    ensures forall j, k :: 0 <= j < k < |slots| ==> l.entries[j].binding != l.entries[k].binding
  {
  }

  /** A binding group created for a layout that `create_binding_group_layout` built
      lines up with it: same set, and the resource at each position is bound under
      the binding number of the slot at that position, which is the slot's own
      stage and type. */
  lemma {:induction false} GroupMatchesLayout<B, W, S, R>(
    l: BindingGroupLayout<W, S>, index: u32, slots: seq<Binding<B, S>>, toWgpu: B -> W,
    g: BindingGroup<R>, binds: seq<R>)
    requires IsLayoutFor(l, index, slots, toWgpu) && IsGroupFor(g, l, binds)
    requires |binds| == l.size
    ensures g.setIndex == index && |g.entries| == |l.entries|
    ensures forall i :: 0 <= i < |binds| ==>
      && g.entries[i].binding == l.entries[i].binding
      && l.entries[i].visibility == slots[i].stage
  {
    forall i | 0 <= i < |binds|
      ensures g.entries[i].binding == l.entries[i].binding
    {
      assert g.entries[i] == GroupEntry(AsU32(i), binds[i]);
      assert l.entries[i] == LayoutEntry(AsU32(i), slots[i].stage, toWgpu(slots[i].binding));
    }
  }

  /** Updating a uniform buffer with as many elements as it was created with
      overwrites exactly that buffer: its whole byte size (element size times
      count), from its start. */
  lemma UpdateFillsUniformBuffer<T>(buf: seq<T>, slice: seq<T>, elementSize: nat)
    requires |slice| == |buf|
    ensures var u := CreateUniformBuffer(buf, elementSize);
      var w := UpdateUniformBuffer(slice, u, elementSize);
      && w.target == u && w.data == slice
      && w.destinationOffset == 0 && w.byteCount == w.target.size * w.target.count
  {
  }

  /** A pipeline layout's sets are numbered 0, 1, .. in order, and set i holds one
      slot per binding of the i-th set. */
  lemma PipelineSetsNumbered<B, W, S>(p: PipelineLayout<W, S>, sets: seq<seq<Binding<B, S>>>, toWgpu: B -> W)
    requires |p.sets| == |sets| < U32_LIMIT
    requires forall i :: 0 <= i < |sets| ==> IsLayoutFor(p.sets[i], AsU32(i), sets[i], toWgpu)
    ensures forall i :: 0 <= i < |sets| ==> p.sets[i].setIndex as int == i && p.sets[i].size == |sets[i]|
  {
  }
}
