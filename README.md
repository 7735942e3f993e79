# easygpu: the integer logic around wgpu, modelled in Dafny

easygpu is a thin Rust layer over the native `wgpu` graphics API. Most of it hands
arguments to wgpu and has no behaviour of its own. This project models the parts
that do compute something, and proves what they promise:

- **Vertex layouts** (`vertex_layouts.dfy`): `VertexLayout::from` folds a list of
  vertex formats into attributes with shader locations 0, 1, … and byte offsets
  that are the running total of the format sizes; the total is the vertex stride.
- **Texel uploads** (`textures.dfy`): `Texture::fill`, `clear`, `transfer`, `blit`
  and `copy` each compute a copy command (origin, extent, bytes per row, rows per
  image) or panic. `transfer` normalises a rectangle whose size may be negative and
  flips it against the texture height. `Framebuffer::size` is `FramebufferSize`.
- **Colours** (`colors.dfy`): the `Rgba8` and `Bgra8` structs, their conversions,
  the derived ordering and default, and `From<u32> for Rgba8`.
- **Descriptor numbering** (`devices.dfy`): `Device` numbers binding-layout and
  binding-group entries 0 … n-1, gives set i the set index i, checks that a
  binding group has one resource per slot, and records buffer byte sizes. `Device`
  is a class, because `configure` updates its size in place.
- **The shape builder** (`shapes.dfy`): lyon's tessellator drives `ShapeBuilder`
  through callbacks that append vertices and `u16` triangle indices. `ShapeBuilder`
  is a class with `seq` fields. The tessellator is an arbitrary sequence of
  callback events, replayed by `Replay` against the pure `Run`. The invariant is
  proved for every correctly driven run: each index names a stored vertex, and the
  index count is a multiple of 3.

Conventions (`ints.dfy`, `panics.dfy`):

- Rust integers are newtypes over `int`: `u8`, `u16`, `u32`, `i32`.
- An `as` cast wraps (`AsU32`, `AsU16`).
- Arithmetic on `u32` and `i32` is checked, as in a debug build: an overflow panics.
- A panic is the value `Err(panic)` of `Result`, so every panic the code can raise
  is a case that the contracts state.
- An f32 that the code only copies is kept as its bit pattern (`bv32`).

The sources exist in two revisions:

- an older `src/` tree on euclid, including the single-file copy
  `src/core.rs`;
- a newer `easygpu/` crate on figures.

They agree on all of this logic. One member models both, and its row cites one of
the copies:

- `src/vertex.rs` and `src/core.rs:494-542` repeat `easygpu/src/vertex.rs`;
- `src/texture.rs` and `src/core.rs:196-368` repeat `easygpu/src/texture.rs`;
- `src/device.rs` and `src/core.rs:1245-1452` repeat the descriptor code of
  `easygpu/src/device.rs`.

The two revisions differ in the following places.

- **Native vertex formats.** These have different names: `VertexLayouts.ToWgpu` is
  the newer revision and `LegacyVertexLayouts.ToWgpu` the older. `From` takes the
  mapping as a parameter.
- **Transfer arithmetic.** The older revision normalises the rectangle with
  euclid's `Box2D` and the newer one with figures' `ExtentsRect`. Both compute the
  same corners, the same checked additions and subtractions, and the same `abs()`.
- **`update_uniform_buffer`.** The older revision copies through a staging buffer
  with an encoder command. The newer one writes with `queue.write_buffer`. Both move
  `size_of::<T>() * len` bytes to offset 0.

## Model

| member | source | states |
|---|---|---|
| Ints.AsU32 | easygpu/src/device.rs:327 | `as u32` keeps the value when it fits, turns a negative i32 into its two's-complement pattern, and always agrees with the input modulo 2^32 |
| Ints.AsU16 | lyon/src/builder/lyon_builders.rs:55-57 | `as u16` keeps the value below 2^16 and agrees with the input modulo 2^16 |
| Colors.ToBgra8 | src/color.rs:84-93 | `Bgra8::from(Rgba8)` keeps every named channel |
| Colors.ToRgba8 | src/color.rs:112-121 | `Rgba8::from(Bgra8)` keeps every named channel |
| Colors.ConversionsRoundTrip | src/color.rs:84-121 | RGBA → BGRA → RGBA and BGRA → RGBA → BGRA are both the identity |
| Colors.ConstructorOrders | src/color.rs:12-15 | `Rgba8::new` takes r, g, b, a and `Bgra8::new` takes b, g, r, a; converting one constructor's result gives the other's; the defaults correspond |
| Colors.UnpackPacked | src/color.rs:4-10 | the bytes r, g, b, a packed big-endian into a u32 unpack to the same colour, so packing is injective |
| Colors.Cmp | src/color.rs:4 | the derived `Ord` compares Equal exactly for the same colour, and the red channel, compared first, decides whenever it differs |
| Colors.CmpIsPackedOrder | src/color.rs:4 | the derived `Ord` (lexicographic over r, g, b, a) is Less, Equal or Greater exactly when the packed value is <, = or >; Equal is structural equality |
| Colors.CmpAntisymmetric | src/color.rs:4 | x < y exactly when y > x |
| Colors.CmpTransitive | src/color.rs:4 | x < y and y < z give x < z |
| Colors.DefaultIsLeast | src/color.rs:4 | the derived all-zero `Default` is below or equal to every colour |
| Colors.FromU32 | src/color.rs:40-48 | as written, the alpha channel is the low byte of the u32 |
| Colors.FromU32DropsHighBytes | src/color.rs:40-48 | as written, `<<` binds tighter than `&`, so r, g and b are always 0 and only the low byte survives |
| Colors.FromU32Counterexample | src/color.rs:41-47 | 0x11223344 converts to (0, 0, 0, 0x44) as written, to (0x11, 0x22, 0x33, 0x44) as intended |
| Colors.PackUnpacked | src/color.rs:40-48 | the intended conversion loses nothing: repacking its channels gives the u32 back |
| VertexLayouts.ByteSize | easygpu/src/vertex.rs:11-19 | every format takes 4 to 16 bytes, a multiple of 4; exactly Float and UByte4 take 4 |
| VertexLayouts.ToWgpu | easygpu/src/vertex.rs:21-29 | each format maps to a native format that occupies the bytes `bytesize` reports, by wgpu's own size table, so offsets computed from `bytesize` are native offsets |
| VertexLayouts.ToWgpuInjective | easygpu/src/vertex.rs:21-29 | distinct formats map to distinct native formats; only UByte4 maps to Unorm8x4 |
| LegacyVertexLayouts.ToWgpu | src/vertex.rs:21-29 | in the older revision too, each format maps to a native format of the size `bytesize` reports |
| LegacyVertexLayouts.ToWgpuInjective | src/vertex.rs:21-29 | distinct formats stay distinct; only UByte4 maps to Uchar4Norm |
| VertexLayouts.From | easygpu/src/vertex.rs:40-51 | one attribute per format in input order; attribute k at shader location k and offset the sum of the sizes before it; size the sum of all; no formats give no attributes and size 0 |
| VertexLayouts.ToWgpuLayout | easygpu/src/vertex.rs:53-59 | the pipeline layout passes the attributes through unchanged, takes the layout size as stride, and steps per vertex |
| VertexLayouts.TotalSizeMonotone | src/vertex.rs:40-51 | each attribute ends no later than the next one starts, so offsets strictly increase |
| VertexLayouts.TotalSizeAligned | src/core.rs:494-502 | every running total is a multiple of 4 |
| VertexLayouts.BufferLayoutWellFormed | src/vertex.rs:40-59 | for a layout built by `from`: the stride is the total size and a multiple of 4; there is one attribute per format, carrying that format's native format; attribute k is at location k; offsets strictly increase; and every attribute ends within the stride |
| Textures.AreaU32 | easygpu/src/texture.rs:49-52 | a size's area panics with an overflow exactly when width × height leaves the u32 range, is otherwise that product, and is 0 exactly when a side is 0 |
| Textures.BytesPerRow | easygpu/src/texture.rs:59 | `len as u32 / rows * 4` divides by zero exactly on zero rows and overflows when the product leaves u32; a result is a multiple of 4, and that many rows of value / 4 texels take no more texels than there are |
| Textures.Fill | easygpu/src/texture.rs:41-64 | panics only by overflow, too few texels or zero rows; a successful fill had at least area texels and rows, and uploads all the texels to (0, 0, 0) over the texture's extent, one image of the texture's height |
| Textures.Clear | easygpu/src/texture.rs:22-39 | for any texel type, a successful clear uploads exactly width × height texels, all equal to the value, to (0, 0, 0) over the texture's extent |
| Textures.ClearTexels | easygpu/src/texture.rs:30-32 | `clear` builds exactly width × height texels, all equal to the value |
| Textures.FillOutcome | easygpu/src/texture.rs:41-64 | without overflow, `fill` panics exactly when there are fewer texels than the area; otherwise it uploads all the texels to (0, 0, 0) over the texture's extent, with `len / extent.height * 4` bytes per row |
| Textures.FillZeroHeightPanics | src/texture.rs:38-61 | a created texture without rows cannot be filled: bytes per row divides by zero |
| Textures.FillPacksRows | src/core.rs:215-238 | filling a created texture with exactly one texel per pixel gives rows of 4 × width bytes |
| Textures.FramebufferSize | src/core.rs:117-119 | the framebuffer's size in pixels (a usize, which cannot overflow) is the texture's area whenever the u32 area does not overflow, and is zero exactly when the texture has no width or no height |
| Textures.ClearUploadsValue | src/texture.rs:19-36 | `clear` of a created framebuffer texture, with any texel value (the `Bgra8` colour or `f32` depth a framebuffer clears with, or an `Rgba8`), uploads `Framebuffer::size` copies of the value over the whole texture, in rows of 4 × width bytes |
| Textures.Normalised | easygpu/src/texture.rs:75-87 | panics with an overflow exactly when a far-corner sum leaves i32; otherwise the box's min and max on each axis are the origin and far coordinate in some order, min first |
| Textures.PlaceBox | easygpu/src/texture.rs:88-103 | panics with an overflow exactly when a corner difference or its `abs` leaves i32, or max y (as u32) exceeds the height; otherwise it is placed at (min x as u32, height − max y as u32); for a normalised box the size is the box's extent and the rows end at height − min y |
| Textures.Placement | src/texture.rs:73-100 | a placed rectangle has size (\|w\|, \|h\|), x the u32 pattern of min(x, x + w), and y the height minus max(y, y + h) |
| Textures.PlacementMirrorsRows | easygpu/src/texture.rs:97-103 | placement succeeds exactly when max(y, y + h) lies within the texture height; in the non-negative quadrant x = min(x, x + w) and the texture rows [height − maxY, height − minY) receive the rectangle's rows [minY, maxY) |
| Textures.PlacementIgnoresOrientation | src/texture.rs:73-84 | a rectangle and the same rectangle given from its opposite corner with negated size are placed identically, panics included |
| Textures.TransferIgnoresOrientation | src/core.rs:240-299 | … and are the same transfer |
| Textures.Transfer | easygpu/src/texture.rs:66-125 | panics only by overflow, a rectangle larger than the texture, or zero rows; a successful transfer had rows and an \|w\| × \|h\| area within the texture's, and copies the given texels over an extent of (\|w\|, \|h\|, 1) |
| Textures.TransferCopiesAbsoluteSize | easygpu/src/texture.rs:66-125 | a successful transfer copies \|w\| × \|h\| × 1 texels, one image of \|h\| rows, with len / \|h\| × 4 bytes per row, from the given texels |
| Textures.TransferFlipsY | src/texture.rs:95-121 | a successful transfer's origin is (min x as u32, height − max y as u32, 0), and in the non-negative quadrant its rows end at height − min y |
| Textures.TransferRejectsOversize | easygpu/src/texture.rs:105-108 | when nothing overflows and the rectangle's top edge is within the texture, the transfer panics exactly when \|w\| × \|h\| exceeds the texture's area, with `TransferTooLarge` |
| Textures.TransferZeroHeightPanics | easygpu/src/texture.rs:120 | a rectangle of height 0 placed within the texture panics with a division by zero when the bytes per row are computed |
| Textures.BlitAsWritten | easygpu/src/texture.rs:127-164 | as written, panics only by overflow or the inverted area check; a blit that goes through had areas that differ, and copies the source's size at depth 1 |
| Textures.BlitAsWrittenInverted | src/texture.rs:130-133 | as written, when neither area overflows the blit panics exactly when the areas are equal (every same-sized pair, and 1×4 against 2×2 too), and otherwise records the copy of the source's size from the source origin to the destination origin; a 1×1 source with a 2×2 destination is copied |
| Textures.Blit | easygpu/src/texture.rs:127-164 | as intended, panics only by overflow or an area mismatch; a blit that goes through had equal areas, and copies the source's size at depth 1 |
| Textures.BlitCopiesMatchingArea | easygpu/src/texture.rs:133-136 | as intended, the blit copies exactly when the areas agree, then copies as many texels as the destination holds; same-sized rectangles always copy |
| Devices.Device.ForSurface | easygpu/src/device.rs:27-48 | the device presents to the surface and has the default size |
| Devices.Device.Offscreen | easygpu/src/device.rs:50-68 | the device has no surface and the default size |
| Devices.Device.Size | easygpu/src/device.rs:74-76 | reports the size the device was last configured with; `Configure` states its new size through it |
| Devices.Device.Configure | easygpu/src/device.rs:87-106 | panics with `NoSurface` exactly on a device without a surface, keeping its size; otherwise records the new size; the surface never changes |
| Devices.Device.CreateBindingGroupLayout | easygpu/src/device.rs:322-340 | entry k is slot k, with its stage and native type, under binding number k; size is the slot count; set index is the given index |
| Devices.Device.CreatePipelineLayout | easygpu/src/device.rs:108-114 | one binding-group layout per set, set i built from the i-th set's slots at set index i |
| Devices.Device.CreateBindingGroup | easygpu/src/device.rs:241-266 | panics with `SlotCountMismatch` exactly when the number of resources differs from the layout's size; otherwise resource i is bound under binding number i, in the layout's set |
| Devices.CreateBuffer | easygpu/src/device.rs:268-276 | the buffer holds the vertices, and its size is count × element size when that fits in a u32 |
| Devices.CreateUniformBuffer | easygpu/src/device.rs:278-293 | records the contents, the element count and `size_of::<T>()` as the element size, so size × count is the byte length of the contents |
| Devices.CreateIndex | easygpu/src/device.rs:295-301 | the buffer holds the indices, and `elements` is their number when it fits in a u32 |
| Devices.UpdateUniformBuffer | src/device.rs:310-328 | the write goes to the given uniform buffer: the slice's `len × size_of::<T>()` bytes, from offset 0 of the slice to offset 0 of the buffer |
| Devices.LayoutNumbersSlots | src/device.rs:267-285 | the binding numbers of a layout are exactly 0 … n − 1 and distinct, and its size is its entry count |
| Devices.GroupMatchesLayout | src/device.rs:188-213 | a group made for a layout built by `create_binding_group_layout` has the layout's set index, and binds the resource at each position under the binding number of the slot at that position |
| Devices.UpdateFillsUniformBuffer | src/device.rs:225-239 | updating a uniform buffer with as many elements as it was created with overwrites that very buffer with the slice: exactly its size × count bytes, from its start |
| Devices.PipelineSetsNumbered | src/device.rs:70-76 | the pipeline's sets carry set indices 0, 1, … in order, each sized by its set's slots |
| Shapes.NewVertex | lyon/src/builder.rs:75-94 | panics with `AttributesNotRgba` exactly when the attributes are neither empty nor four values; the position is (x, y, zdepth); empty attributes give the default colour, four attributes give that colour |
| Shapes.AddVertexStep | lyon/src/builder.rs:96-109 | appends exactly the new vertex and leaves the indices; reports `TooManyVertices` exactly when there were already 65535 vertices, the vertex still appended; otherwise returns the former vertex count as id |
| Shapes.AddTriangleStep | lyon/src/builder/lyon_builders.rs:54-58 | appends exactly the three ids, each cut to u16, in order, and leaves the vertices |
| Shapes.PrepareShape | lyon/src/builder.rs:46-55 | the shape's buffers hold the builder's vertices and indices, index_count is the number of indices, and the vertex buffer size is 16 bytes per vertex |
| Shapes.Step | lyon/src/builder/lyon_builders.rs:22-71 | one callback panics exactly when it is a fill or stroke vertex with attributes that are neither empty nor four values; vertex callbacks append one vertex, a triangle three indices, begin and end change nothing; no callback touches the depth or default colour |
| Shapes.Run | lyon/src/builder.rs:57-73 | a run of callbacks panics, always with `AttributesNotRgba`, exactly when one of its callbacks is a fill or stroke vertex with attributes that are neither empty nor four values; it never touches the depth or default colour |
| Shapes.AddedIdIsSound | lyon/src/builder.rs:101-108 | an id reported as a success names the vertex just appended and survives the cast to u16 |
| Shapes.StepKeepsValid | lyon/src/builder/lyon_builders.rs:45-70 | a callback whose triangle ids name stored vertices keeps the invariant |
| Shapes.RunKeepsValid | lyon/src/shape.rs:14-22 | after any correctly driven run, every index names a stored vertex and the index count is a multiple of 3 |
| Shapes.ShapeDrawsTriangles | lyon/src/shape.rs:32-36 | a shape prepared from a valid builder draws whole triangles of vertices in its vertex buffer |
| Shapes.ShapeBuilder.constructor | lyon/src/builder.rs:34-40 | keeps the depth and default colour, both lists empty, the invariant holds |
| Shapes.ShapeBuilder.AddVertex | lyon/src/builder.rs:96-109 | the builder makes exactly the `AddVertexStep` transition and returns its outcome; a panic changes nothing |
| Shapes.ShapeBuilder.AddFillVertex | lyon/src/builder/lyon_builders.rs:22-31 | the fill callback is `add_vertex` with the interpolated attributes: it makes the `AddVertexStep` transition and returns its vertex id or `TooManyVertices`; a panic changes nothing |
| Shapes.ShapeBuilder.AddStrokeVertex | lyon/src/builder/lyon_builders.rs:33-42 | the stroke callback is `add_vertex` with the interpolated attributes: it makes the `AddVertexStep` transition and returns its vertex id or `TooManyVertices`; a panic changes nothing |
| Shapes.ShapeBuilder.AddBasicVertex | lyon/src/builder/lyon_builders.rs:66-70 | the basic callback is `add_vertex` with the default colour: it never panics, makes the `AddVertexStep` transition and returns its vertex id or `TooManyVertices` |
| Shapes.ShapeBuilder.BeginGeometry | lyon/src/builder/lyon_builders.rs:45 | changes nothing |
| Shapes.ShapeBuilder.AddTriangle | lyon/src/builder/lyon_builders.rs:54-58 | the builder makes exactly the `AddTriangleStep` transition |
| Shapes.ShapeBuilder.AbortGeometry | lyon/src/builder/lyon_builders.rs:60-63 | empties both lists and keeps the depth and default colour |
| Shapes.ShapeBuilder.EndGeometry | lyon/src/builder/lyon_builders.rs:47-52 | reports the vertex and index counts and changes nothing |
| Shapes.ShapeBuilder.Prepare | lyon/src/builder.rs:46-55 | reads the builder without changing it and builds `PrepareShape` of its state |
| Shapes.ShapeBuilder.Replay | lyon/src/builder.rs:57-73 | running the tessellator's callbacks in order panics exactly when `Run` does, and otherwise leaves the builder in the state `Run` computes |

## Left out

- The native wgpu objects are not modelled: device, queue, surface, textures, views, buffers, layouts, samplers, shaders and pipelines. A command or descriptor record carries the values the Rust code hands to them.
- The recording of commands on an encoder, and queue submission, are not modelled. Each operation returns the one command it would record.
- Device creation (`request_device`, async, can fail) is not modelled. The constructors model only the resulting fields.
- Textures.Copy: the newer revision wraps bytes-per-row and rows-per-image in `NonZeroU32::new`, where 0 means "unspecified". The model records the plain u32 of the older revision.
- Textures.Clear: the texels are uploaded as values of their own type. The unsafe `align_to::<Rgba8>` reinterpretation of their bytes is not modelled. For the 4-byte texels that are passed (`Rgba8` by a texture, `Bgra8` and `f32` by a framebuffer), it keeps their number and bytes, and its head and tail assertions hold. Texel types of other sizes are not modelled.
- Devices.CreateBuffer: `usize` arithmetic is taken as unbounded. `len * size_of::<T>()` overflowing a 64-bit usize is not modelled, only the `as u32` cast.
- Devices.Device.CreateBindingGroup: each resource's `Bind::binding(i)` is taken to bind that resource under number i, as every implementation does. The implementations are not part of this model.
- `BindingType::to_wgpu` and the shader-stage values live in src/binding.rs, which is not part of this model. The layout methods take the conversion as a function parameter.
- Floating point is not modelled. The conversion of a vertex colour from `Rgba` to `Rgba8` keeps the float colour. The builder's floats are copied as bit patterns.
- `ShapeBuilder::fill` and `stroke` run lyon's tessellators, which are not part of this model. `Replay` takes any callback sequence. Whether a real tessellator calls `abort_geometry` after `TooManyVertices` is the tessellator's business.
- Shapes.ShapeBuilder.EndGeometry: a count of 2^32 or more is stated only through its u32 truncation, which 65535 vertices never reach.
- The renderer, frames, passes, pipelines, samplers, transforms and the read-back of a framebuffer are not modelled. They are native calls or async I/O.

## Findings

| source | as written | input that shows it | evidently intended | confidence | as-written member | corrected member |
|---|---|---|---|---|---|---|
| easygpu/src/texture.rs:133-136 (also src/texture.rs:130-133, src/core.rs:307-310) | `assert!(src.area() != dst.area(), "source and destination rectangles must be of the same size")` panics when the areas are equal | src = dst size 2×2 panics, and so do src 1×4 with dst 2×2; src 1×1 with dst 2×2 copies | panic when the areas differ (`==` in the assertion) | high, not executed | Textures.BlitAsWritten (Textures.BlitAsWrittenInverted) | Textures.Blit (Textures.BlitCopiesMatchingArea) |
| src/color.rs:40-48 | `(rgba << 24 & 0xFF) as u8`: `<<` binds tighter than `&`, so r, g, b take the low byte of a left shift, always 0 | 0x11223344 gives (0, 0, 0, 0x44) | `(rgba >> 24 & 0xFF) as u8`, and likewise for g and b | high, not executed | Colors.FromU32 (Colors.FromU32DropsHighBytes, Colors.FromU32Counterexample) | Colors.FromU32Corrected (Colors.UnpackPacked, Colors.PackUnpacked) |
