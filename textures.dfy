/** Texel upload and copy geometry of `Texture` (easygpu/src/texture.rs; the same code
    in src/texture.rs and src/core.rs). Each operation ends by recording one copy
    command on the command encoder; here it returns that command, or the panic the
    Rust code raises first. The native texture, view and staging buffer are left out:
    a command carries the texels it uploads in place of the staging buffer. */
module Textures {
  import opened Ints
  import opened Panics

  /** `Size<u32>`: width and height in texels. */
  datatype Size = Size(width: u32, height: u32)

  /** `wgpu::Extent3d`. */
  datatype Extent3d = Extent3d(width: u32, height: u32, depth: u32)

  /** `wgpu::Origin3d`. */
  datatype Origin3d = Origin3d(x: u32, y: u32, z: u32)

  /** The integer state of a `Texture`: its size and the extent it was created with. */
  datatype Texture = Texture(size: Size, extent: Extent3d) {
    /** The extent `Device::create_texture` gives a texture of this size. */
    predicate Consistent() {
      extent == Extent3d(size.width, size.height, 1)
    }
  }

  /** `Framebuffer`: a colour texture and its depth buffer. */
  datatype Framebuffer = Framebuffer(texture: Texture, depth: Texture)

  /** A rectangle given by a corner and a size whose components may be negative
      (`SizedRect<i32>` / `Rect<i32>`), as `transfer` receives it. */
  datatype SignedRect = SignedRect(x: i32, y: i32, width: i32, height: i32)

  /** `SizedRect<u32>` / `Rect<u32>`, as `blit` receives it. */
  datatype Rect = Rect(x: u32, y: u32, width: u32, height: u32)

  /** `encoder.copy_buffer_to_texture(..)`: copy `data` (the staging buffer, read
      from offset 0 in rows of `bytesPerRow` bytes) into the texture at `origin`. */
  datatype BufferToTexture<T> =
    BufferToTexture(data: seq<T>, bytesPerRow: u32, rowsPerImage: u32, origin: Origin3d, extent: Extent3d)

  /** `encoder.copy_texture_to_texture(..)` within one texture. */
  datatype TextureToTexture = TextureToTexture(source: Origin3d, destination: Origin3d, extent: Extent3d)

  /** Area of a size as the Rust code computes it, in u32 (a product that does not
      fit in a u32 panics). */
  function AreaU32(width: u32, height: u32): (r: Result<u32>)
    ensures r.Ok? <==> width as int * height as int < U32_LIMIT
    ensures r.Err? ==> r.panic == ArithmeticOverflow
    ensures r.Ok? ==> r.value as int == width as int * height as int
    ensures r.Ok? ==> (r.value == 0 <==> width == 0 || height == 0)
  {
    if width as int * height as int < U32_LIMIT then Ok((width as int * height as int) as u32)
    else Err(ArithmeticOverflow)
  }

  /** `texels.len() as u32 / rows * 4`, the bytes per row of a copy: panics on a
      zero divisor or when the product leaves the u32 range. */
  function BytesPerRow(texelCount: nat, rows: u32): (r: Result<u32>)
    ensures r.Ok? <==> rows > 0 && AsU32(texelCount) as int / rows as int * 4 < U32_LIMIT
    ensures r == Err(DivideByZero) <==> rows == 0
    ensures r.Ok? ==> r.value as int == AsU32(texelCount) as int / rows as int * 4
    ensures r.Ok? ==> r.value % 4 == 0 && r.value as int / 4 * rows as int <= AsU32(texelCount) as int
  {
    if rows == 0 then Err(DivideByZero)
    else
      var perRow := AsU32(texelCount) as int / rows as int;
      RowsFit(AsU32(texelCount) as int, rows as int);
      if perRow * 4 < U32_LIMIT then Ok((perRow * 4) as u32) else Err(ArithmeticOverflow)
  }

  /** Whole rows of `n / rows` texels take no more than the `n` texels there are. */
  lemma RowsFit(n: nat, rows: nat)
    requires rows > 0
    ensures n / rows * rows <= n
  {
    assert n == n / rows * rows + n % rows;
  }

  /** `Texture::copy`: the command that uploads `data` to `destination`, one image
      of `destination.height` rows at depth 0. */
  function Copy<T>(data: seq<T>, destination: Rect, bytesPerRow: u32, extent: Extent3d): (c: BufferToTexture<T>)
    ensures c.origin == Origin3d(destination.x, destination.y, 0)
    ensures c.rowsPerImage == destination.height
    ensures (c.data, c.bytesPerRow, c.extent) == (data, bytesPerRow, extent)
  {
    BufferToTexture(data, bytesPerRow, destination.height, Origin3d(destination.x, destination.y, 0), extent)
  }

  // ---------------------------------------------------------------------------
  // fill and clear

  /** `Texture::fill`: upload `texels` over the whole texture. Panics when the
      texel count (cast to u32) is below the texture's area. */
  function Fill<T>(texture: Texture, texels: seq<T>): (r: Result<BufferToTexture<T>>)
    ensures r.Err? ==> r.panic in {ArithmeticOverflow, IncorrectTexelLength, DivideByZero}
    ensures r.Ok? ==>
      && AsU32(|texels|) as int >= texture.size.width as int * texture.size.height as int
      && texture.extent.height > 0
      && r.value.data == texels && r.value.origin == Origin3d(0, 0, 0)
      && r.value.extent == texture.extent && r.value.rowsPerImage == texture.size.height
  {
    match AreaU32(texture.size.width, texture.size.height)
    case Err(p) => Err(p)
    case Ok(area) =>
      if AsU32(|texels|) < area then Err(IncorrectTexelLength)
      else
        match BytesPerRow(|texels|, texture.extent.height)
        case Err(p) => Err(p)
        case Ok(bpr) => Ok(Copy(texels, Rect(0, 0, texture.size.width, texture.size.height), bpr, texture.extent))
  }

  /** `Texture::clear`: `width * height` copies of `value`, then `fill`. The texel
      type is any 4-byte value: `Rgba8` for a plain texture, `Bgra8` for a
      framebuffer's colour texture, `f32` for its depth texture. */
  function Clear<T>(texture: Texture, value: T): (r: Result<BufferToTexture<T>>)
    ensures r.Ok? ==>
      && |r.value.data| == texture.size.width as int * texture.size.height as int
      && (forall i :: 0 <= i < |r.value.data| ==> r.value.data[i] == value)
      && r.value.origin == Origin3d(0, 0, 0) && r.value.extent == texture.extent
  {
    Fill(texture, ClearTexels(texture, value))
  }

  /** The texel vector `clear` builds: `Vec::with_capacity(area)` resized to `area`. */
  function ClearTexels<T>(texture: Texture, value: T): (texels: seq<T>)
    ensures |texels| == texture.size.width as int * texture.size.height as int
    ensures forall i :: 0 <= i < |texels| ==> texels[i] == value
  {
    seq(texture.size.width as int * texture.size.height as int, _ => value)
  }

  /** `Framebuffer::size`: the number of texels of its colour texture, in usize. */
  function FramebufferSize(fb: Framebuffer): (n: nat)
    ensures AreaU32(fb.texture.size.width, fb.texture.size.height).Ok? ==>
      n == AreaU32(fb.texture.size.width, fb.texture.size.height).value as int
    ensures n == 0 <==> fb.texture.size.width == 0 || fb.texture.size.height == 0
  {
    fb.texture.size.width as int * fb.texture.size.height as int
  }

  /** When nothing overflows and the texture has rows, `fill` panics exactly when
      there are fewer texels than the area; otherwise it uploads all the texels to
      origin (0, 0, 0), over the texture's extent, with rows of
      `len / extent.height * 4` bytes. */
  lemma FillOutcome<T>(texture: Texture, texels: seq<T>)
    requires texture.size.width as int * texture.size.height as int < U32_LIMIT
    requires |texels| < U32_LIMIT && texture.extent.height > 0
    requires |texels| / texture.extent.height as int * 4 < U32_LIMIT
    ensures Fill(texture, texels).Err? <==> |texels| < texture.size.width as int * texture.size.height as int
    ensures Fill(texture, texels).Err? ==> Fill(texture, texels).panic == IncorrectTexelLength
    ensures Fill(texture, texels).Ok? ==>
      var c := Fill(texture, texels).value;
      && c.data == texels && c.origin == Origin3d(0, 0, 0) && c.extent == texture.extent
      && c.rowsPerImage == texture.size.height
      && c.bytesPerRow as int == |texels| / texture.extent.height as int * 4
  {
  }

  /** A texture with no rows cannot be filled: the bytes-per-row division is by zero. */
  lemma FillZeroHeightPanics<T>(texture: Texture, texels: seq<T>)
    requires texture.Consistent() && texture.size.height == 0
    ensures Fill(texture, texels) == Err(DivideByZero)
  {
  }

  /** Dividing a product by one of its non-zero factors gives the other. */
  lemma DivideExactly(w: nat, h: nat)
    requires h > 0
    ensures (w * h) / h == w
  {
    var q, r := (w * h) / h, (w * h) % h;
    assert (w - q) * h == r;
    if q < w {
      MulAtLeast(w - q, h);
      assert false;
    } else if q > w {
      MulAtLeast(q - w, h);
      assert false;
    }
  }

  lemma MulAtLeast(d: int, h: nat)
    requires d >= 1
    ensures d * h >= h
  {
    assert d * h == (d - 1) * h + h;
  }

  /** Filling a texture created by `Device::create_texture` with exactly one texel
      per pixel uploads tightly packed rows: `4 * width` bytes (one 4-byte texel per
      column) per row. */
  lemma {:induction false} FillPacksRows<T>(texture: Texture, texels: seq<T>)
    requires texture.Consistent() && texture.size.height > 0
    requires |texels| == texture.size.width as int * texture.size.height as int < U32_LIMIT
    requires 4 * texture.size.width as int < U32_LIMIT
    ensures Fill(texture, texels).Ok?
    ensures Fill(texture, texels).value.bytesPerRow as int == 4 * texture.size.width as int
  {
    DivideExactly(texture.size.width as nat, texture.size.height as nat);
  }

  /** `clear` of a created texture with rows uploads `FramebufferSize` copies of the
      value (for the framebuffer holding the texture), in tightly packed rows, over
      the whole texture. */
  lemma {:induction false} ClearUploadsValue<T>(fb: Framebuffer, value: T)
    requires fb.texture.Consistent() && fb.texture.size.height > 0
    requires FramebufferSize(fb) < U32_LIMIT && 4 * fb.texture.size.width as int < U32_LIMIT
    ensures Clear(fb.texture, value).Ok?
    ensures var c := Clear(fb.texture, value).value;
      && |c.data| == FramebufferSize(fb)
      && (forall i :: 0 <= i < |c.data| ==> c.data[i] == value)
      && c.origin == Origin3d(0, 0, 0) && c.extent == Extent3d(fb.texture.size.width, fb.texture.size.height, 1)
      && c.bytesPerRow as int == 4 * fb.texture.size.width as int
  {
    FillPacksRows(fb.texture, ClearTexels(fb.texture, value));
  }

  // ---------------------------------------------------------------------------
  // transfer

  /** A box between two corners (`Box2D<i32>`), min corner first. */
  datatype Box = Box(minX: int, minY: int, maxX: int, maxY: int)

  /** The first step of `Texture::transfer`: the far corner is origin + size
      (`to_box2d`, i32 additions), and the box is normalised so that its min
      corner holds the smaller coordinates. */
  function Normalised(rect: SignedRect): (r: Result<Box>)
    ensures r.Ok? <==> FitsI32(rect.x as int + rect.width as int) && FitsI32(rect.y as int + rect.height as int)
    ensures r.Err? ==> r.panic == ArithmeticOverflow
    ensures r.Ok? ==>
      var x0, y0 := rect.x as int, rect.y as int;
      var x1, y1 := x0 + rect.width as int, y0 + rect.height as int;
      var b := r.value;
      && b.minX <= b.maxX && b.minY <= b.maxY
      && ((b.minX, b.maxX) == (x0, x1) || (b.minX, b.maxX) == (x1, x0))
      && ((b.minY, b.maxY) == (y0, y1) || (b.minY, b.maxY) == (y1, y0))
  {
    var farX, farY := rect.x as int + rect.width as int, rect.y as int + rect.height as int;
    if !FitsI32(farX) || !FitsI32(farY) then Err(ArithmeticOverflow)
    else Ok(Box(Min(rect.x as int, farX), Min(rect.y as int, farY), Max(farX, rect.x as int), Max(farY, rect.y as int)))
  }

  /** Where `Texture::transfer` puts a normalised box: flipped to origin
      (min x, max y) and size (max x - min x, min y - max y) (`to_rect`, i32
      subtractions); `abs()` makes the size non-negative (negating i32::MIN
      panics); the destination point is (min x as u32, texture height - max y as
      u32), a u32 subtraction. */
  function PlaceBox(textureHeight: u32, box: Box): (r: Result<Rect>)
    ensures r.Ok? <==>
      && FitsI32(box.maxX - box.minX) && FitsI32(box.minY - box.maxY)
      && FitsI32(Abs(box.maxX - box.minX)) && FitsI32(Abs(box.minY - box.maxY))
      && AsU32(box.maxY) <= textureHeight
    ensures r.Err? ==> r.panic == ArithmeticOverflow
    ensures r.Ok? && box.minX <= box.maxX && box.minY <= box.maxY ==>
      r.value.width as int == box.maxX - box.minX && r.value.height as int == box.maxY - box.minY
    ensures r.Ok? && box.minY <= box.maxY && FitsU32(box.maxY) ==>
      r.value.y as int + r.value.height as int == textureHeight as int - box.minY
    ensures r.Ok? ==>
      && r.value.width as int == Abs(box.maxX - box.minX) && r.value.height as int == Abs(box.minY - box.maxY)
      && r.value.x == AsU32(box.minX)
      && r.value.y as int == textureHeight as int - AsU32(box.maxY) as int
  {
    var width, height := box.maxX - box.minX, box.minY - box.maxY;
    if !FitsI32(width) || !FitsI32(height) then Err(ArithmeticOverflow)
    else if !FitsI32(Abs(width)) || !FitsI32(Abs(height)) then Err(ArithmeticOverflow)
    else if AsU32(box.maxY) > textureHeight then Err(ArithmeticOverflow)
    else Ok(Rect(AsU32(box.minX), textureHeight - AsU32(box.maxY), Abs(width) as u32, Abs(height) as u32))
  }

  /** The destination rectangle of `Texture::transfer`, or the panic it raises
      while computing it. */
  function Placement(textureHeight: u32, rect: SignedRect): (r: Result<Rect>)
    ensures r.Ok? ==>
      var x0, y0 := rect.x as int, rect.y as int;
      var x1, y1 := x0 + rect.width as int, y0 + rect.height as int;
      && r.value.width as int == Abs(rect.width as int) && r.value.height as int == Abs(rect.height as int)
      && r.value.x == AsU32(Min(x0, x1))
      && r.value.y as int == textureHeight as int - AsU32(Max(y0, y1)) as int
  {
    match Normalised(rect)
    case Err(p) => Err(p)
    case Ok(box) => PlaceBox(textureHeight, box)
  }

  /** The placement of a rectangle whose far corner stays within i32 and whose
      sides are not i32::MIN succeeds exactly when its top edge lies within the
      texture (in u32 terms); for a rectangle in the non-negative quadrant the
      destination rows [height - maxY, height - minY) mirror the rows
      [minY, maxY). */
  lemma PlacementMirrorsRows(textureHeight: u32, rect: SignedRect)
    requires FitsI32(rect.x as int + rect.width as int) && FitsI32(rect.y as int + rect.height as int)
    requires rect.width as int > I32_MIN && rect.height as int > I32_MIN
    ensures var maxY := Max(rect.y as int, rect.y as int + rect.height as int);
      Placement(textureHeight, rect).Ok? <==> AsU32(maxY) <= textureHeight
    ensures var minY := Min(rect.y as int, rect.y as int + rect.height as int);
      var minX := Min(rect.x as int, rect.x as int + rect.width as int);
      Placement(textureHeight, rect).Ok? && minY >= 0 && minX >= 0 ==>
        && Placement(textureHeight, rect).value.x as int == minX
        && Placement(textureHeight, rect).value.y as int + Placement(textureHeight, rect).value.height as int
             == textureHeight as int - minY
  {
  }

  /** `Texture::transfer`: upload `texels` to the part of the texture that `rect`
      covers, with the Y axis flipped (the texture's rows count downwards). */
  function Transfer<T>(texture: Texture, texels: seq<T>, rect: SignedRect): (r: Result<BufferToTexture<T>>)
    ensures r.Err? ==> r.panic in {ArithmeticOverflow, TransferTooLarge, DivideByZero}
    ensures r.Ok? ==>
      && rect.height != 0
      && Abs(rect.width as int) * Abs(rect.height as int) <= texture.size.width as int * texture.size.height as int
      && r.value.data == texels
      && r.value.extent == Extent3d(Abs(rect.width as int) as u32, Abs(rect.height as int) as u32, 1)
  {
    match Placement(texture.size.height, rect)
    case Err(p) => Err(p)
    case Ok(dst) =>
      match AreaU32(dst.width, dst.height)
      case Err(p) => Err(p)
      case Ok(transferArea) =>
        match AreaU32(texture.size.width, texture.size.height)
        case Err(p) => Err(p)
        case Ok(textureArea) =>
          if transferArea > textureArea then Err(TransferTooLarge)
          else
            match BytesPerRow(|texels|, dst.height)
            case Err(p) => Err(p)
            case Ok(bpr) => Ok(Copy(texels, dst, bpr, Extent3d(dst.width, dst.height, 1)))
  }

  /** Whatever the signs of the rectangle's size, a successful transfer copies a
      block of |width| by |height| texels, one image of |height| rows deep 1, with
      rows of `len / |height| * 4` bytes, and the given texels as its data. */
  lemma TransferCopiesAbsoluteSize<T>(texture: Texture, texels: seq<T>, rect: SignedRect)
    requires Transfer(texture, texels, rect).Ok?
    ensures var c := Transfer(texture, texels, rect).value;
      && c.extent == Extent3d(Abs(rect.width as int) as u32, Abs(rect.height as int) as u32, 1)
      && c.rowsPerImage as int == Abs(rect.height as int)
      && c.bytesPerRow as int == AsU32(|texels|) as int / Abs(rect.height as int) * 4
      && c.data == texels
  {
  }

  /** A successful transfer's destination is the rectangle's left edge and its
      mirrored rows: texture rows [height - maxY, height - minY) receive the
      rectangle's rows [minY, maxY) bottom-up. For a left edge that is negative the
      x coordinate is its u32 bit pattern. */
  lemma TransferFlipsY<T>(texture: Texture, texels: seq<T>, rect: SignedRect)
    requires Transfer(texture, texels, rect).Ok?
    ensures var c := Transfer(texture, texels, rect).value;
      var x0, y0 := rect.x as int, rect.y as int;
      var x1, y1 := x0 + rect.width as int, y0 + rect.height as int;
      && c.origin.x == AsU32(Min(x0, x1))
      && c.origin.y as int == texture.size.height as int - AsU32(Max(y0, y1)) as int
      && c.origin.z == 0
      && (Min(x0, x1) >= 0 ==> c.origin.x as int == Min(x0, x1))
      && (Min(y0, y1) >= 0 ==>
            c.origin.y as int + c.extent.height as int == texture.size.height as int - Min(y0, y1))
  {
    var dst := Placement(texture.size.height, rect).value;
    assert Transfer(texture, texels, rect).value.origin == Origin3d(dst.x, dst.y, 0);
    assert Transfer(texture, texels, rect).value.extent.height == dst.height;
  }

  /** The rectangle seen from its opposite corner: origin + size, with the size negated. */
  function Opposite(rect: SignedRect): (o: SignedRect)
    requires FitsI32(rect.x as int + rect.width as int) && FitsI32(rect.y as int + rect.height as int)
    requires rect.width as int > I32_MIN && rect.height as int > I32_MIN
    ensures o.x as int + o.width as int == rect.x as int && o.y as int + o.height as int == rect.y as int
  {
    SignedRect((rect.x as int + rect.width as int) as i32, (rect.y as int + rect.height as int) as i32,
               (-rect.width as int) as i32, (-rect.height as int) as i32)
  }

  /** A rectangle and the same rectangle described from its opposite corner are
      placed identically, panics included. */
  lemma PlacementIgnoresOrientation(textureHeight: u32, rect: SignedRect)
    requires FitsI32(rect.x as int + rect.width as int) && FitsI32(rect.y as int + rect.height as int)
    requires rect.width as int > I32_MIN && rect.height as int > I32_MIN
    ensures Placement(textureHeight, Opposite(rect)) == Placement(textureHeight, rect)
  {
    assert Normalised(Opposite(rect)) == Normalised(rect);
  }

  /** ... and so are the same transfer. */
  lemma TransferIgnoresOrientation<T>(texture: Texture, texels: seq<T>, rect: SignedRect)
    requires FitsI32(rect.x as int + rect.width as int) && FitsI32(rect.y as int + rect.height as int)
    requires rect.width as int > I32_MIN && rect.height as int > I32_MIN
    ensures Transfer(texture, texels, Opposite(rect)) == Transfer(texture, texels, rect)
  {
    PlacementIgnoresOrientation(texture.size.height, rect);
  }

  /** For a rectangle inside the non-negative quadrant whose top edge lies within
      the texture, with rows, and where no product overflows, the transfer panics
      exactly when the rectangle has more texels than the texture. */
  lemma TransferRejectsOversize<T>(texture: Texture, texels: seq<T>, rect: SignedRect)
    requires FitsI32(rect.x as int + rect.width as int) && FitsI32(rect.y as int + rect.height as int)
    requires rect.width as int > I32_MIN && rect.height as int > I32_MIN
    requires 0 <= Max(rect.y as int, rect.y as int + rect.height as int) <= texture.size.height as int
    requires rect.height != 0 && |texels| < U32_LIMIT
    requires Abs(rect.width as int) * Abs(rect.height as int) < U32_LIMIT
    requires texture.size.width as int * texture.size.height as int < U32_LIMIT
    requires |texels| / Abs(rect.height as int) * 4 < U32_LIMIT
    ensures Transfer(texture, texels, rect).Err? <==>
      Abs(rect.width as int) * Abs(rect.height as int) > texture.size.width as int * texture.size.height as int
    ensures Transfer(texture, texels, rect).Err? ==> Transfer(texture, texels, rect).panic == TransferTooLarge
  {
    PlacementMirrorsRows(texture.size.height, rect);
  }

  /** A rectangle without rows that is otherwise placed within the texture panics
      when the bytes per row are computed: `len / 0`. */
  lemma TransferZeroHeightPanics<T>(texture: Texture, texels: seq<T>, rect: SignedRect)
    requires rect.height == 0 && 0 <= rect.y as int <= texture.size.height as int
    requires FitsI32(rect.x as int + rect.width as int) && rect.width as int > I32_MIN
    requires texture.size.width as int * texture.size.height as int < U32_LIMIT
    ensures Transfer(texture, texels, rect) == Err(DivideByZero)
  {
    PlacementMirrorsRows(texture.size.height, rect);
  }

  // ---------------------------------------------------------------------------
  // blit

  /** The texture-to-texture copy `blit` records: `src.size` texels from the source
      origin to the destination origin. */
  function BlitCommand(src: Rect, dst: Rect): (c: TextureToTexture)
    ensures c.source == Origin3d(src.x, src.y, 0) && c.destination == Origin3d(dst.x, dst.y, 0)
    ensures c.extent == Extent3d(src.width, src.height, 1)
  {
    TextureToTexture(Origin3d(src.x, src.y, 0), Origin3d(dst.x, dst.y, 0), Extent3d(src.width, src.height, 1))
  }

  /** `Texture::blit` as written: `assert!(src.area() != dst.area(), "source and
      destination rectangles must be of the same size")`. */
  function BlitAsWritten(src: Rect, dst: Rect): (r: Result<TextureToTexture>)
    ensures r.Err? ==> r.panic in {ArithmeticOverflow, BlitSizeMismatch}
    ensures r.Ok? ==>
      && src.width as int * src.height as int != dst.width as int * dst.height as int
      && r.value.extent == Extent3d(src.width, src.height, 1)
  {
    match AreaU32(src.width, src.height)
    case Err(p) => Err(p)
    case Ok(srcArea) =>
      match AreaU32(dst.width, dst.height)
      case Err(p) => Err(p)
      case Ok(dstArea) =>
        if srcArea != dstArea then Ok(BlitCommand(src, dst)) else Err(BlitSizeMismatch)
  }

  /** The check is inverted: when neither area overflows, the blit panics exactly
      when the two areas are equal -- every pair of same-sized rectangles, and
      also a 1x4 source with a 2x2 destination -- and otherwise records the copy of
      `src.size` from the source origin to the destination origin; a 1x1 source
      with a 2x2 destination is let through. */
  lemma BlitAsWrittenInverted(src: Rect, dst: Rect)
    requires src.width as int * src.height as int < U32_LIMIT
    requires dst.width as int * dst.height as int < U32_LIMIT
    ensures BlitAsWritten(src, dst).Err? <==>
      src.width as int * src.height as int == dst.width as int * dst.height as int
    ensures BlitAsWritten(src, dst).Err? ==> BlitAsWritten(src, dst).panic == BlitSizeMismatch
    ensures BlitAsWritten(src, dst).Ok? ==> BlitAsWritten(src, dst).value == BlitCommand(src, dst)
    ensures src.width == dst.width && src.height == dst.height ==> BlitAsWritten(src, dst) == Err(BlitSizeMismatch)
    ensures BlitAsWritten(Rect(0, 0, 1, 4), Rect(1, 1, 2, 2)) == Err(BlitSizeMismatch)
    ensures BlitAsWritten(Rect(0, 0, 1, 1), Rect(1, 1, 2, 2)).Ok?
  {
  }

  /** `Texture::blit` as its message intends: panic unless the two areas are equal. */
  function Blit(src: Rect, dst: Rect): (r: Result<TextureToTexture>)
    ensures r.Err? ==> r.panic in {ArithmeticOverflow, BlitSizeMismatch}
    ensures r.Ok? ==>
      && src.width as int * src.height as int == dst.width as int * dst.height as int
      && r.value.extent == Extent3d(src.width, src.height, 1)
  {
    match AreaU32(src.width, src.height)
    case Err(p) => Err(p)
    case Ok(srcArea) =>
      match AreaU32(dst.width, dst.height)
      case Err(p) => Err(p)
      case Ok(dstArea) =>
        if srcArea == dstArea then Ok(BlitCommand(src, dst)) else Err(BlitSizeMismatch)
  }

  /** The corrected blit copies exactly when the areas agree, and then copies as
      many texels as the destination holds; in particular any two same-sized
      rectangles can be blitted. */
  lemma {:induction false} BlitCopiesMatchingArea(src: Rect, dst: Rect)
    requires src.width as int * src.height as int < U32_LIMIT
    requires dst.width as int * dst.height as int < U32_LIMIT
    ensures Blit(src, dst).Ok? <==> src.width as int * src.height as int == dst.width as int * dst.height as int
    ensures Blit(src, dst).Err? ==> Blit(src, dst).panic == BlitSizeMismatch
    ensures Blit(src, dst).Ok? ==>
      Blit(src, dst).value.extent.width as int * Blit(src, dst).value.extent.height as int
        == dst.width as int * dst.height as int
    ensures src.width == dst.width && src.height == dst.height ==> Blit(src, dst).Ok?
  {
  }
}
