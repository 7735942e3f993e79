/** 8-bit colour channels (src/color.rs): the RGBA and BGRA structs, their field-wise
    conversions, the derived ordering and defaults, and the conversion from a u32. */
module Colors {
  import opened Ints

  /** `Rgba8 { r, g, b, a }`; `Rgba8::new(r, g, b, a)` is this constructor. */
  datatype Rgba8 = Rgba8(r: u8, g: u8, b: u8, a: u8)

  /** `Bgra8 { b, g, r, a }`; `Bgra8::new(b, g, r, a)` takes its channels in this order. */
  datatype Bgra8 = Bgra8(b: u8, g: u8, r: u8, a: u8)

  /** The derived `Default` of both structs: every channel zero. */
  const DEFAULT_RGBA8: Rgba8 := Rgba8(0, 0, 0, 0)
  const DEFAULT_BGRA8: Bgra8 := Bgra8(0, 0, 0, 0)

  /** `impl From<Rgba8> for Bgra8`. */
  function ToBgra8(c: Rgba8): (d: Bgra8)
    ensures (d.r, d.g, d.b, d.a) == (c.r, c.g, c.b, c.a)
  {
    Bgra8(c.b, c.g, c.r, c.a)
  }

  /** `impl From<Bgra8> for Rgba8`. */
  function ToRgba8(d: Bgra8): (c: Rgba8)
    ensures (c.r, c.g, c.b, c.a) == (d.r, d.g, d.b, d.a)
  {
    Rgba8(d.r, d.g, d.b, d.a)
  }

  /** Converting to BGRA and back is the identity, in both directions. */
  lemma ConversionsRoundTrip(c: Rgba8, d: Bgra8)
    ensures ToRgba8(ToBgra8(c)) == c
    ensures ToBgra8(ToRgba8(d)) == d
  {
  }

  /** The two constructors take the same channels in different positions:
      `Bgra8::from(Rgba8::new(r, g, b, a)) == Bgra8::new(b, g, r, a)`, and the
      conversions map one default to the other. */
  lemma ConstructorOrders(r: u8, g: u8, b: u8, a: u8)
    ensures ToBgra8(Rgba8(r, g, b, a)) == Bgra8(b, g, r, a)
    ensures ToRgba8(Bgra8(b, g, r, a)) == Rgba8(r, g, b, a)
    ensures ToBgra8(DEFAULT_RGBA8) == DEFAULT_BGRA8
  {
  }

  // ---------------------------------------------------------------------------
  // The derived `Ord` on Rgba8

  datatype Ordering = Less | Equal | Greater

  function CmpU8(x: u8, y: u8): Ordering {
    if x < y then Less else if x == y then Equal else Greater
  }

  /** `#[derive(Ord)]` compares the fields in declaration order: r, then g, b, a.
      Two colours compare Equal exactly when they are the same colour, and the red
      channel, compared first, decides unless it is equal. */
  function Cmp(x: Rgba8, y: Rgba8): (o: Ordering)
    ensures o == Equal <==> x == y
    ensures x.r < y.r ==> o == Less
    ensures x.r > y.r ==> o == Greater
  {
    match CmpU8(x.r, y.r)
    case Equal =>
      (match CmpU8(x.g, y.g)
       case Equal =>
         (match CmpU8(x.b, y.b)
          case Equal => CmpU8(x.a, y.a)
          case o => o)
       case o => o)
    case o => o
  }

  /** The u32 whose bytes, from most to least significant, are r, g, b, a. */
  function Packed(c: Rgba8): u32 {
    (c.r as int * 0x100_0000 + c.g as int * 0x1_0000 + c.b as int * 0x100 + c.a as int) as u32
  }

  lemma Div256(q: int, rem: int)
    requires 0 <= rem < 0x100
    ensures (q * 0x100 + rem) / 0x100 == q && (q * 0x100 + rem) % 0x100 == rem
  {
  }

  lemma Div65536(q: int, rem: int)
    requires 0 <= rem < 0x1_0000
    ensures (q * 0x1_0000 + rem) / 0x1_0000 == q
  {
  }

  lemma Div16777216(q: int, rem: int)
    requires 0 <= rem < 0x100_0000
    ensures (q * 0x100_0000 + rem) / 0x100_0000 == q
  {
  }

  /** Unpacking a packed colour gives the colour back; so `Packed` is injective. */
  lemma {:induction false} UnpackPacked(c: Rgba8)
    ensures FromU32Corrected(Packed(c)) == c
  {
    Div16777216(c.r as int, c.g as int * 0x1_0000 + c.b as int * 0x100 + c.a as int);
    Div65536(c.r as int * 0x100 + c.g as int, c.b as int * 0x100 + c.a as int);
    Div256(c.r as int * 0x1_0000 + c.g as int * 0x100 + c.b as int, c.a as int);
    Div256(c.r as int * 0x100 + c.g as int, c.b as int);
    Div256(c.r as int, c.g as int);
  }

  /** The derived ordering is the numeric order of the packed value: a reference
      definition from which it follows that `Cmp` is a total order whose `Equal`
      is structural equality. */
  lemma CmpIsPackedOrder(x: Rgba8, y: Rgba8)
    ensures Cmp(x, y) == Less <==> Packed(x) < Packed(y)
    ensures Cmp(x, y) == Equal <==> x == y
    ensures Cmp(x, y) == Greater <==> Packed(x) > Packed(y)
  {
    UnpackPacked(x);
    UnpackPacked(y);
  }

  /** Packing the unpacked channels of any u32 gives it back, so the corrected
      conversion loses nothing. */
  lemma {:induction false} PackUnpacked(x: u32)
    ensures Packed(FromU32Corrected(x)) == x
  {
    var n := x as int;
    var q1, q2, q3 := n / 0x100, n / 0x1_0000, n / 0x100_0000;
    assert q2 == q1 / 0x100;
    assert q3 == q2 / 0x100;
    assert n == q1 * 0x100 + n % 0x100;
    assert q1 == q2 * 0x100 + q1 % 0x100;
    assert q2 == q3 * 0x100 + q2 % 0x100;
  }

  /** The ordering is antisymmetric: x < y exactly when y > x. */
  lemma CmpAntisymmetric(x: Rgba8, y: Rgba8)
    ensures Cmp(x, y) == Less <==> Cmp(y, x) == Greater
  {
    CmpIsPackedOrder(x, y);
    CmpIsPackedOrder(y, x);
  }

  /** The ordering is transitive. */
  lemma CmpTransitive(x: Rgba8, y: Rgba8, z: Rgba8)
    requires Cmp(x, y) == Less && Cmp(y, z) == Less
    ensures Cmp(x, z) == Less
  {
    CmpIsPackedOrder(x, y);
    CmpIsPackedOrder(y, z);
    CmpIsPackedOrder(x, z);
  }

  /** The derived default is the least colour. */
  lemma DefaultIsLeast(x: Rgba8)
    ensures Cmp(DEFAULT_RGBA8, x) != Greater
  {
    CmpIsPackedOrder(DEFAULT_RGBA8, x);
  }

  // ---------------------------------------------------------------------------
  // `impl From<u32> for Rgba8`

  /** As written: `r: (rgba << 24 & 0xFF) as u8` and likewise for g and b. In Rust
      `<<` binds tighter than `&`, so each channel is the low byte of a left shift;
      on a u32, `x << k` is `x * 2^k mod 2^32`. */
  function FromU32(x: u32): (c: Rgba8)
    ensures c.a as int == x as int % 0x100
  {
    Rgba8((((x as int * 0x100_0000) % U32_LIMIT) % 0x100) as u8,
          (((x as int * 0x1_0000) % U32_LIMIT) % 0x100) as u8,
          (((x as int * 0x100) % U32_LIMIT) % 0x100) as u8,
          (x as int % 0x100) as u8)
  }

  /** What the code does: the low byte of a left shift by 8 or more bits is zero,
      so r, g and b are always 0 and only the lowest byte survives, in a. Two
      colours differing only in r, g or b come out equal. */
  lemma FromU32DropsHighBytes(x: u32)
    ensures FromU32(x) == Rgba8(0, 0, 0, (x as int % 0x100) as u8)
  {
    var n := x as int;
    LowByteOfShift(n * 0x100_0000, n * 0x1_0000);
    LowByteOfShift(n * 0x1_0000, n * 0x100);
    LowByteOfShift(n * 0x100, n);
  }

  lemma ModMultiple(q: int, rem: int)
    ensures (q * 0x100 + rem) % 0x100 == rem % 0x100
  {
  }

  /** A u32 multiple of 256 has a zero low byte even after wrapping. */
  lemma {:induction false} LowByteOfShift(y: int, k: int)
    requires y == k * 0x100
    ensures (y % U32_LIMIT) % 0x100 == 0
  {
    var q, r := y / U32_LIMIT, y % U32_LIMIT;
    assert y == (q * 0x100_0000) * 0x100 + r;
    ModMultiple(q * 0x100_0000, r);
    ModMultiple(k, 0);
  }

  /** The input that shows it: 0x11223344 unpacks to (0, 0, 0, 0x44), not to
      (0x11, 0x22, 0x33, 0x44). */
  lemma FromU32Counterexample()
    ensures FromU32(0x1122_3344) == Rgba8(0, 0, 0, 0x44)
    ensures FromU32Corrected(0x1122_3344) == Rgba8(0x11, 0x22, 0x33, 0x44)
  {
    FromU32DropsHighBytes(0x1122_3344);
    assert 0x1122_3344 / 0x100_0000 == 0x11;
    assert 0x1122_3344 / 0x1_0000 == 0x1122;
    assert 0x1122_3344 / 0x100 == 0x11_2233;
  }

  /** The evidently intended conversion, `(rgba >> 24 & 0xFF) as u8` and so on: the
      inverse of `Packed`. */
  function FromU32Corrected(x: u32): (c: Rgba8)
  {
    Rgba8(((x as int / 0x100_0000) % 0x100) as u8,
          ((x as int / 0x1_0000) % 0x100) as u8,
          ((x as int / 0x100) % 0x100) as u8,
          (x as int % 0x100) as u8)
  }
}
