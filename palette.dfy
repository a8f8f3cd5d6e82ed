/** The palette resolver: a voxel's palette index becomes a normalised RGBA
    colour by looking up a packed 32-bit value and splitting it into bytes. */
module Palette {

  /** An unsigned 8-bit value (`u8`). */
  type Byte = x: int | 0 <= x < 0x100

  /** An unsigned 32-bit value (`u32`), the form in which palette entries are stored. */
  type U32 = x: int | 0 <= x < 0x1_0000_0000

  /** A colour as four channels, each a byte divided by 255, in the order red,
      green, blue, alpha (`[f32; 4]`, with the division done exactly). */
  datatype Rgba = Rgba(r: real, g: real, b: real, a: real)

  /** The weight of byte `k` (0 = least significant) of a 32-bit value, 2^(8k). */
  function ByteWeight(k: nat): (w: nat)
    requires k < 4
  {
    if k == 0 then 1 else if k == 1 then 0x100 else if k == 2 then 0x1_0000 else 0x100_0000
  }

  /** `color >> (8 * k) & 0xFF` on an unsigned value: a logical right shift by
      8k bits is a division by 2^(8k), and the mask keeps the remainder modulo 256. */
  function ByteOf(color: U32, k: nat): Byte
    requires k < 4
  {
    color / ByteWeight(k) % 0x100
  }

  /** The entry at `index`, or the packed value 0 when `index` is past the end
      of the palette (`palette.get(index).unwrap_or(&0)`). */
  function Lookup(palette: seq<U32>, index: nat): U32
  {
    if index < |palette| then palette[index] else 0
  }

  /** A byte as a channel value in [0, 1]. */
  function Normalise(x: Byte): real
  {
    x as real / 255.0
  }

  /** True when `v` is some byte divided by 255. */
  ghost predicate IsChannel(v: real)
  {
    exists x: Byte :: v == Normalise(x)
  }

  /** palette_to_rgba: alpha is the top byte, then blue, then green, and red is
      the low byte; the result lists them as red, green, blue, alpha. Every
      channel lies in [0, 1], and an index past the end of the palette yields
      transparent black instead of failing. */
  function PaletteToRgba(palette: seq<U32>, index: nat): (c: Rgba)
    ensures 0.0 <= c.r <= 1.0 && 0.0 <= c.g <= 1.0 && 0.0 <= c.b <= 1.0 && 0.0 <= c.a <= 1.0
    ensures IsChannel(c.r) && IsChannel(c.g) && IsChannel(c.b) && IsChannel(c.a)
    ensures index >= |palette| ==> c == Rgba(0.0, 0.0, 0.0, 0.0)
  {
    var color := Lookup(palette, index);
    var (a, b, g, r) := (ByteOf(color, 3), ByteOf(color, 2), ByteOf(color, 1), ByteOf(color, 0));
    Rgba(Normalise(r), Normalise(g), Normalise(b), Normalise(a))
  }

  /** The packed value whose bytes, from most to least significant, are alpha,
      blue, green and red: the reference layout palette_to_rgba decodes. */
  function Pack(r: Byte, g: Byte, b: Byte, a: Byte): U32
  {
    a * 0x100_0000 + b * 0x1_0000 + g * 0x100 + r
  }

  /** Splitting a packed value recovers the four bytes it was built from. */
  lemma UnpackPack(r: Byte, g: Byte, b: Byte, a: Byte)
    ensures ByteOf(Pack(r, g, b, a), 0) == r
    ensures ByteOf(Pack(r, g, b, a), 1) == g
    ensures ByteOf(Pack(r, g, b, a), 2) == b
    ensures ByteOf(Pack(r, g, b, a), 3) == a
  {
    var c := Pack(r, g, b, a);
    DivModByWeight(c, 1, a * 0x1_0000 + b * 0x100 + g, r);
    DivModByWeight(c / 0x100, 1, a * 0x100 + b, g);
    DivModByWeight(c, 2, a * 0x100 + b, g * 0x100 + r);
    DivModByWeight(c / 0x1_0000, 1, a, b);
    DivModByWeight(c, 3, a, b * 0x1_0000 + g * 0x100 + r);
  }

  /** Quotient and remainder by a byte weight are unique. */
  lemma DivModByWeight(n: int, k: nat, q: int, r: int)
    requires 0 < k < 4 && 0 <= r < ByteWeight(k) && n == q * ByteWeight(k) + r
    ensures n / ByteWeight(k) == q && n % ByteWeight(k) == r
  {
    if k == 1 {
      assert n / 0x100 == q;
    } else if k == 2 {
      assert n / 0x1_0000 == q;
    } else {
      assert n / 0x100_0000 == q;
    }
  }

  /** Packing the four bytes of a value rebuilds that value: no bit is lost. */
  lemma PackUnpack(c: U32)
    ensures Pack(ByteOf(c, 0), ByteOf(c, 1), ByteOf(c, 2), ByteOf(c, 3)) == c
  {
    var q1 := c / 0x100;
    var q2 := q1 / 0x100;
    var q3 := q2 / 0x100;
    var b0, b1, b2 := c % 0x100, q1 % 0x100, q2 % 0x100;
    assert c == q3 * 0x100_0000 + b2 * 0x1_0000 + b1 * 0x100 + b0;
    DivModByWeight(c, 1, q1, b0);
    DivModByWeight(c, 2, q2, b1 * 0x100 + b0);
    DivModByWeight(c, 3, q3, b2 * 0x1_0000 + b1 * 0x100 + b0);
  }

  /** Byte order: the entry at `index` packed as (alpha, blue, green, red) from
      the top byte down resolves to [red, green, blue, alpha], each over 255. */
  lemma PaletteToRgbaPacked(palette: seq<U32>, index: nat, r: Byte, g: Byte, b: Byte, a: Byte)
    requires index < |palette| && palette[index] == Pack(r, g, b, a)
    ensures PaletteToRgba(palette, index)
         == Rgba(r as real / 255.0, g as real / 255.0, b as real / 255.0, a as real / 255.0)
  {
    UnpackPack(r, g, b, a);
  }

  /** The colour a valid index resolves to determines the packed entry exactly:
      two in-range entries give the same colour only if they are equal. */
  lemma PaletteToRgbaInjective(p: seq<U32>, i: nat, q: seq<U32>, j: nat)
    requires i < |p| && j < |q|
    ensures PaletteToRgba(p, i) == PaletteToRgba(q, j) <==> p[i] == q[j]
  {
    if PaletteToRgba(p, i) == PaletteToRgba(q, j) {
      PackUnpack(p[i]);
      PackUnpack(q[j]);
    }
  }

  /** An out-of-range index behaves exactly as an entry holding the packed value 0. */
  lemma OutOfRangeIsZero(palette: seq<U32>, index: nat)
    requires index >= |palette|
    ensures PaletteToRgba(palette, index) == PaletteToRgba([0], 0)
    ensures PaletteToRgba(palette, index) == Rgba(0.0, 0.0, 0.0, 0.0)
  {
  }

  /** A palette entry with alpha byte 0xFF, red byte 0xEE and the other bytes 0
      (the red of the default palette at index 215) gives red 238/255 and full alpha. */
  lemma OpaqueRedExample(palette: seq<U32>)
    requires |palette| > 215 && palette[215] == 0xFF0000EE
    ensures PaletteToRgba(palette, 215) == Rgba(238.0 / 255.0, 0.0, 0.0, 1.0)
  {
    assert 0xFF0000EE == Pack(0xEE, 0, 0, 0xFF);
    PaletteToRgbaPacked(palette, 215, 0xEE, 0, 0, 0xFF);
  }
}
