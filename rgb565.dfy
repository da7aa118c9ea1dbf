/** `lcd_rgb_to_565` and the named colours of the ST7789 header: 8-bit-per-channel
    colour packed into a 16-bit word as 5 bits red, 6 bits green, 5 bits blue. */
module Rgb565 {
  const LcdColorBlack: bv16 := 0x0000
  const LcdColorWhite: bv16 := 0xFFFF
  const LcdColorRed: bv16 := 0xF800
  const LcdColorGreen: bv16 := 0x07E0
  const LcdColorBlue: bv16 := 0x001F
  const LcdColorYellow: bv16 := 0xFFE0
  const LcdColorMagenta: bv16 := 0xF81F
  const LcdColorCyan: bv16 := 0x07FF

  /** The three fields of a packed colour. */
  function Red5(c: bv16): bv16 { c >> 11 }
  function Green6(c: bv16): bv16 { (c >> 5) & 0x3F }
  function Blue5(c: bv16): bv16 { c & 0x1F }

  /** The packer; the C operands are promoted to `int`, and the result always
      fits the 16-bit return type, so computing in 16 bits loses nothing. */
  function RgbTo565(r: bv8, g: bv8, b: bv8): (c: bv16)
    ensures Red5(c) == (r >> 3) as bv16
    ensures Green6(c) == (g >> 2) as bv16
    ensures Blue5(c) == (b >> 3) as bv16
  {
    (((r as bv16) & 0xF8) << 8) | (((g as bv16) & 0xFC) << 3) | ((b as bv16) >> 3)
  }

  /** The shifted fields occupy disjoint bits, so the OR is their sum. */
  lemma FieldsDisjoint(r: bv8, g: bv8, b: bv8)
    ensures RgbTo565(r, g, b) == (((r as bv16) & 0xF8) << 8) + (((g as bv16) & 0xFC) << 3) + ((b as bv16) >> 3)
    ensures RgbTo565(r, g, b) == ((r >> 3) as bv16) * 2048 + ((g >> 2) as bv16) * 32 + (b >> 3) as bv16
  {
  }

  /** Only the top 5/6/5 bits of each channel matter. */
  lemma LowBitsIgnored(r1: bv8, g1: bv8, b1: bv8, r2: bv8, g2: bv8, b2: bv8)
    requires r1 >> 3 == r2 >> 3 && g1 >> 2 == g2 >> 2 && b1 >> 3 == b2 >> 3
    ensures RgbTo565(r1, g1, b1) == RgbTo565(r2, g2, b2)
  {
  }

  /** Packing is monotone in each channel when the other two are fixed. */
  lemma Monotone(r1: bv8, r2: bv8, g1: bv8, g2: bv8, b1: bv8, b2: bv8)
    ensures r1 <= r2 ==> RgbTo565(r1, g1, b1) <= RgbTo565(r2, g1, b1)
    ensures g1 <= g2 ==> RgbTo565(r1, g1, b1) <= RgbTo565(r1, g2, b1)
    ensures b1 <= b2 ==> RgbTo565(r1, g1, b1) <= RgbTo565(r1, g1, b2)
  {
  }

  /** The named colours are the packings of the corresponding full-intensity triples. */
  lemma NamedColours()
    ensures RgbTo565(0, 0, 0) == LcdColorBlack
    ensures RgbTo565(255, 255, 255) == LcdColorWhite
    ensures RgbTo565(255, 0, 0) == LcdColorRed
    ensures RgbTo565(0, 255, 0) == LcdColorGreen
    ensures RgbTo565(0, 0, 255) == LcdColorBlue
    ensures RgbTo565(255, 255, 0) == LcdColorYellow
    ensures RgbTo565(255, 0, 255) == LcdColorMagenta
    ensures RgbTo565(0, 255, 255) == LcdColorCyan
  {
  }
}
