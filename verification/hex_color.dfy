/** `Color(hex:alpha:)`: a colour from a packed 0xRRGGBB integer. A right
    shift by k bits is division by 2^k and masking with 0xFF is the
    remainder modulo 256, on the unsigned value. */
module HexColor {

  datatype Color = Color(red: real, green: real, blue: real, opacity: real)

  /** Bits 16-23, 8-15 and 0-7 of `hex`. */
  function RedChannel(hex: nat): (c: nat)
    ensures c < 256
  {
    (hex / 65536) % 256
  }

  function GreenChannel(hex: nat): (c: nat)
    ensures c < 256
  {
    (hex / 256) % 256
  }

  function BlueChannel(hex: nat): (c: nat)
    ensures c < 256
  {
    hex % 256
  }

  /** Each component is its channel over 255, so lies in [0, 1]; the
      opacity is `alpha` unchanged. */
  function FromHex(hex: nat, alpha: real): (c: Color)
    ensures 0.0 <= c.red <= 1.0 && 0.0 <= c.green <= 1.0 && 0.0 <= c.blue <= 1.0
    ensures c.red * 255.0 == RedChannel(hex) as real
    ensures c.green * 255.0 == GreenChannel(hex) as real
    ensures c.blue * 255.0 == BlueChannel(hex) as real
    ensures c.opacity == alpha
  {
    Color(
      RedChannel(hex) as real / 255.0,
      GreenChannel(hex) as real / 255.0,
      BlueChannel(hex) as real / 255.0,
      alpha)
  }

  /** The three channels reassemble the low 24 bits of `hex`: bits above
      the 24th are ignored and nothing below is lost. */
  lemma ChannelsReassemble(hex: nat)
    ensures RedChannel(hex) * 65536 + GreenChannel(hex) * 256 + BlueChannel(hex) == hex % 16777216
  {
    var q, b := hex / 256, hex % 256;
    var q2, g := q / 256, q % 256;
    var q3, r := q2 / 256, q2 % 256;
    assert hex == q * 256 + b;
    assert q == q2 * 256 + g;
    assert q2 == q3 * 256 + r;
    assert hex == q2 * 65536 + (g * 256 + b);
    DivUnique(hex, 65536, q2, g * 256 + b);
    assert hex == q3 * 16777216 + (r * 65536 + g * 256 + b);
    DivUnique(hex, 16777216, q3, r * 65536 + g * 256 + b);
  }

  /** A split of `x` into a quotient and a remainder below `d` is the one
      division gives. */
  lemma DivUnique(x: int, d: int, q: int, m: int)
    requires d == 65536 || d == 16777216
    requires x == q * d + m && 0 <= m < d
    ensures x / d == q && x % d == m
  {
    if d == 65536 {
      assert x == q * 65536 + m;
    } else {
      assert x == q * 16777216 + m;
    }
  }

  /** A packed value and the same value with higher bits set give the same
      colour. */
  lemma HighBitsIgnored(hex: nat, k: nat, alpha: real)
    ensures FromHex(hex + k * 16777216, alpha) == FromHex(hex, alpha)
  {
    var h := hex + k * 16777216;
    assert h / 256 == hex / 256 + k * 65536;
    assert h / 65536 == hex / 65536 + k * 256;
    assert h % 256 == hex % 256;
    assert (h / 256) % 256 == (hex / 256) % 256;
    assert (h / 65536) % 256 == (hex / 65536) % 256;
  }
}
