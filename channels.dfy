/** Byte-valued channels the worker writes into vertex colours and the splat
    texture. Values are computed on exact reals; float rounding is not modelled. */
module Channels {

  type byte = b: int | 0 <= b < 256

  /** An 8-bit-per-channel colour (FColor). */
  datatype Colour = Colour(r: byte, g: byte, b: byte, a: byte)

  const Transparent: Colour := Colour(0, 0, 0, 0)

  /** FMath::RoundToInt: the floor of `v + 1/2`. */
  function RoundToInt(v: real): (n: int)
    ensures v - 0.5 < n as real <= v + 0.5
  {
    (v + 0.5).Floor
  }

  /** An int stored into a uint8: only the low eight bits survive. */
  function NarrowToByte(v: int): (b: byte)
    ensures (v - b) % 256 == 0
    ensures 0 <= v < 256 ==> b == v
  {
    v % 256
  }

  /** FMath::GetMappedRangeValueClamped from [lo, lo + 1] onto [0, 255],
      then truncated to uint8 (the splat map's red and green texels). */
  function MappedRangeByte(v: real, lo: real): (b: byte)
    ensures v <= lo ==> b == 0
    ensures v >= lo + 1.0 ==> b == 255
    ensures lo <= v <= lo + 1.0 ==> b as real <= (v - lo) * 255.0 < b as real + 1.0
  {
    var pct := if v - lo < 0.0 then 0.0 else if v - lo > 1.0 then 1.0 else v - lo;
    (pct * 255.0).Floor
  }

  /** A higher sample never gives a smaller mapped byte. */
  lemma MappedRangeByteMonotone(v1: real, v2: real, lo: real)
    requires v1 <= v2
    ensures MappedRangeByte(v1, lo) <= MappedRangeByte(v2, lo)
  {
    var p1 := if v1 - lo < 0.0 then 0.0 else if v1 - lo > 1.0 then 1.0 else v1 - lo;
    var p2 := if v2 - lo < 0.0 then 0.0 else if v2 - lo > 1.0 then 1.0 else v2 - lo;
    assert p1 * 255.0 <= p2 * 255.0;
  }

  /** Biome blend value in the green vertex channel: the noise value mapped
      from [-1, 1] onto [0, 256], rounded, then clamped to a byte. */
  function BiomeChannel(noise: real): (g: byte)
    ensures -1.0 <= noise <= 1.0 && RoundToInt(((noise + 1.0) / 2.0) * 256.0) < 256
            ==> g == RoundToInt(((noise + 1.0) / 2.0) * 256.0)
    ensures noise <= -1.0 ==> g == 0
    ensures noise >= 1.0 ==> g == 255
    ensures RoundToInt(((noise + 1.0) / 2.0) * 256.0) >= 256 ==> g == 255
    ensures RoundToInt(((noise + 1.0) / 2.0) * 256.0) < 0 ==> g == 0
  {
    var v := RoundToInt(((noise + 1.0) / 2.0) * 256.0);
    if v < 0 then 0 else if v > 255 then 255 else v
  }

  /** Slope in the red vertex channel: RoundToInt((1 - |n.z|) * 256) stored
      into a uint8, which keeps the low eight bits. */
  function SlopeChannel(nz: real): byte
  {
    var steep := 1.0 - (if nz < 0.0 then -nz else nz);
    NarrowToByte(RoundToInt(steep * 256.0))
  }

  /** For a unit normal the slope is the rounded steepness, except that a
      normal within 1/512 of horizontal rounds to 256 and wraps to 0, the
      value of a flat tile: nothing clamps it. */
  lemma SlopeChannelOfUnitNormal(nz: real)
    requires -1.0 <= nz <= 1.0
    ensures var steep := 1.0 - (if nz < 0.0 then -nz else nz);
      if -1.0 / 512.0 <= nz <= 1.0 / 512.0 then SlopeChannel(nz) == 0
      else SlopeChannel(nz) == RoundToInt(steep * 256.0)
  {
    var steep := 1.0 - (if nz < 0.0 then -nz else nz);
    var v := RoundToInt(steep * 256.0);
    if -1.0 / 512.0 <= nz <= 1.0 / 512.0 {
      assert v == 256;
    } else {
      assert 0 <= v < 256;
    }
  }
}
