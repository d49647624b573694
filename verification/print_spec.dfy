// Print geometry of a card (lib/printSpec.ts): inches to pixels at a DPI.
module PrintSpec {
  import opened Common

  const CardWidthIn: real := 2.5
  const CardHeightIn: real := 3.5
  const BleedIn: real := 0.125
  const SafeIn: real := 0.125
  const Dpi: real := 300.0

  datatype SizePx = SizePx(width: int, height: int)

  /** `Math.round(inches * dpi)`: the nearest whole pixel, halves rounding up. */
  function InchesToPx(inches: real, dpi: real): (px: int)
    ensures inches * dpi - 0.5 < px as real <= inches * dpi + 0.5
  {
    Round(inches * dpi)
  }

  /** More inches never give fewer pixels at a fixed non-negative DPI. */
  lemma InchesToPxMonotone(a: real, b: real, dpi: real)
    requires a <= b && 0.0 <= dpi
    ensures InchesToPx(a, dpi) <= InchesToPx(b, dpi)
  {
    assert a * dpi <= b * dpi;
    RoundMonotone(a * dpi, b * dpi);
  }

  function TrimSizePx(): (s: SizePx)
    ensures s == SizePx(750, 1050)
  {
    RoundOfInt(750);
    RoundOfInt(1050);
    SizePx(InchesToPx(CardWidthIn, Dpi), InchesToPx(CardHeightIn, Dpi))
  }

  /** The trim size grown by the bleed on both edges of each axis. */
  function FullBleedSizePx(): (s: SizePx)
    ensures s == SizePx(825, 1125)
  {
    RoundOfInt(825);
    RoundOfInt(1125);
    SizePx(InchesToPx(CardWidthIn + BleedIn * 2.0, Dpi),
           InchesToPx(CardHeightIn + BleedIn * 2.0, Dpi))
  }

  /** Because the bleed is positive, the full-bleed raster is strictly larger on both axes. */
  lemma FullBleedExceedsTrim()
    ensures FullBleedSizePx().width > TrimSizePx().width
    ensures FullBleedSizePx().height > TrimSizePx().height
  {
  }
}
