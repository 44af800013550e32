/**
 * The foreground picker: black-ish ink on light backgrounds, white on dark
 * ones, decided by the YIQ luma of the background colour.
 */
module Contrast {
  import opened Hex

  /** The slate ink chosen for light backgrounds. */
  const Ink: string := "#1e293b"
  /** The white chosen for dark backgrounds. */
  const White: string := "#ffffff"

  /** YIQ luma `(299 r + 587 g + 114 b) / 1000`, on a 0..255 scale. */
  function Yiq(hex: string): real
    requires ValidHex(hex)
  {
    (Red(hex) * 299 + Green(hex) * 587 + Blue(hex) * 114) as real / 1000.0
  }

  /**
   * The foreground for a background colour: Ink when the luma is at least
   * 128, otherwise White. The threshold is the integer condition
   * 299 r + 587 g + 114 b >= 128000, so no rounding enters the decision.
   */
  function ContrastColor(hex: string): (fg: string)
    requires ValidHex(hex)
    ensures ValidHex(fg)
    ensures fg == Ink || fg == White
    ensures fg == Ink <==> 299 * Red(hex) + 587 * Green(hex) + 114 * Blue(hex) >= 128000
  {
    assert ValidHex(Ink) && ValidHex(White);
    if Yiq(hex) >= 128.0 then Ink else White
  }

  /** A background at least as bright in every channel never gets a lighter foreground. */
  lemma ContrastMonotone(dark: string, light: string)
    requires ValidHex(dark) && ValidHex(light)
    requires Red(dark) <= Red(light) && Green(dark) <= Green(light) && Blue(dark) <= Blue(light)
    ensures ContrastColor(dark) == Ink ==> ContrastColor(light) == Ink
  {
  }

  /** The four worked examples: white, black, the default main blue and the default amber. */
  lemma ContrastExamples()
    ensures ContrastColor("#ffffff") == Ink
    ensures ContrastColor("#000000") == White
    ensures ContrastColor("#3b82f6") == White
    ensures ContrastColor("#f59e0b") == Ink
  {
    ChannelsOf("#ffffff", 255, 255, 255);
    ChannelsOf("#000000", 0, 0, 0);
    ChannelsOf("#3b82f6", 59, 130, 246);
    ChannelsOf("#f59e0b", 245, 158, 11);
  }

  lemma ChannelsOf(hex: string, r: nat, g: nat, b: nat)
    requires ValidHex(hex)
    requires r == 16 * DigitValue(hex[1]) + DigitValue(hex[2])
    requires g == 16 * DigitValue(hex[3]) + DigitValue(hex[4])
    requires b == 16 * DigitValue(hex[5]) + DigitValue(hex[6])
    ensures Red(hex) == r && Green(hex) == g && Blue(hex) == b
  {
  }
}
