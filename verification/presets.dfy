/**
 * The four named theory presets offered as one-click palettes.
 */
module Presets {
  import opened Hex
  import opened Palette

  const Trust: ColorSet := ColorSet("#f0f9ff", "#0369a1", "#bae6fd", "#0ea5e9", "#0c4a6e")
  const Energy: ColorSet := ColorSet("#fff7ed", "#ea580c", "#fed7aa", "#facc15", "#431407")
  const Relax: ColorSet := ColorSet("#fcfdf5", "#4d7c0f", "#d9f99d", "#a16207", "#1a2e05")
  const Luxury: ColorSet := ColorSet("#1c1917", "#d4af37", "#44403c", "#ffffff", "#fafaf9")

  /** The palette a preset name selects, or None for a name that is not a preset. */
  function PresetColors(name: string): (r: Option<ColorSet>)
    ensures r.Some? <==> name == "trust" || name == "energy" || name == "relax" || name == "luxury"
    ensures r.Some? ==> r.value.Valid()
  {
    TrustValid();
    EnergyValid();
    RelaxValid();
    LuxuryValid();
    if name == "trust" then Some(Trust)
    else if name == "energy" then Some(Energy)
    else if name == "relax" then Some(Relax)
    else if name == "luxury" then Some(Luxury)
    else None
  }

  /** Only the luxury preset switches to dark mode; every other name means clean. */
  function PresetMode(name: string): (m: StyleMode)
    ensures m == Dark <==> name == "luxury"
    ensures m != Bold
  {
    if name == "luxury" then Dark else Clean
  }

  lemma TrustValid() ensures Trust.Valid() {
    assert ValidHex("#f0f9ff") && ValidHex("#0369a1") && ValidHex("#bae6fd");
    assert ValidHex("#0ea5e9") && ValidHex("#0c4a6e");
  }

  lemma EnergyValid() ensures Energy.Valid() {
    assert ValidHex("#fff7ed") && ValidHex("#ea580c") && ValidHex("#fed7aa");
    assert ValidHex("#facc15") && ValidHex("#431407");
  }

  lemma RelaxValid() ensures Relax.Valid() {
    assert ValidHex("#fcfdf5") && ValidHex("#4d7c0f") && ValidHex("#d9f99d");
    assert ValidHex("#a16207") && ValidHex("#1a2e05");
  }

  lemma LuxuryValid() ensures Luxury.Valid() {
    assert ValidHex("#1c1917") && ValidHex("#d4af37") && ValidHex("#44403c");
    assert ValidHex("#ffffff") && ValidHex("#fafaf9");
  }
}
