/**
 * The CSS custom-property text offered for copying: five `--color-*`
 * declarations in the fixed order base, main, sub, accent, text.
 */
module Export {
  import opened Hex
  import opened Palette
  import opened Theme
  import opened Presets

  const Header: string := "/* Color Palette Output */\n:root {\n"
  const BaseLabel: string := "  --color-base:   "
  const MainLabel: string := "  --color-main:   "
  const SubLabel: string := "  --color-sub:    "
  const AccentLabel: string := "  --color-accent: "
  const TextLabel: string := "  --color-text:   "
  const LineEnd: string := ";\n"
  const Footer: string := ";\n}"

  /** The exported text; in dark mode the text line carries dark mode's forced text colour. */
  function CssText(colors: ColorSet, mode: StyleMode): (css: string)
    ensures colors.Valid() ==> |css| == 171
    ensures colors.Valid() ==>
      css[35..53] == BaseLabel && css[62..80] == MainLabel && css[89..107] == SubLabel &&
      css[116..134] == AccentLabel && css[143..161] == TextLabel &&
      css[53..60] == colors.base && css[80..87] == colors.main && css[107..114] == colors.sub &&
      css[134..141] == colors.accent &&
      css[161..168] == (if mode == Dark then DarkText else colors.text)
  {
    Layout(colors.base, colors.main, colors.sub, colors.accent,
      if mode == Dark then DarkText else colors.text);
    Header +
    BaseLabel + colors.base + LineEnd +
    MainLabel + colors.main + LineEnd +
    SubLabel + colors.sub + LineEnd +
    AccentLabel + colors.accent + LineEnd +
    TextLabel + (if mode == Dark then DarkText else colors.text) + Footer
  }

  /** Column at which the value of each declaration starts. */
  function ValueOffset(f: Field): nat {
    match f
    case Base => 53
    case Main => 80
    case Sub => 107
    case Accent => 134
    case Text => 161
  }

  /** The seven characters of the value declared for a field. */
  function ExportedValue(css: string, f: Field): string
    requires |css| >= ValueOffset(f) + 7
  {
    css[ValueOffset(f)..ValueOffset(f) + 7]
  }

  /** Where the five values sit in the text, for values of seven characters. */
  lemma Layout(base: string, main: string, sub: string, accent: string, text: string)
    ensures |base| == |main| == |sub| == |accent| == |text| == 7 ==>
      var css := Header + BaseLabel + base + LineEnd + MainLabel + main + LineEnd +
        SubLabel + sub + LineEnd + AccentLabel + accent + LineEnd + TextLabel + text + Footer;
      |css| == 171 &&
      css[35..53] == BaseLabel && css[62..80] == MainLabel && css[89..107] == SubLabel &&
      css[116..134] == AccentLabel && css[143..161] == TextLabel &&
      css[53..60] == base && css[80..87] == main && css[107..114] == sub &&
      css[134..141] == accent && css[161..168] == text
  {
    if |base| == |main| == |sub| == |accent| == |text| == 7 {
      LayoutOfSevens(base, main, sub, accent, text);
      LabelsOfSevens(base, main, sub, accent, text);
    }
  }

  lemma LayoutOfSevens(base: string, main: string, sub: string, accent: string, text: string)
    requires |base| == |main| == |sub| == |accent| == |text| == 7
    ensures var css := Header + BaseLabel + base + LineEnd + MainLabel + main + LineEnd +
      SubLabel + sub + LineEnd + AccentLabel + accent + LineEnd + TextLabel + text + Footer;
      |css| == 171 &&
      css[53..60] == base && css[80..87] == main && css[107..114] == sub &&
      css[134..141] == accent && css[161..168] == text
  {
    var a := Header + BaseLabel;
    var b := a + base + LineEnd + MainLabel;
    var c := b + main + LineEnd + SubLabel;
    var d := c + sub + LineEnd + AccentLabel;
    var e := d + accent + LineEnd + TextLabel;
    var css := e + text + Footer;
    assert |a| == 53 && |b| == 80 && |c| == 107 && |d| == 134 && |e| == 161;
    assert css[..161] == e && css[161..168] == text;
    assert e[..134] == d && e[134..141] == accent;
    assert d[..107] == c && d[107..114] == sub;
    assert c[..80] == b && c[80..87] == main;
    assert b[..53] == a && b[53..60] == base;
  }

  lemma LabelsOfSevens(base: string, main: string, sub: string, accent: string, text: string)
    requires |base| == |main| == |sub| == |accent| == |text| == 7
    ensures var css := Header + BaseLabel + base + LineEnd + MainLabel + main + LineEnd +
      SubLabel + sub + LineEnd + AccentLabel + accent + LineEnd + TextLabel + text + Footer;
      css[35..53] == BaseLabel && css[62..80] == MainLabel && css[89..107] == SubLabel &&
      css[116..134] == AccentLabel && css[143..161] == TextLabel
  {
    var a := Header + BaseLabel;
    var b := a + base + LineEnd + MainLabel;
    var c := b + main + LineEnd + SubLabel;
    var d := c + sub + LineEnd + AccentLabel;
    var e := d + accent + LineEnd + TextLabel;
    var css := e + text + Footer;
    assert |a| == 53 && |b| == 80 && |c| == 107 && |d| == 134 && |e| == 161;
    assert css[..161] == e && e[..134] == d && d[..107] == c && c[..80] == b && b[..53] == a;
    assert e[143..161] == TextLabel && d[116..134] == AccentLabel && c[89..107] == SubLabel;
    assert b[62..80] == MainLabel && a[35..53] == BaseLabel;
  }

  /**
   * Reading the text back: for a well-formed palette the declared values
   * are base, main, sub and accent as they are in the palette (the base is
   * the user's base even in dark mode) and the text value is the palette's
   * text, or dark mode's forced text colour.
   */
  lemma ReadBack(colors: ColorSet, mode: StyleMode, f: Field)
    requires colors.Valid()
    ensures |CssText(colors, mode)| == 171
    ensures ExportedValue(CssText(colors, mode), f) ==
      if f == Text && mode == Dark then DarkText else colors.Get(f)
  {
  }

  /** The luxury preset exports its own base `#1c1917` but the forced text colour. */
  lemma LuxuryExport()
    ensures var css := CssText(Luxury, PresetMode("luxury"));
      |css| == 171 && css[53..60] == "#1c1917" && css[161..168] == "#f1f5f9"
  {
    LuxuryValid();
    ReadBack(Luxury, Dark, Base);
    ReadBack(Luxury, Dark, Text);
  }
}
