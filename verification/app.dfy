/**
 * The component's state and its handlers: the palette being previewed, the
 * style mode, the number of active colour slots and the last harmony scheme
 * the smart generator used.
 */
module App {
  import opened Hex
  import opened Palette
  import opened Theme
  import opened Smart
  import opened Presets

  /** The five hex colours of an HSL palette, through a conversion function. */
  function ToColors(p: HslPalette, toHex: Hsl -> string): ColorSet {
    ColorSet(toHex(p.base), toHex(p.main), toHex(p.sub), toHex(p.accent), toHex(p.text))
  }

  class ColorArchitect {
    var colors: ColorSet
    var activeSlots: int
    var styleMode: StyleMode
    var lastScheme: Option<string>

    /** Every colour is a `#rrggbb` string and one to four slots are active. */
    ghost predicate Valid()
      reads this
    {
      colors.Valid() && 1 <= activeSlots <= 4
    }

    constructor ()
      ensures Valid()
      ensures colors == DefaultColors && activeSlots == 4 && styleMode == Clean && lastScheme == None
    {
      colors := DefaultColors;
      activeSlots := 4;
      styleMode := Clean;
      lastScheme := None;
      new;
      DefaultValid();
    }

    /** A colour picker changed one slot: exactly that field is replaced. */
    method UpdateColor(key: Field, value: string)
      requires Valid() && ValidHex(value)
      modifies this
      ensures Valid()
      ensures colors == old(colors).With(key, value)
      ensures activeSlots == old(activeSlots) && styleMode == old(styleMode) && lastScheme == old(lastScheme)
    {
      WithKeepsValid(colors, key, value);
      colors := colors.With(key, value);
    }

    /** The slot-count buttons offer 1 to 4. */
    method SelectSlots(n: int)
      requires Valid() && 1 <= n <= 4
      modifies this
      ensures Valid()
      ensures activeSlots == n
      ensures colors == old(colors) && styleMode == old(styleMode) && lastScheme == old(lastScheme)
    {
      activeSlots := n;
    }

    method SelectMode(mode: StyleMode)
      requires Valid()
      modifies this
      ensures Valid()
      ensures styleMode == mode
      ensures colors == old(colors) && activeSlots == old(activeSlots) && lastScheme == old(lastScheme)
    {
      styleMode := mode;
    }

    /**
     * Uniform random colours for main, sub and accent; each draw stands for
     * `Math.floor(Math.random() * 16777215)`. Base and text are kept.
     */
    method GenerateFullRandom(mainDraw: int, subDraw: int, accentDraw: int)
      requires Valid()
      requires 0 <= mainDraw < 0xff_ffff && 0 <= subDraw < 0xff_ffff && 0 <= accentDraw < 0xff_ffff
      modifies this
      ensures Valid()
      ensures colors == old(colors).(main := FormatColor(mainDraw), sub := FormatColor(subDraw),
                                     accent := FormatColor(accentDraw))
      ensures activeSlots == old(activeSlots) && styleMode == old(styleMode) && lastScheme == old(lastScheme)
    {
      var main, sub, accent := FormatColor(mainDraw), FormatColor(subDraw), FormatColor(accentDraw);
      ReplaceThreeKeepsValid(colors, main, sub, accent);
      colors := colors.(main := main, sub := sub, accent := accent);
    }

    /**
     * The smart generator: the palette of `Generate(d)` converted with
     * `toHex`, then clean mode, all four slots, and the scheme recorded.
     */
    method GenerateSmartRandom(d: Draws, toHex: Hsl -> string)
      requires Valid() && d.InRange()
      requires forall c: Hsl | IsHsl(c) :: ValidHex(toHex(c))
      modifies this
      ensures Valid()
      ensures colors == ToColors(Generate(d).palette, toHex)
      ensures styleMode == Clean && activeSlots == 4 && lastScheme == Some(Generate(d).scheme.Name())
    {
      var g := Generate(d);
      colors := ToColors(g.palette, toHex);
      styleMode := Clean;
      activeSlots := 4;
      lastScheme := Some(g.scheme.Name());
    }

    /**
     * A theory preset: a preset name installs its palette (luxury also dark
     * mode); any other name keeps the palette and selects clean mode. All
     * four slots become active either way.
     */
    method ApplyTheoryPalette(name: string)
      requires Valid()
      modifies this
      ensures Valid()
      ensures colors == if PresetColors(name).Some? then PresetColors(name).value else old(colors)
      ensures styleMode == PresetMode(name) && activeSlots == 4 && lastScheme == old(lastScheme)
    {
      var newColors := colors;
      var mode := Clean;
      if name == "trust" {
        newColors := Trust;
      } else if name == "energy" {
        newColors := Energy;
      } else if name == "relax" {
        newColors := Relax;
      } else if name == "luxury" {
        newColors := Luxury;
        mode := Dark;
      }
      assert PresetColors(name).Some? ==> PresetColors(name).value.Valid();
      colors := newColors;
      styleMode := mode;
      activeSlots := 4;
    }

    /**
     * The style tokens for the current state, built as the page builds them:
     * seeded from the palette, then overwritten for dark mode and for each
     * collapsed slot in turn.
     */
    method ThemeStyles() returns (styles: map<Property, string>)
      requires Valid()
      ensures styles == Resolve(colors, styleMode, activeSlots).StyleMap()
    {
      var c, mode, slots := colors, styleMode, activeSlots;
      var onMain := Contrast.ContrastColor(c.main);
      var onAccent := Contrast.ContrastColor(c.accent);
      var border := if mode == Dark then DarkBorder else LightBorder;
      styles := map[
        CBase := c.base,
        CMain := c.main,
        CSub := c.sub,
        CAccent := c.accent,
        CText := c.text,
        COnMain := onMain,
        COnAccent := onAccent,
        CBorder := border];
      ghost var t := Tokens(c.base, c.main, c.sub, c.accent, c.text, onMain, onAccent, border);
      SeedIsStyleMap(t);
      if mode == Dark {
        SetIsMapUpdate(t, CBase, DarkBase);
        styles, t := styles[CBase := DarkBase], t.Set(CBase, DarkBase);
        SetIsMapUpdate(t, CText, DarkText);
        styles, t := styles[CText := DarkText], t.Set(CText, DarkText);
      }
      ghost var base := if mode == Dark then DarkBase else c.base;
      ghost var text := if mode == Dark then DarkText else c.text;
      assert t == Tokens(base, c.main, c.sub, c.accent, text, onMain, onAccent, border);
      if slots < 4 {
        SetIsMapUpdate(t, CAccent, c.main);
        styles, t := styles[CAccent := c.main], t.Set(CAccent, c.main);
      }
      ghost var accent := if slots < 4 then c.main else c.accent;
      assert t == Tokens(base, c.main, c.sub, accent, text, onMain, onAccent, border);
      if slots < 3 {
        SetIsMapUpdate(t, CSub, c.base);
        styles, t := styles[CSub := c.base], t.Set(CSub, c.base);
      }
      ghost var sub := if slots < 3 then c.base else c.sub;
      assert t == Tokens(base, c.main, sub, accent, text, onMain, onAccent, border);
      if slots < 2 {
        SetIsMapUpdate(t, CMain, Slate);
        styles, t := styles[CMain := Slate], t.Set(CMain, Slate);
      }
      assert t == Layered(c, mode, slots, onMain, onAccent);
    }
  }
}
