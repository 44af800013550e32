/**
 * Resolution of a palette, a style mode and an active-slot count into the
 * eight `--c-*` style tokens the preview page reads.
 */
module Theme {
  import opened Hex
  import opened Contrast
  import opened Palette

  /** Dark mode's forced background. */
  const DarkBase: string := "#0f172a"
  /** Dark mode's forced text colour. */
  const DarkText: string := "#f1f5f9"
  /** Border colour in dark mode. */
  const DarkBorder: string := "#334155"
  /** Border colour in clean and bold mode. */
  const LightBorder: string := "#e2e8f0"
  /** The neutral the main slot collapses to with a single active slot. */
  const Slate: string := "#334155"

  /** The eight CSS custom properties the page is styled with. */
  datatype Property = CBase | CMain | CSub | CAccent | CText | COnMain | COnAccent | CBorder
  {
    /** The custom property's name; all eight share the `--c-` prefix. */
    function Name(): (n: string)
      ensures |n| > 4 && n[..4] == "--c-"
    {
      match this
      case CBase => "--c-base"
      case CMain => "--c-main"
      case CSub => "--c-sub"
      case CAccent => "--c-accent"
      case CText => "--c-text"
      case COnMain => "--c-on-main"
      case COnAccent => "--c-on-accent"
      case CBorder => "--c-border"
    }
  }

  /** The resolved token set. */
  datatype Tokens = Tokens(
    base: string, main: string, sub: string, accent: string, text: string,
    onMain: string, onAccent: string, border: string)
  {
    function Get(p: Property): string {
      match p
      case CBase => base
      case CMain => main
      case CSub => sub
      case CAccent => accent
      case CText => text
      case COnMain => onMain
      case COnAccent => onAccent
      case CBorder => border
    }

    /** The token set with one token overwritten. */
    function Set(p: Property, v: string): Tokens {
      match p
      case CBase => this.(base := v)
      case CMain => this.(main := v)
      case CSub => this.(sub := v)
      case CAccent => this.(accent := v)
      case CText => this.(text := v)
      case COnMain => this.(onMain := v)
      case COnAccent => this.(onAccent := v)
      case CBorder => this.(border := v)
    }

    /** Every token is a `#rrggbb` colour. */
    predicate Valid() {
      ValidHex(base) && ValidHex(main) && ValidHex(sub) && ValidHex(accent) && ValidHex(text) &&
      ValidHex(onMain) && ValidHex(onAccent) && ValidHex(border)
    }

    /** The tokens as a map from CSS custom property to colour. */
    function StyleMap(): map<Property, string> {
      map p | p in AllProperties :: Get(p)
    }

    /** The style object handed to the page: custom-property name to colour. */
    function CssStyle(): (m: map<string, string>)
      ensures forall p: Property :: p.Name() in m && m[p.Name()] == Get(p)
      ensures forall k :: k in m ==> exists p: Property :: k == p.Name()
    {
      CssStyleKeys(this);
      CssLiteral(this)
    }
  }

  const AllProperties: set<Property> :=
    {CBase, CMain, CSub, CAccent, CText, COnMain, COnAccent, CBorder}

  /** The style object literal, name by name. */
  function CssLiteral(t: Tokens): map<string, string> {
    map[
      "--c-base" := t.base, "--c-main" := t.main, "--c-sub" := t.sub, "--c-accent" := t.accent,
      "--c-text" := t.text, "--c-on-main" := t.onMain, "--c-on-accent" := t.onAccent,
      "--c-border" := t.border]
  }

  /** The literal has one entry per custom property, under its name, and no other. */
  lemma CssStyleKeys(t: Tokens)
    ensures forall p: Property :: p.Name() in CssLiteral(t) && CssLiteral(t)[p.Name()] == t.Get(p)
    ensures forall k :: k in CssLiteral(t) ==> exists p: Property :: k == p.Name()
  {
    var m := CssLiteral(t);
    forall p: Property ensures p.Name() in m && m[p.Name()] == t.Get(p) {
      match p
      case CBase =>
      case CMain =>
      case CSub =>
      case CAccent =>
      case CText =>
      case COnMain =>
      case COnAccent =>
      case CBorder =>
    }
    forall k | k in m ensures exists p: Property :: k == p.Name() {
      if k == "--c-base" { assert k == CBase.Name(); }
      else if k == "--c-main" { assert k == CMain.Name(); }
      else if k == "--c-sub" { assert k == CSub.Name(); }
      else if k == "--c-accent" { assert k == CAccent.Name(); }
      else if k == "--c-text" { assert k == CText.Name(); }
      else if k == "--c-on-main" { assert k == COnMain.Name(); }
      else if k == "--c-on-accent" { assert k == COnAccent.Name(); }
      else { assert k == CBorder.Name(); }
    }
  }

  /** No two custom properties share a name. */
  lemma NamesDistinct()
    ensures forall p: Property, q: Property :: p.Name() == q.Name() ==> p == q
  {
    forall p: Property, q: Property | p != q
      ensures p.Name() != q.Name()
    {
      assert p.Name()[4] != q.Name()[4] || p.Name()[5] != q.Name()[5] || |p.Name()| != |q.Name()|;
    }
  }

  /** The map literal of all eight tokens is the style map. */
  lemma SeedIsStyleMap(t: Tokens)
    ensures t.StyleMap() == map[
      CBase := t.base, CMain := t.main, CSub := t.sub, CAccent := t.accent, CText := t.text,
      COnMain := t.onMain, COnAccent := t.onAccent, CBorder := t.border]
  {
  }

  /** Overwriting one entry of the style map is overwriting that token. */
  lemma SetIsMapUpdate(t: Tokens, p: Property, v: string)
    ensures t.Set(p, v).StyleMap() == t.StyleMap()[p := v]
  {
    assert p in AllProperties;
    forall q | q in AllProperties
      ensures t.Set(p, v).Get(q) == if q == p then v else t.Get(q)
    {
      GetAfterSet(t, p, v, q);
    }
  }

  /** Overwriting a token changes that token and no other. */
  lemma GetAfterSet(t: Tokens, p: Property, v: string, q: Property)
    ensures t.Set(p, v).Get(q) == if q == p then v else t.Get(q)
  {
  }

  /**
   * The tokens for a palette, a mode and a slot count, given the two
   * foreground colours: dark mode forces base, text and border, and the
   * collapsed slots read the raw palette, never another token.
   */
  function Layered(colors: ColorSet, mode: StyleMode, slots: int, onMain: string, onAccent: string): Tokens {
    Tokens(
      base := if mode == Dark then DarkBase else colors.base,
      main := if slots < 2 then Slate else colors.main,
      sub := if slots < 3 then colors.base else colors.sub,
      accent := if slots < 4 then colors.main else colors.accent,
      text := if mode == Dark then DarkText else colors.text,
      onMain := onMain,
      onAccent := onAccent,
      border := if mode == Dark then DarkBorder else LightBorder)
  }

  /**
   * Reference definition: the final value of each token, stated token by
   * token, with the two "on" colours contrasting with the raw main and accent.
   */
  function Resolve(colors: ColorSet, mode: StyleMode, slots: int): (t: Tokens)
    requires colors.Valid()
    ensures t.Valid()
    ensures (t.onMain == Ink || t.onMain == White) && (t.onAccent == Ink || t.onAccent == White)
  {
    assert ValidHex(DarkBase) && ValidHex(DarkText) && ValidHex(DarkBorder) && ValidHex(LightBorder);
    assert ValidHex(Slate);
    Layered(colors, mode, slots, ContrastColor(colors.main), ContrastColor(colors.accent))
  }


  /** With all four slots in clean or bold mode the tokens are the palette itself. */
  lemma FullLightTokens(c: ColorSet, mode: StyleMode)
    requires c.Valid() && mode != Dark
    ensures Resolve(c, mode, 4) ==
      Tokens(c.base, c.main, c.sub, c.accent, c.text, ContrastColor(c.main), ContrastColor(c.accent), LightBorder)
  {
  }

  /** Bold mode resolves to exactly the tokens of clean mode. */
  lemma BoldIsClean(c: ColorSet, slots: int)
    requires c.Valid()
    ensures Resolve(c, Bold, slots) == Resolve(c, Clean, slots)
  {
  }

  /** Dark mode replaces background, text and border whatever the palette says. */
  lemma DarkOverride(c: ColorSet, slots: int)
    requires c.Valid()
    ensures var t := Resolve(c, Dark, slots);
      t.base == DarkBase && t.text == DarkText && t.border == DarkBorder
  {
  }

  /**
   * Slot collapse: below 4 slots accent shows the raw main colour, below 3
   * sub shows the raw base colour (the user's base even in dark mode), below
   * 2 main shows slate; the "on" colours never follow the collapse.
   */
  lemma SlotCollapse(c: ColorSet, mode: StyleMode, slots: int)
    requires c.Valid()
    ensures var t := Resolve(c, mode, slots);
      (slots < 4 ==> t.accent == c.main) &&
      (slots < 3 ==> t.sub == c.base) &&
      (slots < 2 ==> t.main == Slate) &&
      t.onMain == ContrastColor(c.main) && t.onAccent == ContrastColor(c.accent)
  {
  }

  /** Outside dark mode a collapsed slot shows the same colour as the slot it collapsed into. */
  lemma CollapsedTokensAlias(c: ColorSet, mode: StyleMode, slots: int)
    requires c.Valid() && mode != Dark
    ensures var t := Resolve(c, mode, slots);
      (2 <= slots < 4 ==> t.accent == t.main) && (slots < 3 ==> t.sub == t.base)
  {
  }

  /**
   * In dark mode with fewer than three slots the sub token shows the user's
   * base colour while the base token shows the forced navy, so the two differ
   * unless the user's base is that navy.
   */
  lemma DarkCollapseShowsUserBase(c: ColorSet, slots: int)
    requires c.Valid() && slots < 3
    ensures var t := Resolve(c, Dark, slots);
      t.sub == c.base && t.base == DarkBase && (c.base != DarkBase ==> t.sub != t.base)
  {
    SlotCollapse(c, Dark, slots);
    DarkOverride(c, slots);
  }

  /** The starting palette in clean mode with four slots: blue with white on it, amber with ink on it. */
  lemma DefaultTokens()
    ensures DefaultColors.Valid()
    ensures Resolve(DefaultColors, Clean, 4) ==
      Tokens("#f8fafc", "#3b82f6", "#bfdbfe", "#f59e0b", "#1e293b", White, Ink, LightBorder)
  {
    DefaultValid();
    ContrastExamples();
  }
}
