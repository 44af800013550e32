/**
 * The "smart" palette generator: a main colour, one of four colour-harmony
 * schemes, and light, vivid and dark companions drawn from fixed ranges.
 * Colours are produced here as HSL triples (hue in degrees, saturation and
 * lightness in percent); turning them into hex strings is left to a
 * conversion function supplied by the caller. Every `Math.random()` draw is
 * an integer field of `Draws`.
 */
module Smart {

  datatype Hsl = Hsl(h: int, s: int, l: int)

  /** The four harmony schemes, in the order the generator lists them. */
  datatype Scheme = Complementary | SplitComplementary | Analogous | Triadic
  {
    /** The label recorded as the last scheme used. */
    function Name(): string {
      match this
      case Complementary => "complementary"
      case SplitComplementary => "splitComplementary"
      case Analogous => "analogous"
      case Triadic => "triadic"
    }
  }

  /**
   * The outcome of each random draw, as the integer the generator derives
   * from it: `Math.floor(Math.random() * k)` becomes a value in 0..k-1,
   * `Math.round(Math.random())` a value in 0..1 and `Math.random() > 0.5` a
   * boolean.
   */
  datatype Draws = Draws(
    mainHue: int, mainSat: int, mainLight: int,
    splitTurn: int, accentClockwise: bool, subClockwise: bool,
    schemePick: int,
    subSat: int, subLight: int,
    accentSat: int, accentLight: int,
    baseLight: int, baseSat: int,
    textSat: int, textLight: int)
  {
    predicate InRange() {
      0 <= mainHue < 360 && 0 <= mainSat < 30 && 0 <= mainLight < 20 &&
      0 <= splitTurn <= 1 && 0 <= schemePick < 4 &&
      0 <= subSat < 15 && 0 <= subLight < 7 &&
      0 <= accentSat < 25 && 0 <= accentLight < 15 &&
      0 <= baseLight < 3 && 0 <= baseSat < 15 &&
      0 <= textSat < 20 && 0 <= textLight < 10
    }
  }

  datatype HslPalette = HslPalette(base: Hsl, main: Hsl, sub: Hsl, accent: Hsl, text: Hsl)

  /** A generated palette together with the scheme it was built from. */
  datatype Generated = Generated(palette: HslPalette, scheme: Scheme)

  function SchemeAt(i: int): Scheme
    requires 0 <= i < 4
  {
    if i == 0 then Complementary
    else if i == 1 then SplitComplementary
    else if i == 2 then Analogous
    else Triadic
  }

  /** The accent hue each scheme derives from the main hue. */
  function AccentHue(d: Draws, scheme: Scheme): int {
    match scheme
    case Complementary => (d.mainHue + 180) % 360
    case SplitComplementary => (d.mainHue + 150 + d.splitTurn * 60) % 360
    case Analogous => (d.mainHue + (if d.accentClockwise then 30 else -30) + 360) % 360
    case Triadic => (d.mainHue + 120) % 360
  }

  /** The shift of the sub hue away from the main hue; only analogous shifts. */
  function SubShift(d: Draws, scheme: Scheme): int {
    if scheme == Analogous then (if d.subClockwise then 15 else -15) else 0
  }

  /** Each scheme turns the accent and sub hues by one of its own offsets. */
  lemma SchemeHues(d: Draws, scheme: Scheme)
    requires d.InRange()
    ensures var subH := (d.mainHue + SubShift(d, scheme) + 360) % 360;
      IsHue(AccentHue(d, scheme)) && Turn(d.mainHue, AccentHue(d, scheme)) in AccentTurns(scheme) &&
      IsHue(subH) && Turn(d.mainHue, subH) in SubTurns(scheme)
  {
    var h := d.mainHue;
    var subH := (h + SubShift(d, scheme) + 360) % 360;
    var accentH := AccentHue(d, scheme);
    match scheme
    case Complementary =>
      TurnIsInverse(h, accentH, 180);
      TurnIsInverse(h, subH, 0);
    case SplitComplementary =>
      TurnIsInverse(h, accentH, 150 + d.splitTurn * 60);
      TurnIsInverse(h, subH, 0);
    case Analogous =>
      TurnIsInverse(h, accentH, if d.accentClockwise then 30 else 330);
      TurnIsInverse(h, subH, if d.subClockwise then 15 else 345);
    case Triadic =>
      TurnIsInverse(h, accentH, 120);
      TurnIsInverse(h, subH, 0);
  }

  /** The generator itself, on HSL values. */
  function Generate(d: Draws): (g: Generated)
    requires d.InRange()
    ensures Admissible(g)
  {
    var mainH := d.mainHue;
    var mainS := 55 + d.mainSat;
    var mainL := 35 + d.mainLight;
    var scheme := SchemeAt(d.schemePick);
    var subH := (mainH + SubShift(d, scheme) + 360) % 360;
    var accentH := AccentHue(d, scheme);
    var baseL := if mainL < 40 then 96 else 95 + d.baseLight;
    SchemeHues(d, scheme);
    Generated(
      HslPalette(
        base := Hsl(mainH, 15 + d.baseSat, baseL),
        main := Hsl(mainH, mainS, mainL),
        sub := Hsl(subH, 30 + d.subSat, 88 + d.subLight),
        accent := Hsl(accentH, 65 + d.accentSat, 45 + d.accentLight),
        text := Hsl(mainH, 20 + d.textSat, 10 + d.textLight)),
      scheme)
  }

  /** How many degrees clockwise one turns on the colour wheel to get from `from` to `to`. */
  function Turn(from: int, to: int): (t: int)
    ensures 0 <= t < 360
  {
    (to - from) % 360
  }

  predicate IsHue(h: int) { 0 <= h < 360 }

  /** A triple `hslToHex` is meant for: a hue, and saturation and lightness as percentages. */
  predicate IsHsl(c: Hsl) { IsHue(c.h) && 0 <= c.s <= 100 && 0 <= c.l <= 100 }

  /** Turning `t` degrees from `from` lands on `(from + t) % 360`, and only there. */
  lemma TurnIsInverse(from: int, to: int, t: int)
    requires IsHue(from) && IsHue(to) && IsHue(t)
    ensures Turn(from, to) == t <==> to == (from + t) % 360
  {
    if from + t < 360 {
      assert (from + t) % 360 == from + t;
    } else {
      assert (from + t) % 360 == from + t - 360;
    }
    if to >= from {
      assert Turn(from, to) == to - from;
    } else {
      assert Turn(from, to) == to - from + 360;
    }
  }

  /** The clockwise turns from main hue to accent hue each scheme allows. */
  function AccentTurns(scheme: Scheme): set<int> {
    match scheme
    case Complementary => {180}
    case SplitComplementary => {150, 210}
    case Analogous => {30, 330}
    case Triadic => {120}
  }

  /** The clockwise turns from main hue to sub hue each scheme allows. */
  function SubTurns(scheme: Scheme): set<int> {
    if scheme == Analogous then {15, 345} else {0}
  }

  /**
   * Independent statement of everything the generator promises: the
   * saturation and lightness ranges of each colour, the base lightness rule,
   * and the hue relations of the chosen scheme.
   */
  predicate Admissible(g: Generated) {
    var p := g.palette;
    IsHue(p.main.h) && 55 <= p.main.s <= 84 && 35 <= p.main.l <= 54 &&
    IsHue(p.sub.h) && 30 <= p.sub.s <= 44 && 88 <= p.sub.l <= 94 &&
    IsHue(p.accent.h) && 65 <= p.accent.s <= 89 && 45 <= p.accent.l <= 59 &&
    p.base.h == p.main.h && 15 <= p.base.s <= 29 &&
    (if p.main.l < 40 then p.base.l == 96 else 95 <= p.base.l <= 97) &&
    p.text.h == p.main.h && 20 <= p.text.s <= 39 && 10 <= p.text.l <= 19 &&
    Turn(p.main.h, p.accent.h) in AccentTurns(g.scheme) &&
    Turn(p.main.h, p.sub.h) in SubTurns(g.scheme)
  }

  function SchemeIndex(scheme: Scheme): (i: int)
    ensures 0 <= i < 4 && SchemeAt(i) == scheme
  {
    match scheme
    case Complementary => 0
    case SplitComplementary => 1
    case Analogous => 2
    case Triadic => 3
  }

  /**
   * The ranges and hue relations are exact: every admissible palette is
   * produced by some choice of draws.
   */
  lemma Reachable(g: Generated)
    requires Admissible(g)
    ensures exists d: Draws :: d.InRange() && Generate(d) == g
  {
    var p := g.palette;
    var accentTurn := Turn(p.main.h, p.accent.h);
    var subTurn := Turn(p.main.h, p.sub.h);
    var d := Draws(
      mainHue := p.main.h, mainSat := p.main.s - 55, mainLight := p.main.l - 35,
      splitTurn := if accentTurn == 210 then 1 else 0,
      accentClockwise := accentTurn != 330,
      subClockwise := subTurn != 345,
      schemePick := SchemeIndex(g.scheme),
      subSat := p.sub.s - 30, subLight := p.sub.l - 88,
      accentSat := p.accent.s - 65, accentLight := p.accent.l - 45,
      baseLight := if p.main.l < 40 then 0 else p.base.l - 95, baseSat := p.base.s - 15,
      textSat := p.text.s - 20, textLight := p.text.l - 10);
    assert d.InRange();
    TurnIsInverse(p.main.h, p.accent.h, accentTurn);
    TurnIsInverse(p.main.h, p.sub.h, subTurn);
    assert AccentHue(d, g.scheme) == p.accent.h;
    assert (p.main.h + SubShift(d, g.scheme) + 360) % 360 == p.sub.h;
    assert Generate(d) == g;
  }
}
