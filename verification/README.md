# Color Architect colour engine, in Dafny

This project models the colour engine of the Color Architect palette previewer.
The engine is the single React component in `src/App.jsx`. The palette holds five
semantic colours (base, main, sub, accent, text). A user picks four of them (base,
main, sub, accent) with colour inputs; the text colour is set only by the smart
generator and the presets. The user also picks a style mode (clean, bold, dark) and
a number of active colour slots (1 to 4). A mock page is then styled
from eight resolved `--c-*` tokens. The engine has these parts:

- `Hex` (hex.dfy): `#rrggbb` strings. It reads the channels (`parseInt(s.substr(i, 2), 16)`)
  and writes a number as `'#' + n.toString(16).padStart(6, '0')`.
- `Contrast` (contrast.dfy): the foreground picker. It uses the YIQ luma
  `(299 r + 587 g + 114 b) / 1000`: slate ink `#1e293b` when the luma is at least 128,
  otherwise `#ffffff`.
- `Palette` (palette.dfy): the five-colour record, its fields and the style modes.
- `Theme` (theme.dfy): the resolved token set. The style map is keyed by an
  enumeration `Property` of the eight custom properties, whose `Name` is the `--c-*`
  string; `Tokens.CssStyle` is the same map keyed by those names. `Theme.Resolve` is
  a reference definition that gives each token's final value. The lemmas state the
  dark-mode override and the 4→3→2 slot collapse.
- `Smart` (smart.dfy): the harmony-scheme generator, on HSL triples. Each
  `Math.random()` draw is an integer field of `Draws`. `Admissible` states
  the ranges and hue relations independently of the generator. The generator
  satisfies it, and every admissible palette is reachable.
- `Presets` (presets.dfy) and `Export` (export.dfy): the four theory presets and
  the CSS custom-property text offered for copying.
- `App` (app.dfy): class `ColorArchitect`. Its fields are the component state
  (`colors`, `activeSlots`, `styleMode`, `lastScheme`) and its methods are the
  handlers. `ThemeStyles` builds the style map by the same sequence of overwrites
  the component uses. It is proved equal to `Theme.Resolve`.

Two behaviours of the code are modelled as written:

- The uniform generator draws `Math.floor(Math.random() * 16777215)`, so its values
  are 0..16777214 and `#ffffff` is never drawn. Covering all 2^24 colours would need
  the factor 16777216.
- Slot collapse copies raw palette colours (`styles['--c-sub'] = colors.base`), not
  already-overridden tokens. So in dark mode with fewer than 3 slots, the sub token
  shows the user's base colour while the base token shows the forced `#0f172a`.

## Model

| member | source | states |
|---|---|---|
| `Hex.ToHexString` | src/App.jsx:73 | `toString(16)` writes lower-case digits with no leading zero whose value is the number |
| `Hex.LowerDigit` | src/App.jsx:73 | the digit written for a value below 16 is a lower-case hex digit that reads back as that value |
| `Hex.FormatColor` | src/App.jsx:73 | the generated string is `#` and exactly six lower-case hex digits |
| `Hex.FormatColorValue` | src/App.jsx:73 | the six digits of the generated string are worth exactly the draw |
| `Hex.Red` | src/App.jsx:19 | the red channel is below 256 and is the value of the two hex digits at positions 1..2 |
| `Hex.Green` | src/App.jsx:20 | the green channel is below 256 and is the value of the two hex digits at positions 3..4 |
| `Hex.Blue` | src/App.jsx:21 | the blue channel is below 256 and is the value of the two hex digits at positions 5..6 |
| `Hex.FormatColorChannels` | src/App.jsx:19-21 | reading red, green and blue back from a formatted colour gives the three bytes of the number |
| `Hex.FormatColorOnto` | src/App.jsx:73 | every lower-case colour string is the formatting of its own digit value, so the formatting loses nothing |
| `Hex.FormatColorBelowWhite` | src/App.jsx:73 | no draw below 16777215 is written as `#ffffff` |
| `Hex.FormatColorRange` | src/App.jsx:73 | the strings the uniform generator can produce are exactly the lower-case colours other than `#ffffff` |
| `Contrast.ContrastColor` | src/App.jsx:18-24 | the foreground is `#1e293b` or `#ffffff`; it is `#1e293b` iff 299 r + 587 g + 114 b >= 128000 |
| `Contrast.ContrastMonotone` | src/App.jsx:22-23 | a background at least as bright in every channel as one that gets ink also gets ink |
| `Contrast.ContrastExamples` | src/App.jsx:18-24 | `#ffffff` gets ink, `#000000` white, `#3b82f6` white, `#f59e0b` ink |
| `Palette.ColorSet.With` | src/App.jsx:26-28 | replacing a field changes that field to the new value and leaves the other four as they were |
| `Palette.WithKeepsValid` | src/App.jsx:26-28 | a colour-picker edit keeps every colour a well-formed `#rrggbb` string |
| `Theme.Property.Name` | src/App.jsx:31-40 | every custom-property name starts with `--c-` |
| `Theme.NamesDistinct` | src/App.jsx:31-40 | no two of the eight custom properties share a name, so keying by property loses nothing |
| `Theme.Tokens.CssStyle` | src/App.jsx:31-40 | the style object holds each token under its `--c-*` name and has no other key |
| `Theme.Resolve` | src/App.jsx:30-54 | every resolved token is a well-formed colour, and on-main and on-accent are each `#1e293b` or `#ffffff` |
| `Theme.FullLightTokens` | src/App.jsx:31-40 | with 4 slots in clean or bold mode the tokens are the five colours, their two contrasts and border `#e2e8f0` |
| `Theme.BoldIsClean` | src/App.jsx:30-54 | bold mode resolves to the same tokens as clean mode for every slot count |
| `Theme.DarkOverride` | src/App.jsx:39-45 | dark mode forces base `#0f172a`, text `#f1f5f9` and border `#334155` whatever the palette |
| `Theme.SlotCollapse` | src/App.jsx:47-51 | below 4 slots accent is raw main, below 3 sub is raw base, below 2 main is `#334155`; on-main and on-accent always contrast with the raw colours |
| `Theme.CollapsedTokensAlias` | src/App.jsx:47-51 | outside dark mode a collapsed accent (2 or 3 slots) shows the main token and a collapsed sub shows the base token |
| `Theme.DarkCollapseShowsUserBase` | src/App.jsx:42-48 | for any palette in dark mode with fewer than 3 slots the sub token is the user's base while the base token is `#0f172a`, so they differ unless the user's base is `#0f172a` |
| `Theme.DefaultTokens` | src/App.jsx:5-40 | the starting palette in clean mode with 4 slots resolves to itself with white on main and ink on accent |
| `App.ColorArchitect.ThemeStyles` | src/App.jsx:30-54 | the map built by seeding and overwriting in the component's order equals the reference token set `Theme.Resolve` |
| `Smart.TurnIsInverse` | src/App.jsx:84-92 | a hue reached by turning t degrees from h is `(h + t) % 360` and nothing else |
| `Smart.SchemeHues` | src/App.jsx:84-92 | each scheme's accent hue and sub hue are hues turned from the main hue by one of that scheme's offsets |
| `Smart.Generate` | src/App.jsx:79-98 | every generated palette is admissible: the saturation/lightness ranges, base lightness 96 below main lightness 40 and otherwise 95..97, base and text hues equal to the main hue, and accent and sub hues turned from it by the scheme's offsets |
| `Smart.Reachable` | src/App.jsx:79-98 | every admissible palette and scheme comes from some choice of draws, so the ranges and offsets are exact |
| `Presets.PresetColors` | src/App.jsx:150-166 | a palette is selected iff the name is `trust`, `energy`, `relax` or `luxury`, and every selected palette is well-formed |
| `Presets.PresetMode` | src/App.jsx:148-162 | the mode is dark iff the name is `luxury`; it is never bold |
| `Export.CssText` | src/App.jsx:173-180 | for a well-formed palette the text is 171 characters; the labels `--color-base`, `--color-main`, `--color-sub`, `--color-accent`, `--color-text` stand in that order at columns 35, 62, 89, 116, 143, each followed by its value at 53, 80, 107, 134 and 161 (the text value is `#f1f5f9` in dark mode) |
| `Export.ReadBack` | src/App.jsx:173-180 | the text is 171 characters long; the five declared values, read back at fixed columns in the order base, main, sub, accent, text, are the palette's colours, with text replaced by `#f1f5f9` in dark mode |
| `Export.LuxuryExport` | src/App.jsx:160-180 | the luxury preset exports its own base `#1c1917` but text `#f1f5f9` |
| `App.ColorArchitect.constructor` | src/App.jsx:5-15 | the component starts with the default palette, 4 slots, clean mode and no scheme |
| `App.ColorArchitect.UpdateColor` | src/App.jsx:26-28 | exactly the chosen field of the palette is replaced; nothing else in the state changes |
| `App.ColorArchitect.SelectSlots` | src/App.jsx:251 | a slot button sets the slot count and nothing else |
| `App.ColorArchitect.SelectMode` | src/App.jsx:361-375 | a mode button sets the style mode and nothing else |
| `App.ColorArchitect.GenerateFullRandom` | src/App.jsx:72-75 | main, sub and accent become the formatted draws; base, text, mode, slots and scheme are unchanged |
| `App.ColorArchitect.GenerateSmartRandom` | src/App.jsx:78-104 | the palette becomes the converted generated palette, the mode clean, the slot count 4 and the last scheme the chosen scheme's name |
| `App.ColorArchitect.ApplyTheoryPalette` | src/App.jsx:146-170 | a preset name installs its palette, any other name keeps the palette; mode is dark only for luxury; the slot count becomes 4 |

## Left out

- `hslToHex` (src/App.jsx:57-62) is floating-point arithmetic with `Math.round`. The model
  takes it as a parameter `toHex` of `GenerateSmartRandom`, which requires that it return
  a well-formed `#rrggbb` string for every hue in 0..359 with saturation and lightness in
  0..100. The generator only produces such triples. Outside those ranges the real
  function's `Math.round(255 * c)` can fall outside 0..255 and give malformed text.
  The generator's properties are stated on the HSL triples.
- `hexToHsl` (src/App.jsx:63-69) is never called by the component and is not modelled.
- `Math.random()` becomes integer draws with range preconditions. Probabilities are
  not modelled: the uniform scheme pick, the 50/50 sub-choices and the uniformity of the
  24-bit draw. The order in which draws are consumed is not modelled either; the
  base-lightness draw is taken only when main lightness is at least 40.
- The YIQ luma is computed exactly, as a Dafny `real`. The JavaScript numerator is an
  integer below 2^18, and dividing it by 1000 in double precision cannot cross 128 from
  either side, so the decision is the same.
- Colour inputs are assumed to be well-formed `#rrggbb` strings, as the colour pickers
  deliver them. What `parseInt` does with malformed text is not modelled.
- `updateColor` is called only with `'base'`, `'main'`, `'sub'` and `'accent'`
  (src/App.jsx:278, 299, 320, 341). `Field` is shared with the rest of the palette and also
  has `Text`, so `App.ColorArchitect.UpdateColor` admits an `updateColor('text', …)` edit
  that the component never makes. A key outside the five names, which JavaScript would
  add as a new property, is not modelled.
- The DOM side of copying (textarea, `execCommand`, the toast and its timer,
  src/App.jsx:182-193) is I/O. Only the copied text is modelled.
- The SVG gradient and avatar builders (src/App.jsx:107-141), the scheme display labels
  (src/App.jsx:144) and all JSX markup are presentation.
- React mechanics (`useState`, batching of setter calls, stale closures) are not
  modelled. Each handler is one atomic state update.
