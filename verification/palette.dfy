/**
 * The component's palette record and the two small enumerations that go
 * with it.
 */
module Palette {
  import opened Hex

  datatype Option<T> = None | Some(value: T)

  /** The five named colour slots. */
  datatype Field = Base | Main | Sub | Accent | Text

  /** The three style modes the page can be previewed in. */
  datatype StyleMode = Clean | Bold | Dark

  /** Five named hex colours; every palette always has all five. */
  datatype ColorSet = ColorSet(base: string, main: string, sub: string, accent: string, text: string)
  {
    function Get(f: Field): string {
      match f
      case Base => base
      case Main => main
      case Sub => sub
      case Accent => accent
      case Text => text
    }

    /** `{ ...colors, [key]: value }`: the record with one field replaced. */
    function With(f: Field, v: string): (c: ColorSet)
      ensures c.Get(f) == v
      ensures forall g :: g != f ==> c.Get(g) == Get(g)
    {
      match f
      case Base => this.(base := v)
      case Main => this.(main := v)
      case Sub => this.(sub := v)
      case Accent => this.(accent := v)
      case Text => this.(text := v)
    }

    predicate Valid() {
      ValidHex(base) && ValidHex(main) && ValidHex(sub) && ValidHex(accent) && ValidHex(text)
    }
  }

  /** The palette the page starts with. */
  const DefaultColors: ColorSet := ColorSet("#f8fafc", "#3b82f6", "#bfdbfe", "#f59e0b", "#1e293b")

  /** Replacing a field keeps a well-formed palette well-formed. */
  lemma WithKeepsValid(c: ColorSet, f: Field, v: string)
    requires c.Valid() && ValidHex(v)
    ensures c.With(f, v).Valid()
  {
    var d := c.With(f, v);
    assert forall g :: ValidHex(d.Get(g));
    assert d.Get(Base) == d.base && d.Get(Main) == d.main && d.Get(Sub) == d.sub;
    assert d.Get(Accent) == d.accent && d.Get(Text) == d.text;
  }

  lemma DefaultValid()
    ensures DefaultColors.Valid()
  {
    assert ValidHex("#f8fafc") && ValidHex("#3b82f6") && ValidHex("#bfdbfe");
    assert ValidHex("#f59e0b") && ValidHex("#1e293b");
  }

  /** Replacing main, sub and accent by well-formed colours keeps a palette well-formed. */
  lemma ReplaceThreeKeepsValid(c: ColorSet, main: string, sub: string, accent: string)
    requires c.Valid() && ValidHex(main) && ValidHex(sub) && ValidHex(accent)
    ensures c.(main := main, sub := sub, accent := accent).Valid()
  {
  }
}
