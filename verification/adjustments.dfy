/**
 * Hand-tuned per-glyph corrections: a text weight override, a font-size delta
 * and a vertical nudge, each keyed on the exact text or symbol name of the
 * icon's content. Anything not listed gets the neutral value.
 */
module Adjustments {
  import opened Icon

  /** The glyphs U+2A0D (finite part integral) and U+2022 (bullet). */
  const Integral: string := "\U{2A0D}"
  const Bullet: string := "\U{2022}"

  /** Keys of each table, the strings the switches match on. */
  const TextSizeKeys: set<string> := {"@", "{}", Integral, Bullet}
  const SymbolSizeKeys: set<string> := {"puzzlepiece.fill", "rectangle.connected.to.line.below"}
  const SmallTextOffsetKeys: set<string> := {"@", "#", "{}", Integral, Bullet}
  const LargeTextOffsetKeys: set<string> := {"@", "#", Bullet, "{}", Integral}
  const SymbolOffsetKeys: set<string> := {"list.bullet", "rectangle.connected.to.line.below"}

  /** The text weight: two glyphs override the style's weight. */
  function FontWeight(icon: Icon): (w: Weight)
    ensures icon.content == Text("#") ==> w == LightWeight
    ensures icon.content == Text("Ti") ==> w == RegularWeight
    ensures icon.content != Text("#") && icon.content != Text("Ti") ==> w == StyleFontWeight(icon.style)
  {
    match icon.content
    case Text(s) =>
      if s == "#" then LightWeight
      else if s == "Ti" then RegularWeight
      else StyleFontWeight(icon.style)
    case _ => StyleFontWeight(icon.style)
  }

  /** The additive font-size correction, in points. */
  function FontSizeAdjustment(icon: Icon): (d: real)
    ensures icon.content.Image? ==> d == 0.0
    ensures icon.content.Text? && icon.content.text !in TextSizeKeys ==> d == 0.0
    ensures icon.content.SystemImage? && icon.content.symbolName !in SymbolSizeKeys ==> d == 0.0
    ensures -1.0 <= d <= 2.5
  {
    match icon.content
    case Text(s) =>
      if s == "@" then 1.0
      else if s == "{}" then -1.0
      else if s == Integral then 0.0
      else if s == Bullet then 2.5
      else 0.0
    case SystemImage(name) =>
      if name == "puzzlepiece.fill" then -1.0
      else if name == "rectangle.connected.to.line.below" then -0.1
      else 0.0
    case Image(_, _) => 0.0
  }

  /** The vertical nudge, in points; text has one table up to the regular size and another above it. */
  function YOffsetAdjustment(icon: Icon): (d: real)
    ensures icon.content.Image? ==> d == 0.0
    ensures icon.content.Text? && icon.size <= RegularSize && icon.content.text !in SmallTextOffsetKeys ==> d == 0.0
    ensures icon.content.Text? && icon.size > RegularSize && icon.content.text !in LargeTextOffsetKeys ==> d == 0.0
    ensures icon.content.SystemImage? && icon.content.symbolName !in SymbolOffsetKeys ==> d == 0.0
    ensures -0.3 <= d <= 3.5
  {
    match icon.content
    case Text(s) =>
      if icon.size <= RegularSize then
        if s == "@" then 1.0
        else if s == "#" then 0.0
        else if s == "{}" then 0.0
        else if s == Integral then 1.0
        else if s == Bullet then 1.0
        else 0.0
      else
        if s == "@" then 3.0
        else if s == "#" then 0.0
        else if s == Bullet then 3.0
        else if s == "{}" then 2.0
        else if s == Integral then 3.5
        else 0.0
    case SystemImage(name) =>
      if name == "list.bullet" then 1.0
      else if name == "rectangle.connected.to.line.below" then -0.3
      else 0.0
    case Image(_, _) => 0.0
  }

  /** Text other than "#" and "Ti", and all image and symbol content, take the style's weight. */
  lemma FontWeightDefersToStyle(icon: Icon)
    requires !icon.content.Text? || icon.content.text !in {"#", "Ti"}
    ensures FontWeight(icon) == StyleFontWeight(icon.style)
  {
  }

  /** The listed font-size entries. */
  lemma FontSizeEntries(icon: Icon)
    ensures icon.content == Text("@") ==> FontSizeAdjustment(icon) == 1.0
    ensures icon.content == Text("{}") ==> FontSizeAdjustment(icon) == -1.0
    ensures icon.content == Text(Integral) ==> FontSizeAdjustment(icon) == 0.0
    ensures icon.content == Text(Bullet) ==> FontSizeAdjustment(icon) == 2.5
    ensures icon.content == SystemImage("puzzlepiece.fill") ==> FontSizeAdjustment(icon) == -1.0
    ensures icon.content == SystemImage("rectangle.connected.to.line.below") ==> FontSizeAdjustment(icon) == -0.1
  {
  }

  /** The font-size correction depends on the content only, never on size, style or colour. */
  lemma FontSizeDependsOnContentOnly(a: Icon, b: Icon)
    requires a.content == b.content
    ensures FontSizeAdjustment(a) == FontSizeAdjustment(b)
  {
  }

  /** The listed vertical nudges for text at and below the regular size. */
  lemma SmallTextOffsets(icon: Icon)
    requires icon.size <= RegularSize
    ensures icon.content == Text("@") ==> YOffsetAdjustment(icon) == 1.0
    ensures icon.content == Text(Integral) ==> YOffsetAdjustment(icon) == 1.0
    ensures icon.content == Text(Bullet) ==> YOffsetAdjustment(icon) == 1.0
    ensures icon.content == Text("#") ==> YOffsetAdjustment(icon) == 0.0
    ensures icon.content == Text("{}") ==> YOffsetAdjustment(icon) == 0.0
  {
  }

  /** The listed vertical nudges for text above the regular size. */
  lemma LargeTextOffsets(icon: Icon)
    requires icon.size > RegularSize
    ensures icon.content == Text("@") ==> YOffsetAdjustment(icon) == 3.0
    ensures icon.content == Text(Bullet) ==> YOffsetAdjustment(icon) == 3.0
    ensures icon.content == Text("{}") ==> YOffsetAdjustment(icon) == 2.0
    ensures icon.content == Text(Integral) ==> YOffsetAdjustment(icon) == 3.5
    ensures icon.content == Text("#") ==> YOffsetAdjustment(icon) == 0.0
  {
  }

  /** Symbol nudges are the same at every size. */
  lemma SymbolOffsetsIgnoreSize(a: Icon, b: Icon)
    requires a.content == b.content && a.content.SystemImage?
    ensures YOffsetAdjustment(a) == YOffsetAdjustment(b)
    ensures a.content.symbolName == "list.bullet" ==> YOffsetAdjustment(a) == 1.0
    ensures a.content.symbolName == "rectangle.connected.to.line.below" ==> YOffsetAdjustment(a) == -0.3
  {
  }
}
