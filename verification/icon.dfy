/**
 * The icon descriptor: what an IDE icon shows (text, a bundled image or a
 * system symbol), in which colour, appearance and style, and at which size.
 * Descriptors are plain values; equality is structural, which makes them
 * usable as keys of the image cache.
 */
module Icon {
  import opened Options
  import opened Colors

  /** The two conventional sizes (`IDEIconSize.regular`, `IDEIconSize.large`). */
  const RegularSize: real := 16.0
  const LargeSize: real := 32.0

  /** A resource bundle, compared by identity. */
  datatype Bundle = Bundle(id: nat)

  /** What the icon shows (`IDEIconContent`). */
  datatype Content =
    | Text(text: string)
    | Image(name: string, bundle: Option<Bundle>)
    | SystemImage(symbolName: string)

  /** The icon style (`IDEIconStyle`), in declaration order. */
  datatype Style = Default | Outline | Simple | SimpleHighlighted

  /** The blueprint of an icon (`IDEIcon`). */
  datatype Icon = Icon(
    content: Content,
    color: IconColor,
    colorScheme: ColorScheme,
    style: Style,
    size: real)

  /** The designated initialiser: every omitted argument takes its default. */
  function NewIcon(
    content: Content,
    color: Option<IconColor>,
    colorScheme: Option<ColorScheme>,
    style: Option<Style>,
    size: Option<real>): (icon: Icon)
    ensures icon.content == content
    ensures color.Some? ==> icon.color == color.value
    ensures color.None? ==> icon.color == Purple
    ensures colorScheme.Some? ==> icon.colorScheme == colorScheme.value
    ensures colorScheme.None? ==> icon.colorScheme == Dark
    ensures style.Some? ==> icon.style == style.value
    ensures style.None? ==> icon.style == Default
    ensures size.Some? ==> icon.size == size.value
    ensures size.None? ==> icon.size == RegularSize
  {
    Icon(content, color.GetOr(Purple), colorScheme.GetOr(Dark), style.GetOr(Default), size.GetOr(RegularSize))
  }

  /** `IDEIcon(_ text:)`: text content, the rest as in `NewIcon`. */
  function TextIcon(
    text: string,
    color: Option<IconColor>,
    colorScheme: Option<ColorScheme>,
    style: Option<Style>,
    size: Option<real>): (icon: Icon)
    ensures icon.content == Text(text)
    ensures icon == NewIcon(Text(text), color, colorScheme, style, size)
  {
    NewIcon(Text(text), color, colorScheme, style, size)
  }

  /** `IDEIcon(image:bundle:)`: bundled-image content, the rest as in `NewIcon`. */
  function ImageIcon(
    name: string,
    bundle: Option<Bundle>,
    color: Option<IconColor>,
    colorScheme: Option<ColorScheme>,
    style: Option<Style>,
    size: Option<real>): (icon: Icon)
    ensures icon.content == Image(name, bundle)
    ensures icon == NewIcon(Image(name, bundle), color, colorScheme, style, size)
  {
    NewIcon(Image(name, bundle), color, colorScheme, style, size)
  }

  /** `IDEIcon(systemImage:)`: symbol content, the rest as in `NewIcon`. */
  function SystemImageIcon(
    symbolName: string,
    color: Option<IconColor>,
    colorScheme: Option<ColorScheme>,
    style: Option<Style>,
    size: Option<real>): (icon: Icon)
    ensures icon.content == SystemImage(symbolName)
    ensures icon == NewIcon(SystemImage(symbolName), color, colorScheme, style, size)
  {
    NewIcon(SystemImage(symbolName), color, colorScheme, style, size)
  }

  /**
   * Equality of contents: same case and same payload, with strings compared
   * scalar by scalar. Swift's `String ==` also equates canonically equivalent
   * strings, which this comparison does not.
   */
  function SameContent(a: Content, b: Content): (r: bool)
    ensures r <==> a == b
  {
    match (a, b)
    case (Text(s), Text(t)) => s == t
    case (Image(n, x), Image(m, y)) => n == m && x == y
    case (SystemImage(n), SystemImage(m)) => n == m
    case _ => false
  }

  /** Equality of descriptors: field by field, with text compared as in `SameContent`. */
  function SameIcon(a: Icon, b: Icon): (r: bool)
    ensures r <==> a == b
  {
    && SameContent(a.content, b.content)
    && a.color == b.color
    && a.colorScheme == b.colorScheme
    && a.style == b.style
    && a.size == b.size
  }

  /** `IDEIconStyle.allCases`. */
  const AllStyles: seq<Style> := [Default, Outline, Simple, SimpleHighlighted]

  /** The integer raw value of a style: its position in declaration order. */
  function StyleRawValue(s: Style): (n: int)
    ensures 0 <= n < |AllStyles| && AllStyles[n] == s
  {
    match s
    case Default => 0
    case Outline => 1
    case Simple => 2
    case SimpleHighlighted => 3
  }

  /** `IDEIconStyle(rawValue:)`. */
  function StyleFromRawValue(n: int): (r: Option<Style>)
    ensures r.Some? <==> 0 <= n < |AllStyles|
    ensures r.Some? ==> StyleRawValue(r.value) == n
  {
    if 0 <= n < |AllStyles| then Some(AllStyles[n]) else None
  }

  /** Every style comes back from its raw value. */
  lemma StyleRawValueRoundTrip(s: Style)
    ensures StyleFromRawValue(StyleRawValue(s)) == Some(s)
  {
  }

  /** Text weights of the platform font (`PlatformFont.Weight`), the ones used here. */
  datatype Weight = LightWeight | RegularWeight | MediumWeight | SemiboldWeight

  /** Symbol weights of `UIImage.SymbolWeight`, the ones used here. */
  datatype SymbolWeight = SymbolRegular | SymbolSemibold

  /** The font weight a symbol weight stands for. */
  function SymbolAsFontWeight(w: SymbolWeight): Weight {
    match w
    case SymbolRegular => RegularWeight
    case SymbolSemibold => SemiboldWeight
  }

  /** The default text weight of a style. */
  function StyleFontWeight(s: Style): (w: Weight)
    ensures w == SemiboldWeight <==> s == Simple
    ensures w != SemiboldWeight ==> w == MediumWeight
  {
    match s
    case Simple => SemiboldWeight
    case _ => MediumWeight
  }

  /** The symbol weight of a style, as a font weight (the macOS configuration). */
  function SymbolFontWeight(s: Style): (w: Weight)
    ensures w == SemiboldWeight <==> s == Simple
    ensures w != SemiboldWeight ==> w == RegularWeight
  {
    match s
    case Simple => SemiboldWeight
    case _ => RegularWeight
  }

  /** The symbol weight of a style (the UIKit configuration). */
  function SymbolWeightOf(s: Style): (w: SymbolWeight)
    ensures w == SymbolSemibold <==> s == Simple
  {
    match s
    case Simple => SymbolSemibold
    case _ => SymbolRegular
  }

  /** Both platforms configure symbols with the same weight. */
  lemma SymbolWeightsAgree(s: Style)
    ensures SymbolAsFontWeight(SymbolWeightOf(s)) == SymbolFontWeight(s)
  {
  }
}
