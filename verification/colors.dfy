/**
 * The colour model of an IDE icon: the eleven semantic colours, each with an
 * adaptive (light/dark) background and border colour, one outline colour that
 * every colour shares, and a flat colour for the simple styles.
 *
 * Colours are RGBA tuples of reals. The platform's system colours
 * (`.systemBlue` and friends) have host-defined components and are kept as
 * opaque tokens.
 */
module Colors {
  import opened Options

  /** The appearance an icon is drawn for (`IDEColorScheme`). */
  datatype ColorScheme = Light | Dark

  /** Host-defined system colours, kept opaque. */
  datatype SystemColor =
    | SystemBlue | SystemBrown | SystemGray | SystemGreen | SystemOrange
    | SystemPink | SystemPurple | SystemRed | SystemTeal | SystemYellow

  datatype Color =
    | Rgba(red: real, green: real, blue: real, alpha: real)
    | System(token: SystemColor)

  /** `PlatformColor(red:green:blue:)`: the opaque RGB initialiser. */
  function OpaqueRgb(red: real, green: real, blue: real): (c: Color)
    ensures c.Rgba? && c.alpha == 1.0
    ensures c.red == red && c.green == green && c.blue == blue
  {
    Rgba(red, green, blue, 1.0)
  }

  /** `PlatformColor(white:alpha:)`: a grey level with an opacity. */
  function ColorWithWhite(white: real, alpha: real): (c: Color)
    ensures c.Rgba? && c.red == c.green == c.blue == white && c.alpha == alpha
  {
    Rgba(white, white, white, alpha)
  }

  const White: Color := ColorWithWhite(1.0, 1.0)
  const Black: Color := ColorWithWhite(0.0, 1.0)

  predicate InUnitInterval(x: real) {
    0.0 <= x <= 1.0
  }

  /** An RGB colour with alpha 1 and every channel in [0, 1]. */
  predicate IsOpaqueRgb(c: Color) {
    && c.Rgba?
    && c.alpha == 1.0
    && InUnitInterval(c.red) && InUnitInterval(c.green) && InUnitInterval(c.blue)
  }

  /** A light/dark pair of colours (`AdaptiveColor`). */
  datatype AdaptiveColor = AdaptiveColor(lightColor: Color, darkColor: Color)

  /** The subscript `adaptive[scheme]`: the half of the pair for `scheme`. */
  function Resolve(a: AdaptiveColor, scheme: ColorScheme): (c: Color)
    ensures scheme == Light ==> c == a.lightColor
    ensures scheme == Dark ==> c == a.darkColor
  {
    match scheme
    case Light => a.lightColor
    case Dark => a.darkColor
  }

  /** Resolving for both schemes loses nothing: the two halves determine the pair. */
  lemma ResolveDeterminesPair(a: AdaptiveColor, b: AdaptiveColor)
    ensures (Resolve(a, Light) == Resolve(b, Light) && Resolve(a, Dark) == Resolve(b, Dark)) <==> a == b
  {
  }

  /** The semantic colour of an icon (`IDEIconColor`), in declaration order. */
  datatype IconColor =
    | Monochrome | Blue | Brown | Gray | Green | Orange
    | Pink | Purple | Red | Teal | Yellow

  /** `IDEIconColor.allCases`. */
  const AllColors: seq<IconColor> :=
    [Monochrome, Blue, Brown, Gray, Green, Orange, Pink, Purple, Red, Teal, Yellow]

  /** The raw value of a colour is its case name: a non-empty lower-case word. */
  function ColorRawValue(c: IconColor): (r: string)
    ensures |r| > 0
    ensures forall i :: 0 <= i < |r| ==> 'a' <= r[i] <= 'z'
  {
    match c
    case Monochrome => "monochrome"
    case Blue => "blue"
    case Brown => "brown"
    case Gray => "gray"
    case Green => "green"
    case Orange => "orange"
    case Pink => "pink"
    case Purple => "purple"
    case Red => "red"
    case Teal => "teal"
    case Yellow => "yellow"
  }

  /** `IDEIconColor(rawValue:)`: the colour whose case name is `s`, if any. */
  function ColorFromRawValue(s: string): (r: Option<IconColor>)
    ensures r.Some? ==> ColorRawValue(r.value) == s
    ensures r.None? ==> forall c :: ColorRawValue(c) != s
  {
    if s == "monochrome" then Some(Monochrome)
    else if s == "blue" then Some(Blue)
    else if s == "brown" then Some(Brown)
    else if s == "gray" then Some(Gray)
    else if s == "green" then Some(Green)
    else if s == "orange" then Some(Orange)
    else if s == "pink" then Some(Pink)
    else if s == "purple" then Some(Purple)
    else if s == "red" then Some(Red)
    else if s == "teal" then Some(Teal)
    else if s == "yellow" then Some(Yellow)
    else None
  }

  /** No two colours share a raw value. */
  lemma ColorRawValueInjective(c: IconColor, d: IconColor)
    ensures ColorRawValue(c) == ColorRawValue(d) ==> c == d
  {
    if ColorRawValue(c) == ColorRawValue(d) {
      ColorRawValueRoundTrip(c);
      ColorRawValueRoundTrip(d);
    }
  }

  /** Every colour comes back from its raw value. */
  lemma ColorRawValueRoundTrip(c: IconColor)
    ensures ColorFromRawValue(ColorRawValue(c)) == Some(c)
  {
  }

  /** `allCases` lists exactly the eleven colours, each once. */
  lemma AllColorsEnumerates()
    ensures |AllColors| == 11
    ensures forall c: IconColor :: c in AllColors
    ensures forall i, j :: 0 <= i < j < |AllColors| ==> AllColors[i] != AllColors[j]
  {
    forall c: IconColor ensures c in AllColors {
      match c
      case Monochrome => assert AllColors[0] == c;
      case Blue => assert AllColors[1] == c;
      case Brown => assert AllColors[2] == c;
      case Gray => assert AllColors[3] == c;
      case Green => assert AllColors[4] == c;
      case Orange => assert AllColors[5] == c;
      case Pink => assert AllColors[6] == c;
      case Purple => assert AllColors[7] == c;
      case Red => assert AllColors[8] == c;
      case Teal => assert AllColors[9] == c;
      case Yellow => assert AllColors[10] == c;
    }
  }

  /** The badge fill colour of each icon colour. */
  function BackgroundColor(c: IconColor): (a: AdaptiveColor)
    ensures c == Monochrome ==> a == AdaptiveColor(White, Black)
    ensures c != Monochrome ==> IsOpaqueRgb(a.lightColor) && IsOpaqueRgb(a.darkColor)
  {
    match c
    case Monochrome => AdaptiveColor(White, Black)
    case Blue => AdaptiveColor(OpaqueRgb(0.291, 0.588, 0.998), OpaqueRgb(0.01, 0.199, 0.417))
    case Brown => AdaptiveColor(OpaqueRgb(0.714, 0.622, 0.513), OpaqueRgb(0.271, 0.217, 0.15))
    case Gray => AdaptiveColor(OpaqueRgb(0.651, 0.651, 0.667), OpaqueRgb(0.235, 0.235, 0.243))
    case Green => AdaptiveColor(OpaqueRgb(0.031, 0.763, 0.394), OpaqueRgb(0.037, 0.281, 0.075))
    case Orange => AdaptiveColor(OpaqueRgb(0.94, 0.623, 0.283), OpaqueRgb(0.378, 0.223, 0.006))
    case Pink => AdaptiveColor(OpaqueRgb(0.717, 0.309, 0.69), OpaqueRgb(0.274, 0.082, 0.286))
    case Purple => AdaptiveColor(OpaqueRgb(0.704, 0.452, 0.831), OpaqueRgb(0.302, 0.128, 0.393))
    case Red => AdaptiveColor(OpaqueRgb(1.0, 0.403, 0.389), OpaqueRgb(0.415, 0.089, 0.072))
    case Teal => AdaptiveColor(OpaqueRgb(0.374, 0.684, 0.748), OpaqueRgb(0.123, 0.254, 0.292))
    case Yellow => AdaptiveColor(OpaqueRgb(0.952, 0.85, 0.501), OpaqueRgb(0.384, 0.298, 0.043))
  }

  /** The badge border colour of each icon colour; also the text colour of outlined icons. */
  function BorderColor(c: IconColor): (a: AdaptiveColor)
    ensures IsOpaqueRgb(a.lightColor) && IsOpaqueRgb(a.darkColor)
  {
    match c
    case Monochrome => AdaptiveColor(OpaqueRgb(0.443, 0.443, 0.462), OpaqueRgb(0.568, 0.564, 0.592))
    case Blue => AdaptiveColor(OpaqueRgb(0.051, 0.439, 0.96), OpaqueRgb(0.077, 0.599, 0.999))
    case Brown => AdaptiveColor(OpaqueRgb(0.636, 0.517, 0.37), OpaqueRgb(0.675, 0.556, 0.409))
    case Gray => AdaptiveColor(OpaqueRgb(0.596, 0.596, 0.616), OpaqueRgb(0.557, 0.556, 0.577))
    case Green => AdaptiveColor(OpaqueRgb(0.103, 0.701, 0.197), OpaqueRgb(0.157, 0.705, 0.238))
    case Orange => AdaptiveColor(OpaqueRgb(0.921, 0.521, 0.0), OpaqueRgb(0.921, 0.572, 0.028))
    case Pink => AdaptiveColor(OpaqueRgb(0.647, 0.137, 0.615), OpaqueRgb(0.807, 0.231, 0.835))
    case Purple => AdaptiveColor(OpaqueRgb(0.623, 0.293, 0.789), OpaqueRgb(0.801, 0.394, 0.999))
    case Red => AdaptiveColor(OpaqueRgb(0.999, 0.23, 0.19), OpaqueRgb(0.998, 0.272, 0.228))
    case Teal => AdaptiveColor(OpaqueRgb(0.161, 0.601, 0.682), OpaqueRgb(0.339, 0.64, 0.721))
    case Yellow => AdaptiveColor(OpaqueRgb(0.749, 0.658, 0.349), OpaqueRgb(0.929, 0.752, 0.215))
  }

  /** The hairline outline colour: a translucent near-white in light mode, translucent black in dark mode. */
  function OutlineColor(c: IconColor): (a: AdaptiveColor)
    ensures a.lightColor == ColorWithWhite(0.96, 0.75)
    ensures a.darkColor == ColorWithWhite(0.0, 0.5)
  {
    AdaptiveColor(ColorWithWhite(0.96, 0.75), ColorWithWhite(0.0, 0.5))
  }

  /** The outline colour does not depend on the icon colour. */
  lemma OutlineColorUniform(c: IconColor, d: IconColor)
    ensures OutlineColor(c) == OutlineColor(d)
  {
  }

  /** The flat fill of the simple style: a fixed grey for monochrome, a system colour otherwise. */
  function SimpleColor(c: IconColor): (p: Color)
    ensures c == Monochrome <==> p.Rgba?
    ensures c == Monochrome ==> p == ColorWithWhite(0.85, 1.0)
  {
    match c
    case Monochrome => ColorWithWhite(0.85, 1.0)
    case Blue => System(SystemBlue)
    case Brown => System(SystemBrown)
    case Gray => System(SystemGray)
    case Green => System(SystemGreen)
    case Orange => System(SystemOrange)
    case Pink => System(SystemPink)
    case Purple => System(SystemPurple)
    case Red => System(SystemRed)
    case Teal => System(SystemTeal)
    case Yellow => System(SystemYellow)
  }

  /** No two icon colours share a simple colour. */
  lemma SimpleColorInjective(c: IconColor, d: IconColor)
    ensures SimpleColor(c) == SimpleColor(d) ==> c == d
  {
  }
}
