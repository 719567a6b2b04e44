/**
 * The render plan of an IDE icon. Instead of drawing into a graphics context,
 * the renderer here produces a value that says what would be drawn: the
 * derived geometry, the background rounded rectangles of the style, and the
 * foreground decisions (shadow, font, paint, blend mode, frame and vertical
 * offset).
 *
 * Everything the host decides is a parameter: the platform and its screen
 * scale, whether the condensed font face exists, how large a text run
 * measures, and whether (and how large) a named system symbol resolves.
 */
module Render {
  import opened Options
  import opened Colors
  import opened Icon
  import opened Adjustments
  import opened Geometry

  /** The platform the library is built for; off macOS the screen scale is the device scale. */
  datatype Platform = MacOS | OtherOS(screenScale: real)

  /** `deviceScale`: 1 on macOS, the screen's scale elsewhere. */
  function DeviceScale(p: Platform): (s: real)
    ensures p.MacOS? ==> s == 1.0
    ensures p.OtherOS? ==> s == p.screenScale
  {
    match p
    case MacOS => 1.0
    case OtherOS(scale) => scale
  }

  /**
   * The factor that turns a nudge "down by d points" into a y offset: the
   * bitmap context is flipped before the interior is drawn off macOS, so the
   * table values are negated there.
   */
  function YOffsetSign(p: Platform): (s: real)
    ensures s == 1.0 <==> p.MacOS?
    ensures s == 1.0 || s == -1.0
  {
    if p.MacOS? then 1.0 else -1.0
  }

  /** A font: the named condensed face, or the system font at a weight. */
  datatype Font = CondensedFont(pointSize: real) | SystemFont(pointSize: real, weight: Weight)

  /** What the host answers: the condensed face's availability, text measurement and symbol resolution. */
  datatype Host = Host(
    condensedFontAvailable: bool,
    measureText: (string, Font) -> Size,
    symbolImage: (string, real, Weight) -> Option<Size>)

  /** The two abbreviations drawn in the condensed face. */
  const CondensedTexts: set<string> := {"Ex", "Pr"}

  /** The base point size of the content, in device pixels: size / 1.5 rounded, then scaled. */
  function FontSize(icon: Icon, p: Platform): (f: real)
    ensures f == Round(icon.size / 1.5) as real * DeviceScale(p)
    ensures p.MacOS? ==> f == f.Floor as real
  {
    Round(icon.size / 1.5) as real * DeviceScale(p)
  }

  /** The font size is within half a device pixel's worth of the exact scaled size / 1.5. */
  lemma FontSizeWithinHalfScale(icon: Icon, p: Platform)
    ensures Abs(FontSize(icon, p) - icon.size / 1.5 * DeviceScale(p)) <= 0.5 * Abs(DeviceScale(p))
  {
    var x := icon.size / 1.5;
    var n := Round(x) as real;
    var s := DeviceScale(p);
    assert Abs(n - x) <= 0.5;
    ScaledRoundingError(n, x, s);
    assert FontSize(icon, p) == n * s;
    assert icon.size / 1.5 * DeviceScale(p) == x * s;
  }

  /** Rounding error of at most one half, scaled by `s`, is at most half of `|s|`. */
  lemma ScaledRoundingError(n: real, x: real, s: real)
    requires Abs(n - x) <= 0.5
    ensures Abs(n * s - x * s) <= 0.5 * Abs(s)
  {
    var d, t := Abs(n - x), Abs(s);
    assert Abs(n * s - x * s) == d * t by {
      assert n * s - x * s == (n - x) * s;
      if n - x < 0.0 {
        if s < 0.0 { assert (n - x) * s == (x - n) * (-s); } else { assert (n - x) * s == -((x - n) * s); }
      } else {
        if s < 0.0 { assert (n - x) * s == -((n - x) * (-s)); }
      }
    }
    assert t >= 0.0 && 0.5 - d >= 0.0;
    NonNegativeProduct(0.5 - d, t);
    assert 0.5 * t - d * t == (0.5 - d) * t;
  }

  lemma NonNegativeProduct(a: real, b: real)
    requires a >= 0.0 && b >= 0.0
    ensures a * b >= 0.0
  {
  }

  /** The corner radius of the badge: a whole number of points, one per 4.5 points of size, at most 5. Not scaled. */
  function OuterRadius(icon: Icon): (r: real)
    ensures r <= 5.0
    ensures r == r.Floor as real
    ensures r < 5.0 ==> r <= icon.size / 4.5 < r + 1.0
    ensures icon.size >= 22.5 <==> r == 5.0
  {
    var steps := (icon.size / 4.5).Floor;
    if steps < 5 then steps as real else 5.0
  }

  /** Border and outline are one device pixel wide. */
  function BorderWidth(p: Platform): (w: real)
    ensures w == DeviceScale(p)
  {
    1.0 * DeviceScale(p)
  }

  function OutlineWidth(p: Platform): (w: real)
    ensures w == DeviceScale(p)
    ensures w == BorderWidth(p)
  {
    1.0 * DeviceScale(p)
  }

  /** The icon's bounds in points, before any scaling. */
  function UnscaledBounds(icon: Icon): (r: Rect)
    ensures r.Rect? && r.x == 0.0 && r.y == 0.0 && r.width == icon.size && r.height == icon.size
  {
    Rect(0.0, 0.0, icon.size, icon.size)
  }

  /** One background path: a filled or a stroked rounded rectangle. */
  datatype PathOp =
    | FillRoundedRect(rect: Rect, radius: real, paint: Color)
    | StrokeRoundedRect(rect: Rect, radius: real, lineWidth: real, paint: Color)

  /**
   * The stroke width of the outline style: one device pixel once the context
   * is at least 2x, one point otherwise. `contextScale` is the ratio of device
   * to user space of the context being drawn into.
   */
  function OutlineLineWidth(contextScale: real): (w: real)
    ensures contextScale >= 2.0 ==> w * contextScale == 1.0
    ensures contextScale < 2.0 ==> w == 1.0
    ensures 0.0 < w <= 1.0
  {
    if contextScale >= 2.0 then 1.0 / contextScale else 1.0
  }

  /** The background chrome of the icon, in drawing order. */
  function Background(icon: Icon, bounds: Rect, contextScale: real, p: Platform): (ops: seq<PathOp>)
    ensures icon.style == Default ==>
      && |ops| == 3
      && ops[0] == FillRoundedRect(bounds, OuterRadius(icon), Resolve(OutlineColor(icon.color), icon.colorScheme))
      && ops[1] == FillRoundedRect(Inset(bounds, BorderWidth(p)), OuterRadius(icon) - BorderWidth(p),
                                   Resolve(BorderColor(icon.color), icon.colorScheme))
      && ops[2] == FillRoundedRect(Inset(bounds, BorderWidth(p) + OutlineWidth(p)),
                                   OuterRadius(icon) - (BorderWidth(p) + OutlineWidth(p)),
                                   Resolve(BackgroundColor(icon.color), icon.colorScheme))
    ensures icon.style == Outline ==>
      && |ops| == 1
      && ops[0] == StrokeRoundedRect(Inset(bounds, BorderWidth(p) + OutlineLineWidth(contextScale) / 2.0),
                                     OuterRadius(icon) - BorderWidth(p), OutlineLineWidth(contextScale),
                                     Resolve(BorderColor(icon.color), icon.colorScheme))
    ensures icon.style == Simple ==>
      ops == [FillRoundedRect(Inset(bounds, BorderWidth(p)), (OuterRadius(icon) - BorderWidth(p)) * 1.5, SimpleColor(icon.color))]
    ensures icon.style == SimpleHighlighted ==>
      ops == [FillRoundedRect(Inset(bounds, BorderWidth(p)), (OuterRadius(icon) - BorderWidth(p)) * 1.5, White)]
  {
    var outerRadius := OuterRadius(icon);
    var borderWidth := BorderWidth(p);
    var outlineWidth := OutlineWidth(p);
    var outlineRadius := outerRadius - (borderWidth + outlineWidth);
    var borderRadius := outerRadius - borderWidth;
    match icon.style
    case Default =>
      [ FillRoundedRect(bounds, outerRadius, Resolve(OutlineColor(icon.color), icon.colorScheme)),
        FillRoundedRect(Inset(bounds, borderWidth), borderRadius, Resolve(BorderColor(icon.color), icon.colorScheme)),
        FillRoundedRect(Inset(bounds, borderWidth + outlineWidth), outlineRadius,
                        Resolve(BackgroundColor(icon.color), icon.colorScheme)) ]
    case Outline =>
      var lineWidth := OutlineLineWidth(contextScale);
      [ StrokeRoundedRect(Inset(bounds, borderWidth + lineWidth / 2.0), borderRadius, lineWidth,
                          Resolve(BorderColor(icon.color), icon.colorScheme)) ]
    case Simple =>
      [ FillRoundedRect(Inset(bounds, borderWidth), borderRadius * 1.5, SimpleColor(icon.color)) ]
    case SimpleHighlighted =>
      [ FillRoundedRect(Inset(bounds, borderWidth), borderRadius * 1.5, White) ]
  }

  /** A drop shadow with zero offset. */
  datatype Shadow = Shadow(blur: real, color: Color)

  /** The blend mode of the context while the foreground is drawn. */
  datatype BlendMode = NormalBlend | ClearBlend

  /** How a symbol image is composited onto the background. */
  datatype CompositeOp = SourceOver | DestinationOut

  /**
   * What is drawn in front of the background. A text run's frame is snapped
   * to whole pixels and then moved by `dy`; a symbol's frame is moved by `dy`
   * and then snapped.
   */
  datatype Foreground =
    | NoForeground
    | TextRun(text: string, font: Font, paint: Color, frame: Rect, dy: real)
    | SymbolRun(symbolName: string, pointSize: real, weight: Weight, paint: Color,
                frame: Rect, dy: real, op: CompositeOp)

  /** The decisions of the interior pass. */
  datatype Interior = Interior(
    shadow: Option<Shadow>,
    blend: BlendMode,
    textColor: Color,
    condensed: bool,
    font: Font,
    foreground: Foreground)

  /** Everything drawn for one icon in one set of bounds. */
  datatype Plan = Plan(bounds: Rect, background: seq<PathOp>, interior: Interior)

  function ShadowOf(icon: Icon): Option<Shadow> {
    if icon.style == Default && icon.color != Monochrome then
      Some(Shadow(2.0, ColorWithWhite(0.0, if icon.colorScheme == Dark then 1.0 else 0.5)))
    else None
  }

  function TextColorOf(icon: Icon): Color {
    if icon.style == SimpleHighlighted then Black
    else if icon.style == Outline || icon.color == Monochrome then Resolve(BorderColor(icon.color), icon.colorScheme)
    else White
  }

  function UsesCondensedFont(icon: Icon, host: Host): bool {
    && icon.style != Simple && icon.style != SimpleHighlighted
    && icon.content.Text? && icon.content.text in CondensedTexts
    && host.condensedFontAvailable
  }

  function ContentPointSize(icon: Icon, p: Platform): real {
    FontSize(icon, p) + FontSizeAdjustment(icon)
  }

  function FontOf(icon: Icon, p: Platform, host: Host): Font {
    if UsesCondensedFont(icon, host) then CondensedFont(ContentPointSize(icon, p))
    else SystemFont(ContentPointSize(icon, p), FontWeight(icon))
  }

  /** The symbol weight the platform configures: `symbolFontWeight` on macOS, `symbolWeight` elsewhere. */
  function SymbolWeightFor(s: Style, p: Platform): Weight {
    if p.MacOS? then SymbolFontWeight(s) else SymbolAsFontWeight(SymbolWeightOf(s))
  }

  /** The area the content is centred in: the bounds inside border and outline. */
  function ContentFrame(bounds: Rect, p: Platform): Rect {
    Inset(bounds, BorderWidth(p) + OutlineWidth(p))
  }

  /** The vertical shift of a text run. */
  function TextDy(icon: Icon, condensed: bool, p: Platform): real {
    YOffsetSign(p) * YOffsetAdjustment(icon)
      - (if icon.size >= LargeSize then 1.0 else 0.0)
      - (if condensed && icon.size < LargeSize then 1.0 else 0.0)
  }

  /** The foreground content, drawn in `paint` with the given font. */
  function DrawForeground(icon: Icon, bounds: Rect, p: Platform, host: Host, font: Font, condensed: bool, paint: Color): (f: Foreground)
    ensures icon.content.Image? ==> f.NoForeground?
    ensures icon.content.Text? ==>
      && f.TextRun? && f.text == icon.content.text && f.font == font && f.paint == paint
      && f.frame == Centered(host.measureText(icon.content.text, font), ContentFrame(bounds, p))
      && f.dy == YOffsetSign(p) * YOffsetAdjustment(icon)
                 - (if icon.size >= LargeSize then 1.0 else 0.0)
                 - (if condensed && icon.size < LargeSize then 1.0 else 0.0)
    ensures icon.content.SystemImage? ==>
      var pointSize := FontSize(icon, p) + FontSizeAdjustment(icon);
      var weight := SymbolWeightFor(icon.style, p);
      var resolved := host.symbolImage(icon.content.symbolName, pointSize, weight);
      && (f.NoForeground? <==> resolved.None?)
      && (resolved.Some? ==>
            f == SymbolRun(icon.content.symbolName, pointSize, weight, paint,
                           Centered(resolved.value, Inset(ContentFrame(bounds, p), 1.0)),
                           YOffsetSign(p) * YOffsetAdjustment(icon),
                           if icon.style == SimpleHighlighted then DestinationOut else SourceOver))
  {
    match icon.content
    case Text(s) =>
      TextRun(s, font, paint, Centered(host.measureText(s, font), ContentFrame(bounds, p)), TextDy(icon, condensed, p))
    case SystemImage(name) =>
      var pointSize := ContentPointSize(icon, p);
      var weight := SymbolWeightFor(icon.style, p);
      (match host.symbolImage(name, pointSize, weight)
       case None => NoForeground
       case Some(sz) =>
         SymbolRun(name, pointSize, weight, paint, Centered(sz, Inset(ContentFrame(bounds, p), 1.0)),
                   YOffsetSign(p) * YOffsetAdjustment(icon),
                   if icon.style == SimpleHighlighted then DestinationOut else SourceOver))
    case Image(_, _) => NoForeground
  }

  /** The interior pass: shadow, font, paint and blend decisions, then the foreground. */
  function DrawInterior(icon: Icon, bounds: Rect, p: Platform, host: Host): (i: Interior)
    ensures i.shadow.Some? <==> icon.style == Default && icon.color != Monochrome
    ensures i.shadow.Some? ==>
      i.shadow.value == Shadow(2.0, ColorWithWhite(0.0, if icon.colorScheme == Dark then 1.0 else 0.5))
    ensures icon.style == SimpleHighlighted ==> i.textColor == Black && i.blend == ClearBlend
    ensures icon.style != SimpleHighlighted ==> i.blend == NormalBlend
    ensures icon.style != SimpleHighlighted && (icon.style == Outline || icon.color == Monochrome) ==>
      i.textColor == Resolve(BorderColor(icon.color), icon.colorScheme)
    ensures icon.style != SimpleHighlighted && icon.style != Outline && icon.color != Monochrome ==>
      i.textColor == White
    ensures i.condensed <==>
      && icon.style != Simple && icon.style != SimpleHighlighted
      && (icon.content == Text("Ex") || icon.content == Text("Pr"))
      && host.condensedFontAvailable
    ensures i.font.pointSize == FontSize(icon, p) + FontSizeAdjustment(icon)
    ensures i.condensed ==> i.font.CondensedFont?
    ensures !i.condensed ==> i.font == SystemFont(FontSize(icon, p) + FontSizeAdjustment(icon), FontWeight(icon))
    ensures i.foreground == DrawForeground(icon, bounds, p, host, i.font, i.condensed, i.textColor)
  {
    var condensed := UsesCondensedFont(icon, host);
    var font := FontOf(icon, p, host);
    var textColor := TextColorOf(icon);
    Interior(
      ShadowOf(icon),
      if icon.style == SimpleHighlighted then ClearBlend else NormalBlend,
      textColor,
      condensed,
      font,
      DrawForeground(icon, bounds, p, host, font, condensed, textColor))
  }

  /** `drawBackground` followed by `drawInterior` in the given bounds. */
  function Draw(icon: Icon, bounds: Rect, contextScale: real, p: Platform, host: Host): (plan: Plan)
    ensures plan.bounds == bounds
    ensures plan.background == Background(icon, bounds, contextScale, p)
    ensures plan.interior == DrawInterior(icon, bounds, p, host)
  {
    Plan(bounds, Background(icon, bounds, contextScale, p), DrawInterior(icon, bounds, p, host))
  }

  /** The side of the icon in device pixels. */
  function DeviceSide(icon: Icon, p: Platform): (side: real)
    ensures p.MacOS? ==> side == icon.size
    ensures p.OtherOS? ==> side == icon.size * p.screenScale
  {
    icon.size * DeviceScale(p)
  }

  /** A bitmap of `pixelWidth` by `pixelHeight` pixels holding what `plan` draws. */
  datatype Bitmap = Bitmap(pixelWidth: int, pixelHeight: int, plan: Plan)

  /**
   * `cgImage`: a square bitmap whose side is the size in device pixels,
   * truncated to an integer. The bounds are not scaled down again, so the
   * context's own scale is 1. Creating the context fails when the side is
   * not positive.
   */
  function CgImage(icon: Icon, p: Platform, host: Host): (r: Option<Bitmap>)
    ensures r.Some? <==> Trunc(DeviceSide(icon, p)) > 0
    ensures r.Some? ==>
      && r.value.pixelWidth == r.value.pixelHeight == Trunc(DeviceSide(icon, p))
      && r.value.pixelWidth as real <= DeviceSide(icon, p) < r.value.pixelWidth as real + 1.0
      && r.value.plan == Draw(icon, Rect(0.0, 0.0, DeviceSide(icon, p), DeviceSide(icon, p)), 1.0, p, host)
  {
    var side := DeviceSide(icon, p);
    var pixels := Trunc(side);
    if pixels <= 0 then None
    else Some(Bitmap(pixels, pixels, Draw(icon, Rect(0.0, 0.0, side, side), 1.0, p, host)))
  }

  /**
   * A platform image. On macOS it is a drawing handler over the descriptor,
   * run whenever the image is displayed; elsewhere it wraps the bitmap, or is
   * empty when no bitmap could be made.
   */
  datatype PlatformImage =
    | EmptyImage
    | BitmapImage(bitmap: Bitmap, scale: real)
    | DrawnImage(icon: Icon, size: Size)

  /** `PlatformImage(icon)`. */
  function NewPlatformImage(icon: Icon, p: Platform, host: Host): (img: PlatformImage)
    ensures p.MacOS? ==> img == DrawnImage(icon, Size(icon.size, icon.size))
    ensures p.OtherOS? ==> (img.EmptyImage? <==> Trunc(DeviceSide(icon, p)) <= 0)
    ensures p.OtherOS? ==> !img.DrawnImage?
    ensures img.BitmapImage? ==>
      && img.scale == p.screenScale
      && img.bitmap.pixelWidth == img.bitmap.pixelHeight == Trunc(DeviceSide(icon, p))
      && Some(img.bitmap) == CgImage(icon, p, host)
  {
    match p
    case MacOS => DrawnImage(icon, Size(icon.size, icon.size))
    case OtherOS(scale) =>
      match CgImage(icon, p, host)
      case None => EmptyImage
      case Some(b) => BitmapImage(b, scale)
  }

  /**
   * What the macOS drawing handler draws: the descriptor's colour scheme is
   * replaced by the appearance the image is drawn under, and the bounds are
   * the unscaled ones.
   */
  function DrawHandler(icon: Icon, appearance: ColorScheme, contextScale: real, host: Host): (plan: Plan)
    ensures plan.bounds == UnscaledBounds(icon)
    ensures plan.background == Background(icon.(colorScheme := appearance), UnscaledBounds(icon), contextScale, MacOS)
    ensures plan.interior == DrawInterior(icon.(colorScheme := appearance), UnscaledBounds(icon), MacOS, host)
  {
    Draw(icon.(colorScheme := appearance), UnscaledBounds(icon), contextScale, MacOS, host)
  }

  /** On macOS the stored colour scheme has no effect on what is drawn. */
  lemma DrawHandlerIgnoresStoredScheme(icon: Icon, stored: ColorScheme, appearance: ColorScheme, contextScale: real, host: Host)
    ensures DrawHandler(icon, appearance, contextScale, host) == DrawHandler(icon.(colorScheme := stored), appearance, contextScale, host)
  {
  }

  /** When the size in device pixels is a whole positive number, the bitmap side is exactly that number. */
  lemma BitmapSideIsExact(icon: Icon, p: Platform, host: Host)
    requires DeviceSide(icon, p) >= 1.0
    requires (DeviceSide(icon, p)).Floor as real == DeviceSide(icon, p)
    ensures CgImage(icon, p, host).Some?
    ensures CgImage(icon, p, host).value.pixelWidth as real == DeviceSide(icon, p)
    ensures CgImage(icon, p, host).value.pixelHeight as real == DeviceSide(icon, p)
  {
    var side := DeviceSide(icon, p);
    assert Trunc(side) == side.Floor;
    var r := CgImage(icon, p, host);
    assert r.Some? && r.value.pixelWidth == r.value.pixelHeight == side.Floor;
  }

  /** Reference values: the regular and the large icon on macOS, and the regular icon at 2x. */
  lemma GeometryExamples(icon: Icon)
    ensures icon.size == 16.0 ==> FontSize(icon, MacOS) == 11.0 && OuterRadius(icon) == 3.0
    ensures icon.size == 32.0 ==> FontSize(icon, MacOS) == 21.0 && OuterRadius(icon) == 5.0
    ensures icon.size == 16.0 ==> FontSize(icon, OtherOS(2.0)) == 22.0
  {
  }

  /**
   * Border and outline widths scale with the device but the corner radius
   * does not, so the innermost radius of the default style goes negative:
   * at size 16 and scale 2 it is 3 - 4.
   */
  lemma InnerRadiusCanBeNegative(icon: Icon, bounds: Rect, contextScale: real)
    requires icon.style == Default && icon.size == 16.0
    ensures Background(icon, bounds, contextScale, OtherOS(2.0))[2].radius == -1.0
  {
    GeometryExamples(icon);
  }

  /**
   * The three layers of the default style share their corner centres: each
   * layer is inset from the bounds by exactly as much as its radius is
   * reduced, and all three keep the centre of the bounds.
   */
  lemma DefaultLayersConcentric(icon: Icon, bounds: Rect, contextScale: real, p: Platform)
    requires icon.style == Default && DeviceScale(p) >= 0.0
    requires bounds.Rect? && bounds.width >= 0.0 && bounds.height >= 0.0
    requires 4.0 * DeviceScale(p) <= bounds.width && 4.0 * DeviceScale(p) <= bounds.height
    ensures var ops := Background(icon, bounds, contextScale, p);
      forall i :: 0 <= i < |ops| ==>
        && ops[i].rect.Rect?
        && MidX(ops[i].rect) == MidX(bounds) && MidY(ops[i].rect) == MidY(bounds)
        && ops[i].radius + (MinX(ops[i].rect) - MinX(bounds)) == OuterRadius(icon)
        && ops[i].radius + (MinY(ops[i].rect) - MinY(bounds)) == OuterRadius(icon)
  {
  }

  /** The two simple styles draw the same rounded rectangle and differ only in its paint. */
  lemma SimpleStylesShareGeometry(icon: Icon, bounds: Rect, contextScale: real, p: Platform)
    requires icon.style == Simple
    ensures var plain := Background(icon, bounds, contextScale, p);
      var lit := Background(icon.(style := SimpleHighlighted), bounds, contextScale, p);
      && |plain| == |lit| == 1
      && plain[0].rect == lit[0].rect == Inset(bounds, BorderWidth(p))
      && plain[0].radius == lit[0].radius == 1.5 * (OuterRadius(icon) - BorderWidth(p))
      && plain[0].paint == SimpleColor(icon.color)
      && lit[0].paint == White
  {
  }

  /** A text run is shifted by the signed table nudge and at most one extra point in the negative y direction. */
  lemma TextDyAtMostOneCorrection(icon: Icon, bounds: Rect, p: Platform, host: Host)
    requires icon.content.Text?
    ensures var f := DrawInterior(icon, bounds, p, host).foreground;
      var base := YOffsetSign(p) * YOffsetAdjustment(icon);
      f.dy == base || f.dy == base - 1.0
  {
  }

  /** Bundled-image content never draws a foreground, whatever the host answers. */
  lemma ImageContentDrawsNoForeground(icon: Icon, bounds: Rect, p: Platform, host: Host)
    requires icon.content.Image?
    ensures DrawInterior(icon, bounds, p, host).foreground == NoForeground
  {
  }

  /** A symbol the host cannot resolve leaves the background alone on the canvas. */
  lemma UnresolvedSymbolDrawsNoForeground(icon: Icon, bounds: Rect, contextScale: real, p: Platform, host: Host)
    requires icon.content.SystemImage?
    requires host.symbolImage(icon.content.symbolName, FontSize(icon, p) + FontSizeAdjustment(icon),
                              SymbolWeightFor(icon.style, p)).None?
    ensures Draw(icon, bounds, contextScale, p, host).interior.foreground == NoForeground
    ensures Draw(icon, bounds, contextScale, p, host).background == Background(icon, bounds, contextScale, p)
  {
  }
}
