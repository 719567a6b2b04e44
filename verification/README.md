# IDE icons in Dafny

A model of the decision layer of the IDE icon renderer. An IDE icon is a small rounded badge showing a glyph, an abbreviation or a system symbol, in the style of Xcode's symbol icons. The model takes an icon descriptor (`IDEIcon`) and computes what would be drawn, without drawing anything:

- the descriptor and its defaults;
- the per-glyph adjustment tables (text weight, font-size delta, vertical nudge);
- the colour tables;
- the render plan:
  - the derived geometry;
  - the rounded rectangles of the background for each style;
  - the interior decisions: shadow, font, paint, blend mode, frame and vertical offset;
  - the bitmap size;
- the image cache, as a map passed from request to request.

Modules, one per file:

- `Options` (`options.dfy`): the option type.
- `Colors` (`colors.dfy`): `IDEColorScheme`, `AdaptiveColor`, `IDEIconColor` and its colour tables. The colour scheme lives here because adaptive colours need it.
- `Icon` (`icon.dfy`): the descriptor, its content and style, the initialisers, equality, style raw values and style weights.
- `Adjustments` (`adjustments.dfy`): `fontWeight`, `fontSizeAdjustment` and `yOffsetAdjustment`.
- `Geometry` (`geometry.dfy`): rectangles, `CGRect.insetBy`, `CGSize.centered(in:)`, `rounded()` and `Int()` truncation.
- `Render` (`render.dfy`): `deviceScale`, `fontSize`, `outerRadius`, the widths, `drawBackground`, `drawInterior`, `cgImage` and `PlatformImage(icon)`.
- `Cache` (`cache.dfy`): the `_image` memo cache, and requesting a list of icons through it.

What the host decides is passed in as a parameter:

- the platform: macOS, or another platform with its screen scale;
- whether the condensed SF Pro face exists;
- how large an attributed string measures;
- whether a named system symbol resolves, and how large it is.

Colours are RGBA tuples of reals. The platform's system colours (`.systemBlue` and so on) are opaque tokens.

`IDEIconContent`'s synthesised `Hashable` compares the bundle of image content (IDEIcon.swift:70-75). So `Bundle` is an identity token and is part of `==`.

Other modelling choices:

- `drawBackground` reads the context's device-to-user scale. It is the parameter `contextScale` here. `cgImage` draws into a bitmap context whose transform is the identity, so it passes 1.
- The bitmap side is `Int(size * deviceScale)`, which truncates toward zero. Creating the bitmap context is modelled as failing exactly when that side is not positive.
- `CGRect.insetBy` standardises the rectangle and yields the null rectangle once an extent would become negative. Centring a size in the null rectangle yields the null rectangle.
- Off macOS, the bitmap context is flipped before the interior is drawn. So the table's vertical nudge enters the plan negated there.

## Model

| member | source | states |
|---|---|---|
| Colors.OpaqueRgb | Sources/IDEIcons/IDEIcon+Colors.swift:197-201 | the RGB initialiser makes an RGBA colour with the given channels and alpha exactly 1 |
| Colors.Resolve | Sources/IDEIcons/IDEIcon+Colors.swift:20-25 | subscripting an adaptive colour gives its light half for the light scheme and its dark half for the dark scheme |
| Colors.ResolveDeterminesPair | Sources/IDEIcons/IDEIcon+Colors.swift:11-25 | two adaptive colours are equal exactly when they resolve alike under both schemes |
| Colors.ColorRawValue | Sources/IDEIcons/IDEIcon+Colors.swift:58-70 | a colour's raw value is a non-empty lower-case word; Colors.ColorFromRawValue parses it back |
| Colors.ColorRawValueInjective | Sources/IDEIcons/IDEIcon+Colors.swift:58-70 | no two colours share a raw value |
| Colors.ColorFromRawValue | Sources/IDEIcons/IDEIcon+Colors.swift:58-70 | parsing a raw value finds the colour whose case name is that string, and fails only when no colour has that name |
| Colors.ColorRawValueRoundTrip | Sources/IDEIcons/IDEIcon+Colors.swift:58-70 | every colour is recovered from its raw value |
| Colors.AllColorsEnumerates | Sources/IDEIcons/IDEIcon+Colors.swift:58-70 | `allCases` has exactly 11 entries, contains every colour and repeats none |
| Colors.BackgroundColor | Sources/IDEIcons/IDEIcon+Colors.swift:75-122 | monochrome is white in light and black in dark; every other colour is an opaque RGB pair with channels in [0, 1] |
| Colors.BorderColor | Sources/IDEIcons/IDEIcon+Colors.swift:124-171 | every colour, monochrome included, has an opaque RGB border pair with channels in [0, 1] |
| Colors.OutlineColor | Sources/IDEIcons/IDEIcon+Colors.swift:173-178 | the outline is white 0.96 at alpha 0.75 in light and white 0 at alpha 0.5 in dark |
| Colors.OutlineColorUniform | Sources/IDEIcons/IDEIcon+Colors.swift:173-178 | the outline colour is the same for all eleven colours |
| Colors.SimpleColor | Sources/IDEIcons/IDEIcon+Colors.swift:180-194 | the flat colour is an RGB value (white 0.85, alpha 1) exactly for monochrome and a system colour otherwise |
| Colors.SimpleColorInjective | Sources/IDEIcons/IDEIcon+Colors.swift:180-194 | distinct colours have distinct flat colours |
| Icon.NewIcon | Sources/IDEIcons/IDEIcon.swift:60-66 | omitted arguments default to purple, dark, the default style and size 16; supplied arguments are kept unchanged |
| Icon.TextIcon | Sources/IDEIcons/IDEIcon.swift:45-47 | the text initialiser yields text content and passes the other arguments to the designated initialiser |
| Icon.ImageIcon | Sources/IDEIcons/IDEIcon.swift:50-52 | the image initialiser yields image content with the given bundle and passes the other arguments on |
| Icon.SystemImageIcon | Sources/IDEIcons/IDEIcon.swift:55-57 | the system-image initialiser yields symbol content and passes the other arguments on |
| Icon.SameContent | Sources/IDEIcons/IDEIcon.swift:70-78 | content equality holds exactly for the same case with equal payloads, bundle included; text is compared scalar by scalar |
| Icon.SameIcon | Sources/IDEIcons/IDEIcon.swift:28-42 | descriptor equality holds exactly when content (as in Icon.SameContent), colour, scheme, style and size all agree |
| Icon.StyleRawValue | Sources/IDEIcons/IDEIcon.swift:105-110 | a style's raw value is its position in declaration order, between 0 and 3 |
| Icon.StyleFromRawValue | Sources/IDEIcons/IDEIcon.swift:105-110 | parsing an integer succeeds exactly for 0 to 3, and gives the style with that raw value |
| Icon.StyleRawValueRoundTrip | Sources/IDEIcons/IDEIcon.swift:105-110 | every style is recovered from its raw value |
| Icon.StyleFontWeight | Sources/IDEIcons/IDEIcon.swift:121-126 | the text weight is semibold exactly for the simple style and medium for the other three |
| Icon.SymbolFontWeight | Sources/IDEIcons/IDEIcon.swift:128-133 | the macOS symbol weight is semibold exactly for the simple style and regular otherwise |
| Icon.SymbolWeightOf | Sources/IDEIcons/IDEIcon.swift:135-142 | the UIKit symbol weight is semibold exactly for the simple style |
| Icon.SymbolWeightsAgree | Sources/IDEIcons/IDEIcon.swift:128-142 | both platforms configure every style's symbols with the same weight |
| Adjustments.FontWeight | Sources/IDEIcons/IDEIcon+Adjustments.swift:10-24 | text "#" is light, text "Ti" is regular, and all other content takes the style's weight |
| Adjustments.FontWeightDefersToStyle | Sources/IDEIcons/IDEIcon+Adjustments.swift:19-23 | image content, symbol content and any text other than "#" and "Ti" take the style's weight |
| Adjustments.FontSizeAdjustment | Sources/IDEIcons/IDEIcon+Adjustments.swift:26-51 | image content and unlisted texts or symbol names get 0; every delta lies between -1 and 2.5 |
| Adjustments.FontSizeEntries | Sources/IDEIcons/IDEIcon+Adjustments.swift:28-44 | "@" +1, "{}" -1, the integral sign 0, the bullet +2.5; "puzzlepiece.fill" -1 and "rectangle.connected.to.line.below" -0.1 |
| Adjustments.FontSizeDependsOnContentOnly | Sources/IDEIcons/IDEIcon+Adjustments.swift:26-51 | two descriptors with the same content get the same font-size delta, whatever their size, style or colour |
| Adjustments.YOffsetAdjustment | Sources/IDEIcons/IDEIcon+Adjustments.swift:53-91 | image content and keys missing from the size tier's table get 0; every nudge lies between -0.3 and 3.5 |
| Adjustments.SmallTextOffsets | Sources/IDEIcons/IDEIcon+Adjustments.swift:56-66 | up to size 16: "@", the integral sign and the bullet nudge by 1; "#" and "{}" by 0 |
| Adjustments.LargeTextOffsets | Sources/IDEIcons/IDEIcon+Adjustments.swift:67-77 | above size 16: "@" and the bullet nudge by 3, "{}" by 2, the integral sign by 3.5 and "#" by 0 |
| Adjustments.SymbolOffsetsIgnoreSize | Sources/IDEIcons/IDEIcon+Adjustments.swift:79-84 | a symbol's nudge is the same at every size: "list.bullet" 1, "rectangle.connected.to.line.below" -0.3 |
| Geometry.Round | Sources/IDEIcons/IDEIcon+Image.swift:88 | `rounded()` lands within one half of its argument, and a tie goes away from zero |
| Geometry.Trunc | Sources/IDEIcons/IDEIcon+Image.swift:99-100 | `Int()` drops the fraction toward zero: the result is no farther from zero than the argument, less than 1 nearer, and of the same sign |
| Geometry.InsetBy | Sources/IDEIcons/IDEIcon+Image.swift:340-344 | the inset is null exactly when an extent would go negative; otherwise it shrinks each extent by twice the inset, moves the minimum edges in by the inset and keeps the centre |
| Geometry.Inset | Sources/IDEIcons/IDEIcon+Image.swift:341-343 | the uniform inset is null exactly when either extent would go negative; otherwise it keeps the centre and shrinks both extents by twice the inset |
| Geometry.Centered | Sources/IDEIcons/IDEIcon+Image.swift:333-338 | the centred rectangle keeps the size and leaves equal margins left and right, and top and bottom |
| Render.DeviceScale | Sources/IDEIcons/IDEIcon+Image.swift:6-12 | the device scale is 1 on macOS and the screen scale elsewhere |
| Render.YOffsetSign | Sources/IDEIcons/IDEIcon+Image.swift:247-251 | the nudge keeps its sign exactly on macOS and is negated elsewhere |
| Render.FontSize | Sources/IDEIcons/IDEIcon+Image.swift:88 | the font size is size / 1.5 rounded half away from zero (Geometry.Round), times the device scale; on macOS it is a whole number |
| Render.FontSizeWithinHalfScale | Sources/IDEIcons/IDEIcon+Image.swift:88 | the font size differs from size / 1.5 times the device scale by at most half the device scale |
| Render.OuterRadius | Sources/IDEIcons/IDEIcon+Image.swift:90 | the corner radius is a whole number of at most 5: one point per full 4.5 points of size, and exactly 5 from size 22.5 up |
| Render.BorderWidth | Sources/IDEIcons/IDEIcon+Image.swift:92 | the border is one device pixel wide: the device scale in points |
| Render.OutlineWidth | Sources/IDEIcons/IDEIcon+Image.swift:91 | the outline is one device pixel wide, the same width as the border |
| Render.UnscaledBounds | Sources/IDEIcons/IDEIcon+Image.swift:93 | the unscaled bounds are the square of the icon's size at the origin |
| Render.OutlineLineWidth | Sources/IDEIcons/IDEIcon+Image.swift:158 | the outline stroke is one device pixel from 2x up and one point below that, so never wider than 1 |
| Render.Background | Sources/IDEIcons/IDEIcon+Image.swift:130-180 | default fills outline, border and background in that order, at insets 0, bw and bw+ow with radii R, R-bw and R-(bw+ow); outline strokes once in the border colour; the simple styles fill once at inset bw with radius 1.5(R-bw), in the flat colour or white |
| Render.DrawForeground | Sources/IDEIcons/IDEIcon+Image.swift:261-329 | text is centred in the content frame and shifted; a resolved symbol is centred one point further in and shifted, destination-out when highlighted; an unresolved symbol and image content draw nothing |
| Render.DrawInterior | Sources/IDEIcons/IDEIcon+Image.swift:182-330 | shadow iff the default style with a non-monochrome colour; text paint white, border colour for outline or monochrome, black with a clearing blend when highlighted; condensed face iff a non-simple "Ex" or "Pr" and the face exists |
| Render.Draw | Sources/IDEIcons/IDEIcon+Image.swift:109-125 | drawing an icon lays the background plan and then the interior plan over the same bounds |
| Render.DeviceSide | Sources/IDEIcons/IDEIcon+Image.swift:99-109 | the bitmap's extent is the icon's size on macOS and the size times the screen scale elsewhere |
| Render.CgImage | Sources/IDEIcons/IDEIcon+Image.swift:96-128 | a bitmap exists exactly when the truncated device side is positive; it is square, its side the truncated device size, and it holds the plan drawn at device size with context scale 1 |
| Render.NewPlatformImage | Sources/IDEIcons/IDEIcon+Image.swift:24-42 | on macOS the image is a drawing handler of the icon's size; elsewhere it is empty exactly when the truncated device side is not positive, and otherwise wraps the square bitmap of that side at the screen scale |
| Render.DrawHandler | Sources/IDEIcons/IDEIcon+Image.swift:28-36 | the macOS handler draws in the unscaled bounds under the current appearance's colour scheme |
| Render.DrawHandlerIgnoresStoredScheme | Sources/IDEIcons/IDEIcon+Image.swift:29-32 | on macOS the descriptor's own colour scheme has no effect on what is drawn |
| Render.BitmapSideIsExact | Sources/IDEIcons/IDEIcon+Image.swift:97-100 | when the device size is a whole number of at least 1, the bitmap is exactly that many pixels on each side |
| Render.GeometryExamples | Sources/IDEIcons/IDEIcon+Image.swift:88-90 | size 16 gives font size 11 and radius 3, size 32 gives 21 and 5, and size 16 at 2x gives font size 22 |
| Render.InnerRadiusCanBeNegative | Sources/IDEIcons/IDEIcon+Image.swift:134 | at size 16 and scale 2 the innermost radius of the default style is 3 - 4 = -1 |
| Render.DefaultLayersConcentric | Sources/IDEIcons/IDEIcon+Image.swift:138-155 | the three default layers keep the centre of the bounds, and each is inset by exactly as much as its radius is reduced |
| Render.SimpleStylesShareGeometry | Sources/IDEIcons/IDEIcon+Image.swift:166-178 | simple and simple-highlighted fill the same rectangle with the same radius and differ only in paint |
| Render.TextDyAtMostOneCorrection | Sources/IDEIcons/IDEIcon+Image.swift:263-285 | a text run is shifted by the signed table nudge and at most one extra point, never two |
| Render.ImageContentDrawsNoForeground | Sources/IDEIcons/IDEIcon+Image.swift:327-328 | bundled-image content draws no foreground, whatever the host answers |
| Render.UnresolvedSymbolDrawsNoForeground | Sources/IDEIcons/IDEIcon+Image.swift:319 | a symbol the host cannot resolve draws no foreground and leaves the background as planned |
| Cache.Memo | Sources/IDEIcons/IDEIcon+Image.swift:59-68 | with the cache, a request renders exactly when the descriptor is missing, then stores the image; old entries are kept; without it, every request renders and the map is unchanged |
| Cache.CachedImage | Sources/IDEIcons/IDEIcon+Image.swift:59-68 | off macOS the image is cached under the descriptor, rendering only on a miss; on macOS it is rendered afresh; a consistent cache answers with the platform image |
| Cache.SecondRequestHitsCache | Sources/IDEIcons/IDEIcon+Image.swift:59-68 | off macOS a second request for an equal descriptor renders nothing and returns the first image |
| Cache.MissesCountNewDescriptors | Sources/IDEIcons/IDEIcon+Image.swift:59-68 | over a run of requests, the misses number exactly the distinct descriptors the cache started without |
| Cache.RenderAll | Sources/IDEIcons/IDEIcon+Image.swift:59-68 | without the cache, each request of a list is answered with its own rendering |
| Cache.RememberAll | Sources/IDEIcons/IDEIcon+Image.swift:59-68 | with the cache, each request is answered with its descriptor's rendering, the cache ends holding every requested descriptor, and it renders once per new distinct descriptor |
| Cache.MemoAll | Sources/IDEIcons/IDEIcon+Image.swift:59-68 | a list of requests is answered in order with each descriptor's rendering; with the cache, renders equal the new distinct descriptors, and without it, one per request |
| Cache.ImagesFor | Sources/IDEIcons/IDEIcon+Image.swift:59-68 | a list of `image` requests: each answer is its descriptor's platform image; off macOS the renders never exceed the distinct descriptors, and on macOS there is one per request |

## Left out

- Every drawing effect is left out and replaced by plan values: context creation, paths, fills, strokes, `setShadow`, applying the blend mode, and `makeImage`.
- The bitmap's colour space, bits per component and alpha layout are left out, because they do not change any decision.
- `.integral` snapping of the foreground frame is left out. The plan records the frame before snapping and the shift. A text frame is snapped and then shifted; a symbol frame is shifted and then snapped.
- Text measurement, the condensed font's availability and system symbol resolution come from the host. They are parameters, because their values come from the platform's fonts.
- The appearance query of the macOS drawing handler is a parameter, `appearance`. `AdaptiveColor.nsColor` is left out because it only asks the host for the appearance.
- `deviceScale` is a parameter of the platform (1 on macOS), because the screen scale is read from the device.
- System colours are opaque tokens, because their components are defined by the host.
- The SwiftUI `Image` initialiser and `templateImage` are left out. They wrap or flag the platform image without changing what is drawn.
- Thread safety of the global cache is left out, because the model has no concurrency.
- Floating point is left out: `CGFloat` is a real. `rounded()` is rounding half away from zero, `rounded(.down)` is the floor, and `Int()` truncates toward zero. The run-time trap of `Int()` on a value beyond the range of `Int` is not modelled.
- `Hashable` hash values are left out. Only equality is modelled, and it is all the cache relies on. Text in that equality is compared by Unicode scalar, not by Swift's canonical equivalence (see the Icon.SameContent line).
- Colors.BackgroundColor: states that non-monochrome entries are opaque RGB with channels in [0, 1], not each literal value of the table.
- Colors.BorderColor: states that every entry is opaque RGB with channels in [0, 1], not each literal value of the table.
- Geometry.Centered: centring in the null rectangle gives the null rectangle. The platform would instead give a rectangle at an infinite origin.
- Render.CgImage: assumes that creating the bitmap context fails only when the side is not positive. Other failures depend on the host.
- Render.CgImage: does not model the trap of `Int(size * deviceScale)` (IDEIcon+Image.swift:99-100) once the product is 2^63 or more. The model truncates an unbounded integer and promises a bitmap there, where the program would crash.
- Render.NewPlatformImage: off macOS it inherits the unmodelled `Int()` trap of Render.CgImage. For a device side of 2^63 or more it promises a bitmap image, where the program would crash.
- Render.BitmapSideIsExact: holds for every whole device side of at least 1, including sides of 2^63 or more, where `Int()` would trap instead.
- Icon.SameContent: compares text scalar by scalar. Swift's `String ==` treats canonically equivalent strings as equal, for example "\u{E9}" and "e\u{301}". The model calls such contents unequal.
- Icon.SameIcon: inherits the text comparison of Icon.SameContent. So the model's cache (Cache.Memo, Cache.CachedImage) keeps two descriptors that differ only by canonically equivalent text as separate keys and renders each. The program would answer the second request from the cache. The adjustment tables are unaffected: none of their keys has another canonically equivalent spelling.
- The commented-out code is left out: the expanded-font selection and the `IDEIconGraphic` enum. So is `Package.swift`, which is only a build manifest.
