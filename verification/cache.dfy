/**
 * The image cache: a process-wide map from descriptor to platform image,
 * filled on first use and never evicted. It is used everywhere except
 * macOS, where the platform image is a drawing handler and each request
 * makes a fresh one.
 *
 * The cache is threaded through explicitly: each lookup takes the current
 * map and returns the next one, together with whether it had to render. The
 * memoisation itself is stated over any renderer; `CachedImage` and
 * `ImagesFor` instantiate it with the platform image of a descriptor.
 */
module Cache {
  import opened Geometry
  import opened Icon
  import opened Render

  type ImageCache = map<Icon, PlatformImage>

  /** The result of one `image` request. */
  datatype Lookup<V> = Lookup(image: V, cache: map<Icon, V>, rendered: bool)

  /** Every cached image is what `render` makes of its descriptor. */
  ghost predicate Consistent<V>(cache: map<Icon, V>, render: Icon -> V) {
    forall k :: k in cache ==> cache[k] == render(k)
  }

  /**
   * `_image` over a renderer: answer from the cache when `remember` is set
   * and the descriptor is there; otherwise render, and store the result when
   * `remember` is set.
   */
  function Memo<V>(cache: map<Icon, V>, icon: Icon, remember: bool, render: Icon -> V): (l: Lookup<V>)
    ensures !remember ==> l.rendered && l.cache == cache
    ensures remember ==> (l.rendered <==> icon !in cache)
    ensures remember ==> icon in l.cache && l.cache[icon] == l.image
    ensures remember ==> l.cache.Keys == cache.Keys + {icon}
    ensures forall k :: k in cache ==> k in l.cache && l.cache[k] == cache[k]
    ensures l.rendered ==> l.image == render(icon)
    ensures Consistent(cache, render) ==> Consistent(l.cache, render) && l.image == render(icon)
  {
    if remember && icon in cache then Lookup(cache[icon], cache, false)
    else
      var image := render(icon);
      if remember then Lookup(image, cache[icon := image], true)
      else Lookup(image, cache, true)
  }

  /** The renderer behind the cache: `PlatformImage(icon)`. */
  function Renderer(p: Platform, host: Host): Icon -> PlatformImage {
    icon => NewPlatformImage(icon, p, host)
  }

  /** `icon.image`: memoised off macOS, rendered afresh on macOS. */
  function CachedImage(cache: ImageCache, icon: Icon, p: Platform, host: Host): (l: Lookup<PlatformImage>)
    ensures p.MacOS? ==> l.rendered && l.cache == cache
    ensures p.OtherOS? ==> (l.rendered <==> icon !in cache)
    ensures p.OtherOS? ==> icon in l.cache && l.cache[icon] == l.image
    ensures forall k :: k in cache ==> k in l.cache && l.cache[k] == cache[k]
    ensures l.rendered ==> l.image == NewPlatformImage(icon, p, host)
    ensures Consistent(cache, Renderer(p, host)) ==>
      Consistent(l.cache, Renderer(p, host)) && l.image == NewPlatformImage(icon, p, host)
  {
    Memo(cache, icon, p.OtherOS?, Renderer(p, host))
  }

  /** A second request for an equal descriptor is answered from the cache without rendering. */
  lemma SecondRequestHitsCache(cache: ImageCache, a: Icon, b: Icon, p: Platform, host: Host)
    requires p.OtherOS? && SameIcon(a, b)
    ensures var first := CachedImage(cache, a, p, host);
      var second := CachedImage(first.cache, b, p, host);
      && !second.rendered
      && second.image == first.image
      && second.cache == first.cache
  {
  }

  /** The distinct descriptors among the first `n` of a sequence. */
  function DescriptorsUpTo(icons: seq<Icon>, n: int): set<Icon>
    requires 0 <= n <= |icons|
  {
    if n == 0 then {} else DescriptorsUpTo(icons, n - 1) + {icons[n - 1]}
  }

  /** The distinct descriptors of a sequence. */
  function Descriptors(icons: seq<Icon>): set<Icon> {
    DescriptorsUpTo(icons, |icons|)
  }

  /**
   * How many of the first `n` requests miss a cache that starts with the
   * keys `known`: a request misses when neither the start nor an earlier
   * request supplied its descriptor.
   */
  function Misses(icons: seq<Icon>, n: int, known: set<Icon>): nat
    requires 0 <= n <= |icons|
  {
    if n == 0 then 0
    else Misses(icons, n - 1, known) + (if icons[n - 1] in known + DescriptorsUpTo(icons, n - 1) then 0 else 1)
  }

  /** The misses are exactly the distinct descriptors the start lacked. */
  lemma {:induction false} MissesCountNewDescriptors(icons: seq<Icon>, n: int, known: set<Icon>)
    requires 0 <= n <= |icons|
    ensures Misses(icons, n, known) == |DescriptorsUpTo(icons, n) - known|
  {
    if n > 0 {
      MissesCountNewDescriptors(icons, n - 1, known);
      var before := DescriptorsUpTo(icons, n - 1) - known;
      var x := icons[n - 1];
      if x in known + DescriptorsUpTo(icons, n - 1) {
        assert DescriptorsUpTo(icons, n) - known == before;
      } else {
        assert DescriptorsUpTo(icons, n) - known == before + {x};
        assert x !in before;
      }
    }
  }

  /**
   * Requests each descriptor in turn through `Memo`. The answers are what
   * the renderer makes of each descriptor, and when remembering, the
   * renderer runs once for every distinct descriptor not already cached and
   * never more.
   */
  method MemoAll<V>(icons: seq<Icon>, cache0: map<Icon, V>, remember: bool, render: Icon -> V)
    returns (images: seq<V>, cache: map<Icon, V>, renders: nat)
    requires Consistent(cache0, render)
    ensures |images| == |icons|
    ensures forall i :: 0 <= i < |icons| ==> images[i] == render(icons[i])
    ensures Consistent(cache, render)
    ensures !remember ==> cache == cache0 && renders == |icons|
    ensures remember ==> cache.Keys == cache0.Keys + Descriptors(icons)
    ensures remember ==> renders == |Descriptors(icons) - cache0.Keys|
  {
    if !remember {
      images := RenderAll(icons, render);
      cache, renders := cache0, |icons|;
    } else {
      images, cache, renders := RememberAll(icons, cache0, render);
    }
  }

  /** Without a cache every request renders. */
  method RenderAll<V>(icons: seq<Icon>, render: Icon -> V) returns (images: seq<V>)
    ensures |images| == |icons|
    ensures forall i :: 0 <= i < |icons| ==> images[i] == render(icons[i])
  {
    images := [];
    var i := 0;
    while i < |icons|
      invariant 0 <= i <= |icons|
      invariant |images| == i
      invariant forall j :: 0 <= j < i ==> images[j] == render(icons[j])
    {
      var l := Memo(map[], icons[i], false, render);
      images := images + [l.image];
      i := i + 1;
    }
  }

  /** With a cache, the renderer runs once per descriptor the cache lacks. */
  method RememberAll<V>(icons: seq<Icon>, cache0: map<Icon, V>, render: Icon -> V)
    returns (images: seq<V>, cache: map<Icon, V>, renders: nat)
    requires Consistent(cache0, render)
    ensures |images| == |icons|
    ensures forall i :: 0 <= i < |icons| ==> images[i] == render(icons[i])
    ensures Consistent(cache, render)
    ensures cache.Keys == cache0.Keys + Descriptors(icons)
    ensures renders == |Descriptors(icons) - cache0.Keys|
  {
    images, cache, renders := [], cache0, 0;
    var i := 0;
    while i < |icons|
      invariant 0 <= i <= |icons|
      invariant |images| == i
      invariant forall j :: 0 <= j < i ==> images[j] == render(icons[j])
      invariant Consistent(cache, render)
      invariant cache.Keys == cache0.Keys + DescriptorsUpTo(icons, i)
      invariant renders == Misses(icons, i, cache0.Keys)
    {
      var l := Memo(cache, icons[i], true, render);
      assert DescriptorsUpTo(icons, i + 1) == DescriptorsUpTo(icons, i) + {icons[i]};
      images := images + [l.image];
      cache := l.cache;
      renders := renders + (if l.rendered then 1 else 0);
      i := i + 1;
    }
    MissesCountNewDescriptors(icons, |icons|, cache0.Keys);
  }

  /** `image` for a list of descriptors: each answer is the platform image of its descriptor. */
  method ImagesFor(icons: seq<Icon>, cache0: ImageCache, p: Platform, host: Host)
    returns (images: seq<PlatformImage>, cache: ImageCache, renders: nat)
    requires Consistent(cache0, Renderer(p, host))
    ensures |images| == |icons|
    ensures forall i :: 0 <= i < |icons| ==> images[i] == NewPlatformImage(icons[i], p, host)
    ensures Consistent(cache, Renderer(p, host))
    ensures p.MacOS? ==> cache == cache0 && renders == |icons|
    ensures p.OtherOS? ==> cache.Keys == cache0.Keys + Descriptors(icons)
    ensures p.OtherOS? ==> renders == |Descriptors(icons) - cache0.Keys|
    ensures p.OtherOS? ==> renders <= |Descriptors(icons)|
  {
    images, cache, renders := MemoAll(icons, cache0, p.OtherOS?, Renderer(p, host));
    assert Descriptors(icons) - cache0.Keys <= Descriptors(icons);
    SubsetCardinality(Descriptors(icons) - cache0.Keys, Descriptors(icons));
  }

  /** A subset is no larger than its superset. */
  lemma SubsetCardinality(a: set<Icon>, b: set<Icon>)
    requires a <= b
    ensures |a| <= |b|
  {
    assert b == a + (b - a);
  }
}
