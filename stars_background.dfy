/** The parallax starfield: star generation from a canvas size and a stream of
    random samples, the per-frame placement of each star (parallax offsets,
    vertical wrap-around into a virtual band, ghost copies at the seam), and the
    twinkle update that is the only change a frame makes to the star list.
    Numbers are idealised as `real`. */
module StarsBackground {
  import opened Text
  import opened Sampling

  /** The component's props that shape the field (defaults in DefaultConfig). */
  datatype StarConfig = StarConfig(
    starDensity: real,
    allStarsTwinkle: bool,
    twinkleProbability: real,
    minTwinkleSpeed: real,
    maxTwinkleSpeed: real,
    parallaxIntensity: real)

  const DefaultConfig := StarConfig(0.00015, true, 0.7, 0.5, 1.0, 0.05)

  /** One star; `twinkleSpeed == None` is the source's `null`. */
  datatype Star = Star(
    x: real,
    y: real,
    initialX: real,
    initialY: real,
    radius: real,
    opacity: real,
    twinkleSpeed: Option<real>,
    parallaxFactor: real)

  // ---------------------------------------------------------------------------
  // Generation
  // ---------------------------------------------------------------------------

  /** The fields every generated star keeps for its whole life (opacity may
      later be rewritten by a twinkle, which stays within [0.5, 1]). */
  predicate WellFormed(cfg: StarConfig, s: Star)
  {
    && s.x == s.initialX && s.y == s.initialY
    && 0.5 <= s.radius < 0.55
    && 0.5 <= s.opacity <= 1.0
    && 0.2 <= s.parallaxFactor < 0.8
    && (s.twinkleSpeed.Some? && cfg.minTwinkleSpeed <= cfg.maxTwinkleSpeed ==>
          && cfg.minTwinkleSpeed <= s.twinkleSpeed.value <= cfg.maxTwinkleSpeed
          && (cfg.minTwinkleSpeed < cfg.maxTwinkleSpeed ==> s.twinkleSpeed.value < cfg.maxTwinkleSpeed))
  }

  predicate InCanvas(width: nat, height: nat, s: Star)
  {
    0.0 <= s.initialX < width as real && 0.0 <= s.initialY < height as real
  }

  /** `Array.from({ length: floor(width * height * starDensity) })`; a negative
      length is clamped to zero by Array.from. */
  function StarCount(cfg: StarConfig, width: nat, height: nat): (n: nat)
    ensures n > 0 ==> width > 0 && height > 0
  {
    var f := ((width * height) as real * cfg.starDensity).Floor;
    if f < 0 then 0 else f
  }

  /** The star literal built from its samples: `ux`, `uy` place it, `ur`
      sizes it, `uo` sets its first opacity, `us` its twinkle speed when it
      twinkles and `up` its parallax factor. */
  function MakeStar(cfg: StarConfig, width: nat, height: nat, shouldTwinkle: bool,
                    ux: real, uy: real, ur: real, uo: real, us: real, up: real): (s: Star)
    requires 0.0 <= ux < 1.0 && 0.0 <= uy < 1.0 && 0.0 <= ur < 1.0
    requires 0.0 <= uo < 1.0 && 0.0 <= us < 1.0 && 0.0 <= up < 1.0
    ensures WellFormed(cfg, s) && s.opacity < 1.0
    ensures width > 0 && height > 0 ==> InCanvas(width, height, s)
    ensures s.twinkleSpeed.Some? <==> shouldTwinkle
  {
    var w, h := width as real, height as real;
    var lo, hi := cfg.minTwinkleSpeed, cfg.maxTwinkleSpeed;
    ScaleBySample(ux, w);
    ScaleBySample(uy, h);
    ScaleBySample(us, hi - lo);
    var x := Times(ux, w);
    var y := Times(uy, h);
    Star(x, y, x, y,
         ur * 0.05 + 0.5,
         uo * 0.5 + 0.5,
         if shouldTwinkle then Some(lo + Times(us, hi - lo)) else None,
         up * 0.6 + 0.2)
  }

  /** One `Array.from` callback: draws its samples from `rand` starting at
      `pos`, in the order the object literal evaluates them, and returns the
      star with the position of the next unused sample. */
  function GenStar(cfg: StarConfig, width: nat, height: nat, rand: RandomStream, pos: nat): (res: (Star, nat))
    requires UnitSamples(rand)
    ensures res.1 > pos
    ensures WellFormed(cfg, res.0) && res.0.opacity < 1.0
    ensures width > 0 && height > 0 ==> InCanvas(width, height, res.0)
    ensures res.0.twinkleSpeed.Some? <==> cfg.allStarsTwinkle || rand(pos) < cfg.twinkleProbability
  {
    var shouldTwinkle := cfg.allStarsTwinkle || rand(pos) < cfg.twinkleProbability;
    // `||` short-circuits: no sample is drawn for the test when allStarsTwinkle holds
    var p := if cfg.allStarsTwinkle then pos else pos + 1;
    // the speed sample is drawn only for a twinkling star
    var q := if shouldTwinkle then p + 5 else p + 4;
    var us := if shouldTwinkle then rand(p + 4) else 0.0;
    (MakeStar(cfg, width, height, shouldTwinkle, rand(p), rand(p + 1), rand(p + 2), rand(p + 3), us, rand(q)), q + 1)
  }

  /** `n` successive callbacks, the first reading its samples from `pos`. */
  function GenStarsFrom(cfg: StarConfig, width: nat, height: nat, rand: RandomStream, pos: nat, n: nat): (stars: seq<Star>)
    requires UnitSamples(rand)
    ensures |stars| == n
    decreases n
  {
    if n == 0 then []
    else
      var (s, next) := GenStar(cfg, width, height, rand, pos);
      [s] + GenStarsFrom(cfg, width, height, rand, next, n - 1)
  }

  /** `generateStars(width, height)` with the samples `rand(0), rand(1), ...`. */
  function GenerateStars(cfg: StarConfig, width: nat, height: nat, rand: RandomStream): (stars: seq<Star>)
    requires UnitSamples(rand)
    ensures |stars| == StarCount(cfg, width, height)
    ensures width == 0 || height == 0 ==> stars == []
  {
    GenStarsFrom(cfg, width, height, rand, 0, StarCount(cfg, width, height))
  }

  lemma {:induction false} GenStarsFromShape(cfg: StarConfig, width: nat, height: nat, rand: RandomStream, pos: nat, n: nat)
    requires UnitSamples(rand)
    requires n > 0 ==> width > 0 && height > 0
    ensures |GenStarsFrom(cfg, width, height, rand, pos, n)| == n
    ensures forall s :: s in GenStarsFrom(cfg, width, height, rand, pos, n) ==>
              WellFormed(cfg, s) && InCanvas(width, height, s)
    decreases n
  {
    if n > 0 {
      var (s, next) := GenStar(cfg, width, height, rand, pos);
      GenStarsFromShape(cfg, width, height, rand, next, n - 1);
    }
  }

  /** The count is floor(area * density) and every star is well formed and
      spawns inside the canvas. */
  lemma GenerateStarsShape(cfg: StarConfig, width: nat, height: nat, rand: RandomStream)
    requires UnitSamples(rand)
    ensures |GenerateStars(cfg, width, height, rand)| == StarCount(cfg, width, height)
    ensures cfg.starDensity >= 0.0 ==>
              |GenerateStars(cfg, width, height, rand)| == ((width * height) as real * cfg.starDensity).Floor
    ensures forall s :: s in GenerateStars(cfg, width, height, rand) ==>
              WellFormed(cfg, s) && InCanvas(width, height, s)
  {
    GenStarsFromShape(cfg, width, height, rand, 0, StarCount(cfg, width, height));
    if cfg.starDensity >= 0.0 {
      assert 0.0 <= (width * height) as real * cfg.starDensity;
    }
  }

  /** When every star must twinkle (allStarsTwinkle, or a probability of at
      least 1), every star has a speed; with allStarsTwinkle off and a
      probability of at most 0, none has. */
  lemma {:induction false} TwinkleExtremes(cfg: StarConfig, width: nat, height: nat, rand: RandomStream, pos: nat, n: nat)
    requires UnitSamples(rand)
    ensures cfg.allStarsTwinkle || cfg.twinkleProbability >= 1.0 ==>
              forall s :: s in GenStarsFrom(cfg, width, height, rand, pos, n) ==> s.twinkleSpeed.Some?
    ensures !cfg.allStarsTwinkle && cfg.twinkleProbability <= 0.0 ==>
              forall s :: s in GenStarsFrom(cfg, width, height, rand, pos, n) ==> s.twinkleSpeed.None?
    decreases n
  {
    if n > 0 {
      var (s, next) := GenStar(cfg, width, height, rand, pos);
      TwinkleExtremes(cfg, width, height, rand, next, n - 1);
      assert 0.0 <= rand(pos) < 1.0;
    }
  }

  /** With the component's default props every star twinkles, at a speed in
      [0.5, 1). */
  lemma DefaultStarsTwinkle(width: nat, height: nat, rand: RandomStream)
    requires UnitSamples(rand)
    ensures forall s :: s in GenerateStars(DefaultConfig, width, height, rand) ==>
              s.twinkleSpeed.Some? && 0.5 <= s.twinkleSpeed.value < 1.0
  {
    GenerateStarsShape(DefaultConfig, width, height, rand);
    TwinkleExtremes(DefaultConfig, width, height, rand, 0, StarCount(DefaultConfig, width, height));
  }

  /** With the default density a 1920 x 1080 canvas holds 311 stars. */
  lemma DefaultDensityExample()
    ensures StarCount(DefaultConfig, 1920, 1080) == 311
  {
    assert (1920 * 1080) as real * 0.00015 == 311.04;
  }

  // ---------------------------------------------------------------------------
  // Per-frame placement
  // ---------------------------------------------------------------------------

  /** What one frame reads: the device class, the current (smoothed) spring
      values, the parallax intensity and the canvas size. */
  datatype Frame = Frame(
    mobile: bool,
    springX: real,
    springY: real,
    scrollY: real,
    parallaxIntensity: real,
    canvasWidth: nat,
    canvasHeight: nat)

  /** One `ctx.arc(x, y, radius, ...)` + fill with the given opacity. */
  datatype Draw = Draw(x: real, y: real, radius: real, opacity: real)

  function MouseOffsetX(f: Frame, s: Star): (dx: real)
    ensures f.mobile ==> dx == 0.0
  {
    if f.mobile then 0.0
    else f.springX * s.parallaxFactor * f.parallaxIntensity * f.canvasWidth as real
  }

  function MouseOffsetY(f: Frame, s: Star): (dy: real)
    ensures f.mobile ==> dy == 0.0
  {
    if f.mobile then 0.0
    else f.springY * s.parallaxFactor * f.parallaxIntensity * f.canvasHeight as real
  }

  /** Stars with a larger parallax factor move less with scroll. */
  function ScrollOffsetY(f: Frame, s: Star): (dy: real)
    ensures f.mobile ==> dy == 0.0
    ensures !f.mobile && f.scrollY >= 0.0 && 0.2 <= s.parallaxFactor < 0.8 ==>
              -f.scrollY <= dy <= 0.0
  {
    DampedScroll(f.scrollY, s.parallaxFactor);
    if f.mobile then 0.0 else -Times(1.0 - s.parallaxFactor * 0.8, f.scrollY)
  }

  lemma DampedScroll(scrollY: real, parallaxFactor: real)
    ensures scrollY >= 0.0 && 0.2 <= parallaxFactor < 0.8 ==>
              -scrollY <= -Times(1.0 - parallaxFactor * 0.8, scrollY) <= 0.0
  {
    if scrollY >= 0.0 && 0.2 <= parallaxFactor < 0.8 {
      ScaleBySample(1.0 - parallaxFactor * 0.8, scrollY);
    }
  }

  function DrawX(f: Frame, s: Star): (x: real)
    ensures f.mobile ==> x == s.initialX
  {
    s.initialX + MouseOffsetX(f, s)
  }

  function BaseY(f: Frame, s: Star): (y: real)
    ensures f.mobile ==> y == s.initialY
  {
    s.initialY + MouseOffsetY(f, s) + ScrollOffsetY(f, s)
  }

  /** Height of the virtual band the stars loop through. */
  function TotalHeight(f: Frame): (t: real)
    ensures t >= 1.5 * f.canvasHeight as real
    ensures f.mobile ==> t == 2.5 * f.canvasHeight as real
    ensures !f.mobile ==> t == 1.5 * f.canvasHeight as real
  {
    f.canvasHeight as real * (if f.mobile then 2.5 else 1.5)
  }

  /** Truncation toward zero, as JavaScript's `%` divides. */
  function Trunc(x: real): int
  {
    if x >= 0.0 then x.Floor else -((-x).Floor)
  }

  /** JavaScript's `%` on numbers: the remainder has the sign of the dividend. */
  function JsRem(a: real, n: real): (r: real)
    requires n > 0.0
    ensures a >= 0.0 ==> 0.0 <= r < n
    ensures a < 0.0 ==> -n < r <= 0.0
  {
    RemainderSign(a, n);
    a - Times(n, Trunc(a / n) as real)
  }

  lemma QuotientSign(a: real, n: real)
    requires n > 0.0
    ensures a >= 0.0 <==> a / n >= 0.0
  {
    DivTimes(a, n);
    if a / n < 0.0 {
      TimesStrict(a / n, 0.0, n);
    } else {
      TimesMono(0.0, a / n, n);
    }
  }

  /** The truncating remainder lies strictly within one divisor of zero, on
      the side of the dividend. */
  lemma RemainderSign(a: real, n: real)
    requires n > 0.0
    ensures var r := a - Times(n, Trunc(a / n) as real);
            (a >= 0.0 ==> 0.0 <= r < n) && (a < 0.0 ==> -n < r <= 0.0)
  {
    QuotientSign(a, n);
    if a >= 0.0 {
      FloorQuotient(a, n);
      TimesComm(n, (a / n).Floor as real);
    } else {
      var g := (-(a / n)).Floor;
      assert (-a) / n == -(a / n);
      FloorQuotient(-a, n);
      TimesComm(n, -g as real);
      TimesNeg(g as real, n);
    }
  }

  lemma TimesMono(x: real, y: real, t: real)
    requires t > 0.0 && x <= y
    ensures Times(x, t) <= Times(y, t)
  {
  }

  lemma TimesStrict(x: real, y: real, t: real)
    requires t > 0.0 && x < y
    ensures Times(x, t) < Times(y, t)
  {
  }

  lemma TimesSucc(x: real, t: real)
    ensures Times(x + 1.0, t) == Times(x, t) + t
  {
  }

  lemma TimesComm(x: real, y: real)
    ensures Times(x, y) == Times(y, x)
  {
  }

  lemma TimesNeg(x: real, y: real)
    ensures Times(-x, y) == -Times(x, y)
  {
  }

  lemma DivTimes(a: real, t: real)
    requires t > 0.0
    ensures Times(a / t, t) == a
  {
  }

  /** f = floor(a / t) satisfies f * t <= a < f * t + t. */
  lemma FloorQuotient(a: real, t: real)
    requires t > 0.0
    ensures Times((a / t).Floor as real, t) <= a < Times((a / t).Floor as real, t) + t
  {
    var q := a / t;
    var f := q.Floor as real;
    DivTimes(a, t);
    TimesMono(f, q, t);
    TimesStrict(q, f + 1.0, t);
    TimesSucc(f, t);
  }

  /** Conversely, an integer k with k * t <= a < k * t + t is floor(a / t). */
  lemma QuotientFloor(a: real, t: real, k: int)
    requires t > 0.0
    requires Times(k as real, t) <= a < Times(k as real, t) + t
    ensures (a / t).Floor == k
  {
    var f := (a / t).Floor;
    FloorQuotient(a, t);
    if f + 1 <= k {
      TimesMono(f as real + 1.0, k as real, t);
      TimesSucc(f as real, t);
    } else if k + 1 <= f {
      TimesMono(k as real + 1.0, f as real, t);
      TimesSucc(k as real, t);
    }
  }

  /** `((baseY % totalHeight) + totalHeight) % totalHeight`: lands in
      [0, totalHeight) and equals the floored ("true") modulo, also for a
      negative baseY. */
  function WrapY(baseY: real, total: real): (y: real)
    requires total > 0.0
    ensures 0.0 <= y < total
    ensures y == baseY - Times(total, (baseY / total).Floor as real)
  {
    WrapYIsFlooredMod(baseY, total);
    JsRem(JsRem(baseY, total) + total, total)
  }

  lemma WrapYIsFlooredMod(b: real, t: real)
    requires t > 0.0
    ensures var y := JsRem(JsRem(b, t) + t, t);
            0.0 <= y < t && y == b - Times(t, (b / t).Floor as real)
  {
    FloorQuotient(b, t);
    var fl := (b / t).Floor;
    TimesComm(t, fl as real);
    TimesSucc(0.0, t);
    var r1 := JsRem(b, t);
    if b / t >= 0.0 {
      assert r1 == b - Times(fl as real, t);
      QuotientFloor(r1 + t, t, 1);
    } else {
      var g := (-(b / t)).Floor;
      TimesComm(t, g as real);
      TimesNeg(g as real, t);
      if fl == -g {
        QuotientFloor(r1 + t, t, 1);
      } else {
        assert fl == -g - 1;
        TimesSucc(fl as real, t);
        QuotientFloor(r1 + t, t, 0);
      }
    }
  }

  /** `wrappedY`: the base y taken modulo the band height. */
  function WrappedY(f: Frame, s: Star): (y: real)
    requires f.canvasHeight > 0
    ensures 0.0 <= y < TotalHeight(f)
    ensures y == BaseY(f, s) - Times(TotalHeight(f), (BaseY(f, s) / TotalHeight(f)).Floor as real)
  {
    WrapY(BaseY(f, s), TotalHeight(f))
  }

  /** The arcs drawn for one star: the star itself, then a ghost one band
      above when it sits in the bottom 0.2 * height of the band, then a ghost
      one band below when it sits in the top 0.2 * height. Drawing uses the
      opacity the star had before this frame's twinkle. */
  function StarDraws(f: Frame, s: Star): (draws: seq<Draw>)
    requires f.canvasHeight > 0
    ensures 1 <= |draws| <= 2
    ensures forall d :: d in draws ==> d.x == DrawX(f, s) && d.radius == s.radius && d.opacity == s.opacity
    ensures draws[0] == Draw(DrawX(f, s), WrappedY(f, s), s.radius, s.opacity)
    ensures 0.0 <= draws[0].y < TotalHeight(f)
    ensures |draws| == 2 && draws[0].y > TotalHeight(f) - f.canvasHeight as real * 0.2 ==>
              draws[1].y == draws[0].y - TotalHeight(f)
    ensures |draws| == 2 && draws[0].y < f.canvasHeight as real * 0.2 ==>
              draws[1].y == draws[0].y + TotalHeight(f)
    ensures |draws| == 2 <==>
              draws[0].y > TotalHeight(f) - f.canvasHeight as real * 0.2 || draws[0].y < f.canvasHeight as real * 0.2
    ensures |draws| == 2 ==> draws[1].y < 0.0 || draws[1].y >= TotalHeight(f)
  {
    var t := TotalHeight(f);
    var h := f.canvasHeight as real;
    var x := DrawX(f, s);
    var y := WrappedY(f, s);
    var main := [Draw(x, y, s.radius, s.opacity)];
    var above := if y > t - h * 0.2 then [Draw(x, y - t, s.radius, s.opacity)] else [];
    var below := if y < h * 0.2 then [Draw(x, y + t, s.radius, s.opacity)] else [];
    main + above + below
  }

  /** Each ghost is drawn exactly when its threshold holds, and a ghost copy
      never lands on the visible canvas [0, height). */
  lemma GhostPlacement(f: Frame, s: Star)
    requires f.canvasHeight > 0
    ensures var t, h, y := TotalHeight(f), f.canvasHeight as real, WrappedY(f, s);
            && (Draw(DrawX(f, s), y - t, s.radius, s.opacity) in StarDraws(f, s) <==> y > t - h * 0.2)
            && (Draw(DrawX(f, s), y + t, s.radius, s.opacity) in StarDraws(f, s) <==> y < h * 0.2)
            && forall k :: 1 <= k < |StarDraws(f, s)| ==> StarDraws(f, s)[k].y < 0.0 || StarDraws(f, s)[k].y >= h
  {
  }

  /** All arcs of one frame, star by star in list order: between one and two
      per star. */
  function FrameDraws(stars: seq<Star>, f: Frame): (draws: seq<Draw>)
    requires f.canvasHeight > 0
    ensures |stars| <= |draws| <= 2 * |stars|
  {
    if stars == [] then []
    else FrameDraws(stars[..|stars| - 1], f) + StarDraws(f, stars[|stars| - 1])
  }

  /** The twinkle update; `sinValue` stands for `Math.sin(Date.now() * 0.001 / twinkleSpeed)`. */
  function Twinkle(s: Star, sinValue: real): (r: Star)
    requires -1.0 <= sinValue <= 1.0
    ensures r == s.(opacity := r.opacity)
    ensures s.twinkleSpeed.None? ==> r.opacity == s.opacity
    ensures s.twinkleSpeed.Some? ==> 0.5 <= r.opacity <= 1.0
  {
    if s.twinkleSpeed.Some? then
      var v := sinValue * 0.5;
      s.(opacity := 0.5 + (if v < 0.0 then -v else v))
    else s
  }

  predicate UnitSines(sins: seq<real>)
  {
    forall i :: 0 <= i < |sins| ==> -1.0 <= sins[i] <= 1.0
  }

  /** The star list after one frame's twinkles, `sins[i]` read for star i. */
  function Twinkled(stars: seq<Star>, sins: seq<real>): (r: seq<Star>)
    requires |sins| == |stars| && UnitSines(sins)
    ensures |r| == |stars|
    ensures forall i :: 0 <= i < |r| ==> r[i] == stars[i].(opacity := r[i].opacity)
    ensures forall i :: 0 <= i < |r| && stars[i].twinkleSpeed.None? ==> r[i] == stars[i]
    ensures forall i :: 0 <= i < |r| && stars[i].twinkleSpeed.Some? ==> 0.5 <= r[i].opacity <= 1.0
  {
    seq(|stars|, i requires 0 <= i < |stars| => Twinkle(stars[i], sins[i]))
  }

  /** A frame keeps every star well formed: it only rewrites opacity, within [0.5, 1]. */
  lemma TwinklePreservesWellFormed(cfg: StarConfig, s: Star, sinValue: real)
    requires WellFormed(cfg, s) && -1.0 <= sinValue <= 1.0
    ensures WellFormed(cfg, Twinkle(s, sinValue))
    ensures forall w: nat, h: nat :: InCanvas(w, h, s) ==> InCanvas(w, h, Twinkle(s, sinValue))
  {
  }

  // ---------------------------------------------------------------------------
  // The component's state
  // ---------------------------------------------------------------------------

  /** The renderer's canvas size and star list (React state plus the canvas's
      own width and height, which the effects keep equal). */
  class StarField {
    const config: StarConfig
    var canvasWidth: nat
    var canvasHeight: nat
    var stars: array<Star>

    ghost predicate Valid()
      reads this, stars
    {
      && (stars.Length > 0 ==> canvasWidth > 0 && canvasHeight > 0)
      && forall i :: 0 <= i < stars.Length ==>
           WellFormed(config, stars[i]) && InCanvas(canvasWidth, canvasHeight, stars[i])
    }

    /** Mount: no stars and a zero canvas size until the first effect runs. */
    constructor (config: StarConfig)
      ensures this.config == config
      ensures Valid() && fresh(stars)
      ensures canvasWidth == 0 && canvasHeight == 0 && stars.Length == 0
    {
      this.config := config;
      canvasWidth, canvasHeight := 0, 0;
      stars := new Star[0];
    }

    /** Resize the canvas and replace the whole star set by a fresh one. */
    method Regenerate(width: nat, height: nat, rand: RandomStream)
      requires UnitSamples(rand)
      modifies this
      ensures Valid() && fresh(stars)
      ensures canvasWidth == width && canvasHeight == height
      ensures stars[..] == GenerateStars(config, width, height, rand)
    {
      var generated := GenerateStars(config, width, height, rand);
      GenerateStarsShape(config, width, height, rand);
      canvasWidth, canvasHeight := width, height;
      stars := new Star[|generated|](i requires 0 <= i < |generated| => generated[i]);
      assert stars[..] == generated;
      forall i | 0 <= i < stars.Length
        ensures WellFormed(config, stars[i]) && InCanvas(canvasWidth, canvasHeight, stars[i])
      {
        assert stars[i] in generated;
      }
    }

    /** `initCanvas`: the screen size on mobile, the viewport size otherwise. */
    method InitCanvas(mobile: bool, screenWidth: nat, screenHeight: nat, innerWidth: nat, innerHeight: nat, rand: RandomStream)
      requires UnitSamples(rand)
      modifies this
      ensures Valid() && fresh(stars)
      ensures canvasWidth == (if mobile then screenWidth else innerWidth)
      ensures canvasHeight == (if mobile then screenHeight else innerHeight)
      ensures stars[..] == GenerateStars(config, canvasWidth, canvasHeight, rand)
    {
      if mobile {
        Regenerate(screenWidth, screenHeight, rand);
      } else {
        Regenerate(innerWidth, innerHeight, rand);
      }
    }

    /** The debounced desktop resize handler; it does nothing on mobile. */
    method HandleResize(mobile: bool, innerWidth: nat, innerHeight: nat, rand: RandomStream)
      requires Valid() && UnitSamples(rand)
      modifies this
      ensures Valid()
      ensures mobile ==> canvasWidth == old(canvasWidth) && canvasHeight == old(canvasHeight) && stars == old(stars)
      ensures !mobile ==> canvasWidth == innerWidth && canvasHeight == innerHeight && fresh(stars)
      ensures !mobile ==> stars[..] == GenerateStars(config, innerWidth, innerHeight, rand)
    {
      if !mobile {
        Regenerate(innerWidth, innerHeight, rand);
      }
    }

    /** The mobile orientation-change handler, after its settle delay. */
    method HandleOrientationChange(screenWidth: nat, screenHeight: nat, rand: RandomStream)
      requires UnitSamples(rand)
      modifies this
      ensures Valid() && fresh(stars)
      ensures canvasWidth == screenWidth && canvasHeight == screenHeight
      ensures stars[..] == GenerateStars(config, screenWidth, screenHeight, rand)
    {
      Regenerate(screenWidth, screenHeight, rand);
    }

    function CurrentFrame(mobile: bool, springX: real, springY: real, scrollY: real): (f: Frame)
      reads this
      ensures f.canvasWidth == canvasWidth && f.canvasHeight == canvasHeight && f.mobile == mobile
      ensures f.springX == springX && f.springY == springY && f.scrollY == scrollY
      ensures f.parallaxIntensity == config.parallaxIntensity
    {
      Frame(mobile, springX, springY, scrollY, config.parallaxIntensity, canvasWidth, canvasHeight)
    }

    /** One `render` call: draws every star in order, then rewrites the
        opacity of each twinkling star and nothing else. `sins[i]` is the sine
        read while star i is processed. An empty star list never starts the
        loop, so nothing is drawn. */
    method RenderFrame(mobile: bool, springX: real, springY: real, scrollY: real, sins: seq<real>)
      returns (draws: seq<Draw>)
      requires Valid()
      requires |sins| == stars.Length && UnitSines(sins)
      modifies stars
      ensures Valid()
      ensures stars.Length > 0 ==>
                draws == FrameDraws(old(stars[..]), CurrentFrame(mobile, springX, springY, scrollY))
      ensures stars.Length == 0 ==> draws == []
      ensures stars[..] == Twinkled(old(stars[..]), sins)
    {
      draws := [];
      if stars.Length == 0 {
        return;
      }
      var f := CurrentFrame(mobile, springX, springY, scrollY);
      var i := 0;
      while i < stars.Length
        invariant 0 <= i <= stars.Length
        invariant draws == FrameDraws(old(stars[..])[..i], f)
        invariant forall j :: 0 <= j < i ==> stars[j] == Twinkle(old(stars[j]), sins[j])
        invariant forall j :: i <= j < stars.Length ==> stars[j] == old(stars[j])
      {
        var s := stars[i];
        draws := draws + StarDraws(f, s);
        stars[i] := Twinkle(s, sins[i]);
        assert old(stars[..])[..i + 1][..i] == old(stars[..])[..i];
        i := i + 1;
      }
      assert old(stars[..])[..i] == old(stars[..]);
      forall j | 0 <= j < stars.Length
        ensures WellFormed(config, stars[j]) && InCanvas(canvasWidth, canvasHeight, stars[j])
      {
        TwinklePreservesWellFormed(config, old(stars[j]), sins[j]);
      }
    }
  }
}
