/**
  The value part of the background star field: the star record, the engine's
  constants, the seeding of one star and of the whole particle set, the twinkle
  function, the per-frame update of one star and the paint it produces.

  Coordinates and speeds are `real`s (an abstraction of JavaScript doubles).
  Every `Math.random()` value is an input in [0, 1); `Math.sin` is an input
  function whose values lie in [-1, 1].
 */
module StarModel {

  /** Number of stars seeded at mount. */
  const StarCount: nat := 120
  /** The value of `Math.PI`, written out. */
  const Pi: real := 3.141592653589793
  /** A first draw above this gives a 3-pixel star. */
  const TierThree: real := 0.85
  /** Otherwise a second draw above this gives a 2-pixel star. */
  const TierTwo: real := 0.5
  /** Speeds are `MinSpeed + r * SpeedSpan`, pixels per frame. */
  const MinSpeed: real := 0.1
  const SpeedSpan: real := 0.3
  /** Opacity is `TwinkleBase + TwinkleAmp * |sin(t * TwinkleRate + phase)|`. */
  const TwinkleBase: real := 0.3
  const TwinkleAmp: real := 0.7
  const TwinkleRate: real := 0.001

  /** One particle; the engine updates `opacity`, `y` and `x` in place. */
  datatype Star = Star(x: real, y: real, size: nat, speed: real, opacity: real, phase: real)

  /** One square painted by `fillRect`: floored corner, side and alpha of the white fill. */
  datatype Paint = Paint(x: int, y: int, side: nat, alpha: real)

  /** A value `Math.random()` can return. */
  predicate IsDraw(r: real) {
    0.0 <= r < 1.0
  }

  predicate AllDraws(rs: seq<real>) {
    forall i :: 0 <= i < |rs| ==> IsDraw(rs[i])
  }

  /**
    The random values seeding one star consumes, in evaluation order of the
    object literal. `tier2` is only consulted when `tier` does not exceed
    `TierThree`, as the conditional expression evaluates it lazily.
   */
  datatype SeedDraws = SeedDraws(x: real, y: real, tier: real, tier2: real,
                                 speed: real, opacity: real, phase: real)

  predicate ValidSeedDraws(d: SeedDraws) {
    IsDraw(d.x) && IsDraw(d.y) && IsDraw(d.tier) && IsDraw(d.tier2) &&
    IsDraw(d.speed) && IsDraw(d.opacity) && IsDraw(d.phase)
  }

  /** What the host's `Math.sin` is assumed to satisfy. */
  ghost predicate IsSine(sin: real -> real) {
    forall v :: -1.0 <= sin(v) <= 1.0
  }

  function Abs(v: real): real {
    if v < 0.0 then -v else v
  }

  /** `v` lies in [0, n), or is exactly 0 when the dimension `n` is 0. */
  predicate InDimension(v: real, n: nat) {
    0.0 <= v && (n == 0 ==> v == 0.0) && (n > 0 ==> v < n as real)
  }

  /** `Math.random() * n` for a surface dimension `n`. */
  function Scale(r: real, n: nat): (v: real)
    requires IsDraw(r)
    ensures InDimension(v, n)
  {
    assert r * n as real <= 1.0 * n as real;
    r * n as real
  }

  /** The weighted size draw: 3 above `TierThree`, else 2 above `TierTwo`, else 1. */
  function SizeTier(tier: real, tier2: real): (k: nat)
    ensures 1 <= k <= 3
    ensures k == 3 <==> tier > TierThree
    ensures k == 1 <==> tier <= TierThree && tier2 <= TierTwo
  {
    if tier > TierThree then 3 else if tier2 > TierTwo then 2 else 1
  }

  /** A star exactly as seeding may produce it on a `width` x `height` surface. */
  predicate SeededOn(s: Star, width: nat, height: nat) {
    InDimension(s.x, width) && InDimension(s.y, height) &&
    1 <= s.size <= 3 &&
    MinSpeed <= s.speed < MinSpeed + SpeedSpan &&
    0.0 <= s.opacity < 1.0 &&
    0.0 <= s.phase < 2.0 * Pi
  }

  /** The record built for one star of the `Array.from` comprehension. */
  function SeedStar(d: SeedDraws, width: nat, height: nat): (s: Star)
    requires ValidSeedDraws(d)
    ensures SeededOn(s, width, height)
  {
    Star(x := Scale(d.x, width),
         y := Scale(d.y, height),
         size := SizeTier(d.tier, d.tier2),
         speed := MinSpeed + d.speed * SpeedSpan,
         opacity := d.opacity,
         phase := d.phase * Pi * 2.0)
  }

  /** The whole particle set: one fresh record per entry of `draws`. */
  function SeedStars(draws: seq<SeedDraws>, width: nat, height: nat): (stars: seq<Star>)
    requires forall i :: 0 <= i < |draws| ==> ValidSeedDraws(draws[i])
    ensures |stars| == |draws|
    ensures forall i :: 0 <= i < |stars| ==> SeededOn(stars[i], width, height)
  {
    seq(|draws|, i requires 0 <= i < |draws| => SeedStar(draws[i], width, height))
  }

  /** The twinkle function: the opacity a star of phase `phase` gets at time `t`. */
  function Twinkle(sin: real -> real, t: real, phase: real): (o: real)
    requires IsSine(sin)
    ensures TwinkleBase <= o <= 1.0
  {
    TwinkleBase + TwinkleAmp * Abs(sin(t * TwinkleRate + phase))
  }

  /**
    The state every star keeps between frames: non-negative coordinates,
    attributes in their seeded ranges, opacity in [0, 1].
   */
  predicate WellFormed(s: Star) {
    0.0 <= s.x && 0.0 <= s.y &&
    1 <= s.size <= 3 &&
    MinSpeed <= s.speed < MinSpeed + SpeedSpan &&
    0.0 <= s.opacity <= 1.0 &&
    0.0 <= s.phase < 2.0 * Pi
  }

  /** `next` keeps the attributes fixed at seeding. */
  predicate SameAttributes(s: Star, next: Star) {
    next.size == s.size && next.speed == s.speed && next.phase == s.phase
  }

  /**
    One star's update in a frame at time `t` on a `width` x `height` surface:
    new opacity, advance by `speed`, and wrap to the top with the fresh draw `r`
    for `x` once `y` exceeds the height.
   */
  function StepStar(s: Star, sin: real -> real, t: real, r: real, width: nat, height: nat): (next: Star)
    requires IsSine(sin) && IsDraw(r)
    ensures SameAttributes(s, next)
    ensures TwinkleBase <= next.opacity <= 1.0
    ensures 0.0 <= s.y && 0.0 <= s.speed ==> 0.0 <= next.y <= height as real
    ensures WellFormed(s) ==> WellFormed(next)
  {
    var o := Twinkle(sin, t, s.phase);
    var y := s.y + s.speed;
    if y > height as real then s.(opacity := o, y := 0.0, x := Scale(r, width))
    else s.(opacity := o, y := y)
  }

  /** The whole particle set after one frame; star `i` uses the draw `rs[i]`. */
  function StepAll(stars: seq<Star>, sin: real -> real, t: real, rs: seq<real>, width: nat, height: nat): (next: seq<Star>)
    requires IsSine(sin) && |rs| == |stars| && AllDraws(rs)
    ensures |next| == |stars|
    ensures forall i :: 0 <= i < |next| ==> SameAttributes(stars[i], next[i])
    ensures forall i :: 0 <= i < |next| ==> TwinkleBase <= next[i].opacity <= 1.0
    ensures forall i :: 0 <= i < |next| && WellFormed(stars[i]) ==> WellFormed(next[i]) && next[i].y <= height as real
  {
    seq(|stars|, i requires 0 <= i < |stars| => StepStar(stars[i], sin, t, rs[i], width, height))
  }

  /** The square painted for `s` in a frame at time `t`: at the floored, not yet advanced position. */
  function PaintOf(s: Star, sin: real -> real, t: real): (p: Paint)
    requires IsSine(sin)
    ensures p.x as real <= s.x < p.x as real + 1.0
    ensures p.y as real <= s.y < p.y as real + 1.0
    ensures p.side == s.size
    ensures p.alpha == Twinkle(sin, t, s.phase) && TwinkleBase <= p.alpha <= 1.0
  {
    Paint(s.x.Floor, s.y.Floor, s.size, Twinkle(sin, t, s.phase))
  }

  /** The squares painted in one frame, one per star in array order. */
  function FramePaints(stars: seq<Star>, sin: real -> real, t: real): (paints: seq<Paint>)
    requires IsSine(sin)
    ensures |paints| == |stars|
    ensures forall i :: 0 <= i < |paints| ==> paints[i] == PaintOf(stars[i], sin, t)
    ensures forall i :: 0 <= i < |paints| ==>
      paints[i].x as real <= stars[i].x < paints[i].x as real + 1.0 &&
      paints[i].y as real <= stars[i].y < paints[i].y as real + 1.0
    ensures forall i :: 0 <= i < |paints| ==> paints[i].side == stars[i].size && TwinkleBase <= paints[i].alpha <= 1.0
  {
    seq(|stars|, i requires 0 <= i < |stars| => PaintOf(stars[i], sin, t))
  }

  /** A square is painted with the very opacity its star stores for the frame. */
  lemma PaintAlphaIsNewOpacity(s: Star, sin: real -> real, t: real, r: real, width: nat, height: nat)
    requires IsSine(sin) && IsDraw(r)
    ensures PaintOf(s, sin, t).alpha == StepStar(s, sin, t, r, width, height).opacity
  {
  }

  /** The same for a whole frame: square `i` carries star `i`'s new opacity. */
  lemma FrameAlphaIsNewOpacity(stars: seq<Star>, sin: real -> real, t: real, rs: seq<real>,
                               width: nat, height: nat, i: nat)
    requires IsSine(sin) && |rs| == |stars| && AllDraws(rs) && i < |stars|
    ensures FramePaints(stars, sin, t)[i].alpha == StepAll(stars, sin, t, rs, width, height)[i].opacity
  {
  }

  /** Wrap rule: past the bottom edge, `y` becomes exactly 0 and `x` a fresh value in [0, width). */
  lemma WrapRule(s: Star, sin: real -> real, t: real, r: real, width: nat, height: nat)
    requires IsSine(sin) && IsDraw(r)
    requires s.y + s.speed > height as real
    ensures StepStar(s, sin, t, r, width, height).y == 0.0
    ensures StepStar(s, sin, t, r, width, height).x == r * width as real
    ensures InDimension(StepStar(s, sin, t, r, width, height).x, width)
  {
  }

  /** No wrap: `y` advances by exactly `speed`, unrounded, and `x` stays put. */
  lemma NoWrapRule(s: Star, sin: real -> real, t: real, r: real, width: nat, height: nat)
    requires IsSine(sin) && IsDraw(r)
    requires s.y + s.speed <= height as real
    ensures StepStar(s, sin, t, r, width, height).y == s.y + s.speed
    ensures StepStar(s, sin, t, r, width, height).x == s.x
  {
  }

  /** The new opacity depends on the time and the star's phase only. */
  lemma OpacityDependsOnTimeAndPhase(s1: Star, s2: Star, sin: real -> real, t: real,
                                     r1: real, r2: real, w1: nat, h1: nat, w2: nat, h2: nat)
    requires IsSine(sin) && IsDraw(r1) && IsDraw(r2)
    requires s1.phase == s2.phase
    ensures StepStar(s1, sin, t, r1, w1, h1).opacity == StepStar(s2, sin, t, r2, w2, h2).opacity
  {
  }

  /**
    Stars are independent: star `i` after a frame is determined by star `i`
    and draw `i` alone, whatever the other stars and draws are.
   */
  lemma StarsIndependent(a: seq<Star>, b: seq<Star>, sin: real -> real, t: real,
                         ra: seq<real>, rb: seq<real>, width: nat, height: nat, i: nat)
    requires IsSine(sin) && |ra| == |a| && AllDraws(ra) && |rb| == |b| && AllDraws(rb)
    requires i < |a| && i < |b| && a[i] == b[i] && ra[i] == rb[i]
    ensures StepAll(a, sin, t, ra, width, height)[i] == StepAll(b, sin, t, rb, width, height)[i]
  {
  }

  /**
    A star of speed 1 half a pixel above the bottom edge goes past it and is
    sent back to the top.
   */
  lemma HalfPixelAboveBottomWraps(s: Star, sin: real -> real, t: real, r: real, width: nat, height: nat)
    requires IsSine(sin) && IsDraw(r)
    requires s.speed == 1.0 && s.y == height as real - 0.5
    ensures s.y + s.speed == height as real + 0.5
    ensures StepStar(s, sin, t, r, width, height).y == 0.0
    ensures InDimension(StepStar(s, sin, t, r, width, height).x, width)
  {
    WrapRule(s, sin, t, r, width, height);
  }

  /** Seeding yields exactly `StarCount` well-formed stars. */
  lemma SeededStarsWellFormed(draws: seq<SeedDraws>, width: nat, height: nat)
    requires |draws| == StarCount
    requires forall i :: 0 <= i < |draws| ==> ValidSeedDraws(draws[i])
    ensures |SeedStars(draws, width, height)| == StarCount
    ensures forall i :: 0 <= i < StarCount ==> WellFormed(SeedStars(draws, width, height)[i])
  {
  }
}
