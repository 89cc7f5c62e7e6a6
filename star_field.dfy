/**
  The star-field engine as the component runs it: a drawing surface whose
  size follows the viewport, a fixed array of star records updated in place
  once per animation frame, and a lifecycle that teardown ends.

  Scheduling by `requestAnimationFrame` and the resize listener are host
  events; here they are the caller invoking `Tick` and `Resize`, and the
  pending frame and the listener are represented by `state`.
 */
module StarFieldEngine {
  import opened StarModel
  import opened Timeline

  /** Seeded: mounted, no frame requested yet. Running: a frame is pending. Stopped: torn down. */
  datatype Phase = Seeded | Running | Stopped

  /** What one frame draws: the cleared rectangle, then the squares in order. */
  datatype Frame = Frame(clearWidth: nat, clearHeight: nat, paints: seq<Paint>)

  class StarField {
    var width: nat
    var height: nat
    var stars: array<Star>
    var state: Phase

    /** The engine's invariant: `StarCount` well-formed stars. */
    ghost predicate Valid()
      reads this, stars
    {
      Healthy(Snap())
    }

    /** The abstract state the methods are specified against. */
    ghost function Snap(): Snapshot
      reads this, stars
    {
      Snapshot(width, height, stars[..])
    }

    /** Mount: size the surface to the viewport, then seed `StarCount` stars on it. */
    constructor (viewWidth: nat, viewHeight: nat, draws: seq<SeedDraws>)
      requires |draws| == StarCount
      requires forall i :: 0 <= i < |draws| ==> ValidSeedDraws(draws[i])
      ensures Valid() && fresh(stars) && state == Seeded
      ensures Snap() == Mount(viewWidth, viewHeight, draws)
    {
      width, height := viewWidth, viewHeight;
      stars := new Star[StarCount](i requires 0 <= i < StarCount => SeedStar(draws[i], viewWidth, viewHeight));
      state := Seeded;
      new;
      assert stars[..] == SeedStars(draws, viewWidth, viewHeight);
      MountHealthy(viewWidth, viewHeight, draws);
    }

    /** The resize listener: the surface takes the viewport size; no star moves. */
    method Resize(viewWidth: nat, viewHeight: nat)
      requires Valid() && state != Stopped
      modifies this`width, this`height
      ensures Valid()
      ensures width == viewWidth && height == viewHeight
      ensures stars[..] == old(stars[..])
    {
      width, height := viewWidth, viewHeight;
    }

    /** Request the first frame. */
    method Start()
      requires Valid() && state == Seeded
      modifies this`state
      ensures Valid() && state == Running
    {
      state := Running;
    }

    /**
      One frame at time `t`: clear the surface, then for each star in order
      set its opacity, paint it, advance it and wrap it (with the draw
      `rs[i]` for its new `x`); the next frame stays requested.
     */
    method Tick(sin: real -> real, t: real, rs: seq<real>) returns (frame: Frame)
      requires Valid() && state == Running
      requires IsSine(sin) && |rs| == stars.Length && AllDraws(rs)
      modifies stars
      ensures Valid()
      ensures Snap() == Apply(old(Snap()), Ticked(t, rs), sin)
      ensures WithinHeight(Snap())
      ensures frame == Frame(width, height, FramePaints(old(stars[..]), sin, t))
    {
      var paints: seq<Paint> := [];
      var i := 0;
      while i < stars.Length
        invariant 0 <= i <= stars.Length
        invariant |paints| == i
        invariant forall k :: 0 <= k < i ==> paints[k] == PaintOf(old(stars[k]), sin, t)
        invariant forall k :: 0 <= k < i ==> stars[k] == StepStar(old(stars[k]), sin, t, rs[k], width, height)
        invariant forall k :: i <= k < stars.Length ==> stars[k] == old(stars[k])
      {
        var s := stars[i];
        var o := Twinkle(sin, t, s.phase);
        paints := paints + [Paint(s.x.Floor, s.y.Floor, s.size, o)];
        var y := s.y + s.speed;
        if y > height as real {
          stars[i] := s.(opacity := o, y := 0.0, x := Scale(rs[i], width));
        } else {
          stars[i] := s.(opacity := o, y := y);
        }
        i := i + 1;
      }
      assert stars[..] == StepAll(old(stars[..]), sin, t, rs, width, height);
      assert paints == FramePaints(old(stars[..]), sin, t);
      frame := Frame(width, height, paints);
    }

    /** Teardown: cancel the pending frame and remove the resize listener. */
    method Dispose()
      requires Valid() && state == Running
      modifies this`state
      ensures Valid() && state == Stopped
    {
      state := Stopped;
    }
  }

  /**
    A mount followed by a frame, a shrinking resize and another frame: the
    engine keeps its 120 stars, and after the last frame every star is within
    the shrunk height. After teardown no further frame can run.
   */
  method Lifecycle(sin: real -> real, draws: seq<SeedDraws>, rs1: seq<real>, rs2: seq<real>)
    returns (count: nat, within: bool)
    requires IsSine(sin) && |draws| == StarCount
    requires forall i :: 0 <= i < |draws| ==> ValidSeedDraws(draws[i])
    requires |rs1| == StarCount && AllDraws(rs1) && |rs2| == StarCount && AllDraws(rs2)
    ensures count == StarCount && within
  {
    var field := new StarField(1920, 1080, draws);
    field.Start();
    var f1 := field.Tick(sin, 16.0, rs1);
    field.Resize(800, 600);
    var f2 := field.Tick(sin, 33.0, rs2);
    count := field.stars.Length;
    within := forall i :: 0 <= i < field.stars.Length ==> field.stars[i].y <= 600 as real;
    field.Dispose();
  }
}
