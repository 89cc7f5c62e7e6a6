/**
  Runs of the engine: what the particle set and the surface look like after
  any interleaving of viewport resizes and animation frames, and the
  invariants every such run keeps.
 */
module Timeline {
  import opened StarModel

  /** The engine's observable state: surface dimensions and the particle set. */
  datatype Snapshot = Snapshot(width: nat, height: nat, stars: seq<Star>)

  /** A resize event with the new viewport size, or a frame at time `t` with its random draws. */
  datatype Event = Resized(width: nat, height: nat) | Ticked(t: real, rs: seq<real>)

  /** A frame event carries one valid draw per star. */
  predicate ValidEvent(e: Event, count: nat) {
    e.Ticked? ==> |e.rs| == count && AllDraws(e.rs)
  }

  predicate ValidEvents(events: seq<Event>, count: nat) {
    forall i :: 0 <= i < |events| ==> ValidEvent(events[i], count)
  }

  /** The state after mounting: the surface takes the viewport size, then the stars are seeded on it. */
  function Mount(viewWidth: nat, viewHeight: nat, draws: seq<SeedDraws>): (s: Snapshot)
    requires forall i :: 0 <= i < |draws| ==> ValidSeedDraws(draws[i])
    ensures s.width == viewWidth && s.height == viewHeight
    ensures |s.stars| == |draws|
    ensures forall i :: 0 <= i < |s.stars| ==> SeededOn(s.stars[i], viewWidth, viewHeight)
  {
    Snapshot(viewWidth, viewHeight, SeedStars(draws, viewWidth, viewHeight))
  }

  /** The effect of one event. A resize touches only the dimensions, a frame only the stars. */
  function Apply(s: Snapshot, e: Event, sin: real -> real): (next: Snapshot)
    requires IsSine(sin) && ValidEvent(e, |s.stars|)
    ensures |next.stars| == |s.stars|
    ensures e.Resized? ==> next.width == e.width && next.height == e.height && next.stars == s.stars
    ensures e.Ticked? ==> next.width == s.width && next.height == s.height
  {
    match e
    case Resized(w, h) => s.(width := w, height := h)
    case Ticked(t, rs) => s.(stars := StepAll(s.stars, sin, t, rs, s.width, s.height))
  }

  /** The state after the events, in order. */
  function Run(s: Snapshot, events: seq<Event>, sin: real -> real): (last: Snapshot)
    requires IsSine(sin) && ValidEvents(events, |s.stars|)
    ensures |last.stars| == |s.stars|
    decreases |events|
  {
    if events == [] then s
    else Run(Apply(s, events[0], sin), events[1..], sin)
  }

  /** Every star well formed, and exactly `StarCount` of them. */
  predicate Healthy(s: Snapshot) {
    |s.stars| == StarCount && forall i :: 0 <= i < |s.stars| ==> WellFormed(s.stars[i])
  }

  /** Every star lies vertically within the surface. */
  predicate WithinHeight(s: Snapshot) {
    forall i :: 0 <= i < |s.stars| ==> 0.0 <= s.stars[i].y <= s.height as real
  }

  /** Mounting yields a healthy engine. */
  lemma MountHealthy(viewWidth: nat, viewHeight: nat, draws: seq<SeedDraws>)
    requires |draws| == StarCount
    requires forall i :: 0 <= i < |draws| ==> ValidSeedDraws(draws[i])
    ensures Healthy(Mount(viewWidth, viewHeight, draws))
    ensures WithinHeight(Mount(viewWidth, viewHeight, draws))
  {
  }

  /** Running events one after the other is running their concatenation. */
  lemma {:induction false} RunAppend(s: Snapshot, a: seq<Event>, b: seq<Event>, sin: real -> real)
    requires IsSine(sin) && ValidEvents(a, |s.stars|) && ValidEvents(b, |s.stars|)
    ensures ValidEvents(a + b, |s.stars|)
    ensures Run(s, a + b, sin) == Run(Run(s, a, sin), b, sin)
    decreases |a|
  {
    if a != [] {
      assert (a + b)[0] == a[0];
      assert (a + b)[1..] == a[1..] + b;
      RunAppend(Apply(s, a[0], sin), a[1..], b, sin);
    } else {
      assert a + b == b;
    }
  }

  /**
    Any interleaving of resizes and frames keeps the engine healthy: the star
    count stays `StarCount` and every star stays well formed.
   */
  lemma {:induction false} RunHealthy(s: Snapshot, events: seq<Event>, sin: real -> real)
    requires IsSine(sin) && ValidEvents(events, |s.stars|)
    requires Healthy(s)
    ensures Healthy(Run(s, events, sin))
    decreases |events|
  {
    if events != [] {
      RunHealthy(Apply(s, events[0], sin), events[1..], sin);
    }
  }

  /** No run changes a star's size, speed or phase. */
  lemma {:induction false} RunKeepsAttributes(s: Snapshot, events: seq<Event>, sin: real -> real, i: nat)
    requires IsSine(sin) && ValidEvents(events, |s.stars|)
    requires i < |s.stars|
    ensures SameAttributes(s.stars[i], Run(s, events, sin).stars[i])
    decreases |events|
  {
    if events != [] {
      RunKeepsAttributes(Apply(s, events[0], sin), events[1..], sin, i);
    }
  }

  /** Resizes keep every star where it is. */
  lemma {:induction false} ResizesKeepStars(s: Snapshot, events: seq<Event>, sin: real -> real)
    requires IsSine(sin) && ValidEvents(events, |s.stars|)
    requires forall i :: 0 <= i < |events| ==> events[i].Resized?
    ensures Run(s, events, sin).stars == s.stars
    decreases |events|
  {
    if events != [] {
      ResizesKeepStars(Apply(s, events[0], sin), events[1..], sin);
    }
  }

  /**
    After any run of a healthy engine that ends with a frame, every star lies
    within the current height, even when resizes shrank it in between.
   */
  lemma RunEndingInFrameWithinHeight(s: Snapshot, events: seq<Event>, sin: real -> real)
    requires IsSine(sin) && ValidEvents(events, |s.stars|)
    requires Healthy(s)
    requires events != [] && events[|events| - 1].Ticked?
    ensures WithinHeight(Run(s, events, sin))
  {
    var n := |events| - 1;
    var before, last := events[..n], events[n..];
    assert events == before + last;
    RunAppend(s, before, last, sin);
    RunHealthy(s, before, sin);
    var mid := Run(s, before, sin);
    assert last[1..] == [];
    assert Run(mid, last, sin) == Apply(mid, last[0], sin);
  }
}
