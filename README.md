# Star-field engine model

This project models the animated background of a personal website. The
component `StarField` (`src/app/page.tsx`) keeps a full-viewport canvas sized to
the window. On mount it seeds 120 stars. Each star has a position, a pixel size
of 1, 2 or 3, a fall speed, an opacity and a twinkle phase. On every animation
frame the engine clears the canvas. Then, for each star in turn, it recomputes
the opacity from the frame time, paints a white square at the floored position,
moves the star down by its speed, and sends it back to the top at a fresh random
`x` once it falls past the bottom edge. Teardown cancels the pending frame and
removes the resize listener.

The model has three modules:

- `StarModel` (`star_model.dfy`) holds the functional parts. It has the `Star`
  record, the engine's constants, seeding of one star and of the whole set, the
  twinkle function, the update of one star, the update of the array, and the
  paint each star produces. Positions are `real`s. Every `Math.random()` value is
  a parameter in [0, 1). `Math.sin` is a function parameter whose values lie in
  [-1, 1]. `Math.PI` is the constant `3.141592653589793`.
- `Timeline` (`timeline.dfy`) holds runs. A `Snapshot` is the surface size plus
  the stars. An `Event` is a resize or a frame. `Run` applies any sequence of
  events. Lemmas by induction show what every run keeps: 120 stars, fixed
  attributes, well-formed stars, and every star within the height after a frame.
- `StarFieldEngine` (`star_field.dfy`) holds the class `StarField`. Its fields are
  `width`, `height`, the star `array` and a lifecycle `state` (Seeded, Running,
  Stopped). `Tick` updates the array in place with a loop, like the source's
  `for … of` loop. It is proved equal to `Timeline.Apply` of a frame event.

Random draws: seeding takes one `SeedDraws` record per star. It lists the
values the object literal consumes in order; the second size draw is used only
when the first is at most 0.85, as in the source's short-circuit. A frame takes
one draw per star index. Star `i` uses it only when it wraps.

A freshly seeded star's opacity is `Math.random()` (`src/app/page.tsx:36`),
which can be below the twinkle's 0.3 floor. The first frame overwrites it
before anything is painted. So the model's invariant is opacity in [0, 1], and
the bound [0.3, 1] is proved for every star after a frame and for every
painted square.

## Model

| member | source | states |
|---|---|---|
| StarModel.Scale | src/app/page.tsx:32-33 | `Math.random() * n` lies in [0, n), or is exactly 0 when the dimension is 0 |
| StarModel.SizeTier | src/app/page.tsx:34 | the size is 1, 2 or 3; it is 3 exactly when the first draw exceeds 0.85, and 1 exactly when neither draw passes its threshold |
| StarModel.SeedStar | src/app/page.tsx:31-38 | a seeded star has x in [0,width), y in [0,height) (0 for a zero dimension), size in {1,2,3}, speed in [0.1,0.4), opacity in [0,1), phase in [0,2π) |
| StarModel.SeedStars | src/app/page.tsx:31-38 | seeding builds one star per draw record, and every one of them is in the seeded ranges |
| StarModel.SeededStarsWellFormed | src/app/page.tsx:31-38 | seeding with 120 draw records gives exactly 120 stars, all satisfying the engine invariant |
| StarModel.Twinkle | src/app/page.tsx:43 | the twinkle opacity lies in [0.3, 1.0] for any time and phase |
| StarModel.StepStar | src/app/page.tsx:42-51 | one star's update keeps size, speed and phase; its new opacity is in [0.3,1]; with y ≥ 0 and speed ≥ 0 before, the new y is in [0, height]; it preserves the engine invariant |
| StarModel.StepAll | src/app/page.tsx:42-51 | a frame keeps the number of stars and every star's fixed attributes; every new opacity is in [0.3,1]; every well-formed star stays well formed and ends at most at the height |
| StarModel.PaintOf | src/app/page.tsx:44-45 | the square is painted at the floor of the star's position before the advance; its side is the star's size; its alpha is the twinkle opacity of the star's phase at the frame time, in [0.3,1] |
| StarModel.FramePaints | src/app/page.tsx:42-45 | a frame paints one square per star, in array order: square i is at the floor of star i's position before the advance, has star i's size, and an alpha in [0.3,1] |
| StarModel.PaintAlphaIsNewOpacity | src/app/page.tsx:43-44 | the alpha a star is painted with is exactly the opacity the frame stores in that star |
| StarModel.FrameAlphaIsNewOpacity | src/app/page.tsx:42-45 | in a whole frame, square i is painted with exactly the new opacity of star i |
| StarModel.WrapRule | src/app/page.tsx:46-50 | when y + speed exceeds the height, the new y is exactly 0 and the new x is r·width, which lies in [0,width) |
| StarModel.NoWrapRule | src/app/page.tsx:46-47 | when y + speed does not exceed the height, the new y is exactly y + speed (no rounding) and x is unchanged |
| StarModel.OpacityDependsOnTimeAndPhase | src/app/page.tsx:43 | two stars with the same phase get the same opacity in a frame, whatever their positions, draws and the surface size |
| StarModel.StarsIndependent | src/app/page.tsx:42-51 | star i after a frame depends only on star i and its own draw, not on any other star |
| StarModel.HalfPixelAboveBottomWraps | src/app/page.tsx:46-49 | a star of speed 1 half a pixel above the bottom goes to height + 0.5, so it wraps to y = 0 with x in [0,width) |
| Timeline.Mount | src/app/page.tsx:16-38 | after mount the surface has the viewport size and holds one seeded star per draw record, each in the seeded ranges for that size |
| Timeline.MountHealthy | src/app/page.tsx:16-38 | mounting with 120 draw records gives 120 well-formed stars, all within the height |
| Timeline.Apply | src/app/page.tsx:16-51 | a resize sets exactly the new width and height and leaves every star unchanged; a frame keeps the dimensions and the star count |
| Timeline.Run | src/app/page.tsx:42-52 | any sequence of resizes and frames keeps the number of stars |
| Timeline.RunAppend | src/app/page.tsx:52 | running two event sequences one after the other is the same as running their concatenation |
| Timeline.RunHealthy | src/app/page.tsx:31-52 | after any interleaving of resizes and frames there are still 120 stars and every one satisfies the engine invariant |
| Timeline.RunKeepsAttributes | src/app/page.tsx:42-51 | no sequence of resizes and frames changes any star's size, speed or phase |
| Timeline.ResizesKeepStars | src/app/page.tsx:16-21 | any number of resizes leaves every star exactly where it was |
| Timeline.RunEndingInFrameWithinHeight | src/app/page.tsx:46-50 | after any run that ends with a frame, every star has 0 ≤ y ≤ current height, even when resizes shrank the height before that frame |
| StarFieldEngine.StarField.constructor | src/app/page.tsx:16-38 | mounting sets the surface to the viewport size, then seeds 120 stars into a fresh array, equal to `Timeline.Mount`, and establishes the invariant |
| StarFieldEngine.StarField.Resize | src/app/page.tsx:16-19 | the surface takes exactly the given size; the star array is untouched; the invariant is kept |
| StarFieldEngine.StarField.Start | src/app/page.tsx:54 | the first frame is requested: the engine becomes Running and keeps its invariant |
| StarFieldEngine.StarField.Tick | src/app/page.tsx:40-53 | the in-place loop produces exactly `Timeline.Apply` of a frame event; it keeps the invariant, leaves every star within the height, and returns the cleared rectangle and one painted square per star |
| StarFieldEngine.StarField.Dispose | src/app/page.tsx:55-58 | teardown moves the engine to Stopped and keeps its invariant; `Tick` and `Resize` require a live engine, so no frame or resize can run afterwards |
| StarFieldEngine.Lifecycle | src/app/page.tsx:10-59 | a mount, then a frame, a shrinking resize and another frame, leaves exactly 120 stars, all within the shrunk height |

## Left out

- The missing-canvas early return (`src/app/page.tsx:12`). The model starts from a mounted canvas.
- A missing 2D context. The source asserts `canvas.getContext("2d")` is non-null (`src/app/page.tsx:13`). If it were null, the first frame's `clearRect` would throw, the next frame would never be requested, and the animation would stop. The model assumes a context is always available, so `Tick` always succeeds and the engine stays Running.
- Drawing calls (`clearRect`, the `fillStyle` string, `fillRect`). They are browser APIs. They appear only as the abstract `Frame` value that `Tick` returns: the cleared rectangle, then the painted squares.
- `requestAnimationFrame`, `cancelAnimationFrame`, the `animId` handle and the resize listener. These are host scheduling and events. They appear only as the `state` field. The caller invoking `Tick` and `Resize` stands for the host firing them.
- `Math.random` and `Math.sin` as computations. Their values are parameters: draws in [0, 1), and a function bounded by [-1, 1].
- IEEE double arithmetic. Coordinates, speeds and opacities are exact `real`s. Rounding in `Math.random() * width` or in `y += speed` is not modelled.
- The order in which a frame consumes random values. The model gives every star its own draw. The source takes the next value of one stream for each star that wraps, in array order.
- The 32-bit limit on canvas dimensions. Width and height are unbounded `nat`s.
- The rest of the page (`SkillBar`, `Section`, `SocialLink`, `Home` and its boot timer) and `src/app/layout.tsx`. They are markup and have no engine logic.
