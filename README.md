# Scroll-scrubbed image sequences — a Dafny model

This project models the engineering core of a Next.js marketing site that
plays pre-rendered PNG frame sequences as the visitor scrolls:

- the **scroll → frame pipeline** shared by the two hooks
  (`useCanvasScrollAnimation`, `useScrollAnimation`): the raw scroll
  fraction, its remapping through an active range `[startTrigger,
  endTrigger]`, and the `ceil`-based frame selection clamped to
  `[1, totalFrames]`;
- the **canvas hook's** surface: cover-fit sizing at a 3840:2160 aspect
  ratio, the device-pixel-ratio backing store (with the canvas' own
  truncation to whole pixels), the frame store filled per successful load,
  and the paint guards;
- the **image-swap hook's** readiness flag and listener life cycle, and
  the fact that its container argument is never read;
- the two **sequence components**' pointer parallax: normalisation to
  [-1,1], the `ticking` flag that allows one pending animation-frame
  callback, the bounded translate/rotate numbers, the loading-text counter
  and loading-bar width;
- the **home page's** own state: the wrap-around carousel, the particle
  buffer (keep the last 20, append, remove by id), the 50 ms throttle, the
  scroll section and the visibility of the two sequences;
- the legacy **`/video` page**: zero-padded file names, a floor-based frame
  index, the preload list, and one callback per scroll event.

Scroll offsets, fractions and sizes are exact `real`s. Host inputs (window
and element sizes, scroll offsets, `devicePixelRatio`, `Date.now()`,
`Math.random()` ids, per-frame load outcomes) are parameters. Pure
formulas are functions with lemmas; React state, refs and closure
variables are fields of classes whose methods are the effects and event
handlers.

Behaviour followed from the code where it differs from what its comments and names suggest:

- the canvas hook starts with `imagesLoaded = true` (its name and the
  component's loading screen suggest a loading phase), so it never shows a
  loading state and its loading screen and text interval never run
  (`CanvasSequenceAnimation.LoadingScreenNeverShown`);
- a failed frame stays out of the store; the `catch` only logs and sets
  `imagesLoaded`, so painting that frame is skipped and the canvas keeps its
  last paint;
- the `ticking` flag of either component, commented as throttling for
  performance, keeps the **first** mouse event of a burst;
- `PngSequenceAnimation` is written to tilt with the pointer, but it
  registers its mouse handlers in a mount-only effect, while the loading screen (which carries no container ref) is
  shown, so as mounted its parallax stays at the origin
  (`PngSequenceAnimation.Mount`);
- the `/video` page schedules one image update per scroll event, with no
  coalescing; and its initial `currentFrame()` call, commented as drawing
  the initial image, throws (see Findings).

Modules, one per file: `Wrappers`, `RealArith`, `Decimal`,
`ScrollProgress`, `FrameStore`, `CanvasScrollHook`, `ScrollHook`,
`Parallax`, `CanvasSequenceAnimation`, `PngSequenceAnimation`,
`HomePage`, `VideoPage`.

## Model

| member | source | states |
|---|---|---|
| `RealArith.Ceil` | src/hooks/useCanvasScrollAnimation.js:177 | `Math.ceil` gives the least integer not below its argument |
| `RealArith.CeilMonotone` | src/hooks/useCanvasScrollAnimation.js:177 | ceiling is monotone |
| `RealArith.FloorMonotone` | src/app/video/page.js:61 | floor is monotone |
| `RealArith.FloorBand` | src/app/page.js:113 | `floor(t / h)` names the band of width `h` holding `t`: `k·h <= t < (k+1)·h` |
| `Decimal.NatToString` | src/hooks/useCanvasScrollAnimation.js:84 | an integer interpolated into a template is a non-empty digit string without a leading zero |
| `Decimal.ParseNatToString` | src/hooks/useCanvasScrollAnimation.js:84 | reading the decimal numeral back gives the number (round trip) |
| `Decimal.NatToStringInjective` | src/hooks/useCanvasScrollAnimation.js:84 | distinct numbers have distinct numerals |
| `Decimal.NatToStringLength` | src/app/video/page.js:22-24 | numbers below 10, 100, 1000 have 1, 2, 3 digits; 1000 and above more than 3 |
| `Decimal.PadStart` | src/app/video/page.js:22-24 | `padStart` result has length `max(|s|, width)`, ends with `s`, and is filled before it |
| `Decimal.ParseLeadingZeros` | src/app/video/page.js:22-24 | leading zeros do not change the value of the numeral |
| `ScrollProgress.ScrollTop` | src/hooks/useCanvasScrollAnimation.js:155 | a non-zero `pageYOffset` is the offset; a zero one falls back to the document element's scroll offset |
| `ScrollProgress.ScrollFraction` | src/hooks/useCanvasScrollAnimation.js:156-160 | no fraction iff `maxScrollTop <= 0`; otherwise fraction·max = scrollTop, and it lies in [0,1] for an in-range offset |
| `ScrollProgress.Remap` | src/hooks/useCanvasScrollAnimation.js:162-173 | progress in [0,1]; 0 at or before the start trigger, 1 past it at or after the end, and strictly inside (0,1) and linear (start + p·range = fraction) in between; the division is well-defined for any triggers |
| `ScrollProgress.RemapMonotone` | src/hooks/useCanvasScrollAnimation.js:162-173 | progress never decreases as the fraction grows, for any triggers |
| `ScrollProgress.RemapDegenerateRange` | src/hooks/useCanvasScrollAnimation.js:165-172 | with `endTrigger <= startTrigger` progress is a step from 0 to 1 at the start trigger |
| `ScrollProgress.SelectFrame` | src/hooks/useCanvasScrollAnimation.js:175-178 | for `totalFrames >= 1` the frame is in `[1, totalFrames]` and is the least frame that reaches progress·N·multiplier (or the last) |
| `ScrollProgress.SelectFrameAtStart` | src/hooks/useCanvasScrollAnimation.js:175-178 | progress 0 gives frame 1 for any multiplier |
| `ScrollProgress.SelectFrameAtEnd` | src/hooks/useCanvasScrollAnimation.js:175-178 | progress 1 with multiplier ≥ 1 gives the last frame |
| `ScrollProgress.SelectFrameMonotone` | src/hooks/useCanvasScrollAnimation.js:175-178 | with multiplier ≥ 0 more progress never selects an earlier frame |
| `ScrollProgress.FrameForFraction` | src/hooks/useCanvasScrollAnimation.js:160-178 | frame in range; frame 1 up to the start trigger; last frame past the end trigger when multiplier ≥ 1 |
| `ScrollProgress.FrameMonotoneInFraction` | src/hooks/useCanvasScrollAnimation.js:160-178 | with multiplier ≥ 0 the frame is monotone in the scroll fraction |
| `ScrollProgress.FrameForScroll` | src/hooks/useCanvasScrollAnimation.js:154-180 | no frame (keep the current one) iff `maxScrollTop <= 0`; otherwise the frame in range for `scrollTop / maxScrollTop` |
| `ScrollProgress.FrameForScrollMonotone` | src/hooks/useCanvasScrollAnimation.js:154-180 | on a fixed scrollable page, scrolling further never moves the animation backwards |
| `ScrollProgress.MidpointOfActiveRange` | src/app/page.js:216-220 | the 140-frame sequence active over the first 30% shows frame 70 at fraction 0.15 |
| `ScrollProgress.MultiplierFinishesEarly` | src/hooks/useCanvasScrollAnimation.js:175-178 | 100 frames at multiplier 2 reach the last frame at fraction 0.6 (120 clamped to 100) |
| `FrameStore.FrameSrc` | src/hooks/useCanvasScrollAnimation.js:84 | frame address is prefix, the decimal frame number, `.png`; the number reads back, and it carries no leading zero unless it is `0` itself |
| `FrameStore.FrameSrcInjective` | src/hooks/useCanvasScrollAnimation.js:84 | distinct frames have distinct addresses |
| `FrameStore.RequestSources` | src/hooks/useScrollAnimation.js:20-31 | the preload loop requests exactly frames 1..totalFrames, in order |
| `FrameStore.Settle` | src/hooks/useScrollAnimation.js:33-40 | `Promise.all` fulfils iff every load succeeded |
| `CanvasScrollHook.ViewportHeight` | src/hooks/useCanvasScrollAnimation.js:23-45 | on a viewport at most 768 wide with a measured `100lvh` height, that height; otherwise `innerHeight` |
| `CanvasScrollHook.CoverFit` | src/hooks/useCanvasScrollAnimation.js:47-55 | the canvas covers both viewport axes, has aspect exactly 3840:2160, and fills one axis exactly |
| `CanvasScrollHook.CoverFitIsSmallest` | src/hooks/useCanvasScrollAnimation.js:47-55 | no smaller surface of that aspect covers the viewport |
| `CanvasScrollHook.CoverFitLandscapeExample` | src/hooks/useCanvasScrollAnimation.js:47-55 | an 800x600 viewport gets a canvas 600 high and at least 800 wide |
| `CanvasScrollHook.CanvasDimensionsFor` | src/hooks/useCanvasScrollAnimation.js:22-57 | the canvas covers the window width and the (mobile large-viewport or inner) height at the target aspect |
| `CanvasScrollHook.PixelRatio` | src/hooks/useCanvasScrollAnimation.js:125 | an undefined or zero ratio falls back to 1, so the scale is never 0 |
| `CanvasScrollHook.CanvasPixels` | src/hooks/useCanvasScrollAnimation.js:126-127 | the stored size is a whole number in [0, 2^31-1]: the floor of an assigned value in [0, 2^31), 0 for one in (-1, 0), and the attribute's default for a value in [2^31, 2^32) or [-2^31, -1] |
| `CanvasScrollHook.BackingSize` | src/hooks/useCanvasScrollAnimation.js:125-127 | each axis of the backing store is the CSS size times the pixel ratio, to whole pixels, while that is below 2^31; from 2^31 to 2^32 it is the canvas default (300 wide, 150 high) |
| `CanvasScrollHook.CanvasScrollAnimation.constructor` | src/hooks/useCanvasScrollAnimation.js:13-18 | frame 1, `imagesLoaded` already true, original size, empty store |
| `CanvasScrollHook.CanvasScrollAnimation.UpdateCanvasDimensions` | src/hooks/useCanvasScrollAnimation.js:22-57 | the resize handler sets the cover-fit dimensions |
| `CanvasScrollHook.CanvasScrollAnimation.Preload` | src/hooks/useCanvasScrollAnimation.js:80-106 | a frame is stored iff its load succeeded, only for `1..totalFrames`, under its own address; `imagesLoaded` ends true on both paths |
| `CanvasScrollHook.CanvasScrollAnimation.InitializeCanvas` | src/hooks/useCanvasScrollAnimation.js:113-134 | no-op without a canvas (context, backing store, scale and paints unchanged); otherwise context taken, backing store and scale from the pixel ratio, frame 1 painted only if stored |
| `CanvasScrollHook.CanvasScrollAnimation.PaintCurrentFrame` | src/hooks/useCanvasScrollAnimation.js:137-149 | a paint is issued only with a context and a stored current frame; every paint ever issued is of a stored in-range frame |
| `CanvasScrollHook.CanvasScrollAnimation.HandleScroll` | src/hooks/useCanvasScrollAnimation.js:151-186 | the frame becomes the selected frame, unchanged when the page cannot scroll; stays in `[1, totalFrames]` |
| `ScrollHook.ScrollAnimation.constructor` | src/hooks/useScrollAnimation.js:12-13 | frame 1, not loaded, no listener |
| `ScrollHook.ScrollAnimation.Preload` | src/hooks/useScrollAnimation.js:17-31 | requests frames 1..totalFrames in order |
| `ScrollHook.ScrollAnimation.ImagesSettled` | src/hooks/useScrollAnimation.js:33-40 | `imagesLoaded` becomes true whether all loads succeed or one fails |
| `ScrollHook.ScrollAnimation.ScrollEffect` | src/hooks/useScrollAnimation.js:46-86 | nothing before loading; once loaded the listener is attached and the handler runs once immediately |
| `ScrollHook.ScrollAnimation.WindowFrame` | src/hooks/useScrollAnimation.js:49-79 | the frame is in range, unchanged when the page cannot scroll, and depends only on window scroll values |
| `ScrollHook.ScrollAnimation.HandleScroll` | src/hooks/useScrollAnimation.js:49-79 | no frame is computed while the listener is not attached; otherwise the window frame |
| `ScrollHook.ContainerIsIgnored` | src/hooks/useScrollAnimation.js:50-57 | hooks differing only in their container select the same frame |
| `Parallax.Normalize` | src/components/CanvasSequenceAnimation.js:54-55 | the normalised coordinate is in [-1,1] iff the offset is within the extent, and maps back to the offset |
| `Parallax.NormalizeCentre` | src/components/CanvasSequenceAnimation.js:54-55 | the centre normalises to 0 |
| `Parallax.NormalizeMonotone` | src/components/CanvasSequenceAnimation.js:54-55 | normalisation preserves order |
| `Parallax.ParallaxStyle` | src/components/CanvasSequenceAnimation.js:77-84 | translate = 8·(x, y), rotateX tracks -y and rotateY tracks x at 1/16 of the translation; no transform iff the pointer is at the origin |
| `Parallax.ParallaxBounded` | src/components/CanvasSequenceAnimation.js:77-84 | for a pointer in [-1,1]^2, at most 8px translation and 0.5° rotation per axis |
| `CanvasSequenceAnimation.WindowPointerTracker.constructor` | src/components/CanvasSequenceAnimation.js:25 | pointer at the origin, no callback pending |
| `CanvasSequenceAnimation.WindowPointerTracker.MouseMove` | src/components/CanvasSequenceAnimation.js:51-61 | a callback is scheduled only when none is pending; at most one is ever pending |
| `CanvasSequenceAnimation.WindowPointerTracker.AnimationFrame` | src/components/CanvasSequenceAnimation.js:53-58 | the pending callback normalises its event against the window and clears `ticking`; in-window pointers land in [-1,1]^2 |
| `CanvasSequenceAnimation.WindowPointerTracker.MouseLeave` | src/components/CanvasSequenceAnimation.js:63-65 | back to the origin, which yields no transform |
| `CanvasSequenceAnimation.NextLoadingTextIndex` | src/components/CanvasSequenceAnimation.js:41 | the index stays in [0,6), advancing by one and wrapping from 5 to 0 |
| `CanvasSequenceAnimation.LoadingTextAfterTicks` | src/components/CanvasSequenceAnimation.js:38-45 | after k ticks the index is `(start + k) mod 6` |
| `CanvasSequenceAnimation.LoadingTextCycles` | src/components/CanvasSequenceAnimation.js:41 | six ticks return to the starting text |
| `CanvasSequenceAnimation.LoadingBarWidth` | src/components/CanvasSequenceAnimation.js:99 | width·N = frame·100, and it lies in (0,100] for a frame in `[1, N]` |
| `CanvasSequenceAnimation.ShowsLoadingScreen` | src/components/CanvasSequenceAnimation.js:93 | the loading screen is rendered exactly while the images are not loaded |
| `CanvasSequenceAnimation.LoadingScreenNeverShown` | src/components/CanvasSequenceAnimation.js:93-107 | with the canvas hook the loading screen never shows |
| `CanvasSequenceAnimation.UseCanvasSequence` | src/components/CanvasSequenceAnimation.js:16-24 | the hook gets the props and multiplier 1 |
| `PngSequenceAnimation.NormalizeToRect` | src/components/PngSequenceAnimation.js:38-40 | the container-relative pointer is in [-1,1]^2 iff it is inside the box; the box centre maps to the origin |
| `PngSequenceAnimation.ImageSrc` | src/components/PngSequenceAnimation.js:26-29 | the `<img>` source is the prefix, the unpadded decimal frame number (it reads back as the frame and has no leading zero unless it is `0`), then `.png` |
| `PngSequenceAnimation.ContainerRendered` | src/components/PngSequenceAnimation.js:84-97 | the element holding the container ref is rendered exactly when the images are loaded |
| `PngSequenceAnimation.ShownImageWasRequested` | src/components/PngSequenceAnimation.js:26-29 | the `<img>` source for the current frame is one of the preloaded requests |
| `PngSequenceAnimation.ContainerPointerTracker.constructor` | src/components/PngSequenceAnimation.js:23 | no handlers, no callback, pointer at the origin |
| `PngSequenceAnimation.ContainerPointerTracker.AttachListeners` | src/components/PngSequenceAnimation.js:53-57 | handlers are registered only if the container exists at that moment |
| `PngSequenceAnimation.ContainerPointerTracker.MouseMove` | src/components/PngSequenceAnimation.js:35-46 | nothing is scheduled without handlers, while `ticking`, or without a container; at most one callback pending |
| `PngSequenceAnimation.ContainerPointerTracker.AnimationFrame` | src/components/PngSequenceAnimation.js:37-43 | the pending callback normalises against the container box read then, and clears `ticking` |
| `PngSequenceAnimation.ContainerPointerTracker.MouseLeave` | src/components/PngSequenceAnimation.js:49-51 | the pointer is at the origin afterwards, with no transform |
| `PngSequenceAnimation.Mount` | src/components/PngSequenceAnimation.js:14-65 | the hook gets multiplier 1 and the container prop; the mount effect runs during loading, so no handler is registered |
| `HomePage.Section` | src/app/page.js:110-115 | the section `k` satisfies `k·h <= scrollTop < (k+1)·h` |
| `HomePage.Scene1Visible` | src/app/page.js:224 | the first sequence is opaque exactly in sections 0 and 1 |
| `HomePage.Scene2Visible` | src/app/page.js:235 | the second sequence is opaque exactly in sections 2 to 4 |
| `HomePage.ScenesExclusive` | src/app/page.js:224-235 | the two sequences are never visible together |
| `HomePage.SectionAtLeast` | src/app/page.js:113 | section ≥ k iff scrollTop ≥ k·h |
| `HomePage.SceneVisibilityByScroll` | src/app/page.js:224-235 | scene 1 shows iff `0 <= scrollTop < 2h`, scene 2 iff `2h <= scrollTop < 5h` |
| `HomePage.NextIndex` | src/app/page.js:122-127 | in range, equal to `(i+1) mod 5` |
| `HomePage.PrevIndex` | src/app/page.js:129-134 | in range, the index whose successor is `i` |
| `HomePage.NextPrevInverse` | src/app/page.js:122-134 | previous after next and next after previous restore the index |
| `HomePage.KeepLast` | src/app/page.js:66 | `slice(-n)` keeps the last `min(|s|, n)` particles, a suffix of the buffer |
| `HomePage.AddParticle` | src/app/page.js:66 | the new buffer is the previous last ≤20 particles in order, then the new one (length ≤ 21) |
| `HomePage.RemoveParticle` | src/app/page.js:69-71 | no particle with the id remains, every other particle stays, nothing new appears |
| `HomePage.RemoveParticleDistributes` | src/app/page.js:69-71 | removal works piecewise, so the kept particles keep their order |
| `HomePage.RemoveAbsentParticle` | src/app/page.js:69-71 | removing an absent id changes nothing |
| `HomePage.AcceptedTimes` | src/app/page.js:83-86 | the throttle keeps a subsequence of the event times: an event is kept when it is more than 50 ms after the last kept one (or `lastTime`) |
| `HomePage.AcceptedTimesSpaced` | src/app/page.js:76-86 | kept times are event times, more than 50 ms apart, the first more than 50 ms after `lastTime` |
| `HomePage.AcceptedTimesSnoc` | src/app/page.js:83-86 | one more event is kept exactly when it is more than 50 ms after the last kept time; earlier decisions stand |
| `HomePage.CentreOffset` | src/app/page.js:94-97 | the carousel parallax input is in [-0.5,0.5] iff the pointer is inside the section box, and maps back to it |
| `HomePage.Home.constructor` | src/app/page.js:8-12 | section 0, image 0, no direction, no particles |
| `HomePage.Home.HandleScroll` | src/app/page.js:110-115 | the current section is the scroll band |
| `HomePage.Home.NextImage` | src/app/page.js:122-127 | direction 1, next index, index stays in range |
| `HomePage.Home.PrevImage` | src/app/page.js:129-134 | direction -1, previous index, index stays in range |
| `HomePage.Home.CreateParticle` | src/app/page.js:48-66 | the buffer becomes `AddParticle` of the old one; it never exceeds 21 |
| `HomePage.Home.ExpireParticle` | src/app/page.js:69-71 | the timeout removes the particles with that id |
| `HomePage.Home.GlobalMouseMove` | src/app/page.js:78-87 | the cursor follows every event; a particle is added and `lastTime` moved only more than 50 ms after `lastTime`; over any run, the spawn times are `AcceptedTimes` of the event times and `lastTime` is the last of them |
| `HomePage.Home.RecordEvent` | src/app/page.js:76-86 | the event history grows by the new time, and the spawn history stays the throttle's acceptances of it |
| `HomePage.Home.ParallaxMove` | src/app/page.js:94-100 | the parallax input is the centre offset in each axis |
| `HomePage.Home.ParallaxLeave` | src/app/page.js:103-106 | mouse leave sets both parallax inputs to 0 |
| `VideoPage.IntToString` | src/app/video/page.js:22-23 | `toString()` of an integer: for a non-negative one the unpadded decimal digits reading back as it; for a negative one `-` then the digits of its magnitude |
| `VideoPage.FrameFile` | src/app/video/page.js:21-25 | the file name starts with `/scene1/ezgif-frame-`, ends with `.png`, with at least three characters between |
| `VideoPage.CurrentFrame` | src/app/video/page.js:21-25 | the call fails exactly when no index is passed, and otherwise names that frame's file |
| `VideoPage.FrameFileDigits` | src/app/video/page.js:21-25 | for frames 1..999 the name has exactly three digits between prefix and `.png`, reading back as the frame |
| `VideoPage.FrameFileInjective` | src/app/video/page.js:21-25 | frames 1..999 have distinct file names |
| `VideoPage.UndefinedIndexThrows` | src/app/video/page.js:29 | `currentFrame()` with no index throws a TypeError |
| `VideoPage.PreloadSources` | src/app/video/page.js:38-43 | exactly the 76 files of frames 1..76, in order |
| `VideoPage.PreloadSourcesDistinct` | src/app/video/page.js:38-43 | no file is requested twice |
| `VideoPage.FrameIndex` | src/app/video/page.js:59-62 | index ≤ 75, ≥ 0 for a non-negative fraction; 75 exactly when fraction·76 ≥ 75; otherwise the 1/76 band of the fraction |
| `VideoPage.FrameIndexMonotone` | src/app/video/page.js:59-62 | the index is monotone in the fraction |
| `VideoPage.ScrollFrame` | src/app/video/page.js:55-63 | for a scrollable page and non-negative offset the drawn frame is in [1,76], 76 at the bottom |
| `VideoPage.ScrolledFrameIsPreloaded` | src/app/video/page.js:38-63 | every frame the scroll handler asks for was preloaded |
| `VideoPage.InitialFrameIsPreloaded` | src/app/video/page.js:28-43 | frame 1's file is among the preloaded |
| `VideoPage.ScrollSequence.constructor` | src/app/video/page.js:5 | nothing mounted: no image, no listener, nothing requested |
| `VideoPage.ScrollSequence.MountAsWritten` | src/app/video/page.js:8-29 | the canvas is sized to the window, then the effect throws before any image, preload or listener |
| `VideoPage.ScrollSequence.Mount` | src/app/video/page.js:8-82 | with frame 1 as initial image: canvas sized, frame 1 shown, all 76 frames requested, listeners attached |
| `VideoPage.ScrollSequence.HandleScroll` | src/app/video/page.js:55-64 | each scroll event appends one update for its frame, whatever is pending |
| `VideoPage.ScrollSequence.RunAnimationFrame` | src/app/video/page.js:46-52 | all pending updates run in order; the image ends on the last one's frame |
| `VideoPage.ScrollSequence.HandleResize` | src/app/video/page.js:67-72 | the canvas follows the window once listeners are attached |

## Findings

| source | as written | input that shows it | evidently intended | confidence | as-written member | corrected member |
|---|---|---|---|---|---|---|
| src/app/video/page.js:29 | `img.src = currentFrame()` passes no index, and `(index).toString()` on `undefined` throws a TypeError; the effect stops there, so no frame is preloaded and no scroll or resize listener is attached | any mount of the `/video` page | show frame 1 first (`currentFrame(1)`), then preload and attach the listeners | not executed; high | `VideoPage.ScrollSequence.MountAsWritten`, `VideoPage.UndefinedIndexThrows` | `VideoPage.ScrollSequence.Mount`, `VideoPage.InitialFrameIsPreloaded` |

## Left out

- Network loads, `requestAnimationFrame`, `setTimeout` (a 100 ms re-measure scheduled on each scroll event and never cleared, the 2 s particle timeout) and `setInterval` (the 800 ms loading text) are not timed: each load outcome is an input, and each callback is a method the caller invokes.
- Promise ordering: on the `catch` path `imagesLoaded` is set at the first rejection while later loads may still add frames; `CanvasScrollHook.CanvasScrollAnimation.Preload` applies every outcome first. A load that never settles (so `useScrollAnimation` never becomes ready) is not modelled.
- Canvas and DOM calls (`getContext`, `drawImage`, `clearRect`, `context.scale`, CSS style strings, the `100lvh` probe element) are not modelled: paints are `Paint` records, the context scale is a field, and the probe's measured height is a parameter.
- IEEE double rounding, NaN and Infinity are not modelled: all arithmetic is on exact reals.
- `Parallax.Normalize`: requires a positive extent; a zero-size window or container, which gives NaN or Infinity in the source, is not modelled.
- `PngSequenceAnimation.NormalizeToRect`: requires a box of positive size, for the same reason.
- `HomePage.Section`: requires a positive window height, for the same reason.
- `VideoPage.ScrollFrame`: requires `scrollHeight - innerHeight > 0`. The page's `min-h-[500vh]` main element (src/app/video/page.js:101) makes that hold. On an unscrollable page the source has no guard: a positive offset over a zero extent gives `Infinity`, clamped to frame 76; offset 0 over a negative extent gives `-0`, frame 1; only 0/0 gives `NaN`. These cases are not modelled.
- `CanvasScrollHook.CanvasPixels`: the contract describes assigned values in [-2^31, 2^32); larger magnitudes are wrapped modulo 2^32 by the body but not described, and `NaN` or infinite sizes (stored as 0) are not modelled.
- `CanvasScrollHook.CanvasScrollAnimation.constructor`: requires `totalFrames >= 1`; every caller passes 140, 180 or the default 148. The same holds for `ScrollHook.ScrollAnimation.constructor` (default 38).
- `PngSequenceAnimation.ContainerPointerTracker.AnimationFrame`: takes the container box as a parameter; the source would throw if the container vanished between the event and the callback.
- Listener removal on unmount and effect re-runs on changed hook arguments are not modelled; the hook arguments are constants of each instance.
- The `/video` page's `if (!canvas) return` guard and the redraw on image load and on resize are not modelled beyond the canvas size and `img.src`.
- framer-motion springs and transforms on the home page, the custom cursor's animation, and each particle's random size, velocity and colour are not modelled; a particle keeps its id and position.
- `console.log` in `getImageSrc` and `console.error` in the preload are not modelled.
- The footer audio, the navbar, `ScrollTriggeredText`, `VideoSequenceAnimation`, `PngSequenceAnimationstatic` and the layout are not part of this model: they are markup, media playback or wrappers over code that is not available.
