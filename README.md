# Arc simulator: the per-frame renderer and its progress clock

This project models the arc-discharge simulator of the physics-demo gallery in Dafny.

- **The renderer** (`src/utils/arcRenderer.ts`) turns a progress value `t` and a chute flag into one frame of drawing.
  - The two contacts part linearly from a 32-pixel to a 160-pixel gap.
  - An arc is shown while `0.08 < t < arcEndTime`, where the end time is 0.8 with chutes and 0.95 without.
  - A free arc is a jagged 13-point centreline with sparks at both contacts.
  - Under magnetic blowout the centreline bows upward and stretches sideways.
  - From `t = 0.4`, a blown-out arc is captured and drawn as one 11-point arc into each of the eight chute slots.
  - Every arc path is stroked three times: outer glow, body, hot core.
- **The progress clock** (`src/hooks/useAnimation.ts`) advances `progress` by `speed` on every animation frame and wraps it to 0 on reaching 1. `reset` stops the clock at 0, and `toggle` pauses or resumes it.

Files:

- `host.dfy` (module `Host`) holds what the renderer takes from its JavaScript host.
  - `Math.PI` is a constant.
  - `Math.sin` and `Math.cos` are a `Trig` value supplied by the caller. Only the facts in `Lawful` and `Circular` are assumed about them.
  - `Math.random()` is the `MathRandom` class: an endless stream of draws, of which `used` have been consumed.
- `canvas.dfy` (module `Canvas2D`) models the part of the 2D drawing context the renderer uses, as a `Context` class.
  - Its drawing-state fields are the line width, the stroke and fill paints, the current path and the save stack.
  - Every call that puts pixels on the surface appends one command to `trace`.
- `arc_geometry.dfy` (module `ArcGeometry`) covers the geometry: contacts, visibility and mode, the arc centreline, chute centres and chute arcs.
  - Each array the source builds in a loop is built by a method with the same loop (`GenerateArcPath`, `GetChuteCenters`, `GenerateChuteArc`).
  - Each of those methods is proved equal to a specification function, and the properties are lemmas about those functions.
- `arc_renderer.dfy` (module `ArcRenderer`) holds the drawing routines as methods on a `Context`.
  - Each routine is proved to append exactly what a specification function says (`GlowLayers`, `Sparks`, `CaptureCmds`, `ArcCmds`, `FrameCmds`).
  - Each routine consumes exactly as many `Math.random()` draws as the source does, in the same order.
- `arc_frame.dfy` (module `ArcFrame`) states what a whole frame paints.
  - It gives the order of the parts and when the arc shows.
  - It gives where the free arc and its sparks lie, and where each captured arc starts and ends.
- `animation.dfy` (module `Animation`) holds the clock.
  - The tick updater is the function `Tick`.
  - The hook's state is the `AnimationClock` class, with methods `Frame`, `Reset` and `Toggle`.

Three facts about the code that the model makes explicit:

- **Progress only loops.** The clock's clamp to 1 runs after every value from 1 up has already been wrapped to 0, so it can never apply (`Animation.Tick`).
- **One flag drives both blowout and capture.** `renderArc` passes its single `arcChutes` flag on as the `magnetic` argument. So a blown-out arc occurs exactly when the chutes are on and `0.08 < t < 0.4`, and a captured arc exactly when the chutes are on and `0.4 <= t < 0.8` (`ArcGeometry.Mode`).
- **A cycle at the default speed is 125 frames.** Progress climbs to 0.992 in 124 frames, and the 125th tick reaches 1 and is wrapped to 0 (`Animation.DefaultCycle`).

## Model

| member | source | states |
|---|---|---|
| ArcGeometry.ContactsAt | src/utils/arcRenderer.ts:22-26 | the contacts are symmetric about w/2, `rightX - leftX == 32 + 128 t`, and both sit at height h/2 |
| ArcGeometry.ContactsOpen | src/utils/arcRenderer.ts:25-26 | for every `t >= 0` the left contact lies strictly left of the right one |
| ArcGeometry.GapWidens | src/utils/arcRenderer.ts:22-26 | as progress grows each contact moves outward; the gap is 32 at t = 0 and 160 at t = 1 |
| ArcGeometry.Mode | src/utils/arcRenderer.ts:33-35 | the frame's arc form, with each form as an if-and-only-if on (t, flag): an arc iff `0.08 < t < (0.8 with chutes, else 0.95)`; free iff no chutes; blown out iff chutes and `t < 0.4`; captured iff chutes and `0.4 <= t < 0.8` |
| ArcGeometry.GenerateArcPath | src/utils/arcRenderer.ts:118-147 | the loop returns 13 points, point i being the bowed centreline at i/12 plus its zigzag and flutter (equal to `ArcPath`) |
| ArcGeometry.ArcPathEndpoints | src/utils/arcRenderer.ts:124-144 | with sin(0) = sin(pi) = 0, the first point's x is exactly leftX and the last point's x exactly rightX, and both lie within 8 pixels of the contact height |
| ArcGeometry.ArcPathNoiseBound | src/utils/arcRenderer.ts:137-144 | with draws in [0, 1), noise moves each point at most 10 pixels sideways and 8 pixels vertically from the noise-free centreline |
| ArcGeometry.BowGrows | src/utils/arcRenderer.ts:124-135 | without deflection, wherever sin(pi p) > 0, a later t bows the centreline strictly higher and leaves its x unchanged |
| ArcGeometry.PullGrows | src/utils/arcRenderer.ts:128-132 | under blowout, wherever sin(pi p) > 0, a later t pulls the centreline no less sideways and bows it no less high, strictly so while t <= 0.8 (the pull saturates at 2) |
| ArcGeometry.ZigzagBound | src/utils/arcRenderer.ts:138 | the zigzag of one draw is at most 10 pixels |
| ArcGeometry.FlutterBound | src/utils/arcRenderer.ts:139 | the flutter is at most 8 pixels |
| ArcGeometry.GetChuteCenters | src/utils/arcRenderer.ts:80-98 | the loop returns `count` centres (none for `count <= 0`), centre i being slot i's centre (equal to `ChuteCenters`) |
| ArcGeometry.ChuteCentersLayout | src/utils/arcRenderer.ts:88-97 | one centre per slot; every y is `baseY + height/2`; consecutive x differ by `width + spacing`; `c[i].x + c[count-1-i].x == 2 baseX` |
| ArcGeometry.ChuteCentersMirror | src/utils/arcRenderer.ts:89-93 | slot i and slot count-1-i are mirror images about baseX |
| ArcGeometry.ChuteCenterInRect | src/utils/arcRenderer.ts:67-93 | centre i is the horizontal midpoint of rectangle i drawn by drawArcChutes, at half the slot height |
| ArcGeometry.GenerateChuteArc | src/utils/arcRenderer.ts:149-167 | the loop returns 11 points, point i being the arched, rippled, jittered interpolation at i/10 (equal to `ChuteArc`) |
| ArcGeometry.ChuteArcEnds | src/utils/arcRenderer.ts:158-165 | the last point is exactly (endX, endY); the first lies within 3 pixels sideways and 10 vertically of (startX, startY) |
| ArcRenderer.SparkShape | src/utils/arcRenderer.ts:230-240 | with draws in [0, 1) and sin² + cos² = 1, a spark is a segment from (x, y) of length in [5, 20), width in [1, 3), red 255, green in [200, 255), blue in [100, 200), opacity in [0.6, 1) |
| ArcRenderer.FreeIntensity | src/utils/arcRenderer.ts:181 | a free arc has full intensity; a blown-out one stays within [0.3, 1] |
| ArcRenderer.CaptureIntensity | src/utils/arcRenderer.ts:201 | a captured arc starts at full intensity at t = 0.4 and stays within [0.3, 1] |
| ArcRenderer.CaptureCmds | src/utils/arcRenderer.ts:202-208 | k slots paint exactly 3k commands |
| ArcRenderer.CaptureCmdsSlots | src/utils/arcRenderer.ts:202-208 | slot j's three layers sit at positions 3j to 3j+2, in slot order, along the arc into slot j |
| ArcRenderer.DrawContacts | src/utils/arcRenderer.ts:100-116 | appends the left then the right contact, each a 12-pixel vertical stroke of length contactLength centred on y, and leaves the contact style set |
| ArcRenderer.DrawArcChutes | src/utils/arcRenderer.ts:55-78 | appends one filled rectangle per slot, left to right, and restores the drawing state it saved |
| ArcRenderer.DrawArcLayer | src/utils/arcRenderer.ts:213-226 | appends one stroke through all the points in index order, with the given width and paint |
| ArcRenderer.DrawGlowLayers | src/utils/arcRenderer.ts:183-185 | appends the 16, 8 and 3 pixel layers of one path, in that order, and leaves the core's 3-pixel width, white paint and the path set |
| ArcRenderer.DrawSpark | src/utils/arcRenderer.ts:230-240 | takes exactly six draws and appends the spark those draws determine |
| ArcRenderer.StrokeSpark | src/utils/arcRenderer.ts:235-240 | sets the spark's paint and width and appends its two-point stroke |
| ArcRenderer.DrawSparks | src/utils/arcRenderer.ts:228-242 | takes exactly 60 draws and appends ten sparks, spark j from draws 6j to 6j+5; the last spark's segment, width and paint stay set |
| ArcRenderer.DrawSparkBursts | src/utils/arcRenderer.ts:186-187 | appends the left contact's burst and then the right one's, from consecutive draws; the right burst's last spark stays set |
| ArcRenderer.DrawFreeArc | src/utils/arcRenderer.ts:179-189 | takes 133 draws and appends the three layers of the 13-point centreline, then both bursts (`FreeArcCmds`); the right burst's last spark stays set |
| ArcRenderer.DrawSlotArc | src/utils/arcRenderer.ts:203-207 | takes eleven draws and appends the three layers of the arc into slot idx from the contact that feeds it; that arc's core stroke stays set |
| ArcRenderer.DrawCapturedArc | src/utils/arcRenderer.ts:192-208 | takes 88 draws and appends the layers of all eight slot arcs in slot order (`CaptureCmds`); the core stroke of the last slot's arc stays set |
| ArcRenderer.DrawElectricalArc | src/utils/arcRenderer.ts:169-211 | takes the free branch iff `!magnetic || t < 0.4`; appends `ArcCmds`; leaves the drawing state and save stack as it found them, and the current path at the last stroke's (`ArcLastPath`) |
| ArcRenderer.RenderArc | src/utils/arcRenderer.ts:15-53 | appends exactly `FrameCmds` and consumes exactly `FrameDraws` draws; leaves the contact style set and the path of the arc's last stroke, or of the right contact without an arc (`FramePath`) |
| ArcFrame.FrameLayout | src/utils/arcRenderer.ts:15-53 | a frame is the clear of the whole w by h canvas, the left then the right contact, the arc's commands, and, only with chutes, the eight rectangles last; its length follows the mode |
| ArcFrame.ArcCmdCountByMode | src/utils/arcRenderer.ts:33-36 | the arc's form decides its command count: 0 without an arc, 24 captured, 23 free or blown out |
| ArcFrame.ArcCmdsLength | src/utils/arcRenderer.ts:177-210 | a visible arc paints 24 commands when captured and 23 otherwise |
| ArcFrame.GlowIffVisible | src/utils/arcRenderer.ts:33-36 | a frame holds a 16-pixel stroke if and only if `0.08 < t < arcEndTime` |
| ArcFrame.FreeArcGlow | src/utils/arcRenderer.ts:180-185 | a free arc paints 23 commands, the glow layers of its centreline first |
| ArcFrame.FreeArcSparks | src/utils/arcRenderer.ts:186-187 | after the glow, spark j of the left burst and spark j of the right burst, from the draws after the centreline's |
| ArcFrame.FreeArcFrame | src/utils/arcRenderer.ts:179-185 | in a free or blown-out frame, commands 3 to 5 are the glow layers of a centreline starting at leftX and ending at rightX |
| ArcFrame.FreeArcFrameSparks | src/utils/arcRenderer.ts:186-187 | in that frame, commands 6 to 15 are the left contact's sparks and 16 to 25 the right contact's |
| ArcFrame.CapturedArcFrame | src/utils/arcRenderer.ts:192-208 | a captured frame has 35 commands; slot j's layers sit at 3 + 3j, along an arc ending exactly at slot j's centre and starting at the left contact for j < 4, the right one otherwise; then the eight chute rectangles at 27 to 34, after the clear and the two contacts, so no sparks |
| Animation.Tick | src/hooks/useAnimation.ts:12-18 | from `prev >= 0` with `speed >= 0`, progress stays in [0, 1); below 1 it advances by exactly speed; on reaching 1 it wraps to exactly 0 |
| Animation.TickIncreases | src/hooks/useAnimation.ts:13-17 | before it wraps, a tick with positive speed strictly increases progress |
| Animation.TicksInRange | src/hooks/useAnimation.ts:11-20 | from anywhere in [0, 1), progress stays in [0, 1) for any number of frames |
| Animation.TicksFromZero | src/hooks/useAnimation.ts:12-17 | from 0, while `n speed < 1`, n ticks give exactly `n speed`, each tick strictly larger than the last |
| Animation.DefaultCycle | src/hooks/useAnimation.ts:3-17 | at speed 0.008, progress is 0.992 after 124 frames and back to 0 on the 125th; `Tick(0.995)` wraps to 0 |
| Animation.AnimationClock.constructor | src/hooks/useAnimation.ts:3-5 | the initial state is running at progress 0, with speed 0.008 unless given |
| Animation.AnimationClock.Frame | src/hooks/useAnimation.ts:7-23 | a running clock ticks, a paused one does not; running is unchanged; progress stays in [0, 1) |
| Animation.AnimationClock.Reset | src/hooks/useAnimation.ts:25-28 | progress becomes 0 and the clock stops |
| Animation.AnimationClock.Toggle | src/hooks/useAnimation.ts:30 | running flips and progress is unchanged |

## Left out

- Canvas styling is not modelled: `lineCap`, `shadowColor`, `shadowBlur` and `globalCompositeOperation`. Paints are kept in the trace as `Hex`/`Rgba` values instead of formatted strings.
- `drawLabels` is not modelled, because `renderArc` never calls it. The unused `_canvas` parameter is dropped.
- `Date.now()` is one `now` parameter per frame. The source reads the clock once per centreline point, and those reads may differ by a millisecond within one frame.
- Numbers are exact reals.
  - IEEE-754 rounding is not modelled, so `DefaultCycle` states the exact-arithmetic cycle.
  - `Math.sin` and `Math.cos` are uninterpreted; the lemmas assume only `Lawful` (sin 0 = sin pi = 0, both in [-1, 1]) and, for spark length, `Circular`.
- `Math.random()` is a caller-supplied stream of draws, and the lemmas about bounds assume every draw is in [0, 1). The generators take their draws as a `noise` sequence read from the stream just before the loop. No other call draws in between, so the values are the same as the source's in-loop calls.
- Browser scheduling is left to the caller, who calls `Frame` once per callback. This covers `requestAnimationFrame`, `cancelAnimationFrame`, the React state setters and the effect that restarts when `running` or `speed` changes.
- Acquiring the drawing context (`src/hooks/useCanvas.ts`) is not part of this model. Every routine takes a live `Context`.
- The canvas path model keeps one subpath per `beginPath`, which is all the renderer builds. Further subpaths opened by `moveTo` are not modelled.
- ArcRenderer.DrawArcLayer requires at least one point. On an empty array the source would fail reading `points[0]`. Every caller passes 13 or 11 points.
- ArcRenderer.DrawSpark takes all six draws before setting the stroke paint. The source sets the paint before the sixth draw. The results are equal, since nothing reads the context in between.
- ArcRenderer.DrawGlowLayers, DrawSparkBursts, DrawFreeArc, DrawSlotArc and DrawCapturedArc are the parts of `drawElectricalArc`'s body, split into methods of their own; DrawNextSpark is one pass of `drawSparks`' loop.
- Animation.AnimationClock.constructor accepts any speed, as the hook does. The range invariant `Valid` is stated only for a speed that is not negative.
