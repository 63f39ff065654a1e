# NetworkAnimation particle engine in Dafny

This project models the interactive particle background of a personal web
site, implemented by the TypeScript class `NetworkAnimation`. The engine owns a
store of dots on a canvas-sized surface. On every animation frame each dot
wanders, moves, is cushioned and clamped at the edges, is pulled toward the
pointer and eases its size. Then every pair of nearby dots exchanges a
repulsion impulse, and lines are drawn between close dots. A click pushes
nearby dots away from the pointer. A resize brings the store to the count the
new area calls for. The parameter set is picked once, at construction: a
mobile or desktop profile chosen by the viewport width, with the caller's
top-level override merged over it.

The Dafny modules follow the engine's structure:

- `Basics` (basics.dfy) holds shared numeric helpers and the linear fall-off
  `(radius - dist) / radius` that all three radial forces share.
- `Config` (config.dfy) holds the two profiles and the resolution of the
  parameter set.
- `Particles` (particles.dfy) holds the dot record, the target count and the
  way the store is brought to that count.
- `Input` (input.dfy) holds the pointer tracker.
- `Integrator` (integrator.dfy) holds each step of a frame and the click
  impulse as functions on values. It also holds the pairwise pass as a
  recursion over rows and pairs.
- `Render` (render.dfy) holds the one number the drawing computes, the line
  opacity.
- `Animation` (engine.dfy) holds the class `NetworkAnimation`, which has the
  fields `dots`, `width`, `height` and `mouse`.
  - Its methods change these fields in place; `Resize`, `HandleMouseDown`
    and `Animate` do so with loops over the store, and the pointer handlers
    reassign `mouse`.
  - Each method is proved against the function of the module above that
    specifies it.

The override is merged with a single top-level object spread
(src/utils/NetworkAnimation.ts:86-89). A nested key given in the override
replaces the profile's whole record, and its inner fields do not fall back to
the profile. `Config.Resolve` picks whole records accordingly.

`Math.random()` draws are parameters of type `Unit`, a real in [0, 1).
`Math.sqrt(dx * dx + dy * dy)` is the function parameter `hypot`. Where a
property depends on it, `Basics.IsHypot` states what the engine relies on:
`hypot` is never negative, and it is zero exactly for a zero offset.
Coordinates and velocities are reals.

## Model

| member | source | states |
|---|---|---|
| Config.Profile | src/utils/NetworkAnimation.ts:85-87 | a viewport narrower than 768 px gets the mobile profile, any other the desktop profile |
| Config.Resolve | src/utils/NetworkAnimation.ts:85-89 | for every one of the ten top-level keys, a given key takes the override's value (a nested record whole) and a missing key takes the value of the profile chosen by the viewport; without an override the result is that profile |
| Config.ResolveDensityOnly | src/utils/NetworkAnimation.ts:86-89 | an override of the density alone yields the chosen profile with only its density replaced |
| Config.ResolveComplete | src/utils/NetworkAnimation.ts:86-89 | an override that gives every key yields exactly that parameter set, whatever the viewport |
| Config.ResolveDependsOnlyOnDeviceClass | src/utils/NetworkAnimation.ts:85 | two viewport widths on the same side of the breakpoint resolve to the same parameter set |
| Config.ResolveValid | src/utils/NetworkAnimation.ts:48-89 | both profiles have a positive density and a non-zero edge radius, and so does any override that keeps those two usable |
| Basics.Falloff | src/utils/NetworkAnimation.ts:134 | the shared fall-off lies in [0, 1]; it is 1 exactly at the centre and 0 exactly at the rim |
| Particles.TargetCount | src/utils/NetworkAnimation.ts:144 | the count `n` satisfies `n <= width * height / density < n + 1`, i.e. it is the floor |
| Particles.TargetCountZeroIffNoRoom | src/utils/NetworkAnimation.ts:144 | the count is zero exactly when the area is smaller than the density |
| Particles.TargetCountMonotone | src/utils/NetworkAnimation.ts:144 | a larger area never gives a smaller count |
| Particles.TargetCountDesktopExample | src/utils/NetworkAnimation.ts:144 | an 800 x 600 surface at the desktop density 6000 holds 80 dots |
| Particles.Uniform | src/utils/NetworkAnimation.ts:149-150 | a spawn coordinate lies in [0, extent) on a non-empty axis and is 0 on an empty one |
| Particles.SpawnDot | src/utils/NetworkAnimation.ts:148-155 | a pushed dot lies in [0, width) x [0, height) on a non-empty surface, has each velocity component in [-speed/2, speed/2) for a positive speed, and starts with size and target size equal to the rest size |
| Particles.Spawned | src/utils/NetworkAnimation.ts:147-156 | the push loop creates one dot per draw, in draw order; every new dot starts at rest size, lies in [0, width) x [0, height) on a non-empty surface, and for a positive speed has each velocity component in [-speed/2, speed/2) |
| Particles.Centered | src/utils/NetworkAnimation.ts:151-152 | a centred draw scaled by `s >= 0` lies in [-s/2, s/2], and below s/2 when `s > 0` |
| Particles.Retarget | src/utils/NetworkAnimation.ts:146-159 | the store ends with exactly `n` dots, and every old dot that survives is unchanged at its index |
| Particles.RetargetTruncates | src/utils/NetworkAnimation.ts:157-158 | shrinking or keeping the count leaves exactly the first `n` dots, and an equal count leaves the store as it was |
| Particles.RetargetAppends | src/utils/NetworkAnimation.ts:146-156 | each appended dot comes from its own draws, lies on the surface, has each velocity component in [-speed/2, speed/2], strictly below speed/2 for a positive speed, and has size and target size equal to the rest size |
| Animation.NetworkAnimation.constructor | src/utils/NetworkAnimation.ts:85-96 | the parameter set is resolved once; the engine starts without a pointer, fits the store to the surface and runs the first frame |
| Animation.NetworkAnimation.Resize | src/utils/NetworkAnimation.ts:141-160 | the surface takes the new size, the store equals `Retarget` of the old store at the new count (pushed one dot at a time, or cut), and the count invariant holds |
| Input.Track | src/utils/NetworkAnimation.ts:108-125 | the pointer is absent after an event exactly when the event ends input, or is an empty touch list while the pointer was already absent; an empty touch list leaves the pointer as it was |
| Input.TrackFirstTouchOnly | src/utils/NetworkAnimation.ts:114-119 | touch lists that agree on their first touch move the pointer to the same place |
| Input.TrackForgetsHistory | src/utils/NetworkAnimation.ts:108-125 | every event except an empty touch list gives the same pointer whatever the pointer was before |
| Input.TrackMoveSurfaceLocal | src/utils/NetworkAnimation.ts:108-112 | a mouse move always makes the pointer present, and adding the surface corner back gives the client point |
| Animation.NetworkAnimation.HandleInputMove | src/utils/NetworkAnimation.ts:108-112 | the pointer becomes the surface-local mouse position, as `Track` says; the count invariant `Valid()` is kept |
| Animation.NetworkAnimation.HandleTouch | src/utils/NetworkAnimation.ts:114-120 | the pointer becomes the surface-local position of the first touch; with no touch it is unchanged; the count invariant is kept |
| Animation.NetworkAnimation.HandleInputEnd | src/utils/NetworkAnimation.ts:122-125 | the pointer becomes absent; the count invariant is kept |
| Integrator.ClickImpulse | src/utils/NetworkAnimation.ts:129-137 | a click changes a dot's velocity only; a dot outside distance (0, radius) is unchanged; otherwise each velocity component moves away from the pointer |
| Integrator.ClickImpulseAsWritten | src/utils/NetworkAnimation.ts:133-136 | for a true Euclidean length, the handler as written has no value (NaN in the host) exactly when the dot is under the pointer and the click radius is positive, and agrees with `ClickImpulse` at every non-zero distance |
| Integrator.ClickOnDotIsNaN | src/utils/NetworkAnimation.ts:133-136 | with a positive click radius, the handler as written has no value for a dot under the pointer (NaN in the host), while `ClickImpulse` leaves that dot alone |
| Integrator.ClickAll | src/utils/NetworkAnimation.ts:127-139 | without a pointer nothing changes; no dot moves or resizes and none is added or removed; every dot outside the click range is unchanged |
| Integrator.ClickFarAwayChangesNothing | src/utils/NetworkAnimation.ts:129-138 | a click with no dot within its radius leaves the whole store unchanged |
| Animation.NetworkAnimation.HandleMouseDown | src/utils/NetworkAnimation.ts:127-139 | the loop leaves the store equal to `ClickAll` of the old store, and the count invariant is kept |
| Integrator.WanderStep | src/utils/NetworkAnimation.ts:167-168 | wander changes the velocity only, by at most half the wander strength per axis |
| Integrator.Damp | src/utils/NetworkAnimation.ts:173-174 | friction in [0, 1] never increases a velocity component's magnitude and never flips its sign |
| Integrator.Integrate | src/utils/NetworkAnimation.ts:171-174 | the position advances by the velocity before friction, sizes are unchanged, and friction in [0, 1] does not speed the dot up |
| Integrator.Impulse | src/utils/NetworkAnimation.ts:135-136 | one axis `(delta / dist) * force * strength` of a radial impulse has the sign of `delta` for a positive force and a non-negative strength; the same term serves the pointer (:199-200) and the pairwise force (:241-242) |
| Integrator.EdgePush | src/utils/NetworkAnimation.ts:180-183 | the edge push is non-negative for a non-negative depth and strength and a positive radius |
| Integrator.EdgeRepel | src/utils/NetworkAnimation.ts:177-183 | the edge cushion changes velocity only; it leaves an axis alone when the dot is clear of both margins; near only the low edge it never decreases the velocity, and near only the high edge it never increases it |
| Integrator.Clamp | src/utils/NetworkAnimation.ts:186-189 | afterwards the dot lies on the surface; an axis already within range is untouched; an axis out of range has its velocity reversed and halved |
| Integrator.PulseSize | src/utils/NetworkAnimation.ts:201 | for a force in (0, 1) the pulse size lies strictly between the rest size and 2.5 times it |
| Integrator.Attract | src/utils/NetworkAnimation.ts:192-203 | positions and size are kept; without a pull (no pointer, distance 0, or at least the radius) only the target size is reset; with a pull the target size is pulsed and each velocity component moves toward the pointer |
| Integrator.Ease | src/utils/NetworkAnimation.ts:205 | the gap to the target size shrinks to nine tenths, and the new size lies between the old size and the target |
| Integrator.StepDot | src/utils/NetworkAnimation.ts:165-206 | after steps 1 to 6 the dot lies on the surface, and without a pointer its target size is the rest size |
| Integrator.StepAll | src/utils/NetworkAnimation.ts:165-212 | the per-dot pass keeps the count, puts every dot on the surface, and without a pointer resets every target size |
| Integrator.PairImpulse | src/utils/NetworkAnimation.ts:235-242 | the pair impulse is zero unless the dots are closer than the repulsion radius and not coincident, and it points from `b` to `a` |
| Integrator.ApplyPair | src/utils/NetworkAnimation.ts:239-245 | a pair that is not near leaves the store unchanged |
| Integrator.ApplyPairExchange | src/utils/NetworkAnimation.ts:243-244 | one pair changes velocities only, of those two dots only, and what `a` gains `b` loses |
| Integrator.RepelRow | src/utils/NetworkAnimation.ts:233-245 | a row of pairs keeps the count |
| Integrator.RepelAll | src/utils/NetworkAnimation.ts:215-245 | the pairwise pass keeps the count |
| Integrator.RepelRowSamePlacement | src/utils/NetworkAnimation.ts:233-245 | a row of pairs changes velocities only |
| Integrator.RepelAllSamePlacement | src/utils/NetworkAnimation.ts:215-245 | the pairwise pass changes velocities only |
| Integrator.ApplyPairConservesMomentum | src/utils/NetworkAnimation.ts:243-244 | one pair leaves the sums of all `vx` and of all `vy` unchanged |
| Integrator.RepelRowConservesMomentum | src/utils/NetworkAnimation.ts:233-245 | a row of pairs leaves both velocity sums unchanged |
| Integrator.RepelAllConservesMomentum | src/utils/NetworkAnimation.ts:215-245 | the whole pairwise pass leaves both velocity sums unchanged |
| Integrator.RepelRowIsolated | src/utils/NetworkAnimation.ts:239 | a row whose dots are all out of the first dot's repulsion range changes nothing |
| Integrator.RepelAllIsolated | src/utils/NetworkAnimation.ts:215-245 | when no two dots are near, the pairwise pass changes nothing |
| Integrator.Frame | src/utils/NetworkAnimation.ts:162-257 | after a frame the count is kept, every dot lies on the surface, and without a pointer every target size is the rest size |
| Integrator.FrameMomentum | src/utils/NetworkAnimation.ts:214-257 | the pairwise part of a frame keeps the total velocity of the per-dot part |
| Animation.NetworkAnimation.Animate | src/utils/NetworkAnimation.ts:162-259 | the count invariant is kept and the store becomes `Frame` of the old store: every dot on the surface, target sizes reset without a pointer, and the velocity sums kept by the pairwise pass |
| Animation.NetworkAnimation.MoveDots | src/utils/NetworkAnimation.ts:165-212 | the per-dot loop leaves the store equal to `StepAll` of the old store |
| Animation.NetworkAnimation.RepelPairs | src/utils/NetworkAnimation.ts:215-257 | the outer pairwise loop leaves the store equal to `RepelAll` of the old store |
| Animation.NetworkAnimation.RepelRowOf | src/utils/NetworkAnimation.ts:233-256 | the inner loop for dot `i` leaves the store equal to `RepelRow` of the old store |
| Animation.NetworkAnimation.RepelPair | src/utils/NetworkAnimation.ts:234-245 | one iteration of the inner loop leaves the store equal to `ApplyPair` of the old store |
| Render.LineOpacity | src/utils/NetworkAnimation.ts:247-248 | a line is drawn exactly when the distance is below `maxDistance`; its opacity is in (0, 1] and equals 1 exactly for coincident dots |
| Render.PointerLineOpacity | src/utils/NetworkAnimation.ts:222-224 | a pointer line is drawn under the same condition, at half the opacity of a dot line, so at most 0.5 |
| Render.LineOpacityMonotone | src/utils/NetworkAnimation.ts:247-248 | closer dots never get a fainter line |

## Left out

- Canvas drawing is host rendering and is not modelled: `clearRect`, `arc`, `fill`, `stroke`, and the colour and line-width strings (src/utils/NetworkAnimation.ts:163, :208-211, :224-229, :249-254). Only the drawing condition and the opacity are modelled, in `Render`.
- Host scheduling and event plumbing are not modelled: `requestAnimationFrame`, `cancelAnimationFrame`, `ResizeObserver`, adding and removing the window listeners, and `destroy` (src/utils/NetworkAnimation.ts:91-106, :258, :261-270). Each handler and each frame is one method call.
- Reading the host's geometry is not modelled. `getBoundingClientRect`, `wrapper.clientWidth`, `wrapper.clientHeight` and `window.innerWidth` are plain parameters. The surface size is a `nat`, since `clientWidth` and `clientHeight` are whole pixels.
- `Math.random` is a sequence of `Unit` draws supplied by the caller. `Math.sqrt` is the parameter `hypot`, of which only `IsHypot` is assumed where needed, so no property depends on its exact value.
- IEEE-754 arithmetic is not modelled: numbers are exact reals, with no rounding, no infinities and no NaN. The one NaN the handler can produce is recorded under Findings.
- Animation.NetworkAnimation.constructor: requires a parameter set with a positive density and a non-zero edge radius (`Config.ValidConfig`), because the source divides by both without a guard and the model does not follow it outside that range. `Config.ResolveValid` shows both profiles meet this.
- Animation.NetworkAnimation.Resize: requires `Config.ValidConfig`, because of the division by density at src/utils/NetworkAnimation.ts:144. Outside that range the source behaves in ways the model does not represent. A negative density on a positive area gives a negative count, and `splice` at :158 counts a negative start from the end, so the store keeps `max(|dots| - k, 0)` dots for a count of `-k`. A negative density on a zero area gives `-0`, and `splice(-0)` starts at index 0, so the whole store is dropped. A zero density on a positive area gives `Infinity`, so the push loop at :147 never ends. A zero density on a zero area gives NaN, and `splice(NaN)` empties the store.
- Animation.NetworkAnimation.Animate: requires `Valid()`, which includes `Config.ValidConfig`, because of the division by the edge radius at src/utils/NetworkAnimation.ts:180-183. A zero edge radius makes the cushion's velocity infinite or NaN there.
- Integrator.EdgeRepel: requires a non-zero edge radius, for the same reason.
- Animation.NetworkAnimation.HandleMouseDown: models the corrected handler, which skips a dot exactly under the pointer; the handler as written is `Integrator.ClickImpulseAsWritten`.
- The `Partial<NetworkConfig>` override is modelled as one optional value per top-level key. TypeScript's `Partial` is shallow, so a given nested record is complete.
- Config.PartialConfig: a key present with the value `undefined` is not modelled. `Partial` accepts it and the spread at src/utils/NetworkAnimation.ts:88 copies it over the profile; `{ edgeRepulsion: undefined }`, for instance, makes the first frame that has a dot throw at :177 (a store with no dots never reaches that line inside the loop at :165). In the model `None` stands only for a missing key, which keeps the profile's value.
- Other files of the repository have no engine logic and are not part of this model. They are the contact form handler (src/pages/api/contact.ts, api/contact.js), the build configuration (astro.config.mjs), the type declarations (src/env.d.ts) and the navigation data (src/config/nav.js).

## Findings

| source | as written | input that shows it | evidently intended | confidence | as-written member | corrected member |
|---|---|---|---|---|---|---|
| src/utils/NetworkAnimation.ts:133-136 | a dot inside `click.radius` gets `dx / dist` and `dy / dist` added without a check that `dist > 0` | the pointer exactly on a dot (`dist == 0`) with a positive click radius: `0 / 0` makes that dot's velocity NaN, and the clamp cannot repair NaN | skip coincident dots, as the pointer force (:197) and the pairwise force (:239) do | high; not executed | Integrator.ClickImpulseAsWritten, with Integrator.ClickOnDotIsNaN | Integrator.ClickImpulse |
