# Hand-gesture particle system, modelled in Dafny

The application renders 3000 particles that a webcam-tracked hand steers. It has
four parts, and the model covers each of them:

- **Shape generator** (`generateTemplatePositions`). It turns one of eight templates into a list
  of target points: heart, flower, saturn, firework, spiral, sphere, star and butterfly.
- **Gesture classifier** (the hand-tracking results callback). It turns the 21 landmarks of a hand
  into three things: a label (open, fist, pinch or peace), a spread factor and a palm position.
- **Frame integrator** (`animate`). Every frame it advances the clock and kicks each particle by the
  current explosion. It then pulls the particle towards its spread- and palm-shifted target with a
  damped spring, moves it, sets its pulsing size, decays the explosion and recolours the particles
  from the active palette.
- **Controls.** A template change, the keys 1 to 8 (through JavaScript's `parseInt`), the `c` key,
  which cycles the six palettes, and the space bar, which sets off an explosion.

The modules follow that structure:

| module | file | contents |
|---|---|---|
| `Basics` | `basics.dfy` | `Option`, vectors, `Math.pow` by repeated multiplication, the `Math` record |
| `Templates` | `templates.dfy` | the eight templates as point functions and as the generator's loops |
| `Gestures` | `gestures.dfy` | landmarks, the classifier and the results callback |
| `Palettes` | `palettes.dfy` | palettes, the `c` cycle and the colour-segment index arithmetic |
| `Particles` | `particles.dfy` | one particle's frame step, the explosion decay and the initial particle state |
| `Keys` | `keys.dfy` | `parseInt` and the key-to-template mapping |
| `Engine` | `engine.dfy` | the `ParticleSystem` class: buffers as arrays, and every event that changes them |

Three kinds of value are passed in as parameters rather than computed:

- **Transcendental functions.** `Math.sin`, `cos`, `sqrt`, `exp` and `acos` are fields of a `Math`
  record. The laws a proof needs are separate predicates, stated as preconditions of the lemmas that
  use them: `|sin| <= 1`, `sin² + cos² = 1`, and that `sqrt` is the non-negative root.
- **`Math.random()`.** It becomes a function `rnd: nat -> real` from draw number to value:
  - a template uses draw `i` for point `i`; the saturn ring uses draws `2i` and `2i + 1`;
  - the explosion kick of particle `j` uses draws `3j` to `3j + 2`;
  - the initial state of particle `j` uses draws `7j` to `7j + 6`.

  `UnitDraws(rnd)` states that every draw lies in `[0, 1)`.
- **Numbers.** They are exact reals; there is no floating-point rounding.

Behaviour of the code worth noting:

- **Label precedence.** The classifier starts from open. The fist test, then the pinch test, then
  the peace test each overwrite the label. So peace beats pinch, and pinch beats fist
  (`Gestures.Classify`).
- **Initial label.** Before any hand is seen, the label is `none`, which the model calls
  `NoGesture`.
- **Template change.** It sets the explosion to exactly 0.5, not to "at least 0.5". This holds even
  when a stronger explosion is running.
- **Clock.** The clock advances by 0.016 on every frame, including frames that return early before
  the particles exist.
- **Particles without a target.** A particle with no entry in the target list is skipped by the
  frame loop. The random fallback point exists only when the particles are first created.
- **Pinch size.** While pinching, the size amplitude 0.15 exceeds the base size 0.08, so a point
  size can reach −0.07 (`Particles.PinchSizeGoesNegative`). This is the code as written. The shader
  receives that value.

## Model

| member | source | states |
|---|---|---|
| `Basics.PowTwo` | app/page.tsx:503-506 | `Math.pow(d, 2)` is `d·d`, and never negative |
| `Templates.RingCount` | app/page.tsx:43-44 | the saturn ring gets `⌊0.6·count⌋ = ⌊3·count/5⌋` points, never more than `count`, so the sphere part gets the remaining `count − ring ≥ 0` |
| `Templates.GenerateTemplatePositions` | app/page.tsx:17-126 | the list has exactly `count` entries, and entry `i` is point `i` of the chosen template; the list is index-aligned with the particles |
| `Templates.HeartPositions` | app/page.tsx:21-29 | the heart loop pushes `count` points; point `i` is the heart curve at `t = 2π·i/count` with depth from draw `i` |
| `Templates.FlowerPositions` | app/page.tsx:31-40 | the flower loop pushes `count` points of the rose curve `r = 2 + cos 5t`, `t = 12π·i/count` |
| `Templates.SaturnPositions` | app/page.tsx:42-65 | the ring loop and then the sphere loop together push `count` points: ring points first, sphere points after them |
| `Templates.SaturnRing` | app/page.tsx:47-54 | the ring loop pushes `⌊0.6·count⌋` points; point `i` is at angle `2π·i/ring`, radius from draw `2i` and height from draw `2i + 1` |
| `Templates.SaturnPlanet` | app/page.tsx:56-64 | the sphere loop pushes the remaining points as golden-angle points of radius 1.5 |
| `Templates.FireworkPositions` | app/page.tsx:67-77 | the firework loop pushes `count` golden-angle sphere points, each at radius `2 + 2·draw i` |
| `Templates.SpiralPositions` | app/page.tsx:79-88 | the spiral loop pushes `count` points of the helix of parameter `t = 8π·i/count` |
| `Templates.SpherePositions` | app/page.tsx:90-100 | the sphere loop pushes `count` golden-angle points of radius 2.5 |
| `Templates.StarPositions` | app/page.tsx:102-111 | the star loop pushes `count` points of the five-fold curve of alternating radius |
| `Templates.ButterflyPositions` | app/page.tsx:113-122 | the butterfly loop pushes `count` points of the butterfly curve scaled by 1.2 |
| `Templates.FibonacciPointOnSphere` | app/page.tsx:57-63 | every golden-angle point `(r cosθ sinφ, r sinθ sinφ, r cosφ)` is at distance exactly `r` from the origin |
| `Templates.SphereRadius` | app/page.tsx:90-100 | every point of the sphere template has squared norm 6.25 (radius 2.5) |
| `Templates.FireworkRadius` | app/page.tsx:67-77 | every firework point lies in the shell of radius `[2, 4)` |
| `Templates.RingPointInBand` | app/page.tsx:47-54 | a ring point has horizontal radius in `[2.75, 3.25)` and height in `[-0.1, 0.1)` |
| `Templates.SaturnRingFirst` | app/page.tsx:42-54 | the first `RingCount(count)` saturn points all lie in the ring band |
| `Templates.SaturnSphereAfter` | app/page.tsx:56-64 | every saturn point after the ring lies on the planet sphere of radius 1.5 |
| `Templates.StarAlternatingRadius` | app/page.tsx:102-110 | star points alternate between radius 3 at even indices and radius 1.5 at odd ones, in the xy-plane |
| `Templates.SpiralPointShape` | app/page.tsx:79-87 | a spiral point of parameter `t` is at height `0.2t − 3` and horizontal radius `0.15t` |
| `Templates.SpiralGrows` | app/page.tsx:79-87 | along the list, the spiral rises strictly and widens strictly |
| `Templates.TemplatePoint` | app/page.tsx:20-123 | the point formula of each template branch, with its draw indices; for unit draws the random depth stays within `[-0.75, 0.75)` for heart and butterfly and within `[-1, 1)` for flower and star |
| `Gestures.Classify` | app/page.tsx:508-538 | the decision table of the overwrite order: peace iff the peace test holds; pinch iff pinched and not peace; fist iff closed, not pinched and not peace; open otherwise; never `none` |
| `Gestures.PalmCenter` | app/page.tsx:495-497 | the palm position is the midpoint of the wrist and the middle-finger base |
| `Gestures.OnResults` | app/page.tsx:491-555 | with a hand: detecting, the palm of the first hand, its label, and spread 0.3 for a fist or `1 + 5·spread` otherwise; with no hand: the label and spread are kept, the hand position is cleared and detection is off |
| `Gestures.FingersClosedPairwise` | app/page.tsx:511-514 | the `every` over the tip and PIP lists is exactly "each of the four tips is below its joint" |
| `Gestures.FistExcludesPeace` | app/page.tsx:511-538 | a closed hand never shows the peace sign |
| `Gestures.FistIffClosedAndNotPinched` | app/page.tsx:508-538 | the label is fist iff the fist test holds and the pinch test does not |
| `Gestures.PinchBySquaredDistance` | app/page.tsx:520-528 | with a true square root, the pinch test is `dx² + dy² < 0.0064` |
| `Gestures.SpreadMarksFist` | app/page.tsx:540-548 | with a hand, the stored spread is 0.3 iff the label is fist; otherwise it is at least 1 |
| `Palettes.PaletteColors` | app/page.tsx:129-136 | rainbow has six anchors and the other palettes four, all 24-bit colours |
| `Palettes.PaletteIndex` | app/page.tsx:587-590 | `palettes.indexOf(p)` is the position of `p` in the palette order |
| `Palettes.NextPalette` | app/page.tsx:588-593 | `c` moves the palette index to `(index + 1) mod 6` |
| `Palettes.PaletteAfterIndex` | app/page.tsx:588-593 | `k` presses of `c` advance the index by `k` mod 6 |
| `Palettes.PaletteCycle` | app/page.tsx:588-593 | one to five presses of `c` reach a different palette, and six presses come back |
| `Palettes.JsRem` | app/page.tsx:342-343 | JavaScript's `%` on integers: the remainder is smaller than the divisor in size, takes the sign of the dividend, differs from the dividend by a multiple of the divisor, and equals Dafny's `%` on non-negative dividends |
| `Palettes.JsRemOne` | app/page.tsx:344 | JavaScript's `x % 1`: `x` minus a whole number, in `[0, 1)` for `x ≥ 0` and in `(−1, 0]` for `x ≤ 0` |
| `Palettes.ColorSegment` | app/page.tsx:342-344 | for any time, both anchor indices lie strictly between `−len` and `len`; the first is congruent to the floor of the palette position, the second to the first plus one; the weight is the position minus a whole number, in `(−1, 1)` |
| `Palettes.ColorSegmentInRange` | app/page.tsx:341-344 | for non-negative time both anchor indices are valid, the next anchor is the following one cyclically, and the weight is the fractional part of the position, in `[0, 1)` |
| `Palettes.ColorSegmentPeriodic` | app/page.tsx:341-344 | the colour band repeats every 10 seconds of animation time |
| `Palettes.SegmentsChain` | app/page.tsx:341-344 | when the palette position crosses a whole unit, the new segment starts from the anchor the old one was fading to |
| `Palettes.PaletteBlend` | app/page.tsx:341-348 | a particle's colour blends the palette's anchors at the two segment indices, with weight in `[0, 1)` |
| `Particles.Noise` | app/page.tsx:411-412 | the organic noise `0.02·sin(2t + 0.1i)` stays within `[−0.02, 0.02]` |
| `Particles.Goal` | app/page.tsx:388-401 | the goal's Z is the spread target's Z, whatever the palm; with no palm, or a palm at the frame centre, the goal is the target scaled by the spread |
| `Particles.HandOffset` | app/page.tsx:394-401 | the palm offset never touches Z; it is zero with no hand and for a palm at the frame centre |
| `Particles.HandOffsetTranslates` | app/page.tsx:398-401 | moving the palm by `(dx, dy)` moves the offset by `(6dx, −6dy, 0)`, mirrored vertically |
| `Particles.GoalFollowsHand` | app/page.tsx:388-401 | moving the palm by `(dx, dy)` moves every particle's goal by `(6dx, −6dy, 0)`, so the shape follows the hand |
| `Particles.ExplosionKick` | app/page.tsx:403-409 | no explosion, no impulse; otherwise each axis gets `(draw − 0.5)` times half the strength |
| `Particles.KickProportional` | app/page.tsx:403-409 | the impulse scales linearly with the explosion strength |
| `Particles.ExplosionImpulseBounded` | app/page.tsx:403-409 | for draws in `[0, 1)`, each axis of the impulse lies in `[−e/4, e/4)` |
| `Particles.PointSize` | app/page.tsx:436-439 | the size stays in `[0.03, 0.13]` when not pinching and in `[−0.07, 0.23]` when pinching |
| `Particles.PinchSizeGoesNegative` | app/page.tsx:436-439 | at the trough of the sine, the pinch size is −0.07 and the normal size 0.03 |
| `Particles.StepParticle` | app/page.tsx:384-439 | the new position is the old position plus the new velocity; the size is the gesture's pulsing size |
| `Particles.FrameParticle` | app/page.tsx:380-382 | a particle without a target is left exactly as it was |
| `Particles.VelocityUpdate` | app/page.tsx:403-425 | per axis, `v' = 0.92·(v + kick + 0.03·(spread·target + offset − p) + noise)`, with no noise and no offset on Z |
| `Particles.ZAxisIgnoresHandAndNoise` | app/page.tsx:418-420 | Z motion does not depend on the palm or on the time-driven noise |
| `Particles.ExplosionSuperposes` | app/page.tsx:403-434 | with a kick, the velocity and position are those of the quiet step plus the damped kick; the size is unaffected |
| `Particles.RestingParticleStays` | app/page.tsx:411-434 | a particle at rest on its goal, with no explosion and zero noise, stays put with zero velocity |
| `Particles.SpringEnergyPositive` | app/page.tsx:414-425 | the energy `V = 0.0276e² + 0.0524ev + 0.92v²` is non-negative and bounds both the squared velocity and the squared displacement |
| `Particles.ZEnergyContracts` | app/page.tsx:414-430 | with no explosion, one frame multiplies the Z energy by exactly 0.92, so the spring settles |
| `Particles.DecayExplosion` | app/page.tsx:445-447 | the explosion becomes `0.95e` unless that is below 0.01, when it snaps to 0; it never grows, and it is either 0 or at least 0.01 |
| `Particles.DecayedBound` | app/page.tsx:445-447 | after `k` frames the explosion is at most `e·0.95^k` |
| `Particles.DecayedExact` | app/page.tsx:445-447 | while `e·0.95^k` is at least 0.01, the explosion after `k` frames is exactly `e·0.95^k` |
| `Particles.DecayedByBlocks` | app/page.tsx:445-447 | every 10 frames the explosion falls below six tenths of its value |
| `Particles.ExplosionFadesOut` | app/page.tsx:445-447 | any explosion up to 1 (the space bar's or a template change's) is exactly 0 after 100 frames |
| `Particles.FallbackPoint` | app/page.tsx:234-238 | for unit draws, the fallback point lies in `[−5, 5)³` |
| `Particles.InitialParticle` | app/page.tsx:233-256 | a particle starts on its target, or on the fallback when it has none; its size is in `[0.05, 0.15)` and its velocity in `[−0.005, 0.005)³` |
| `Particles.FallbackInCube` | app/page.tsx:234-238 | a particle without a template entry starts inside `[−5, 5)³` |
| `Keys.KeyNumber` | app/page.tsx:581 | each template's key number is its position in the key list, counted from 1, so it lies in 1 to 8 |
| `Keys.SelectTemplate` | app/page.tsx:583-585 | a number selects template `t` exactly when it is `t`'s key number: selection is the inverse of `KeyNumber` |
| `Keys.ParseInt` | app/page.tsx:582 | `parseInt` without a radix: a number comes out only if the key contains a decimal digit, and a negative one only if it contains a minus sign |
| `Keys.DigitTemplate` | app/page.tsx:581-585 | a key selects template `t` exactly when `parseInt` of the key is `t`'s key number |
| `Keys.ParseDigitKey` | app/page.tsx:582 | `parseInt` of a single digit key is that digit |
| `Keys.ParseDigitThenText` | app/page.tsx:582 | `parseInt` stops at the first non-digit: a digit followed by text parses to the digit |
| `Keys.DigitKeysSelectTemplates` | app/page.tsx:581-585 | the keys 1 to 8 select heart, flower, saturn, firework, spiral, sphere, star and butterfly, in that order |
| `Keys.OtherDigitsSelectNothing` | app/page.tsx:583-585 | the keys 0 and 9 select no template |
| `Keys.ControlKeysAreNotNumbers` | app/page.tsx:582-598 | `c` and the space bar parse to `NaN`, so they never select a template |
| `Keys.EveryTemplateHasOneKey` | app/page.tsx:581 | every template is bound to a key, and no two keys share one |
| `Engine.ParticleSystem.constructor` | app/page.tsx:142-162 | the initial state: sphere template, rainbow palette, label `none` with no hand, spread 1 and no detection, no explosion, clock at 0, particles not yet created |
| `Engine.ParticleSystem.InitParticles` | app/page.tsx:221-258 | the targets become the sphere, and every particle gets its initial state; the invariant holds and the particles exist afterwards |
| `Engine.ParticleSystem.UpdateColors` | app/page.tsx:335-356 | every particle's colour becomes its palette blend at the given time |
| `Engine.ParticleSystem.Animate` | app/page.tsx:368-450 | the clock advances by 0.016 even before the particles exist (and then nothing else changes); otherwise every particle becomes `FrameParticle` of its old state, the explosion decays and every colour becomes its palette blend at the new time; the invariant is kept |
| `Engine.ParticleSystem.ChangeTemplate` | app/page.tsx:359-365 | the template is set; the targets become its `ParticleCount` points; the explosion is exactly 0.5; nothing else changes |
| `Engine.ParticleSystem.HandleKey` | app/page.tsx:579-599 | `parseInt` 1 to 8 switches to template `n` with new targets and an explosion of 0.5; `c` moves to the next palette; the space bar sets the explosion to 1; anything else changes nothing |
| `Engine.ParticleSystem.ReceiveLandmarks` | app/page.tsx:543-554 | the gesture state becomes `OnResults` of the hands; nothing else changes |
| `Engine.KeyBranchesExclusive` | app/page.tsx:580-598 | the `c` and space branches never coincide with a template change |
| `Engine.NoParticleSkippedWhenReady` | app/page.tsx:380-382 | once every particle has a target, each particle takes the full step and moves by its new velocity |

In more detail, `Engine.ParticleSystem.Animate` states one frame:

- the clock advances by 0.016 first, even before the particles exist, and the frame changes nothing
  else until they do;
- every particle becomes `FrameParticle` of its old state;
- the explosion decays;
- every colour becomes the palette blend at the new time;
- the invariant is kept (clock at or above 0, explosion 0 or in `[0.01, 1]`, one target per
  particle).

and `Engine.ParticleSystem.HandleKey` states one key press:

- `parseInt` 1 to 8 switches to template `n` and gives it new targets, with an explosion of 0.5;
- `c` moves to the next palette;
- the space bar sets the explosion to 1;
- anything else changes nothing.

## Left out

- Rendering is not modelled: the Three.js scene, camera, renderer, shaders, the point texture, the
  scene rotation, the shader `time` uniform and the loading overlay.
- Camera capture and MediaPipe inference are not modelled. The callback receives the detected hands
  as a list, and an absent landmark list and an empty one are both the empty list.
- `requestAnimationFrame` scheduling and React plumbing are not modelled. That includes the state
  setters, the `gestureRef` copy (which lags the state by one render) and the re-registration of the
  key listener. The model applies each event to the state directly.
- Re-initialisation on palette change is not modelled. In the source, `animate` depends on
  `currentPalette`, so a palette change re-runs the initialisation effect. That re-creates the scene
  and resets the targets to the sphere. `HandleKey` only changes the palette.
- Colours are not modelled as RGB values. `THREE.Color` hex decoding, `lerp` and the initial HSL
  colours of `initParticles` are left out. A colour is modelled as its two anchors and the blend
  weight (`Palettes.Blend`), and `InitParticles` leaves the colour buffer as it was.
- Floating-point and `Float32Array` rounding are not modelled; numbers are exact reals.
- The transcendental functions are abstract. Only the stated laws about them are used.
- `Math.random()` is modelled as indexed draws, not as one consumed stream. The model cannot say in
  what order the draws are taken, or that the explosion draws are taken only when the explosion is
  non-zero.
- `Keys.ParseInt`: the Unicode space separators other than those in `Keys.IsSpace` are not skipped
  as leading white space. That makes no difference for key names.
- `Engine.ParticleSystem.InitParticles`: the source allocates new position and velocity buffers.
  The model writes into the buffers the constructor allocated, so it says nothing about aliasing
  with the old buffers.
- `Engine.ParticleSystem.UpdateColors`: the source returns early when the particle object does not
  exist yet. The model calls it only from a frame where the particles exist, which is the only place
  the source reaches the loop.
