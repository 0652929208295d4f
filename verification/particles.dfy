/**
  The physics of one animation frame for one particle: the explosion kick, the
  organic noise, the spring towards the (spread and hand-shifted) target, the
  damping and the position step, and the pulsing point size; together with the
  per-frame decay of the explosion strength and the particle's initial state.
 */
module Particles {
  import opened Basics
  import opened Gestures

  /** One particle: the three slots of the position and velocity buffers, and the size slot. */
  datatype Particle = Particle(pos: Vec3, vel: Vec3, size: real)

  const SpringStrength := 0.03
  const Damping := 0.92
  const BaseSize := 0.08

  const Zero := Vec3(0.0, 0.0, 0.0)

  /**
    The shift of the shape towards the tracked palm: a palm at the centre of the
    frame shifts nothing, and the image's downward `y` becomes the scene's upward `y`.
   */
  function HandOffset(hand: Option<HandPosition>): (o: Vec3)
    ensures o.z == 0.0
    ensures hand.None? ==> o == Zero
    ensures hand == Some(HandPosition(0.5, 0.5)) ==> o == Zero
  {
    match hand
    case None => Zero
    case Some(h) => Vec3((h.x - 0.5) * 6.0, (0.5 - h.y) * 6.0, 0.0)
  }

  /**
    The explosion impulse added to the velocity: each axis gets `(draw - 0.5)` times
    half the explosion strength, and nothing at all when the strength is zero.
   */
  function ExplosionKick(explosion: real, draws: Vec3): (k: Vec3)
    ensures explosion <= 0.0 ==> k == Zero
    ensures explosion > 0.0 ==> k == Scale(explosion * 0.5, Vec3(draws.x - 0.5, draws.y - 0.5, draws.z - 0.5))
  {
    Vec3(KickAxis(explosion, draws.x), KickAxis(explosion, draws.y), KickAxis(explosion, draws.z))
  }

  /** One axis of the explosion impulse. */
  function KickAxis(explosion: real, draw: real): real {
    if explosion > 0.0 then (draw - 0.5) * (explosion * 0.5) else 0.0
  }

  /** Three draws of `Math.random()`, each in `[0, 1)`. */
  predicate InUnitCube(d: Vec3) {
    0.0 <= d.x < 1.0 && 0.0 <= d.y < 1.0 && 0.0 <= d.z < 1.0
  }

  /** A centred draw times half the strength lies within a quarter of the strength. */
  lemma KickAxisBound(explosion: real, d: real)
    requires 0.0 < explosion && 0.0 <= d < 1.0
    ensures -0.25 * explosion <= KickAxis(explosion, d) < 0.25 * explosion
  {
    assert (d - 0.5) * (explosion * 0.5) == 0.5 * (d * explosion) - 0.25 * explosion;
    MulLeft(explosion, 0.0, d);
    assert d * explosion < explosion by {
      MulPositive(1.0 - d, explosion);
    }
  }

  /** Each axis of the impulse is below a quarter of the explosion strength in size. */
  lemma ExplosionImpulseBounded(explosion: real, draws: Vec3)
    requires 0.0 < explosion && InUnitCube(draws)
    ensures var k := ExplosionKick(explosion, draws);
      && -0.25 * explosion <= k.x < 0.25 * explosion
      && -0.25 * explosion <= k.y < 0.25 * explosion
      && -0.25 * explosion <= k.z < 0.25 * explosion
  {
    KickAxisBound(explosion, draws.x);
    KickAxisBound(explosion, draws.y);
    KickAxisBound(explosion, draws.z);
  }

  /** The impulse is proportional to the strength: `c` times the strength gives `c` times the kick. */
  lemma KickProportional(explosion: real, c: real, draws: Vec3)
    requires 0.0 < explosion && 0.0 < c
    ensures ExplosionKick(c * explosion, draws) == Scale(c, ExplosionKick(explosion, draws))
  {
    MulPositive(c, explosion);
  }

  /** The noise term of particle `i`, added to the X and Y velocities only. */
  function Noise(time: real, i: nat, m: Math): (n: real)
    ensures SinCosBounded(m) ==> -0.02 <= n <= 0.02
  {
    var w := m.sin(time * 2.0 + i as real * 0.1);
    assert SinCosBounded(m) ==> -1.0 <= w <= 1.0;
    w * 0.02
  }

  /** The point size of particle `i`: it pulses three times as much while pinching. */
  function PointSize(gesture: Label, time: real, i: nat, m: Math): (s: real)
    ensures SinCosBounded(m) && gesture != Pinch ==> 0.03 <= s <= 0.13
    ensures SinCosBounded(m) && gesture == Pinch ==> -0.07 <= s <= 0.23
  {
    var sizeVariation := if gesture == Pinch then 0.15 else 0.05;
    var w := m.sin(time * 3.0 + i as real * 0.05);
    assert SinCosBounded(m) ==> -1.0 <= w <= 1.0;
    BaseSize + w * sizeVariation
  }

  /**
    While pinching, a particle whose sine term is at its minimum gets the size
    `0.08 - 0.15 = -0.07`: the pinch amplitude exceeds the base size.
   */
  lemma PinchSizeGoesNegative(time: real, i: nat, m: Math)
    requires m.sin(time * 3.0 + i as real * 0.05) == -1.0
    ensures PointSize(Pinch, time, i, m) == -0.07
    ensures PointSize(Open, time, i, m) == 0.03
  {
  }

  /** Where particle `i` is pulled to: the target scaled by the spread, shifted by the palm in X and Y. */
  function Goal(target: Vec3, g: GestureState): (goal: Vec3)
    ensures goal.z == g.spread * target.z
    ensures g.handPosition.None? ==> goal == Scale(g.spread, target)
    ensures g.handPosition == Some(HandPosition(0.5, 0.5)) ==> goal == Scale(g.spread, target)
  {
    Add(Scale(g.spread, target), HandOffset(g.handPosition))
  }

  /** One axis of the velocity update: kick, spring towards the goal plus noise, then damping. */
  function SpringAxis(vel: real, kick: real, goal: real, pos: real, noise: real): real {
    (vel + kick + (goal - pos) * SpringStrength + noise) * Damping
  }

  /**
    One frame for a particle that has a target, in the order of the frame loop:
    explosion kick, spring towards the goal plus noise (X and Y only), damping,
    then the position moves by the new velocity and the size is recomputed.
   */
  function StepParticle(p: Particle, target: Vec3, g: GestureState, explosion: real,
                        time: real, i: nat, draws: Vec3, m: Math): (r: Particle)
    ensures r.pos == Add(p.pos, r.vel)
    ensures r.size == PointSize(g.gesture, time, i, m)
  {
    var vel := Velocity(p, Goal(target, g), Noise(time, i, m), ExplosionKick(explosion, draws));
    Particle(Add(p.pos, vel), vel, PointSize(g.gesture, time, i, m))
  }

  /** The new velocity of a particle given its goal, its noise and the kick it receives. */
  function Velocity(p: Particle, goal: Vec3, noise: real, kick: Vec3): Vec3 {
    Vec3(
      SpringAxis(p.vel.x, kick.x, goal.x, p.pos.x, noise),
      SpringAxis(p.vel.y, kick.y, goal.y, p.pos.y, noise),
      SpringAxis(p.vel.z, kick.z, goal.z, p.pos.z, 0.0))
  }

  /** Particle `j` after one frame: stepped towards `targets[j]`, or untouched when it has no target. */
  function FrameParticle(p: Particle, targets: seq<Vec3>, j: nat, g: GestureState,
                         explosion: real, time: real, rnd: nat -> real, m: Math): (r: Particle)
    ensures j >= |targets| ==> r == p
    ensures j < |targets| ==> r.pos == Add(p.pos, r.vel)
  {
    if j < |targets| then StepParticle(p, targets[j], g, explosion, time, j, Draw3(rnd, 3 * j), m)
    else p
  }

  /** The velocity update spelled out per axis: `v' = 0.92 (v + kick + 0.03 (goal - p) + noise)`, no noise on Z. */
  lemma VelocityUpdate(p: Particle, target: Vec3, g: GestureState, explosion: real,
                       time: real, i: nat, draws: Vec3, m: Math)
    ensures var r := StepParticle(p, target, g, explosion, time, i, draws, m);
      var k := ExplosionKick(explosion, draws);
      var o := HandOffset(g.handPosition);
      var n := Noise(time, i, m);
      && r.vel.x == 0.92 * (p.vel.x + k.x + 0.03 * (g.spread * target.x + o.x - p.pos.x) + n)
      && r.vel.y == 0.92 * (p.vel.y + k.y + 0.03 * (g.spread * target.y + o.y - p.pos.y) + n)
      && r.vel.z == 0.92 * (p.vel.z + k.z + 0.03 * (g.spread * target.z - p.pos.z))
  {
  }

  /** The Z axis sees neither the palm nor the noise: changing either leaves Z untouched. */
  lemma ZAxisIgnoresHandAndNoise(p: Particle, target: Vec3, g: GestureState, hand: Option<HandPosition>,
                                 explosion: real, time: real, time': real, i: nat, draws: Vec3, m: Math, m': Math)
    ensures var r := StepParticle(p, target, g, explosion, time, i, draws, m);
      var r' := StepParticle(p, target, g.(handPosition := hand), explosion, time', i, draws, m');
      r.pos.z == r'.pos.z && r.vel.z == r'.vel.z
  {
  }

  /**
    Moving the palm by `(dx, dy)` in the image moves every goal by `(6 dx, -6 dy, 0)`
    in the scene: the shape follows the hand, mirrored vertically.
   */
  lemma HandOffsetTranslates(h: HandPosition, dx: real, dy: real)
    ensures var o := HandOffset(Some(h));
      var o' := HandOffset(Some(HandPosition(h.x + dx, h.y + dy)));
      o' == Add(o, Vec3(6.0 * dx, -6.0 * dy, 0.0))
  {
  }

  /** Moving the palm by `(dx, dy)` moves every goal by `(6dx, -6dy, 0)`: the shape follows the hand. */
  lemma GoalFollowsHand(target: Vec3, g: GestureState, h: HandPosition, dx: real, dy: real)
    requires g.handPosition == Some(h)
    ensures var moved := g.(handPosition := Some(HandPosition(h.x + dx, h.y + dy)));
      Goal(target, moved) == Add(Goal(target, g), Vec3(6.0 * dx, -6.0 * dy, 0.0))
  {
    HandOffsetTranslates(h, dx, dy);
  }

  /**
    The explosion superposes on the quiet motion: with a kick, the new velocity and
    position are those without it plus the damped kick.
   */
  lemma ExplosionSuperposes(p: Particle, target: Vec3, g: GestureState, explosion: real,
                            time: real, i: nat, draws: Vec3, m: Math)
    ensures var r := StepParticle(p, target, g, explosion, time, i, draws, m);
      var q := StepParticle(p, target, g, 0.0, time, i, draws, m);
      var k := Scale(Damping, ExplosionKick(explosion, draws));
      r.vel == Add(q.vel, k) && r.pos == Add(q.pos, k) && r.size == q.size
  {
    VelocityKick(p, Goal(target, g), Noise(time, i, m), ExplosionKick(explosion, draws));
    assert ExplosionKick(0.0, draws) == Zero;
  }

  /** The kick passes through the spring step damped, whatever the goal and the noise. */
  lemma VelocityKick(p: Particle, goal: Vec3, noise: real, kick: Vec3)
    ensures Velocity(p, goal, noise, kick) == Add(Velocity(p, goal, noise, Zero), Scale(Damping, kick))
  {
  }

  /**
    A particle resting exactly on its goal, with no explosion and no noise, stays
    where it is with zero velocity.
   */
  lemma RestingParticleStays(p: Particle, target: Vec3, g: GestureState, time: real, i: nat,
                             draws: Vec3, m: Math)
    requires p.vel == Zero && p.pos == Goal(target, g)
    requires Noise(time, i, m) == 0.0
    ensures var r := StepParticle(p, target, g, 0.0, time, i, draws, m);
      r.pos == p.pos && r.vel == Zero
  {
    VelocityUpdate(p, target, g, 0.0, time, i, draws, m);
    var o := HandOffset(g.handPosition);
    assert g.spread * target.x + o.x - p.pos.x == 0.0;
    assert g.spread * target.y + o.y - p.pos.y == 0.0;
    assert g.spread * target.z - p.pos.z == 0.0;
  }

  /**
    The quadratic form `V(e, v) = 0.0276 e² + 0.0524 e v + 0.92 v²` of the
    displacement `e` from the goal and the velocity `v` along one axis.
   */
  function SpringEnergy(e: real, v: real): real {
    0.0276 * e * e + 0.0524 * e * v + 0.92 * v * v
  }

  /** A square is non-negative, and positive away from zero. */
  lemma SquarePositive(x: real)
    ensures x * x >= 0.0
    ensures x != 0.0 ==> x * x > 0.0
  {
    if x > 0.0 {
      MulPositive(x, x);
    } else if x < 0.0 {
      MulPositive(-x, -x);
      assert x * x == (-x) * (-x);
    } else {
      assert x * x == 0.0;
    }
  }

  /**
    `V` is positive definite: it bounds the squared velocity and the squared
    displacement, so as `V` shrinks to zero both do.
   */
  lemma SpringEnergyPositive(e: real, v: real)
    ensures SpringEnergy(e, v) >= 0.0
    ensures 0.09882224 * (v * v) <= 0.1104 * SpringEnergy(e, v)
    ensures 0.09882224 * (e * e) <= 3.68 * SpringEnergy(e, v)
  {
    // completing the square both ways
    var w := 0.0552 * e + 0.0524 * v;
    var u := 1.84 * v + 0.0524 * e;
    assert 0.1104 * SpringEnergy(e, v) == w * w + 0.09882224 * (v * v);
    assert 3.68 * SpringEnergy(e, v) == u * u + 0.09882224 * (e * e);
    SquarePositive(w);
    SquarePositive(u);
    SquarePositive(v);
  }

  /**
    Along Z without an explosion the spring is a fixed linear map of
    (displacement, velocity), and it shrinks `V` by exactly the damping factor
    every frame: the particle settles onto its goal.
   */
  lemma ZEnergyContracts(p: Particle, target: Vec3, g: GestureState, time: real, i: nat,
                         draws: Vec3, m: Math)
    ensures var r := StepParticle(p, target, g, 0.0, time, i, draws, m);
      var goal := g.spread * target.z;
      SpringEnergy(r.pos.z - goal, r.vel.z) == Damping * SpringEnergy(p.pos.z - goal, p.vel.z)
  {
    var r := StepParticle(p, target, g, 0.0, time, i, draws, m);
    var goal := g.spread * target.z;
    var e, v := p.pos.z - goal, p.vel.z;
    assert r.vel.z == 0.92 * v - 0.0276 * e;
    assert r.pos.z - goal == 0.9724 * e + 0.92 * v;
  }

  /** The explosion strength after one frame: multiplied by 0.95, and snapped to zero below 0.01. */
  function DecayExplosion(e: real): (r: real)
    ensures 0.0 <= e ==> 0.0 <= r <= e
    ensures r == 0.0 || r >= 0.01
    ensures r == 0.0 <==> e * 0.95 < 0.01
    ensures e * 0.95 >= 0.01 ==> r == e * 0.95
  {
    var d := e * 0.95;
    if d < 0.01 then 0.0 else d
  }

  /** The explosion strength after `k` frames. */
  function Decayed(e: real, k: nat): real {
    if k == 0 then e else DecayExplosion(Decayed(e, k - 1))
  }

  /** `k` frames shrink a non-negative strength at least as much as `0.95^k`. */
  lemma {:induction false} DecayedBound(e: real, k: nat)
    requires 0.0 <= e
    ensures 0.0 <= Decayed(e, k) <= e * Pow(0.95, k)
  {
    if k > 0 {
      DecayedBound(e, k - 1);
      var d := Decayed(e, k - 1);
      assert Decayed(e, k) <= d * 0.95;
      assert d * 0.95 <= e * Pow(0.95, k - 1) * 0.95;
    }
  }

  /** `0.95^k` lies in `[0, 1]` and does not grow from one frame to the next. */
  lemma {:induction false} DecayFactorBounds(k: nat)
    ensures 0.0 <= Pow(0.95, k) <= 1.0
    ensures k > 0 ==> Pow(0.95, k) <= Pow(0.95, k - 1)
  {
    if k > 0 {
      DecayFactorBounds(k - 1);
    }
  }

  /**
    While it stays at or above the cut-off, the strength after `k` frames is exactly
    `e * 0.95^k`: the snap to zero is the only departure from geometric decay.
   */
  lemma {:induction false} DecayedExact(e: real, k: nat)
    requires 0.0 <= e && e * Pow(0.95, k) >= 0.01
    ensures Decayed(e, k) == e * Pow(0.95, k)
  {
    if k > 0 {
      var before := Pow(0.95, k - 1);
      DecayFactorBounds(k);
      MulLeft(e, Pow(0.95, k), before);
      DecayedExact(e, k - 1);
      assert e * Pow(0.95, k) == (e * before) * 0.95;
    }
  }

  /** Frames compose: `a + b` frames are `a` frames followed by `b` frames. */
  lemma {:induction false} DecayedCompose(e: real, a: nat, b: nat)
    ensures Decayed(e, a + b) == Decayed(Decayed(e, a), b)
  {
    if b > 0 {
      DecayedCompose(e, a, b - 1);
    }
  }

  /** Ten frames at 0.95 are less than 0.6. */
  lemma TenFramesFactor()
    ensures Pow(0.95, 10) < 0.6
  {
  }

  /** Ten frames shrink a non-negative strength below six tenths of it. */
  lemma DecayedTen(d: real)
    requires 0.0 <= d
    ensures Decayed(d, 10) <= 0.6 * d
  {
    DecayedBound(d, 10);
    TenFramesFactor();
    MulLeft(d, Pow(0.95, 10), 0.6);
  }

  /** `e` scaled by 0.6 once per block of ten frames, for `n` blocks. */
  function Shrunk(e: real, n: nat): real {
    if n == 0 then e else 0.6 * Shrunk(e, n - 1)
  }

  /** A larger strength stays larger block after block. */
  lemma {:induction false} ShrunkMonotonic(e: real, b: real, n: nat)
    requires e <= b
    ensures Shrunk(e, n) <= Shrunk(b, n)
  {
    if n > 0 {
      ShrunkMonotonic(e, b, n - 1);
    }
  }

  /** Every 10 frames the strength drops below six tenths of what it was. */
  lemma {:induction false} DecayedByBlocks(e: real, n: nat)
    requires 0.0 <= e
    ensures 0.0 <= Decayed(e, 10 * n) <= Shrunk(e, n)
  {
    if n > 0 {
      DecayedByBlocks(e, n - 1);
      var k := 10 * (n - 1);
      DecayedCompose(e, k, 10);
      assert k + 10 == 10 * n;
      DecayedTen(Decayed(e, k));
      DecayedBound(Decayed(e, k), 10);
    }
  }

  /** An explosion of strength at most 1 (a space press, a template change) is gone after 100 frames. */
  lemma ExplosionFadesOut(e: real)
    requires 0.0 <= e <= 1.0
    ensures Decayed(e, 100) == 0.0
  {
    DecayedByBlocks(e, 10);
    ShrunkMonotonic(e, 1.0, 10);
    assert Shrunk(1.0, 10) < 0.01;
  }

  /** The fallback point of `initParticles` for a missing template entry, in `[-5, 5)³`. */
  function FallbackPoint(draws: Vec3): (q: Vec3)
    ensures 0.0 <= draws.x < 1.0 && 0.0 <= draws.y < 1.0 && 0.0 <= draws.z < 1.0 ==>
      -5.0 <= q.x < 5.0 && -5.0 <= q.y < 5.0 && -5.0 <= q.z < 5.0
  {
    Vec3((draws.x - 0.5) * 10.0, (draws.y - 0.5) * 10.0, (draws.z - 0.5) * 10.0)
  }

  /**
    The initial state of particle `j`: on its template point (or the random fallback
    when the list has no entry `j`), with a random size in `[0.05, 0.15)` and a small
    random velocity in `[-0.005, 0.005)³`. Particle `j` uses draws `7j` to `7j + 6`.
   */
  function InitialParticle(targets: seq<Vec3>, j: nat, rnd: nat -> real): (p: Particle)
    ensures j < |targets| ==> p.pos == targets[j]
    ensures j >= |targets| ==> p.pos == FallbackPoint(Draw3(rnd, 7 * j))
    ensures UnitDraws(rnd) ==> 0.05 <= p.size < 0.15
    ensures UnitDraws(rnd) ==>
      -0.005 <= p.vel.x < 0.005 && -0.005 <= p.vel.y < 0.005 && -0.005 <= p.vel.z < 0.005
  {
    var pos := if j < |targets| then targets[j] else FallbackPoint(Draw3(rnd, 7 * j));
    var size := rnd(7 * j + 3) * 0.1 + 0.05;
    var vel := Vec3((rnd(7 * j + 4) - 0.5) * 0.01, (rnd(7 * j + 5) - 0.5) * 0.01, (rnd(7 * j + 6) - 0.5) * 0.01);
    assert UnitDraws(rnd) ==>
      (0.0 <= rnd(7 * j + 3) < 1.0 && 0.0 <= rnd(7 * j + 4) < 1.0
       && 0.0 <= rnd(7 * j + 5) < 1.0 && 0.0 <= rnd(7 * j + 6) < 1.0);
    Particle(pos, vel, size)
  }

  /** A particle without a template entry starts inside the cube `[-5, 5)³`. */
  lemma FallbackInCube(targets: seq<Vec3>, j: nat, rnd: nat -> real)
    requires UnitDraws(rnd) && j >= |targets|
    ensures var p := InitialParticle(targets, j, rnd);
      -5.0 <= p.pos.x < 5.0 && -5.0 <= p.pos.y < 5.0 && -5.0 <= p.pos.z < 5.0
  {
    assert 0.0 <= rnd(7 * j) < 1.0 && 0.0 <= rnd(7 * j + 1) < 1.0 && 0.0 <= rnd(7 * j + 2) < 1.0;
  }
}
