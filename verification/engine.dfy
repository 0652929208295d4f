/**
  The particle system's mutable state and the events that change it: setting up
  the particles, one animation frame, the per-frame colour update, a template
  change, a key press and a hand-tracking result.
 */
module Engine {
  import opened Basics
  import opened Templates
  import opened Gestures
  import opened Palettes
  import opened Particles
  import opened Keys

  /** The number of particles. */
  const ParticleCount := 3000

  /** The time added at every frame. */
  const FrameTime := 0.016

  /** The explosion strength a template change sets. */
  const TemplateExplosion := 0.5

  /** The explosion strength the space bar sets. */
  const KeyExplosion := 1.0

  /**
    The state of the particle view. The position and velocity buffers hold three
    slots per particle, the size buffer one; `colors` holds, per particle, the two
    palette anchors and the weight it is blended from.
   */
  class ParticleSystem {
    const pos: array<real>
    const vel: array<real>
    const sizes: array<real>
    const colors: array<Blend>
    var targets: seq<Vec3>
    var explosion: real
    var time: real
    var gesture: GestureState
    var template: Template
    var palette: Palette
    /** Whether the particles exist yet; a frame before that only advances the clock. */
    var ready: bool

    /** The buffers have their fixed sizes and are distinct. */
    predicate Shaped() {
      && pos.Length == 3 * ParticleCount && vel.Length == 3 * ParticleCount
      && sizes.Length == ParticleCount && colors.Length == ParticleCount
      && pos != vel && pos != sizes && vel != sizes
    }

    /**
      The clock never runs backwards from zero, the explosion strength is either off
      or between 0.01 and 1, and once the particles exist every one has a target.
     */
    ghost predicate Valid()
      reads this
    {
      && Shaped()
      && 0.0 <= time
      && 0.0 <= explosion <= 1.0 && (explosion == 0.0 || explosion >= 0.01)
      && (ready ==> |targets| == ParticleCount)
    }

    /** Particle `j` as stored in the three buffers. */
    function ParticleAt(j: nat): Particle
      reads pos, vel, sizes
      requires Shaped() && j < ParticleCount
    {
      Particle(Vec3(pos[3 * j], pos[3 * j + 1], pos[3 * j + 2]),
               Vec3(vel[3 * j], vel[3 * j + 1], vel[3 * j + 2]),
               sizes[j])
    }

    /** The component mounts: empty buffers, no targets, no explosion, the sphere and the rainbow. */
    constructor ()
      ensures Valid() && !ready
      ensures fresh(pos) && fresh(vel) && fresh(sizes) && fresh(colors)
      ensures targets == [] && explosion == 0.0 && time == 0.0
      ensures gesture == InitialGestureState && template == Sphere && palette == Rainbow
    {
      pos := new real[3 * ParticleCount](_ => 0.0);
      vel := new real[3 * ParticleCount](_ => 0.0);
      sizes := new real[ParticleCount](_ => 0.0);
      colors := new Blend[ParticleCount](_ => Blend(0, 0, 0.0));
      targets := [];
      explosion := 0.0;
      time := 0.0;
      gesture := InitialGestureState;
      template := Sphere;
      palette := Rainbow;
      ready := false;
    }

    /** Writes particle `j` back into the buffers, leaving every other particle as it was. */
    method SetParticle(j: nat, q: Particle)
      requires Shaped() && j < ParticleCount
      modifies pos, vel, sizes
      ensures ParticleAt(j) == q
      ensures forall k :: 0 <= k < ParticleCount && k != j ==> ParticleAt(k) == old(ParticleAt(k))
    {
      pos[3 * j], pos[3 * j + 1], pos[3 * j + 2] := q.pos.x, q.pos.y, q.pos.z;
      vel[3 * j], vel[3 * j + 1], vel[3 * j + 2] := q.vel.x, q.vel.y, q.vel.z;
      sizes[j] := q.size;
    }

    /**
      Creates the particles: the targets become the sphere, and every particle starts
      on its target with a random size and a small random velocity.
     */
    method InitParticles(m: Math, shapeRnd: nat -> real, rnd: nat -> real)
      requires Valid()
      modifies this, pos, vel, sizes
      ensures Valid() && ready
      ensures |targets| == ParticleCount
      ensures forall i :: 0 <= i < ParticleCount ==> targets[i] == TemplatePoint(Sphere, ParticleCount, i, m, shapeRnd)
      ensures forall j :: 0 <= j < ParticleCount ==> ParticleAt(j) == InitialParticle(targets, j, rnd)
      ensures explosion == old(explosion) && time == old(time) && gesture == old(gesture)
      ensures template == old(template) && palette == old(palette)
    {
      var templatePositions := GenerateTemplatePositions(Sphere, ParticleCount, m, shapeRnd);
      targets := templatePositions;
      var i := 0;
      while i < ParticleCount
        invariant 0 <= i <= ParticleCount
        invariant forall j :: 0 <= j < i ==> ParticleAt(j) == InitialParticle(templatePositions, j, rnd)
        modifies pos, vel, sizes
      {
        SetParticle(i, InitialParticle(templatePositions, i, rnd));
        i := i + 1;
      }
      ready := true;
    }

    /** Gives every particle the palette blend of its index at time `t`. */
    method UpdateColors(p: Palette, t: real)
      requires Shaped() && 0.0 <= t
      modifies colors
      ensures forall j :: 0 <= j < ParticleCount ==> colors[j] == PaletteBlend(p, j, ParticleCount, t)
    {
      var i := 0;
      while i < ParticleCount
        invariant 0 <= i <= ParticleCount
        invariant forall j :: 0 <= j < i ==> colors[j] == PaletteBlend(p, j, ParticleCount, t)
      {
        colors[i] := PaletteBlend(p, i, ParticleCount, t);
        i := i + 1;
      }
    }

    /**
      One animation frame. The clock advances first, even when the particles do
      not exist yet; then every particle with a target takes one physics step
      (particles without one are skipped), the explosion decays and the colours
      are updated for the new time.
     */
    method Animate(m: Math, rnd: nat -> real)
      requires Valid()
      modifies this, pos, vel, sizes, colors
      ensures Valid()
      ensures time == old(time) + FrameTime
      ensures targets == old(targets) && gesture == old(gesture) && template == old(template)
      ensures palette == old(palette) && ready == old(ready)
      ensures !old(ready) ==> explosion == old(explosion)
      ensures !old(ready) ==> unchanged(pos, vel, sizes, colors)
      ensures old(ready) ==> explosion == DecayExplosion(old(explosion))
      ensures old(ready) ==> forall j :: 0 <= j < ParticleCount ==>
        ParticleAt(j) == FrameParticle(old(ParticleAt(j)), targets, j, gesture, old(explosion), time, rnd, m)
      ensures old(ready) ==> forall j :: 0 <= j < ParticleCount ==>
        colors[j] == PaletteBlend(palette, j, ParticleCount, time)
    {
      time := time + FrameTime;
      if !ready {
        return;
      }
      var t := time;
      var i := 0;
      while i < ParticleCount
        invariant 0 <= i <= ParticleCount
        invariant forall j :: 0 <= j < i ==>
          ParticleAt(j) == FrameParticle(old(ParticleAt(j)), targets, j, gesture, explosion, t, rnd, m)
        invariant forall j :: i <= j < ParticleCount ==> ParticleAt(j) == old(ParticleAt(j))
        modifies pos, vel, sizes
      {
        if i < |targets| {
          var q := StepParticle(ParticleAt(i), targets[i], gesture, explosion, t, i, Draw3(rnd, 3 * i), m);
          SetParticle(i, q);
        }
        i := i + 1;
      }
      explosion := DecayExplosion(explosion);
      UpdateColors(palette, t);
    }

    /** Switches the targets to another shape and sets off a small explosion of exactly 0.5. */
    method ChangeTemplate(t: Template, m: Math, rnd: nat -> real)
      requires Valid()
      modifies this
      ensures Valid()
      ensures template == t && explosion == TemplateExplosion
      ensures |targets| == ParticleCount
      ensures forall i :: 0 <= i < ParticleCount ==> targets[i] == TemplatePoint(t, ParticleCount, i, m, rnd)
      ensures time == old(time) && gesture == old(gesture) && palette == old(palette) && ready == old(ready)
    {
      template := t;
      targets := GenerateTemplatePositions(t, ParticleCount, m, rnd);
      explosion := TemplateExplosion;
    }

    /**
      A key press: a key whose `parseInt` is 1 to 8 changes the template, `c`
      moves to the next palette and the space bar sets the explosion to 1.
     */
    method HandleKey(key: string, m: Math, rnd: nat -> real)
      requires Valid()
      modifies this
      ensures Valid()
      ensures DigitTemplate(key).Some? ==> template == DigitTemplate(key).value
      ensures DigitTemplate(key).Some? ==>
        |targets| == ParticleCount
        && forall i :: 0 <= i < ParticleCount ==> targets[i] == TemplatePoint(template, ParticleCount, i, m, rnd)
      ensures DigitTemplate(key).None? ==> template == old(template) && targets == old(targets)
      ensures palette == if key == "c" then NextPalette(old(palette)) else old(palette)
      ensures explosion ==
        if key == " " then KeyExplosion
        else if DigitTemplate(key).Some? then TemplateExplosion
        else old(explosion)
      ensures time == old(time) && gesture == old(gesture) && ready == old(ready)
    {
      var selected := DigitTemplate(key);
      if selected.Some? {
        ChangeTemplate(selected.value, m, rnd);
      }
      if key == "c" {
        var currentIndex := PaletteIndex(palette);
        var nextIndex := (currentIndex + 1) % PaletteCount;
        palette := PaletteOrder[nextIndex];
      }
      if key == " " {
        explosion := KeyExplosion;
      }
    }

    /** A hand-tracking result updates the gesture state. */
    method ReceiveLandmarks(hands: seq<Hand>, m: Math)
      requires Valid()
      modifies this
      ensures Valid()
      ensures gesture == OnResults(old(gesture), hands, m)
      ensures targets == old(targets) && explosion == old(explosion) && time == old(time)
      ensures template == old(template) && palette == old(palette) && ready == old(ready)
    {
      gesture := OnResults(gesture, hands, m);
    }
  }

  /** The key handler's three branches never fire together: a control key is not a number. */
  lemma KeyBranchesExclusive(key: string)
    ensures key == "c" ==> DigitTemplate(key).None?
    ensures key == " " ==> DigitTemplate(key).None?
  {
    ControlKeysAreNotNumbers();
  }

  /** Once every particle has a target, a frame moves every particle by its new velocity. */
  lemma NoParticleSkippedWhenReady(targets: seq<Vec3>, before: Particle, j: nat, g: GestureState,
                                   explosion: real, time: real, rnd: nat -> real, m: Math)
    requires |targets| == ParticleCount && j < ParticleCount
    ensures var after := FrameParticle(before, targets, j, g, explosion, time, rnd, m);
      after == StepParticle(before, targets[j], g, explosion, time, j, Draw3(rnd, 3 * j), m)
      && after.pos == Add(before.pos, after.vel)
  {
  }
}
