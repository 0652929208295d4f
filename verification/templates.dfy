/**
  The shape generator: `generateTemplatePositions` maps one of eight named
  templates and a particle count to the list of target points. Each template
  samples a parametric curve or surface at `count` values of its parameter; the
  curve values stay abstract (they go through `Math`), while the list's length,
  its index structure and the radii that follow from `sin² + cos² = 1` are proved.
 */
module Templates {
  import opened Basics

  datatype Template = Heart | Flower | Saturn | Firework | Spiral | Sphere | Star | Butterfly

  /** Number of ring points of the saturn template, `Math.floor(count * 0.6)`. */
  function RingCount(count: nat): (ring: nat)
    ensures ring <= count
    ensures ring == count * 3 / 5
  {
    var q := count * 3 / 5;
    assert (count as real) * 0.6 == q as real + (count * 3 - 5 * q) as real / 5.0;
    (count as real * 0.6).Floor
  }

  function HeartPoint(i: nat, count: nat, m: Math, depth: real): Vec3
    requires i < count
  {
    var t := (i as real / count as real) * PI * 2.0;
    var x := 16.0 * Pow(m.sin(t), 3);
    var y := 13.0 * m.cos(t) - 5.0 * m.cos(2.0 * t) - 2.0 * m.cos(3.0 * t) - m.cos(4.0 * t);
    var z := (depth - 0.5) * 5.0;
    Vec3(x * 0.15, y * 0.15, z * 0.3)
  }

  function FlowerPoint(i: nat, count: nat, m: Math, depth: real): Vec3
    requires i < count
  {
    var t := (i as real / count as real) * PI * 2.0 * 6.0;
    var r := 2.0 + m.cos(5.0 * t);
    Vec3(r * m.cos(t), r * m.sin(t), (depth - 0.5) * 2.0)
  }

  /** Ring point `i` of `ring`, from a radius draw and then a height draw. */
  function RingPoint(i: nat, ring: nat, m: Math, radiusDraw: real, heightDraw: real): Vec3
    requires i < ring
  {
    var angle := (i as real / ring as real) * PI * 2.0;
    var radius := 3.0 + (radiusDraw - 0.5) * 0.5;
    Vec3(m.cos(angle) * radius, (heightDraw - 0.5) * 0.2, m.sin(angle) * radius)
  }

  /** Polar angle of point `i` of `n` on the golden-angle ("Fibonacci") sphere. */
  function FibonacciPhi(i: nat, n: nat, m: Math): real
    requires i < n
  {
    m.acos(-1.0 + (2.0 * i as real) / n as real)
  }

  /** Azimuth of the same point, proportional to its polar angle. */
  function FibonacciTheta(n: nat, phi: real, m: Math): real {
    m.sqrt(n as real * PI) * phi
  }

  /** Point `i` of `n` of the golden-angle sphere of the given radius. */
  function FibonacciPoint(i: nat, n: nat, radius: real, m: Math): Vec3
    requires i < n
  {
    var phi := FibonacciPhi(i, n, m);
    var theta := FibonacciTheta(n, phi, m);
    Vec3(radius * m.cos(theta) * m.sin(phi), radius * m.sin(theta) * m.sin(phi), radius * m.cos(phi))
  }

  function SpiralPoint(i: nat, count: nat, m: Math): Vec3
    requires i < count
  {
    var t := (i as real / count as real) * PI * 8.0;
    var radius := t * 0.15;
    Vec3(m.cos(t) * radius, t * 0.2 - 3.0, m.sin(t) * radius)
  }

  /** Star radius: 3 on even indices, 1.5 on odd ones. */
  function StarRadius(i: nat): real {
    2.0 + (if i % 2 == 0 then 1.0 else -0.5)
  }

  function StarPoint(i: nat, count: nat, m: Math, depth: real): Vec3
    requires i < count
  {
    var t := (i as real / count as real) * PI * 2.0;
    var r := StarRadius(i);
    Vec3(m.cos(t * 5.0) * r, m.sin(t * 5.0) * r, (depth - 0.5) * 2.0)
  }

  function ButterflyPoint(i: nat, count: nat, m: Math, depth: real): Vec3
    requires i < count
  {
    var t := (i as real / count as real) * PI * 12.0;
    var r := m.exp(m.cos(t)) - 2.0 * m.cos(4.0 * t) - Pow(m.sin(t / 12.0), 5);
    Vec3(m.sin(t) * r * 1.2, m.cos(t) * r * 1.2, (depth - 0.5) * 1.5)
  }

  /**
    Point `i` of template `template` sampled at `count` points. Templates with one
    random draw per point use draw `i`; the saturn ring uses draws `2i` and `2i + 1`.
    Saturn lists its ring points first and its sphere points after them. The random
    depth jitter of the curve templates keeps them in a band around the plane.
   */
  function TemplatePoint(template: Template, count: nat, i: nat, m: Math, rnd: nat -> real): (p: Vec3)
    requires i < count
    ensures UnitDraws(rnd) && (template == Heart || template == Butterfly) ==> -0.75 <= p.z < 0.75
    ensures UnitDraws(rnd) && (template == Flower || template == Star) ==> -1.0 <= p.z < 1.0
  {
    assert UnitDraws(rnd) ==> 0.0 <= rnd(i) < 1.0;
    match template
    case Heart => HeartPoint(i, count, m, rnd(i))
    case Flower => FlowerPoint(i, count, m, rnd(i))
    case Saturn =>
      var ring := RingCount(count);
      if i < ring then RingPoint(i, ring, m, rnd(2 * i), rnd(2 * i + 1))
      else FibonacciPoint(i - ring, count - ring, 1.5, m)
    case Firework => FibonacciPoint(i, count, 2.0 + rnd(i) * 2.0, m)
    case Spiral => SpiralPoint(i, count, m)
    case Sphere => FibonacciPoint(i, count, 2.5, m)
    case Star => StarPoint(i, count, m, rnd(i))
    case Butterfly => ButterflyPoint(i, count, m, rnd(i))
  }

  /**
    `generateTemplatePositions`: a switch over the template whose every branch is a
    counted loop pushing one point per iteration (two loops for saturn: ring, then sphere).
   */
  method GenerateTemplatePositions(template: Template, count: nat, m: Math, rnd: nat -> real)
    returns (positions: seq<Vec3>)
    ensures |positions| == count
    ensures forall i :: 0 <= i < count ==> positions[i] == TemplatePoint(template, count, i, m, rnd)
  {
    match template {
      case Heart => positions := HeartPositions(count, m, rnd);
      case Flower => positions := FlowerPositions(count, m, rnd);
      case Saturn => positions := SaturnPositions(count, m, rnd);
      case Firework => positions := FireworkPositions(count, m, rnd);
      case Spiral => positions := SpiralPositions(count, m, rnd);
      case Sphere => positions := SpherePositions(count, m, rnd);
      case Star => positions := StarPositions(count, m, rnd);
      case Butterfly => positions := ButterflyPositions(count, m, rnd);
    }
  }

  /** The heart branch of `generateTemplatePositions`. */
  method HeartPositions(count: nat, m: Math, rnd: nat -> real) returns (positions: seq<Vec3>)
    ensures |positions| == count
    ensures forall i :: 0 <= i < count ==> positions[i] == TemplatePoint(Heart, count, i, m, rnd)
  {
    positions := [];
    for i := 0 to count
      invariant |positions| == i
      invariant forall j :: 0 <= j < i ==> positions[j] == TemplatePoint(Heart, count, j, m, rnd)
    {
      var t := (i as real / count as real) * PI * 2.0;
      var x := 16.0 * Pow(m.sin(t), 3);
      var y := 13.0 * m.cos(t) - 5.0 * m.cos(2.0 * t) - 2.0 * m.cos(3.0 * t) - m.cos(4.0 * t);
      var z := (rnd(i) - 0.5) * 5.0;
      positions := positions + [Vec3(x * 0.15, y * 0.15, z * 0.3)];
    }
  }

  /** The flower branch of `generateTemplatePositions`. */
  method FlowerPositions(count: nat, m: Math, rnd: nat -> real) returns (positions: seq<Vec3>)
    ensures |positions| == count
    ensures forall i :: 0 <= i < count ==> positions[i] == TemplatePoint(Flower, count, i, m, rnd)
  {
    positions := [];
    for i := 0 to count
      invariant |positions| == i
      invariant forall j :: 0 <= j < i ==> positions[j] == TemplatePoint(Flower, count, j, m, rnd)
    {
      var t := (i as real / count as real) * PI * 2.0 * 6.0;
      var r := 2.0 + m.cos(5.0 * t);
      var z := (rnd(i) - 0.5) * 2.0;
      positions := positions + [Vec3(r * m.cos(t), r * m.sin(t), z)];
    }
  }

  /**
    The saturn branch of `generateTemplatePositions`: the ring loop over the first
    `⌊0.6 count⌋` points, then the sphere loop over the rest.
   */
  method SaturnPositions(count: nat, m: Math, rnd: nat -> real) returns (positions: seq<Vec3>)
    ensures |positions| == count
    ensures forall i :: 0 <= i < count ==> positions[i] == TemplatePoint(Saturn, count, i, m, rnd)
  {
    var ringParticles := RingCount(count);
    var sphereParticles := count - ringParticles;
    var ring := SaturnRing(ringParticles, m, rnd);
    var planet := SaturnPlanet(sphereParticles, m);
    positions := ring + planet;
    forall i | 0 <= i < count
      ensures positions[i] == TemplatePoint(Saturn, count, i, m, rnd)
    {
      if i < ringParticles {
        assert positions[i] == ring[i];
      } else {
        assert positions[i] == planet[i - ringParticles];
      }
    }
  }

  /** The ring loop of the saturn branch: `ring` points on the ring band. */
  method SaturnRing(ring: nat, m: Math, rnd: nat -> real) returns (positions: seq<Vec3>)
    ensures |positions| == ring
    ensures forall i :: 0 <= i < ring ==> positions[i] == RingPoint(i, ring, m, rnd(2 * i), rnd(2 * i + 1))
  {
    positions := [];
    for i := 0 to ring
      invariant |positions| == i
      invariant forall j :: 0 <= j < i ==> positions[j] == RingPoint(j, ring, m, rnd(2 * j), rnd(2 * j + 1))
    {
      var angle := (i as real / ring as real) * PI * 2.0;
      var radius := 3.0 + (rnd(2 * i) - 0.5) * 0.5;
      var x := m.cos(angle) * radius;
      var z := m.sin(angle) * radius;
      var y := (rnd(2 * i + 1) - 0.5) * 0.2;
      positions := positions + [Vec3(x, y, z)];
    }
  }

  /** The sphere loop of the saturn branch: `n` golden-angle points of radius 1.5. */
  method SaturnPlanet(n: nat, m: Math) returns (positions: seq<Vec3>)
    ensures |positions| == n
    ensures forall i :: 0 <= i < n ==> positions[i] == FibonacciPoint(i, n, 1.5, m)
  {
    positions := [];
    for i := 0 to n
      invariant |positions| == i
      invariant forall j :: 0 <= j < i ==> positions[j] == FibonacciPoint(j, n, 1.5, m)
    {
      var phi := FibonacciPhi(i, n, m);
      var theta := FibonacciTheta(n, phi, m);
      var x := 1.5 * m.cos(theta) * m.sin(phi);
      var y := 1.5 * m.sin(theta) * m.sin(phi);
      var z := 1.5 * m.cos(phi);
      positions := positions + [Vec3(x, y, z)];
    }
  }

  /** The firework branch of `generateTemplatePositions`. */
  method FireworkPositions(count: nat, m: Math, rnd: nat -> real) returns (positions: seq<Vec3>)
    ensures |positions| == count
    ensures forall i :: 0 <= i < count ==> positions[i] == TemplatePoint(Firework, count, i, m, rnd)
  {
    positions := [];
    for i := 0 to count
      invariant |positions| == i
      invariant forall j :: 0 <= j < i ==> positions[j] == TemplatePoint(Firework, count, j, m, rnd)
    {
      var phi := FibonacciPhi(i, count, m);
      var theta := FibonacciTheta(count, phi, m);
      var radius := 2.0 + rnd(i) * 2.0;
      var x := radius * m.cos(theta) * m.sin(phi);
      var y := radius * m.sin(theta) * m.sin(phi);
      var z := radius * m.cos(phi);
      positions := positions + [Vec3(x, y, z)];
    }
  }

  /** The spiral branch of `generateTemplatePositions`. */
  method SpiralPositions(count: nat, m: Math, rnd: nat -> real) returns (positions: seq<Vec3>)
    ensures |positions| == count
    ensures forall i :: 0 <= i < count ==> positions[i] == TemplatePoint(Spiral, count, i, m, rnd)
  {
    positions := [];
    for i := 0 to count
      invariant |positions| == i
      invariant forall j :: 0 <= j < i ==> positions[j] == TemplatePoint(Spiral, count, j, m, rnd)
    {
      var t := (i as real / count as real) * PI * 8.0;
      var radius := t * 0.15;
      var x := m.cos(t) * radius;
      var z := m.sin(t) * radius;
      var y := t * 0.2 - 3.0;
      positions := positions + [Vec3(x, y, z)];
    }
  }

  /** The sphere branch of `generateTemplatePositions`. */
  method SpherePositions(count: nat, m: Math, rnd: nat -> real) returns (positions: seq<Vec3>)
    ensures |positions| == count
    ensures forall i :: 0 <= i < count ==> positions[i] == TemplatePoint(Sphere, count, i, m, rnd)
  {
    positions := [];
    for i := 0 to count
      invariant |positions| == i
      invariant forall j :: 0 <= j < i ==> positions[j] == TemplatePoint(Sphere, count, j, m, rnd)
    {
      var phi := FibonacciPhi(i, count, m);
      var theta := FibonacciTheta(count, phi, m);
      var radius := 2.5;
      var x := radius * m.cos(theta) * m.sin(phi);
      var y := radius * m.sin(theta) * m.sin(phi);
      var z := radius * m.cos(phi);
      positions := positions + [Vec3(x, y, z)];
    }
  }

  /** The star branch of `generateTemplatePositions`. */
  method StarPositions(count: nat, m: Math, rnd: nat -> real) returns (positions: seq<Vec3>)
    ensures |positions| == count
    ensures forall i :: 0 <= i < count ==> positions[i] == TemplatePoint(Star, count, i, m, rnd)
  {
    positions := [];
    for i := 0 to count
      invariant |positions| == i
      invariant forall j :: 0 <= j < i ==> positions[j] == TemplatePoint(Star, count, j, m, rnd)
    {
      var t := (i as real / count as real) * PI * 2.0;
      var r := 2.0 + (if i % 2 == 0 then 1.0 else -0.5);
      var x := m.cos(t * 5.0) * r;
      var y := m.sin(t * 5.0) * r;
      var z := (rnd(i) - 0.5) * 2.0;
      positions := positions + [Vec3(x, y, z)];
    }
  }

  /** The butterfly branch of `generateTemplatePositions`. */
  method ButterflyPositions(count: nat, m: Math, rnd: nat -> real) returns (positions: seq<Vec3>)
    ensures |positions| == count
    ensures forall i :: 0 <= i < count ==> positions[i] == TemplatePoint(Butterfly, count, i, m, rnd)
  {
    positions := [];
    for i := 0 to count
      invariant |positions| == i
      invariant forall j :: 0 <= j < i ==> positions[j] == TemplatePoint(Butterfly, count, j, m, rnd)
    {
      var t := (i as real / count as real) * PI * 12.0;
      var r := m.exp(m.cos(t)) - 2.0 * m.cos(4.0 * t) - Pow(m.sin(t / 12.0), 5);
      var x := m.sin(t) * r * 1.2;
      var y := m.cos(t) * r * 1.2;
      var z := (rnd(i) - 0.5) * 1.5;
      positions := positions + [Vec3(x, y, z)];
    }
  }

  /** `(r cosθ sinφ)² + (r sinθ sinφ)² + (r cosφ)² = r²` when both angles obey `sin² + cos² = 1`. */
  lemma SphericalNorm(r: real, ct: real, st: real, cp: real, sp: real)
    requires ct * ct + st * st == 1.0 && cp * cp + sp * sp == 1.0
    ensures (r * ct * sp) * (r * ct * sp) + (r * st * sp) * (r * st * sp) + (r * cp) * (r * cp) == r * r
  {
    calc {
      (r * ct * sp) * (r * ct * sp) + (r * st * sp) * (r * st * sp) + (r * cp) * (r * cp);
      (r * r) * (sp * sp) * (ct * ct + st * st) + (r * r) * (cp * cp);
      (r * r) * (sp * sp + cp * cp);
      r * r;
    }
  }

  /** `(c r)² + (s r)² = r²` when `c² + s² = 1`. */
  lemma CircularNorm(r: real, c: real, s: real)
    requires c * c + s * s == 1.0
    ensures (c * r) * (c * r) + (s * r) * (s * r) == r * r
  {
    calc {
      (c * r) * (c * r) + (s * r) * (s * r);
      (c * c + s * s) * (r * r);
      r * r;
    }
  }

  /** Squaring is strictly increasing on the non-negative reals. */
  lemma SquareMonotonic(a: real, b: real)
    requires 0.0 <= a < b
    ensures a * a < b * b
  {
    calc {
      a * a;
    <= a * b;
    <  { assert b * b - a * b == (b - a) * b; }
      b * b;
    }
  }

  /** Every Fibonacci-sphere point lies on the sphere of its radius. */
  lemma FibonacciPointOnSphere(i: nat, n: nat, radius: real, m: Math)
    requires i < n
    requires Pythagorean(m)
    ensures Norm2(FibonacciPoint(i, n, radius, m)) == radius * radius
  {
    var phi := FibonacciPhi(i, n, m);
    var theta := FibonacciTheta(n, phi, m);
    SphericalNorm(radius, m.cos(theta), m.sin(theta), m.cos(phi), m.sin(phi));
  }

  /** The sphere template lies on the sphere of radius 2.5. */
  lemma SphereRadius(count: nat, i: nat, m: Math, rnd: nat -> real)
    requires i < count
    requires Pythagorean(m)
    ensures Norm2(TemplatePoint(Sphere, count, i, m, rnd)) == 6.25
  {
    FibonacciPointOnSphere(i, count, 2.5, m);
  }

  /** Each firework point lies at a random radius in `[2, 4)`. */
  lemma FireworkRadius(count: nat, i: nat, m: Math, rnd: nat -> real)
    requires i < count
    requires Pythagorean(m) && UnitDraws(rnd)
    ensures 4.0 <= Norm2(TemplatePoint(Firework, count, i, m, rnd)) < 16.0
  {
    var radius := 2.0 + rnd(i) * 2.0;
    FibonacciPointOnSphere(i, count, radius, m);
    assert 2.0 <= radius < 4.0;
    ShellSquare(radius);
  }

  /** A radius in `[2, 4)` has its square in `[4, 16)`. */
  lemma ShellSquare(r: real)
    requires 2.0 <= r < 4.0
    ensures 4.0 <= r * r < 16.0
  {
    MulLeft(r, 2.0, r);
    MulPositive(r, 4.0 - r);
    assert 4.0 * r - r * r == r * (4.0 - r);
  }

  /** A ring point lies at horizontal radius in `[2.75, 3.25)` and height in `[-0.1, 0.1)`. */
  lemma RingPointInBand(i: nat, ring: nat, m: Math, radiusDraw: real, heightDraw: real)
    requires i < ring
    requires Pythagorean(m)
    requires 0.0 <= radiusDraw < 1.0 && 0.0 <= heightDraw < 1.0
    ensures var p := RingPoint(i, ring, m, radiusDraw, heightDraw);
      7.5625 <= p.x * p.x + p.z * p.z < 10.5625 && -0.1 <= p.y < 0.1
  {
    var p := RingPoint(i, ring, m, radiusDraw, heightDraw);
    var angle := (i as real / ring as real) * PI * 2.0;
    var radius := 3.0 + (radiusDraw - 0.5) * 0.5;
    var c, s := m.cos(angle), m.sin(angle);
    assert p.x == c * radius && p.z == s * radius;
    CircularNorm(radius, c, s);
    assert p.x * p.x + p.z * p.z == radius * radius;
    assert 2.75 <= radius < 3.25;
    assert 7.5625 <= radius * radius < 10.5625 by {
      MulLeft(radius, 2.75, radius);
      MulPositive(radius, 3.25 - radius);
      assert 3.25 * radius - radius * radius == radius * (3.25 - radius);
    }
    assert p.y == (heightDraw - 0.5) * 0.2;
    assert 7.5625 <= p.x * p.x + p.z * p.z < 10.5625;
  }

  /**
    Saturn lists its ring first: each of the first `RingCount(count)` points lies in
    the ring band (horizontal radius in `[2.75, 3.25)`, height in `[-0.1, 0.1)`).
   */
  lemma SaturnRingFirst(count: nat, i: nat, m: Math, rnd: nat -> real)
    requires i < RingCount(count)
    requires Pythagorean(m) && UnitDraws(rnd)
    ensures var p := TemplatePoint(Saturn, count, i, m, rnd);
      7.5625 <= p.x * p.x + p.z * p.z < 10.5625 && -0.1 <= p.y < 0.1
  {
    RingPointInBand(i, RingCount(count), m, rnd(2 * i), rnd(2 * i + 1));
  }

  /** ... and every point after the ring lies on the planet sphere of radius 1.5. */
  lemma SaturnSphereAfter(count: nat, i: nat, m: Math, rnd: nat -> real)
    requires RingCount(count) <= i < count
    requires Pythagorean(m)
    ensures Norm2(TemplatePoint(Saturn, count, i, m, rnd)) == 2.25
  {
    var ring := RingCount(count);
    FibonacciPointOnSphere(i - ring, count - ring, 1.5, m);
  }

  /** Star points alternate between radius 3 (even index) and radius 1.5 (odd index) in the xy-plane. */
  lemma StarAlternatingRadius(count: nat, i: nat, m: Math, rnd: nat -> real)
    requires i < count
    requires Pythagorean(m)
    ensures var p := TemplatePoint(Star, count, i, m, rnd);
      p.x * p.x + p.y * p.y == (if i % 2 == 0 then 9.0 else 2.25)
  {
    var t := (i as real / count as real) * PI * 2.0;
    CircularNorm(StarRadius(i), m.cos(t * 5.0), m.sin(t * 5.0));
  }

  /** The spiral point of parameter `t` sits at height `0.2 t - 3` and horizontal radius `0.15 t`. */
  lemma SpiralPointShape(i: nat, count: nat, m: Math)
    requires i < count
    requires Pythagorean(m)
    ensures var t := (i as real / count as real) * PI * 8.0;
      var p := SpiralPoint(i, count, m);
      p.y == t * 0.2 - 3.0 && p.x * p.x + p.z * p.z == (t * 0.15) * (t * 0.15)
  {
    var t := (i as real / count as real) * PI * 8.0;
    CircularNorm(t * 0.15, m.cos(t), m.sin(t));
  }

  /** Spiral height and horizontal radius both grow strictly with the index. */
  lemma SpiralGrows(count: nat, i: nat, j: nat, m: Math, rnd: nat -> real)
    requires i < j < count
    requires Pythagorean(m)
    ensures var p := TemplatePoint(Spiral, count, i, m, rnd);
      var q := TemplatePoint(Spiral, count, j, m, rnd);
      p.y < q.y && p.x * p.x + p.z * p.z < q.x * q.x + q.z * q.z
  {
    SpiralPointShape(i, count, m);
    SpiralPointShape(j, count, m);
    var ti := (i as real / count as real) * PI * 8.0;
    var tj := (j as real / count as real) * PI * 8.0;
    assert i as real / count as real < j as real / count as real by {
      assert j as real / count as real - i as real / count as real == (j - i) as real / count as real;
    }
    assert 0.0 <= ti < tj;
    SquareMonotonic(ti * 0.15, tj * 0.15);
  }
}
