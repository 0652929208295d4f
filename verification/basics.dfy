/**
  Shared vocabulary of the particle model: JavaScript's `Math` object with its
  transcendental functions left abstract, integer powers, the stream of
  `Math.random()` draws, optional values and 3D vectors.
 */
module Basics {

  datatype Option<T> = None | Some(value: T)

  /** JavaScript's `Math.PI`, written as the shortest decimal of the double. */
  const PI: real := 3.141592653589793

  /**
    The functions of JavaScript's `Math` object that the program calls and whose
    values the model does not compute. Every operation that needs them takes one
    `Math` value; a property that depends on a law of these functions states that
    law as a precondition (`SinCosBounded`, `Pythagorean`, `SqrtIsRoot`).
   */
  datatype Math = Math(
    sin: real -> real,
    cos: real -> real,
    sqrt: real -> real,
    exp: real -> real,
    acos: real -> real)

  /** `-1 <= sin x <= 1` and `-1 <= cos x <= 1` for every `x`. */
  ghost predicate SinCosBounded(m: Math) {
    forall x :: -1.0 <= m.sin(x) <= 1.0 && -1.0 <= m.cos(x) <= 1.0
  }

  /** `sin² x + cos² x = 1` for every `x`. */
  ghost predicate Pythagorean(m: Math) {
    forall x :: m.sin(x) * m.sin(x) + m.cos(x) * m.cos(x) == 1.0
  }

  /** `sqrt` is the non-negative square root on the non-negative reals. */
  ghost predicate SqrtIsRoot(m: Math) {
    forall x :: 0.0 <= x ==> 0.0 <= m.sqrt(x) && m.sqrt(x) * m.sqrt(x) == x
  }

  /**
    The `k`-th value returned by `Math.random()`; every draw lies in `[0, 1)`.
    The model indexes the draws per particle rather than consuming one stream,
    which loses nothing since the draws are arbitrary.
   */
  ghost predicate UnitDraws(rnd: nat -> real) {
    forall k :: 0.0 <= rnd(k) < 1.0
  }

  /** `Math.pow(x, n)` for a natural exponent `n`. */
  function Pow(x: real, n: nat): real {
    if n == 0 then 1.0 else x * Pow(x, n - 1)
  }

  /** `Math.pow(x, 2)` is the non-negative square `x * x`. */
  lemma PowTwo(x: real)
    ensures Pow(x, 2) == x * x
    ensures Pow(x, 2) >= 0.0
  {
    assert Pow(x, 1) == x;
    if x < 0.0 {
      assert x * x == (-x) * (-x);
    }
  }

  /** `a b <= a c` for `a >= 0` and `b <= c`. */
  lemma MulLeft(a: real, b: real, c: real)
    requires 0.0 <= a && b <= c
    ensures a * b <= a * c
  {
    assert a * c - a * b == a * (c - b);
  }

  /** A product of positive numbers is positive. */
  lemma MulPositive(a: real, b: real)
    requires 0.0 < a && 0.0 < b
    ensures 0.0 < a * b
  {
  }

  /** A point or vector of `THREE.Vector3`, or three consecutive slots of a `Float32Array`. */
  datatype Vec3 = Vec3(x: real, y: real, z: real)

  function Add(a: Vec3, b: Vec3): Vec3 {
    Vec3(a.x + b.x, a.y + b.y, a.z + b.z)
  }

  function Scale(k: real, a: Vec3): Vec3 {
    Vec3(k * a.x, k * a.y, k * a.z)
  }

  /** Squared Euclidean length. */
  function Norm2(v: Vec3): real {
    v.x * v.x + v.y * v.y + v.z * v.z
  }

  /** The three draws `rnd(k)`, `rnd(k + 1)`, `rnd(k + 2)` as one vector. */
  function Draw3(rnd: nat -> real, k: nat): Vec3 {
    Vec3(rnd(k), rnd(k + 1), rnd(k + 2))
  }
}
