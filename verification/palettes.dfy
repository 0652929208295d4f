/**
  Colour palettes and the index arithmetic of the per-frame colour update: each
  particle's colour fades between two neighbouring anchors of the active palette,
  and the band drifts across the population as time advances.
 */
module Palettes {

  datatype Palette = Rainbow | Sunset | Ocean | Forest | Fire | Neon

  /** The palettes in declaration order, which is the order the `c` key cycles through. */
  const PaletteOrder: seq<Palette> := [Rainbow, Sunset, Ocean, Forest, Fire, Neon]

  /** `palettes.length`, the length of `PaletteOrder`. */
  const PaletteCount := 6

  /** The anchor colours of a palette, as 24-bit RGB hex values. */
  function PaletteColors(p: Palette): (colors: seq<int>)
    ensures |colors| == if p == Rainbow then 6 else 4
    ensures forall c :: c in colors ==> 0 <= c < 0x100_0000
  {
    match p
    case Rainbow => [0xff0000, 0xff7f00, 0xffff00, 0x00ff00, 0x0000ff, 0x8b00ff]
    case Sunset => [0xff6b6b, 0xfeca57, 0xff9ff3, 0xf368e0]
    case Ocean => [0x00d2d3, 0x54a0ff, 0x5f27cd, 0x341f97]
    case Forest => [0x00b894, 0x55efc4, 0x81ecec, 0x00cec9]
    case Fire => [0xff4757, 0xff6348, 0xffa502, 0xfffa65]
    case Neon => [0x00ff87, 0x60efff, 0xff00c3, 0xfff200]
  }

  /** `palettes.indexOf(p)`: the position of `p` in `PaletteOrder`. */
  function PaletteIndex(p: Palette): (k: nat)
    ensures k < PaletteCount && PaletteOrder[k] == p
  {
    match p
    case Rainbow => 0
    case Sunset => 1
    case Ocean => 2
    case Forest => 3
    case Fire => 4
    case Neon => 5
  }

  /** The palette after one press of `c`: the next one in `PaletteOrder`, the last wrapping to the first. */
  function NextPalette(p: Palette): (q: Palette)
    ensures PaletteIndex(q) == (PaletteIndex(p) + 1) % PaletteCount
  {
    match p
    case Rainbow => Sunset
    case Sunset => Ocean
    case Ocean => Forest
    case Forest => Fire
    case Fire => Neon
    case Neon => Rainbow
  }

  /** The palette after `k` presses of `c`. */
  function PaletteAfter(p: Palette, k: nat): Palette {
    if k == 0 then p else NextPalette(PaletteAfter(p, k - 1))
  }

  /** `k` presses of `c` advance the palette index by `k` modulo the number of palettes. */
  lemma {:induction false} PaletteAfterIndex(p: Palette, k: nat)
    ensures PaletteIndex(PaletteAfter(p, k)) == (PaletteIndex(p) + k) % PaletteCount
  {
    if k > 0 {
      PaletteAfterIndex(p, k - 1);
      NextPaletteStep(PaletteAfter(p, k - 1), PaletteIndex(p) + k - 1);
    }
  }

  /** If `a` counts the presses that led to `q`, one more press is counted by `a + 1`. */
  lemma NextPaletteStep(q: Palette, a: nat)
    requires PaletteIndex(q) == a % PaletteCount
    ensures PaletteIndex(NextPalette(q)) == (a + 1) % PaletteCount
  {
    ModAddOne(a, PaletteCount);
  }

  /** Pressing `c` visits all six palettes before coming back to the first. */
  lemma PaletteCycle(p: Palette, k: nat)
    requires 0 < k < PaletteCount
    ensures PaletteAfter(p, k) != p
    ensures PaletteAfter(p, PaletteCount) == p
  {
    var i := PaletteIndex(p);
    PaletteAfterIndex(p, k);
    ShiftWithinCycle(i, k);
    assert PaletteIndex(PaletteAfter(p, k)) != PaletteIndex(p);
    PaletteAfterIndex(p, PaletteCount);
    var q := PaletteAfter(p, PaletteCount);
    assert PaletteIndex(q) == i;
    assert q == PaletteOrder[PaletteIndex(q)];
  }

  /** Shifting an index of the six-palette cycle by one to five moves it; by six, does not. */
  lemma ShiftWithinCycle(i: nat, k: nat)
    requires i < PaletteCount && 0 < k < PaletteCount
    ensures (i + k) % PaletteCount != i
    ensures (i + PaletteCount) % PaletteCount == i
  {
    if i + k < 6 {
      DivModUnique(i + k, 6, 0, i + k);
    } else {
      DivModUnique(i + k, 6, 1, i + k - 6);
    }
    DivModUnique(i + 6, 6, 1, i);
  }

  /** A non-zero integer multiple of `n` is at least `n` away from zero. */
  lemma MultipleAwayFromZero(d: int, n: int)
    requires 0 < n
    ensures d >= 1 ==> d * n >= n
    ensures d <= -1 ==> d * n <= -n
  {
    if d >= 1 {
      assert d * n - n == (d - 1) * n;
    } else if d <= -1 {
      assert d * n + n == (d + 1) * n;
    }
  }

  /** Quotient and remainder are the only ones: `a == q n + r` with `0 <= r < n` fixes both. */
  lemma DivModUnique(a: int, n: int, q: int, r: int)
    requires 0 < n && a == q * n + r && 0 <= r < n
    ensures a / n == q && a % n == r
  {
    var q', r' := a / n, a % n;
    assert (q - q') * n == r' - r;
    MultipleAwayFromZero(q - q', n);
  }

  /** Taking the remainder before adding one does not change the next remainder. */
  lemma ModAddOne(a: int, n: int)
    requires 0 <= a && 0 < n
    ensures (a % n + 1) % n == (a + 1) % n
  {
    var q, r := a / n, a % n;
    if r + 1 < n {
      DivModUnique(a + 1, n, q, r + 1);
      DivModUnique(r + 1, n, 0, r + 1);
    } else {
      assert (q + 1) * n == q * n + n;
      DivModUnique(a + 1, n, q + 1, 0);
      DivModUnique(r + 1, n, 1, 0);
    }
  }

  /** Adding the modulus does not change the remainder. */
  lemma ModAddModulus(a: int, n: int)
    requires 0 < n
    ensures (a + n) % n == a % n
  {
    assert (a / n + 1) * n == (a / n) * n + n;
    DivModUnique(a + n, n, a / n + 1, a % n);
  }

  /** JavaScript's `%` on integers: the remainder takes the sign of the dividend. */
  function JsRem(a: int, b: int): (r: int)
    requires b > 0
    ensures -b < r < b
    ensures 0 <= a ==> 0 <= r && r == a % b
    ensures a <= 0 ==> r <= 0
    ensures (a - r) % b == 0
  {
    DivModUnique(a - (if a >= 0 then a % b else -((-a) % b)), b,
                 if a >= 0 then a / b else -((-a) / b), 0);
    if a >= 0 then a % b else -((-a) % b)
  }

  /** JavaScript's `x % 1` on numbers: `x` minus `x` truncated toward zero. */
  function JsRemOne(x: real): (r: real)
    ensures 0.0 <= x ==> 0.0 <= r < 1.0
    ensures x <= 0.0 ==> -1.0 < r <= 0.0
    ensures (x - r).Floor as real == x - r
  {
    if x >= 0.0 then
      var n := x.Floor;
      IntegerFloor(n);
      x - n as real
    else
      var n := (-x).Floor;
      IntegerFloor(-n);
      x + n as real
  }

  /** A whole number is its own floor. */
  lemma IntegerFloor(n: int)
    ensures (n as real).Floor == n
  {
  }

  /** The anchor a particle starts from, the anchor it fades to, and how far it is between them. */
  datatype Segment = Segment(colorIndex: int, nextIndex: int, weight: real)

  /** The position `(i / count + time * 0.1) * len` of particle `i` along the palette. */
  function PalettePosition(i: nat, count: nat, time: real, len: nat): real
    requires i < count
  {
    (i as real / count as real + time * 0.1) * len as real
  }

  /** The palette segment of particle `i` of `count` at `time`, for a palette of `len` anchors. */
  function ColorSegment(i: nat, count: nat, time: real, len: nat): (s: Segment)
    requires i < count && 0 < len
    ensures var u := PalettePosition(i, count, time, len);
      && -(len as int) < s.colorIndex < len && (u.Floor - s.colorIndex) % len == 0
      && -(len as int) < s.nextIndex < len && (s.colorIndex + 1 - s.nextIndex) % len == 0
      && -1.0 < s.weight < 1.0 && (u - s.weight).Floor as real == u - s.weight
  {
    var u := PalettePosition(i, count, time, len);
    var colorIndex := JsRem(u.Floor, len);
    Segment(colorIndex, JsRem(colorIndex + 1, len), JsRemOne(u))
  }

  /**
    For a non-negative time both anchor indices lie in the palette, the next anchor
    is the following one cyclically, and the weight is the fractional part of the
    palette position.
   */
  lemma ColorSegmentInRange(i: nat, count: nat, time: real, len: nat)
    requires i < count && 0 < len && 0.0 <= time
    ensures var s := ColorSegment(i, count, time, len);
      var u := PalettePosition(i, count, time, len);
      && 0 <= s.colorIndex < len && s.colorIndex == u.Floor % len
      && 0 <= s.nextIndex < len && s.nextIndex == (s.colorIndex + 1) % len
      && 0.0 <= s.weight < 1.0 && u == u.Floor as real + s.weight
  {
    var u := PalettePosition(i, count, time, len);
    assert 0.0 <= i as real / count as real;
    assert 0.0 <= u;
  }

  /** The colour band repeats every 10 seconds: `time * 0.1` then moves the position by a whole palette. */
  lemma ColorSegmentPeriodic(i: nat, count: nat, time: real, len: nat)
    requires i < count && 0 < len && 0.0 <= time
    ensures ColorSegment(i, count, time + 10.0, len) == ColorSegment(i, count, time, len)
  {
    var a := i as real / count as real + time * 0.1;
    var u := PalettePosition(i, count, time, len);
    var u' := PalettePosition(i, count, time + 10.0, len);
    calc {
      u';
      (a + 1.0) * len as real;
      a * len as real + len as real;
      u + len as real;
    }
    assert u'.Floor == u.Floor + len;
    ColorSegmentInRange(i, count, time, len);
    ColorSegmentInRange(i, count, time + 10.0, len);
    ModAddModulus(u.Floor, len);
  }

  /**
    Neighbouring segments chain up: when the palette position crosses into the next
    whole unit, the new segment starts from the anchor the old one was fading to.
   */
  lemma SegmentsChain(i: nat, count: nat, t1: real, t2: real, len: nat)
    requires i < count && 0 < len && 0.0 <= t1 && 0.0 <= t2
    requires PalettePosition(i, count, t2, len).Floor == PalettePosition(i, count, t1, len).Floor + 1
    ensures ColorSegment(i, count, t2, len).colorIndex == ColorSegment(i, count, t1, len).nextIndex
    ensures ColorSegment(i, count, t2, len).weight == PalettePosition(i, count, t2, len) - PalettePosition(i, count, t2, len).Floor as real
  {
    ColorSegmentInRange(i, count, t1, len);
    ColorSegmentInRange(i, count, t2, len);
    ModAddOne(PalettePosition(i, count, t1, len).Floor, len);
  }

  /**
    The colour a particle is given: the hex values of its two anchors and the
    interpolation weight between them (`THREE.Color` and `lerp` are not modelled).
   */
  datatype Blend = Blend(from: int, to: int, weight: real)

  function PaletteBlend(p: Palette, i: nat, count: nat, time: real): (b: Blend)
    requires i < count && 0.0 <= time
    ensures var colors := PaletteColors(p);
      var s := ColorSegment(i, count, time, |colors|);
      && 0 <= s.colorIndex < |colors| && 0 <= s.nextIndex < |colors|
      && b == Blend(colors[s.colorIndex], colors[s.nextIndex], s.weight)
      && 0.0 <= b.weight < 1.0
  {
    var colors := PaletteColors(p);
    ColorSegmentInRange(i, count, time, |colors|);
    var s := ColorSegment(i, count, time, |colors|);
    Blend(colors[s.colorIndex], colors[s.nextIndex], s.weight)
  }
}
