/** The particle store: dot records, the count the viewport area calls for,
    and how the store is brought to that count. */
module Particles {
  import opened Basics

  /** One particle. Particles have no identity beyond their index. */
  datatype Dot = Dot(x: real, y: real, vx: real, vy: real, size: real, targetSize: real)

  /** The four random draws that place a new dot, in the order they are drawn. */
  datatype SpawnDraw = SpawnDraw(x: Unit, y: Unit, vx: Unit, vy: Unit)

  predicate InBounds(d: Dot, width: real, height: real) {
    0.0 <= d.x <= width && 0.0 <= d.y <= height
  }

  /** `b` differs from `a` at most in its velocity. */
  predicate OnlyVelocityDiffers(a: Dot, b: Dot) {
    a.x == b.x && a.y == b.y && a.size == b.size && a.targetSize == b.targetSize
  }

  /** Same number of dots, and dot by dot at most the velocities differ. */
  predicate SamePlacement(a: seq<Dot>, b: seq<Dot>) {
    |a| == |b| && forall k :: 0 <= k < |a| ==> OnlyVelocityDiffers(a[k], b[k])
  }

  /** The number of dots a `width` x `height` surface holds: the floor of the
      area divided by the density. */
  function TargetCount(width: nat, height: nat, density: real): (n: nat)
    requires 0.0 < density
    ensures n as real <= (width * height) as real / density < n as real + 1.0
  {
    ((width * height) as real / density).Floor
  }

  /** A zero-area surface holds no dots; a surface that holds any has area. */
  lemma TargetCountZeroIffNoRoom(width: nat, height: nat, density: real)
    requires 0.0 < density
    ensures TargetCount(width, height, density) == 0 <==> (width * height) as real < density
  {
    DivBelowOne((width * height) as real, density);
  }

  lemma TargetCountPositiveArea(width: nat, height: nat, density: real)
    requires 0.0 < density
    ensures 0 < TargetCount(width, height, density) ==> 0 < width && 0 < height
  {
    if width == 0 || height == 0 {
      assert width * height == 0;
    }
  }

  /** A larger surface never holds fewer dots. */
  lemma TargetCountMonotone(w1: nat, h1: nat, w2: nat, h2: nat, density: real)
    requires 0.0 < density
    requires w1 * h1 <= w2 * h2
    ensures TargetCount(w1, h1, density) <= TargetCount(w2, h2, density)
  {
    var a1 := (w1 * h1) as real;
    var a2 := (w2 * h2) as real;
    DivMono(a1, a2, density);
  }

  /** An 800 x 600 surface at density 6000 holds 80 dots. */
  lemma TargetCountDesktopExample()
    ensures TargetCount(800, 600, 6000.0) == 80
  {
    assert (800 * 600) as real / 6000.0 == 80.0;
  }

  /** `Math.random() * extent`: a uniform coordinate on [0, extent). */
  function Uniform(u: Unit, extent: real): (v: real)
    ensures 0.0 < extent ==> 0.0 <= v < extent
    ensures extent == 0.0 ==> v == 0.0
  {
    if 0.0 < extent then
      MulMono(0.0, u, extent);
      MulMonoStrict(u, 1.0, extent);
      u * extent
    else
      u * extent
  }

  /** `(Math.random() - 0.5) * scale`: a uniform kick on [-scale/2, scale/2). */
  function Centered(u: Unit, scale: real): (v: real)
    ensures 0.0 <= scale ==> -scale / 2.0 <= v <= scale / 2.0
    ensures 0.0 < scale ==> v < scale / 2.0
  {
    if 0.0 <= scale then
      MulMono(-0.5, u - 0.5, scale);
      MulMono(u - 0.5, 0.5, scale);
      if 0.0 < scale then
        MulMonoStrict(u - 0.5, 0.5, scale);
        (u - 0.5) * scale
      else
        (u - 0.5) * scale
    else
      (u - 0.5) * scale
  }

  /** A newly created dot: uniform position on the surface, velocity uniform in
      [-speed/2, speed/2) per axis, at rest size. */
  function SpawnDot(r: SpawnDraw, width: real, height: real, speed: real, dotSize: real): (d: Dot)
    ensures 0.0 < width ==> 0.0 <= d.x < width
    ensures 0.0 < height ==> 0.0 <= d.y < height
    ensures 0.0 < speed ==> -speed / 2.0 <= d.vx < speed / 2.0 && -speed / 2.0 <= d.vy < speed / 2.0
    ensures d.size == dotSize && d.targetSize == dotSize
  {
    Dot(Uniform(r.x, width), Uniform(r.y, height),
      Centered(r.vx, speed), Centered(r.vy, speed), dotSize, dotSize)
  }

  /** The dots created from a run of draws, one per draw, in draw order: all
      on the surface, with velocities in [-speed/2, speed/2) and at rest size. */
  function Spawned(draws: seq<SpawnDraw>, width: real, height: real, speed: real, dotSize: real): (r: seq<Dot>)
    ensures |r| == |draws|
    ensures forall k :: 0 <= k < |r| ==> r[k] == SpawnDot(draws[k], width, height, speed, dotSize)
    ensures forall k :: 0 <= k < |r| ==> r[k].size == dotSize && r[k].targetSize == dotSize
    ensures 0.0 < width && 0.0 < height ==>
      forall k :: 0 <= k < |r| ==> 0.0 <= r[k].x < width && 0.0 <= r[k].y < height
    ensures 0.0 < speed ==>
      forall k :: 0 <= k < |r| ==> -speed / 2.0 <= r[k].vx < speed / 2.0 && -speed / 2.0 <= r[k].vy < speed / 2.0
  {
    seq(|draws|, k requires 0 <= k < |draws| => SpawnDot(draws[k], width, height, speed, dotSize))
  }

  /** The store brought to `n` dots: new dots are appended after the existing
      ones while it is short, and the tail is dropped when it is long. */
  function Retarget(ds: seq<Dot>, n: nat, draws: seq<SpawnDraw>,
                    width: real, height: real, speed: real, dotSize: real): (r: seq<Dot>)
    requires |ds| < n ==> n - |ds| <= |draws|
    ensures |r| == n
    ensures forall k :: 0 <= k < |ds| && k < n ==> r[k] == ds[k]
  {
    if |ds| < n then ds + Spawned(draws[..n - |ds|], width, height, speed, dotSize)
    else ds[..n]
  }

  /** Shrinking or keeping the count leaves exactly the first `n` dots. */
  lemma RetargetTruncates(ds: seq<Dot>, n: nat, draws: seq<SpawnDraw>,
                          width: real, height: real, speed: real, dotSize: real)
    requires n <= |ds|
    ensures Retarget(ds, n, draws, width, height, speed, dotSize) == ds[..n]
    ensures n == |ds| ==> Retarget(ds, n, draws, width, height, speed, dotSize) == ds
  {
  }

  /** Growing appends the next dots of the random stream, and when `n` is the
      surface's own count every appended dot lies on the surface. */
  lemma RetargetAppends(ds: seq<Dot>, n: nat, draws: seq<SpawnDraw>,
                        width: nat, height: nat, density: real, speed: real, dotSize: real)
    requires 0.0 < density && 0.0 <= speed
    requires n == TargetCount(width, height, density)
    requires |ds| < n && n - |ds| <= |draws|
    ensures var r := Retarget(ds, n, draws, width as real, height as real, speed, dotSize);
      forall k :: |ds| <= k < n ==>
        r[k] == SpawnDot(draws[k - |ds|], width as real, height as real, speed, dotSize) &&
        0.0 <= r[k].x < width as real && 0.0 <= r[k].y < height as real &&
        -speed / 2.0 <= r[k].vx <= speed / 2.0 && -speed / 2.0 <= r[k].vy <= speed / 2.0 &&
        (0.0 < speed ==> r[k].vx < speed / 2.0 && r[k].vy < speed / 2.0) &&
        r[k].size == dotSize && r[k].targetSize == dotSize
  {
    TargetCountPositiveArea(width, height, density);
    var r := Retarget(ds, n, draws, width as real, height as real, speed, dotSize);
    forall k | |ds| <= k < n
      ensures r[k] == SpawnDot(draws[k - |ds|], width as real, height as real, speed, dotSize)
      ensures 0.0 <= r[k].x < width as real && 0.0 <= r[k].y < height as real
      ensures -speed / 2.0 <= r[k].vx <= speed / 2.0 && -speed / 2.0 <= r[k].vy <= speed / 2.0
      ensures 0.0 < speed ==> r[k].vx < speed / 2.0 && r[k].vy < speed / 2.0
      ensures r[k].size == dotSize && r[k].targetSize == dotSize
    {
    }
  }
}
