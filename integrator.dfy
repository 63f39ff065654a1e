/** The integrator: what one animation frame does to the dots, and what a
    click does to them. Every step is a function on values; the engine's
    methods apply them in place. */
module Integrator {
  import opened Basics
  import opened Config
  import opened Particles
  import opened Input

  /** The two random draws that make one dot wander in one frame. */
  datatype WanderDraw = WanderDraw(x: Unit, y: Unit)

  // ---------------------------------------------------------------------------
  // Force-law arithmetic, one product each

  /** `v * friction`: a friction factor in [0, 1] never speeds a dot up. */
  function Damp(v: real, friction: real): (r: real)
    ensures 0.0 <= friction <= 1.0 ==> Abs(r) <= Abs(v)
    ensures 0.0 <= friction ==> (0.0 <= v ==> 0.0 <= r) && (v <= 0.0 ==> r <= 0.0)
  {
    DampBounds(v, friction);
    v * friction
  }

  lemma DampBounds(v: real, friction: real)
    ensures 0.0 <= friction <= 1.0 ==> Abs(v * friction) <= Abs(v)
    ensures 0.0 <= friction ==> (0.0 <= v ==> 0.0 <= v * friction) && (v <= 0.0 ==> v * friction <= 0.0)
  {
    if 0.0 <= friction {
      if 0.0 <= v {
        MulMono(0.0, friction, v);
        if friction <= 1.0 {
          MulMono(friction, 1.0, v);
        }
      } else {
        MulMono(0.0, friction, -v);
        if friction <= 1.0 {
          MulMono(friction, 1.0, -v);
        }
        assert v * friction == -((-v) * friction);
      }
    }
  }

  /** `depth * strength / radius`: the edge cushion's push for a penetration
      `depth` into the margin; it points inward whenever the cushion is set up
      with a positive radius and a non-negative strength. */
  function EdgePush(depth: real, strength: real, radius: real): (p: real)
    requires radius != 0.0
    ensures 0.0 <= depth && 0.0 <= strength && 0.0 < radius ==> 0.0 <= p
  {
    if 0.0 <= depth && 0.0 <= strength && 0.0 < radius then
      MulMono(0.0, depth, strength);
      DivMono(0.0, depth * strength, radius);
      depth * strength / radius
    else
      depth * strength / radius
  }

  /** `(delta / dist) * force * strength`: one axis of a radial impulse. It has
      the sign of `delta` when the force and the strength are non-negative. */
  function Impulse(delta: real, dist: real, force: real, strength: real): (v: real)
    requires 0.0 < dist
    ensures 0.0 < force && 0.0 <= strength ==>
      (0.0 <= delta ==> 0.0 <= v) && (delta <= 0.0 ==> v <= 0.0)
  {
    if 0.0 < force && 0.0 <= strength then
      ImpulseSign(delta, dist, force, strength);
      (delta / dist) * force * strength
    else
      (delta / dist) * force * strength
  }

  /** `dotSize * (1 + force * 1.5)`: the pulse size of a dot near the pointer,
      between the rest size and two and a half times it. */
  function PulseSize(dotSize: real, force: real): (s: real)
    ensures 0.0 < dotSize && 0.0 < force < 1.0 ==> dotSize < s < 2.5 * dotSize
  {
    if 0.0 < dotSize && 0.0 < force < 1.0 then
      MulMonoStrict(1.0, 1.0 + force * 1.5, dotSize);
      MulMonoStrict(1.0 + force * 1.5, 2.5, dotSize);
      dotSize * (1.0 + force * 1.5)
    else
      dotSize * (1.0 + force * 1.5)
  }

  // ---------------------------------------------------------------------------
  // Per-dot steps of a frame, in the order the frame applies them

  /** Step 1, wander: a random kick on each velocity axis. */
  function WanderStep(d: Dot, w: WanderDraw, strength: real): (r: Dot)
    ensures OnlyVelocityDiffers(d, r)
    ensures 0.0 <= strength ==>
      Abs(r.vx - d.vx) <= strength / 2.0 && Abs(r.vy - d.vy) <= strength / 2.0
  {
    d.(vx := d.vx + Centered(w.x, strength), vy := d.vy + Centered(w.y, strength))
  }

  /** Step 2, move then friction: the position advances by the velocity as it
      was before friction, then friction scales the velocity down. */
  function Integrate(d: Dot, friction: real): (r: Dot)
    ensures r.x == d.x + d.vx && r.y == d.y + d.vy
    ensures r.size == d.size && r.targetSize == d.targetSize
    ensures 0.0 <= friction <= 1.0 ==> Abs(r.vx) <= Abs(d.vx) && Abs(r.vy) <= Abs(d.vy)
  {
    Dot(d.x + d.vx, d.y + d.vy, Damp(d.vx, friction), Damp(d.vy, friction), d.size, d.targetSize)
  }

  /** Step 3, soft edge cushion: inside a margin of `e.radius` along an edge,
      the velocity gets a push back toward the inside that grows linearly with
      the depth. The four edges are tested one after another, so on a surface
      narrower than two margins a dot can get both pushes of an axis. */
  function EdgeRepel(d: Dot, width: real, height: real, e: Reach): (r: Dot)
    requires e.radius != 0.0
    ensures OnlyVelocityDiffers(d, r)
    ensures e.radius <= d.x <= width - e.radius ==> r.vx == d.vx
    ensures e.radius <= d.y <= height - e.radius ==> r.vy == d.vy
    ensures 0.0 < e.radius && 0.0 <= e.strength ==>
      (d.x < e.radius && d.x <= width - e.radius ==> d.vx <= r.vx) &&
      (e.radius <= d.x && width - e.radius < d.x ==> r.vx <= d.vx) &&
      (d.y < e.radius && d.y <= height - e.radius ==> d.vy <= r.vy) &&
      (e.radius <= d.y && height - e.radius < d.y ==> r.vy <= d.vy)
  {
    var edgeR := e.radius;
    var edgeS := e.strength;
    var vx1 := if d.x < edgeR then d.vx + EdgePush(edgeR - d.x, edgeS, edgeR) else d.vx;
    var vx2 := if d.x > width - edgeR then vx1 - EdgePush(d.x - (width - edgeR), edgeS, edgeR) else vx1;
    var vy1 := if d.y < edgeR then d.vy + EdgePush(edgeR - d.y, edgeS, edgeR) else d.vy;
    var vy2 := if d.y > height - edgeR then vy1 - EdgePush(d.y - (height - edgeR), edgeS, edgeR) else vy1;
    d.(vx := vx2, vy := vy2)
  }

  /** Step 4, hard clamp: a dot past an edge is put on the edge and its
      velocity on that axis is reversed and halved. */
  function Clamp(d: Dot, width: real, height: real): (r: Dot)
    requires 0.0 <= width && 0.0 <= height
    ensures InBounds(r, width, height)
    ensures r.size == d.size && r.targetSize == d.targetSize
    ensures 0.0 <= d.x <= width ==> r.x == d.x && r.vx == d.vx
    ensures 0.0 <= d.y <= height ==> r.y == d.y && r.vy == d.vy
    ensures !(0.0 <= d.x <= width) ==> r.vx == -0.5 * d.vx
    ensures !(0.0 <= d.y <= height) ==> r.vy == -0.5 * d.vy
  {
    var x1 := if d.x < 0.0 then 0.0 else d.x;
    var vx1 := if d.x < 0.0 then d.vx * -0.5 else d.vx;
    var x2 := if x1 > width then width else x1;
    var vx2 := if x1 > width then vx1 * -0.5 else vx1;
    var y1 := if d.y < 0.0 then 0.0 else d.y;
    var vy1 := if d.y < 0.0 then d.vy * -0.5 else d.vy;
    var y2 := if y1 > height then height else y1;
    var vy2 := if y1 > height then vy1 * -0.5 else vy1;
    d.(x := x2, y := y2, vx := vx2, vy := vy2)
  }

  /** The pointer pulls a dot when it is present at a distance strictly
      between 0 and the pointer radius. */
  predicate Attracted(d: Dot, mouse: Pointer, radius: real, hypot: (real, real) -> real) {
    mouse.At? && 0.0 < hypot(mouse.x - d.x, mouse.y - d.y) < radius
  }

  /** Step 5, pointer attraction: the target size goes back to the rest size,
      unless the pointer pulls the dot; then the velocity gains an impulse
      toward the pointer and the target size grows with the force. */
  function Attract(d: Dot, mouse: Pointer, m: Reach, dotSize: real, hypot: (real, real) -> real): (r: Dot)
    ensures r.x == d.x && r.y == d.y && r.size == d.size
    ensures !Attracted(d, mouse, m.radius, hypot) ==> r == d.(targetSize := dotSize)
    ensures Attracted(d, mouse, m.radius, hypot) && 0.0 < dotSize ==>
      dotSize < r.targetSize < 2.5 * dotSize
    ensures Attracted(d, mouse, m.radius, hypot) && 0.0 <= m.strength ==>
      (d.x <= mouse.x ==> d.vx <= r.vx) && (mouse.x <= d.x ==> r.vx <= d.vx) &&
      (d.y <= mouse.y ==> d.vy <= r.vy) && (mouse.y <= d.y ==> r.vy <= d.vy)
  {
    if mouse.Absent? then d.(targetSize := dotSize)
    else
      var dx := mouse.x - d.x;
      var dy := mouse.y - d.y;
      var dist := hypot(dx, dy);
      if dist < m.radius && dist > 0.0 then
        var force := Falloff(dist, m.radius);
        d.(vx := d.vx + Impulse(dx, dist, force, m.strength),
           vy := d.vy + Impulse(dy, dist, force, m.strength),
           targetSize := PulseSize(dotSize, force))
      else
        d.(targetSize := dotSize)
  }

  /** Step 6, size easing: the size closes a tenth of its gap to the target. */
  function Ease(d: Dot): (r: Dot)
    ensures r.x == d.x && r.y == d.y && r.vx == d.vx && r.vy == d.vy
    ensures r.targetSize == d.targetSize
    ensures r.targetSize - r.size == 0.9 * (d.targetSize - d.size)
    ensures Min(d.size, d.targetSize) <= r.size <= Max(d.size, d.targetSize)
  {
    d.(size := d.size + (d.targetSize - d.size) * 0.1)
  }

  /** Steps 1 to 6 for one dot. */
  function StepDot(d: Dot, w: WanderDraw, cfg: NetworkConfig, width: real, height: real,
                   mouse: Pointer, hypot: (real, real) -> real): (r: Dot)
    requires cfg.edgeRepulsion.radius != 0.0 && 0.0 <= width && 0.0 <= height
    ensures InBounds(r, width, height)
    ensures mouse.Absent? ==> r.targetSize == cfg.style.dotSize
  {
    var moved := Integrate(WanderStep(d, w, cfg.wander.strength), cfg.friction);
    var kept := Clamp(EdgeRepel(moved, width, height, cfg.edgeRepulsion), width, height);
    Ease(Attract(kept, mouse, cfg.mouse, cfg.style.dotSize, hypot))
  }

  /** The per-dot pass of a frame: every dot takes its own steps 1 to 6. */
  function StepAll(ds: seq<Dot>, draws: seq<WanderDraw>, cfg: NetworkConfig, width: real, height: real,
                   mouse: Pointer, hypot: (real, real) -> real): (r: seq<Dot>)
    requires |draws| == |ds|
    requires cfg.edgeRepulsion.radius != 0.0 && 0.0 <= width && 0.0 <= height
    ensures |r| == |ds|
    ensures forall k :: 0 <= k < |r| ==> InBounds(r[k], width, height)
    ensures mouse.Absent? ==> forall k :: 0 <= k < |r| ==> r[k].targetSize == cfg.style.dotSize
  {
    seq(|ds|, k requires 0 <= k < |ds| => StepDot(ds[k], draws[k], cfg, width, height, mouse, hypot))
  }

  // ---------------------------------------------------------------------------
  // Pairwise repulsion

  /** Two dots interact when they are closer than `radius` and not coincident. */
  predicate Near(a: Dot, b: Dot, radius: real, hypot: (real, real) -> real) {
    0.0 < hypot(a.x - b.x, a.y - b.y) < radius
  }

  /** The velocity change that dot `a` gets from dot `b` (and `b` gets its
      negation): zero unless they are closer than the repulsion radius and not
      coincident, and pointing from `b` toward `a` on each axis. */
  function PairImpulse(a: Dot, b: Dot, bounce: Bounce, hypot: (real, real) -> real): (p: (real, real))
    ensures !Near(a, b, bounce.repulsionRadius, hypot) ==> p == (0.0, 0.0)
    ensures 0.0 <= bounce.repulsionStrength ==>
      (b.x <= a.x ==> 0.0 <= p.0) && (a.x <= b.x ==> p.0 <= 0.0) &&
      (b.y <= a.y ==> 0.0 <= p.1) && (a.y <= b.y ==> p.1 <= 0.0)
  {
    var dx := a.x - b.x;
    var dy := a.y - b.y;
    var dist := hypot(dx, dy);
    if dist < bounce.repulsionRadius && dist > 0.0 then
      var force := Falloff(dist, bounce.repulsionRadius);
      (Impulse(dx, dist, force, bounce.repulsionStrength), Impulse(dy, dist, force, bounce.repulsionStrength))
    else
      (0.0, 0.0)
  }

  /** One pair (i, j), i < j, of the pairwise pass: `i` gains the impulse and
      `j` loses it; no other dot and no position changes. */
  function ApplyPair(ds: seq<Dot>, i: nat, j: nat, bounce: Bounce, hypot: (real, real) -> real): (r: seq<Dot>)
    requires i < j < |ds|
    ensures |r| == |ds|
    ensures !Near(ds[i], ds[j], bounce.repulsionRadius, hypot) ==> r == ds
  {
    var a := ds[i];
    var b := ds[j];
    var p := PairImpulse(a, b, bounce, hypot);
    ds[i := a.(vx := a.vx + p.0, vy := a.vy + p.1)][j := b.(vx := b.vx - p.0, vy := b.vy - p.1)]
  }

  /** What one pair exchanges: velocity only, between `i` and `j` only, and
      what `i` gains `j` loses. */
  lemma ApplyPairExchange(ds: seq<Dot>, i: nat, j: nat, bounce: Bounce, hypot: (real, real) -> real)
    requires i < j < |ds|
    ensures var r := ApplyPair(ds, i, j, bounce, hypot);
      SamePlacement(ds, r) &&
      (forall k :: 0 <= k < |ds| && k != i && k != j ==> r[k] == ds[k]) &&
      r[i].vx - ds[i].vx == ds[j].vx - r[j].vx && r[i].vy - ds[i].vy == ds[j].vy - r[j].vy
  {
  }

  /** The pairs (i, j), (i, j + 1), ..., (i, |ds| - 1), in that order. */
  function RepelRow(ds: seq<Dot>, i: nat, j: nat, bounce: Bounce, hypot: (real, real) -> real): (r: seq<Dot>)
    requires i < j <= |ds|
    ensures |r| == |ds|
    decreases |ds| - j
  {
    if j == |ds| then ds
    else RepelRow(ApplyPair(ds, i, j, bounce, hypot), i, j + 1, bounce, hypot)
  }

  /** A row starts with its first pair. */
  lemma RepelRowStep(ds: seq<Dot>, i: nat, j: nat, bounce: Bounce, hypot: (real, real) -> real)
    requires i < j < |ds|
    ensures RepelRow(ds, i, j, bounce, hypot) == RepelRow(ApplyPair(ds, i, j, bounce, hypot), i, j + 1, bounce, hypot)
  {
  }

  /** Rows i, i + 1, ..., |ds| - 1 of the pairwise pass, in that order. */
  function RepelAll(ds: seq<Dot>, i: nat, bounce: Bounce, hypot: (real, real) -> real): (r: seq<Dot>)
    requires i <= |ds|
    ensures |r| == |ds|
    decreases |ds| - i
  {
    if i == |ds| then ds
    else RepelAll(RepelRow(ds, i, i + 1, bounce, hypot), i + 1, bounce, hypot)
  }

  /** A row of the pairwise pass changes velocities only. */
  lemma {:induction false} RepelRowSamePlacement(ds: seq<Dot>, i: nat, j: nat, bounce: Bounce,
                                                 hypot: (real, real) -> real)
    requires i < j <= |ds|
    ensures SamePlacement(ds, RepelRow(ds, i, j, bounce, hypot))
    decreases |ds| - j
  {
    if j < |ds| {
      var next := ApplyPair(ds, i, j, bounce, hypot);
      ApplyPairExchange(ds, i, j, bounce, hypot);
      RepelRowSamePlacement(next, i, j + 1, bounce, hypot);
      assert RepelRow(ds, i, j, bounce, hypot) == RepelRow(next, i, j + 1, bounce, hypot);
    }
  }

  /** The whole pairwise pass changes velocities only: no dot moves, grows or
      shrinks, and none is added or removed. */
  lemma {:induction false} RepelAllSamePlacement(ds: seq<Dot>, i: nat, bounce: Bounce,
                                                 hypot: (real, real) -> real)
    requires i <= |ds|
    ensures SamePlacement(ds, RepelAll(ds, i, bounce, hypot))
    decreases |ds| - i
  {
    if i < |ds| {
      var row := RepelRow(ds, i, i + 1, bounce, hypot);
      RepelRowSamePlacement(ds, i, i + 1, bounce, hypot);
      RepelAllSamePlacement(row, i + 1, bounce, hypot);
      assert RepelAll(ds, i, bounce, hypot) == RepelAll(row, i + 1, bounce, hypot);
    }
  }

  function Vxs(ds: seq<Dot>): (s: seq<real>)
    ensures |s| == |ds| && forall k :: 0 <= k < |ds| ==> s[k] == ds[k].vx
  {
    seq(|ds|, k requires 0 <= k < |ds| => ds[k].vx)
  }

  function Vys(ds: seq<Dot>): (s: seq<real>)
    ensures |s| == |ds| && forall k :: 0 <= k < |ds| ==> s[k] == ds[k].vy
  {
    seq(|ds|, k requires 0 <= k < |ds| => ds[k].vy)
  }

  /** One pair's exchange leaves the sum of all velocities unchanged. */
  lemma {:induction false} ApplyPairConservesMomentum(ds: seq<Dot>, i: nat, j: nat, bounce: Bounce,
                                                      hypot: (real, real) -> real)
    requires i < j < |ds|
    ensures var r := ApplyPair(ds, i, j, bounce, hypot);
      Sum(Vxs(r)) == Sum(Vxs(ds)) && Sum(Vys(r)) == Sum(Vys(ds))
  {
    var r := ApplyPair(ds, i, j, bounce, hypot);
    var mid := ds[i := r[i]];
    assert r == mid[j := r[j]];
    assert Vxs(mid) == Vxs(ds)[i := r[i].vx];
    assert Vxs(r) == Vxs(mid)[j := r[j].vx];
    SumUpdate(Vxs(ds), i, r[i].vx);
    SumUpdate(Vxs(mid), j, r[j].vx);
    assert Vys(mid) == Vys(ds)[i := r[i].vy];
    assert Vys(r) == Vys(mid)[j := r[j].vy];
    SumUpdate(Vys(ds), i, r[i].vy);
    SumUpdate(Vys(mid), j, r[j].vy);
  }

  lemma {:induction false} RepelRowConservesMomentum(ds: seq<Dot>, i: nat, j: nat, bounce: Bounce,
                                                     hypot: (real, real) -> real)
    requires i < j <= |ds|
    ensures var r := RepelRow(ds, i, j, bounce, hypot);
      Sum(Vxs(r)) == Sum(Vxs(ds)) && Sum(Vys(r)) == Sum(Vys(ds))
    decreases |ds| - j
  {
    if j < |ds| {
      var next := ApplyPair(ds, i, j, bounce, hypot);
      ApplyPairConservesMomentum(ds, i, j, bounce, hypot);
      RepelRowConservesMomentum(next, i, j + 1, bounce, hypot);
      assert RepelRow(ds, i, j, bounce, hypot) == RepelRow(next, i, j + 1, bounce, hypot);
    }
  }

  /** The pairwise pass adds to one dot exactly what it takes from another, so
      the sums of all `vx` and of all `vy` are what they were before it. */
  lemma {:induction false} RepelAllConservesMomentum(ds: seq<Dot>, i: nat, bounce: Bounce,
                                                     hypot: (real, real) -> real)
    requires i <= |ds|
    ensures var r := RepelAll(ds, i, bounce, hypot);
      Sum(Vxs(r)) == Sum(Vxs(ds)) && Sum(Vys(r)) == Sum(Vys(ds))
    decreases |ds| - i
  {
    if i < |ds| {
      var row := RepelRow(ds, i, i + 1, bounce, hypot);
      RepelRowConservesMomentum(ds, i, i + 1, bounce, hypot);
      RepelAllConservesMomentum(row, i + 1, bounce, hypot);
      assert RepelAll(ds, i, bounce, hypot) == RepelAll(row, i + 1, bounce, hypot);
    }
  }

  /** No two dots closer than the repulsion radius (apart from coincident
      ones): the pairwise pass changes nothing. */
  predicate NoNeighbours(ds: seq<Dot>, bounce: Bounce, hypot: (real, real) -> real) {
    forall k, l :: 0 <= k < |ds| && 0 <= l < |ds| && k != l ==>
      !Near(ds[k], ds[l], bounce.repulsionRadius, hypot)
  }

  lemma {:induction false} RepelRowIsolated(ds: seq<Dot>, i: nat, j: nat, bounce: Bounce,
                                            hypot: (real, real) -> real)
    requires i < j <= |ds|
    requires forall l :: j <= l < |ds| ==> !Near(ds[i], ds[l], bounce.repulsionRadius, hypot)
    ensures RepelRow(ds, i, j, bounce, hypot) == ds
    decreases |ds| - j
  {
    if j < |ds| {
      assert ApplyPair(ds, i, j, bounce, hypot) == ds;
      RepelRowIsolated(ds, i, j + 1, bounce, hypot);
    }
  }

  lemma {:induction false} RepelAllIsolated(ds: seq<Dot>, i: nat, bounce: Bounce,
                                            hypot: (real, real) -> real)
    requires i <= |ds|
    requires NoNeighbours(ds, bounce, hypot)
    ensures RepelAll(ds, i, bounce, hypot) == ds
    decreases |ds| - i
  {
    if i < |ds| {
      var row := RepelRow(ds, i, i + 1, bounce, hypot);
      RepelRowIsolated(ds, i, i + 1, bounce, hypot);
      assert row == ds;
      RepelAllIsolated(ds, i + 1, bounce, hypot);
      assert RepelAll(ds, i, bounce, hypot) == RepelAll(row, i + 1, bounce, hypot);
    }
  }

  // ---------------------------------------------------------------------------
  // A whole frame

  /** One frame of physics: the per-dot pass, then the pairwise pass. */
  function Frame(ds: seq<Dot>, draws: seq<WanderDraw>, cfg: NetworkConfig, width: nat, height: nat,
                 mouse: Pointer, hypot: (real, real) -> real): (r: seq<Dot>)
    requires |draws| == |ds| && cfg.edgeRepulsion.radius != 0.0
    ensures |r| == |ds|
    ensures forall k :: 0 <= k < |r| ==> InBounds(r[k], width as real, height as real)
    ensures mouse.Absent? ==> forall k :: 0 <= k < |r| ==> r[k].targetSize == cfg.style.dotSize
  {
    var stepped := StepAll(ds, draws, cfg, width as real, height as real, mouse, hypot);
    RepelAllSamePlacement(stepped, 0, cfg.bounce, hypot);
    RepelAll(stepped, 0, cfg.bounce, hypot)
  }

  /** The pairwise pass of a frame keeps the total velocity of the per-dot pass. */
  lemma FrameMomentum(ds: seq<Dot>, draws: seq<WanderDraw>, cfg: NetworkConfig, width: nat, height: nat,
                      mouse: Pointer, hypot: (real, real) -> real)
    requires |draws| == |ds| && cfg.edgeRepulsion.radius != 0.0
    ensures var stepped := StepAll(ds, draws, cfg, width as real, height as real, mouse, hypot);
      var r := Frame(ds, draws, cfg, width, height, mouse, hypot);
      Sum(Vxs(r)) == Sum(Vxs(stepped)) && Sum(Vys(r)) == Sum(Vys(stepped))
  {
    RepelAllConservesMomentum(StepAll(ds, draws, cfg, width as real, height as real, mouse, hypot), 0, cfg.bounce, hypot);
  }

  // ---------------------------------------------------------------------------
  // Click impulse

  /** The outward push a click at (px, py) gives one dot. Coincident dots are
      skipped, as the other two radial forces skip them. */
  function ClickImpulse(d: Dot, px: real, py: real, click: Reach, hypot: (real, real) -> real): (r: Dot)
    ensures OnlyVelocityDiffers(d, r)
    ensures !(0.0 < hypot(d.x - px, d.y - py) < click.radius) ==> r == d
    ensures 0.0 <= click.strength ==>
      (px <= d.x ==> d.vx <= r.vx) && (d.x <= px ==> r.vx <= d.vx) &&
      (py <= d.y ==> d.vy <= r.vy) && (d.y <= py ==> r.vy <= d.vy)
  {
    var dx := d.x - px;
    var dy := d.y - py;
    var dist := hypot(dx, dy);
    if dist < click.radius && dist > 0.0 then
      var power := Falloff(dist, click.radius);
      d.(vx := d.vx + Impulse(dx, dist, power, click.strength),
         vy := d.vy + Impulse(dy, dist, power, click.strength))
    else
      d
  }

  /** The click handler as written has no zero-distance guard: a dot exactly at
      the pointer divides 0 by 0 and its velocity becomes NaN, shown here as
      `None`. Everywhere else it agrees with `ClickImpulse`. */
  function ClickImpulseAsWritten(d: Dot, px: real, py: real, click: Reach,
                                 hypot: (real, real) -> real): (r: Option<Dot>)
    requires IsHypot(hypot)
    ensures hypot(d.x - px, d.y - py) != 0.0 ==> r == Some(ClickImpulse(d, px, py, click, hypot))
    ensures r.None? <==> d.x == px && d.y == py && 0.0 < click.radius
  {
    var dx := d.x - px;
    var dy := d.y - py;
    var dist := hypot(dx, dy);
    if dist < click.radius then
      if dist == 0.0 then None
      else
        var power := Falloff(dist, click.radius);
        Some(d.(vx := d.vx + Impulse(dx, dist, power, click.strength),
                vy := d.vy + Impulse(dy, dist, power, click.strength)))
    else
      Some(d)
  }

  /** A click with a positive radius right on top of a dot turns that dot's
      velocity into NaN in the handler as written. */
  lemma ClickOnDotIsNaN(d: Dot, click: Reach, hypot: (real, real) -> real)
    requires IsHypot(hypot) && 0.0 < click.radius
    ensures ClickImpulseAsWritten(d, d.x, d.y, click, hypot) == None
    ensures ClickImpulse(d, d.x, d.y, click, hypot) == d
  {
    assert hypot(d.x - d.x, d.y - d.y) == 0.0;
  }

  /** The click handler's effect on the whole store: nothing without a pointer,
      otherwise every dot takes its own push. */
  function ClickAll(ds: seq<Dot>, mouse: Pointer, click: Reach, hypot: (real, real) -> real): (r: seq<Dot>)
    ensures SamePlacement(ds, r)
    ensures mouse.Absent? ==> r == ds
    ensures mouse.At? ==> forall k ::
      (0 <= k < |ds| && !(0.0 < hypot(ds[k].x - mouse.x, ds[k].y - mouse.y) < click.radius)) ==> r[k] == ds[k]
  {
    if mouse.Absent? then ds
    else seq(|ds|, k requires 0 <= k < |ds| => ClickImpulse(ds[k], mouse.x, mouse.y, click, hypot))
  }

  /** A click with no dot within its radius changes no velocity at all. */
  lemma ClickFarAwayChangesNothing(ds: seq<Dot>, mouse: Pointer, click: Reach, hypot: (real, real) -> real)
    requires mouse.At?
    requires forall k :: 0 <= k < |ds| ==> click.radius <= hypot(ds[k].x - mouse.x, ds[k].y - mouse.y)
    ensures ClickAll(ds, mouse, click, hypot) == ds
  {
    var r := ClickAll(ds, mouse, click, hypot);
    assert forall k :: 0 <= k < |ds| ==> r[k] == ds[k];
  }
}
