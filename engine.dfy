/** The particle engine itself: one `NetworkAnimation` per canvas, owning the
    dot store, the surface size and the pointer, and changing them in place
    from its event handlers, its resize step and its frame step. */
module Animation {
  import opened Basics
  import opened Config
  import opened Particles
  import opened Input
  import opened Integrator

  class NetworkAnimation {
    /** The parameter set, fixed when the engine is built. */
    const config: NetworkConfig
    /** The host's Euclidean length `Math.sqrt(dx * dx + dy * dy)`. */
    const hypot: (real, real) -> real

    var dots: seq<Dot>
    var width: nat
    var height: nat
    var mouse: Pointer

    /** The store holds exactly the count the surface calls for, and the
        parameter set keeps every division defined. */
    ghost predicate Valid()
      reads this
    {
      ValidConfig(config) && |dots| == TargetCount(width, height, config.density)
    }

    /** Resolve the parameter set, start with no pointer and no dots, fit the
        store to the surface and run the first frame. */
    constructor (innerWidth: int, custom: PartialConfig, hypot: (real, real) -> real,
                 clientWidth: nat, clientHeight: nat,
                 spawn: seq<SpawnDraw>, firstFrame: seq<WanderDraw>)
      requires ValidConfig(Resolve(innerWidth, custom))
      requires TargetCount(clientWidth, clientHeight, Resolve(innerWidth, custom).density) <= |spawn|
      requires |firstFrame| == TargetCount(clientWidth, clientHeight, Resolve(innerWidth, custom).density)
      ensures Valid()
      ensures config == Resolve(innerWidth, custom) && this.hypot == hypot
      ensures width == clientWidth && height == clientHeight && mouse == Absent
      ensures dots == Frame(Retarget([], TargetCount(width, height, config.density), spawn,
                                     width as real, height as real, config.speed, config.style.dotSize),
                            firstFrame, config, width, height, Absent, hypot)
    {
      config := Resolve(innerWidth, custom);
      this.hypot := hypot;
      dots := [];
      width := 0;
      height := 0;
      mouse := Absent;
      new;
      Resize(clientWidth, clientHeight, spawn);
      Animate(firstFrame);
    }

    /** Adopt the wrapper's new size and bring the store to the count that
        size calls for: new dots are pushed one by one from the random draws,
        or the tail beyond the count is cut off. */
    method Resize(clientWidth: nat, clientHeight: nat, draws: seq<SpawnDraw>)
      requires ValidConfig(config)
      requires |dots| < TargetCount(clientWidth, clientHeight, config.density) ==>
        TargetCount(clientWidth, clientHeight, config.density) - |dots| <= |draws|
      modifies this`dots, this`width, this`height
      ensures Valid()
      ensures width == clientWidth && height == clientHeight && mouse == old(mouse)
      ensures dots == Retarget(old(dots), TargetCount(width, height, config.density), draws,
                               width as real, height as real, config.speed, config.style.dotSize)
    {
      width := clientWidth;
      height := clientHeight;
      var targetCount := TargetCount(width, height, config.density);
      if |dots| < targetCount {
        var start := |dots|;
        var i := start;
        while i < targetCount
          invariant start <= i <= targetCount
          invariant width == clientWidth && height == clientHeight
          invariant dots == old(dots) + Spawned(draws[..i - start], width as real, height as real,
                                                config.speed, config.style.dotSize)
        {
          var d := Dot(Uniform(draws[i - start].x, width as real), Uniform(draws[i - start].y, height as real),
                       Centered(draws[i - start].vx, config.speed), Centered(draws[i - start].vy, config.speed),
                       config.style.dotSize, config.style.dotSize);
          assert Spawned(draws[..i + 1 - start], width as real, height as real, config.speed, config.style.dotSize)
              == Spawned(draws[..i - start], width as real, height as real, config.speed, config.style.dotSize) + [d];
          dots := dots + [d];
          i := i + 1;
        }
      } else {
        dots := dots[..targetCount];
      }
    }

    /** A mouse move puts the pointer at the event's surface-local coordinate. */
    method HandleInputMove(clientX: real, clientY: real, rect: Rect)
      requires Valid()
      modifies this`mouse
      ensures Valid()
      ensures mouse == Track(old(mouse), MouseMove(clientX, clientY, rect))
      ensures mouse == At(clientX - rect.left, clientY - rect.top)
    {
      mouse := At(clientX - rect.left, clientY - rect.top);
    }

    /** A touch start or move follows the first active touch; an event with no
        active touch leaves the pointer where it was. */
    method HandleTouch(touches: seq<TouchPoint>, rect: Rect)
      requires Valid()
      modifies this`mouse
      ensures Valid()
      ensures mouse == Track(old(mouse), Touch(touches, rect))
      ensures touches == [] ==> mouse == old(mouse)
      ensures touches != [] ==> mouse == At(touches[0].clientX - rect.left, touches[0].clientY - rect.top)
    {
      if |touches| > 0 {
        mouse := At(touches[0].clientX - rect.left, touches[0].clientY - rect.top);
      }
    }

    /** The mouse leaving or a touch ending removes the pointer. */
    method HandleInputEnd()
      requires Valid()
      modifies this`mouse
      ensures Valid()
      ensures mouse == Track(old(mouse), InputEnd)
      ensures mouse == Absent
    {
      mouse := Absent;
    }

    /** A click pushes every dot within the click radius directly away from
        the pointer, more strongly the closer it is; it does nothing without a
        pointer and never moves a dot. */
    method HandleMouseDown()
      requires Valid()
      modifies this`dots
      ensures Valid()
      ensures dots == ClickAll(old(dots), mouse, config.click, hypot)
    {
      if mouse.Absent? {
        return;
      }
      var px, py := mouse.x, mouse.y;
      var click := config.click;
      var i := 0;
      while i < |dots|
        invariant 0 <= i <= |dots| == |old(dots)|
        invariant forall k :: 0 <= k < i ==> dots[k] == ClickImpulse(old(dots)[k], px, py, click, hypot)
        invariant forall k :: i <= k < |dots| ==> dots[k] == old(dots)[k]
      {
        var d := dots[i];
        var dx := d.x - px;
        var dy := d.y - py;
        var dist := hypot(dx, dy);
        if dist < click.radius && dist > 0.0 {
          var power := Falloff(dist, click.radius);
          d := d.(vx := d.vx + Impulse(dx, dist, power, click.strength));
          d := d.(vy := d.vy + Impulse(dy, dist, power, click.strength));
        }
        dots := dots[i := d];
        i := i + 1;
      }
    }

    /** One frame: every dot wanders, moves, is cushioned and clamped at the
        edges, feels the pointer and eases its size; then every pair of dots
        repels. Afterwards every dot lies on the surface, the pairwise pass has
        kept the total velocity, and without a pointer every dot is heading
        back to its rest size. */
    method Animate(draws: seq<WanderDraw>)
      requires Valid() && |draws| == |dots|
      modifies this`dots
      ensures Valid()
      ensures dots == Frame(old(dots), draws, config, width, height, mouse, hypot)
      ensures forall k :: 0 <= k < |dots| ==> InBounds(dots[k], width as real, height as real)
      ensures mouse.Absent? ==> forall k :: 0 <= k < |dots| ==> dots[k].targetSize == config.style.dotSize
      ensures var stepped := StepAll(old(dots), draws, config, width as real, height as real, mouse, hypot);
        Sum(Vxs(dots)) == Sum(Vxs(stepped)) && Sum(Vys(dots)) == Sum(Vys(stepped))
    {
      MoveDots(draws);
      FrameMomentum(old(dots), draws, config, width, height, mouse, hypot);
      RepelPairs();
    }

    /** Steps 1 to 6 of a frame, dot by dot in store order. */
    method MoveDots(draws: seq<WanderDraw>)
      requires ValidConfig(config) && |draws| == |dots|
      modifies this`dots
      ensures dots == StepAll(old(dots), draws, config, width as real, height as real, mouse, hypot)
    {
      var n := |dots|;
      var w, h := width as real, height as real;
      var i := 0;
      while i < n
        invariant 0 <= i <= n == |dots|
        invariant forall k :: 0 <= k < i ==>
          dots[k] == StepDot(old(dots)[k], draws[k], config, w, h, mouse, hypot)
        invariant forall k :: i <= k < n ==> dots[k] == old(dots)[k]
      {
        var d := dots[i];
        d := WanderStep(d, draws[i], config.wander.strength);
        d := Integrate(d, config.friction);
        d := EdgeRepel(d, w, h, config.edgeRepulsion);
        d := Clamp(d, w, h);
        d := Attract(d, mouse, config.mouse, config.style.dotSize, hypot);
        d := Ease(d);
        dots := dots[i := d];
        i := i + 1;
      }
    }

    /** Step 7 of a frame: for each dot in store order, its row of pairs. */
    method RepelPairs()
      modifies this`dots
      ensures dots == RepelAll(old(dots), 0, config.bounce, hypot)
    {
      var i := 0;
      while i < |dots|
        invariant 0 <= i <= |dots| == |old(dots)|
        invariant RepelAll(dots, i, config.bounce, hypot) == RepelAll(old(dots), 0, config.bounce, hypot)
      {
        ghost var before := dots;
        RepelRowOf(i);
        assert RepelAll(before, i, config.bounce, hypot) == RepelAll(dots, i + 1, config.bounce, hypot);
        i := i + 1;
      }
    }

    /** Dot `i` exchanges a repulsion impulse with each later dot, in order:
        both get it, in opposite directions, when they are closer than the
        repulsion radius and not coincident. */
    method RepelRowOf(i: nat)
      requires i < |dots|
      modifies this`dots
      ensures dots == RepelRow(old(dots), i, i + 1, config.bounce, hypot)
    {
      var j := i + 1;
      while j < |dots|
        invariant i < j <= |dots| == |old(dots)|
        invariant RepelRow(dots, i, j, config.bounce, hypot) == RepelRow(old(dots), i, i + 1, config.bounce, hypot)
      {
        RepelRowStep(dots, i, j, config.bounce, hypot);
        RepelPair(i, j);
        j := j + 1;
      }
    }

    /** One pair of the pairwise pass: `i` gains the impulse away from `j`
        and `j` loses it. */
    method RepelPair(i: nat, j: nat)
      requires i < j < |dots|
      modifies this`dots
      ensures dots == ApplyPair(old(dots), i, j, config.bounce, hypot)
    {
      var a := dots[i];
      var b := dots[j];
      var dx := a.x - b.x;
      var dy := a.y - b.y;
      var dist := hypot(dx, dy);
      if dist < config.bounce.repulsionRadius && dist > 0.0 {
        var force := Falloff(dist, config.bounce.repulsionRadius);
        var px := Impulse(dx, dist, force, config.bounce.repulsionStrength);
        var py := Impulse(dy, dist, force, config.bounce.repulsionStrength);
        dots := dots[i := a.(vx := a.vx + px, vy := a.vy + py)];
        dots := dots[j := b.(vx := b.vx - px, vy := b.vy - py)];
      }
    }
  }
}
