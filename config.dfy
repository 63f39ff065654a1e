/** The engine's parameter set: two device-class profiles and the caller's
    top-level override, resolved once when the engine is built. */
module Config {
  import opened Basics

  /** A radius of influence with a force scale (pointer, edge cushion, click). */
  datatype Reach = Reach(radius: real, strength: real)

  datatype Bounce = Bounce(repulsionRadius: real, repulsionStrength: real)

  datatype Wander = Wander(strength: real)

  datatype Style = Style(dotColor: string, dotSize: real, lineColorRGB: string, lineWidth: real)

  datatype NetworkConfig = NetworkConfig(
    density: real,
    maxDistance: real,
    speed: real,
    friction: real,
    mouse: Reach,
    bounce: Bounce,
    edgeRepulsion: Reach,
    wander: Wander,
    click: Reach,
    style: Style)

  /** A caller override: every top-level key may be missing (`None`). A present
      key carries a complete nested record. An absent override is `NoOverride`. */
  datatype PartialConfig = PartialConfig(
    density: Option<real>,
    maxDistance: Option<real>,
    speed: Option<real>,
    friction: Option<real>,
    mouse: Option<Reach>,
    bounce: Option<Bounce>,
    edgeRepulsion: Option<Reach>,
    wander: Option<Wander>,
    click: Option<Reach>,
    style: Option<Style>)

  const NoOverride := PartialConfig(None, None, None, None, None, None, None, None, None, None)

  /** Viewports narrower than this many CSS pixels use the mobile profile. */
  const MobileBreakpoint := 768

  const DefaultStyle := Style("#6bbcff", 2.0, "107, 188, 255", 1.0)

  function DesktopDefaults(): NetworkConfig {
    NetworkConfig(6000.0, 120.0, 0.15, 0.96,
      Reach(160.0, 0.02), Bounce(40.0, 0.2), Reach(25.0, 0.15),
      Wander(0.05), Reach(200.0, 8.0), DefaultStyle)
  }

  function MobileDefaults(): NetworkConfig {
    NetworkConfig(3000.0, 90.0, 0.15, 0.96,
      Reach(100.0, 0.03), Bounce(25.0, 0.15), Reach(25.0, 0.1),
      Wander(0.05), Reach(150.0, 8.0), DefaultStyle)
  }

  /** Every key given, so nothing of the profile shows through. */
  function Complete(c: NetworkConfig): PartialConfig {
    PartialConfig(Some(c.density), Some(c.maxDistance), Some(c.speed), Some(c.friction),
      Some(c.mouse), Some(c.bounce), Some(c.edgeRepulsion), Some(c.wander),
      Some(c.click), Some(c.style))
  }

  function Pick<T>(o: Option<T>, default: T): T {
    match o
    case Some(v) => v
    case None => default
  }

  /** The profile of the device class: mobile below the breakpoint, desktop
      from it on. */
  function Profile(innerWidth: int): (c: NetworkConfig)
    ensures innerWidth < MobileBreakpoint ==> c == MobileDefaults()
    ensures MobileBreakpoint <= innerWidth ==> c == DesktopDefaults()
  {
    if innerWidth < MobileBreakpoint then MobileDefaults() else DesktopDefaults()
  }

  /** The parameter set of a session: the profile chosen by the viewport width,
      then the override merged over it key by key (a shallow, top-level merge).
      Each key comes from the override when given and from the profile
      otherwise. */
  function Resolve(innerWidth: int, custom: PartialConfig): (c: NetworkConfig)
    ensures custom == NoOverride ==> c == Profile(innerWidth)
    ensures custom.density.Some? ==> c.density == custom.density.value
    ensures custom.density.None? ==> c.density == Profile(innerWidth).density
    ensures custom.maxDistance.Some? ==> c.maxDistance == custom.maxDistance.value
    ensures custom.maxDistance.None? ==> c.maxDistance == Profile(innerWidth).maxDistance
    ensures custom.speed.Some? ==> c.speed == custom.speed.value
    ensures custom.speed.None? ==> c.speed == Profile(innerWidth).speed
    ensures custom.friction.Some? ==> c.friction == custom.friction.value
    ensures custom.friction.None? ==> c.friction == Profile(innerWidth).friction
    ensures custom.mouse.Some? ==> c.mouse == custom.mouse.value
    ensures custom.mouse.None? ==> c.mouse == Profile(innerWidth).mouse
    ensures custom.bounce.Some? ==> c.bounce == custom.bounce.value
    ensures custom.bounce.None? ==> c.bounce == Profile(innerWidth).bounce
    ensures custom.edgeRepulsion.Some? ==> c.edgeRepulsion == custom.edgeRepulsion.value
    ensures custom.edgeRepulsion.None? ==> c.edgeRepulsion == Profile(innerWidth).edgeRepulsion
    ensures custom.wander.Some? ==> c.wander == custom.wander.value
    ensures custom.wander.None? ==> c.wander == Profile(innerWidth).wander
    ensures custom.click.Some? ==> c.click == custom.click.value
    ensures custom.click.None? ==> c.click == Profile(innerWidth).click
    ensures custom.style.Some? ==> c.style == custom.style.value
    ensures custom.style.None? ==> c.style == Profile(innerWidth).style
  {
    var base := Profile(innerWidth);
    NetworkConfig(
      Pick(custom.density, base.density),
      Pick(custom.maxDistance, base.maxDistance),
      Pick(custom.speed, base.speed),
      Pick(custom.friction, base.friction),
      Pick(custom.mouse, base.mouse),
      Pick(custom.bounce, base.bounce),
      Pick(custom.edgeRepulsion, base.edgeRepulsion),
      Pick(custom.wander, base.wander),
      Pick(custom.click, base.click),
      Pick(custom.style, base.style))
  }

  /** A partial override, for instance only a density, keeps every other key of
      the device-class profile. */
  lemma ResolveDensityOnly(innerWidth: int, density: real)
    ensures var c := Resolve(innerWidth, NoOverride.(density := Some(density)));
      c == Profile(innerWidth).(density := density)
  {
  }

  /** A complete override wins over both profiles: the viewport no longer matters. */
  lemma ResolveComplete(innerWidth: int, c: NetworkConfig)
    ensures Resolve(innerWidth, Complete(c)) == c
  {
  }

  /** The device class is decided by the breakpoint alone. */
  lemma ResolveDependsOnlyOnDeviceClass(w1: int, w2: int, custom: PartialConfig)
    requires (w1 < MobileBreakpoint) == (w2 < MobileBreakpoint)
    ensures Resolve(w1, custom) == Resolve(w2, custom)
  {
  }

  /** What the engine's arithmetic needs of a parameter set: a positive density
      (the count formula divides by it) and a non-zero edge radius (the edge
      cushion divides by it without a guard). */
  predicate ValidConfig(c: NetworkConfig) {
    0.0 < c.density && c.edgeRepulsion.radius != 0.0
  }

  /** Both profiles are usable, and so is any override that leaves density and
      the edge cushion alone or sets them to usable values. */
  lemma ResolveValid(innerWidth: int, custom: PartialConfig)
    requires custom.density.Some? ==> 0.0 < custom.density.value
    requires custom.edgeRepulsion.Some? ==> custom.edgeRepulsion.value.radius != 0.0
    ensures ValidConfig(Resolve(innerWidth, custom))
  {
  }
}
