/** The state of the lander game: the playfield and tuning constants, the
    ship, the falling projectiles and the landing pad. Positions grow to the
    right (x) and downwards (y); every tick adds velocity to position. */
module Lander {

  /** The playfield is a 400 x 400 canvas. */
  const FieldWidth: real := 400.0
  const FieldHeight: real := 400.0

  /** Velocity changes applied per tick. */
  const Gravity: real := 0.01
  const SideEngineThrust: real := 0.01
  const MainEngineThrust: real := 0.03

  /** Largest gap between the ship's bottom and the pad's top that still
      counts as a landing. */
  const LandingBuffer: real := 3.0
  /** Both velocity components must be (signed) below this to land. */
  const LandingSpeed: real := 0.2

  /** The ship's size never changes during a game. */
  const ShipWidth: real := 8.0
  const ShipHeight: real := 22.0

  /** The landing pad as drawn: top-left corner (190, 345), 25 wide, 5 high. */
  const PadX: real := 190.0
  const PadY: real := 345.0
  const PadWidth: real := 25.0
  const PadHeight: real := 5.0

  /** The pad's edges as used by the collision test. They are literals, not
      derived from the drawn rectangle, and the bottom edge (340) lies ABOVE
      the top edge (345). */
  const PadTop: real := 345.0
  const PadBottom: real := 340.0
  const PadLeft: real := 190.0
  const PadRight: real := 215.0

  /** The player's ship. (x, y) is the CENTRE of its rectangle. */
  datatype Ship = Ship(
    x: real, y: real,
    dx: real, dy: real,
    mainEngine: bool, leftEngine: bool, rightEngine: bool,
    crashed: bool, landed: bool)
  {
    function Top(): real { y - ShipHeight / 2.0 }
    function Bottom(): real { y + ShipHeight / 2.0 }
    function Left(): real { x - ShipWidth / 2.0 }
    function Right(): real { x + ShipWidth / 2.0 }

    /** Neither terminal flag is set. */
    predicate InFlight() { !crashed && !landed }
  }

  /** A falling projectile. (x, y) is the top-left corner of its rectangle. */
  datatype Projectile = Projectile(x: real, y: real, dx: real, dy: real, w: real, h: real)

  /** `t` differs from `s` at most in position and velocity. */
  predicate SameButMotion(s: Ship, t: Ship) {
    t == s.(x := t.x, y := t.y, dx := t.dx, dy := t.dy)
  }

  /** `t` differs from `s` at most in the two terminal flags. */
  predicate SameButVerdict(s: Ship, t: Ship) {
    t == s.(crashed := t.crashed, landed := t.landed)
  }

  /** `t` differs from `s` at most in the three engine flags. */
  predicate SameButEngines(s: Ship, t: Ship) {
    t == s.(mainEngine := t.mainEngine, leftEngine := t.leftEngine, rightEngine := t.rightEngine)
  }
}
