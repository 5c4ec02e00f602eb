/** Setting up a game: a fresh ship at a random place with a random velocity,
    and ten new projectiles. Each random draw is a parameter in [0, 1). */
module Setup {
  import opened Lander

  /** A value the game's random source can produce. */
  predicate IsDraw(r: real) {
    0.0 <= r < 1.0
  }

  /** The four draws `InitShip` makes, in the order it makes them. */
  datatype ShipDraws = ShipDraws(forX: real, forY: real, forDx: real, forDy: real) {
    predicate Valid() {
      IsDraw(forX) && IsDraw(forY) && IsDraw(forDx) && IsDraw(forDy)
    }
  }

  /** A fresh ship: centre in [150, 250) x [150, 250), moving right and down
      at less than 1 unit per tick, engines off, neither crashed nor landed.
      The draws can be read back from the ship, so every draw gives a
      different ship. */
  function InitShip(d: ShipDraws): (r: Ship)
    requires d.Valid()
    ensures 150.0 <= r.x < 250.0 && 150.0 <= r.y < 250.0
    ensures 0.0 <= r.dx < 1.0 && 0.0 <= r.dy < 1.0
    ensures !r.mainEngine && !r.leftEngine && !r.rightEngine
    ensures r.InFlight()
    ensures ShipDraws((r.x - 150.0) / 100.0, (r.y - 150.0) / 100.0, r.dx, r.dy) == d
  {
    Ship(
      150.0 + d.forX * 100.0, 150.0 + d.forY * 100.0,
      d.forDx, d.forDy,
      false, false, false,
      false, false)
  }

  /** Number of projectiles one call of `InitPrjs` adds. */
  const SpawnCount: nat := 10

  /** The three draws one new projectile takes, in the order it takes them. */
  datatype PrjDraws = PrjDraws(forX: real, forDx: real, forDy: real) {
    predicate Valid() {
      IsDraw(forX) && IsDraw(forDx) && IsDraw(forDy)
    }
  }

  /** What every newly created projectile looks like: at the top row, 4 x 4,
      at a whole-number column in [0, 399], drifting sideways at a speed in
      (-1, 1] and falling at a speed in [0, 1). */
  predicate Fresh(p: Projectile) {
    && p.y == 0.0 && p.w == 4.0 && p.h == 4.0
    && 0.0 <= p.x <= 399.0 && p.x == p.x.Floor as real
    && -1.0 < p.dx <= 1.0
    && 0.0 <= p.dy < 1.0
  }

  /** One new projectile. */
  function Spawn(d: PrjDraws): (p: Projectile)
    requires d.Valid()
    ensures Fresh(p)
    ensures p.x <= d.forX * 400.0 < p.x + 1.0
    ensures d.forDx == (1.0 - p.dx) / 2.0 && d.forDy == p.dy
  {
    Projectile((d.forX * 400.0).Floor as real, 0.0, 1.0 - d.forDx * 2.0, d.forDy, 4.0, 4.0)
  }

  /** Adds ten new projectiles after the existing ones, which it neither
      removes nor alters. */
  method InitPrjs(prjs: seq<Projectile>, draws: seq<PrjDraws>) returns (r: seq<Projectile>)
    requires |draws| == SpawnCount
    requires forall i :: 0 <= i < |draws| ==> draws[i].Valid()
    ensures |r| == |prjs| + SpawnCount
    ensures r[..|prjs|] == prjs
    ensures forall i :: |prjs| <= i < |r| ==> Fresh(r[i])
    ensures forall i :: 0 <= i < SpawnCount ==> r[|prjs| + i] == Spawn(draws[i])
  {
    r := prjs;
    var i := 0;
    while i < SpawnCount
      invariant 0 <= i <= SpawnCount
      invariant |r| == |prjs| + i
      invariant r[..|prjs|] == prjs
      invariant forall j :: 0 <= j < i ==> r[|prjs| + j] == Spawn(draws[j])
      invariant forall j :: |prjs| <= j < |r| ==> Fresh(r[j])
    {
      r := r + [Spawn(draws[i])];
      i := i + 1;
    }
  }
}
