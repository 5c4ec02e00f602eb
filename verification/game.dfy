/** The game loop: each frame moves the ship and the projectiles, checks the
    ship, and either ends the game (crashed, then landed, in that order of
    precedence) or asks for another frame. */
module Game {
  import opened Lander
  import opened Physics
  import opened Collision
  import opened Setup

  /** Everything a frame changes. The pad is constant. */
  datatype World = World(ship: Ship, prjs: seq<Projectile>)

  datatype Outcome = Crashed | Landed | Continue

  /** The world after a frame, and what the loop does next. */
  datatype Frame = Frame(world: World, outcome: Outcome)

  /** The loop's decision after the check: a crash wins over a landing, and
      the game goes on only while neither flag is set. */
  function SelectOutcome(s: Ship): (o: Outcome)
    ensures o == Crashed <==> s.crashed
    ensures o == Landed <==> s.landed && !s.crashed
    ensures o == Continue <==> s.InFlight()
  {
    if s.crashed then Crashed
    else if s.landed then Landed
    else Continue
  }

  /** One frame. The ship and the projectiles move independently (the ship
      never collides with a projectile); then the moved ship is checked. */
  function GameLoop(w: World): (f: Frame)
    ensures f.outcome == SelectOutcome(f.world.ship)
    ensures f.world.prjs == UpdatePrjs(w.prjs)
    ensures SameButVerdict(UpdateShip(w.ship), f.world.ship)
    ensures w.ship.crashed ==> f.world.ship.crashed
    ensures w.ship.landed ==> f.world.ship.landed
    ensures f.outcome == Continue ==> f.world.ship == UpdateShip(w.ship)
    ensures f.outcome != Continue ==> !f.world.ship.InFlight()
    ensures w.ship.InFlight() ==>
      (f.outcome == Crashed <==> !InsideField(UpdateShip(w.ship)) || TouchesPad(UpdateShip(w.ship)))
    ensures w.ship.InFlight() ==>
      (f.outcome == Landed <==> CanLand(UpdateShip(w.ship)))
    ensures w.ship.InFlight() ==> !(f.world.ship.crashed && f.world.ship.landed)
  {
    var moved := UpdateShip(w.ship);
    var prjs := UpdatePrjs(w.prjs);
    var checked := CheckCollision(moved);
    Frame(World(checked, prjs), SelectOutcome(checked))
  }

  /** Starting a game: a fresh ship, and ten more projectiles appended to the
      ones already there (they are not cleared between games). */
  method Start(w: World, shipDraws: ShipDraws, prjDraws: seq<PrjDraws>) returns (r: World)
    requires shipDraws.Valid()
    requires |prjDraws| == SpawnCount
    requires forall i :: 0 <= i < |prjDraws| ==> prjDraws[i].Valid()
    ensures r.ship == InitShip(shipDraws)
    ensures |r.prjs| == |w.prjs| + SpawnCount
    ensures r.prjs[..|w.prjs|] == w.prjs
    ensures forall i :: |w.prjs| <= i < |r.prjs| ==> Fresh(r.prjs[i])
    ensures forall i :: 0 <= i < SpawnCount ==> r.prjs[|w.prjs| + i] == Spawn(prjDraws[i])
  {
    var ship := InitShip(shipDraws);
    var prjs := InitPrjs(w.prjs, prjDraws);
    r := World(ship, prjs);
  }

  /** The frame scheduler, bounded by a number of frames: frames run one
      after another until the outcome is terminal or the frames run out. */
  function Run(w: World, frames: nat): Frame
    decreases frames
  {
    if frames == 0 then Frame(w, Continue)
    else
      var f := GameLoop(w);
      if f.outcome == Continue then Run(f.world, frames - 1) else f
  }

  /** Once the game has ended, further frames change nothing: the loop is
      not rescheduled, so the final state is frozen. */
  lemma {:induction false} RunStopsAtTerminal(w: World, n: nat, k: nat)
    requires Run(w, n).outcome != Continue
    ensures Run(w, n + k) == Run(w, n)
    decreases n
  {
    if n > 0 && GameLoop(w).outcome == Continue {
      RunStopsAtTerminal(GameLoop(w).world, n - 1, k);
    }
  }

  /** Starting in flight, the game never ends with both flags set, its
      outcome always agrees with the ship's flags, and the projectile list
      keeps its length. */
  lemma {:induction false} RunVerdictIsConsistent(w: World, n: nat)
    requires w.ship.InFlight()
    ensures Run(w, n).outcome == SelectOutcome(Run(w, n).world.ship)
    ensures !(Run(w, n).world.ship.crashed && Run(w, n).world.ship.landed)
    ensures |Run(w, n).world.prjs| == |w.prjs|
    decreases n
  {
    if n > 0 && GameLoop(w).outcome == Continue {
      RunVerdictIsConsistent(GameLoop(w).world, n - 1);
    }
  }

  /** Flying n ticks after one tick is flying n + 1 ticks. */
  lemma {:induction false} FlyShift(s: Ship, n: nat)
    ensures Fly(UpdateShip(s), n) == Fly(s, n + 1)
    decreases n
  {
    if n > 0 {
      FlyShift(s, n - 1);
    }
  }

  /** Ticking the list n times after one tick is ticking it n + 1 times. */
  lemma {:induction false} DriftShift(prjs: seq<Projectile>, n: nat)
    ensures Drift(UpdatePrjs(prjs), n) == Drift(prjs, n + 1)
    decreases n
  {
    if n > 0 {
      DriftShift(prjs, n - 1);
    }
  }

  /** While the game goes on, the loop is plain motion: after `n` frames
      that did not end the game, the ship is where `n` ticks of flight put
      it and every projectile where `n` ticks of falling put it. */
  lemma {:induction false} RunningGameIsPlainMotion(w: World, n: nat)
    requires w.ship.InFlight()
    requires Run(w, n).outcome == Continue
    ensures Run(w, n).world == World(Fly(w.ship, n), Drift(w.prjs, n))
    decreases n
  {
    if n > 0 {
      var f := GameLoop(w);
      RunningGameIsPlainMotion(f.world, n - 1);
      FlyShift(w.ship, n - 1);
      DriftShift(w.prjs, n - 1);
    }
  }

  /** A ship hovering 1 unit above the pad, slow and centred, lands on the
      next frame. */
  lemma SoftLandingScenario(prjs: seq<Projectile>)
    ensures GameLoop(World(Ship(198.95, 332.95, 0.05, 0.04, false, false, false, false, false), prjs)).outcome == Landed
  {
  }

  /** A ship resting with its bottom exactly on the field's bottom border is
      still in the game; one frame of gravity pushes it across and it
      crashes. */
  lemma BottomBorderScenario(prjs: seq<Projectile>)
    ensures InsideField(Ship(300.0, 389.0, 0.0, 0.0, false, false, false, false, false))
    ensures GameLoop(World(Ship(300.0, 389.0, 0.0, 0.0, false, false, false, false, false), prjs)).outcome == Crashed
  {
  }

  /** The first frame of a new game never ends it: the fresh ship is well
      inside the field, above the pad and too high to land. */
  lemma FirstFrameContinues(d: ShipDraws, prjs: seq<Projectile>)
    requires d.Valid()
    ensures GameLoop(World(InitShip(d), prjs)).outcome == Continue
  {
  }
}
