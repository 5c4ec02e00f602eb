/** One tick of motion: gravity and engine impulses change the velocity, then
    the position advances by the updated velocity (explicit Euler, one step
    per frame). */
module Physics {
  import opened Lander

  /** Net horizontal velocity change the side engines give in one tick: the
      left engine pushes right (+), the right engine pushes left (-). */
  function SideAccel(s: Ship): real {
    (if s.leftEngine then SideEngineThrust else 0.0) - (if s.rightEngine then SideEngineThrust else 0.0)
  }

  /** Net vertical velocity change in one tick: gravity, less the main
      engine's thrust when it burns. */
  function VerticalAccel(s: Ship): real {
    Gravity - (if s.mainEngine then MainEngineThrust else 0.0)
  }

  /** One tick of the ship. The impulses are applied one after the other in
      the order gravity, right engine, left engine, main engine; only then
      does the position move. */
  function UpdateShip(s: Ship): (r: Ship)
    ensures r.dx == s.dx + SideAccel(s)
    ensures r.dy == s.dy + VerticalAccel(s)
    ensures r.x == s.x + r.dx && r.y == s.y + r.dy
    ensures s.leftEngine == s.rightEngine ==> r.dx == s.dx
    ensures !s.leftEngine && s.rightEngine ==> r.dx == s.dx - 0.01
    ensures s.leftEngine && !s.rightEngine ==> r.dx == s.dx + 0.01
    ensures !s.mainEngine ==> r.dy == s.dy + 0.01
    ensures s.mainEngine ==> r.dy == s.dy - 0.02
    ensures SameButMotion(s, r)
  {
    var s1 := s.(dy := s.dy + Gravity);
    var s2 := if s1.rightEngine then s1.(dx := s1.dx - SideEngineThrust) else s1;
    var s3 := if s2.leftEngine then s2.(dx := s2.dx + SideEngineThrust) else s2;
    var s4 := if s3.mainEngine then s3.(dy := s3.dy - MainEngineThrust) else s3;
    s4.(y := s4.y + s4.dy, x := s4.x + s4.dx)
  }

  /** Distance covered in `n` ticks by a body with initial velocity `v` and
      constant per-tick acceleration `a`, where each tick adds the
      acceleration before moving: v+a, v+2a, ..., v+na. */
  function Travel(v: real, a: real, n: nat): real {
    (n as real) * v + a * ((n as real) * (n as real + 1.0) / 2.0)
  }

  /** One more tick adds the velocity that tick reaches, v + (n + 1) a. */
  lemma TravelStep(v: real, a: real, n: nat)
    ensures Travel(v, a, n + 1) == Travel(v, a, n) + (v + (n as real + 1.0) * a)
  {
  }

  /** The ship after `n` ticks with its engine flags held fixed. */
  function Fly(s: Ship, n: nat): Ship
    decreases n
  {
    if n == 0 then s else UpdateShip(Fly(s, n - 1))
  }

  /** The engine flags and terminal flags survive any number of ticks. */
  lemma {:induction false} FlyKeepsFlags(s: Ship, n: nat)
    ensures SameButMotion(s, Fly(s, n))
    ensures SideAccel(Fly(s, n)) == SideAccel(s) && VerticalAccel(Fly(s, n)) == VerticalAccel(s)
    decreases n
  {
    if n > 0 {
      FlyKeepsFlags(s, n - 1);
    }
  }

  /** With the engines held, the ship moves with constant acceleration: its
      velocity grows linearly and its position follows the discrete
      parabola `Travel`; nothing but position and velocity changes. */
  lemma {:induction false} FlyClosedForm(s: Ship, n: nat)
    ensures Fly(s, n).dx == s.dx + (n as real) * SideAccel(s)
    ensures Fly(s, n).dy == s.dy + (n as real) * VerticalAccel(s)
    ensures Fly(s, n).x == s.x + Travel(s.dx, SideAccel(s), n)
    ensures Fly(s, n).y == s.y + Travel(s.dy, VerticalAccel(s), n)
    ensures SameButMotion(s, Fly(s, n))
    decreases n
  {
    FlyKeepsFlags(s, n);
    if n > 0 {
      var m := n - 1;
      var k := m as real;
      var ax, ay := SideAccel(s), VerticalAccel(s);
      FlyClosedForm(s, m);
      FlyKeepsFlags(s, m);
      TravelStep(s.dx, ax, m);
      TravelStep(s.dy, ay, m);
      var p := Fly(s, m);
      assert k + 1.0 == n as real;
      assert Fly(s, n).dx == p.dx + ax;
      assert Fly(s, n).dy == p.dy + ay;
      assert s.dx + k * ax + ax == s.dx + (k + 1.0) * ax;
      assert s.dy + k * ay + ay == s.dy + (k + 1.0) * ay;
    }
  }

  /** One tick of a projectile: gravity, then the move. Engines never apply. */
  function StepPrj(p: Projectile): (q: Projectile)
    ensures q.dy == p.dy + Gravity && q.y == p.y + q.dy
    ensures q.dx == p.dx && q.x == p.x + p.dx
    ensures q.w == p.w && q.h == p.h
  {
    var p1 := p.(dy := p.dy + Gravity);
    p1.(y := p1.y + p1.dy, x := p1.x + p1.dx)
  }

  /** One tick of every projectile, in place and in order. */
  function UpdatePrjs(prjs: seq<Projectile>): (r: seq<Projectile>)
    ensures |r| == |prjs|
    ensures forall i :: 0 <= i < |r| ==>
      r[i].dx == prjs[i].dx && r[i].w == prjs[i].w && r[i].h == prjs[i].h
    ensures forall i :: 0 <= i < |r| ==>
      r[i].dy == prjs[i].dy + Gravity && r[i].y == prjs[i].y + r[i].dy && r[i].x == prjs[i].x + prjs[i].dx
  {
    seq(|prjs|, i requires 0 <= i < |prjs| => StepPrj(prjs[i]))
  }

  /** A projectile after `n` ticks. */
  function Fall(p: Projectile, n: nat): Projectile
    decreases n
  {
    if n == 0 then p else StepPrj(Fall(p, n - 1))
  }

  /** A projectile drifts sideways at constant speed and falls along the
      same discrete parabola as an unpowered ship; its size never changes. */
  lemma {:induction false} FallClosedForm(p: Projectile, n: nat)
    ensures Fall(p, n).dx == p.dx && Fall(p, n).x == p.x + (n as real) * p.dx
    ensures Fall(p, n).dy == p.dy + (n as real) * Gravity
    ensures Fall(p, n).y == p.y + Travel(p.dy, Gravity, n)
    ensures Fall(p, n).w == p.w && Fall(p, n).h == p.h
    decreases n
  {
    if n > 0 {
      var m := n - 1;
      FallClosedForm(p, m);
      TravelStep(p.dy, Gravity, m);
      assert (m as real) + 1.0 == n as real;
    }
  }

  /** The projectile list after `n` ticks. */
  function Drift(prjs: seq<Projectile>, n: nat): seq<Projectile>
    decreases n
  {
    if n == 0 then prjs else UpdatePrjs(Drift(prjs, n - 1))
  }

  /** Ticking the whole list `n` times moves each projectile independently of
      the others: the list keeps its length and order, and its i-th entry is
      the i-th projectile after `n` ticks of its own. */
  lemma {:induction false} DriftIsPointwiseFall(prjs: seq<Projectile>, n: nat)
    ensures |Drift(prjs, n)| == |prjs|
    ensures forall i :: 0 <= i < |prjs| ==> Drift(prjs, n)[i] == Fall(prjs[i], n)
    decreases n
  {
    if n > 0 {
      DriftIsPointwiseFall(prjs, n - 1);
    }
  }

  /** An unpowered ship and a projectile that start with the same vertical
      velocity fall by exactly the same amount over any number of ticks. */
  lemma UnpoweredShipFallsLikeProjectile(s: Ship, p: Projectile, n: nat)
    requires !s.mainEngine && s.dy == p.dy
    ensures Fly(s, n).y - s.y == Fall(p, n).y - p.y
  {
    FlyClosedForm(s, n);
    FallClosedForm(p, n);
  }
}
