/** The end-of-tick check: leaving the field or touching the pad crashes the
    ship; hovering slowly just above the pad lands it. The first condition
    that holds decides, and at most one terminal flag is raised. */
module Collision {
  import opened Lander

  /** The ship lies within the closed field: an edge exactly on the border
      is still inside. */
  predicate InsideField(s: Ship) {
    0.0 <= s.Top() && s.Bottom() <= FieldHeight && 0.0 <= s.Left() && s.Right() <= FieldWidth
  }

  /** The ship counts as touching the pad when its vertical span reaches from
      the pad's literal bottom (340) down to its literal top (345) and its
      horizontal span meets the pad's, edges included. */
  predicate TouchesPad(s: Ship) {
    s.Top() <= PadBottom && PadTop <= s.Bottom() && s.Left() <= PadRight && PadLeft <= s.Right()
  }

  /** The landing window: both velocity components (signed, not absolute)
      below the landing speed, the ship strictly between the pad's side
      edges, and its bottom strictly above the pad's top by less than the
      landing buffer. */
  predicate CanLand(s: Ship) {
    && s.dx < LandingSpeed && s.dy < LandingSpeed
    && PadLeft < s.Left() && s.Right() < PadRight
    && 0.0 < PadTop - s.Bottom() < LandingBuffer
  }

  /** The collision check run after every tick. It only ever raises a flag,
      never clears one, and leaves everything else as it was. */
  function CheckCollision(s: Ship): (r: Ship)
    ensures r.crashed <==> s.crashed || !InsideField(s) || TouchesPad(s)
    ensures r.landed <==> s.landed || (InsideField(s) && !TouchesPad(s) && CanLand(s))
    ensures !InsideField(s) ==> r.landed == s.landed
    ensures !(r.crashed && !s.crashed && r.landed && !s.landed)
    ensures SameButVerdict(s, r)
  {
    var top := s.Top();
    var bottom := s.Bottom();
    var left := s.Left();
    var right := s.Right();
    if top < 0.0 || bottom > FieldHeight || right > FieldWidth || left < 0.0 then
      s.(crashed := true)
    else
      var separated := bottom < PadTop || top > PadBottom || left > PadRight || right < PadLeft;
      if !separated then
        s.(crashed := true)
      else if
        && s.dx < LandingSpeed && s.dy < LandingSpeed
        && left > PadLeft && right < PadRight
        && bottom < PadTop && PadTop - bottom < LandingBuffer
      then
        s.(landed := true)
      else
        s
  }

  /** The landing window lies inside the field and clear of the pad, so the
      pad test that runs first never pre-empts a landing. */
  lemma LandingWindowIsClear(s: Ship)
    requires CanLand(s)
    ensures InsideField(s) && !TouchesPad(s)
  {
  }

  /** For a ship still in flight the check's verdict is: crashed exactly when
      it left the field or touches the pad, landed exactly when it is in the
      landing window, and never both. */
  lemma VerdictOfShipInFlight(s: Ship)
    requires s.InFlight()
    ensures CheckCollision(s).crashed <==> !InsideField(s) || TouchesPad(s)
    ensures CheckCollision(s).landed <==> CanLand(s)
    ensures !(CheckCollision(s).crashed && CheckCollision(s).landed)
  {
  }

  /** A ship with an edge exactly on the field border, and no edge beyond
      it, does not crash: the border is inside the field and the pad is far
      from every border. */
  lemma EdgeOnBorderDoesNotCrash(s: Ship)
    requires !s.crashed && InsideField(s)
    requires s.Top() == 0.0 || s.Bottom() == FieldHeight || s.Left() == 0.0 || s.Right() == FieldWidth
    ensures !CheckCollision(s).crashed
  {
  }

  /** Any edge strictly beyond the border crashes the ship, whatever else
      holds. */
  lemma EdgeBeyondBorderCrashes(s: Ship)
    requires s.Top() < 0.0 || s.Bottom() > FieldHeight || s.Left() < 0.0 || s.Right() > FieldWidth
    ensures CheckCollision(s).crashed && CheckCollision(s).landed == s.landed
  {
  }

  /** The landing test compares signed velocities: a ship moving fast to the
      left and upwards, hovering 1 unit above the pad, still lands. */
  lemma FastSignedVelocityLands()
    ensures CheckCollision(Ship(199.0, 333.0, -5.0, -5.0, false, false, false, false, false)).landed
  {
  }

  /** The ship's rectangle meets the pad's drawn rectangle (corner (190,
      345), 25 wide, 5 high), edges included. */
  predicate OverlapsDrawnPad(s: Ship) {
    s.Top() <= PadY + PadHeight && PadY <= s.Bottom() && s.Left() <= PadX + PadWidth && PadX <= s.Right()
  }

  /** The pad test only catches a ship that spans rows 340 to 345, because
      the pad's literal bottom (340) lies above its drawn rectangle (rows 345
      to 350). A ship in flight, inside the field, whose top is below row
      340 passes through the drawn pad untouched: it neither crashes nor
      lands. A ship centred at (202, 360), for one, overlaps the drawn pad
      and stays in flight. */
  lemma ShipPassesThroughDrawnPad(s: Ship)
    requires s.InFlight() && InsideField(s) && PadBottom < s.Top()
    ensures !TouchesPad(s) && !CanLand(s)
    ensures CheckCollision(s) == s
    ensures var t := Ship(202.0, 360.0, 0.0, 0.0, false, false, false, false, false);
      OverlapsDrawnPad(t) && CheckCollision(t) == t
  {
  }
}
