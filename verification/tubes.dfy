/** Screen geometry of the game, the tube record, and the read-only checks the
    game makes of the bird against the ground, the ceiling and the lead tube.
    All lengths are integer pixels; y grows downwards from the top of the screen. */
module Tubes {

  const ScreenWidth := 600
  const ScreenHeight := 800
  const BirdWidth := 40
  const BirdHeight := 40
  const TubeWidth := 60
  const GroundHeight := 100
  const GroundY := ScreenHeight - GroundHeight
  const BirdX := 50
  const TubeSpeed := 5
  const BirdGravitySpeed := 3
  const TubeEmptySpace := 175
  const TubesDistance := 300

  /** The random top height is drawn from randint(100, GroundY // 2), both ends included. */
  const MinTopY := 100
  const MaxTopY := GroundY / 2

  /** One tube pair: left edge `x`, height `topY` of the part hanging from the
      top of the screen, height `bottomY` of the part standing on the ground. */
  datatype Tube = Tube(x: int, topY: int, bottomY: int)

  /** A value the random draw of a top height can produce. */
  predicate ValidDraw(r: int) {
    MinTopY <= r <= MaxTopY
  }

  /** The gap equation: the opening between the two parts is exactly
      TubeEmptySpace high, and the top part comes from a valid draw. */
  predicate WellFormed(t: Tube) {
    ValidDraw(t.topY) && t.topY + t.bottomY + TubeEmptySpace == GroundY
  }

  /** A freshly generated tube at `x` whose top part is `r` high. */
  function NewTube(x: int, r: int): (t: Tube)
    requires ValidDraw(r)
    ensures WellFormed(t) && t.x == x && t.topY == r
    ensures 100 <= t.topY <= 350 && 175 <= t.bottomY <= 425
  {
    Tube(x, r, GroundY - r - TubeEmptySpace)
  }

  /** One tube after one tick of scrolling. */
  function Moved(t: Tube): Tube {
    t.(x := t.x - TubeSpeed)
  }

  /** Every tube of a queue after one tick of scrolling. */
  function Shifted(ts: seq<Tube>): (r: seq<Tube>)
    ensures |r| == |ts|
    ensures forall i :: 0 <= i < |ts| ==>
      r[i].x == ts[i].x - TubeSpeed && r[i].topY == ts[i].topY && r[i].bottomY == ts[i].bottomY
  {
    if ts == [] then [] else [Moved(ts[0])] + Shifted(ts[1..])
  }

  /** The bird's bottom edge is at or below the ground line, or at or above the top of the screen. */
  predicate GroundCollision(birdY: int)
    ensures GroundCollision(birdY) <==> birdY >= 660 || birdY <= -40
  {
    birdY + BirdHeight >= GroundY || birdY + BirdHeight <= 0
  }

  /** The bird's right edge has reached the tube's left edge and the bird overlaps
      its top or its bottom part. There is no test on the tube's right edge, so a
      tube lying wholly to the left of the bird still counts as reached. */
  predicate TubeCollision(birdY: int, t: Tube)
    ensures TubeCollision(birdY, t) <==>
      t.x <= 90 && !(t.topY < birdY && birdY + 40 < GroundY - t.bottomY)
  {
    var reached := BirdX + BirdWidth >= t.x;
    (birdY <= t.topY && reached) || (birdY + BirdHeight >= GroundY - t.bottomY && reached)
  }

  /** The tube's left edge is exactly at the bird's fixed column. */
  predicate PassedTube(t: Tube)
    ensures PassedTube(t) ==> BirdX + BirdWidth >= t.x
  {
    BirdX == t.x
  }

  /** The bird's whole height lies in the opening of the tube (bounds included). */
  predicate InGap(birdY: int, t: Tube)
    ensures WellFormed(t) ==> (InGap(birdY, t) <==> t.topY <= birdY <= t.topY + TubeEmptySpace - BirdHeight)
  {
    birdY >= t.topY && birdY + BirdHeight <= GroundY - t.bottomY
  }

  /** A tube wholly to the left of the bird (x in [-60, -11]) still ends the
      episode when the bird is not strictly inside its opening. */
  lemma TubeBehindBirdStillHits(birdY: int, t: Tube)
    requires WellFormed(t) && -60 <= t.x && t.x + TubeWidth < BirdX
    requires birdY <= t.topY
    ensures TubeCollision(birdY, t)
  {
  }

  /** A tube whose left edge is still to the right of the bird's right edge cannot be hit. */
  lemma TubeOutOfReach(birdY: int, t: Tube)
    requires t.x > BirdX + BirdWidth
    ensures !TubeCollision(birdY, t)
  {
  }

  /** The opening of a well-formed tube is 175 high, so the 40-high bird fits in
      it, and a bird strictly inside it never collides with the tube. */
  lemma GapIsSafe(birdY: int, t: Tube)
    requires WellFormed(t)
    ensures (GroundY - t.bottomY) - t.topY == TubeEmptySpace
    ensures t.topY < birdY && birdY + BirdHeight < GroundY - t.bottomY ==> !TubeCollision(birdY, t)
  {
  }

  /** A bird that is level with the tube it passes and does not collide with it is
      strictly inside the opening, so it also earns the in-gap check. */
  lemma AlivePassageIsInGap(birdY: int, t: Tube)
    requires PassedTube(t) && !TubeCollision(birdY, t)
    ensures InGap(birdY, t) && t.topY < birdY && birdY + BirdHeight < GroundY - t.bottomY
  {
  }
}
