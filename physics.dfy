/** The entities of the game world and the per-frame rules for a single player:
    the constants of the `DoodleJump` class, its `player` record and a platform,
    the landing test `checkCollision` and the integration step at the top of `update`.
    Coordinates grow rightwards and downwards, as on the canvas. */
module Physics {

  // The canvas is 400 wide and 600 high.
  const Width: real := 400.0
  const Height: real := 600.0

  // The player's fixed size and motion constants.
  const PlayerWidth: real := 40.0
  const PlayerHeight: real := 40.0
  const JumpForce: real := -15.0
  const Gravity: real := 0.5
  const Speed: real := 7.0

  // The platforms' shared size and the tolerance below a platform's bottom edge
  // within which the player's feet still count as standing on it.
  const PlatformWidth: real := 85.0
  const PlatformHeight: real := 15.0
  const LandingTolerance: real := 10.0

  datatype Direction = Left | Right

  /** The mutable part of the `player` record (its size and constants are above). */
  datatype Player = Player(x: real, y: real, vx: real, vy: real, direction: Direction)

  datatype Platform = Platform(x: real, y: real)

  /** The player as the constructor places it: centred horizontally, 100 above the bottom, at rest. */
  const StartPlayer: Player := Player(Width / 2.0, Height - 100.0, 0.0, 0.0, Right)

  /** `checkCollision`: the open horizontal extents overlap, the player's bottom edge lies
      strictly inside the landing band of the platform, and the player is falling. */
  predicate Collides(p: Player, pl: Platform)
  {
    p.x < pl.x + PlatformWidth &&
    p.x + PlayerWidth > pl.x &&
    p.y + PlayerHeight > pl.y &&
    p.y + PlayerHeight < pl.y + PlatformHeight + LandingTolerance &&
    p.vy > 0.0
  }

  /** `c` lies strictly inside the interval that starts at `lo` and has width `w`. */
  predicate Inside(c: real, lo: real, w: real)
  {
    lo < c < lo + w
  }

  /** A landing means exactly: some column is strictly inside both the player and the platform,
      the player's feet are in the landing band, and the player is moving down. In particular
      no landing is ever registered while the player is rising or hovering. */
  lemma CollidesIff(p: Player, pl: Platform)
    ensures Collides(p, pl) <==>
      (exists c :: Inside(c, p.x, PlayerWidth) && Inside(c, pl.x, PlatformWidth)) &&
      pl.y < p.y + PlayerHeight < pl.y + PlatformHeight + LandingTolerance &&
      p.vy > 0.0
    ensures p.vy <= 0.0 ==> !Collides(p, pl)
  {
    if Collides(p, pl) {
      var lo := if p.x < pl.x then pl.x else p.x;
      var hi := if p.x + PlayerWidth < pl.x + PlatformWidth then p.x + PlayerWidth else pl.x + PlatformWidth;
      var c := (lo + hi) / 2.0;
      assert Inside(c, p.x, PlayerWidth) && Inside(c, pl.x, PlatformWidth);
    }
  }

  /** The horizontal screen wrap of `update`: past the right edge the player reappears at 0,
      past the left edge at the right edge. The result is always on the canvas and a position
      already on the canvas is left alone. */
  function Wrap(x: real): (r: real)
    ensures 0.0 <= r <= Width
    ensures 0.0 <= x <= Width ==> r == x
    ensures x > Width ==> r == 0.0
    ensures x < 0.0 ==> r == Width
  {
    if x > Width then 0.0 else if x < 0.0 then Width else x
  }

  /** The integration step of `update`: move by the velocity, accelerate by gravity, wrap. */
  function Advance(p: Player): (q: Player)
    ensures 0.0 <= q.x <= Width
    ensures q.y == p.y + p.vy && q.vy == p.vy + Gravity
    ensures q.vx == p.vx && q.direction == p.direction
  {
    p.(x := Wrap(p.x + p.vx), y := p.y + p.vy, vy := p.vy + Gravity)
  }
}
