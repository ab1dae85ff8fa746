/** The fixed pool of platforms: how `initGame` lays it out, how the landing loop of `update`
    visits it, and how the scroll loop of `update` moves and recycles it. Each draw of
    `Math.random()` is passed in as a value `r` with `0 <= r < 1`. */
module World {
  import opened Physics

  // `platformCount`, and the score awarded per landing and per recycled platform.
  const PlatformCount: nat := 7
  const LandingBonus: nat := 10
  const RecycleBonus: nat := 20

  predicate IsDraw(r: real)
  {
    0.0 <= r < 1.0
  }

  predicate AllDraws(rs: seq<real>)
  {
    forall i :: 0 <= i < |rs| ==> IsDraw(rs[i])
  }

  /** The horizontal position of a freshly placed platform: a draw scaled to the free width. */
  function RandomX(r: real): (x: real)
    requires IsDraw(r)
    ensures 0.0 <= x < Width - PlatformWidth
  {
    r * (Width - PlatformWidth)
  }

  /** A platform that lies on the canvas horizontally and not below its bottom edge. */
  predicate OnBoard(pl: Platform)
  {
    0.0 <= pl.x < Width - PlatformWidth && pl.y <= Height
  }

  // ------------------------------------------------------------------ initGame

  /** The height of band `i`: the canvas divided into `PlatformCount` equal bands, from the bottom. */
  function BandY(i: nat): real
  {
    Height - (i as real) * (Height / (PlatformCount as real))
  }

  /** The starting platform, centred under the player's start position. */
  const FirstPlatform: Platform := Platform(Width / 2.0 - PlatformWidth / 2.0, Height - 50.0)

  /** The platform `initGame` pushes in round `i` (1 <= i < PlatformCount) of its loop. */
  function BandPlatform(i: nat, r: real): Platform
    requires IsDraw(r)
  {
    Platform(RandomX(r), BandY(i))
  }

  /** The pool `initGame` builds, with `draws[i - 1]` the draw taken for platform `i`. */
  function InitialPlatforms(draws: seq<real>): seq<Platform>
    requires |draws| == PlatformCount - 1 && AllDraws(draws)
  {
    [FirstPlatform] + seq(PlatformCount - 1, k requires 0 <= k < PlatformCount - 1 => BandPlatform(k + 1, draws[k]))
  }

  /** The layout `initGame` promises: exactly `PlatformCount` platforms, the first under the
      player's start position (its horizontal extent covers the player's and its top is below the
      player's feet), the others in bands from the bottom up, each strictly above the previous
      one, and every platform on the board. */
  lemma InitialLayout(draws: seq<real>)
    requires |draws| == PlatformCount - 1 && AllDraws(draws)
    ensures var ps := InitialPlatforms(draws);
      |ps| == PlatformCount &&
      ps[0] == Platform(Width / 2.0 - PlatformWidth / 2.0, Height - 50.0) &&
      ps[0].x <= StartPlayer.x && StartPlayer.x + PlayerWidth <= ps[0].x + PlatformWidth &&
      StartPlayer.y + PlayerHeight < ps[0].y &&
      (forall i :: 1 <= i < PlatformCount ==>
        ps[i].y == Height - (i as real) * (Height / (PlatformCount as real)) &&
        0.0 <= ps[i].x < Width - PlatformWidth) &&
      (forall i, j :: 0 <= i < j < PlatformCount ==> ps[j].y < ps[i].y) &&
      (forall i :: 0 <= i < PlatformCount ==> OnBoard(ps[i]) && ps[i].y > 0.0)
  {
  }

  // ------------------------------------------------------------------ landings

  /** What the landing loop of `update` leaves behind: the player and the number of landings. */
  datatype Landing = Landing(player: Player, count: nat)

  /** The landing loop, platform by platform in pool order. Every test uses the player as the
      previous rounds left it, so a landing's reset of `velocityY` is seen by the later tests. */
  function Land(p: Player, pls: seq<Platform>): (r: Landing)
    decreases |pls|
  {
    if pls == [] then Landing(p, 0)
    else
      var prev := Land(p, pls[..|pls| - 1]);
      if Collides(prev.player, pls[|pls| - 1]) then
        Landing(prev.player.(vy := JumpForce), prev.count + 1)
      else prev
  }

  /** A landing resets `velocityY` to the (upward) jump force, and the landing test requires a
      falling player, so one pass registers AT MOST ONE landing: one exactly when the player as it
      entered the loop collides with some platform, and then only the vertical velocity changes. */
  lemma {:induction false} LandAtMostOnce(p: Player, pls: seq<Platform>)
    ensures Land(p, pls).count <= 1
    ensures Land(p, pls).count == 1 <==> exists i :: 0 <= i < |pls| && Collides(p, pls[i])
    ensures Land(p, pls).player == if Land(p, pls).count == 1 then p.(vy := JumpForce) else p
  {
    if pls != [] {
      var init := pls[..|pls| - 1];
      var last := pls[|pls| - 1];
      LandAtMostOnce(p, init);
      var prev := Land(p, init);
      if prev.count == 1 {
        CollidesIff(prev.player, last);
        assert !Collides(prev.player, last);
        var i :| 0 <= i < |init| && Collides(p, init[i]);
        assert pls[i] == init[i];
      } else {
        assert forall i :: 0 <= i < |init| ==> init[i] == pls[i];
      }
    }
  }

  // ------------------------------------------------------------------ scrolling

  /** One round of the scroll loop: move the platform down by `dy`; if that takes it below the
      canvas, put it back at the top at a new random column. */
  function Shift(pl: Platform, dy: real, r: real): Platform
    requires IsDraw(r)
  {
    var y := pl.y + dy;
    if y > Height then Platform(RandomX(r), 0.0) else Platform(pl.x, y)
  }

  /** The pool after the scroll loop, with `draws[i]` the draw used if platform `i` is recycled. */
  function Scroll(pls: seq<Platform>, dy: real, draws: seq<real>): seq<Platform>
    requires |draws| == |pls| && AllDraws(draws)
  {
    seq(|pls|, i requires 0 <= i < |pls| => Shift(pls[i], dy, draws[i]))
  }

  /** Whether the scroll loop recycles a platform. */
  predicate Falls(pl: Platform, dy: real)
  {
    pl.y + dy > Height
  }

  /** The number of platforms the scroll loop recycles. */
  function Recycled(pls: seq<Platform>, dy: real): (n: nat)
    ensures n <= |pls|
    decreases |pls|
  {
    if pls == [] then 0
    else Recycled(pls[..|pls| - 1], dy) + (if Falls(pls[|pls| - 1], dy) then 1 else 0)
  }

  /** Scrolling keeps the pool's size; afterwards no platform is below the canvas; a platform that
      fell off is at the top (y = 0) at a fresh column on the board, and every other one has moved
      down by exactly `dy` and kept its column. */
  lemma ScrollShape(pls: seq<Platform>, dy: real, draws: seq<real>)
    requires |draws| == |pls| && AllDraws(draws)
    ensures var qs := Scroll(pls, dy, draws);
      |qs| == |pls| &&
      (forall i :: 0 <= i < |qs| ==> qs[i].y <= Height) &&
      (forall i :: 0 <= i < |qs| && Falls(pls[i], dy) ==> qs[i].y == 0.0 && 0.0 <= qs[i].x < Width - PlatformWidth) &&
      (forall i :: 0 <= i < |qs| && !Falls(pls[i], dy) ==> qs[i] == Platform(pls[i].x, pls[i].y + dy))
  {
  }

  /** A pool on the board stays on the board when it is scrolled. */
  lemma ScrollOnBoard(pls: seq<Platform>, dy: real, draws: seq<real>)
    requires |draws| == |pls| && AllDraws(draws)
    requires forall i :: 0 <= i < |pls| ==> OnBoard(pls[i])
    ensures forall i :: 0 <= i < |pls| ==> OnBoard(Scroll(pls, dy, draws)[i])
  {
    ScrollShape(pls, dy, draws);
  }

  /** `Recycled` counts exactly the platforms that fall: none fall iff the count is 0, and all of
      them fall iff the count is the pool's size. */
  lemma {:induction false} RecycledCounts(pls: seq<Platform>, dy: real)
    ensures Recycled(pls, dy) == 0 <==> forall i :: 0 <= i < |pls| ==> !Falls(pls[i], dy)
    ensures Recycled(pls, dy) == |pls| <==> forall i :: 0 <= i < |pls| ==> Falls(pls[i], dy)
  {
    if pls != [] {
      var init := pls[..|pls| - 1];
      RecycledCounts(init, dy);
      assert forall i :: 0 <= i < |init| ==> init[i] == pls[i];
    }
  }
}
