/** The whole game state of a `DoodleJump` object as a value, and what one frame, the start of a
    run and a sequence of frames do to it. The class in module `Game` is proved to follow these
    functions; the lemmas here state what they guarantee. */
module Simulation {
  import opened Physics
  import opened World

  /** The fields of the game object that the simulation reads and writes. */
  datatype GameState = GameState(
    player: Player,
    platforms: seq<Platform>,
    score: nat,
    highScore: int,
    running: bool,
    name: string)

  function Max(a: int, b: int): (m: int)
    ensures m >= a && m >= b && (m == a || m == b)
  {
    if a < b then b else a
  }

  /** The invariant every reachable state keeps: a full pool on the board, the player on the
      canvas horizontally and moving sideways at -speed, 0 or speed, and the high score at least
      the current score. */
  predicate ValidState(s: GameState)
  {
    |s.platforms| == PlatformCount &&
    (forall i :: 0 <= i < |s.platforms| ==> OnBoard(s.platforms[i])) &&
    0.0 <= s.player.x <= Width &&
    (s.player.vx == 0.0 || s.player.vx == Speed || s.player.vx == -Speed) &&
    s.score <= s.highScore
  }

  /** One call of `update`, in its order: integrate and wrap, the landing loop, the camera scroll
      with recycling when the player is above the midpoint, and the end of the run when the player
      is below the canvas. Every score change passes through `updateScore`, so the high score ends
      as the larger of its old value and the final score. The source calls `updateScore` only
      after a score change, while this function takes the maximum on every frame: the two differ
      only in a state whose score exceeds its high score, which `ValidState` rules out. */
  function Step(s: GameState, draws: seq<real>): (t: GameState)
    requires |draws| == |s.platforms| && AllDraws(draws)
    ensures |t.platforms| == |s.platforms|
  {
    var landing := Land(Advance(s.player), s.platforms);
    var p := landing.player;
    var landed := s.score + LandingBonus * landing.count;
    var scrolls := p.y < Height / 2.0;
    var dy := -p.vy;
    var q := if scrolls then p.(y := Height / 2.0) else p;
    var score := landed + (if scrolls then RecycleBonus * Recycled(s.platforms, dy) else 0);
    GameState(
      q,
      if scrolls then Scroll(s.platforms, dy, draws) else s.platforms,
      score,
      Max(s.highScore, score),
      s.running && !(q.y > Height),
      s.name)
  }

  /** One call of `gameLoop`: a frame is simulated only while the run is active. */
  function TickState(s: GameState, draws: seq<real>): (t: GameState)
    requires |draws| == |s.platforms| && AllDraws(draws)
    ensures |t.platforms| == |s.platforms|
    ensures !s.running ==> t == s
  {
    if s.running then Step(s, draws) else s
  }

  /** What one frame does, in closed form. The player moves by its velocity and wraps; its
      vertical velocity grows by gravity unless it landed on some platform, in which case it is
      the jump force; it is held at the midpoint when it got above it, and then the pool scrolls
      by the negated final velocity. The score grows by one landing bonus if there was any landing
      (however many platforms were hit) plus one recycle bonus per recycled platform; the high
      score is the running maximum; the run ends exactly when the player is below the canvas. */
  lemma StepEffect(s: GameState, draws: seq<real>)
    requires |draws| == |s.platforms| && AllDraws(draws)
    ensures var a := Advance(s.player);
      var landed := exists i :: 0 <= i < |s.platforms| && Collides(a, s.platforms[i]);
      var vy := if landed then JumpForce else s.player.vy + Gravity;
      var scrolled := s.player.y + s.player.vy < Height / 2.0;
      var t := Step(s, draws);
      t.player == Player(Wrap(s.player.x + s.player.vx),
                         if scrolled then Height / 2.0 else s.player.y + s.player.vy,
                         s.player.vx, vy, s.player.direction) &&
      t.platforms == (if scrolled then Scroll(s.platforms, -vy, draws) else s.platforms) &&
      t.score == s.score + (if landed then LandingBonus else 0)
                         + (if scrolled then RecycleBonus * Recycled(s.platforms, -vy) else 0) &&
      t.highScore == Max(s.highScore, t.score) &&
      (t.running <==> s.running && s.player.y + s.player.vy <= Height) &&
      t.name == s.name
  {
    LandAtMostOnce(Advance(s.player), s.platforms);
  }

  /** Within a frame the score, the high score and the pool size never go down, and the score
      goes up by at most one landing bonus plus one recycle bonus per platform. */
  lemma StepScoreBounds(s: GameState, draws: seq<real>)
    requires |draws| == |s.platforms| && AllDraws(draws)
    ensures var t := Step(s, draws);
      s.score <= t.score <= s.score + LandingBonus + RecycleBonus * |s.platforms| &&
      s.highScore <= t.highScore && t.score <= t.highScore
  {
    StepEffect(s, draws);
  }

  /** A frame keeps every reachable state reachable: the pool stays full and on the board (no
      platform is left below the canvas after a scroll), the player stays on the canvas
      horizontally, and the high score stays at least the score. */
  lemma StepPreservesValid(s: GameState, draws: seq<real>)
    requires ValidState(s) && |draws| == |s.platforms| && AllDraws(draws)
    ensures ValidState(Step(s, draws))
  {
    StepEffect(s, draws);
    var vy := Step(s, draws).player.vy;
    ScrollOnBoard(s.platforms, -vy, draws);
  }

  // ------------------------------------------------------------------ runs of several frames

  predicate ValidTicks(ticks: seq<seq<real>>)
  {
    forall k :: 0 <= k < |ticks| ==> |ticks[k]| == PlatformCount && AllDraws(ticks[k])
  }

  /** The state after the frame driver has called `gameLoop` once per entry of `ticks`. */
  function Run(s: GameState, ticks: seq<seq<real>>): (t: GameState)
    requires |s.platforms| == PlatformCount && ValidTicks(ticks)
    ensures |t.platforms| == PlatformCount
    decreases |ticks|
  {
    if ticks == [] then s else Run(TickState(s, ticks[0]), ticks[1..])
  }

  /** Across any number of frames (and so any number of recycles) the invariant holds. */
  lemma {:induction false} RunPreservesValid(s: GameState, ticks: seq<seq<real>>)
    requires ValidState(s) && ValidTicks(ticks)
    ensures ValidState(Run(s, ticks))
    decreases |ticks|
  {
    if ticks != [] {
      if s.running {
        StepPreservesValid(s, ticks[0]);
      }
      RunPreservesValid(TickState(s, ticks[0]), ticks[1..]);
    }
  }

  /** Within a run the score and the high score never decrease, and a run that has ended stays
      ended: no sequence of frames turns `running` back on. */
  lemma {:induction false} RunMonotone(s: GameState, ticks: seq<seq<real>>)
    requires |s.platforms| == PlatformCount && ValidTicks(ticks)
    ensures var t := Run(s, ticks);
      s.score <= t.score && s.highScore <= t.highScore && (t.running ==> s.running)
    decreases |ticks|
  {
    if ticks != [] {
      if s.running {
        StepScoreBounds(s, ticks[0]);
        StepEffect(s, ticks[0]);
      }
      RunMonotone(TickState(s, ticks[0]), ticks[1..]);
    }
  }

  /** Once the run has ended, further frames change nothing at all. */
  lemma {:induction false} RunStaysStopped(s: GameState, ticks: seq<seq<real>>)
    requires |s.platforms| == PlatformCount && ValidTicks(ticks) && !s.running
    ensures Run(s, ticks) == s
    decreases |ticks|
  {
    if ticks != [] {
      RunStaysStopped(s, ticks[1..]);
    }
  }

  // ------------------------------------------------------------------ starting a run

  /** The state `startGame` (after taking the name) and `restartGame` set up before their first
      `gameLoop` call: running, a fresh pool, the score reset (and passed through `updateScore`),
      and an upward jump. The player's position and sideways motion are NOT reset. */
  function Begin(s: GameState, draws: seq<real>): GameState
    requires |draws| == PlatformCount - 1 && AllDraws(draws)
  {
    s.(player := s.player.(vy := JumpForce),
       platforms := InitialPlatforms(draws),
       score := 0,
       highScore := Max(s.highScore, 0),
       running := true)
  }

  /** A started run is active, scores 0 and jumps, has the layout `initGame` builds, keeps (and
      never lowers) the high score across the run boundary, and is a valid state whenever the
      player was on the canvas with a legal sideways speed. */
  lemma BeginRun(s: GameState, draws: seq<real>)
    requires |draws| == PlatformCount - 1 && AllDraws(draws)
    ensures var t := Begin(s, draws);
      t.running && t.score == 0 && t.player.vy == JumpForce &&
      t.player.x == s.player.x && t.player.y == s.player.y &&
      t.highScore == Max(s.highScore, 0) && t.name == s.name &&
      t.platforms == InitialPlatforms(draws) &&
      |t.platforms| == PlatformCount && t.platforms[0] == FirstPlatform &&
      ((0.0 <= s.player.x <= Width && (s.player.vx == 0.0 || s.player.vx == Speed || s.player.vx == -Speed))
         ==> ValidState(t))
  {
    InitialLayout(draws);
  }

  /** Because a new run keeps the player where the last one ended, a run started when the player
      is more than one jump impulse below the canvas ends on its very first frame, scoring
      nothing: the first frame only lifts the player by 15 and a rising player cannot land. */
  lemma RestartAfterDeepFall(s: GameState, initDraws: seq<real>, tickDraws: seq<real>)
    requires |initDraws| == PlatformCount - 1 && AllDraws(initDraws)
    requires |tickDraws| == PlatformCount && AllDraws(tickDraws)
    requires s.player.y > Height - JumpForce
    ensures var t := TickState(Begin(s, initDraws), tickDraws);
      !t.running && t.score == 0
  {
    var b := Begin(s, initDraws);
    BeginRun(s, initDraws);
    var a := Advance(b.player);
    forall i | 0 <= i < |b.platforms|
      ensures !Collides(a, b.platforms[i])
    {
      CollidesIff(a, b.platforms[i]);
    }
    LandAtMostOnce(a, b.platforms);
  }
}
