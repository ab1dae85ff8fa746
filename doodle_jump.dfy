/** The `DoodleJump` game object: its fields, the run state machine (`startGame`, `restartGame`,
    `gameOver`, the guard of `gameLoop`), the key handlers, `updateScore`, `initGame` and the
    frame step `update`, each updating the fields in place as the source does. `Tick`, `Update`,
    `StartGame` and `RestartGame` are proved to leave the object in the state the functions of
    module `Simulation` describe, and `InitGame` the pool `World.InitialPlatforms` describes;
    `HandleKeyDown`, `HandleKeyUp`, `UpdateScore` and `GameOver` state their effect on the fields
    directly. */
module Game {
  import opened Physics
  import opened World
  import opened Text
  import opened Simulation

  /** The `key` of a keyboard event, as far as the handlers distinguish it. */
  datatype Key = ArrowLeft | ArrowRight | OtherKey

  /** What `startGame` did: started a run, did nothing because a run is active, or refused a
      blank name (where the source shows the "Please enter your name!" alert). */
  datatype StartOutcome = Started | Ignored | NameRequired

  class DoodleJump {
    var player: Player
    var platforms: seq<Platform>
    var score: nat
    var highScore: int
    var gameRunning: bool
    var playerName: string

    function State(): GameState
      reads this
    {
      GameState(player, platforms, score, highScore, gameRunning, playerName)
    }

    ghost predicate Valid()
      reads this
    {
      ValidState(State())
    }

    /** The constructor: not running, score 0, the high score loaded from storage (an already
        parsed value, 0 when nothing was stored), the player at its start position, then
        `initGame`. */
    constructor (storedHighScore: int, draws: seq<real>)
      requires |draws| == PlatformCount - 1 && AllDraws(draws)
      ensures Valid()
      ensures State() == GameState(StartPlayer, InitialPlatforms(draws), 0, Max(storedHighScore, 0), false, "")
    {
      gameRunning := false;
      score := 0;
      highScore := storedHighScore;
      playerName := "";
      player := StartPlayer;
      platforms := [];
      new;
      InitGame(draws);
      InitialLayout(draws);
    }

    /** `initGame`: a fresh pool built platform by platform, and the score reset to 0. */
    method InitGame(draws: seq<real>)
      requires |draws| == PlatformCount - 1 && AllDraws(draws)
      modifies this
      ensures State() == old(State()).(platforms := InitialPlatforms(draws), score := 0,
                                       highScore := Max(old(highScore), 0))
    {
      platforms := [];
      score := 0;
      UpdateScore();
      platforms := platforms + [Platform(Width / 2.0 - PlatformWidth / 2.0, Height - 50.0)];
      for i := 1 to PlatformCount
        invariant platforms == InitialPlatforms(draws)[..i]
        invariant State() == old(State()).(platforms := platforms, score := 0,
                                           highScore := Max(old(highScore), 0))
      {
        platforms := platforms + [Platform(RandomX(draws[i - 1]), Height - (i as real) * (Height / (PlatformCount as real)))];
      }
    }

    /** `restartGame`: starts a run without asking for a name (whether or not one is active),
        then runs the first `gameLoop` call. */
    method RestartGame(initDraws: seq<real>, tickDraws: seq<real>)
      requires Valid()
      requires |initDraws| == PlatformCount - 1 && AllDraws(initDraws)
      requires |tickDraws| == PlatformCount && AllDraws(tickDraws)
      modifies this
      ensures Valid()
      ensures State() == TickState(Begin(old(State()), initDraws), tickDraws)
    {
      gameRunning := true;
      InitGame(initDraws);
      player := player.(vy := JumpForce);
      BeginRun(old(State()), initDraws);
      Tick(tickDraws);
    }

    /** `startGame`: ignored while a run is active; a name that trims to nothing is refused and
        changes nothing; otherwise the trimmed name is kept, a run starts and the first
        `gameLoop` call runs. */
    method StartGame(nameInput: string, initDraws: seq<real>, tickDraws: seq<real>) returns (outcome: StartOutcome)
      requires Valid()
      requires |initDraws| == PlatformCount - 1 && AllDraws(initDraws)
      requires |tickDraws| == PlatformCount && AllDraws(tickDraws)
      modifies this
      ensures Valid()
      ensures outcome == if old(gameRunning) then Ignored
                         else if AllBlank(nameInput) then NameRequired
                         else Started
      ensures outcome != Started ==> State() == old(State())
      ensures outcome == Started ==>
        State() == TickState(Begin(old(State()).(name := Trim(nameInput)), initDraws), tickDraws)
    {
      if !gameRunning {
        TrimEmptyIff(nameInput);
        if Trim(nameInput) == [] {
          return NameRequired;
        }
        playerName := Trim(nameInput);
        gameRunning := true;
        InitGame(initDraws);
        player := player.(vy := JumpForce);
        BeginRun(old(State()).(name := Trim(nameInput)), initDraws);
        Tick(tickDraws);
        return Started;
      }
      return Ignored;
    }

    /** `handleKeyDown`: while a run is active an arrow key sets the sideways speed and the facing
        direction; otherwise nothing changes. */
    method HandleKeyDown(key: Key)
      requires Valid()
      modifies this`player
      ensures Valid()
      ensures player == if !gameRunning then old(player)
                        else if key == ArrowLeft then old(player).(vx := -Speed, direction := Left)
                        else if key == ArrowRight then old(player).(vx := Speed, direction := Right)
                        else old(player)
    {
      if gameRunning {
        if key == ArrowLeft {
          player := player.(vx := -Speed, direction := Left);
        }
        if key == ArrowRight {
          player := player.(vx := Speed, direction := Right);
        }
      }
    }

    /** `handleKeyUp`: releasing either arrow stops sideways motion, even if the other arrow is
        still held, and whether or not a run is active. */
    method HandleKeyUp(key: Key)
      requires Valid()
      modifies this`player
      ensures Valid()
      ensures player == if key == ArrowLeft || key == ArrowRight then old(player).(vx := 0.0) else old(player)
    {
      if key == ArrowLeft || key == ArrowRight {
        player := player.(vx := 0.0);
      }
    }

    /** `updateScore`: the high score is raised to the score when, and only when, it is exceeded. */
    method UpdateScore()
      modifies this`highScore
      ensures highScore == Max(old(highScore), score)
      ensures highScore != old(highScore) <==> score > old(highScore)
    {
      if score > highScore {
        highScore := score;
      }
    }

    /** The state change of `gameOver`: the run is no longer active. */
    method GameOver()
      modifies this`gameRunning
      ensures !gameRunning
    {
      gameRunning := false;
    }

    /** The guard of `gameLoop`: one frame is simulated only while the run is active. */
    method Tick(draws: seq<real>)
      requires Valid() && |draws| == PlatformCount && AllDraws(draws)
      modifies this
      ensures Valid()
      ensures State() == TickState(old(State()), draws)
    {
      if gameRunning {
        Update(draws);
      }
    }

    /** `update`: one frame of the simulation, with `draws[i]` the draw used if platform `i` is
        recycled. */
    method Update(draws: seq<real>)
      requires Valid() && |draws| == PlatformCount && AllDraws(draws)
      modifies this
      ensures Valid()
      ensures State() == Step(old(State()), draws)
    {
      // integrate the motion
      player := player.(x := player.x + player.vx);
      player := player.(y := player.y + player.vy);
      player := player.(vy := player.vy + Gravity);

      // wrap around horizontally
      if player.x > Width {
        player := player.(x := 0.0);
      } else if player.x < 0.0 {
        player := player.(x := Width);
      }
      assert player == Advance(old(player));

      LandOnPlatforms();

      // follow the player with the camera
      if player.y < Height / 2.0 {
        player := player.(y := Height / 2.0);
        ScrollPlatforms(draws);
      }

      // the player fell below the canvas
      if player.y > Height {
        GameOver();
      }
      StepPreservesValid(old(State()), draws);
    }

    /** The landing loop of `update`: every platform in pool order is tested against the player
        as the earlier rounds left it, and each landing jumps and scores. */
    method LandOnPlatforms()
      requires score <= highScore
      modifies this`player, this`score, this`highScore
      ensures player == Land(old(player), platforms).player
      ensures score == old(score) + LandingBonus * Land(old(player), platforms).count
      ensures highScore == Max(old(highScore), score)
    {
      var i := 0;
      while i < |platforms|
        invariant 0 <= i <= |platforms|
        invariant player == Land(old(player), platforms[..i]).player
        invariant score == old(score) + LandingBonus * Land(old(player), platforms[..i]).count
        invariant highScore == Max(old(highScore), score)
      {
        assert platforms[..i + 1][..i] == platforms[..i];
        if Collides(player, platforms[i]) {
          player := player.(vy := JumpForce);
          score := score + LandingBonus;
          UpdateScore();
        }
        i := i + 1;
      }
      assert platforms[..i] == platforms;
    }

    /** The scroll loop of `update`: every platform moves down by the player's negated vertical
        velocity, and one that leaves the canvas at the bottom is recycled to the top at the
        column `draws[i]` gives, scoring. */
    method ScrollPlatforms(draws: seq<real>)
      requires |draws| == |platforms| && AllDraws(draws) && score <= highScore
      modifies this`platforms, this`score, this`highScore
      ensures platforms == Scroll(old(platforms), -player.vy, draws)
      ensures score == old(score) + RecycleBonus * Recycled(old(platforms), -player.vy)
      ensures highScore == Max(old(highScore), score)
    {
      var i := 0;
      while i < |platforms|
        invariant 0 <= i <= |platforms| == |old(platforms)|
        invariant forall j :: 0 <= j < i ==> platforms[j] == Shift(old(platforms)[j], -player.vy, draws[j])
        invariant forall j :: i <= j < |platforms| ==> platforms[j] == old(platforms)[j]
        invariant score == old(score) + RecycleBonus * Recycled(old(platforms)[..i], -player.vy)
        invariant highScore == Max(old(highScore), score)
      {
        assert old(platforms)[..i + 1][..i] == old(platforms)[..i];
        var platform := platforms[i];
        platform := platform.(y := platform.y + -player.vy);
        if platform.y > Height {
          platform := platform.(y := 0.0);
          platform := platform.(x := RandomX(draws[i]));
          score := score + RecycleBonus;
          UpdateScore();
        }
        platforms := platforms[i := platform];
        i := i + 1;
      }
      assert old(platforms)[..i] == old(platforms);
    }
  }
}
