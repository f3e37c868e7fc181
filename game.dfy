/**
 * One iteration of `main`'s `while running` loop, and the loop itself: events,
 * then (unless paused) the player's move, scoring at the top of the window, and
 * the obstacles moving in list order with a collision test after each.
 */
module MainLoop {
  import opened Settings
  import opened Players
  import opened Obstacles
  import opened Events

  /** Points for each crossing, and the speed the player gains with it. */
  const SCORE_INCREMENT: int := 10
  const SPEED_INCREMENT: int := 1

  /** Everything the loop reads and writes, as a value. */
  datatype GameState = GameState(control: Control, score: int, player: PlayerState, obstacles: seq<ObstacleState>)

  /** What one frame receives from outside: the polled events, the held keys and the clock. */
  datatype FrameInput = FrameInput(events: seq<Event>, keys: Keys, now: real)

  /** The state the loop starts in, for a kangaroo of the given size. */
  function InitialGame(width: int, height: int): (g: GameState)
    ensures !g.control.paused && g.control.running && g.control.escLastPressed == 0.0
    ensures g.score == 0 && ScoreValid(g)
    ensures g.player == InitialPlayer(width, height) && g.obstacles == Layout()
    ensures 0 <= width <= WINDOW_WIDTH && 0 <= height <= WINDOW_HEIGHT ==>
              WellFormed(g.player) && InWindow(g.player)
  {
    GameState(INITIAL_CONTROL, 0, InitialPlayer(width, height), Layout())
  }

  /** The score invariant: a non-negative multiple of the increment. */
  predicate ScoreValid(g: GameState)
  {
    g.score >= 0 && g.score % SCORE_INCREMENT == 0
  }

  /**
   * The player's part of a frame before the obstacles move: `move`, then, on
   * reaching the top edge, back to the start one unit faster.
   */
  function AdvancePlayer(p: PlayerState, keys: Keys, now: real): (r: PlayerState)
    // reaching the top sends the player to the exact start point, whatever its x, one unit faster
    ensures MovePlayer(p, keys, now).y <= 0 ==>
              r.x == p.startX && r.y == p.startY && r.speed == p.speed + SPEED_INCREMENT
    ensures MovePlayer(p, keys, now).y > 0 ==> r == MovePlayer(p, keys, now)
    // size, start point and jump parameters are kept either way
    ensures r.width == p.width && r.height == p.height && r.startX == p.startX && r.startY == p.startY
    ensures r.sprintSpeed == p.sprintSpeed && r.sprintDuration == p.sprintDuration && r.jumpSpeed == p.jumpSpeed
    // jump state is that of the move either way
    ensures r.isJumping == MovePlayer(p, keys, now).isJumping
    ensures r.lastSprintTime == MovePlayer(p, keys, now).lastSprintTime
    // a sprite lower than the window is never left standing on the top edge
    ensures WellFormed(p) ==> WellFormed(r) && InWindow(r)
    ensures WellFormed(p) && p.height < WINDOW_HEIGHT ==> r.y > 0
  {
    var m := MovePlayer(p, keys, now);
    if m.y <= 0 then ResetPlayer(m).(speed := m.speed + SPEED_INCREMENT) else m
  }

  /** Some obstacle of `moved` overlaps the player standing at `p`. */
  predicate Hit(p: PlayerState, moved: seq<ObstacleState>)
  {
    exists k :: 0 <= k < |moved| && Collides(moved[k], p)
  }

  /**
   * The player after the collision tests against the already moved obstacles,
   * in list order, each against the player's position at that moment.
   */
  function AfterTraffic(p: PlayerState, moved: seq<ObstacleState>): (r: PlayerState)
    ensures r == p || r == ResetPlayer(p)
    decreases |moved|
  {
    if |moved| == 0 then p
    else
      var q := AfterTraffic(p, moved[..|moved| - 1]);
      if Collides(moved[|moved| - 1], q) then ResetPlayer(q) else q
  }

  /**
   * Collision handling in closed form: the player is reset exactly when some
   * obstacle overlaps its position as it came out of move and scoring; several hits reset
   * it no further than one.
   */
  lemma {:induction false} AfterTrafficClosedForm(p: PlayerState, moved: seq<ObstacleState>)
    ensures AfterTraffic(p, moved) == if Hit(p, moved) then ResetPlayer(p) else p
    decreases |moved|
  {
    if |moved| > 0 {
      var init := moved[..|moved| - 1];
      AfterTrafficClosedForm(p, init);
      assert forall k :: 0 <= k < |init| ==> init[k] == moved[k];
    }
  }

  /** One iteration of the main loop. */
  function FrameStep(g: GameState, input: FrameInput): (r: GameState)
    ensures r.control == HandleEvents(g.control, input.events, input.now)
    // a paused frame touches neither the player, the obstacles nor the score
    ensures r.control.paused ==> r.score == g.score && r.player == g.player && r.obstacles == g.obstacles
    // otherwise every obstacle moves once
    ensures !r.control.paused ==> r.obstacles == MoveAll(g.obstacles)
    // the score rises by exactly one increment when the move reaches the top, and never falls
    ensures r.score == g.score || r.score == g.score + SCORE_INCREMENT
    ensures r.score == g.score + SCORE_INCREMENT <==>
              !r.control.paused && MovePlayer(g.player, input.keys, input.now).y <= 0
    // a crossing sends the player back to the exact start point, one unit faster
    ensures r.score == g.score + SCORE_INCREMENT ==>
              r.player.x == g.player.startX && r.player.y == g.player.startY &&
              r.player.speed == g.player.speed + SPEED_INCREMENT
    ensures r.score == g.score ==> r.player.speed == g.player.speed
    ensures ScoreValid(g) ==> ScoreValid(r)
    ensures WellFormed(g.player) ==> WellFormed(r.player)
    ensures WellFormed(g.player) && InWindow(g.player) ==> InWindow(r.player)
  {
    var c := HandleEvents(g.control, input.events, input.now);
    if c.paused then g.(control := c)
    else UnpausedFrame(g.(control := c), input.keys, input.now)
  }

  /** The part of a frame that runs only when not paused: the player, the scoring, the traffic. */
  function UnpausedFrame(g: GameState, keys: Keys, now: real): (r: GameState)
    // the control variables are not touched here
    ensures r.control == g.control
    // every point gained comes with one unit of speed per increment
    ensures r.score - g.score == SCORE_INCREMENT * (r.player.speed - g.player.speed)
  {
    var moved := MoveAll(g.obstacles);
    g.(score := if MovePlayer(g.player, keys, now).y <= 0 then g.score + SCORE_INCREMENT else g.score,
       player := AfterTraffic(AdvancePlayer(g.player, keys, now), moved),
       obstacles := moved)
  }

  /** A collision resets only the position: score, speed and jump state are kept. */
  lemma FrameCollisionResetsOnlyPosition(g: GameState, input: FrameInput)
    requires !HandleEvents(g.control, input.events, input.now).paused
    ensures var p := AdvancePlayer(g.player, input.keys, input.now);
            FrameStep(g, input).player == if Hit(p, MoveAll(g.obstacles)) then ResetPlayer(p) else p
  {
    AfterTrafficClosedForm(AdvancePlayer(g.player, input.keys, input.now), MoveAll(g.obstacles));
  }

  /**
   * The `while running` loop over a finite stream of frame inputs. A well-formed
   * player that starts inside the window is inside it after every run.
   */
  function RunFrames(g: GameState, inputs: seq<FrameInput>): (r: GameState)
    ensures WellFormed(g.player) && InWindow(g.player) ==> WellFormed(r.player) && InWindow(r.player)
    decreases |inputs|
  {
    if |inputs| == 0 || !g.control.running then g
    else RunFrames(FrameStep(g, inputs[0]), inputs[1..])
  }

  /**
   * Across any number of frames the score never decreases, stays a multiple of
   * the increment, and the player has gained one unit of speed per increment.
   */
  lemma {:induction false} ScoreMonotone(g: GameState, inputs: seq<FrameInput>)
    requires ScoreValid(g)
    ensures RunFrames(g, inputs).score >= g.score
    ensures ScoreValid(RunFrames(g, inputs))
    ensures RunFrames(g, inputs).score - g.score
         == SCORE_INCREMENT * (RunFrames(g, inputs).player.speed - g.player.speed)
    decreases |inputs|
  {
    if |inputs| > 0 && g.control.running {
      ScoreMonotone(FrameStep(g, inputs[0]), inputs[1..]);
    }
  }

  /** Pairwise different objects: the list never holds one obstacle twice. */
  predicate Distinct(obs: seq<MovingObstacle>)
  {
    forall i, j :: 0 <= i < |obs| && 0 <= j < |obs| && i != j ==> obs[i] != obs[j]
  }

  /** The obstacles' attributes, in list order. */
  function StatesOf(obs: seq<MovingObstacle>): (r: seq<ObstacleState>)
    reads set o | o in obs
    ensures |r| == |obs|
    ensures forall k :: 0 <= k < |obs| ==> r[k] == obs[k].State()
    decreases |obs|
  {
    if |obs| == 0 then []
    else StatesOf(obs[..|obs| - 1]) + [obs[|obs| - 1].State()]
  }

  /** The objects of `main`: its local control variables and score, the player and the obstacles. */
  class Game {
    var paused: bool
    var running: bool
    var escLastPressed: real
    var score: int
    const player: Player
    const obstacles: seq<MovingObstacle>

    ghost predicate Valid()
      reads this
    {
      Distinct(obstacles) && score >= 0 && score % SCORE_INCREMENT == 0
    }

    /** All of it, as a value. */
    function State(): GameState
      reads this, player, set o | o in obstacles
    {
      GameState(Control(paused, running, escLastPressed), score, player.State(), StatesOf(obstacles))
    }

    /** The loop variables' initial values (paused off, running, no Escape yet, score 0). */
    constructor (player: Player, obstacles: seq<MovingObstacle>)
      requires Distinct(obstacles)
      ensures Valid() && this.player == player && this.obstacles == obstacles
      ensures State() == GameState(INITIAL_CONTROL, 0, player.State(), StatesOf(obstacles))
    {
      this.player := player;
      this.obstacles := obstacles;
      paused := false;
      running := true;
      escLastPressed := 0.0;
      score := 0;
    }

    /** One iteration of the `while running` loop. */
    method Frame(input: FrameInput)
      requires Valid()
      modifies this, player, set o | o in obstacles
      ensures Valid()
      ensures State() == FrameStep(old(State()), input)
    {
      ghost var g := State();
      var c := DispatchEvents(Control(paused, running, escLastPressed), input.events, input.now);
      paused, running, escLastPressed := c.paused, c.running, c.escLastPressed;
      assert State() == g.(control := c);
      if !paused {
        Advance(input.keys, input.now);
        assert State() == UnpausedFrame(g.(control := c), input.keys, input.now);
      }
    }

    /** The unpaused part of a frame: the player, then the obstacles. */
    method Advance(keys: Keys, now: real)
      requires Valid()
      modifies this`score, player, set o | o in obstacles
      ensures Valid()
      ensures State() == UnpausedFrame(old(State()), keys, now)
    {
      ghost var g := State();
      ghost var obs := StatesOf(obstacles);
      UpdatePlayer(keys, now);
      ghost var a := player.State();
      assert StatesOf(obstacles) == obs;
      ghost var score1 := score;
      MoveTraffic();
      assert score == score1;
      assert player.State() == AfterTraffic(AdvancePlayer(g.player, keys, now), MoveAll(g.obstacles));
      assert StatesOf(obstacles) == MoveAll(g.obstacles);
    }

    /** The player's move and the scoring at the top edge (one unpaused frame, first half). */
    method UpdatePlayer(keys: Keys, now: real)
      requires Valid()
      modifies this`score, player
      ensures Valid()
      ensures player.State() == AdvancePlayer(old(player.State()), keys, now)
      ensures score == old(score) + if MovePlayer(old(player.State()), keys, now).y <= 0 then SCORE_INCREMENT else 0
    {
      player.Move(keys, now);
      if player.y <= 0 {
        player.ResetPosition();
        score := score + SCORE_INCREMENT;
        player.speed := player.speed + SPEED_INCREMENT;
      }
    }

    /** Each obstacle moves, then is tested against the player (one unpaused frame, second half). */
    method MoveTraffic()
      requires Distinct(obstacles)
      modifies player, set o | o in obstacles
      ensures StatesOf(obstacles) == MoveAll(old(StatesOf(obstacles)))
      ensures player.State() == AfterTraffic(old(player.State()), MoveAll(old(StatesOf(obstacles))))
    {
      ghost var p := player.State();
      ghost var moved := MoveAll(StatesOf(obstacles));
      var i := 0;
      while i < |obstacles|
        invariant 0 <= i <= |obstacles|
        invariant forall k :: 0 <= k < i ==> obstacles[k].State() == moved[k]
        invariant forall k :: i <= k < |obstacles| ==> obstacles[k].State() == old(obstacles[k].State())
        invariant player.State() == AfterTraffic(p, moved[..i])
      {
        MoveAndTest(i);
        assert moved[..i + 1][..i] == moved[..i];
        i := i + 1;
      }
      assert moved[..|obstacles|] == moved;
      assert StatesOf(obstacles) == moved;
    }

    /** The body of the obstacle loop for the `i`-th obstacle: move it, then test it against the player. */
    method MoveAndTest(i: nat)
      requires i < |obstacles|
      modifies player`x, player`y, obstacles[i]
      ensures obstacles[i].State() == MoveObstacle(old(obstacles[i].State()))
      ensures player.State() == if Collides(obstacles[i].State(), old(player.State()))
                                then ResetPlayer(old(player.State())) else old(player.State())
    {
      obstacles[i].Move();
      if obstacles[i].CheckCollision(player) {
        player.ResetPosition();
      }
    }

    /** The `while running` loop, fed one input per frame until it stops or the inputs run out. */
    method Play(inputs: seq<FrameInput>)
      requires Valid()
      modifies this, player, set o | o in obstacles
      ensures Valid()
      ensures State() == RunFrames(old(State()), inputs)
    {
      var i := 0;
      while i < |inputs| && running
        invariant 0 <= i <= |inputs|
        invariant Valid()
        invariant RunFrames(State(), inputs[i..]) == RunFrames(old(State()), inputs)
      {
        Frame(inputs[i]);
        assert inputs[i..][1..] == inputs[i + 1..];
        i := i + 1;
      }
    }
  }

  /** The eleven cars and trucks of `main`, created in list order. */
  method InitialObstacles() returns (obs: seq<MovingObstacle>)
    ensures Distinct(obs) && (forall o :: o in obs ==> fresh(o))
    ensures |obs| == |Layout()| && forall k :: 0 <= k < |obs| ==> obs[k].State() == Layout()[k]
  {
    var o0 := new MovingObstacle(250, 50, -3, 0, 80, 60);
    var o1 := new MovingObstacle(-350, 50, -3, 0, 80, 60);
    var o2 := new MovingObstacle(550, 50, -3, 0, 80, 60);
    var o3 := new MovingObstacle(600, 220, -4, 0, 100, 100);
    var o4 := new MovingObstacle(200, 250, -4, 0, 80, 60);
    var o5 := new MovingObstacle(400, 480, -4, 0, 80, 60);
    var o6 := new MovingObstacle(830, 125, -8, 0, 80, 60);
    var o7 := new MovingObstacle(200, 550, -4, 0, 80, 60);
    var o8 := new MovingObstacle(600, 530, -4, 0, 100, 100);
    var o9 := new MovingObstacle(-350, 600, -5, 0, 80, 60);
    var o10 := new MovingObstacle(300, 600, -5, 0, 80, 60);
    obs := [o0, o1, o2, o3, o4, o5, o6, o7, o8, o9, o10];
  }

  /** The set-up part of `main` for a kangaroo sprite of `width` by `height` pixels. */
  method NewGame(width: int, height: int) returns (g: Game)
    ensures fresh(g) && g.Valid()
    ensures g.State() == InitialGame(width, height)
  {
    var obstacles := InitialObstacles();
    var player := new Player(width, height);
    g := new Game(player, obstacles);
  }
}
