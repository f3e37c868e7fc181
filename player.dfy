/**
 * The kangaroo the player steers: arrow keys move it by `speed` pixels per frame,
 * SPACE gives a one-shot upward jump, and the sprite is kept inside the window.
 */
module Players {
  import opened Settings

  /** The keys `Player.move` looks at, as sampled for one frame. */
  datatype Keys = Keys(space: bool, left: bool, right: bool, up: bool, down: bool)

  /** Values the constructor gives the speed and jump parameters. */
  const INITIAL_SPEED: int := 4
  const SPRINT_SPEED: int := 8       // stored by the constructor, never read by the game
  const SPRINT_DURATION: real := 0.2 // seconds a jump lasts
  const JUMP_SPEED: int := 12        // pixels of the upward jump impulse

  /** Every attribute of a player, as a value. Times are in seconds. */
  datatype PlayerState = PlayerState(
    x: int, y: int,
    width: int, height: int,
    startX: int, startY: int,
    speed: int,
    sprintSpeed: int,
    sprintDuration: real,
    lastSprintTime: real,
    jumpSpeed: int,
    isJumping: bool)

  /** `max(0, min(hi, v))`: the clamp the player's position goes through each frame. */
  function Clamp(v: int, hi: int): (r: int)
    ensures 0 <= r
    ensures hi >= 0 ==> r <= hi
    ensures 0 <= v <= hi ==> r == v
    ensures v < 0 || hi < 0 ==> r == 0
    ensures 0 <= hi < v ==> r == hi
  {
    var m := if hi < v then hi else v;
    if m < 0 then 0 else m
  }

  /** The horizontally centred, bottom-of-window start point for a sprite of the given size. */
  function StartX(width: int): int { (WINDOW_WIDTH - width) / 2 }  // Python `//` by 2: floor, as Dafny's `/` by a positive divisor
  function StartY(height: int): int { WINDOW_HEIGHT - height }

  /** The sprite's bounding box lies wholly inside the window. */
  predicate InWindow(p: PlayerState)
  {
    0 <= p.x <= WINDOW_WIDTH - p.width && 0 <= p.y <= WINDOW_HEIGHT - p.height
  }

  /** A sprite that fits the window, with the start point the constructor computes for it. */
  predicate WellFormed(p: PlayerState)
  {
    0 <= p.width <= WINDOW_WIDTH && 0 <= p.height <= WINDOW_HEIGHT &&
    p.startX == StartX(p.width) && p.startY == StartY(p.height)
  }

  /** The player the constructor builds for a sprite of the given size. */
  function InitialPlayer(width: int, height: int): (p: PlayerState)
    ensures p.width == width && p.height == height
    ensures p.x == p.startX && p.y == p.startY && p.startY == StartY(height) && p.startX == StartX(width)
    ensures 0 <= width <= WINDOW_WIDTH && 0 <= height <= WINDOW_HEIGHT ==> WellFormed(p) && InWindow(p)
    ensures !p.isJumping && p.lastSprintTime == 0.0
    ensures p.speed == INITIAL_SPEED && p.jumpSpeed == JUMP_SPEED && p.sprintDuration == SPRINT_DURATION
  {
    var sx := StartX(width);
    var sy := StartY(height);
    PlayerState(sx, sy, width, height, sx, sy, INITIAL_SPEED, SPRINT_SPEED, SPRINT_DURATION, 0.0, JUMP_SPEED, false)
  }

  /** Whether SPACE starts a jump this frame: only when no jump is under way. */
  predicate JumpStarts(p: PlayerState, keys: Keys)
  {
    keys.space && !p.isJumping
  }

  /**
   * One call of `Player.move` at time `now`, step by step as the source does it:
   * jump impulse, the four arrow displacements, the clamp, then the end-of-jump test
   * with its second `max(0, y)`.
   */
  function MovePlayer(p: PlayerState, keys: Keys, now: real): (r: PlayerState)
    // whatever keys are held, a sprite that fits ends up inside the window
    ensures p.width <= WINDOW_WIDTH ==> 0 <= r.x <= WINDOW_WIDTH - p.width
    ensures p.height <= WINDOW_HEIGHT ==> 0 <= r.y <= WINDOW_HEIGHT - p.height
    // the position is the clamped sum of independent displacements (jump and UP add up);
    // the re-clamp at the end of a jump never changes y
    ensures r.x == Clamp(p.x - (if keys.left then p.speed else 0) + (if keys.right then p.speed else 0),
                         WINDOW_WIDTH - p.width)
    ensures r.y == Clamp(p.y - (if JumpStarts(p, keys) then p.jumpSpeed else 0)
                             - (if keys.up then p.speed else 0) + (if keys.down then p.speed else 0),
                         WINDOW_HEIGHT - p.height)
    // a jump is timestamped only when it starts; holding SPACE during a jump does nothing
    ensures r.lastSprintTime == if JumpStarts(p, keys) then now else p.lastSprintTime
    // the player is jumping afterwards exactly when a jump was or has just been started
    // and its duration has not yet been exceeded
    ensures r.isJumping <==> (p.isJumping || keys.space) && !(now - r.lastSprintTime > p.sprintDuration)
    // nothing else changes
    ensures r.width == p.width && r.height == p.height && r.startX == p.startX && r.startY == p.startY
    ensures r.speed == p.speed && r.sprintSpeed == p.sprintSpeed && r.sprintDuration == p.sprintDuration
    ensures r.jumpSpeed == p.jumpSpeed
    ensures WellFormed(p) ==> WellFormed(r) && InWindow(r)
  {
    var jumps := JumpStarts(p, keys);
    var jumping := p.isJumping || jumps;
    var y0 := if jumps then p.y - p.jumpSpeed else p.y;
    var last := if jumps then now else p.lastSprintTime;
    var x1 := if keys.left then p.x - p.speed else p.x;
    var x2 := if keys.right then x1 + p.speed else x1;
    var y1 := if keys.up then y0 - p.speed else y0;
    var y2 := if keys.down then y1 + p.speed else y1;
    var cx := Clamp(x2, WINDOW_WIDTH - p.width);
    var cy := Clamp(y2, WINDOW_HEIGHT - p.height);
    var ends := jumping && now - last > p.sprintDuration;
    p.(x := cx,
       y := if ends then (if cy < 0 then 0 else cy) else cy,
       lastSprintTime := last,
       isJumping := jumping && !ends)
  }

  /** `Player.reset_position`: back to the start point, nothing else touched. */
  function ResetPlayer(p: PlayerState): (r: PlayerState)
    ensures r.x == p.startX && r.y == p.startY
    ensures WellFormed(p) ==> WellFormed(r) && InWindow(r)
    ensures r.(x := p.x, y := p.y) == p
  {
    p.(x := p.startX, y := p.startY)
  }

  /** Holding SPACE while a jump is under way has no effect at all. */
  lemma SpaceIgnoredWhileJumping(p: PlayerState, keys: Keys, now: real)
    requires p.isJumping
    ensures MovePlayer(p, keys.(space := true), now) == MovePlayer(p, keys.(space := false), now)
  {
  }

  /**
   * A reset is idempotent, and a reset after a move lands where a reset alone would
   * (the second half is a corollary of `MovePlayer` keeping the start point).
   */
  lemma ResetForgetsPosition(p: PlayerState, keys: Keys, now: real)
    ensures ResetPlayer(ResetPlayer(p)) == ResetPlayer(p)
    ensures ResetPlayer(MovePlayer(p, keys, now)).x == ResetPlayer(p).x
    ensures ResetPlayer(MovePlayer(p, keys, now)).y == ResetPlayer(p).y
  {
  }

  /** The kangaroo, whose `move` and `reset_position` update its fields in place. */
  class Player {
    const width: int
    const height: int
    const startX: int
    const startY: int
    var x: int
    var y: int
    var speed: int
    const sprintSpeed: int
    const sprintDuration: real
    var lastSprintTime: real
    const jumpSpeed: int
    var isJumping: bool

    /** All attributes, as a value. */
    function State(): PlayerState
      reads this
    {
      PlayerState(x, y, width, height, startX, startY, speed, sprintSpeed, sprintDuration,
                  lastSprintTime, jumpSpeed, isJumping)
    }

    /** `Player.__init__` for a sprite of `width` by `height` pixels. */
    constructor (width: int, height: int)
      ensures State() == InitialPlayer(width, height)
    {
      this.width := width;
      this.height := height;
      startX := StartX(width);
      startY := StartY(height);
      x := StartX(width);
      y := StartY(height);
      speed := INITIAL_SPEED;
      sprintSpeed := SPRINT_SPEED;
      sprintDuration := SPRINT_DURATION;
      lastSprintTime := 0.0;
      jumpSpeed := JUMP_SPEED;
      isJumping := false;
    }

    /** `Player.move` with the keys held and the clock reading `now`. */
    method Move(keys: Keys, now: real)
      modifies this
      ensures State() == MovePlayer(old(State()), keys, now)
    {
      if keys.space && !isJumping {
        isJumping := true;
        y := y - jumpSpeed;
        lastSprintTime := now;
      }
      if keys.left {
        x := x - speed;
      }
      if keys.right {
        x := x + speed;
      }
      if keys.up {
        y := y - speed;
      }
      if keys.down {
        y := y + speed;
      }
      x := Clamp(x, WINDOW_WIDTH - width);
      y := Clamp(y, WINDOW_HEIGHT - height);
      if isJumping && now - lastSprintTime > sprintDuration {
        isJumping := false;
        y := if y < 0 then 0 else y;
      }
    }

    /** `Player.reset_position`. */
    method ResetPosition()
      modifies this`x, this`y
      ensures State() == ResetPlayer(old(State()))
    {
      x := startX;
      y := startY;
    }
  }
}
