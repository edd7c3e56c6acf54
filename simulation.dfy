/** One frame of the game as a function of the state the loop keeps and of what the platform
    reports that frame.  Each phase of the loop body is a `State -> State` function; the
    class in module Game is proved to follow them. */
module Simulation {
  import opened Geometry
  import opened Entities
  import opened Collision
  import opened Retention

  /** What one frame reads from the platform: the frame time, the screen size, the held keys,
      whether Space was pressed this frame, and the abscissa the random generator drew. */
  datatype Input = Input(
    dt: real,
    width: real,
    height: real,
    right: bool,
    left: bool,
    up: bool,
    down: bool,
    enter: bool,
    fire: bool,
    spawnX: real)

  /** The random abscissa lies in `0.0..width`, the range the enemy spawner draws from. */
  predicate SpawnInRange(input: Input) {
    0.0 <= input.spawnX < input.width
  }

  /** `r` is the platform's square root of two, the length of a diagonal key direction. */
  predicate IsRootTwo(r: real) {
    r > 0.0 && r * r == 2.0
  }

  /** The locals of the game loop: `player_rect`, `enemy_vec`, `projectile_vec`, `score`,
      `spawn_timer` and `game_over`. */
  datatype State = State(
    player: Rectangle,
    enemies: seq<Rectangle>,
    projectiles: seq<Rectangle>,
    score: int,
    spawnTimer: real,
    gameOver: bool)

  /** The state before the first frame. */
  function Initial(width: real, height: real): (s: State)
    ensures s.player == SetupPlayer(width, height)
    ensures s.enemies == [] && s.projectiles == [] && s.score == 0
    ensures s.spawnTimer == 1.0 && !s.gameOver
  {
    State(SetupPlayer(width, height), [], [], 0, 1.0, false)
  }

  /** What holds between frames: the timer is in (0, 1], nothing marked is left over and
      the player is never marked. */
  predicate Inv(s: State) {
    0.0 < s.spawnTimer <= 1.0 && Settled(s.enemies) && Settled(s.projectiles) && !s.player.destroy
  }

  // ----- spawn countdown -----

  /** Count the timer down by `dt`; once it reaches zero, one enemy appears at `(x, 0)` and the
      timer restarts at exactly one second, whatever the overshoot. */
  function SpawnPhase(s: State, dt: real, x: real): (r: State)
    ensures s.spawnTimer - dt <= 0.0 ==> r.enemies == s.enemies + [SetupEnemy(x)] && r.spawnTimer == 1.0
    ensures s.spawnTimer - dt > 0.0 ==> r.enemies == s.enemies && r.spawnTimer == s.spawnTimer - dt
    ensures r.player == s.player && r.projectiles == s.projectiles
    ensures r.score == s.score && r.gameOver == s.gameOver
    ensures 0.0 < s.spawnTimer <= 1.0 && dt >= 0.0 ==> 0.0 < r.spawnTimer <= 1.0
  {
    var t := s.spawnTimer - dt;
    if t <= 0.0 then s.(enemies := s.enemies + [SetupEnemy(x)], spawnTimer := 1.0)
    else s.(spawnTimer := t)
  }

  // ----- input -----

  /** The raw key direction: Right wins over Left, Up (towards y = 0) wins over Down. */
  function Direction(right: bool, left: bool, up: bool, down: bool): (d: Vec2)
    ensures (d.x == 1.0 <==> right) && (d.x == -1.0 <==> !right && left)
    ensures d.x == 0.0 <==> !right && !left
    ensures (d.y == -1.0 <==> up) && (d.y == 1.0 <==> !up && down)
    ensures d.y == 0.0 <==> !up && !down
  {
    Vec2(if right then 1.0 else if left then -1.0 else 0.0,
         if up then -1.0 else if down then 1.0 else 0.0)
  }

  /** The length of that direction, as `length()` computes it: `rootTwo` on a diagonal, one
      on an axis, zero at rest. */
  function DirectionLength(right: bool, left: bool, up: bool, down: bool, rootTwo: real): (len: real)
    ensures (right || left) != (up || down) ==> len == 1.0
    ensures !right && !left && !up && !down ==> len == 0.0
  {
    var horizontal, vertical := right || left, up || down;
    if horizontal && vertical then rootTwo
    else if horizontal || vertical then 1.0
    else 0.0
  }

  /** With the platform's square root of two, `DirectionLength` is the direction's length. */
  lemma DirectionLengthIsLength(right: bool, left: bool, up: bool, down: bool, rootTwo: real)
    requires IsRootTwo(rootTwo)
    ensures IsLengthOf(DirectionLength(right, left, up, down, rootTwo), Direction(right, left, up, down))
  {
  }

  /** A diagonal direction divided by root two has unit length and is not zero. */
  lemma DiagonalIsUnit(d: Vec2, rootTwo: real)
    requires IsRootTwo(rootTwo)
    requires (d.x == 1.0 || d.x == -1.0) && (d.y == 1.0 || d.y == -1.0)
    ensures SqLength(Scale(d, 1.0 / rootTwo)) == 1.0
  {
    var h := 1.0 / rootTwo;
    assert h * rootTwo == 1.0;
    assert h > 0.0;
    assert (d.x * h) * (d.x * h) == h * h && (d.y * h) * (d.y * h) == h * h;
    assert (h * h) * (rootTwo * rootTwo) == (h * rootTwo) * (h * rootTwo);
  }

  /** The player's velocity for the held keys, `normalize_or_zero` of the key direction:
      zero exactly when no direction key is held, the direction itself along an axis. */
  function Velocity(right: bool, left: bool, up: bool, down: bool, rootTwo: real): (v: Vec2)
    requires rootTwo > 0.0
    ensures v == Zero <==> !right && !left && !up && !down
    ensures (right || left) != (up || down) ==> v == Direction(right, left, up, down)
    ensures (right || left) && (up || down) ==> v.x * v.x == v.y * v.y
  {
    var d := Direction(right, left, up, down);
    var len := DirectionLength(right, left, up, down, rootTwo);
    assert (right || left) && (up || down) ==> Normalize(d, len) != Zero by {
      assert 1.0 / rootTwo > 0.0;
    }
    assert (right || left) && (up || down) ==>
      var v := Normalize(d, len); v.x == v.y || v.x == -v.y;
    Normalize(d, len)
  }

  /** Whatever direction keys are held, the player moves at unit speed: the normalization
      removes the diagonal speed boost. */
  lemma VelocityIsUnit(right: bool, left: bool, up: bool, down: bool, rootTwo: real)
    requires IsRootTwo(rootTwo)
    requires right || left || up || down
    ensures SqLength(Velocity(right, left, up, down, rootTwo)) == 1.0
  {
    var d := Direction(right, left, up, down);
    if (right || left) && (up || down) {
      DiagonalIsUnit(d, rootTwo);
    }
  }

  /** The velocity points where the keys say: right for Right, left for Left without Right,
      up for Up, down for Down without Up. */
  lemma VelocitySigns(right: bool, left: bool, up: bool, down: bool, rootTwo: real)
    requires rootTwo > 0.0
    ensures var v := Velocity(right, left, up, down, rootTwo);
      (v.x > 0.0 <==> right) && (v.x < 0.0 <==> !right && left) &&
      (v.y < 0.0 <==> up) && (v.y > 0.0 <==> !up && down)
  {
    var h := 1.0 / rootTwo;
    assert h > 0.0;
    assert -1.0 * h < 0.0;
  }

  /** Set the player's velocity from the held keys; nothing else changes. */
  function SteerPhase(s: State, input: Input, rootTwo: real): (r: State)
    requires rootTwo > 0.0
    ensures r.player == s.player.(velocity := Velocity(input.right, input.left, input.up, input.down, rootTwo))
    ensures r.enemies == s.enemies && r.projectiles == s.projectiles && r.score == s.score
    ensures r.spawnTimer == s.spawnTimer && r.gameOver == s.gameOver
  {
    s.(player := s.player.(velocity := Velocity(input.right, input.left, input.up, input.down, rootTwo)))
  }

  /** A Space press adds exactly one projectile, after the existing ones. */
  function FirePhase(s: State, fire: bool): (r: State)
    ensures |r.projectiles| == |s.projectiles| + (if fire then 1 else 0)
    ensures r.projectiles[..|s.projectiles|] == s.projectiles
    ensures fire ==> r.projectiles[|s.projectiles|] == SpawnProjectile(s.player)
    ensures r.player == s.player && r.enemies == s.enemies && r.score == s.score
    ensures r.spawnTimer == s.spawnTimer && r.gameOver == s.gameOver
  {
    if fire then s.(projectiles := s.projectiles + [SpawnProjectile(s.player)]) else s
  }

  // ----- movement -----

  /** Every rectangle of `s` moved by `dt`. */
  function MoveAll(s: seq<Rectangle>, dt: real): (r: seq<Rectangle>)
    ensures |r| == |s| && forall k :: 0 <= k < |s| ==> r[k] == Move(s[k], dt)
  {
    seq(|s|, k requires 0 <= k < |s| => Move(s[k], dt))
  }

  /** Integrate the player, then the projectiles, then the enemies. */
  function MovePhase(s: State, dt: real): (r: State)
    ensures r.player == Move(s.player, dt)
    ensures r.projectiles == MoveAll(s.projectiles, dt) && r.enemies == MoveAll(s.enemies, dt)
    ensures r.score == s.score && r.spawnTimer == s.spawnTimer && r.gameOver == s.gameOver
  {
    s.(player := Move(s.player, dt), projectiles := MoveAll(s.projectiles, dt),
       enemies := MoveAll(s.enemies, dt))
  }

  // ----- collisions and the bottom edge -----

  /** Some enemy of `es` is below the bottom edge `height`. */
  predicate Crossed(es: seq<Rectangle>, height: real)
    ensures Crossed(es, height) <==> exists e :: e in es && e.pos.y > height
  {
    exists i :: 0 <= i < |es| && es[i].pos.y > height
  }

  /** One more enemy is below the edge or not. */
  lemma CrossedExtend(es: seq<Rectangle>, height: real, i: int)
    requires 0 <= i < |es|
    ensures Crossed(es[..i + 1], height) <==> Crossed(es[..i], height) || es[i].pos.y > height
  {
    if Crossed(es[..i + 1], height) {
      var k :| 0 <= k < i + 1 && es[..i + 1][k].pos.y > height;
      if k < i {
        assert es[..i][k] == es[k];
      }
    }
    if Crossed(es[..i], height) {
      var k :| 0 <= k < i && es[..i][k].pos.y > height;
      assert es[..i + 1][k] == es[k];
    }
    assert es[..i + 1][i] == es[i];
  }

  /** An enemy after its pass of the loop: marked when a projectile hits it or when it is below
      the bottom edge. */
  function MarkEnemy(e: Rectangle, ps: seq<Rectangle>, height: real): (m: Rectangle)
    ensures m.pos == e.pos && m.velocity == e.velocity && m.color == e.color
    ensures m.speed == e.speed && m.size == e.size
    ensures m.destroy <==> e.destroy || HitsAny(e, ps) || e.pos.y > height
  {
    e.(destroy := e.destroy || HitsAny(e, ps) || e.pos.y > height)
  }

  /** A projectile after the enemy loop: marked when it hits any enemy. */
  function MarkProjectile(p: Rectangle, es: seq<Rectangle>): (m: Rectangle)
    ensures m.pos == p.pos && m.velocity == p.velocity && m.color == p.color
    ensures m.speed == p.speed && m.size == p.size
    ensures m.destroy <==> p.destroy || HitByAny(p, es)
  {
    p.(destroy := p.destroy || HitByAny(p, es))
  }

  /** The enemy loop on moved positions: mark every hitting pair, add one point per pair,
      mark every enemy below the bottom edge and end the game when there is one.  The
      player-against-enemy test in this loop has no effect, so the player is untouched. */
  function CollidePhase(s: State, height: real): (r: State)
    ensures |r.enemies| == |s.enemies| && |r.projectiles| == |s.projectiles|
    ensures r.score == s.score + |HitPairs(s.enemies, s.projectiles)|
    ensures r.gameOver <==> s.gameOver || Crossed(s.enemies, height)
    ensures forall i, j ::
      0 <= i < |s.enemies| && 0 <= j < |s.projectiles| && Hit(s.projectiles[j], s.enemies[i]) ==>
      r.enemies[i].destroy && r.projectiles[j].destroy
    ensures forall i :: 0 <= i < |s.enemies| && s.enemies[i].pos.y > height ==> r.enemies[i].destroy
    ensures forall i :: 0 <= i < |s.enemies| ==>
      r.enemies[i] == s.enemies[i].(destroy := s.enemies[i].destroy || HitsAny(s.enemies[i], s.projectiles) ||
                                               s.enemies[i].pos.y > height)
    ensures forall j :: 0 <= j < |s.projectiles| ==>
      r.projectiles[j] == s.projectiles[j].(destroy := s.projectiles[j].destroy || HitByAny(s.projectiles[j], s.enemies))
    ensures r.player == s.player && r.spawnTimer == s.spawnTimer
  {
    PairCountIsHitPairs(s.enemies, s.projectiles);
    s.(enemies := seq(|s.enemies|, i requires 0 <= i < |s.enemies| =>
                        MarkEnemy(s.enemies[i], s.projectiles, height)),
       projectiles := seq(|s.projectiles|, j requires 0 <= j < |s.projectiles| =>
                            MarkProjectile(s.projectiles[j], s.enemies)),
       score := s.score + PairCount(s.enemies, s.projectiles),
       gameOver := s.gameOver || Crossed(s.enemies, height))
  }

  /** `CollidePhase` element by element: what the enemy loop establishes, pass by pass. */
  lemma CollidePhaseByElements(s: State, height: real, es: seq<Rectangle>, ps: seq<Rectangle>)
    requires |es| == |s.enemies| && |ps| == |s.projectiles|
    requires forall k :: 0 <= k < |es| ==> es[k] == MarkEnemy(s.enemies[k], s.projectiles, height)
    requires forall k :: 0 <= k < |ps| ==> ps[k] == MarkProjectile(s.projectiles[k], s.enemies)
    ensures CollidePhase(s, height) ==
      s.(enemies := es, projectiles := ps, score := s.score + PairCount(s.enemies, s.projectiles),
         gameOver := s.gameOver || Crossed(s.enemies, height))
  {
  }

  // ----- cleanup -----

  /** Remove every marked enemy and projectile. */
  function CleanupPhase(s: State): (r: State)
    ensures r.enemies == Live(s.enemies) && r.projectiles == Live(s.projectiles)
    ensures Settled(r.enemies) && Settled(r.projectiles)
    ensures forall e :: e in r.enemies <==> e in s.enemies && !e.destroy
    ensures forall p :: p in r.projectiles <==> p in s.projectiles && !p.destroy
    ensures r.player == s.player && r.score == s.score
    ensures r.spawnTimer == s.spawnTimer && r.gameOver == s.gameOver
  {
    assert forall e :: e in Live(s.enemies) <==> e in s.enemies && !e.destroy by {
      forall e ensures e in Live(s.enemies) <==> e in s.enemies && !e.destroy {
        LiveMembers(s.enemies, e);
      }
    }
    assert forall p :: p in Live(s.projectiles) <==> p in s.projectiles && !p.destroy by {
      forall p ensures p in Live(s.projectiles) <==> p in s.projectiles && !p.destroy {
        LiveMembers(s.projectiles, p);
      }
    }
    s.(enemies := Live(s.enemies), projectiles := Live(s.projectiles))
  }

  // ----- whole frames -----

  /** The state just before the enemy loop: spawned, steered, fired and moved. */
  function Moved(s: State, input: Input, rootTwo: real): State
    requires rootTwo > 0.0
  {
    MovePhase(FirePhase(SteerPhase(SpawnPhase(s, input.dt, input.spawnX), input, rootTwo), input.fire),
              input.dt)
  }

  /** A Playing frame: spawn, steer, fire, move, collide, sweep. */
  function StepSpec(s: State, input: Input, rootTwo: real): (r: State)
    requires rootTwo > 0.0
    ensures r.score == s.score + |HitPairs(Moved(s, input, rootTwo).enemies, Moved(s, input, rootTwo).projectiles)|
    ensures r.gameOver <==> s.gameOver || Crossed(Moved(s, input, rootTwo).enemies, input.height)
    ensures Settled(r.enemies) && Settled(r.projectiles)
    ensures forall e :: e in r.enemies ==> e.pos.y <= input.height
    ensures 0.0 < s.spawnTimer <= 1.0 && input.dt >= 0.0 ==> 0.0 < r.spawnTimer <= 1.0
    ensures r.player == Move(s.player.(velocity := Velocity(input.right, input.left, input.up, input.down, rootTwo)), input.dt)
  {
    var m := Moved(s, input, rootTwo);
    var c := CollidePhase(m, input.height);
    var r := CleanupPhase(c);
    assert forall e :: e in r.enemies ==> e.pos.y <= input.height by {
      forall e | e in r.enemies ensures e.pos.y <= input.height {
        var i :| 0 <= i < |c.enemies| && c.enemies[i] == e;
      }
    }
    r
  }

  /** The Game Over branch: with Enter held, a new game starts (score zero, no enemies or
      projectiles, a fresh player; the spawn timer keeps its value); otherwise nothing changes. */
  function RestartSpec(s: State, input: Input): (r: State)
    ensures input.enter ==> r == Initial(input.width, input.height).(spawnTimer := s.spawnTimer)
    ensures !input.enter ==> r == s
  {
    if input.enter then
      s.(gameOver := false, player := SetupPlayer(input.width, input.height),
         enemies := [], projectiles := [], score := 0)
    else s
  }

  /** One trip round the game loop: in Game Over only Enter does anything, and it starts a
      new game; a Playing frame never lowers the score and leaves nothing marked. */
  function FrameSpec(s: State, input: Input, rootTwo: real): (r: State)
    requires rootTwo > 0.0
    ensures s.gameOver && !input.enter ==> r == s
    ensures s.gameOver && input.enter ==>
      !r.gameOver && r.score == 0 && r.enemies == [] && r.projectiles == [] &&
      r.player == SetupPlayer(input.width, input.height) && r.spawnTimer == s.spawnTimer
    ensures !s.gameOver ==> r.score >= s.score && Settled(r.enemies) && Settled(r.projectiles)
  {
    if s.gameOver then RestartSpec(s, input) else StepSpec(s, input, rootTwo)
  }
}
