/** The game loop's state as an object: the locals `main` keeps between frames become fields,
    and each part of the loop body becomes a method proved to follow its phase function. */
module Game {
  import opened Geometry
  import opened Entities
  import opened Collision
  import opened Retention
  import opened Simulation

  class GameState {
    var player: Rectangle
    var enemies: seq<Rectangle>
    var projectiles: seq<Rectangle>
    var score: int
    var spawnTimer: real
    var gameOver: bool

    /** The fields as a value. */
    function Snapshot(): State
      reads this
    {
      State(player, enemies, projectiles, score, spawnTimer, gameOver)
    }

    /** The set-up before the loop: a fresh player, no enemies or projectiles, score zero,
        a full second on the spawn timer, Playing. */
    constructor (width: real, height: real)
      ensures Snapshot() == Initial(width, height)
    {
      player := SetupPlayer(width, height);
      score := 0;
      enemies := [];
      projectiles := [];
      spawnTimer := 1.0;
      gameOver := false;
    }

    /** One iteration of the loop. */
    method Frame(input: Input, rootTwo: real)
      requires SpawnInRange(input) && rootTwo > 0.0
      modifies this
      ensures Snapshot() == FrameSpec(old(Snapshot()), input, rootTwo)
    {
      if gameOver {
        RestartBranch(input);
      } else {
        Step(input, rootTwo);
      }
    }

    /** The Game Over branch: Enter starts a new game. */
    method RestartBranch(input: Input)
      modifies this
      ensures Snapshot() == RestartSpec(old(Snapshot()), input)
    {
      if input.enter {
        gameOver := false;
        player := SetupPlayer(input.width, input.height);
        enemies := [];
        projectiles := [];
        score := 0;
      }
    }

    /** The Playing branch. */
    method Step(input: Input, rootTwo: real)
      requires SpawnInRange(input) && rootTwo > 0.0
      modifies this
      ensures Snapshot() == StepSpec(old(Snapshot()), input, rootTwo)
    {
      CountDownSpawn(input.dt, input.spawnX);
      SteerPlayer(input, rootTwo);
      if input.fire {
        projectiles := projectiles + [SpawnProjectile(player)];
      }
      MovePlayerAndProjectiles(input.dt);
      ResolveEnemies(input.dt, input.height);
      Sweep();
    }

    /** Count the spawn timer down and spawn an enemy at `x` when it runs out. */
    method CountDownSpawn(dt: real, x: real)
      modifies this
      ensures Snapshot() == SpawnPhase(old(Snapshot()), dt, x)
    {
      spawnTimer := spawnTimer - dt;
      if spawnTimer <= 0.0 {
        enemies := enemies + [SetupEnemy(x)];
        spawnTimer := 1.0;
      }
    }

    /** Build the key direction axis by axis and give the player its normalized velocity. */
    method SteerPlayer(input: Input, rootTwo: real)
      requires rootTwo > 0.0
      modifies this
      ensures Snapshot() == SteerPhase(old(Snapshot()), input, rootTwo)
    {
      var current := Zero;
      if input.right {
        current := current.(x := 1.0);
      } else if input.left {
        current := current.(x := -1.0);
      }
      if input.up {
        current := current.(y := -1.0);
      } else if input.down {
        current := current.(y := 1.0);
      }
      var len := DirectionLength(input.right, input.left, input.up, input.down, rootTwo);
      player := player.(velocity := Normalize(current, len));
    }

    /** Move the player, then every projectile in place. */
    method MovePlayerAndProjectiles(dt: real)
      modifies this
      ensures Snapshot() == old(Snapshot()).(player := Move(old(player), dt),
                                            projectiles := MoveAll(old(projectiles), dt))
    {
      player := Move(player, dt);
      var i := 0;
      while i < |projectiles|
        invariant 0 <= i <= |projectiles| == |old(projectiles)|
        invariant forall k :: 0 <= k < i ==> projectiles[k] == Move(old(projectiles)[k], dt)
        invariant forall k :: i <= k < |projectiles| ==> projectiles[k] == old(projectiles)[k]
        invariant player == Move(old(player), dt) && enemies == old(enemies)
        invariant score == old(score) && spawnTimer == old(spawnTimer) && gameOver == old(gameOver)
      {
        projectiles := projectiles[i := Move(projectiles[i], dt)];
        i := i + 1;
      }
    }

    /** The enemy loop: move each enemy, test it against every projectile, then against the
        bottom edge. */
    method ResolveEnemies(dt: real, height: real)
      modifies this
      ensures Snapshot() == CollidePhase(old(Snapshot()).(enemies := MoveAll(old(enemies), dt)), height)
    {
      ghost var moved := MoveAll(enemies, dt);
      ghost var shots := projectiles;
      ResolveAll(dt, height, moved, shots);
      assert moved[..|moved|] == moved;
      CollidePhaseByElements(old(Snapshot()).(enemies := moved), height, enemies, projectiles);
    }

    /** The enemy loop, one pass per enemy: `moved` are the enemies as this frame moves them
        and `shots` the projectiles before the loop; afterwards every pass has been made. */
    method ResolveAll(dt: real, height: real, ghost moved: seq<Rectangle>, ghost shots: seq<Rectangle>)
      requires |enemies| == |moved| && projectiles == shots
      requires forall k :: 0 <= k < |moved| ==> moved[k] == Move(enemies[k], dt)
      modifies this
      ensures Resolving(enemies, projectiles, score, gameOver, |moved|, dt, height, moved, shots,
                        old(score), old(gameOver))
      ensures player == old(player) && spawnTimer == old(spawnTimer)
    {
      var i := 0;
      ResolvingStart(enemies, projectiles, score, gameOver, dt, height, moved, shots);
      while i < |enemies|
        invariant Resolving(enemies, projectiles, score, gameOver, i, dt, height, moved, shots,
                            old(score), old(gameOver))
        invariant player == old(player) && spawnTimer == old(spawnTimer)
      {
        ghost var es, ps, sc, over := enemies, projectiles, score, gameOver;
        ResolveOneEnemy(i, dt, height, moved, shots);
        ResolvingStep(es, ps, sc, over, enemies, projectiles, score, gameOver, i, dt, height, moved, shots,
                      old(score), old(gameOver));
        i := i + 1;
      }
    }

    /** One pass of the enemy loop, for the enemy at index `i`. */
    method ResolveOneEnemy(i: nat, dt: real, height: real,
                           ghost moved: seq<Rectangle>, ghost shots: seq<Rectangle>)
      requires i < |enemies| == |moved| && |projectiles| == |shots|
      requires moved[i] == Move(enemies[i], dt)
      requires forall j :: 0 <= j < |shots| ==> projectiles[j] == MarkProjectile(shots[j], moved[..i])
      modifies this
      ensures enemies == old(enemies)[i := MarkEnemy(moved[i], shots, height)]
      ensures |projectiles| == |shots|
      ensures forall j :: 0 <= j < |shots| ==> projectiles[j] == MarkProjectile(shots[j], moved[..i + 1])
      ensures score == old(score) + HitCount(moved[i], shots)
      ensures gameOver == (old(gameOver) || moved[i].pos.y > height)
      ensures player == old(player) && spawnTimer == old(spawnTimer)
    {
      var enemy := Move(enemies[i], dt);
      enemy := TestProjectiles(enemy, i, moved, shots);
      // the player-against-enemy test: it has no effect
      if Hit(enemy, player) {
      }
      if enemy.pos.y > height {
        enemy := enemy.(destroy := true);
        gameOver := true;
      }
      enemies := enemies[i := enemy];
    }

    /** The inner loop: mark `enemy` (the moved enemy at index `i`) and every projectile it
        is close to, one point per such projectile. */
    method TestProjectiles(enemy: Rectangle, i: nat,
                           ghost moved: seq<Rectangle>, ghost shots: seq<Rectangle>)
      returns (marked: Rectangle)
      requires i < |moved| && enemy == moved[i] && |projectiles| == |shots|
      requires forall j :: 0 <= j < |shots| ==> projectiles[j] == MarkProjectile(shots[j], moved[..i])
      modifies this`projectiles, this`score
      ensures marked == enemy.(destroy := enemy.destroy || HitsAny(enemy, shots))
      ensures |projectiles| == |shots|
      ensures forall j :: 0 <= j < |shots| ==> projectiles[j] == MarkProjectile(shots[j], moved[..i + 1])
      ensures score == old(score) + HitCount(enemy, shots)
    {
      marked := enemy;
      var j := 0;
      while j < |projectiles|
        invariant 0 <= j <= |projectiles| == |shots|
        invariant marked == enemy.(destroy := enemy.destroy || HitsAny(enemy, shots[..j]))
        invariant forall k :: 0 <= k < j ==> projectiles[k] == MarkProjectile(shots[k], moved[..i + 1])
        invariant forall k :: j <= k < |shots| ==> projectiles[k] == MarkProjectile(shots[k], moved[..i])
        invariant score == old(score) + HitCount(enemy, shots[..j])
      {
        HitByAnyExtend(shots[j], moved, i);
        HitsAnyExtend(enemy, shots, j);
        HitCountExtend(enemy, shots, j);
        HitByPlace(projectiles[j], shots[j], marked, enemy);
        if Hit(projectiles[j], marked) {
          marked := marked.(destroy := true);
          projectiles := projectiles[j := projectiles[j].(destroy := true)];
          score := score + 1;
        }
        j := j + 1;
      }
      assert shots[..j] == shots;
    }

    /** `retain` both collections, dropping what this frame marked. */
    method Sweep()
      modifies this
      ensures Snapshot() == CleanupPhase(old(Snapshot()))
    {
      enemies := Retain(enemies);
      projectiles := Retain(projectiles);
    }
  }

  /** What the enemy loop has established after `i` passes, on the values of the fields:
      the first `i` enemies are marked, the rest are still to be moved into `moved`, the
      projectiles carry the marks of the first `i` moved enemies, and score and game over
      account for them, starting from `score0` and `over0`. */
  ghost predicate Resolving(es: seq<Rectangle>, ps: seq<Rectangle>, score: int, over: bool, i: int,
                            dt: real, height: real, moved: seq<Rectangle>, shots: seq<Rectangle>,
                            score0: int, over0: bool)
  {
    && 0 <= i <= |es| == |moved| && |ps| == |shots|
    && (forall k :: 0 <= k < i ==> es[k] == MarkEnemy(moved[k], shots, height))
    && (forall k :: i <= k < |es| ==> moved[k] == Move(es[k], dt))
    && (forall j :: 0 <= j < |shots| ==> ps[j] == MarkProjectile(shots[j], moved[..i]))
    && score == score0 + PairCount(moved[..i], shots)
    && over == (over0 || Crossed(moved[..i], height))
  }

  /** Before the first pass nothing is marked and nothing is counted. */
  lemma ResolvingStart(es: seq<Rectangle>, ps: seq<Rectangle>, score: int, over: bool,
                       dt: real, height: real, moved: seq<Rectangle>, shots: seq<Rectangle>)
    requires |es| == |moved| && ps == shots
    requires forall k :: 0 <= k < |moved| ==> moved[k] == Move(es[k], dt)
    ensures Resolving(es, ps, score, over, 0, dt, height, moved, shots, score, over)
  {
    assert moved[..0] == [];
  }

  /** One pass of the enemy loop, as `ResolveOneEnemy` states it, takes `Resolving` from `i`
      to `i + 1`. */
  lemma ResolvingStep(es: seq<Rectangle>, ps: seq<Rectangle>, score: int, over: bool,
                      es': seq<Rectangle>, ps': seq<Rectangle>, score': int, over': bool, i: int,
                      dt: real, height: real, moved: seq<Rectangle>, shots: seq<Rectangle>,
                      score0: int, over0: bool)
    requires Resolving(es, ps, score, over, i, dt, height, moved, shots, score0, over0) && i < |es|
    requires es' == es[i := MarkEnemy(moved[i], shots, height)]
    requires |ps'| == |shots|
    requires forall j :: 0 <= j < |shots| ==> ps'[j] == MarkProjectile(shots[j], moved[..i + 1])
    requires score' == score + HitCount(moved[i], shots)
    requires over' == (over || moved[i].pos.y > height)
    ensures Resolving(es', ps', score', over', i + 1, dt, height, moved, shots, score0, over0)
  {
    PairCountExtend(moved, shots, i);
    CrossedExtend(moved, height, i);
  }
}
