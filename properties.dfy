/** Properties of whole frames, and small worked scenarios. */
module Properties {
  import opened Geometry
  import opened Entities
  import opened Collision
  import opened Retention
  import opened Simulation

  /** The first frame starts from a state that satisfies the between-frames invariant. */
  lemma InitialSatisfiesInv(width: real, height: real)
    ensures Inv(Initial(width, height))
  {
  }

  /** Every frame keeps the invariant, given a non-negative frame time. */
  lemma FramePreservesInv(s: State, input: Input, rootTwo: real)
    requires Inv(s) && input.dt >= 0.0 && rootTwo > 0.0
    ensures Inv(FrameSpec(s, input, rootTwo))
  {
  }

  /** In Game Over, a frame without Enter changes nothing. */
  lemma GameOverWaitsForEnter(s: State, input: Input, rootTwo: real)
    requires s.gameOver && !input.enter && rootTwo > 0.0
    ensures FrameSpec(s, input, rootTwo) == s
  {
  }

  /** A Playing frame adds at most one enemy and at most one projectile, and adds a
      projectile only on a Space press. */
  lemma StepGrowsByAtMostOne(s: State, input: Input, rootTwo: real)
    requires rootTwo > 0.0
    ensures |StepSpec(s, input, rootTwo).enemies| <= |s.enemies| + 1
    ensures |StepSpec(s, input, rootTwo).projectiles| <= |s.projectiles| + (if input.fire then 1 else 0)
  {
    var m := Moved(s, input, rootTwo);
    var c := CollidePhase(m, input.height);
    assert |c.enemies| == |m.enemies| && |c.projectiles| == |m.projectiles|;
  }

  /** Nothing survives a frame by accident and nothing unmarked is lost: a moved enemy that
      no projectile hit and that is still on screen, and a moved projectile that hit no enemy,
      are both still there after the sweep. */
  lemma StepKeepsTheUnmarked(s: State, input: Input, rootTwo: real)
    requires rootTwo > 0.0
    ensures var m := Moved(s, input, rootTwo); var r := StepSpec(s, input, rootTwo);
      forall i :: (0 <= i < |m.enemies| && !m.enemies[i].destroy &&
                   !HitsAny(m.enemies[i], m.projectiles) && m.enemies[i].pos.y <= input.height)
                  ==> m.enemies[i] in r.enemies
    ensures var m := Moved(s, input, rootTwo); var r := StepSpec(s, input, rootTwo);
      forall j :: (0 <= j < |m.projectiles| && !m.projectiles[j].destroy &&
                   !HitByAny(m.projectiles[j], m.enemies))
                  ==> m.projectiles[j] in r.projectiles
  {
    var m := Moved(s, input, rootTwo);
    var c := CollidePhase(m, input.height);
    forall i | 0 <= i < |m.enemies| && !m.enemies[i].destroy && !HitsAny(m.enemies[i], m.projectiles) &&
      m.enemies[i].pos.y <= input.height
      ensures m.enemies[i] in StepSpec(s, input, rootTwo).enemies
    {
      assert c.enemies[i] == m.enemies[i];
    }
    forall j | 0 <= j < |m.projectiles| && !m.projectiles[j].destroy && !HitByAny(m.projectiles[j], m.enemies)
      ensures m.projectiles[j] in StepSpec(s, input, rootTwo).projectiles
    {
      assert c.projectiles[j] == m.projectiles[j];
    }
  }

  /** A Playing frame never takes points away. */
  lemma StepScoreNeverDecreases(s: State, input: Input, rootTwo: real)
    requires rootTwo > 0.0
    ensures StepSpec(s, input, rootTwo).score >= s.score
  {
  }

  /** An enemy the spawner adds starts on the top edge, within the screen's width. */
  lemma SpawnedEnemyOnScreen(s: State, input: Input)
    requires SpawnInRange(input) && s.spawnTimer - input.dt <= 0.0
    ensures var r := SpawnPhase(s, input.dt, input.spawnX);
      |r.enemies| == |s.enemies| + 1 &&
      0.0 <= r.enemies[|s.enemies|].pos.x < input.width && r.enemies[|s.enemies|].pos.y == 0.0
  {
  }

  /** The spawn countdown of consecutive Playing frames with frame times `dts`. */
  function SpawnMany(s: State, dts: seq<real>, x: real): State
    decreases |dts|
  {
    if |dts| == 0 then s else SpawnMany(SpawnPhase(s, dts[0], x), dts[1..], x)
  }

  /** The total of the frame times `dts`. */
  function Sum(dts: seq<real>): real
    decreases |dts|
  {
    if |dts| == 0 then 0.0 else dts[0] + Sum(dts[1..])
  }

  /** Frames whose times add up to exactly what is left on the timer, no shorter run of them
      reaching it, spawn exactly one enemy, and the timer ends at exactly one second: the
      countdown resets, it does not carry the overshoot. */
  lemma {:induction false} OneSpawnPerSecond(s: State, dts: seq<real>, x: real)
    requires |dts| > 0 && s.spawnTimer > 0.0 && Sum(dts) == s.spawnTimer
    requires forall k :: 0 < k < |dts| ==> Sum(dts[..k]) < s.spawnTimer
    ensures SpawnMany(s, dts, x).enemies == s.enemies + [SetupEnemy(x)]
    ensures SpawnMany(s, dts, x).spawnTimer == 1.0
    decreases |dts|
  {
    if |dts| == 1 {
      assert Sum(dts) == dts[0] + Sum(dts[1..]);
    } else {
      assert dts[..1][1..] == [];
      assert Sum(dts[..1]) == dts[0];
      var t := SpawnPhase(s, dts[0], x);
      var rest := dts[1..];
      forall k | 0 < k < |rest|
        ensures Sum(rest[..k]) < t.spawnTimer
      {
        assert dts[..k + 1][1..] == rest[..k];
        assert Sum(dts[..k + 1]) == dts[0] + Sum(rest[..k]);
      }
      OneSpawnPerSecond(t, rest, x);
    }
  }

  /** Sweeping a second time changes nothing. */
  lemma CleanupIdempotent(s: State)
    ensures CleanupPhase(CleanupPhase(s)) == CleanupPhase(s)
  {
    LiveIdempotent(s.enemies);
    LiveIdempotent(s.projectiles);
  }

  // ----- worked scenarios -----

  function EnemyAt(x: real, y: real): Rectangle {
    SetupEnemy(x).(pos := Vec2(x, y))
  }

  function ProjectileAt(x: real, y: real): Rectangle {
    Rectangle(Vec2(x, y), Vec2(0.0, -1.0), Yellow, ProjectileSpeed, ProjectileSize, false)
  }

  function PlayingWith(es: seq<Rectangle>, ps: seq<Rectangle>): State {
    Initial(800.0, 600.0).(enemies := es, projectiles := ps)
  }

  /** An enemy at (100, 100) and a projectile at (110, 105), about 11.2 apart, well inside
      the enemy's size of 30: both are marked and the score goes up by one. */
  lemma HitScenario()
    ensures var r := CollidePhase(PlayingWith([EnemyAt(100.0, 100.0)], [ProjectileAt(110.0, 105.0)]), 600.0);
      r.score == 1 && r.enemies[0].destroy && r.projectiles[0].destroy && !r.gameOver
  {
    var s := PlayingWith([EnemyAt(100.0, 100.0)], [ProjectileAt(110.0, 105.0)]);
    assert Hit(s.projectiles[0], s.enemies[0]);
    assert HitCount(s.enemies[0], s.projectiles) == 1 by {
      assert s.projectiles[..0] == [];
    }
    assert s.enemies[..0] == [];
  }

  /** The same enemy and a projectile at (200, 200), far apart: nothing is marked and the
      score stays put. */
  lemma MissScenario()
    ensures var r := CollidePhase(PlayingWith([EnemyAt(100.0, 100.0)], [ProjectileAt(200.0, 200.0)]), 600.0);
      r.score == 0 && !r.enemies[0].destroy && !r.projectiles[0].destroy && !r.gameOver
  {
    var s := PlayingWith([EnemyAt(100.0, 100.0)], [ProjectileAt(200.0, 200.0)]);
    assert !Hit(s.projectiles[0], s.enemies[0]);
    assert !HitsAny(s.enemies[0], s.projectiles);
    assert !HitByAny(s.projectiles[0], s.enemies);
  }

  /** An enemy one unit below the bottom edge is marked and ends the game. */
  lemma BoundaryLossScenario()
    ensures var r := CollidePhase(PlayingWith([EnemyAt(100.0, 601.0)], []), 600.0);
      r.enemies[0].destroy && r.gameOver
  {
    var s := PlayingWith([EnemyAt(100.0, 601.0)], []);
    assert s.enemies[0].pos.y > 600.0;
  }

  /** There is no early exit once a projectile has scored: one projectile between two
      enemies scores against both, and the frame gains two points. */
  lemma OneProjectileScoresTwice()
    ensures var r := CollidePhase(PlayingWith([EnemyAt(100.0, 100.0), EnemyAt(120.0, 100.0)],
                                              [ProjectileAt(110.0, 100.0)]), 600.0);
      r.score == 2 && r.enemies[0].destroy && r.enemies[1].destroy && r.projectiles[0].destroy
  {
    var s := PlayingWith([EnemyAt(100.0, 100.0), EnemyAt(120.0, 100.0)], [ProjectileAt(110.0, 100.0)]);
    assert Hit(s.projectiles[0], s.enemies[0]) && Hit(s.projectiles[0], s.enemies[1]);
    assert s.projectiles[..0] == [];
    assert HitCount(s.enemies[0], s.projectiles) == 1;
    assert HitCount(s.enemies[1], s.projectiles) == 1;
    assert s.enemies[..1] == [s.enemies[0]] && s.enemies[..1][..0] == [];
    assert PairCount(s.enemies[..1], s.projectiles) == 1;
  }
}
