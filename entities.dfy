/** The single moving-rectangle shape shared by the player, the enemies and the projectiles,
    and the three ways the game creates one. */
module Entities {
  import opened Geometry

  /** Display-only attribute; it has no effect on the game. */
  datatype Color = Green | Yellow

  /** A square of edge `size` at `pos`, moving along `velocity` at `speed` units per second.
      `destroy` marks it for removal at the end of the frame. */
  datatype Rectangle = Rectangle(
    pos: Vec2,
    velocity: Vec2,
    color: Color,
    speed: real,
    size: real,
    destroy: bool)

  const PlayerSpeed: real := 250.0
  const ProjectileSpeed: real := 400.0
  const EnemySpeed: real := 200.0

  const PlayerSize: real := 60.0
  const EnemySize: real := 30.0
  const ProjectileSize: real := 25.0

  /** `move_rectangle`: advance the position by velocity * speed * dt. */
  function Move(r: Rectangle, dt: real): (m: Rectangle)
    ensures m.pos == Add(r.pos, Scale(Scale(r.velocity, r.speed), dt))
    ensures m.velocity == r.velocity && m.color == r.color && m.speed == r.speed
    ensures m.size == r.size && m.destroy == r.destroy
  {
    r.(pos := Add(r.pos, Scale(Scale(r.velocity, r.speed), dt)))
  }

  /** Integration is frame-rate independent: two frames of `a` and `b` seconds move a rectangle
      exactly as far as one frame of `a + b` seconds. */
  lemma MoveComposes(r: Rectangle, a: real, b: real)
    ensures Move(Move(r, a), b) == Move(r, a + b)
  {
  }

  /** A frame of zero seconds moves nothing. */
  lemma MoveZeroTime(r: Rectangle)
    ensures Move(r, 0.0) == r
  {
  }

  /** `setup_player`: the player square is centred horizontally, its top edge 100 units above
      the bottom of the screen, at rest and not marked. */
  function SetupPlayer(width: real, height: real): (p: Rectangle)
    ensures p.pos.x + p.size / 2.0 == width / 2.0
    ensures p.pos.y + 100.0 == height
    ensures p.velocity == Zero && !p.destroy
    ensures p.speed == PlayerSpeed && p.size == PlayerSize && p.color == Green
  {
    Rectangle(Vec2(width / 2.0 - 30.0, height - 100.0), Zero, Green, PlayerSpeed, PlayerSize, false)
  }

  /** `setup_enemy`, with the random start abscissa `x` passed in: an enemy on the top edge,
      heading straight down. */
  function SetupEnemy(x: real): (e: Rectangle)
    ensures e.pos == Vec2(x, 0.0) && e.velocity == Vec2(0.0, 1.0)
    ensures e.speed == EnemySpeed && e.size == EnemySize && e.color == Green && !e.destroy
  {
    Rectangle(Vec2(x, 0.0), Vec2(0.0, 1.0), Green, EnemySpeed, EnemySize, false)
  }

  /** `spawn_projectile`: a projectile offset from the player's corner by a third of the
      player's size in both coordinates, heading straight up. */
  function SpawnProjectile(player: Rectangle): (p: Rectangle)
    ensures p.pos == Vec2(player.pos.x + player.size / 3.0, player.pos.y + player.size / 3.0)
    ensures p.velocity == Vec2(0.0, -1.0)
    ensures p.speed == ProjectileSpeed && p.size == ProjectileSize && p.color == Yellow
    ensures !p.destroy
  {
    Rectangle(Offset(player.pos, player.size / 3.0), Vec2(0.0, -1.0), Yellow,
              ProjectileSpeed, ProjectileSize, false)
  }

  /** A projectile fired by a player of positive size starts inside the player's square. */
  lemma ProjectileStartsInsidePlayer(player: Rectangle)
    requires player.size > 0.0
    ensures var p := SpawnProjectile(player);
      player.pos.x < p.pos.x < player.pos.x + player.size &&
      player.pos.y < p.pos.y < player.pos.y + player.size
  {
  }
}
