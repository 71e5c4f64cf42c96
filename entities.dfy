/** The client's entities (player, projectile, enemy) and the single-entity
    rules of a frame: key movement, projectile advance and exit, enemy spawn. */
module Entities {
  import opened Protocol
  import opened Geometry

  datatype Vec = Vec(dx: real, dy: real)

  /** Which of the four movement keys are held. */
  datatype Keys = Keys(w: bool, a: bool, s: bool, d: bool)

  const PlayerWidth: real := 50.0
  const PlayerHeight: real := 50.0
  const PlayerSpeed: real := 5.0
  const PlayerStartHealth: int := 100
  const ProjectileRadius: real := 5.0
  const EnemySize: real := 30.0
  const EnemySpeed: real := 2.0
  /** Health lost when an enemy touches the player. */
  const ContactDamage: int := 10

  datatype Player = Player(x: real, y: real, health: int, id: Option<string>)
  datatype Projectile = Projectile(x: real, y: real, radius: real, velocity: Vec)
  datatype Enemy = Enemy(x: real, y: real, width: real, height: real, speed: real)

  function PlayerRect(p: Player): Rect { Rect(p.x, p.y, PlayerWidth, PlayerHeight) }
  function EnemyRect(e: Enemy): Rect { Rect(e.x, e.y, e.width, e.height) }

  /** The square a projectile occupies, as used for its collision test. */
  function ProjectileRect(p: Projectile): Rect {
    Rect(p.x - p.radius, p.y - p.radius, p.radius * 2.0, p.radius * 2.0)
  }

  /** The displacement along one axis, in units of the player's speed, when
      `back` moves towards smaller and `forward` towards larger coordinates. */
  function Axis(back: bool, forward: bool): (step: real)
    ensures step == 0.0 <==> back == forward
    ensures step == 1.0 <==> forward && !back
    ensures step == -1.0 <==> back && !forward
  {
    (if forward then 1.0 else 0.0) - (if back then 1.0 else 0.0)
  }

  /** The projectile after one frame's move by its velocity. */
  function Advance(p: Projectile): Projectile {
    p.(x := p.x + p.velocity.dx, y := p.y + p.velocity.dy)
  }

  /** A projectile is discarded as soon as any part of its extent crosses an edge
      of the canvas: its square is then no longer within the playfield. */
  function OffScreen(p: Projectile): (gone: bool)
    ensures gone <==> !Within(ProjectileRect(p), Playfield)
  {
    || p.x - p.radius < 0.0
    || p.x + p.radius > CanvasWidth
    || p.y - p.radius < 0.0
    || p.y + p.radius > CanvasHeight
  }

  /** A projectile leaving from the centre of the player's square. */
  function Shot(player: Player, velocity: Vec): (p: Projectile)
    ensures p.radius == ProjectileRadius && p.velocity == velocity
    ensures ProjectileRect(p).x - player.x == player.x + PlayerWidth - (ProjectileRect(p).x + ProjectileRect(p).width)
    ensures ProjectileRect(p).y - player.y == player.y + PlayerHeight - (ProjectileRect(p).y + ProjectileRect(p).height)
  {
    Projectile(player.x + PlayerWidth / 2.0, player.y + PlayerHeight / 2.0, ProjectileRadius, velocity)
  }

  /** `spawnEnemy` with its random draws made parameters: `leftRight` picks a
      vertical edge (else a horizontal one), `nearSide` the left/top edge of that
      pair, and `along` is the uniform coordinate along the chosen edge. */
  function SpawnedEnemy(leftRight: bool, nearSide: bool, along: real): (e: Enemy)
    requires 0.0 <= along < (if leftRight then CanvasHeight else CanvasWidth)
    ensures e.width == EnemySize && e.height == EnemySize && e.speed == EnemySpeed
    ensures !CheckCollision(EnemyRect(e), Playfield)
    ensures CheckCollision(EnemyRect(e), Rect(-2.0 * EnemySize, -2.0 * EnemySize,
                                              CanvasWidth + 4.0 * EnemySize, CanvasHeight + 4.0 * EnemySize))
  {
    if leftRight then
      Enemy(if nearSide then -EnemySize else CanvasWidth + EnemySize, along, EnemySize, EnemySize, EnemySpeed)
    else
      Enemy(along, if nearSide then -EnemySize else CanvasHeight + EnemySize, EnemySize, EnemySize, EnemySpeed)
  }

  /** The enemy after its seek step, given the displacement the trigonometry chose. */
  function Seek(e: Enemy, seek: Enemy -> Vec): Enemy {
    e.(x := e.x + seek(e).dx, y := e.y + seek(e).dy)
  }

  /** A projectile whose move carries it across the left edge while it still
      overlaps the canvas is already discarded: the exit rule is "partly out",
      not "fully out". */
  lemma PartlyOutsideIsDiscarded()
    ensures var p := Projectile(12.0, 300.0, ProjectileRadius, Vec(-10.0, 0.0));
            OffScreen(Advance(p)) && CheckCollision(ProjectileRect(Advance(p)), Playfield)
  {}
}
