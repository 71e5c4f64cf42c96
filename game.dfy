/** The browser client's simulation state and the operations that change it:
    wave start and the wave timer tick, enemy spawning, firing, the per-frame
    update, and the handling of server messages. */
module Client {
  import opened Protocol
  import opened Geometry
  import opened Entities
  import opened Waves
  import opened Frame
  import opened RemoteView

  class Game {
    var player: Player
    var projectiles: seq<Projectile>
    var enemies: seq<Enemy>
    var wave: int
    var enemiesToKill: int
    var enemiesKilledThisWave: int
    var waveTimer: int
    /** The period given to the current spawn interval, in milliseconds. */
    var spawnDelay: int
    /** False once the wave and spawn intervals have been cleared for good. */
    var timersRunning: bool
    var myPlayerId: Option<string>
    var otherPlayers: seq<PlayerState>

    function WaveView(): WaveState
      reads this
    {
      WaveState(wave, enemiesToKill, enemiesKilledThisWave, waveTimer, spawnDelay, timersRunning)
    }

    /** The script's top level: the initial globals, then `startWave()`. */
    constructor ()
      ensures player == Player(400.0, 300.0, PlayerStartHealth, None)
      ensures projectiles == [] && enemies == []
      ensures WaveView() == Started(1)
      ensures myPlayerId == None && otherPlayers == []
    {
      player := Player(CanvasWidth / 2.0, CanvasHeight / 2.0, PlayerStartHealth, None);
      projectiles := [];
      enemies := [];
      wave := 1;
      enemiesToKill := 10;
      enemiesKilledThisWave := 0;
      waveTimer := 30;
      spawnDelay := 0;
      timersRunning := false;
      myPlayerId := None;
      otherPlayers := [];
      new;
      StartWave();
    }

    /** `startWave`: every parameter of the wave comes from its number, the
        per-wave counters and the enemies are reset, and both intervals are
        replaced by fresh ones. */
    method StartWave()
      modifies this`enemiesToKill, this`enemiesKilledThisWave, this`waveTimer, this`enemies,
               this`spawnDelay, this`timersRunning
      ensures enemiesToKill == 10 * wave
      ensures enemiesKilledThisWave == 0
      ensures waveTimer == 30 + 5 * wave
      ensures enemies == []
      ensures spawnDelay == 1000 - 50 * wave
      ensures timersRunning
      ensures WaveView() == Started(wave)
    {
      enemiesToKill := wave * 10;
      enemiesKilledThisWave := 0;
      waveTimer := 30 + wave * 5;
      enemies := [];
      spawnDelay := SpawnDelay(wave);
      timersRunning := true;
    }

    /** One firing of the wave interval. */
    method Tick()
      modifies this`wave, this`enemiesToKill, this`enemiesKilledThisWave, this`waveTimer, this`enemies,
               this`spawnDelay, this`timersRunning
      ensures WaveView() == NextTick(old(WaveView()))
      ensures enemies == if wave != old(wave) then [] else old(enemies)
    {
      if timersRunning {
        waveTimer := waveTimer - 1;
        if waveTimer <= 0 {
          if enemiesKilledThisWave < enemiesToKill {
            timersRunning := false;
          } else {
            wave := wave + 1;
            StartWave();
          }
        }
      }
    }

    /** One firing of the spawn interval, with the random draws as parameters. */
    method SpawnTick(leftRight: bool, nearSide: bool, along: real)
      requires 0.0 <= along < (if leftRight then CanvasHeight else CanvasWidth)
      modifies this`enemies
      ensures enemies == if old(timersRunning) then old(enemies) + [SpawnedEnemy(leftRight, nearSide, along)]
                         else old(enemies)
    {
      if timersRunning {
        enemies := enemies + [SpawnedEnemy(leftRight, nearSide, along)];
      }
    }

    /** The click handler without its trigonometry: the velocity is given. */
    method Fire(velocity: Vec)
      modifies this`projectiles
      ensures projectiles == old(projectiles) + [Shot(player, velocity)]
    {
      projectiles := projectiles + [Shot(player, velocity)];
    }

    /** The four key tests of `update`, applied one after the other. */
    method MovePlayer(keys: Keys)
      modifies this`player
      ensures player.x == old(player.x) + PlayerSpeed * Axis(keys.a, keys.d)
      ensures player.y == old(player.y) + PlayerSpeed * Axis(keys.w, keys.s)
      ensures player.health == old(player.health) && player.id == old(player.id)
    {
      if keys.w {
        player := player.(y := player.y - PlayerSpeed);
      }
      if keys.a {
        player := player.(x := player.x - PlayerSpeed);
      }
      if keys.s {
        player := player.(y := player.y + PlayerSpeed);
      }
      if keys.d {
        player := player.(x := player.x + PlayerSpeed);
      }
    }

    /** The `projectiles.forEach` of `update`, splicing in place as it goes. */
    method MoveProjectiles()
      modifies this`projectiles, this`enemies, this`enemiesKilledThisWave
      ensures Volley(projectiles, enemies, enemiesKilledThisWave)
              == ProjectilePass(old(projectiles), old(enemies), old(enemiesKilledThisWave))
      ensures enemiesKilledThisWave + |enemies| == old(enemiesKilledThisWave) + |old(enemies)|
      ensures multiset(enemies) <= multiset(old(enemies))
    {
      ghost var final := ProjectilePass(projectiles, enemies, enemiesKilledThisWave);
      ProjectilePassAccounts(projectiles, enemies, enemiesKilledThisWave);
      var n := |projectiles|;
      var k := 0;
      while k < n
        invariant k <= n
        invariant ProjectileScan(projectiles, enemies, k, n, enemiesKilledThisWave) == final
      {
        if k < |projectiles| {
          var p := Advance(projectiles[k]);
          projectiles := projectiles[k := p];
          if OffScreen(p) {
            projectiles := Splice(projectiles, k);
          } else {
            ResolveHits(ProjectileRect(p), k);
          }
        }
        k := k + 1;
      }
    }

    /** The inner `enemies.forEach` for the projectile visited at index `k`,
        whose square is `shot`. */
    method ResolveHits(shot: Rect, k: nat)
      modifies this`projectiles, this`enemies, this`enemiesKilledThisWave
      ensures Volley(projectiles, enemies, enemiesKilledThisWave)
              == HitScan(shot, k, old(projectiles), old(enemies), 0, |old(enemies)|, old(enemiesKilledThisWave))
    {
      var ps, es, kills := projectiles, enemies, enemiesKilledThisWave;
      var m := |es|;
      var j := 0;
      while j < m
        invariant j <= m
        invariant HitScan(shot, k, ps, es, j, m, kills) == HitScan(shot, k, projectiles, enemies, 0, m, enemiesKilledThisWave)
      {
        if j < |es| && CheckCollision(shot, EnemyRect(es[j])) {
          ps := Splice(ps, k);
          es := Splice(es, j);
          kills := kills + 1;
        }
        j := j + 1;
      }
      projectiles, enemies, enemiesKilledThisWave := ps, es, kills;
    }

    /** The `enemies.forEach` of `update`: seek, then contact with the player. */
    method MoveEnemies(seek: Enemy -> Vec)
      modifies this`enemies, this`player, this`timersRunning
      ensures Contact(enemies, player.health, timersRunning)
              == ContactPass(PlayerRect(old(player)), seek, old(enemies), old(player.health), old(timersRunning))
      ensures player == old(player).(health := player.health)
      ensures player.health == old(player.health) - ContactDamage * (|old(enemies)| - |enemies|)
      ensures timersRunning == (old(timersRunning) && (player.health == old(player.health) || player.health > 0))
    {
      var body := PlayerRect(player);
      ghost var final := ContactPass(body, seek, enemies, player.health, timersRunning);
      ContactPassAccounts(body, seek, enemies, player.health, timersRunning);
      var n := |enemies|;
      var j := 0;
      while j < n
        invariant j <= n
        invariant player == old(player).(health := player.health)
        invariant ContactScan(body, seek, enemies, j, n, player.health, timersRunning) == final
      {
        if j < |enemies| {
          var e := Seek(enemies[j], seek);
          enemies := enemies[j := e];
          if CheckCollision(body, EnemyRect(e)) {
            player := player.(health := player.health - ContactDamage);
            enemies := Splice(enemies, j);
            if player.health <= 0 {
              timersRunning := false;
            }
          }
        }
        j := j + 1;
      }
    }

    /** `update`: movement, the `playerUpdate` sent only while the channel is
        open, then the projectile loop and the enemy loop. */
    method Update(keys: Keys, channelOpen: bool, seek: Enemy -> Vec) returns (sent: Option<ClientMessage>)
      modifies this`player, this`projectiles, this`enemies, this`enemiesKilledThisWave, this`timersRunning
      ensures player.x == old(player.x) + PlayerSpeed * Axis(keys.a, keys.d)
      ensures player.y == old(player.y) + PlayerSpeed * Axis(keys.w, keys.s)
      ensures player.id == old(player.id)
      ensures sent == if channelOpen then Some(PlayerUpdate(UpdateBody(myPlayerId, player.x, player.y, old(player.health))))
                      else None
      ensures var v := ProjectilePass(old(projectiles), old(enemies), old(enemiesKilledThisWave));
              var c := ContactPass(PlayerRect(player), seek, v.enemies, old(player.health), old(timersRunning));
              && projectiles == v.projectiles && enemiesKilledThisWave == v.kills
              && enemies == c.enemies && player.health == c.health && timersRunning == c.running
    {
      MovePlayer(keys);
      if channelOpen {
        sent := Some(PlayerUpdate(UpdateBody(myPlayerId, player.x, player.y, player.health)));
      } else {
        sent := None;
      }
      MoveProjectiles();
      MoveEnemies(seek);
    }

    /** The `ws.onmessage` handler. */
    method OnMessage(msg: ServerMessage)
      modifies this`myPlayerId, this`player, this`otherPlayers
      ensures msg.Init? ==> myPlayerId == Some(msg.id) && player == old(player).(id := Some(msg.id))
                            && otherPlayers == old(otherPlayers)
      ensures msg.GameState? ==> otherPlayers == Others(msg.players, myPlayerId)
                                 && myPlayerId == old(myPlayerId) && player == old(player)
    {
      match msg
      case Init(id) =>
        myPlayerId := Some(id);
        player := player.(id := Some(id));
      case GameState(players) =>
        otherPlayers := [];
        var i := 0;
        while i < |players|
          invariant i <= |players|
          invariant otherPlayers == Others(players[..i], myPlayerId)
          invariant myPlayerId == old(myPlayerId) && player == old(player)
        {
          assert players[..i + 1][..i] == players[..i];
          if myPlayerId != Some(players[i].id) {
            otherPlayers := otherPlayers + [players[i]];
          }
          i := i + 1;
        }
        assert players[..i] == players;
    }
  }

  /** At wave 1, full health, with one enemy just left of the player and level
      with its centre: one frame of the enemy loop steps it onto the player and
      leaves 90 health and no enemy. */
  method OneEnemyContact() returns (health: int, left: nat, live: bool)
    ensures health == 90 && left == 0 && live
  {
    var g := new Game();
    g.enemies := [Enemy(g.player.x - 10.0, g.player.y + 10.0, EnemySize, EnemySize, EnemySpeed)];
    g.MoveEnemies(Eastward);
    health, left, live := g.player.health, |g.enemies|, g.timersRunning;
  }
}
