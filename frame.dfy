/** The two removal loops of a frame as functions. Each is a JavaScript
    `forEach` that `splice`s the array it walks: `forEach` fixes the number of
    visits when it starts and visits index k only while k is still below the
    array's current length, so the element that slides into a spliced index is
    not visited; `splice` at an index past the end removes nothing. */
module Frame {
  import opened Geometry
  import opened Entities

  /** `s.splice(i, 1)`. */
  function Splice<T>(s: seq<T>, i: nat): (r: seq<T>)
    ensures |r| == if i < |s| then |s| - 1 else |s|
  {
    if i < |s| then s[..i] + s[i + 1..] else s
  }

  /** Splicing keeps every element before `i` in place and shifts every later
      one down by one. */
  lemma SpliceContents<T>(s: seq<T>, i: nat)
    ensures forall j :: 0 <= j < |Splice(s, i)| ==> Splice(s, i)[j] == if j < i then s[j] else s[j + 1]
  {
    if i < |s| {
      var r := Splice(s, i);
      assert r == s[..i] + s[i + 1..];
      forall j | 0 <= j < |r|
        ensures r[j] == if j < i then s[j] else s[j + 1]
      {
        if j < i {
          assert r[j] == s[..i][j];
        } else {
          assert r[j] == s[i + 1..][j - i];
        }
      }
    } else {
      assert Splice(s, i) == s;
    }
  }

  /** Splicing never adds an element. */
  lemma SpliceShrinks<T>(s: seq<T>, i: nat)
    ensures multiset(Splice(s, i)) <= multiset(s)
  {
    if i < |s| {
      assert s == s[..i] + [s[i]] + s[i + 1..];
    }
  }

  /** Projectiles, enemies and the kill counter after (part of) the projectile loop. */
  datatype Volley = Volley(projectiles: seq<Projectile>, enemies: seq<Enemy>, kills: int)

  /** The inner `enemies.forEach` for the projectile first visited at index `k`,
      whose square is `shot`, from visit `j` of `n`. Every hit splices index `k`
      of the projectiles (whatever is there by then) and index `j` of the enemies,
      and counts one kill. */
  function HitScan(shot: Rect, k: nat, ps: seq<Projectile>, es: seq<Enemy>, j: nat, n: nat, kills: int): Volley
    decreases n - j
  {
    if j >= n then Volley(ps, es, kills)
    else if j < |es| && CheckCollision(shot, EnemyRect(es[j])) then
      HitScan(shot, k, Splice(ps, k), Splice(es, j), j + 1, n, kills + 1)
    else
      HitScan(shot, k, ps, es, j + 1, n, kills)
  }

  /** The outer `projectiles.forEach`, from visit `k` of `n`: the visited
      projectile is moved; if it is off screen it is spliced out and no enemy is
      tested against it, otherwise the inner loop runs. */
  function ProjectileScan(ps: seq<Projectile>, es: seq<Enemy>, k: nat, n: nat, kills: int): Volley
    decreases n - k
  {
    if k >= n then Volley(ps, es, kills)
    else if k >= |ps| then ProjectileScan(ps, es, k + 1, n, kills)
    else
      var p := Advance(ps[k]);
      var moved := ps[k := p];
      if OffScreen(p) then ProjectileScan(Splice(moved, k), es, k + 1, n, kills)
      else
        var v := HitScan(ProjectileRect(p), k, moved, es, 0, |es|, kills);
        ProjectileScan(v.projectiles, v.enemies, k + 1, n, v.kills)
  }

  /** The whole projectile loop of one frame. */
  function ProjectilePass(ps: seq<Projectile>, es: seq<Enemy>, kills: int): Volley {
    ProjectileScan(ps, es, 0, |ps|, kills)
  }

  /** Each hit removes exactly one enemy and adds exactly one kill; enemies are
      only removed, never added, and projectiles never multiply. */
  lemma {:induction false} HitScanAccounts(shot: Rect, k: nat, ps: seq<Projectile>, es: seq<Enemy>, j: nat, n: nat, kills: int)
    ensures var v := HitScan(shot, k, ps, es, j, n, kills);
            && v.kills - kills == |es| - |v.enemies|
            && |v.enemies| <= |es| && multiset(v.enemies) <= multiset(es)
            && |v.projectiles| <= |ps|
    decreases n - j
  {
    if j < n {
      if j < |es| && CheckCollision(shot, EnemyRect(es[j])) {
        SpliceShrinks(es, j);
        HitScanAccounts(shot, k, Splice(ps, k), Splice(es, j), j + 1, n, kills + 1);
      } else {
        HitScanAccounts(shot, k, ps, es, j + 1, n, kills);
      }
    }
  }

  lemma {:induction false} ProjectileScanAccounts(ps: seq<Projectile>, es: seq<Enemy>, k: nat, n: nat, kills: int)
    ensures var v := ProjectileScan(ps, es, k, n, kills);
            && v.kills - kills == |es| - |v.enemies|
            && |v.enemies| <= |es| && multiset(v.enemies) <= multiset(es)
            && |v.projectiles| <= |ps|
    decreases n - k
  {
    if k < n {
      if k >= |ps| {
        ProjectileScanAccounts(ps, es, k + 1, n, kills);
      } else {
        var p := Advance(ps[k]);
        var moved := ps[k := p];
        if OffScreen(p) {
          ProjectileScanAccounts(Splice(moved, k), es, k + 1, n, kills);
        } else {
          var v := HitScan(ProjectileRect(p), k, moved, es, 0, |es|, kills);
          HitScanAccounts(ProjectileRect(p), k, moved, es, 0, |es|, kills);
          ProjectileScanAccounts(v.projectiles, v.enemies, k + 1, n, v.kills);
        }
      }
    }
  }

  /** Over a whole frame, the kill counter grows by exactly the number of enemies
      the projectiles removed, so kills plus live enemies is preserved. */
  lemma ProjectilePassAccounts(ps: seq<Projectile>, es: seq<Enemy>, kills: int)
    ensures var v := ProjectilePass(ps, es, kills);
            && v.kills + |v.enemies| == kills + |es|
            && multiset(v.enemies) <= multiset(es)
            && |v.projectiles| <= |ps|
  {
    ProjectileScanAccounts(ps, es, 0, |ps|, kills);
  }

  /** A projectile that, after its move, is off screen or overlaps none of `es`. */
  predicate Harmless(p: Projectile, es: seq<Enemy>) {
    OffScreen(Advance(p)) || forall e :: e in es ==> !CheckCollision(ProjectileRect(Advance(p)), EnemyRect(e))
  }

  /** An inner loop whose projectile square overlaps no enemy changes nothing. */
  lemma {:induction false} MissChangesNothing(shot: Rect, k: nat, ps: seq<Projectile>, es: seq<Enemy>, j: nat, n: nat, kills: int)
    requires forall e :: e in es ==> !CheckCollision(shot, EnemyRect(e))
    ensures HitScan(shot, k, ps, es, j, n, kills) == Volley(ps, es, kills)
    decreases n - j
  {
    if j < n {
      if j < |es| {
        assert !CheckCollision(shot, EnemyRect(es[j]));
      }
      MissChangesNothing(shot, k, ps, es, j + 1, n, kills);
    }
  }

  /** Projectiles that leave the canvas are never tested against enemies: when
      every projectile still to be visited is either off screen after its move
      (whatever it overlaps) or overlaps no enemy, the loop removes no enemy and
      counts no kill. */
  lemma {:induction false} OffScreenNeverHits(ps: seq<Projectile>, es: seq<Enemy>, k: nat, n: nat, kills: int)
    requires forall i :: k <= i < |ps| ==> Harmless(ps[i], es)
    ensures var v := ProjectileScan(ps, es, k, n, kills);
            v.enemies == es && v.kills == kills
    decreases n - k
  {
    if k < n {
      if k >= |ps| {
        OffScreenNeverHits(ps, es, k + 1, n, kills);
      } else {
        var p := Advance(ps[k]);
        var moved := ps[k := p];
        if OffScreen(p) {
          var rest := Splice(moved, k);
          SpliceContents(moved, k);
          assert forall i :: k + 1 <= i < |rest| ==> rest[i] == ps[i + 1];
          OffScreenNeverHits(rest, es, k + 1, n, kills);
        } else {
          assert Harmless(ps[k], es);
          MissChangesNothing(ProjectileRect(p), k, moved, es, 0, |es|, kills);
          OffScreenNeverHits(moved, es, k + 1, n, kills);
        }
      }
    }
  }

  /** Enemies and the player's health and timers after (part of) the enemy loop. */
  datatype Contact = Contact(enemies: seq<Enemy>, health: int, running: bool)

  /** The `enemies.forEach` that moves each visited enemy by its seek step and,
      when it then overlaps the player, takes `ContactDamage` health, splices the
      enemy out, and cancels the timers once health is at most 0. */
  function ContactScan(player: Rect, seek: Enemy -> Vec, es: seq<Enemy>, j: nat, n: nat, health: int, running: bool): Contact
    decreases n - j
  {
    if j >= n then Contact(es, health, running)
    else if j >= |es| then ContactScan(player, seek, es, j + 1, n, health, running)
    else
      var e := Seek(es[j], seek);
      var moved := es[j := e];
      if CheckCollision(player, EnemyRect(e)) then
        var h := health - ContactDamage;
        ContactScan(player, seek, Splice(moved, j), j + 1, n, h, if h <= 0 then false else running)
      else
        ContactScan(player, seek, moved, j + 1, n, health, running)
  }

  /** The whole enemy loop of one frame. */
  function ContactPass(player: Rect, seek: Enemy -> Vec, es: seq<Enemy>, health: int, running: bool): Contact {
    ContactScan(player, seek, es, 0, |es|, health, running)
  }

  /** Every removed enemy cost exactly `ContactDamage` health (nothing clamps it),
      and the timers end up cancelled exactly when they were live and some contact
      in this loop brought health to 0 or below. */
  lemma {:induction false} ContactScanAccounts(player: Rect, seek: Enemy -> Vec, es: seq<Enemy>, j: nat, n: nat, health: int, running: bool)
    ensures var c := ContactScan(player, seek, es, j, n, health, running);
            && c.health == health - ContactDamage * (|es| - |c.enemies|)
            && |c.enemies| <= |es|
            && c.running == (running && (c.health == health || c.health > 0))
    decreases n - j
  {
    if j < n {
      if j >= |es| {
        ContactScanAccounts(player, seek, es, j + 1, n, health, running);
      } else {
        var e := Seek(es[j], seek);
        var moved := es[j := e];
        if CheckCollision(player, EnemyRect(e)) {
          var h := health - ContactDamage;
          ContactScanAccounts(player, seek, Splice(moved, j), j + 1, n, h, if h <= 0 then false else running);
        } else {
          ContactScanAccounts(player, seek, moved, j + 1, n, health, running);
        }
      }
    }
  }

  lemma ContactPassAccounts(player: Rect, seek: Enemy -> Vec, es: seq<Enemy>, health: int, running: bool)
    ensures var c := ContactPass(player, seek, es, health, running);
            && c.health == health - ContactDamage * (|es| - |c.enemies|)
            && |c.enemies| <= |es|
            && c.running == (running && (c.health == health || c.health > 0))
  {
    ContactScanAccounts(player, seek, es, 0, |es|, health, running);
  }

  /** An enemy is removed only on contact: when no enemy still to be visited
      overlaps the player after its seek step, the loop costs no health, keeps
      the timers as they were and removes no enemy; each visited enemy has made
      its step and the others are untouched. */
  lemma {:induction false} NoContactCostsNothing(player: Rect, seek: Enemy -> Vec, es: seq<Enemy>, j: nat, n: nat, health: int, running: bool)
    requires j <= n <= |es|
    requires forall i :: j <= i < |es| ==> !CheckCollision(player, EnemyRect(Seek(es[i], seek)))
    ensures var c := ContactScan(player, seek, es, j, n, health, running);
            && c.health == health && c.running == running && |c.enemies| == |es|
            && (forall i :: j <= i < n ==> c.enemies[i] == Seek(es[i], seek))
            && (forall i :: 0 <= i < j || n <= i < |es| ==> c.enemies[i] == es[i])
    decreases n - j
  {
    if j < n {
      var e := Seek(es[j], seek);
      var moved := es[j := e];
      assert !CheckCollision(player, EnemyRect(e));
      NoContactCostsNothing(player, seek, moved, j + 1, n, health, running);
    }
  }
  /** The seek step of an enemy level with the player's centre and to its left:
      the angle toward the player is 0, so the step is `EnemySpeed` to the right. */
  function Eastward(e: Enemy): Vec { Vec(EnemySpeed, 0.0) }

  /** One projectile over enemies 0 and 2 of three, the middle one far away: the
      first hit splices enemy 0, the other overlapping enemy slides to index 1
      and is hit as well, and the second `splice(pIndex, 1)` removes the OTHER
      projectile, which hit nothing: two kills and two projectiles gone. */
  lemma OneShotRemovesTwoProjectiles()
    ensures var right := Vec(10.0, 0.0);
            var p0 := Projectile(90.0, 100.0, ProjectileRadius, right);
            var p1 := Projectile(290.0, 300.0, ProjectileRadius, right);
            var e0 := Enemy(90.0, 90.0, EnemySize, EnemySize, EnemySpeed);
            var far := Enemy(500.0, 500.0, EnemySize, EnemySize, EnemySpeed);
            var e1 := Enemy(100.0, 100.0, EnemySize, EnemySize, EnemySpeed);
            ProjectilePass([p0, p1], [e0, far, e1], 0) == Volley([], [far], 2)
  {
    var right := Vec(10.0, 0.0);
    var p0 := Projectile(90.0, 100.0, ProjectileRadius, right);
    var p1 := Projectile(290.0, 300.0, ProjectileRadius, right);
    var e0 := Enemy(90.0, 90.0, EnemySize, EnemySize, EnemySpeed);
    var far := Enemy(500.0, 500.0, EnemySize, EnemySize, EnemySpeed);
    var e1 := Enemy(100.0, 100.0, EnemySize, EnemySize, EnemySpeed);
    var q0 := Advance(p0);
    var shot := ProjectileRect(q0);
    assert q0 == Projectile(100.0, 100.0, ProjectileRadius, right);
    assert [p0, p1][0 := q0] == [q0, p1];
    assert !OffScreen(q0);
    assert CheckCollision(shot, EnemyRect(e0));
    assert !CheckCollision(shot, EnemyRect(far));
    assert CheckCollision(shot, EnemyRect(e1));
    assert Splice([q0, p1], 0) == [p1];
    assert Splice([p1], 0) == [];
    assert Splice([e0, far, e1], 0) == [far, e1];
    assert Splice([far, e1], 1) == [far];
    assert HitScan(shot, 0, [], [far], 2, 3, 2) == Volley([], [far], 2);
    assert HitScan(shot, 0, [p1], [far, e1], 1, 3, 1) == Volley([], [far], 2);
    assert HitScan(shot, 0, [q0, p1], [e0, far, e1], 0, 3, 0) == Volley([], [far], 2);
    assert ProjectileScan([], [far], 1, 2, 2) == Volley([], [far], 2);
  }

  /** Two enemies side by side over one projectile: the first is hit and
      spliced out, the second slides into the visited index and is skipped, so
      it survives although it overlapped a projectile this frame. */
  lemma SlidInEnemyEscapes()
    ensures var p := Projectile(90.0, 100.0, ProjectileRadius, Vec(10.0, 0.0));
            var e0 := Enemy(90.0, 90.0, EnemySize, EnemySize, EnemySpeed);
            var e1 := Enemy(100.0, 100.0, EnemySize, EnemySize, EnemySpeed);
            ProjectilePass([p], [e0, e1], 7) == Volley([], [e1], 8)
  {
    var p := Projectile(90.0, 100.0, ProjectileRadius, Vec(10.0, 0.0));
    var e0 := Enemy(90.0, 90.0, EnemySize, EnemySize, EnemySpeed);
    var e1 := Enemy(100.0, 100.0, EnemySize, EnemySize, EnemySpeed);
    var q := Advance(p);
    var shot := ProjectileRect(q);
    assert q == Projectile(100.0, 100.0, ProjectileRadius, Vec(10.0, 0.0));
    assert [p][0 := q] == [q];
    assert !OffScreen(q);
    assert CheckCollision(shot, EnemyRect(e0));
    assert Splice([q], 0) == [];
    assert Splice([e0, e1], 0) == [e1];
    assert HitScan(shot, 0, [], [e1], 1, 2, 8) == Volley([], [e1], 8);
    assert HitScan(shot, 0, [q], [e0, e1], 0, 2, 7) == Volley([], [e1], 8);
  }

  /** When a projectile leaves the canvas, the next one slides into its index
      and is neither moved nor tested this frame. */
  lemma SlidInProjectileNotMoved()
    ensures var gone := Projectile(798.0, 300.0, ProjectileRadius, Vec(10.0, 0.0));
            var next := Projectile(400.0, 300.0, ProjectileRadius, Vec(10.0, 0.0));
            var e := Enemy(405.0, 290.0, EnemySize, EnemySize, EnemySpeed);
            ProjectilePass([gone, next], [e], 0) == Volley([next], [e], 0)
  {
    var gone := Projectile(798.0, 300.0, ProjectileRadius, Vec(10.0, 0.0));
    var next := Projectile(400.0, 300.0, ProjectileRadius, Vec(10.0, 0.0));
    var e := Enemy(405.0, 290.0, EnemySize, EnemySize, EnemySpeed);
    assert OffScreen(Advance(gone));
    assert [gone, next][0 := Advance(gone)] == [Advance(gone), next];
    assert Splice([Advance(gone), next], 0) == [next];
    assert ProjectileScan([next], [e], 1, 2, 0) == Volley([next], [e], 0);
  }

  /** Two enemies on top of the player: the first costs 10 health and is
      removed, the second slides into its index and is skipped this frame. */
  lemma SlidInContactSkipped()
    ensures var player := Rect(400.0, 300.0, PlayerWidth, PlayerHeight);
            var a := Enemy(390.0, 310.0, EnemySize, EnemySize, EnemySpeed);
            var b := Enemy(395.0, 310.0, EnemySize, EnemySize, EnemySpeed);
            ContactPass(player, Eastward, [a, b], 100, true) == Contact([b], 90, true)
  {
    var player := Rect(400.0, 300.0, PlayerWidth, PlayerHeight);
    var a := Enemy(390.0, 310.0, EnemySize, EnemySize, EnemySpeed);
    var b := Enemy(395.0, 310.0, EnemySize, EnemySize, EnemySpeed);
    var a' := Seek(a, Eastward);
    assert a' == Enemy(392.0, 310.0, EnemySize, EnemySize, EnemySpeed);
    assert [a, b][0 := a'] == [a', b];
    assert CheckCollision(player, EnemyRect(a'));
    assert Splice([a', b], 0) == [b];
    assert ContactScan(player, Eastward, [b], 1, 2, 90, true) == Contact([b], 90, true);
  }

  /** Health is not clamped: a contact at 5 health leaves -5, and cancels the timers. */
  lemma HealthGoesNegative()
    ensures var player := Rect(400.0, 300.0, PlayerWidth, PlayerHeight);
            var a := Enemy(390.0, 310.0, EnemySize, EnemySize, EnemySpeed);
            ContactPass(player, Eastward, [a], 5, true) == Contact([], -5, false)
  {
    var player := Rect(400.0, 300.0, PlayerWidth, PlayerHeight);
    var a := Enemy(390.0, 310.0, EnemySize, EnemySize, EnemySpeed);
    var a' := Seek(a, Eastward);
    assert a' == Enemy(392.0, 310.0, EnemySize, EnemySize, EnemySpeed);
    assert [a][0 := a'] == [a'];
    assert CheckCollision(player, EnemyRect(a'));
    assert Splice([a'], 0) == [];
    assert ContactScan(player, Eastward, [], 1, 1, -5, false) == Contact([], -5, false);
  }
}
