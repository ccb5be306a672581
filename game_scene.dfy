// The level scene: it creates the player and the enemies, runs each tick
// (player, then every enemy, then projectile culling) and reacts to the
// collisions the physics engine reports.  The camera position is a parameter
// of the tick, and so are the blocked flags of the bodies.
module Scenes {
  import opened Base
  import opened Players
  import opened Enemies

  /** How far outside the camera view a projectile may fly before it is culled. */
  const CullMargin: real := 100.0
  const PlayerStartX: real := 100.0
  const PlayerStartY: real := GameHeight - 100.0
  const EnemyStartY: real := GameHeight - 80.0
  const EnemyStartXs: seq<real> := [600.0, 1200.0, 1800.0]
  /** The settings every enemy of the scene is created with. */
  const SceneEnemy: EnemyConfig := EnemyConfig(None, Some(2), Some(70.0), Some(100), Some(120.0))
  const NovaDamage: int := 3
  const BurstDamage: int := 1
  const ContactDamage: int := 1

  /** The blocked flags the physics engine reports for one enemy body. */
  datatype Blocked = Blocked(left: bool, right: bool)

  function ShotList(shot: Option<Projectile>): seq<Projectile> {
    if shot.Some? then [shot.value] else []
  }

  /** The damage a projectile deals to the enemy it overlaps. */
  function ProjectileDamage(p: Projectile): (d: int)
    ensures d > 0
    ensures d == NovaDamage <==> p.kind == Nova
    ensures p.kind != Nova ==> d == BurstDamage
  {
    if p.kind == Nova then NovaDamage else BurstDamage
  }

  /** A nova blast kills any enemy with at most 3 health in one hit, and a
      default enemy of 2 health survives exactly one plasma burst. */
  lemma HitsNeeded(health: int)
    ensures health <= NovaDamage ==> HealthAfterHits(health, NovaDamage, 1) <= 0
    ensures HealthAfterHits(health, BurstDamage, 1) <= 0 <==> health <= BurstDamage
    ensures health == DefaultHealth ==>
      HealthAfterHits(health, BurstDamage, 1) > 0 && HealthAfterHits(health, BurstDamage, 2) <= 0
  {
    LethalHit(health, NovaDamage, 1);
    LethalHit(health, BurstDamage, 1);
    LethalHit(health, BurstDamage, 2);
  }

  /** Inside the camera view widened by the margin on both sides. */
  predicate OnScreen(p: Projectile, scrollX: real) {
    !(p.x < scrollX - CullMargin || p.x > scrollX + GameWidth + CullMargin)
  }

  /** The projectiles that survive culling, in their original order. */
  function Cull(ps: seq<Projectile>, scrollX: real): (kept: seq<Projectile>)
    ensures |kept| <= |ps|
    ensures forall i :: 0 <= i < |kept| ==> OnScreen(kept[i], scrollX)
    decreases |ps|
  {
    if ps == [] then []
    else Cull(ps[..|ps| - 1], scrollX) + (if OnScreen(ps[|ps| - 1], scrollX) then [ps[|ps| - 1]] else [])
  }

  /** Culling removes exactly the off-screen projectiles: each on-screen one
      survives as often as it occurs, and no off-screen one survives. */
  lemma {:induction false} CullIsFilter(ps: seq<Projectile>, scrollX: real)
    ensures forall p :: multiset(Cull(ps, scrollX))[p] == if OnScreen(p, scrollX) then multiset(ps)[p] else 0
    decreases |ps|
  {
    if ps != [] {
      var init := ps[..|ps| - 1];
      var last := ps[|ps| - 1];
      assert ps == init + [last];
      CullIsFilter(init, scrollX);
    }
  }

  /** Culling as the tick's loop is written: forEach walks the group's live
      child list by index while destroy() removes the current child from that
      same list, so the child after each destroyed one is never visited. */
  function ForEachCull(ps: seq<Projectile>, scrollX: real, k: nat): (r: seq<Projectile>)
    ensures |r| <= |ps|
    ensures forall p :: multiset(r)[p] <= multiset(ps)[p]
    ensures forall p :: OnScreen(p, scrollX) ==> multiset(r)[p] == multiset(ps)[p]
    ensures k <= |ps| ==> r == ps[..k] + Sweep(ps[k..], scrollX, false)
    decreases |ps| - k
  {
    if k >= |ps| then ps
    else if !OnScreen(ps[k], scrollX) then
      assert ps == ps[..k] + [ps[k]] + ps[k + 1..];
      SweepRemoves(ps, scrollX, k);
      ForEachCull(ps[..k] + ps[k + 1..], scrollX, k + 1)
    else
      SweepKeeps(ps, scrollX, k);
      ForEachCull(ps, scrollX, k + 1)
  }

  /** One step of the loop where the visited projectile is removed: the
      projectile after it moves to the next index and is not looked at. */
  lemma SweepRemoves(ps: seq<Projectile>, scrollX: real, k: nat)
    requires k < |ps| && !OnScreen(ps[k], scrollX)
    ensures var rest := ps[..k] + ps[k + 1..];
      k + 1 <= |rest| ==> rest[..k + 1] + Sweep(rest[k + 1..], scrollX, false) == ps[..k] + Sweep(ps[k..], scrollX, false)
    ensures k + 1 == |ps| ==> ps[..k] + Sweep(ps[k..], scrollX, false) == ps[..k] + ps[k + 1..]
  {
    var rest := ps[..k] + ps[k + 1..];
    assert ps[k..][1..] == ps[k + 1..];
    if k + 1 < |ps| {
      assert rest[..k + 1] == ps[..k] + [ps[k + 1]] && rest[k + 1..] == ps[k + 2..];
      assert ps[k + 1..][1..] == ps[k + 2..];
    }
  }

  /** One step of the loop where the visited projectile stays. */
  lemma SweepKeeps(ps: seq<Projectile>, scrollX: real, k: nat)
    requires k < |ps| && OnScreen(ps[k], scrollX)
    ensures ps[..k + 1] + Sweep(ps[k + 1..], scrollX, false) == ps[..k] + Sweep(ps[k..], scrollX, false)
  {
    assert ps[k..][1..] == ps[k + 1..];
    assert ps[..k + 1] == ps[..k] + [ps[k]];
  }

  /** The loop as written, read left to right over the list it started from.
      An off-screen projectile is removed unless the projectile just before it
      was removed: then the index has already moved past it, and it stays for
      another tick.  `skip` says that the previous projectile was removed. */
  function Sweep(ps: seq<Projectile>, scrollX: real, skip: bool): (r: seq<Projectile>)
    ensures |r| <= |ps|
    decreases |ps|
  {
    if ps == [] then []
    else if !skip && !OnScreen(ps[0], scrollX) then Sweep(ps[1..], scrollX, true)
    else [ps[0]] + Sweep(ps[1..], scrollX, false)
  }

  /** The number of off-screen projectiles in a list. */
  function OffScreenCount(ps: seq<Projectile>, scrollX: real): (n: nat)
    ensures n <= |ps|
    decreases |ps|
  {
    if ps == [] then 0 else (if OnScreen(ps[0], scrollX) then 0 else 1) + OffScreenCount(ps[1..], scrollX)
  }

  /** `a` is `b` with some elements deleted and the rest in their order. */
  predicate SubsequenceOf(a: seq<Projectile>, b: seq<Projectile>)
    decreases |b|
  {
    if b == [] then a == []
    else (a != [] && a[0] == b[0] && SubsequenceOf(a[1..], b[1..])) || SubsequenceOf(a, b[1..])
  }

  lemma {:induction false} SweepKeepsOrder(ps: seq<Projectile>, scrollX: real, skip: bool)
    ensures SubsequenceOf(Sweep(ps, scrollX, skip), ps)
    decreases |ps|
  {
    if ps != [] {
      SweepKeepsOrder(ps[1..], scrollX, !skip && !OnScreen(ps[0], scrollX));
      if skip || OnScreen(ps[0], scrollX) {
        var r := Sweep(ps, scrollX, skip);
        assert r[0] == ps[0] && r[1..] == Sweep(ps[1..], scrollX, false);
      }
    }
  }

  lemma {:induction false} SweepRemovalCount(ps: seq<Projectile>, scrollX: real, skip: bool)
    ensures |ps| - |Sweep(ps, scrollX, skip)| <= OffScreenCount(ps, scrollX)
    ensures 2 * (|ps| - |Sweep(ps, scrollX, skip)|) >= OffScreenCount(ps, scrollX) - (if skip then 1 else 0)
    decreases |ps|
  {
    if ps != [] {
      SweepRemovalCount(ps[1..], scrollX, !skip && !OnScreen(ps[0], scrollX));
    }
  }

  /** Where two off-screen projectiles sit side by side, the loop as written
      keeps an off-screen one: either the first was itself skipped, or it was
      removed and its neighbour is skipped. */
  lemma {:induction false} SweepKeepsOffScreenPair(ps: seq<Projectile>, scrollX: real, skip: bool, j: int)
    requires 0 < j < |ps| && !OnScreen(ps[j - 1], scrollX) && !OnScreen(ps[j], scrollX)
    ensures exists i :: 0 <= i < |Sweep(ps, scrollX, skip)| && !OnScreen(Sweep(ps, scrollX, skip)[i], scrollX)
    decreases |ps|
  {
    var r := Sweep(ps, scrollX, skip);
    if j == 1 {
      if skip {
        assert r[0] == ps[0];
      } else {
        assert r == Sweep(ps[1..], scrollX, true);
        assert r[0] == ps[1];
      }
    } else {
      var skip' := !skip && !OnScreen(ps[0], scrollX);
      SweepKeepsOffScreenPair(ps[1..], scrollX, skip', j - 1);
      var s := Sweep(ps[1..], scrollX, skip');
      var i :| 0 <= i < |s| && !OnScreen(s[i], scrollX);
      if skip' {
        assert r == s;
      } else {
        assert r == [ps[0]] + s && r[i + 1] == s[i];
      }
    }
  }

  /** Culling one projectile at the front of the list. */
  lemma {:induction false} CullCons(ps: seq<Projectile>, scrollX: real)
    requires ps != []
    ensures Cull(ps, scrollX) == (if OnScreen(ps[0], scrollX) then [ps[0]] else []) + Cull(ps[1..], scrollX)
    decreases |ps|
  {
    if |ps| > 1 {
      var init := ps[..|ps| - 1];
      var last := ps[|ps| - 1];
      CullCons(init, scrollX);
      assert init[0] == ps[0] && init[1..] == ps[1..][..|ps[1..]| - 1];
      assert ps[1..][|ps[1..]| - 1] == last;
    }
  }

  /** No two neighbouring projectiles are both off-screen. */
  predicate NoOffScreenNeighbours(ps: seq<Projectile>, scrollX: real) {
    forall j :: 0 < j < |ps| ==> OnScreen(ps[j - 1], scrollX) || OnScreen(ps[j], scrollX)
  }

  lemma NoOffScreenNeighboursTail(ps: seq<Projectile>, scrollX: real)
    requires ps != [] && NoOffScreenNeighbours(ps, scrollX)
    ensures NoOffScreenNeighbours(ps[1..], scrollX)
  {
    var tail := ps[1..];
    forall j | 0 < j < |tail|
      ensures OnScreen(tail[j - 1], scrollX) || OnScreen(tail[j], scrollX)
    {
      assert tail[j - 1] == ps[j] && tail[j] == ps[j + 1];
    }
  }

  /** After an off-screen projectile at the front, an on-screen neighbour is
      skipped by the loop and kept by the intended culling alike. */
  lemma SkipOnScreenNeighbour(ps: seq<Projectile>, scrollX: real)
    requires |ps| > 1 && !OnScreen(ps[0], scrollX) && OnScreen(ps[1], scrollX)
    ensures Sweep(ps, scrollX, false) == [ps[1]] + Sweep(ps[2..], scrollX, false)
    ensures Cull(ps, scrollX) == [ps[1]] + Cull(ps[2..], scrollX)
  {
    var tail := ps[1..];
    assert tail[0] == ps[1] && tail[1..] == ps[2..];
    CullCons(ps, scrollX);
    CullCons(tail, scrollX);
  }

  /** Without two off-screen projectiles side by side, the loop as written
      removes exactly what the intended culling removes. */
  lemma {:induction false} SweepMatchesCull(ps: seq<Projectile>, scrollX: real)
    requires NoOffScreenNeighbours(ps, scrollX)
    ensures Sweep(ps, scrollX, false) == Cull(ps, scrollX)
    decreases |ps|
  {
    if ps == [] {
    } else if OnScreen(ps[0], scrollX) {
      CullCons(ps, scrollX);
      NoOffScreenNeighboursTail(ps, scrollX);
      SweepMatchesCull(ps[1..], scrollX);
    } else if |ps| == 1 {
      CullCons(ps, scrollX);
    } else {
      assert OnScreen(ps[1], scrollX);
      SkipOnScreenNeighbour(ps, scrollX);
      NoOffScreenNeighboursTail(ps, scrollX);
      NoOffScreenNeighboursTail(ps[1..], scrollX);
      assert ps[1..][1..] == ps[2..];
      SweepMatchesCull(ps[2..], scrollX);
    }
  }

  lemma {:induction false} CullKeepsOrder(ps: seq<Projectile>, scrollX: real)
    ensures SubsequenceOf(Cull(ps, scrollX), ps)
    decreases |ps|
  {
    if ps != [] {
      CullCons(ps, scrollX);
      CullKeepsOrder(ps[1..], scrollX);
      var r := Cull(ps, scrollX);
      if OnScreen(ps[0], scrollX) {
        assert r[0] == ps[0] && r[1..] == Cull(ps[1..], scrollX);
      } else {
        assert r == Cull(ps[1..], scrollX);
      }
    }
  }

  /** The loop as written is the left-to-right reading `Sweep`. */
  lemma ForEachCullIsSweep(ps: seq<Projectile>, scrollX: real)
    ensures ForEachCull(ps, scrollX, 0) == Sweep(ps, scrollX, false)
  {
    assert ps[..0] + Sweep(ps[0..], scrollX, false) == Sweep(ps, scrollX, false) by {
      assert ps[..0] == [] && ps[0..] == ps;
    }
  }

  /** Both cullings keep the surviving projectiles in their original order. */
  lemma ForEachCullKeepsOrder(ps: seq<Projectile>, scrollX: real)
    ensures SubsequenceOf(ForEachCull(ps, scrollX, 0), ps)
    ensures SubsequenceOf(Cull(ps, scrollX), ps)
  {
    ForEachCullIsSweep(ps, scrollX);
    SweepKeepsOrder(ps, scrollX, false);
    CullKeepsOrder(ps, scrollX);
  }

  /** The loop as written removes at least half of the off-screen projectiles,
      rounded up, and at most all of them: one tick never leaves every
      off-screen projectile in place. */
  lemma ForEachCullRemovesHalf(ps: seq<Projectile>, scrollX: real)
    ensures OffScreenCount(ps, scrollX) <= 2 * (|ps| - |ForEachCull(ps, scrollX, 0)|)
    ensures |ps| - |ForEachCull(ps, scrollX, 0)| <= OffScreenCount(ps, scrollX)
    ensures OffScreenCount(ps, scrollX) > 0 ==> |ForEachCull(ps, scrollX, 0)| < |ps|
  {
    ForEachCullIsSweep(ps, scrollX);
    SweepRemovalCount(ps, scrollX, false);
  }

  lemma SweepIsCullExactly(ps: seq<Projectile>, scrollX: real)
    ensures Sweep(ps, scrollX, false) == Cull(ps, scrollX) <==> NoOffScreenNeighbours(ps, scrollX)
  {
    if NoOffScreenNeighbours(ps, scrollX) {
      SweepMatchesCull(ps, scrollX);
    } else {
      var j :| 0 < j < |ps| && !OnScreen(ps[j - 1], scrollX) && !OnScreen(ps[j], scrollX);
      SweepKeepsOffScreenPair(ps, scrollX, false, j);
      var s := Sweep(ps, scrollX, false);
      var i :| 0 <= i < |s| && !OnScreen(s[i], scrollX);
      var c := Cull(ps, scrollX);
      assert i < |c| ==> OnScreen(c[i], scrollX);
      assert s != c;
    }
  }

  /** The loop as written agrees with the intended culling exactly when no
      two off-screen projectiles are neighbours in the list. */
  lemma ForEachCullIsCullExactly(ps: seq<Projectile>, scrollX: real)
    ensures ForEachCull(ps, scrollX, 0) == Cull(ps, scrollX) <==> NoOffScreenNeighbours(ps, scrollX)
  {
    ForEachCullIsSweep(ps, scrollX);
    SweepIsCullExactly(ps, scrollX);
  }

  /** The loop as written lies between doing nothing and the intended culling:
      it never removes an on-screen projectile, it only removes off-screen ones,
      and whatever the intended culling keeps, it keeps too. */
  lemma ForEachCullBetween(ps: seq<Projectile>, scrollX: real)
    ensures forall p :: multiset(Cull(ps, scrollX))[p] <= multiset(ForEachCull(ps, scrollX, 0))[p] <= multiset(ps)[p]
    ensures forall p :: !OnScreen(p, scrollX) ==> multiset(Cull(ps, scrollX))[p] == 0
  {
    CullIsFilter(ps, scrollX);
  }

  /** Two projectiles side by side far left of the view: the loop as written
      destroys the first and keeps the second for another tick, while culling
      removes both. */
  lemma ForEachCullSkipsNeighbour()
    ensures var a := Projectile(-500.0, 300.0, -600.0, Burst);
            var b := Projectile(-520.0, 300.0, -600.0, Burst);
            ForEachCull([a, b], 0.0, 0) == [b] && Cull([a, b], 0.0) == []
  {
    var a := Projectile(-500.0, 300.0, -600.0, Burst);
    var b := Projectile(-520.0, 300.0, -600.0, Burst);
    assert [a, b][..0] + [a, b][1..] == [b];
    assert ForEachCull([b], 0.0, 1) == [b];
    assert [a, b][..1] == [a] && [a][..0] == [];
    assert Cull([a], 0.0) == Cull([], 0.0);
  }

  class GameScene {
    var player: Player
    var enemies: seq<Enemy>
    var projectiles: seq<Projectile>

    /** The enemy group holds each enemy once and only living ones. */
    ghost predicate Valid()
      reads this, enemies
    {
      && (forall i, j :: 0 <= i < j < |enemies| ==> enemies[i] != enemies[j])
      && (forall i :: 0 <= i < |enemies| ==> !enemies[i].destroyed)
    }

    /** Creates the player at the level start, then the patrol enemies, then
        hands the projectile group to the player. */
    constructor ()
      ensures fresh(player) && player.events == []
      ensures player.State() == Spawned(PlayerStartX, PlayerStartY).(armed := true)
      ensures |enemies| == |EnemyStartXs| && Valid()
      ensures forall i :: 0 <= i < |enemies| ==>
        fresh(enemies[i]) && enemies[i].Settings() == Configure(SceneEnemy) &&
        enemies[i].startX == enemies[i].x == EnemyStartXs[i] && enemies[i].y == EnemyStartY &&
        enemies[i].patrolDir == 1 && enemies[i].events == []
      ensures projectiles == []
    {
      var p := new Player(PlayerStartX, PlayerStartY);
      var group: seq<Enemy> := [];
      var i := 0;
      while i < |EnemyStartXs|
        invariant 0 <= i <= |EnemyStartXs| && |group| == i
        invariant forall k, l :: 0 <= k < l < |group| ==> group[k] != group[l]
        invariant forall k :: 0 <= k < |group| ==>
          fresh(group[k]) && !group[k].destroyed && group[k].Settings() == Configure(SceneEnemy) &&
          group[k].startX == group[k].x == EnemyStartXs[k] && group[k].y == EnemyStartY &&
          group[k].patrolDir == 1 && group[k].events == []
        invariant p.State() == Spawned(PlayerStartX, PlayerStartY) && p.events == []
      {
        var e := new Enemy(EnemyStartXs[i], EnemyStartY, SceneEnemy);
        group := group + [e];
        i := i + 1;
      }
      p.SetProjectileGroup();
      player := p;
      enemies := group;
      projectiles := [];
    }

    /** One tick: the player, then every enemy, then culling of the
        projectiles, the one fired this tick included. */
    method Update(delta: int, input: Input, onGround: bool, blocked: seq<Blocked>, scrollX: real)
      requires Valid() && |blocked| == |enemies|
      modifies this, player, enemies
      ensures Valid() && player == old(player) && enemies == old(enemies)
      ensures player.State() == Players.Tick(old(player.State()), input, onGround, delta).state
      ensures player.events == old(player.events)
      ensures forall i :: 0 <= i < |enemies| ==>
        enemies[i].Movement() ==
          EnemyTick(enemies[i].Settings(), enemies[i].startX, old(enemies[i].Movement()), blocked[i].left, blocked[i].right)
      ensures forall i :: 0 <= i < |enemies| ==>
        enemies[i].Settings() == old(enemies[i].Settings()) && enemies[i].y == old(enemies[i].y) &&
        enemies[i].events == old(enemies[i].events)
      ensures projectiles ==
        ForEachCull(old(projectiles) + ShotList(Players.Tick(old(player.State()), input, onGround, delta).shot), scrollX, 0)
    {
      var shot := player.Update(input, onGround, delta);
      projectiles := projectiles + ShotList(shot);
      UpdateEnemies(delta, blocked);
      CleanupProjectiles(scrollX);
    }

    /** Every enemy of the group takes its tick, in group order. */
    method UpdateEnemies(delta: int, blocked: seq<Blocked>)
      requires Valid() && |blocked| == |enemies|
      modifies enemies
      ensures forall i :: 0 <= i < |enemies| ==>
        enemies[i].Movement() ==
          EnemyTick(enemies[i].Settings(), enemies[i].startX, old(enemies[i].Movement()), blocked[i].left, blocked[i].right)
      ensures forall i :: 0 <= i < |enemies| ==>
        enemies[i].Settings() == old(enemies[i].Settings()) && enemies[i].y == old(enemies[i].y) &&
        enemies[i].events == old(enemies[i].events) && enemies[i].destroyed == old(enemies[i].destroyed)
    {
      var i := 0;
      while i < |enemies|
        invariant 0 <= i <= |enemies|
        invariant forall k :: 0 <= k < i ==>
          enemies[k].Movement() ==
            EnemyTick(enemies[k].Settings(), enemies[k].startX, old(enemies[k].Movement()), blocked[k].left, blocked[k].right)
        invariant forall k :: i <= k < |enemies| ==> enemies[k].Movement() == old(enemies[k].Movement())
        invariant forall k :: 0 <= k < |enemies| ==>
          enemies[k].Settings() == old(enemies[k].Settings()) && enemies[k].y == old(enemies[k].y) &&
          enemies[k].events == old(enemies[k].events) && enemies[k].destroyed == old(enemies[k].destroyed)
      {
        enemies[i].Update(delta, blocked[i].left, blocked[i].right);
        i := i + 1;
      }
    }

    /** Walks the projectiles by index and removes each one outside the camera
        view and its margin on the spot, as forEach over the group's live child
        list does: after a removal the index still advances, so the next
        projectile, now at the removed one's place, is not looked at. */
    method CleanupProjectiles(scrollX: real)
      modifies this
      ensures projectiles == ForEachCull(old(projectiles), scrollX, 0)
      ensures player == old(player) && enemies == old(enemies)
    {
      var i := 0;
      while i < |projectiles|
        invariant ForEachCull(projectiles, scrollX, i) == ForEachCull(old(projectiles), scrollX, 0)
        invariant player == old(player) && enemies == old(enemies)
        decreases |projectiles| - i
      {
        var p := projectiles[i];
        if p.x < scrollX - CullMargin || p.x > scrollX + GameWidth + CullMargin {
          projectiles := projectiles[..i] + projectiles[i + 1..];
        }
        i := i + 1;
      }
    }

    /** A projectile that hits a platform is destroyed. */
    method OnProjectileHitsPlatform(i: nat)
      requires i < |projectiles|
      modifies this
      ensures projectiles == old(projectiles[..i] + projectiles[i + 1..])
      ensures player == old(player) && enemies == old(enemies)
    {
      projectiles := projectiles[..i] + projectiles[i + 1..];
    }

    /** A projectile that overlaps an enemy is destroyed and damages it; an
        enemy that dies credits its score value to the player and leaves the
        group. */
    method OnProjectileHitsEnemy(i: nat, j: nat)
      requires Valid() && i < |projectiles| && j < |enemies|
      modifies this, player, enemies[j]
      ensures Valid() && player == old(player)
      ensures projectiles == old(projectiles[..i] + projectiles[i + 1..])
      ensures old(enemies[j]).health == old(enemies[j].health) - ProjectileDamage(old(projectiles[i]))
      ensures old(enemies[j]).Movement() == old(enemies[j].Movement()) && old(enemies[j]).y == old(enemies[j].y)
      ensures old(enemies[j]).events ==
        old(enemies[j].events) + (if old(enemies[j]).health <= 0 then [EnemyDied(old(enemies[j]))] else [])
      ensures old(enemies[j]).health <= 0 ==>
        && old(enemies[j]).destroyed
        && player.State() == old(player.State()).(score := old(player.score) + old(enemies[j]).scoreValue)
        && player.events == old(player.events) + [ScoreChanged(player.score)]
        && enemies == old(enemies[..j] + enemies[j + 1..])
      ensures old(enemies[j]).health > 0 ==>
        && player.State() == old(player.State()) && player.events == old(player.events)
        && enemies == old(enemies)
    {
      var damage := ProjectileDamage(projectiles[i]);
      projectiles := projectiles[..i] + projectiles[i + 1..];
      var enemy := enemies[j];
      var dead := enemy.TakeDamage(damage);
      if dead {
        // The scene's 'enemy-died' listener.
        player.AddScore(enemy.scoreValue);
        enemies := enemies[..j] + enemies[j + 1..];
      }
    }

    /** Touching an enemy costs the player one point of health, every time the
        overlap is reported. */
    method OnPlayerTouchesEnemy(j: nat)
      requires j < |enemies|
      modifies player
      ensures player.State() == old(player.State()).(health := DamagedHealth(old(player.health), ContactDamage))
      ensures player.events == old(player.events) + DamageEvents(player.health)
    {
      player.TakeDamage(ContactDamage);
    }
  }
}
