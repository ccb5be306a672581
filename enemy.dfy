// Enemies: configuration defaults, damage without clamping and the death
// notification, and the patrol rule that walks between startX - patrolDistance
// and startX + patrolDistance, turning at the bounds or at a wall.  The
// physics body is reduced to the position x and the "blocked" flags.
module Enemies {
  import opened Base

  const DefaultHealth: int := 2
  const DefaultScoreValue: int := 100
  const DefaultSpeed: real := 80.0
  const DefaultPatrolDistance: real := 120.0

  datatype EnemyKind = Patrol | Stationary

  /** The optional settings an enemy is created with; an absent one takes its default. */
  datatype EnemyConfig = EnemyConfig(
    kind: Option<EnemyKind>, health: Option<int>, speed: Option<real>,
    scoreValue: Option<int>, patrolDistance: Option<real>)

  /** The settings an enemy actually gets from a configuration. */
  datatype Stats = Stats(
    health: int, maxHealth: int, scoreValue: int, speed: real,
    kind: EnemyKind, patrolDistance: real)

  function Configure(config: EnemyConfig): (st: Stats)
    ensures st.maxHealth == st.health
    ensures config.health.None? ==> st.health == DefaultHealth
    ensures config.kind.None? ==> st.kind == Patrol
    ensures config.scoreValue.None? ==> st.scoreValue == DefaultScoreValue
    ensures config.speed.None? ==> st.speed == DefaultSpeed
    ensures config.patrolDistance.None? ==> st.patrolDistance == DefaultPatrolDistance
    ensures config.health.Some? ==> st.health == config.health.value
    ensures config.kind.Some? ==> st.kind == config.kind.value
    ensures config.scoreValue.Some? ==> st.scoreValue == config.scoreValue.value
    ensures config.speed.Some? ==> st.speed == config.speed.value
    ensures config.patrolDistance.Some? ==> st.patrolDistance == config.patrolDistance.value
  {
    var health := config.health.GetOr(DefaultHealth);
    Stats(health, health, config.scoreValue.GetOr(DefaultScoreValue), config.speed.GetOr(DefaultSpeed),
          config.kind.GetOr(Patrol), config.patrolDistance.GetOr(DefaultPatrolDistance))
  }

  /** What changes from tick to tick. */
  datatype Motion = Motion(x: real, patrolDir: int, vx: real, facingLeft: bool)

  predicate Direction(d: int) {
    d == -1 || d == 1
  }

  /** The patrol direction for the next tick: the right-hand checks win over
      the left-hand ones, and with neither the direction is kept. */
  function NextPatrolDir(dir: int, offset: real, range: real, blockedLeft: bool, blockedRight: bool): (d: int)
    ensures Direction(dir) ==> Direction(d)
    ensures offset > range || blockedRight ==> d == -1
    ensures !(offset > range || blockedRight) && (offset < -range || blockedLeft) ==> d == 1
    ensures !(offset > range || blockedRight || offset < -range || blockedLeft) ==> d == dir
  {
    if offset > range || blockedRight then -1
    else if offset < -range || blockedLeft then 1
    else dir
  }

  /** One patrol tick: the velocity follows the direction held at the start
      of the tick, and only then is the direction re-evaluated. */
  function PatrolStep(st: Stats, startX: real, m: Motion, blockedLeft: bool, blockedRight: bool): (r: Motion)
    ensures r.x == m.x
    ensures r.vx == st.speed * (m.patrolDir as real)
    ensures r.facingLeft <==> m.patrolDir < 0
    ensures Direction(m.patrolDir) ==> Direction(r.patrolDir)
  {
    Motion(m.x,
           NextPatrolDir(m.patrolDir, m.x - startX, st.patrolDistance, blockedLeft, blockedRight),
           st.speed * (m.patrolDir as real),
           m.patrolDir < 0)
  }

  /** An enemy's update: only a patrolling enemy moves. */
  function EnemyTick(st: Stats, startX: real, m: Motion, blockedLeft: bool, blockedRight: bool): (r: Motion)
    ensures st.kind == Stationary ==> r == m
    ensures Direction(m.patrolDir) ==> Direction(r.patrolDir)
  {
    if st.kind == Patrol then PatrolStep(st, startX, m, blockedLeft, blockedRight) else m
  }

  /** An enemy pushed past either bound of its patrol heads back towards its
      start on the following tick, whatever the blocked flags say on that side. */
  lemma TurnsBackPastBounds(st: Stats, startX: real, m: Motion, blockedLeft: bool, blockedRight: bool)
    requires st.kind == Patrol && st.speed > 0.0 && Direction(m.patrolDir)
    ensures var next := EnemyTick(st, startX, m, blockedLeft, blockedRight);
            m.x - startX > st.patrolDistance ==> EnemyTick(st, startX, next, false, false).vx < 0.0
    ensures var next := EnemyTick(st, startX, m, blockedLeft, blockedRight);
            m.x - startX < -st.patrolDistance && !blockedRight && st.patrolDistance >= 0.0 ==>
              EnemyTick(st, startX, next, false, false).vx > 0.0
  {
  }

  /** Health after a series of hits: there is no clamp, so it can go below zero. */
  function HealthAfterHits(health: int, damage: int, hits: nat): int {
    if hits == 0 then health else HealthAfterHits(health, damage, hits - 1) - damage
  }

  /** An enemy hit k times by d is dead exactly when k * d reaches its health;
      a default enemy thus needs two plasma bursts or one nova blast. */
  lemma {:induction false} LethalHit(health: int, damage: int, hits: nat)
    ensures HealthAfterHits(health, damage, hits) == health - hits * damage
    ensures HealthAfterHits(health, damage, hits) <= 0 <==> hits * damage >= health
  {
    if hits > 0 {
      LethalHit(health, damage, hits - 1);
    }
  }

  /** The notification an enemy sends when it dies, carrying itself. */
  datatype EnemyEvent = EnemyDied(enemy: Enemy)

  class Enemy {
    var health: int
    const maxHealth: int
    const scoreValue: int
    const speed: real
    const kind: EnemyKind
    const patrolDistance: real
    const startX: real
    var x: real
    var y: real
    var patrolDir: int
    var vx: real
    var facingLeft: bool
    /** Set once the enemy has been removed from the scene. */
    var destroyed: bool
    var events: seq<EnemyEvent>

    function Settings(): Stats
      reads this
    {
      Stats(health, maxHealth, scoreValue, speed, kind, patrolDistance)
    }

    function Movement(): Motion
      reads this
    {
      Motion(x, patrolDir, vx, facingLeft)
    }

    ghost predicate Valid()
      reads this
    {
      Direction(patrolDir)
    }

    constructor (x0: real, y0: real, config: EnemyConfig)
      ensures Settings() == Configure(config)
      ensures startX == x0 && x == x0 && y == y0
      ensures patrolDir == 1 && vx == 0.0 && !facingLeft
      ensures !destroyed && events == []
      ensures Valid()
    {
      health := config.health.GetOr(DefaultHealth);
      maxHealth := health;
      scoreValue := config.scoreValue.GetOr(DefaultScoreValue);
      speed := config.speed.GetOr(DefaultSpeed);
      kind := config.kind.GetOr(Patrol);
      patrolDistance := config.patrolDistance.GetOr(DefaultPatrolDistance);
      startX := x0;
      x, y := x0, y0;
      patrolDir := 1;
      vx := 0.0;
      facingLeft := false;
      destroyed := false;
      events := [];
    }

    /** Subtracts the damage; once health is not positive the enemy reports
        its death and is destroyed.  The result says whether it died. */
    method TakeDamage(amount: int) returns (dead: bool)
      requires !destroyed
      modifies this
      ensures health == old(health) - amount
      ensures dead <==> health <= 0
      ensures destroyed == dead
      ensures events == old(events) + (if dead then [EnemyDied(this)] else [])
      ensures Movement() == old(Movement()) && y == old(y)
    {
      health := health - amount;
      if health <= 0 {
        OnDeath();
        return true;
      }
      return false;
    }

    method OnDeath()
      modifies this
      ensures events == old(events) + [EnemyDied(this)]
      ensures destroyed
      ensures health == old(health) && Movement() == old(Movement()) && y == old(y)
    {
      events := events + [EnemyDied(this)];
      destroyed := true;
    }

    method Update(delta: int, blockedLeft: bool, blockedRight: bool)
      modifies this
      ensures Movement() == EnemyTick(Settings(), startX, old(Movement()), blockedLeft, blockedRight)
      ensures health == old(health) && y == old(y) && destroyed == old(destroyed) && events == old(events)
      ensures old(Valid()) ==> Valid()
    {
      if kind == Patrol {
        UpdatePatrol(blockedLeft, blockedRight);
      }
    }

    method UpdatePatrol(blockedLeft: bool, blockedRight: bool)
      modifies this
      ensures Movement() == PatrolStep(Settings(), startX, old(Movement()), blockedLeft, blockedRight)
      ensures health == old(health) && y == old(y) && destroyed == old(destroyed) && events == old(events)
    {
      vx := speed * (patrolDir as real);
      facingLeft := patrolDir < 0;
      var distFromStart := x - startX;
      if distFromStart > patrolDistance || blockedRight {
        patrolDir := -1;
      } else if distFromStart < -patrolDistance || blockedLeft {
        patrolDir := 1;
      }
    }
  }
}
