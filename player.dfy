// The player controller of the platformer: health and score, horizontal
// movement with friction, coyote-time jumping with variable height, the
// charge/fire weapon, and the choice of animation.  The keyboard is reduced to
// a per-tick Input record and the physics body to the fields vx, vy and an
// onGround flag (the body's "blocked down").
module Players {
  import opened Base

  const InitialHealth: int := 3
  const CoyoteLimit: int := 100
  const ChargeThreshold: int := 800
  /** Half the charge threshold: from here on the charge animation shows. */
  const ChargeAnimationThreshold: int := 400
  /** Milliseconds between two plasma bursts. */
  const BurstFireRate: int := 200
  const RunSpeed: real := 220.0
  const Friction: real := 0.75
  const StopSpeed: real := 5.0
  /** The physics body never lets |vx| exceed this. */
  const MaxSpeedX: real := 280.0
  const JumpVelocity: real := -580.0
  const JumpCutVelocity: real := -200.0
  const MuzzleOffset: real := 20.0
  const BurstSpeed: real := 600.0
  const NovaSpeed: real := 380.0
  const RunAnimationSpeed: real := 60.0
  const WalkAnimationSpeed: real := 5.0

  datatype Anim = Idle | Walk | Run | Jump | Fall | Shoot | Charge

  /** The keys as the player's update sees them during one tick: held
      directions, and the press/release edges of jump and fire. */
  datatype Input = Input(
    left: bool, right: bool,
    jumpPressed: bool, jumpReleased: bool,
    firePressed: bool, fireHeld: bool, fireReleased: bool)

  datatype ProjectileKind = Burst | Nova
  datatype Projectile = Projectile(x: real, y: real, vx: real, kind: ProjectileKind)

  /** Notifications the player sends: the HUD callbacks and the 'died' event. */
  datatype PlayerEvent = HealthChanged(health: int) | ScoreChanged(score: int) | Died

  datatype PlayerState = PlayerState(
    health: int, maxHealth: int, score: int,
    coyoteTimer: int,
    chargeTimer: int, charging: bool, fireRateTimer: int, shooting: bool,
    armed: bool,
    x: real, y: real, vx: real, vy: real, facingLeft: bool,
    anim: Anim)

  /** What one call of the weapon logic leaves behind: the new state and the
      projectile it put into the projectile group, if any. */
  datatype Fired = Fired(state: PlayerState, shot: Option<Projectile>)

  /** The invariant the player keeps: health within [0, maxHealth] and a
      cooldown that is never negative. */
  predicate WellFormed(s: PlayerState) {
    0 <= s.health <= s.maxHealth && s.fireRateTimer >= 0
  }

  /** The state a freshly constructed player starts in. */
  function Spawned(x: real, y: real): (s: PlayerState)
    ensures WellFormed(s) && s.health == s.maxHealth == InitialHealth
  {
    PlayerState(InitialHealth, InitialHealth, 0, 0, 0, false, 0, false, false,
                x, y, 0.0, 0.0, false, Idle)
  }

  // ---------------------------------------------------------------------------
  // Health and score

  /** Health after a hit of the given amount: it never drops below zero. */
  function DamagedHealth(health: int, amount: int): (h: int)
    ensures h >= 0
    ensures h <= 0 <==> amount >= health
    ensures amount >= 0 ==> h <= Max(health, 0)
  {
    Max(0, health - amount)
  }

  /** What one takeDamage call reports, given the health it leaves: the new
      health always, then 'died' whenever that health is not positive. */
  function DamageEvents(health: int): (es: seq<PlayerEvent>)
    ensures |es| >= 1 && es[0] == HealthChanged(health)
    ensures Died in es <==> health <= 0
  {
    [HealthChanged(health)] + (if health <= 0 then [Died] else [])
  }

  /** Health after a series of takeDamage calls. */
  function HealthAfter(health: int, amounts: seq<int>): int
    decreases |amounts|
  {
    if amounts == [] then health else HealthAfter(DamagedHealth(health, amounts[0]), amounts[1..])
  }

  /** The notifications of a series of takeDamage calls. */
  function DamageTrace(health: int, amounts: seq<int>): seq<PlayerEvent>
    decreases |amounts|
  {
    if amounts == [] then []
    else
      var h := DamagedHealth(health, amounts[0]);
      DamageEvents(h) + DamageTrace(h, amounts[1..])
  }

  function Count(es: seq<PlayerEvent>, e: PlayerEvent): nat {
    if es == [] then 0 else (if es[0] == e then 1 else 0) + Count(es[1..], e)
  }

  lemma {:induction false} CountAppend(a: seq<PlayerEvent>, b: seq<PlayerEvent>, e: PlayerEvent)
    ensures Count(a + b, e) == Count(a, e) + Count(b, e)
  {
    if a != [] {
      assert (a + b)[0] == a[0];
      assert (a + b)[1..] == a[1..] + b;
      CountAppend(a[1..], b, e);
    } else {
      assert a + b == b;
    }
  }

  lemma {:induction false} SumNonNegative(xs: seq<int>)
    requires AllNonNegative(xs)
    ensures Sum(xs) >= 0
  {
    if xs != [] {
      SumNonNegative(xs[1..]);
    }
  }

  /** Hits accumulate: a series of non-negative hits leaves max(0, health - total),
      so a player that starts in range stays in [0, its starting health]. */
  lemma {:induction false} DamageAccumulates(health: int, amounts: seq<int>)
    decreases |amounts|
    requires health >= 0 && AllNonNegative(amounts)
    ensures HealthAfter(health, amounts) == Max(0, health - Sum(amounts))
    ensures 0 <= HealthAfter(health, amounts) <= health
  {
    SumNonNegative(amounts);
    if amounts != [] {
      DamageAccumulates(DamagedHealth(health, amounts[0]), amounts[1..]);
    }
  }

  /** There is no once-only guard: every call reports the health, and every
      call made at zero health emits 'died' again. */
  lemma {:induction false} DiedOnEveryCallAtZero(amounts: seq<int>)
    requires AllNonNegative(amounts)
    ensures Count(DamageTrace(0, amounts), Died) == |amounts|
  {
    if amounts != [] {
      assert DamagedHealth(0, amounts[0]) == 0;
      CountAppend(DamageEvents(0), DamageTrace(0, amounts[1..]), Died);
      DiedOnEveryCallAtZero(amounts[1..]);
    }
  }

  /** The healths reported by the health-changed notifications of a trace, in order. */
  function HealthReports(es: seq<PlayerEvent>): seq<int> {
    if es == [] then []
    else (if es[0].HealthChanged? then [es[0].health] else []) + HealthReports(es[1..])
  }

  lemma {:induction false} HealthReportsAppend(a: seq<PlayerEvent>, b: seq<PlayerEvent>)
    ensures HealthReports(a + b) == HealthReports(a) + HealthReports(b)
  {
    if a != [] {
      assert (a + b)[0] == a[0];
      assert (a + b)[1..] == a[1..] + b;
      HealthReportsAppend(a[1..], b);
    } else {
      assert a + b == b;
    }
  }

  /** Every call reports its own resulting health, in call order: the i-th
      health notification of a series of hits carries the health left after
      the first i + 1 hits, and there is exactly one per call. */
  lemma {:induction false} HealthReportedEveryCall(health: int, amounts: seq<int>)
    decreases |amounts|
    ensures |HealthReports(DamageTrace(health, amounts))| == |amounts|
    ensures forall i :: 0 <= i < |amounts| ==>
      HealthReports(DamageTrace(health, amounts))[i] == HealthAfter(health, amounts[..i + 1])
  {
    if amounts != [] {
      var h := DamagedHealth(health, amounts[0]);
      var rest := amounts[1..];
      HealthReportedEveryCall(h, rest);
      HealthReportsAppend(DamageEvents(h), DamageTrace(h, rest));
      assert HealthReports(DamageEvents(h)) == [h] by {
        var es := DamageEvents(h);
        assert es[0] == HealthChanged(h);
        if h <= 0 {
          assert es == [HealthChanged(h), Died];
          assert es[1..][1..] == [];
        } else {
          assert es == [HealthChanged(h)];
        }
      }
      var reports := HealthReports(DamageTrace(health, amounts));
      assert reports == [h] + HealthReports(DamageTrace(h, rest));
      forall i | 0 <= i < |amounts|
        ensures reports[i] == HealthAfter(health, amounts[..i + 1])
      {
        assert amounts[..i + 1][0] == amounts[0];
        assert amounts[..i + 1][1..] == rest[..i];
        if i > 0 {
          assert reports[i] == HealthReports(DamageTrace(h, rest))[i - 1];
          assert rest[..i - 1 + 1] == rest[..i];
        } else {
          assert rest[..0] == [];
        }
      }
    }
  }

  /** Score after a series of addScore calls. */
  function ScoreAfter(score: int, amounts: seq<int>): int
    decreases |amounts|
  {
    if amounts == [] then score else ScoreAfter(score + amounts[0], amounts[1..])
  }

  lemma {:induction false} ScoreAccumulates(score: int, amounts: seq<int>)
    decreases |amounts|
    ensures ScoreAfter(score, amounts) == score + Sum(amounts)
  {
    if amounts != [] {
      ScoreAccumulates(score + amounts[0], amounts[1..]);
    }
  }

  // ---------------------------------------------------------------------------
  // Horizontal movement

  /** One tick of friction: the velocity shrinks to three quarters and snaps
      to zero once it is below the stop speed. */
  function Decay(vx: real): (r: real)
    ensures Abs(r) <= Friction * Abs(vx)
    ensures r == 0.0 <==> Friction * Abs(vx) < StopSpeed
    ensures r != 0.0 ==> Abs(r) >= StopSpeed && (r > 0.0 <==> vx > 0.0)
  {
    var slowed := vx * Friction;
    if Abs(slowed) < StopSpeed then 0.0 else slowed
  }

  /** The horizontal velocity rule: left wins over right, either gives the
      fixed run speed, no input lets friction act. */
  function HorizontalVelocity(left: bool, right: bool, vx: real): (r: real)
    ensures left ==> r == -RunSpeed
    ensures !left && right ==> r == RunSpeed
    ensures !left && !right ==> Abs(r) <= Abs(vx) && r * vx >= 0.0
  {
    if left then -RunSpeed else if right then RunSpeed else Decay(vx)
  }

  function FacingLeft(left: bool, right: bool, wasLeft: bool): bool {
    if left then true else if right then false else wasLeft
  }

  function Move(s: PlayerState, input: Input): (r: PlayerState) {
    s.(vx := HorizontalVelocity(input.left, input.right, s.vx),
       facingLeft := FacingLeft(input.left, input.right, s.facingLeft))
  }

  /** The velocity after n ticks without horizontal input. */
  function Glide(vx: real, n: nat): real {
    if n == 0 then vx else Decay(Glide(vx, n - 1))
  }

  /** The most |vx| can be after n ticks of friction from a speed of at most a. */
  function GlideLimit(a: real, n: nat): real {
    if n == 0 then a else Friction * GlideLimit(a, n - 1)
  }

  lemma {:induction false} GlideBound(vx: real, n: nat)
    ensures Abs(Glide(vx, n)) <= GlideLimit(Abs(vx), n)
  {
    if n > 0 {
      GlideBound(vx, n - 1);
    }
  }

  lemma {:induction false} GlideLimitMonotonic(a: real, b: real, n: nat)
    requires a <= b
    ensures GlideLimit(a, n) <= GlideLimit(b, n)
  {
    if n > 0 {
      GlideLimitMonotonic(a, b, n - 1);
    }
  }

  /** Friction really stops the player: from any speed the body allows,
      fourteen ticks without input bring vx to exactly zero. */
  lemma ComesToRest(vx: real)
    requires Abs(vx) <= MaxSpeedX
    ensures Glide(vx, 14) == 0.0
  {
    GlideBound(vx, 13);
    GlideLimitMonotonic(Abs(vx), MaxSpeedX, 13);
    assert GlideLimit(MaxSpeedX, 13) == 280.0 * 1594323.0 / 67108864.0;
  }

  // ---------------------------------------------------------------------------
  // Jumping

  /** The coyote timer after this tick's refresh or countdown. */
  function CoyoteAfter(timer: int, onGround: bool, delta: int): int {
    if onGround then CoyoteLimit else timer - delta
  }

  /** A jump happens on a press while the refreshed coyote budget is positive. */
  predicate Jumps(timer: int, onGround: bool, pressed: bool, delta: int) {
    pressed && CoyoteAfter(timer, onGround, delta) > 0
  }

  function JumpStep(s: PlayerState, onGround: bool, pressed: bool, released: bool, delta: int): (r: PlayerState)
    ensures r == s.(coyoteTimer := r.coyoteTimer, vy := r.vy)
    ensures Jumps(s.coyoteTimer, onGround, pressed, delta) ==>
      r.coyoteTimer == 0 && r.vy == (if released then JumpCutVelocity else JumpVelocity)
    ensures !Jumps(s.coyoteTimer, onGround, pressed, delta) ==>
      r.coyoteTimer == CoyoteAfter(s.coyoteTimer, onGround, delta) &&
      r.vy == (if released && s.vy < JumpCutVelocity then JumpCutVelocity else s.vy)
    ensures released ==> r.vy >= JumpCutVelocity
  {
    var timer := CoyoteAfter(s.coyoteTimer, onGround, delta);
    var jumped := pressed && timer > 0;
    var vy := if jumped then JumpVelocity else s.vy;
    s.(coyoteTimer := if jumped then 0 else timer,
       vy := if released && vy < JumpCutVelocity then JumpCutVelocity else vy)
  }

  /** The jump keys and the elapsed time of one tick spent in the air. */
  datatype AirTick = AirTick(pressed: bool, released: bool, delta: int)

  predicate Elapsing(ticks: seq<AirTick>) {
    forall i :: 0 <= i < |ticks| ==> ticks[i].delta >= 0
  }

  /** The number of jumps made during a run of airborne ticks. */
  function AirborneJumps(s: PlayerState, ticks: seq<AirTick>): nat
    decreases |ticks|
  {
    if ticks == [] then 0
    else
      var t := ticks[0];
      (if Jumps(s.coyoteTimer, false, t.pressed, t.delta) then 1 else 0)
        + AirborneJumps(JumpStep(s, false, t.pressed, t.released, t.delta), ticks[1..])
  }

  lemma {:induction false} NoJumpOnceExpired(s: PlayerState, ticks: seq<AirTick>)
    requires s.coyoteTimer <= 0 && Elapsing(ticks)
    decreases |ticks|
    ensures AirborneJumps(s, ticks) == 0
  {
    if ticks != [] {
      var t := ticks[0];
      assert Elapsing(ticks[1..]);
      NoJumpOnceExpired(JumpStep(s, false, t.pressed, t.released, t.delta), ticks[1..]);
    }
  }

  /** At most one jump per grace window: once airborne, the player jumps at
      most once until the ground refreshes the coyote timer. */
  lemma {:induction false} OneJumpPerGraceWindow(s: PlayerState, ticks: seq<AirTick>)
    requires Elapsing(ticks)
    ensures AirborneJumps(s, ticks) <= 1
    decreases |ticks|
  {
    if ticks != [] {
      var t := ticks[0];
      var next := JumpStep(s, false, t.pressed, t.released, t.delta);
      assert Elapsing(ticks[1..]);
      if Jumps(s.coyoteTimer, false, t.pressed, t.delta) {
        NoJumpOnceExpired(next, ticks[1..]);
      } else {
        OneJumpPerGraceWindow(next, ticks[1..]);
      }
    }
  }

  // ---------------------------------------------------------------------------
  // The plasma buster

  function Aim(s: PlayerState): real {
    if s.facingLeft then -1.0 else 1.0
  }

  /** The fast, light projectile. */
  function PlasmaBurst(s: PlayerState): Projectile {
    Projectile(s.x + Aim(s) * MuzzleOffset, s.y, Aim(s) * BurstSpeed, Burst)
  }

  /** The slower, heavy projectile of a full charge. */
  function NovaBlast(s: PlayerState): Projectile {
    Projectile(s.x + Aim(s) * MuzzleOffset, s.y, Aim(s) * NovaSpeed, Nova)
  }

  /** The fire cooldown after this tick's countdown. */
  function Cooldown(timer: int, delta: int): (t: int)
    ensures t >= 0
    ensures delta >= 0 ==> t <= Max(timer, 0)
    ensures t == 0 <==> timer <= delta
  {
    Max(0, timer - delta)
  }

  /** Whether this tick starts or continues a charge. */
  predicate ChargingNow(s: PlayerState, input: Input) {
    input.firePressed || s.charging
  }

  /** The charge time once this tick's press and hold are accounted for. */
  function ChargeHeld(s: PlayerState, input: Input, delta: int): int {
    var charge := if input.firePressed then 0 else s.chargeTimer;
    if input.fireHeld && ChargingNow(s, input) then charge + delta else charge
  }

  /** A release of the fire key while charging resolves the shot. */
  predicate Releases(s: PlayerState, input: Input) {
    s.armed && input.fireReleased && ChargingNow(s, input)
  }

  /** The weapon logic of one tick. */
  function Fire(s: PlayerState, input: Input, delta: int): (r: Fired)
    ensures !s.armed ==> r == Fired(s, None)
    ensures s.armed ==> r.state.fireRateTimer >= 0
    ensures s.armed && !Releases(s, input) ==>
      r.shot == None &&
      r.state == s.(chargeTimer := ChargeHeld(s, input, delta),
                    charging := ChargingNow(s, input),
                    fireRateTimer := Cooldown(s.fireRateTimer, delta))
    ensures Releases(s, input) ==>
      r.state == s.(chargeTimer := 0, charging := false, fireRateTimer := BurstFireRate,
                    shooting := true, anim := Shoot)
    ensures Releases(s, input) ==>
      (r.shot == Some(NovaBlast(s)) <==> ChargeHeld(s, input, delta) >= ChargeThreshold)
    ensures Releases(s, input) && ChargeHeld(s, input, delta) < ChargeThreshold ==>
      r.shot == (if Cooldown(s.fireRateTimer, delta) > 0 then None else Some(PlasmaBurst(s)))
  {
    if !s.armed then Fired(s, None)
    else
      var cooldown := Cooldown(s.fireRateTimer, delta);
      var charge := ChargeHeld(s, input, delta);
      if input.fireReleased && ChargingNow(s, input) then
        var shot :=
          if charge >= ChargeThreshold then Some(NovaBlast(s))
          else if cooldown > 0 then None
          else Some(PlasmaBurst(s));
        Fired(s.(chargeTimer := 0, charging := false, fireRateTimer := BurstFireRate,
                 shooting := true, anim := Shoot), shot)
      else
        Fired(s.(chargeTimer := charge, charging := ChargingNow(s, input), fireRateTimer := cooldown), None)
  }

  /** Fire held down, no edge. */
  const Holding: Input := Input(left := false, right := false, jumpPressed := false, jumpReleased := false,
                                firePressed := false, fireHeld := true, fireReleased := false)
  /** Fire let go. */
  const Letting: Input := Input(left := false, right := false, jumpPressed := false, jumpReleased := false,
                                firePressed := false, fireHeld := false, fireReleased := true)

  /** The weapon state after holding fire through ticks of the given lengths. */
  function HoldFire(s: PlayerState, deltas: seq<int>): PlayerState
    decreases |deltas|
  {
    if deltas == [] then s else HoldFire(Fire(s, Holding, deltas[0]).state, deltas[1..])
  }

  lemma {:induction false} ChargeAccumulates(s: PlayerState, deltas: seq<int>)
    requires s.armed && s.charging
    ensures HoldFire(s, deltas).armed && HoldFire(s, deltas).charging
    ensures HoldFire(s, deltas).chargeTimer == s.chargeTimer + Sum(deltas)
    decreases |deltas|
  {
    if deltas != [] {
      ChargeAccumulates(Fire(s, Holding, deltas[0]).state, deltas[1..]);
    }
  }

  /** Holding the fire key for a total of at least the charge threshold and
      then releasing it fires a nova blast; a shorter hold never does. */
  lemma NovaAfterLongHold(s: PlayerState, deltas: seq<int>, delta: int)
    requires s.armed && s.charging && s.chargeTimer == 0
    ensures Fire(HoldFire(s, deltas), Letting, delta).shot == Some(NovaBlast(HoldFire(s, deltas)))
            <==> Sum(deltas) >= ChargeThreshold
  {
    ChargeAccumulates(s, deltas);
  }

  // ---------------------------------------------------------------------------
  // Animation

  /** The animation kept or chosen at the end of a tick. */
  function SelectAnimation(s: PlayerState, onGround: bool): (a: Anim)
    ensures s.shooting ==> a == s.anim
    ensures a == Shoot ==> s.shooting
  {
    if s.shooting then s.anim
    else if s.charging && s.chargeTimer >= ChargeAnimationThreshold then Charge
    else if !onGround then (if s.vy < 0.0 then Jump else Fall)
    else if Abs(s.vx) > RunAnimationSpeed then Run
    else if Abs(s.vx) > WalkAnimationSpeed then Walk
    else Idle
  }

  /** When an animation is called for, ignoring the others. */
  predicate Wanted(a: Anim, s: PlayerState, onGround: bool) {
    match a
    case Charge => s.charging && s.chargeTimer >= ChargeAnimationThreshold
    case Jump => !onGround && s.vy < 0.0
    case Fall => !onGround && s.vy >= 0.0
    case Run => onGround && Abs(s.vx) > RunAnimationSpeed
    case Walk => onGround && Abs(s.vx) > WalkAnimationSpeed
    case Idle => onGround
    case Shoot => false
  }

  /** Highest priority first. */
  const Priority: seq<Anim> := [Charge, Jump, Fall, Run, Walk, Idle]

  function FirstWanted(candidates: seq<Anim>, s: PlayerState, onGround: bool): Option<Anim> {
    if candidates == [] then None
    else if Wanted(candidates[0], s, onGround) then Some(candidates[0])
    else FirstWanted(candidates[1..], s, onGround)
  }

  /** Unless a shot is playing, the animation is the first wanted one in the
      order charge, jump, fall, run, walk, idle. */
  lemma SelectionFollowsPriority(s: PlayerState, onGround: bool)
    requires !s.shooting
    ensures FirstWanted(Priority, s, onGround) == Some(SelectAnimation(s, onGround))
  {
    var g := onGround;
    assert FirstWanted([], s, g) == None;
    assert FirstWanted([Idle], s, g) == if g then Some(Idle) else None;
    assert FirstWanted([Walk, Idle], s, g) ==
      if Wanted(Walk, s, g) then Some(Walk) else FirstWanted([Idle], s, g);
    assert FirstWanted([Run, Walk, Idle], s, g) ==
      if Wanted(Run, s, g) then Some(Run) else FirstWanted([Walk, Idle], s, g);
    assert FirstWanted([Fall, Run, Walk, Idle], s, g) ==
      if Wanted(Fall, s, g) then Some(Fall) else FirstWanted([Run, Walk, Idle], s, g);
    assert FirstWanted([Jump, Fall, Run, Walk, Idle], s, g) ==
      if Wanted(Jump, s, g) then Some(Jump) else FirstWanted([Fall, Run, Walk, Idle], s, g);
    assert FirstWanted(Priority, s, g) ==
      if Wanted(Charge, s, g) then Some(Charge) else FirstWanted([Jump, Fall, Run, Walk, Idle], s, g);
  }

  // ---------------------------------------------------------------------------
  // One tick

  /** The player's update: movement, then jump, then fire, then animation. */
  function Tick(s: PlayerState, input: Input, onGround: bool, delta: int): (r: Fired)
    ensures WellFormed(s) ==> WellFormed(r.state)
    ensures r.state.health == s.health && r.state.score == s.score
    ensures input.left ==> r.state.vx == -RunSpeed && r.state.facingLeft
    ensures r.shot.Some? ==> r.state.anim == Shoot
    ensures r.shot.Some? ==> (r.shot.value.vx < 0.0 <==> r.state.facingLeft)
  {
    var moved := Move(s, input);
    var jumped := JumpStep(moved, onGround, input.jumpPressed, input.jumpReleased, delta);
    var fired := Fire(jumped, input, delta);
    Fired(fired.state.(anim := SelectAnimation(fired.state, onGround)), fired.shot)
  }

  class Player {
    var health: int
    const maxHealth: int
    var score: int
    var coyoteTimer: int
    var chargeTimer: int
    var charging: bool
    var fireRateTimer: int
    var shooting: bool
    /** Whether the scene has handed over its projectile group. */
    var armed: bool
    var x: real
    var y: real
    var vx: real
    var vy: real
    var facingLeft: bool
    var anim: Anim
    var events: seq<PlayerEvent>

    function State(): PlayerState
      reads this
    {
      PlayerState(health, maxHealth, score, coyoteTimer, chargeTimer, charging, fireRateTimer,
                  shooting, armed, x, y, vx, vy, facingLeft, anim)
    }

    ghost predicate Valid()
      reads this
    {
      WellFormed(State())
    }

    constructor (x0: real, y0: real)
      ensures State() == Spawned(x0, y0) && events == []
      ensures Valid()
    {
      health, maxHealth, score := InitialHealth, InitialHealth, 0;
      coyoteTimer, chargeTimer, charging, fireRateTimer, shooting := 0, 0, false, 0, false;
      armed := false;
      x, y, vx, vy, facingLeft := x0, y0, 0.0, 0.0, false;
      anim := Idle;
      events := [];
    }

    method SetProjectileGroup()
      modifies this
      ensures State() == old(State()).(armed := true) && events == old(events)
    {
      armed := true;
    }

    method AddScore(amount: int)
      modifies this
      ensures State() == old(State()).(score := old(score) + amount)
      ensures events == old(events) + [ScoreChanged(score)]
    {
      score := score + amount;
      events := events + [ScoreChanged(score)];
    }

    method TakeDamage(amount: int)
      modifies this
      ensures State() == old(State()).(health := DamagedHealth(old(health), amount))
      ensures events == old(events) + DamageEvents(health)
      ensures old(Valid()) && amount >= 0 ==> Valid()
    {
      health := Max(0, health - amount);
      events := events + [HealthChanged(health)];
      if health <= 0 {
        events := events + [Died];
      }
    }

    method HandleMovement(input: Input)
      modifies this
      ensures State() == Move(old(State()), input) && events == old(events)
    {
      if input.left {
        vx := -RunSpeed;
        facingLeft := true;
      } else if input.right {
        vx := RunSpeed;
        facingLeft := false;
      } else {
        vx := vx * Friction;
        if Abs(vx) < StopSpeed {
          vx := 0.0;
        }
      }
    }

    method HandleJump(input: Input, onGround: bool, delta: int)
      modifies this
      ensures State() == JumpStep(old(State()), onGround, input.jumpPressed, input.jumpReleased, delta)
      ensures events == old(events)
    {
      if onGround {
        coyoteTimer := CoyoteLimit;
      } else {
        coyoteTimer := coyoteTimer - delta;
      }
      if input.jumpPressed && coyoteTimer > 0 {
        vy := JumpVelocity;
        coyoteTimer := 0;
      }
      if input.jumpReleased && vy < JumpCutVelocity {
        vy := JumpCutVelocity;
      }
    }

    method HandleFire(input: Input, delta: int) returns (shot: Option<Projectile>)
      modifies this
      ensures Fired(State(), shot) == Fire(old(State()), input, delta) && events == old(events)
    {
      shot := None;
      if !armed {
        return;
      }
      fireRateTimer := Max(0, fireRateTimer - delta);
      if input.firePressed {
        chargeTimer := 0;
        charging := true;
      }
      if input.fireHeld && charging {
        chargeTimer := chargeTimer + delta;
      }
      if input.fireReleased && charging {
        if chargeTimer >= ChargeThreshold {
          shot := FireNovaBlast();
        } else {
          shot := FirePlasmaBurst();
        }
        chargeTimer := 0;
        charging := false;
        fireRateTimer := BurstFireRate;
        PlayShootAnim();
      }
    }

    method PlayShootAnim()
      modifies this
      ensures State() == old(State()).(shooting := true, anim := Shoot) && events == old(events)
    {
      shooting := true;
      anim := Shoot;
    }

    /** The engine reports that the shoot animation has finished playing. */
    method OnShootAnimationComplete()
      modifies this
      ensures State() == old(State()).(shooting := false) && events == old(events)
    {
      shooting := false;
    }

    method FirePlasmaBurst() returns (shot: Option<Projectile>)
      ensures shot == if fireRateTimer > 0 then None else Some(PlasmaBurst(State()))
    {
      if fireRateTimer > 0 {
        return None;
      }
      var dir := if facingLeft then -1.0 else 1.0;
      shot := Some(Projectile(x + dir * MuzzleOffset, y, dir * BurstSpeed, Burst));
    }

    method FireNovaBlast() returns (shot: Option<Projectile>)
      ensures shot == Some(NovaBlast(State()))
    {
      var dir := if facingLeft then -1.0 else 1.0;
      shot := Some(Projectile(x + dir * MuzzleOffset, y, dir * NovaSpeed, Nova));
    }

    method UpdateAnimation(onGround: bool)
      modifies this
      ensures State() == old(State()).(anim := SelectAnimation(old(State()), onGround))
      ensures events == old(events)
    {
      if shooting {
        return;
      }
      var speedX := Abs(vx);
      if charging && chargeTimer >= ChargeAnimationThreshold {
        anim := Charge;
        return;
      }
      if !onGround {
        anim := if vy < 0.0 then Jump else Fall;
        return;
      }
      if speedX > RunAnimationSpeed {
        anim := Run;
      } else if speedX > WalkAnimationSpeed {
        anim := Walk;
      } else {
        anim := Idle;
      }
    }

    method Update(input: Input, onGround: bool, delta: int) returns (shot: Option<Projectile>)
      modifies this
      ensures Fired(State(), shot) == Tick(old(State()), input, onGround, delta)
      ensures events == old(events)
      ensures old(Valid()) ==> Valid()
    {
      HandleMovement(input);
      HandleJump(input, onGround, delta);
      shot := HandleFire(input, delta);
      UpdateAnimation(onGround);
    }
  }
}
