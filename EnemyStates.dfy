/**
 * The five enemy behaviour states.  Each state's Update decides the
 * transition it asks the machine for (the source calls ChangeState as the
 * last action of Update; here Update returns that request and the machine
 * performs it).  Idle and Walk keep no fields; Charge, MeleeAttack and
 * RangeAttack keep per-activation counters that their Enter resets.
 */
module EnemyStates {
  import opened Optional
  import Cooldown
  import opened EnemyAI

  datatype EnemyStateId = Idle | Walk | Charge | MeleeAttack | RangeAttack

  /**
   * The attacks the model records: a melee attack on a player in range, and
   * a ranged attack on a player (which launches a projectile when the enemy
   * has a projectile prefab; the prefab is not modelled).
   */
  datatype Attack = MeleeStrike | RangedShot

  /** What one Update of a state with counters leaves: its counters and its request. */
  datatype Step<C> = Step(counters: C, next: Option<EnemyStateId>)

  // ---------------------------------------------------------------------
  // Idle
  // ---------------------------------------------------------------------

  /**
   * Idle's Update, in priority order: nothing without a player; a player
   * farther than `stoppingDistance + 1` sends it walking; otherwise one
   * within melee range with the melee gate open is attacked.
   */
  function IdleTransition(cfg: EnemyConfig, meleeGate: Cooldown.Gate, p: PlayerRef, now: real): (r: Option<EnemyStateId>)
    ensures p.NoPlayer? ==> r.None?
    ensures r.Some? ==> r.value in {Walk, MeleeAttack}
    ensures r == Some(Walk) <==> p.Player? && p.distance > cfg.stoppingDistance + 1.0
    ensures r == Some(MeleeAttack) <==>
              && p.Player? && p.distance <= cfg.stoppingDistance + 1.0
              && p.distance <= cfg.meleeRange
              && Cooldown.IsReady(meleeGate, cfg.meleeAttackDelay, now)
  {
    if p.NoPlayer? then None
    else if p.distance > cfg.stoppingDistance + 1.0 then Some(Walk)
    else if p.distance <= cfg.meleeRange && Cooldown.IsReady(meleeGate, cfg.meleeAttackDelay, now) then Some(MeleeAttack)
    else None
  }

  /** `IdleState.Update`: reads the melee gate and changes nothing. */
  method IdleUpdate(ai: EnemyAI, p: PlayerRef, now: real) returns (next: Option<EnemyStateId>)
    ensures next == IdleTransition(ai.config, ai.MeleeGate(), p, now)
  {
    next := None;
    if p.NoPlayer? {
      return;
    }
    if p.distance > ai.config.stoppingDistance + 1.0 {
      next := Some(Walk);
      return;
    }
    if p.distance <= ai.config.meleeRange && ai.CanMeleeAttack(now) {
      next := Some(MeleeAttack);
    }
  }

  // ---------------------------------------------------------------------
  // Walk
  // ---------------------------------------------------------------------

  /**
   * Walk's Update, in priority order: nothing without a player; within
   * charge range with the charge gate open it charges; otherwise within
   * `stoppingDistance + 0.15` it goes idle.
   */
  function WalkTransition(cfg: EnemyConfig, chargeGate: Cooldown.Gate, p: PlayerRef, now: real): (r: Option<EnemyStateId>)
    ensures p.NoPlayer? ==> r.None?
    ensures r.Some? ==> r.value in {Charge, Idle}
    ensures r == Some(Charge) <==>
              p.Player? && p.distance <= cfg.chargeRange && Cooldown.IsReady(chargeGate, cfg.chargeCooldown, now)
    ensures r == Some(Idle) <==>
              && p.Player? && p.distance <= cfg.stoppingDistance + 0.15
              && !(p.distance <= cfg.chargeRange && Cooldown.IsReady(chargeGate, cfg.chargeCooldown, now))
  {
    if p.NoPlayer? then None
    else if p.distance <= cfg.chargeRange && Cooldown.IsReady(chargeGate, cfg.chargeCooldown, now) then Some(Charge)
    else if p.distance <= cfg.stoppingDistance + 0.15 then Some(Idle)
    else None
  }

  /** `WalkState.Update`: reads the charge gate and changes nothing. */
  method WalkUpdate(ai: EnemyAI, p: PlayerRef, now: real) returns (next: Option<EnemyStateId>)
    ensures next == WalkTransition(ai.config, ai.ChargeGate(), p, now)
  {
    next := None;
    if p.NoPlayer? {
      return;
    }
    if p.distance <= ai.config.chargeRange && ai.CanCharge(now) {
      next := Some(Charge);
      return;
    }
    if p.distance <= ai.config.stoppingDistance + 0.15 {
      next := Some(Idle);
    }
  }

  // ---------------------------------------------------------------------
  // Charge
  // ---------------------------------------------------------------------

  datatype ChargeCounters = ChargeCounters(chargeTimer: real, isCharging: bool)

  /**
   * Charge's Update: nothing unless charging; the timer grows by `dt`;
   * a player within melee range is attacked.  There is no timeout: the
   * timer is never compared with anything.
   */
  function ChargeTick(c: ChargeCounters, cfg: EnemyConfig, p: PlayerRef, dt: real): (r: Step<ChargeCounters>)
    ensures !c.isCharging ==> r == Step(c, None)
    ensures c.isCharging ==> r.counters == c.(chargeTimer := c.chargeTimer + dt)
    ensures r.next.Some? <==> c.isCharging && p.Player? && p.distance <= cfg.meleeRange
    ensures r.next.Some? ==> r.next.value == MeleeAttack
  {
    if !c.isCharging then Step(c, None)
    else
      var c' := c.(chargeTimer := c.chargeTimer + dt);
      if p.Player? && p.distance <= cfg.meleeRange then Step(c', Some(MeleeAttack)) else Step(c', None)
  }

  /** However long it has charged, Charge keeps charging while no player is within melee range. */
  lemma ChargeHasNoTimeout(c: ChargeCounters, cfg: EnemyConfig, p: PlayerRef, dt: real)
    requires c.isCharging
    requires p.NoPlayer? || p.distance > cfg.meleeRange
    ensures ChargeTick(c, cfg, p, dt).next.None?
    ensures ChargeTick(c, cfg, p, dt).counters == ChargeCounters(c.chargeTimer + dt, true)
  {
  }

  class ChargeState {
    var chargeTimer: real
    var isCharging: bool

    constructor ()
      ensures Counters() == ChargeCounters(0.0, false)
    {
      chargeTimer := 0.0;
      isCharging := false;
    }

    function Counters(): ChargeCounters
      reads this
    {
      ChargeCounters(chargeTimer, isCharging)
    }

    /** Resets the counters, raises the speed and, when a player exists, starts the charge. */
    method Enter(ai: EnemyAI, agent: NavAgent, p: PlayerRef)
      modifies this, ai, agent
      ensures Counters() == ChargeCounters(0.0, true)
      ensures agent.speed == ai.config.chargeSpeed
      ensures ai.ChargeGate() == if p.Player? then Cooldown.Started(old(ai.ChargeGate())) else old(ai.ChargeGate())
      ensures ai.MeleeGate() == old(ai.MeleeGate()) && ai.LaserGate() == old(ai.LaserGate())
    {
      chargeTimer := 0.0;
      isCharging := true;
      agent.speed := ai.config.chargeSpeed;
      if p.Player? {
        ai.StartCharge();
      }
    }

    method Update(cfg: EnemyConfig, p: PlayerRef, dt: real) returns (next: Option<EnemyStateId>)
      modifies this
      ensures Step(Counters(), next) == ChargeTick(old(Counters()), cfg, p, dt)
    {
      next := None;
      if !isCharging {
        return;
      }
      chargeTimer := chargeTimer + dt;
      if p.Player? && p.distance <= cfg.meleeRange {
        next := Some(MeleeAttack);
      }
    }

    /** Always stops charging, restores the walking speed and resets the charge cooldown. */
    method Exit(ai: EnemyAI, agent: NavAgent, now: real)
      modifies this, ai, agent
      ensures Counters() == old(Counters()).(isCharging := false)
      ensures agent.speed == ai.config.moveSpeed
      ensures ai.ChargeGate() == Cooldown.Reset(old(ai.ChargeGate()), now)
      ensures ai.MeleeGate() == old(ai.MeleeGate()) && ai.LaserGate() == old(ai.LaserGate())
    {
      isCharging := false;
      agent.speed := ai.config.moveSpeed;
      ai.ResetChargeCooldown(now);
    }
  }

  // ---------------------------------------------------------------------
  // MeleeAttack
  // ---------------------------------------------------------------------

  datatype MeleeCounters = MeleeCounters(attackTimer: real)

  /** Whether Enter's PerformMeleeAttack strikes: a player within melee range. */
  predicate StrikesOnEnter(cfg: EnemyConfig, p: PlayerRef)
  {
    p.Player? && p.distance <= cfg.meleeRange
  }

  /** MeleeAttack's Update: the timer grows by `dt`; once it reaches the attack duration, back to Idle. */
  function MeleeTick(c: MeleeCounters, cfg: EnemyConfig, dt: real): (r: Step<MeleeCounters>)
    ensures r.counters.attackTimer == c.attackTimer + dt
    ensures r.next.Some? <==> c.attackTimer + dt >= cfg.meleeAttackDuration
    ensures r.next.Some? ==> r.next.value == Idle
  {
    var t := c.attackTimer + dt;
    Step(MeleeCounters(t), if t >= cfg.meleeAttackDuration then Some(Idle) else None)
  }

  class MeleeAttackState {
    var attackTimer: real

    constructor ()
      ensures attackTimer == 0.0
    {
      attackTimer := 0.0;
    }

    /**
     * Resets the timer; with a player, starts the melee cooldown and
     * performs the attack, which strikes only within melee range.
     */
    method Enter(ai: EnemyAI, p: PlayerRef) returns (struck: bool)
      modifies this, ai
      ensures attackTimer == 0.0
      ensures struck == StrikesOnEnter(ai.config, p)
      ensures ai.MeleeGate() == if p.Player? then Cooldown.Started(old(ai.MeleeGate())) else old(ai.MeleeGate())
      ensures ai.ChargeGate() == old(ai.ChargeGate()) && ai.LaserGate() == old(ai.LaserGate())
    {
      attackTimer := 0.0;
      struck := false;
      if p.Player? {
        ai.StartMeleeAttack();
        struck := p.distance <= ai.config.meleeRange;
      }
    }

    method Update(cfg: EnemyConfig, dt: real) returns (next: Option<EnemyStateId>)
      modifies this
      ensures Step(MeleeCounters(attackTimer), next) == MeleeTick(MeleeCounters(old(attackTimer)), cfg, dt)
    {
      attackTimer := attackTimer + dt;
      next := None;
      if attackTimer >= cfg.meleeAttackDuration {
        next := Some(Idle);
      }
    }

    /** Resets the melee cooldown. */
    method Exit(ai: EnemyAI, now: real)
      modifies ai
      ensures ai.MeleeGate() == Cooldown.Reset(old(ai.MeleeGate()), now)
      ensures ai.ChargeGate() == old(ai.ChargeGate()) && ai.LaserGate() == old(ai.LaserGate())
    {
      ai.ResetMeleeAttackCooldown(now);
    }
  }

  // ---------------------------------------------------------------------
  // RangeAttack
  // ---------------------------------------------------------------------

  datatype RangeCounters = RangeCounters(attackTimer: real, hasAttacked: bool)

  /** What one RangeAttack Update leaves: counters, whether a ranged attack was made at a player, the request. */
  datatype RangeStep = RangeStep(counters: RangeCounters, fired: bool, next: Option<EnemyStateId>)

  /**
   * RangeAttack's Update: the timer grows by `dt`; the first time it
   * reaches `meleeAttackDelay` the attack is performed (aimed at the
   * player, when one exists) and `hasAttacked` latches; once it
   * reaches `rangeAttackDuration`, back to Idle.
   */
  function RangeTick(c: RangeCounters, cfg: EnemyConfig, p: PlayerRef, dt: real): (r: RangeStep)
    ensures r.counters.attackTimer == c.attackTimer + dt
    ensures r.counters.hasAttacked <==> c.hasAttacked || c.attackTimer + dt >= cfg.meleeAttackDelay
    ensures r.fired <==> !c.hasAttacked && c.attackTimer + dt >= cfg.meleeAttackDelay && p.Player?
    ensures r.next.Some? <==> c.attackTimer + dt >= cfg.rangeAttackDuration
    ensures r.next.Some? ==> r.next.value == Idle
  {
    var t := c.attackTimer + dt;
    var performs := !c.hasAttacked && t >= cfg.meleeAttackDelay;
    RangeStep(RangeCounters(t, c.hasAttacked || performs), performs && p.Player?,
              if t >= cfg.rangeAttackDuration then Some(Idle) else None)
  }

  /** Ranged attacks made over a run of RangeAttack Updates, each given its player view and `dt`. */
  function Shots(c: RangeCounters, cfg: EnemyConfig, ticks: seq<(PlayerRef, real)>): nat
    decreases |ticks|
  {
    if ticks == [] then 0
    else
      var r := RangeTick(c, cfg, ticks[0].0, ticks[0].1);
      (if r.fired then 1 else 0) + Shots(r.counters, cfg, ticks[1..])
  }

  /**
   * The `hasAttacked` latch: counters that have attacked never shoot
   * again, and from fresh counters at most one ranged attack is made,
   * however many Updates follow.
   */
  lemma {:induction false} AtMostOneShot(c: RangeCounters, cfg: EnemyConfig, ticks: seq<(PlayerRef, real)>)
    ensures Shots(c, cfg, ticks) <= if c.hasAttacked then 0 else 1
    decreases |ticks|
  {
    if ticks != [] {
      var r := RangeTick(c, cfg, ticks[0].0, ticks[0].1);
      AtMostOneShot(r.counters, cfg, ticks[1..]);
    }
  }

  class RangeAttackState {
    var attackTimer: real
    var hasAttacked: bool

    constructor ()
      ensures Counters() == RangeCounters(0.0, false)
    {
      attackTimer := 0.0;
      hasAttacked := false;
    }

    function Counters(): RangeCounters
      reads this
    {
      RangeCounters(attackTimer, hasAttacked)
    }

    method Enter()
      modifies this
      ensures Counters() == RangeCounters(0.0, false)
    {
      attackTimer := 0.0;
      hasAttacked := false;
    }

    method Update(cfg: EnemyConfig, p: PlayerRef, dt: real) returns (fired: bool, next: Option<EnemyStateId>)
      modifies this
      ensures RangeStep(Counters(), fired, next) == RangeTick(old(Counters()), cfg, p, dt)
    {
      attackTimer := attackTimer + dt;
      fired := false;
      if !hasAttacked && attackTimer >= cfg.meleeAttackDelay {
        fired := p.Player?;
        hasAttacked := true;
      }
      next := None;
      if attackTimer >= cfg.rangeAttackDuration {
        next := Some(Idle);
      }
    }
  }
}
