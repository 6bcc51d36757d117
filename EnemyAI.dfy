/**
 * EnemyAI: the enemy's tuning values, its three cooldown gates and its
 * view of the player.  The player's position enters the model only as the
 * distance to it, taken once per tick.
 */
module EnemyAI {
  import opened Optional
  import Cooldown

  /** The serialized settings the state machine reads. */
  datatype EnemyConfig = EnemyConfig(
    chargeRange: real,
    meleeRange: real,
    moveSpeed: real,
    chargeSpeed: real,
    chargeCooldown: real,
    stoppingDistance: real,
    meleeAttackDelay: real,
    meleeAttackDuration: real,
    rangeAttackDuration: real,
    laserBeamCooldown: real)

  /** The values the settings have unless changed in the editor. */
  const Defaults := EnemyConfig(
    chargeRange := 20.0,
    meleeRange := 2.0,
    moveSpeed := 3.0,
    chargeSpeed := 6.0,
    chargeCooldown := 10.0,
    stoppingDistance := 0.5,
    meleeAttackDelay := 1.5,
    meleeAttackDuration := 1.5,
    rangeAttackDuration := 2.0,
    laserBeamCooldown := 15.0)

  /** The `player` reference as seen in one tick: absent, or at a distance. */
  datatype PlayerRef = NoPlayer | Player(distance: real)

  /** C#'s `float.MaxValue`, 2^128 - 2^104. */
  const FloatMaxValue: real := 340282346638528859811704183484516925440.0

  /** `GetDistanceToPlayer()`: the largest float without a player, else the player's distance. */
  function GetDistanceToPlayer(p: PlayerRef): (r: real)
    ensures p.NoPlayer? ==> r == FloatMaxValue
    ensures p.Player? ==> r == p.distance
  {
    if p.NoPlayer? then FloatMaxValue else p.distance
  }

  /** `IsPlayerInRange(range)`: never without a player, else exactly when the player is within `range`. */
  predicate IsPlayerInRange(p: PlayerRef, range: real)
    ensures p.NoPlayer? ==> !IsPlayerInRange(p, range)
    ensures p.Player? ==> (IsPlayerInRange(p, range) <==> p.distance <= range)
  {
    p.Player? && p.distance <= range
  }

  /**
   * Without a player nothing is ever in range, and the reported distance
   * is the largest float.  With a player, being in range and the reported
   * distance agree for every range.
   */
  lemma RangeAgreesWithDistance(p: PlayerRef, range: real)
    ensures p.NoPlayer? ==> !IsPlayerInRange(p, range) && GetDistanceToPlayer(p) == FloatMaxValue
    ensures p.Player? ==> (IsPlayerInRange(p, range) <==> GetDistanceToPlayer(p) <= range)
  {
  }

  /** The one setting of the navigation agent the states change. */
  class NavAgent {
    var speed: real

    constructor (speed: real)
      ensures this.speed == speed
    {
      this.speed := speed;
    }
  }

  class EnemyAI {
    const config: EnemyConfig

    var lastChargeTime: real
    var canCharge: bool
    var canMeleeAttack: bool
    var lastMeleeAttackTime: real
    var canLaserBeam: bool
    var lastLaserBeamTime: real

    /** The field initialisers. */
    constructor (config: EnemyConfig)
      ensures this.config == config
      ensures ChargeGate() == InitialChargeGate
      ensures MeleeGate() == InitialMeleeGate
      ensures LaserGate() == InitialLaserGate
    {
      this.config := config;
      lastChargeTime := -10.0;
      canCharge := true;
      canMeleeAttack := true;
      lastMeleeAttackTime := -2.0;
      canLaserBeam := true;
      lastLaserBeamTime := -12.0;
    }

    function ChargeGate(): Cooldown.Gate
      reads this
    {
      Cooldown.Gate(canCharge, lastChargeTime)
    }

    function MeleeGate(): Cooldown.Gate
      reads this
    {
      Cooldown.Gate(canMeleeAttack, lastMeleeAttackTime)
    }

    function LaserGate(): Cooldown.Gate
      reads this
    {
      Cooldown.Gate(canLaserBeam, lastLaserBeamTime)
    }

    /** `CanCharge()`, with `Time.time` passed as `now`. */
    function CanCharge(now: real): (r: bool)
      reads this
      ensures r == Cooldown.IsReady(ChargeGate(), config.chargeCooldown, now)
    {
      canCharge && now - lastChargeTime >= config.chargeCooldown
    }

    /** `CanMeleeAttack()`: the melee gate's cooldown is `meleeAttackDelay`. */
    function CanMeleeAttack(now: real): (r: bool)
      reads this
      ensures r == Cooldown.IsReady(MeleeGate(), config.meleeAttackDelay, now)
    {
      canMeleeAttack && now - lastMeleeAttackTime >= config.meleeAttackDelay
    }

    /** `CanLaserBeam()`. */
    function CanLaserBeam(now: real): (r: bool)
      reads this
      ensures r == Cooldown.IsReady(LaserGate(), config.laserBeamCooldown, now)
    {
      canLaserBeam && now - lastLaserBeamTime >= config.laserBeamCooldown
    }

    method StartCharge()
      modifies this
      ensures ChargeGate() == Cooldown.Started(old(ChargeGate()))
      ensures MeleeGate() == old(MeleeGate()) && LaserGate() == old(LaserGate())
    {
      canCharge := false;
    }

    method ResetChargeCooldown(now: real)
      modifies this
      ensures ChargeGate() == Cooldown.Reset(old(ChargeGate()), now)
      ensures MeleeGate() == old(MeleeGate()) && LaserGate() == old(LaserGate())
    {
      lastChargeTime := now;
      canCharge := true;
    }

    method StartMeleeAttack()
      modifies this
      ensures MeleeGate() == Cooldown.Started(old(MeleeGate()))
      ensures ChargeGate() == old(ChargeGate()) && LaserGate() == old(LaserGate())
    {
      canMeleeAttack := false;
    }

    method ResetMeleeAttackCooldown(now: real)
      modifies this
      ensures MeleeGate() == Cooldown.Reset(old(MeleeGate()), now)
      ensures ChargeGate() == old(ChargeGate()) && LaserGate() == old(LaserGate())
    {
      lastMeleeAttackTime := now;
      canMeleeAttack := true;
    }

    method StartLaserBeam()
      modifies this
      ensures LaserGate() == Cooldown.Started(old(LaserGate()))
      ensures ChargeGate() == old(ChargeGate()) && MeleeGate() == old(MeleeGate())
    {
      canLaserBeam := false;
    }

    method ResetLaserBeamCooldown(now: real)
      modifies this
      ensures LaserGate() == Cooldown.Reset(old(LaserGate()), now)
      ensures ChargeGate() == old(ChargeGate()) && MeleeGate() == old(MeleeGate())
    {
      lastLaserBeamTime := now;
      canLaserBeam := true;
    }
  }

  const InitialChargeGate := Cooldown.Gate(true, -10.0)
  const InitialMeleeGate := Cooldown.Gate(true, -2.0)
  const InitialLaserGate := Cooldown.Gate(true, -12.0)

  /**
   * With the default cooldowns a fresh enemy may charge from time 0, melee
   * from -0.5 (at once), and fire the laser only from time 3.
   */
  lemma InitialGates(now: real)
    ensures Cooldown.IsReady(InitialChargeGate, Defaults.chargeCooldown, now) <==> now >= 0.0
    ensures Cooldown.IsReady(InitialMeleeGate, Defaults.meleeAttackDelay, now) <==> now >= -0.5
    ensures Cooldown.IsReady(InitialLaserGate, Defaults.laserBeamCooldown, now) <==> now >= 3.0
  {
  }
}
