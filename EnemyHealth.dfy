/**
 * EnemyHealth: a health counter clamped below at 0 by damage and above at
 * `maxHealth` by healing, and a one-shot `isDead` flag.  The counter is a
 * C# `int`: arithmetic on it wraps modulo 2^32, which the model writes out.
 */
module EnemyHealth {

  const IntMin: int := -0x8000_0000
  const IntMax: int := 0x7fff_ffff

  predicate IsInt32(x: int)
  {
    IntMin <= x <= IntMax
  }

  /** Two's-complement wrap-around of C#'s unchecked `int` arithmetic. */
  function Wrap32(x: int): (r: int)
    ensures IsInt32(r)
    ensures (r - x) % 0x1_0000_0000 == 0
    ensures IsInt32(x) ==> r == x
  {
    (x - IntMin) % 0x1_0000_0000 + IntMin
  }

  /** Saturation to the `int` range: what an overflow-free sum stored in an `int` can best hold. */
  function Saturate32(x: int): (r: int)
    ensures IsInt32(r)
    ensures IsInt32(x) ==> r == x
    ensures x > IntMax ==> r == IntMax
  {
    if x < IntMin then IntMin else if x > IntMax then IntMax else x
  }

  function Max(a: int, b: int): int { if a >= b then a else b }
  function Min(a: int, b: int): int { if a <= b then a else b }

  datatype Health = Health(currentHealth: int, isDead: bool)

  /** `Start`: full health, alive. */
  function StartHealth(maxHealth: int): Health
  {
    Health(maxHealth, false)
  }

  /** `Die()`, its flag part: the first call raises the flag, later calls change nothing. */
  function Died(h: Health): (r: Health)
    ensures r.isDead && r.currentHealth == h.currentHealth
  {
    if h.isDead then h else h.(isDead := true)
  }

  /**
   * `TakeDamage(damage)`: nothing once dead; otherwise the health drops by
   * `damage` (wrapping as C# does), is clamped at 0, and reaching 0 kills.
   */
  function Damaged(h: Health, damage: int): (r: Health)
    ensures h.isDead ==> r == h
    ensures !h.isDead ==> r.currentHealth >= 0 && (r.isDead <==> r.currentHealth == 0)
    ensures !h.isDead && 0 <= h.currentHealth <= IntMax && 0 <= damage <= IntMax ==>
              r.currentHealth == Max(0, h.currentHealth - damage)
  {
    if h.isDead then h
    else
      var c := Max(0, Wrap32(h.currentHealth - damage));
      if c <= 0 then Died(Health(c, false)) else Health(c, false)
  }

  /**
   * `Heal(healAmount)` as written: nothing once dead; otherwise the sum
   * wraps on overflow and is then clamped at `maxHealth`.  The clamp
   * still keeps the health at most `maxHealth`, and the enemy stays alive
   * whatever the result; only where the sum fits in an `int` is the result
   * the clamped sum.
   */
  function HealedAsWritten(h: Health, maxHealth: int, healAmount: int): (r: Health)
    ensures h.isDead ==> r == h
    ensures !h.isDead ==> !r.isDead && r.currentHealth <= maxHealth
    ensures !h.isDead ==> IsInt32(r.currentHealth) || r.currentHealth == maxHealth
    ensures !h.isDead && IsInt32(h.currentHealth + healAmount) ==>
              r.currentHealth == Min(maxHealth, h.currentHealth + healAmount)
  {
    if h.isDead then h else Health(Min(maxHealth, Wrap32(h.currentHealth + healAmount)), false)
  }

  /** A heal of the largest `int` at full health wraps the health far below 0 and leaves the enemy alive. */
  lemma HealOverflowAsWritten()
    ensures HealedAsWritten(Health(100, false), 100, IntMax) == Health(-2147483549, false)
  {
  }

  /**
   * `Heal(healAmount)` as intended: the sum is taken without wrapping and
   * clamped at `maxHealth`.  Nothing changes once dead, the result never
   * exceeds the maximum, and a non-negative heal never lowers the health.
   */
  function Healed(h: Health, maxHealth: int, healAmount: int): (r: Health)
    ensures h.isDead ==> r == h
    ensures !h.isDead ==> r.currentHealth <= maxHealth && !r.isDead
    ensures !h.isDead && healAmount >= 0 && IsInt32(h.currentHealth) && maxHealth <= IntMax ==>
              r.currentHealth == Min(maxHealth, h.currentHealth + healAmount)
  {
    if h.isDead then h else Health(Min(maxHealth, Saturate32(h.currentHealth + healAmount)), false)
  }

  /** Where the sum does not overflow, the intended Heal is the one written. */
  lemma HealedAgreesWithoutOverflow(h: Health, maxHealth: int, healAmount: int)
    requires IsInt32(h.currentHealth + healAmount)
    ensures Healed(h, maxHealth, healAmount) == HealedAsWritten(h, maxHealth, healAmount)
  {
  }

  /** `ResetHealth()`: full health and alive again. */
  function Reset(maxHealth: int): Health
  {
    Health(maxHealth, false)
  }

  /** Die is idempotent. */
  lemma DieIdempotent(h: Health)
    ensures Died(Died(h)) == Died(h)
  {
  }

  /** Scenario: maximum 100, 150 damage leaves 0 and dead; a 50 heal then leaves it at 0. */
  lemma ScenarioD()
    ensures Damaged(StartHealth(100), 150) == Health(0, true)
    ensures Healed(Damaged(StartHealth(100), 150), 100, 50) == Health(0, true)
  {
  }

  // ---------------------------------------------------------------------
  // Sequences of calls
  // ---------------------------------------------------------------------

  datatype HealthOp = TakeDamage(damage: int) | Heal(amount: int) | Die | ResetHealth

  function Apply(h: Health, maxHealth: int, op: HealthOp): Health
  {
    match op
    case TakeDamage(d) => Damaged(h, d)
    case Heal(a) => Healed(h, maxHealth, a)
    case Die => Died(h)
    case ResetHealth => Reset(maxHealth)
  }

  function ApplyAll(h: Health, maxHealth: int, ops: seq<HealthOp>): Health
    decreases |ops|
  {
    if ops == [] then h else ApplyAll(Apply(h, maxHealth, ops[0]), maxHealth, ops[1..])
  }

  /** Every damage and heal amount is a non-negative `int`. */
  predicate NonNegativeAmounts(ops: seq<HealthOp>)
  {
    forall i :: 0 <= i < |ops| ==>
      match ops[i]
      case TakeDamage(d) => 0 <= d <= IntMax
      case Heal(a) => 0 <= a <= IntMax
      case _ => true
  }

  predicate InRange(h: Health, maxHealth: int)
  {
    0 <= h.currentHealth <= maxHealth
  }

  /**
   * The health invariant: from any health within `[0, maxHealth]`, every
   * sequence of calls with non-negative amounts keeps it within range.
   */
  lemma {:induction false} StaysInRange(h: Health, maxHealth: int, ops: seq<HealthOp>)
    requires 0 <= maxHealth <= IntMax && InRange(h, maxHealth)
    requires NonNegativeAmounts(ops)
    ensures InRange(ApplyAll(h, maxHealth, ops), maxHealth)
    decreases |ops|
  {
    if ops != [] {
      assert NonNegativeAmounts(ops[1..]) by {
        forall i | 0 <= i < |ops[1..]| ensures ops[1..][i] == ops[i + 1] { }
      }
      StaysInRange(Apply(h, maxHealth, ops[0]), maxHealth, ops[1..]);
    }
  }

  /**
   * Neither method guards against negative amounts: negative damage lifts
   * the health above the maximum, and a negative heal takes it below 0
   * without killing.
   */
  lemma NegativeAmountsLeaveRange()
    ensures Damaged(Health(100, false), -50) == Health(150, false)
    ensures Healed(Health(100, false), 100, -200) == Health(-100, false)
  {
  }

  predicate NoReset(ops: seq<HealthOp>)
  {
    forall i :: 0 <= i < |ops| ==> !ops[i].ResetHealth?
  }

  /** Once dead, nothing but ResetHealth changes anything, whatever the amounts. */
  lemma {:induction false} DeadStaysDead(h: Health, maxHealth: int, ops: seq<HealthOp>)
    requires h.isDead
    requires NoReset(ops)
    ensures ApplyAll(h, maxHealth, ops) == h
    decreases |ops|
  {
    if ops != [] {
      assert !ops[0].ResetHealth?;
      assert NoReset(ops[1..]) by {
        forall i | 0 <= i < |ops[1..]| ensures ops[1..][i] == ops[i + 1] { }
      }
      DeadStaysDead(Apply(h, maxHealth, ops[0]), maxHealth, ops[1..]);
    }
  }

  class EnemyHealth {
    const maxHealth: int
    var currentHealth: int
    var isDead: bool

    function View(): Health
      reads this
    {
      Health(currentHealth, isDead)
    }

    /** The fields stay C# `int`s. */
    ghost predicate Valid()
      reads this
    {
      IsInt32(maxHealth) && IsInt32(currentHealth)
    }

    /** `Start`. */
    constructor (maxHealth: int)
      requires IsInt32(maxHealth)
      ensures this.maxHealth == maxHealth
      ensures View() == StartHealth(maxHealth)
      ensures Valid()
    {
      this.maxHealth := maxHealth;
      currentHealth := maxHealth;
      isDead := false;
    }

    method TakeDamage(damage: int)
      requires Valid() && IsInt32(damage)
      modifies this
      ensures View() == Damaged(old(View()), damage)
      ensures Valid()
    {
      if isDead {
        return;
      }
      currentHealth := Wrap32(currentHealth - damage);
      currentHealth := Max(0, currentHealth);
      if currentHealth <= 0 {
        Die();
      }
    }

    /** `Heal`, with the overflow corrected (see HealedAsWritten). */
    method Heal(healAmount: int)
      requires Valid() && IsInt32(healAmount)
      modifies this
      ensures View() == Healed(old(View()), maxHealth, healAmount)
      ensures Valid()
    {
      if isDead {
        return;
      }
      currentHealth := Saturate32(currentHealth + healAmount);
      currentHealth := Min(maxHealth, currentHealth);
    }

    method Die()
      modifies this
      ensures View() == Died(old(View()))
      ensures currentHealth == old(currentHealth)
    {
      if isDead {
        return;
      }
      isDead := true;
    }

    method ResetHealth()
      requires Valid()
      modifies this
      ensures View() == Reset(maxHealth)
      ensures Valid()
    {
      currentHealth := maxHealth;
      isDead := false;
    }
  }
}
