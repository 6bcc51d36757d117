/**
 * EnemyStateMachine: the driver that hosts the five enemy states.  The
 * whole enemy (driver fields, the EnemyAI gates, the per-state counters
 * and the agent's speed) is abstracted as an EnemyView; the class's
 * methods are proved to change it exactly as the functions Changed,
 * Returned and Ticked say, and the properties of the enemy are proved
 * about those functions.
 */
module EnemyStateMachine {
  import opened Optional
  import Cooldown
  import opened EnemyAI
  import opened EnemyStates
  import StateMachine

  /** One frame as the enemy sees it: the player, `Time.time` and `Time.deltaTime`. */
  datatype EnemyTick = EnemyTick(player: PlayerRef, now: real, dt: real)

  datatype EnemyView = EnemyView(
    machine: StateMachine.Machine<EnemyStateId>,
    chargeGate: Cooldown.Gate,
    meleeGate: Cooldown.Gate,
    laserGate: Cooldown.Gate,
    charge: ChargeCounters,
    melee: MeleeCounters,
    range: RangeCounters,
    speed: real,
    calls: seq<StateMachine.Call<EnemyStateId>>,
    attacks: seq<Attack>)

  /**
   * What `s.Enter()` does to the enemy.  Idle's and Walk's Enter do
   * nothing; no Enter touches the driver or the laser gate.  Charge's
   * raises the charge flag, zeroes its timer, sets the charge speed and,
   * with a player, starts the charge gate.  MeleeAttack's zeroes its timer
   * and, with a player, starts the melee gate and strikes when in range.
   * RangeAttack's clears its counters.
   */
  function Entered(v: EnemyView, cfg: EnemyConfig, s: EnemyStateId, p: PlayerRef): (r: EnemyView)
    ensures s == Idle || s == Walk ==> r == v
    ensures r.machine == v.machine && r.calls == v.calls && r.laserGate == v.laserGate
    ensures s == Charge ==> r.charge == ChargeCounters(0.0, true) && r.speed == cfg.chargeSpeed
    ensures s != Charge ==> r.charge == v.charge && r.speed == v.speed && r.chargeGate == v.chargeGate
    ensures s != MeleeAttack ==> r.meleeGate == v.meleeGate && r.attacks == v.attacks
    ensures s == MeleeAttack && p.Player? ==> !r.meleeGate.ready && r.meleeGate.lastTime == v.meleeGate.lastTime
    ensures s == Charge ==> r.chargeGate == if p.Player? then Cooldown.Started(v.chargeGate) else v.chargeGate
    ensures s == MeleeAttack ==> r.melee == MeleeCounters(0.0)
    ensures s == MeleeAttack ==> r.attacks == if StrikesOnEnter(cfg, p) then v.attacks + [MeleeStrike] else v.attacks
    ensures s == RangeAttack ==> r.range == RangeCounters(0.0, false)
  {
    match s
    case Charge =>
      v.(charge := ChargeCounters(0.0, true), speed := cfg.chargeSpeed,
         chargeGate := if p.Player? then Cooldown.Started(v.chargeGate) else v.chargeGate)
    case MeleeAttack =>
      v.(melee := MeleeCounters(0.0),
         meleeGate := if p.Player? then Cooldown.Started(v.meleeGate) else v.meleeGate,
         attacks := if StrikesOnEnter(cfg, p) then v.attacks + [MeleeStrike] else v.attacks)
    case RangeAttack => v.(range := RangeCounters(0.0, false))
    case _ => v
  }

  /**
   * What `s.Exit()` does to the enemy.  Only Charge's and MeleeAttack's
   * Exit do anything: each restarts its own cooldown at `now`, and
   * Charge's also ends the charge and restores the walking speed.
   */
  function Exited(v: EnemyView, cfg: EnemyConfig, s: EnemyStateId, now: real): (r: EnemyView)
    ensures s != Charge && s != MeleeAttack ==> r == v
    ensures r.machine == v.machine && r.calls == v.calls && r.attacks == v.attacks && r.laserGate == v.laserGate
    ensures s == Charge ==> !r.charge.isCharging && r.speed == cfg.moveSpeed && r.chargeGate == Cooldown.Gate(true, now)
    ensures s == MeleeAttack ==> r.meleeGate == Cooldown.Gate(true, now) && r.chargeGate == v.chargeGate
    ensures s != MeleeAttack ==> r.meleeGate == v.meleeGate
  {
    match s
    case Charge =>
      v.(charge := v.charge.(isCharging := false), speed := cfg.moveSpeed,
         chargeGate := Cooldown.Reset(v.chargeGate, now))
    case MeleeAttack => v.(meleeGate := Cooldown.Reset(v.meleeGate, now))
    case _ => v
  }

  /**
   * `ChangeState(s)`: exit the current state, if any, then enter `s`.
   * The driver's fields and calls are those of StateMachine.Switched; the
   * laser gate is never touched; and an enemy whose charge flag and speed
   * matched its state has them matching `s` afterwards.
   */
  function Changed(v: EnemyView, cfg: EnemyConfig, s: EnemyStateId, p: PlayerRef, now: real): (r: EnemyView)
    ensures r.machine == StateMachine.Switched(v.machine, s)
    ensures r.calls == v.calls + StateMachine.SwitchCalls(v.machine, s)
    ensures r.laserGate == v.laserGate
    ensures (v.charge.isCharging <==> v.machine.current == Some(Charge)) ==> (r.charge.isCharging <==> s == Charge)
    ensures v.speed == SpeedIn(cfg, v.machine.current) ==> r.speed == SpeedIn(cfg, Some(s))
  {
    var exited := if v.machine.current.Some? then Exited(v, cfg, v.machine.current.value, now) else v;
    Entered(exited.(machine := StateMachine.Switched(v.machine, s),
                    calls := v.calls + StateMachine.SwitchCalls(v.machine, s)), cfg, s, p)
  }

  lemma EnteredIgnoresCalls(v: EnemyView, cfg: EnemyConfig, s: EnemyStateId, p: PlayerRef,
                            calls: seq<StateMachine.Call<EnemyStateId>>)
    ensures Entered(v, cfg, s, p).(calls := calls) == Entered(v.(calls := calls), cfg, s, p)
  {
  }

  /** `ReturnToPreviousState()`: nothing without a previous state, else ChangeState(previous). */
  function Returned(v: EnemyView, cfg: EnemyConfig, p: PlayerRef, now: real): (r: EnemyView)
    ensures v.machine.previous.None? ==> r == v
    ensures r.machine == StateMachine.Returned(v.machine)
    ensures r.calls == v.calls + StateMachine.ReturnCalls(v.machine)
  {
    if v.machine.previous.None? then v else Changed(v, cfg, v.machine.previous.value, p, now)
  }

  function Follow(v: EnemyView, cfg: EnemyConfig, request: Option<EnemyStateId>, t: EnemyTick): EnemyView
  {
    if request.Some? then Changed(v, cfg, request.value, t.player, t.now) else v
  }

  /**
   * `Update()`: the current state's Update, and the change it asks for.
   * Without a current state nothing happens; otherwise the driver makes
   * one Update call and then either stays or performs exactly one
   * ChangeState.
   */
  function Ticked(v: EnemyView, cfg: EnemyConfig, t: EnemyTick): (r: EnemyView)
    ensures v.machine.current.None? ==> r == v
    ensures v.machine.current.Some? ==>
              var u := v.calls + [StateMachine.Update(v.machine.current.value)];
              || (r.machine == v.machine && r.calls == u)
              || (r.machine.current.Some? &&
                  r.machine == StateMachine.Switched(v.machine, r.machine.current.value) &&
                  r.calls == u + StateMachine.SwitchCalls(v.machine, r.machine.current.value))
    ensures r.laserGate == v.laserGate
  {
    if v.machine.current.None? then v
    else
      var c := v.machine.current.value;
      var u := v.(calls := v.calls + [StateMachine.Update(c)]);
      match c
      case Idle => Follow(u, cfg, IdleTransition(cfg, v.meleeGate, t.player, t.now), t)
      case Walk => Follow(u, cfg, WalkTransition(cfg, v.chargeGate, t.player, t.now), t)
      case Charge =>
        var st := ChargeTick(v.charge, cfg, t.player, t.dt);
        Follow(u.(charge := st.counters), cfg, st.next, t)
      case MeleeAttack =>
        var st := MeleeTick(v.melee, cfg, t.dt);
        Follow(u.(melee := st.counters), cfg, st.next, t)
      case RangeAttack =>
        var st := RangeTick(v.range, cfg, t.player, t.dt);
        Follow(u.(range := st.counters, attacks := if st.fired then u.attacks + [RangedShot] else u.attacks),
               cfg, st.next, t)
  }

  function Run(v: EnemyView, cfg: EnemyConfig, ticks: seq<EnemyTick>): EnemyView
    decreases |ticks|
  {
    if ticks == [] then v else Run(Ticked(v, cfg, ticks[0]), cfg, ticks[1..])
  }

  /** The enemy before `Start`: field initialisers, and the agent at walking speed. */
  function Fresh(cfg: EnemyConfig): EnemyView
  {
    EnemyView(StateMachine.Unstarted(), InitialChargeGate, InitialMeleeGate, InitialLaserGate,
              ChargeCounters(0.0, false), MeleeCounters(0.0), RangeCounters(0.0, false),
              cfg.moveSpeed, [], [])
  }

  /** After `Start`: `ChangeState(walkState)` (Walk's Enter ignores the player and the clock). */
  function Initial(cfg: EnemyConfig): EnemyView
  {
    Changed(Fresh(cfg), cfg, Walk, NoPlayer, 0.0)
  }

  /** The agent's speed while in `s`. */
  function SpeedIn(cfg: EnemyConfig, s: Option<EnemyStateId>): real
  {
    if s == Some(Charge) then cfg.chargeSpeed else cfg.moveSpeed
  }

  /**
   * What holds of every started enemy: a state is current; the charge
   * flag is raised exactly while charging; the agent runs at charge speed
   * exactly while charging; and the lifecycle calls made so far are well
   * formed with exactly the current state active.
   */
  ghost predicate Inv(v: EnemyView, cfg: EnemyConfig)
  {
    && v.machine.current.Some?
    && (v.charge.isCharging <==> v.machine.current == Some(Charge))
    && v.speed == SpeedIn(cfg, v.machine.current)
    && StateMachine.Replayed(v.calls) == Some(v.machine.current)
  }

  lemma InitialIsWalking(cfg: EnemyConfig)
    ensures Inv(Initial(cfg), cfg)
    ensures Initial(cfg).machine == StateMachine.Machine(Some(Walk), None)
    ensures Initial(cfg).calls == [StateMachine.Enter(Walk)]
  {
  }

  lemma {:induction false} ChangedKeepsInv(v: EnemyView, cfg: EnemyConfig, s: EnemyStateId, p: PlayerRef, now: real)
    requires Inv(v, cfg)
    ensures Inv(Changed(v, cfg, s, p, now), cfg)
  {
    StateMachine.SwitchWellFormed(v.calls, v.machine, s);
  }

  lemma {:induction false} ReturnedKeepsInv(v: EnemyView, cfg: EnemyConfig, p: PlayerRef, now: real)
    requires Inv(v, cfg)
    ensures Inv(Returned(v, cfg, p, now), cfg)
  {
    if v.machine.previous.Some? {
      ChangedKeepsInv(v, cfg, v.machine.previous.value, p, now);
    }
  }

  lemma {:induction false} TickedKeepsInv(v: EnemyView, cfg: EnemyConfig, t: EnemyTick)
    requires Inv(v, cfg)
    ensures Inv(Ticked(v, cfg, t), cfg)
  {
    var c := v.machine.current.value;
    StateMachine.UpdateWellFormed(v.calls, v.machine);
    assert v.calls + StateMachine.UpdateCalls(v.machine) == v.calls + [StateMachine.Update(c)];
    var u := v.(calls := v.calls + [StateMachine.Update(c)]);
    assert Inv(u, cfg);
    match c
    case Idle =>
      var r := IdleTransition(cfg, v.meleeGate, t.player, t.now);
      if r.Some? { ChangedKeepsInv(u, cfg, r.value, t.player, t.now); }
    case Walk =>
      var r := WalkTransition(cfg, v.chargeGate, t.player, t.now);
      if r.Some? { ChangedKeepsInv(u, cfg, r.value, t.player, t.now); }
    case Charge =>
      var st := ChargeTick(v.charge, cfg, t.player, t.dt);
      if st.next.Some? { ChangedKeepsInv(u.(charge := st.counters), cfg, st.next.value, t.player, t.now); }
    case MeleeAttack =>
      var st := MeleeTick(v.melee, cfg, t.dt);
      if st.next.Some? { ChangedKeepsInv(u.(melee := st.counters), cfg, st.next.value, t.player, t.now); }
    case RangeAttack =>
      var st := RangeTick(v.range, cfg, t.player, t.dt);
      var u' := u.(range := st.counters, attacks := if st.fired then u.attacks + [RangedShot] else u.attacks);
      if st.next.Some? { ChangedKeepsInv(u', cfg, st.next.value, t.player, t.now); }
  }

  lemma {:induction false} RunKeepsInv(v: EnemyView, cfg: EnemyConfig, ticks: seq<EnemyTick>)
    requires Inv(v, cfg)
    ensures Inv(Run(v, cfg, ticks), cfg)
    decreases |ticks|
  {
    if ticks != [] {
      TickedKeepsInv(v, cfg, ticks[0]);
      RunKeepsInv(Ticked(v, cfg, ticks[0]), cfg, ticks[1..]);
    }
  }

  // ---------------------------------------------------------------------
  // The transition table
  // ---------------------------------------------------------------------

  /** The states one Update can lead to from each state. */
  function Successors(s: EnemyStateId): set<EnemyStateId>
  {
    match s
    case Idle => {Idle, Walk, MeleeAttack}
    case Walk => {Walk, Charge, Idle}
    case Charge => {Charge, MeleeAttack}
    case MeleeAttack => {MeleeAttack, Idle}
    case RangeAttack => {RangeAttack, Idle}
  }

  /**
   * Every Update stays put or follows the table; in particular no Update
   * ever enters RangeAttack, and Charge is left only for MeleeAttack.
   */
  lemma TickFollowsTable(v: EnemyView, cfg: EnemyConfig, t: EnemyTick)
    requires Inv(v, cfg)
    ensures Ticked(v, cfg, t).machine.current.value in Successors(v.machine.current.value)
    ensures v.machine.current != Some(RangeAttack) ==> Ticked(v, cfg, t).machine.current != Some(RangeAttack)
  {
  }

  /** Without a player, Idle and Walk do nothing but be updated. */
  lemma NoPlayerIdleAndWalkStay(v: EnemyView, cfg: EnemyConfig, now: real, dt: real)
    requires v.machine.current == Some(Idle) || v.machine.current == Some(Walk)
    ensures Ticked(v, cfg, EnemyTick(NoPlayer, now, dt)) ==
            v.(calls := v.calls + [StateMachine.Update(v.machine.current.value)])
  {
  }

  /**
   * Scenario: an idle enemy 25 away, with 2 as melee range and the
   * default stopping distance, starts walking on the next Update.
   */
  lemma IdleFarPlayerWalks(v: EnemyView, now: real, dt: real)
    requires Inv(v, Defaults) && v.machine.current == Some(Idle)
    ensures Ticked(v, Defaults, EnemyTick(Player(25.0), now, dt)).machine == StateMachine.Machine(Some(Walk), Some(Idle))
  {
  }

  /**
   * Walk charges only through an open charge gate, and entering Charge
   * closes the gate at once (for every later time), raises the speed and
   * starts the charge timer from zero.
   */
  lemma WalkToChargeStartsCooldown(v: EnemyView, cfg: EnemyConfig, t: EnemyTick)
    requires Inv(v, cfg) && v.machine.current == Some(Walk)
    requires Ticked(v, cfg, t).machine.current == Some(Charge)
    ensures Cooldown.IsReady(v.chargeGate, cfg.chargeCooldown, t.now)
    ensures t.player.Player? && t.player.distance <= cfg.chargeRange
    ensures var w := Ticked(v, cfg, t);
            && (forall cd, later :: !Cooldown.IsReady(w.chargeGate, cd, later))
            && w.speed == cfg.chargeSpeed && w.charge == ChargeCounters(0.0, true)
  {
  }

  /**
   * Leaving Charge (for MeleeAttack, within melee range) restores the
   * walking speed, restarts the charge cooldown at that moment, starts the
   * melee cooldown and records the strike.
   */
  lemma ChargeIntoMelee(v: EnemyView, cfg: EnemyConfig, t: EnemyTick)
    requires Inv(v, cfg) && v.machine.current == Some(Charge)
    ensures var w := Ticked(v, cfg, t);
            w.machine.current == Some(MeleeAttack) <==> t.player.Player? && t.player.distance <= cfg.meleeRange
    ensures var w := Ticked(v, cfg, t);
            w.machine.current == Some(MeleeAttack) ==>
              && w.speed == cfg.moveSpeed
              && w.chargeGate == Cooldown.Gate(true, t.now)
              && !w.meleeGate.ready
              && w.attacks == v.attacks + [MeleeStrike]
              && w.machine.previous == Some(Charge)
  {
  }

  /**
   * Re-entering Charge from Charge runs Exit before Enter, so the enemy
   * ends charging at charge speed with the gate closed; the opposite order
   * would leave it at walking speed with the gate open.
   */
  lemma ChargeReentry(v: EnemyView, cfg: EnemyConfig, p: PlayerRef, now: real)
    requires Inv(v, cfg) && v.machine.current == Some(Charge) && p.Player?
    ensures var w := Changed(v, cfg, Charge, p, now);
            && w.machine == StateMachine.Machine(Some(Charge), Some(Charge))
            && w.speed == cfg.chargeSpeed
            && w.charge == ChargeCounters(0.0, true)
            && w.chargeGate == Cooldown.Gate(false, now)
            && w.calls == v.calls + [StateMachine.Exit(Charge), StateMachine.Enter(Charge)]
  {
  }

  /** Every Update of `ticks` happens at a time in [from, until). */
  predicate WithinWindow(ticks: seq<EnemyTick>, from: real, until: real)
  {
    forall i :: 0 <= i < |ticks| ==> from <= ticks[i].now < until
  }

  /** The melee gate is closed, or was last reset no earlier than `since`. */
  predicate MeleeResetSince(g: Cooldown.Gate, since: real)
  {
    !g.ready || g.lastTime >= since
  }

  /** Along the run of `ticks` from `v`, no Update taken in Idle enters MeleeAttack. */
  ghost predicate NoMeleeFromIdle(v: EnemyView, cfg: EnemyConfig, ticks: seq<EnemyTick>)
    decreases |ticks|
  {
    ticks == [] ||
    ((v.machine.current == Some(Idle) ==> Ticked(v, cfg, ticks[0]).machine.current != Some(MeleeAttack))
     && NoMeleeFromIdle(Ticked(v, cfg, ticks[0]), cfg, ticks[1..]))
  }

  /**
   * One Update at or after `since` keeps the melee gate closed or reset
   * since then (MeleeAttack's Enter clears the flag, its Exit stamps the
   * current time), and Idle cannot enter MeleeAttack before
   * `since + meleeAttackDelay`.
   */
  lemma TickedKeepsMeleeReset(v: EnemyView, cfg: EnemyConfig, t: EnemyTick, since: real)
    requires MeleeResetSince(v.meleeGate, since) && since <= t.now
    ensures MeleeResetSince(Ticked(v, cfg, t).meleeGate, since)
    ensures v.machine.current == Some(Idle) && t.now < since + cfg.meleeAttackDelay ==>
              Ticked(v, cfg, t).machine.current != Some(MeleeAttack)
  {
  }

  lemma {:induction false} MeleeBlockedInWindow(v: EnemyView, cfg: EnemyConfig, ticks: seq<EnemyTick>, since: real)
    requires MeleeResetSince(v.meleeGate, since)
    requires WithinWindow(ticks, since, since + cfg.meleeAttackDelay)
    ensures NoMeleeFromIdle(v, cfg, ticks)
    decreases |ticks|
  {
    if ticks != [] {
      TickedKeepsMeleeReset(v, cfg, ticks[0], since);
      assert WithinWindow(ticks[1..], since, since + cfg.meleeAttackDelay) by {
        forall i | 0 <= i < |ticks[1..]| ensures since <= ticks[1..][i].now < since + cfg.meleeAttackDelay {
          assert ticks[1..][i] == ticks[i + 1];
        }
      }
      MeleeBlockedInWindow(Ticked(v, cfg, ticks[0]), cfg, ticks[1..], since);
    }
  }

  /**
   * After MeleeAttack returns to Idle at time `t.now`, no Update taken in
   * Idle enters MeleeAttack again at any time before
   * `t.now + meleeAttackDelay`, over any run of Updates in that window.
   * The gate guards only Idle's own transition: Charge enters MeleeAttack
   * whenever a player is within melee range (ChargeIntoMelee), so a path
   * Idle, Walk, Charge, MeleeAttack inside the window is not excluded.
   */
  lemma MeleeCooldownAfterAttack(v: EnemyView, cfg: EnemyConfig, t: EnemyTick, ticks: seq<EnemyTick>)
    requires v.machine.current == Some(MeleeAttack)
    requires Ticked(v, cfg, t).machine.current == Some(Idle)
    requires WithinWindow(ticks, t.now, t.now + cfg.meleeAttackDelay)
    ensures NoMeleeFromIdle(Ticked(v, cfg, t), cfg, ticks)
  {
    var w := Ticked(v, cfg, t);
    assert w.meleeGate == Cooldown.Gate(true, t.now);
    MeleeBlockedInWindow(w, cfg, ticks, t.now);
  }

  // ---------------------------------------------------------------------
  // Runs of Updates
  // ---------------------------------------------------------------------

  function Elapsed(ticks: seq<EnemyTick>): real
    decreases |ticks|
  {
    if ticks == [] then 0.0 else ticks[0].dt + Elapsed(ticks[1..])
  }

  predicate NonNegativeSteps(ticks: seq<EnemyTick>)
  {
    forall i :: 0 <= i < |ticks| ==> ticks[i].dt >= 0.0
  }

  /**
   * MeleeAttack lasts while the accumulated frame time stays below the
   * attack duration: the enemy is still attacking and its timer holds the
   * elapsed time.
   */
  lemma {:induction false} MeleeLasts(v: EnemyView, cfg: EnemyConfig, ticks: seq<EnemyTick>)
    requires Inv(v, cfg) && v.machine.current == Some(MeleeAttack)
    requires NonNegativeSteps(ticks)
    requires v.melee.attackTimer + Elapsed(ticks) < cfg.meleeAttackDuration
    ensures Run(v, cfg, ticks).machine.current == Some(MeleeAttack)
    ensures Run(v, cfg, ticks).melee.attackTimer == v.melee.attackTimer + Elapsed(ticks)
    decreases |ticks|
  {
    if ticks != [] {
      var w := Ticked(v, cfg, ticks[0]);
      assert NonNegativeSteps(ticks[1..]) by {
        forall i | 0 <= i < |ticks[1..]| ensures ticks[1..][i].dt >= 0.0 {
          assert ticks[1..][i] == ticks[i + 1];
        }
      }
      ElapsedNonNegative(ticks[1..]);
      TickedKeepsInv(v, cfg, ticks[0]);
      MeleeLasts(w, cfg, ticks[1..]);
    }
  }

  lemma {:induction false} ElapsedNonNegative(ticks: seq<EnemyTick>)
    requires NonNegativeSteps(ticks)
    ensures Elapsed(ticks) >= 0.0
    decreases |ticks|
  {
    if ticks != [] {
      assert NonNegativeSteps(ticks[1..]) by {
        forall i | 0 <= i < |ticks[1..]| ensures ticks[1..][i].dt >= 0.0 {
          assert ticks[1..][i] == ticks[i + 1];
        }
      }
      ElapsedNonNegative(ticks[1..]);
    }
  }

  /** The player is absent or out of melee range for every Update. */
  predicate NeverInMeleeRange(cfg: EnemyConfig, ticks: seq<EnemyTick>)
  {
    forall i :: 0 <= i < |ticks| ==> ticks[i].player.NoPlayer? || ticks[i].player.distance > cfg.meleeRange
  }

  /**
   * Charge has no timeout: however many Updates pass and however long the
   * charge lasts, a charging enemy that never gets within melee range is
   * still charging, at charge speed, with the elapsed time in its timer.
   */
  lemma {:induction false} ChargeNeverTimesOut(v: EnemyView, cfg: EnemyConfig, ticks: seq<EnemyTick>)
    requires Inv(v, cfg) && v.machine.current == Some(Charge)
    requires NeverInMeleeRange(cfg, ticks)
    ensures Run(v, cfg, ticks).machine.current == Some(Charge)
    ensures Run(v, cfg, ticks).speed == cfg.chargeSpeed
    ensures Run(v, cfg, ticks).charge.chargeTimer == v.charge.chargeTimer + Elapsed(ticks)
    decreases |ticks|
  {
    if ticks != [] {
      assert NeverInMeleeRange(cfg, ticks[1..]) by {
        forall i | 0 <= i < |ticks[1..]|
          ensures ticks[1..][i].player.NoPlayer? || ticks[1..][i].player.distance > cfg.meleeRange
        {
          assert ticks[1..][i] == ticks[i + 1];
        }
      }
      TickedKeepsInv(v, cfg, ticks[0]);
      ChargeNeverTimesOut(Ticked(v, cfg, ticks[0]), cfg, ticks[1..]);
    }
  }

  // ---------------------------------------------------------------------
  // The class
  // ---------------------------------------------------------------------

  class EnemyStateMachine {
    var currentState: Option<EnemyStateId>
    var previousState: Option<EnemyStateId>

    const ai: EnemyAI
    const agent: NavAgent
    const chargeState: ChargeState
    const meleeAttackState: MeleeAttackState
    const rangeAttackState: RangeAttackState

    /** The lifecycle calls made so far, and the attacks performed. */
    ghost var calls: seq<StateMachine.Call<EnemyStateId>>
    ghost var attacks: seq<Attack>

    ghost function Repr(): set<object>
    {
      {this, ai, agent, chargeState, meleeAttackState, rangeAttackState}
    }

    ghost function View(): EnemyView
      reads Repr()
    {
      EnemyView(StateMachine.Machine(currentState, previousState),
                ai.ChargeGate(), ai.MeleeGate(), ai.LaserGate(),
                chargeState.Counters(), MeleeCounters(meleeAttackState.attackTimer), rangeAttackState.Counters(),
                agent.speed, calls, attacks)
    }

    ghost predicate Valid()
      reads Repr()
    {
      Inv(View(), ai.config)
    }

    /** The components' field initialisers, then `Start`: `ChangeState(walkState)`. */
    constructor (config: EnemyConfig)
      ensures ai.config == config
      ensures View() == Initial(config)
      ensures Valid()
      ensures fresh(Repr())
    {
      ai := new EnemyAI(config);
      agent := new NavAgent(config.moveSpeed);
      chargeState := new ChargeState();
      meleeAttackState := new MeleeAttackState();
      rangeAttackState := new RangeAttackState();
      currentState := None;
      previousState := None;
      calls := [];
      attacks := [];
      new;
      assert View() == Fresh(config);
      ChangeState(Walk, NoPlayer, 0.0);
      InitialIsWalking(config);
    }

    method EnterState(s: EnemyStateId, p: PlayerRef)
      modifies Repr()
      ensures View() == Entered(old(View()), ai.config, s, p).(calls := old(calls) + [StateMachine.Enter(s)])
    {
      calls := calls + [StateMachine.Enter(s)];
      match s {
        case Charge => chargeState.Enter(ai, agent, p);
        case MeleeAttack =>
          var struck := meleeAttackState.Enter(ai, p);
          if struck {
            attacks := attacks + [MeleeStrike];
          }
        case RangeAttack => rangeAttackState.Enter();
        case Idle =>
        case Walk =>
      }
    }

    method ExitState(s: EnemyStateId, now: real)
      modifies Repr()
      ensures View() == Exited(old(View()), ai.config, s, now).(calls := old(calls) + [StateMachine.Exit(s)])
    {
      calls := calls + [StateMachine.Exit(s)];
      match s {
        case Charge => chargeState.Exit(ai, agent, now);
        case MeleeAttack => meleeAttackState.Exit(ai, now);
        case RangeAttack =>
        case Idle =>
        case Walk =>
      }
    }

    /** `ChangeState(s)`, with the frame's player view and `Time.time`, which Enter and Exit consult. */
    method ChangeState(s: EnemyStateId, p: PlayerRef, now: real)
      modifies Repr()
      ensures View() == Changed(old(View()), ai.config, s, p, now)
      ensures old(Valid()) ==> Valid()
    {
      ghost var v := View();
      ghost var cfg := ai.config;
      ghost var exitCalls := if v.machine.current.Some? then [StateMachine.Exit(v.machine.current.value)] else [];
      ghost var exited := if v.machine.current.Some? then Exited(v, cfg, v.machine.current.value, now) else v;
      if currentState.Some? {
        previousState := currentState;
        ExitState(currentState.value, now);
      }
      currentState := Some(s);
      assert View() == exited.(machine := StateMachine.Switched(v.machine, s), calls := v.calls + exitCalls);
      EnterState(s, p);
      EnteredIgnoresCalls(exited.(machine := StateMachine.Switched(v.machine, s), calls := v.calls + exitCalls),
                          cfg, s, p, v.calls + StateMachine.SwitchCalls(v.machine, s));
      assert View() == Changed(v, cfg, s, p, now);
      if Inv(v, cfg) {
        ChangedKeepsInv(v, cfg, s, p, now);
      }
    }

    method ReturnToPreviousState(p: PlayerRef, now: real)
      modifies Repr()
      ensures View() == Returned(old(View()), ai.config, p, now)
      ensures old(Valid()) ==> Valid()
    {
      if previousState.Some? {
        ChangeState(previousState.value, p, now);
      }
    }

    /** One frame: the current state's Update, then the change it asked for. */
    method Update(p: PlayerRef, now: real, dt: real)
      modifies Repr()
      ensures View() == Ticked(old(View()), ai.config, EnemyTick(p, now, dt))
      ensures old(Valid()) ==> Valid()
    {
      ghost var v := View();
      if currentState.None? {
        return;
      }
      var c := currentState.value;
      calls := calls + [StateMachine.Update(c)];
      var next: Option<EnemyStateId>;
      match c {
        case Idle => next := IdleUpdate(ai, p, now);
        case Walk => next := WalkUpdate(ai, p, now);
        case Charge => next := chargeState.Update(ai.config, p, dt);
        case MeleeAttack => next := meleeAttackState.Update(ai.config, dt);
        case RangeAttack =>
          var fired;
          fired, next := rangeAttackState.Update(ai.config, p, dt);
          if fired {
            attacks := attacks + [RangedShot];
          }
      }
      assert Ticked(v, ai.config, EnemyTick(p, now, dt)) == Follow(View(), ai.config, next, EnemyTick(p, now, dt));
      if next.Some? {
        ChangeState(next.value, p, now);
      }
      if Inv(v, ai.config) {
        TickedKeepsInv(v, ai.config, EnemyTick(p, now, dt));
      }
    }
  }
}
