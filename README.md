# Enemy and player combat state machines, modelled in Dafny

This project models the combat core of a Unity action game and proves properties of that model:

- **The state-machine driver** (`EnemyStateMachine`, `PlayerStateMachine`). It holds a current and a previous state. `ChangeState` runs the old state's `Exit` and then the new state's `Enter`. `ReturnToPreviousState` does nothing when no previous state is recorded. `Update` forwards to the current state.
- **The enemy's five behaviour states** (Idle, Walk, Charge, MeleeAttack, RangeAttack). They pick transitions from the distance to the player and from cooldown gates. Each keeps per-activation counters.
- **`EnemyAI`'s three cooldown gates** (charge, melee and laser), its initial cooldown values, and its view of the player.
- **`EnemyHealth`**: damage is clamped at 0, healing is clamped at the maximum, a one-shot death flag, and reset.
- **The player's combo**: Idle → Attack1 → Attack2 → Attack3. An attack waits until its animation is seen playing. A press inside the combo window latches `comboQueued`. On completion the attack moves on to the next attack or back to Idle.
- **`NetworkPlayerSpawner`**: spawn slot and prefab are chosen by modulo indexing with a chain of fallbacks. The host's own player is not spawned a second time.

Structure:

- Every class whose fields the game updates in place is a Dafny `class` with those fields.
- A ghost `View()` exposes each class's state as a datatype.
- Each method's contract ties its new `View()` to a pure function of the old one (`Changed`, `Returned`, `Ticked`, `Damaged`, ...).
- The properties are lemmas about those functions.
- An independent account of a well-formed lifecycle (`StateMachine.Replayed`) checks the Enter/Update/Exit calls a driver makes.

Inputs from outside the model:

- Time is an input: `Time.time` is `now` and `Time.deltaTime` is `dt`.
- The player reaches the enemy only as a distance, or as `NoPlayer` when the reference is null.
- The animator's report is the player's per-frame input (state name and `normalizedTime`), and so is `IsAttackPressed()`.
- Floats are modelled as exact reals; C# `int` wrap-around and the float `%` are written out.

Modules:

- `Optional`
- `StateMachine` (the generic driver bookkeeping)
- `Cooldown`
- `EnemyAI`
- `EnemyStates`
- `EnemyStateMachine`
- `EnemyHealth`
- `PlayerStates`
- `PlayerStateMachine`
- `NetworkPlayerSpawner`

## Model

| member | source | states |
|---|---|---|
| StateMachine.Switched | Assets/Scripts/EnemyStateMachine.cs:67-77 | after ChangeState(next) the current state is `next`; the old current state, when there is one, becomes `previousState`, and without one `previousState` is unchanged |
| StateMachine.SwitchCalls | Assets/Scripts/EnemyStateMachine.cs:67-77 | ChangeState makes two calls when a state is current (its Exit first) and one otherwise, and the last is Enter of `next` |
| StateMachine.UpdateCalls | Assets/Scripts/EnemyStateMachine.cs:62-65 | Update makes one call, the current state's Update, when a state is current and none otherwise |
| StateMachine.Returned | Assets/Scripts/EnemyStateMachine.cs:79-85 | without a previous state nothing changes; otherwise the previous state becomes current and the state it replaces becomes the previous one |
| StateMachine.ReturnCalls | Assets/Scripts/EnemyStateMachine.cs:79-85 | without a previous state ReturnToPreviousState makes no call at all |
| StateMachine.SwitchWellFormed | Assets/Scripts/EnemyStateMachine.cs:67-77 | ChangeState keeps the lifecycle well formed: the old state is exited before `next` is entered, and exactly `next` is active afterwards |
| StateMachine.UpdateWellFormed | Assets/Scripts/EnemyStateMachine.cs:62-65 | Update calls only the active state's Update, and none when no state is current |
| StateMachine.ExitPrecedesEnter | Assets/Scripts/EnemyStateMachine.cs:67-77 | the old state's Exit (present exactly when there is a current state) comes before the single Enter of the new state, which is the last call |
| StateMachine.ReturnUndoesSwitch | Assets/Scripts/EnemyStateMachine.cs:79-85 | ReturnToPreviousState right after ChangeState from `c` makes `c` current again, after exiting the newer state |
| StateMachine.AppliedWellFormed | Assets/Scripts/EnemyStateMachine.cs:62-85 | each of ChangeState, ReturnToPreviousState and Update keeps the trace of lifecycle calls well formed |
| StateMachine.RunWellFormed | Assets/Scripts/EnemyStateMachine.cs:62-85 | any sequence of driver operations keeps the trace well formed, with exactly the current state active |
| StateMachine.NeverUnset | Assets/Scripts/EnemyStateMachine.cs:67-85 | once a state has been entered the driver always has a current state |
| Cooldown.IsReady | Assets/Scripts/EnemyAI.cs:234-237 | a clear flag closes the gate at every time; with the flag set the gate is open exactly from `last*Time + cooldown` on |
| Cooldown.StaysOpen | Assets/Scripts/EnemyAI.cs:234-237 | an open gate that no start or reset touches stays open at every later time |
| Cooldown.Started | Assets/Scripts/EnemyAI.cs:240-243 | starting an ability clears its flag and keeps its time stamp, so the gate is closed for every cooldown and time |
| Cooldown.Reset | Assets/Scripts/EnemyAI.cs:246-250 | after a reset at `t` the gate is open exactly from `t + cooldown` on |
| Cooldown.ClosedUntilReset | Assets/Scripts/EnemyAI.cs:234-250 | a started gate stays closed, with its stamp unchanged, through any number of further starts until a reset |
| Cooldown.LastResetDecides | Assets/Scripts/EnemyAI.cs:234-250 | after any sequence of starts and resets ending in a reset at `t`, the gate is open iff `now >= t + cooldown` |
| Cooldown.ScenarioC | Assets/Scripts/EnemyAI.cs:234-250 | with a 10 s cooldown, started at 0 and reset at 1.5, the gate is closed at 10 and open at 11.5 |
| EnemyAI.GetDistanceToPlayer | Assets/Scripts/EnemyAI.cs:227-231 | `float.MaxValue` without a player, the player's distance otherwise |
| EnemyAI.IsPlayerInRange | Assets/Scripts/EnemyAI.cs:220-224 | never in range without a player; with one, in range exactly when its distance is at most `range` |
| EnemyAI.RangeAgreesWithDistance | Assets/Scripts/EnemyAI.cs:220-231 | with no player nothing is in range and the distance is `float.MaxValue`; with a player, "in range" agrees with the reported distance for every range |
| EnemyAI.EnemyAI.constructor | Assets/Scripts/EnemyAI.cs:49-56 | the initial gates are charge (ready, -10), melee (ready, -2) and laser (ready, -12) |
| EnemyAI.InitialGates | Assets/Scripts/EnemyAI.cs:49-56 | with the default cooldowns a fresh enemy may charge from time 0, melee from -0.5 and use the laser from 3 |
| EnemyAI.EnemyAI.CanCharge | Assets/Scripts/EnemyAI.cs:234-237 | the charge gate is open under the charge cooldown |
| EnemyAI.EnemyAI.CanMeleeAttack | Assets/Scripts/EnemyAI.cs:252-255 | the melee gate is open under `meleeAttackDelay` |
| EnemyAI.EnemyAI.CanLaserBeam | Assets/Scripts/EnemyAI.cs:193-196 | the laser gate is open under the laser cooldown |
| EnemyAI.EnemyAI.StartCharge | Assets/Scripts/EnemyAI.cs:240-243 | the charge gate is started; the other two gates are unchanged |
| EnemyAI.EnemyAI.ResetChargeCooldown | Assets/Scripts/EnemyAI.cs:246-250 | the charge gate is reset at `now`; the others are unchanged |
| EnemyAI.EnemyAI.StartMeleeAttack | Assets/Scripts/EnemyAI.cs:264-267 | the melee gate is started; the others are unchanged |
| EnemyAI.EnemyAI.ResetMeleeAttackCooldown | Assets/Scripts/EnemyAI.cs:257-262 | the melee gate is reset at `now`; the others are unchanged |
| EnemyAI.EnemyAI.StartLaserBeam | Assets/Scripts/EnemyAI.cs:198-202 | the laser gate is started; the others are unchanged |
| EnemyAI.EnemyAI.ResetLaserBeamCooldown | Assets/Scripts/EnemyAI.cs:204-208 | the laser gate is reset at `now`; the others are unchanged |
| EnemyStates.IdleTransition | Assets/Scripts/EnemyStates.cs:23-42 | no player: no change. Walk iff the player is farther than `stoppingDistance + 1`. MeleeAttack iff the player is not that far, is within melee range and the melee gate is open |
| EnemyStates.IdleUpdate | Assets/Scripts/EnemyStates.cs:23-47 | Idle's Update asks for exactly the IdleTransition request, read from the live melee gate |
| EnemyStates.WalkTransition | Assets/Scripts/EnemyStates.cs:65-84 | no player: no change. Charge iff within charge range with the charge gate open. Otherwise Idle iff within `stoppingDistance + 0.15` |
| EnemyStates.WalkUpdate | Assets/Scripts/EnemyStates.cs:65-84 | Walk's Update asks for exactly the WalkTransition request |
| EnemyStates.ChargeTick | Assets/Scripts/EnemyStates.cs:139-156 | not charging: nothing. Otherwise the timer grows by `dt`, and MeleeAttack is requested iff a player is within melee range |
| EnemyStates.ChargeHasNoTimeout | Assets/Scripts/EnemyStates.cs:139-196 | a charging enemy with no player in melee range keeps charging, whatever its timer |
| EnemyStates.ChargeState.Enter | Assets/Scripts/EnemyStates.cs:121-137 | zeroes the timer, raises `isCharging`, sets the charge speed, and starts the charge gate only when a player exists |
| EnemyStates.ChargeState.Update | Assets/Scripts/EnemyStates.cs:139-197 | its counters and request are those of ChargeTick |
| EnemyStates.ChargeState.Exit | Assets/Scripts/EnemyStates.cs:199-210 | always clears `isCharging`, restores the walking speed and resets the charge gate |
| EnemyStates.MeleeTick | Assets/Scripts/EnemyStates.cs:238-248 | the timer grows by `dt`; Idle is requested iff the timer reaches `meleeAttackDuration` |
| EnemyStates.MeleeAttackState.Enter | Assets/Scripts/EnemyStates.cs:220-280 | zeroes the timer; with a player it starts the melee gate and strikes iff the player is within melee range |
| EnemyStates.MeleeAttackState.Update | Assets/Scripts/EnemyStates.cs:238-248 | its timer and request are those of MeleeTick |
| EnemyStates.MeleeAttackState.Exit | Assets/Scripts/EnemyStates.cs:282-287 | resets the melee gate |
| EnemyStates.RangeTick | Assets/Scripts/EnemyStates.cs:320-341 | the timer grows by `dt`. The attack is made at the first tick whose timer reaches `meleeAttackDelay`, and shoots iff a player exists. `hasAttacked` then latches. Idle is requested iff the timer reaches `rangeAttackDuration` |
| EnemyStates.AtMostOneShot | Assets/Scripts/EnemyStates.cs:320-337 | over any run of Updates one activation shoots at most once, and never again after `hasAttacked` |
| EnemyStates.RangeAttackState.Enter | Assets/Scripts/EnemyStates.cs:297-302 | zeroes the timer and clears `hasAttacked` |
| EnemyStates.RangeAttackState.Update | Assets/Scripts/EnemyStates.cs:320-337 | its counters, shot and request are those of RangeTick |
| EnemyStateMachine.Entered | Assets/Scripts/EnemyStates.cs:8-302 | Idle's and Walk's Enter change nothing; no Enter touches the driver or the laser gate; Charge's sets the charge flag, zero timer and charge speed and starts the charge gate when a player exists; MeleeAttack's zeroes its timer, starts the melee gate when a player exists and records a strike exactly when the player is in melee range; RangeAttack's clears its timer and `hasAttacked` |
| EnemyStateMachine.Exited | Assets/Scripts/EnemyStates.cs:49-370 | only Charge's and MeleeAttack's Exit change anything; Charge's ends the charge, restores the walking speed and reopens its gate stamped `now`; MeleeAttack's reopens the melee gate stamped `now` |
| EnemyStateMachine.Changed | Assets/Scripts/EnemyStateMachine.cs:67-77 | the driver's fields and calls are those of StateMachine.Switched and SwitchCalls; the laser gate is untouched; a charge flag and speed that matched the old state match `s` afterwards |
| EnemyStateMachine.Returned | Assets/Scripts/EnemyStateMachine.cs:79-85 | nothing without a previous state; the driver's fields and calls are those of StateMachine.Returned and ReturnCalls |
| EnemyStateMachine.Ticked | Assets/Scripts/EnemyStateMachine.cs:62-65 | nothing without a current state; otherwise one Update call followed by either no change or exactly one ChangeState; the laser gate is untouched |
| EnemyStateMachine.InitialIsWalking | Assets/Scripts/EnemyStateMachine.cs:44-60 | after Start the enemy is in Walk with no previous state; Walk was entered once; the invariant holds |
| EnemyStateMachine.ChangedKeepsInv | Assets/Scripts/EnemyStateMachine.cs:67-77 | ChangeState preserves the enemy invariant: a current state; `isCharging` and charge speed exactly while in Charge; a well-formed trace |
| EnemyStateMachine.ReturnedKeepsInv | Assets/Scripts/EnemyStateMachine.cs:79-85 | ReturnToPreviousState preserves the invariant |
| EnemyStateMachine.TickedKeepsInv | Assets/Scripts/EnemyStateMachine.cs:62-65 | Update, including the change the state asks for, preserves the invariant |
| EnemyStateMachine.RunKeepsInv | Assets/Scripts/EnemyStateMachine.cs:62-65 | any run of Updates preserves the invariant |
| EnemyStateMachine.TickFollowsTable | Assets/Scripts/EnemyStates.cs:23-337 | every Update follows the transition table: no Update enters RangeAttack, and Charge is left only for MeleeAttack |
| EnemyStateMachine.NoPlayerIdleAndWalkStay | Assets/Scripts/EnemyStates.cs:23-67 | without a player, Idle's and Walk's Update change nothing |
| EnemyStateMachine.IdleFarPlayerWalks | Assets/Scripts/EnemyStates.cs:31-35 | an idle enemy with the default settings and a player 25 away switches to Walk on the next Update |
| EnemyStateMachine.WalkToChargeStartsCooldown | Assets/Scripts/EnemyStates.cs:72-136 | Walk enters Charge only within charge range with the gate open. Entering closes the gate for every later time, sets the charge speed and zeroes the timer |
| EnemyStateMachine.ChargeIntoMelee | Assets/Scripts/EnemyStates.cs:150-236 | Charge goes to MeleeAttack iff a player is within melee range. It then has walking speed, a charge gate reset at that moment, a started melee gate and one recorded strike |
| EnemyStateMachine.ChargeReentry | Assets/Scripts/EnemyStateMachine.cs:67-77 | re-entering Charge runs Exit then Enter, leaving the enemy charging at charge speed with the gate closed |
| EnemyStateMachine.TickedKeepsMeleeReset | Assets/Scripts/EnemyStates.cs:23-42 | an Update at or after `since` keeps the melee gate closed or stamped at `since` or later, and Idle cannot enter MeleeAttack before `since + meleeAttackDelay` |
| EnemyStateMachine.MeleeBlockedInWindow | Assets/Scripts/EnemyStates.cs:23-42 | over any run of Updates inside [`since`, `since + meleeAttackDelay`) starting from such a gate, no Update taken in Idle enters MeleeAttack |
| EnemyStateMachine.MeleeCooldownAfterAttack | Assets/Scripts/EnemyStates.cs:238-287 | after MeleeAttack returns to Idle at `t`, over any run of Updates before `t + meleeAttackDelay` no Update taken in Idle enters MeleeAttack. Charge's move to MeleeAttack ignores the gate, so Idle, Walk, Charge, MeleeAttack inside the window is not excluded |
| EnemyStateMachine.MeleeLasts | Assets/Scripts/EnemyStates.cs:238-248 | MeleeAttack lasts while the accumulated frame time is below its duration, and its timer holds that time |
| EnemyStateMachine.ChargeNeverTimesOut | Assets/Scripts/EnemyStates.cs:139-196 | over any run with no player in melee range, a charging enemy keeps charging at charge speed and its timer holds the elapsed time |
| EnemyStateMachine.EnemyStateMachine.constructor | Assets/Scripts/EnemyStateMachine.cs:44-60 | Start leaves the enemy in Walk as Initial describes, with the invariant established |
| EnemyStateMachine.EnemyStateMachine.ChangeState | Assets/Scripts/EnemyStateMachine.cs:67-77 | the new enemy state is Changed of the old, and the invariant is kept |
| EnemyStateMachine.EnemyStateMachine.ReturnToPreviousState | Assets/Scripts/EnemyStateMachine.cs:79-85 | the new enemy state is Returned of the old |
| EnemyStateMachine.EnemyStateMachine.Update | Assets/Scripts/EnemyStateMachine.cs:62-65 | the new enemy state is Ticked of the old, and the invariant is kept |
| EnemyHealth.Died | Assets/Scripts/EnemyHealth.cs:79-83 | Die raises the flag and leaves the health as it is |
| EnemyHealth.DieIdempotent | Assets/Scripts/EnemyHealth.cs:79-83 | a second Die changes nothing |
| EnemyHealth.Damaged | Assets/Scripts/EnemyHealth.cs:35-69 | nothing once dead. Otherwise the health is the wrapped difference clamped at 0, death comes exactly on reaching 0, and in-range inputs give `max(0, health - damage)` |
| EnemyHealth.HealedAsWritten | Assets/Scripts/EnemyHealth.cs:71-77 | Heal as written: nothing once dead; otherwise alive and at most the maximum, and the clamped sum wherever the sum fits in an `int` |
| EnemyHealth.HealOverflowAsWritten | Assets/Scripts/EnemyHealth.cs:71-77 | as written, healing 100/100 by `int.MaxValue` leaves the health at -2147483549 and the enemy alive |
| EnemyHealth.Healed | Assets/Scripts/EnemyHealth.cs:71-77 | nothing once dead; otherwise never above the maximum and still alive; a non-negative heal gives `min(max, health + amount)` |
| EnemyHealth.HealedAgreesWithoutOverflow | Assets/Scripts/EnemyHealth.cs:71-77 | where the sum does not overflow, the corrected Heal equals the one written |
| EnemyHealth.NegativeAmountsLeaveRange | Assets/Scripts/EnemyHealth.cs:35-77 | negative damage lifts the health above the maximum, and a negative heal drops it below 0 without killing |
| EnemyHealth.ScenarioD | Assets/Scripts/EnemyHealth.cs:35-77 | maximum 100: `TakeDamage(150)` leaves 0 and dead, and a later `Heal(50)` leaves it at 0 |
| EnemyHealth.StaysInRange | Assets/Scripts/EnemyHealth.cs:35-151 | with the corrected Heal (see Findings), any sequence of damage, heal, die and reset calls with non-negative amounts keeps `0 <= health <= max` |
| EnemyHealth.DeadStaysDead | Assets/Scripts/EnemyHealth.cs:35-83 | once dead, every sequence of calls without ResetHealth changes nothing |
| EnemyHealth.EnemyHealth.constructor | Assets/Scripts/EnemyHealth.cs:22-24 | Start: full health, alive |
| EnemyHealth.EnemyHealth.TakeDamage | Assets/Scripts/EnemyHealth.cs:35-69 | the new health is Damaged of the old, and the fields stay `int`s |
| EnemyHealth.EnemyHealth.Heal | Assets/Scripts/EnemyHealth.cs:71-77 | the new health is the corrected Healed of the old |
| EnemyHealth.EnemyHealth.Die | Assets/Scripts/EnemyHealth.cs:79-83 | the new state is Died of the old |
| EnemyHealth.EnemyHealth.ResetHealth | Assets/Scripts/EnemyHealth.cs:147-151 | full health and alive again, and the fields stay `int`s |
| PlayerStates.FMod1 | Assets/Scripts/PlayerStates.cs:61 | the C# float remainder by 1: in [0, 1) for non-negative times and in (-1, 0] for negative ones, differing from the time by a whole number |
| PlayerStates.IsAnimationPlaying | Assets/Scripts/PlayerStates.cs:42-48 | false without an animator; with one, true exactly when the animator is in the attack's own state |
| PlayerStates.IsInComboWindow | Assets/Scripts/PlayerStates.cs:51-63 | true only once started and in the attack's own state; then true exactly when the looped time lies in the window, both ends included |
| PlayerStates.CanResumeMovement | Assets/Scripts/PlayerStates.cs:66-77 | true only with an animator once started; always when out of the attack's own state; in it, exactly when the looped time has reached the resume time |
| PlayerStates.IsAnimationComplete | Assets/Scripts/PlayerStates.cs:80-96 | true only with an animator once started; always when out of the attack's own state; in it, exactly when the raw time is at least 1.0 |
| PlayerStates.FMod1Periodic | Assets/Scripts/PlayerStates.cs:61-76 | the looped time repeats every whole loop |
| PlayerStates.Attack3WindowNeverOpen | Assets/Scripts/PlayerStates.cs:272-276 | Attack3's window [1.0, 1.0] is never open, for any observation |
| PlayerStates.WindowRepeatsEachLoop | Assets/Scripts/PlayerStates.cs:51-96 | within its own state, the combo window is open at `t` iff it is open `n` loops later. Completion uses the raw time, so it holds from the second loop on |
| PlayerStates.FirstLoopOrder | Assets/Scripts/PlayerStates.cs:51-96 | during the first loop an attack is never both in its window and complete, and it cannot resume movement while its window is open |
| PlayerStates.CompleteWithoutResume | Assets/Scripts/PlayerStates.cs:66-96 | at time 1.0 an attack is complete, but it cannot resume movement |
| PlayerStates.NotStartedSeesNothing | Assets/Scripts/PlayerStates.cs:51-96 | before `animationStarted` the window, resume and completion predicates are all false |
| PlayerStates.AttackEntered | Assets/Scripts/PlayerStates.cs:121-125 | Enter clears `animationStarted` and, for Attack1 and Attack2, `comboQueued` |
| PlayerStates.AttackTick | Assets/Scripts/PlayerStates.cs:135-184 | nothing until the animation is seen playing. Then `animationStarted` latches, and `comboQueued` becomes true iff already queued or pressed inside the window (never in Attack3). A change is requested iff the animation is complete: the next attack if queued, else Idle |
| PlayerStates.LatchesHold | Assets/Scripts/PlayerStates.cs:153-183 | over a whole activation `animationStarted` and `comboQueued` stay set once set, and a queued combo ends the activation in the next attack |
| PlayerStates.NoPressEndsIdle | Assets/Scripts/PlayerStates.cs:153-183 | with no combo queued and no press inside the window, an activation can only end in Idle |
| PlayerStates.Attack3EndsIdle | Assets/Scripts/PlayerStates.cs:291-315 | Attack3's activations end only in Idle |
| PlayerStates.PressAfterWindow | Assets/Scripts/PlayerStates.cs:30-62 | a press at 0.85 in Attack1 (window end 0.8) does not queue, so Attack1 returns to Idle at 1.0. The same press in Attack2 (window end 0.89) queues Attack3 |
| PlayerStates.IdleEnter | Assets/Scripts/PlayerStates.cs:7-15 | with an animator, `AttackCombo` becomes 0 and the attack trigger is reset |
| PlayerStates.PlayerAttackState.Enter | Assets/Scripts/PlayerStates.cs:121-133 | the latches are those of AttackEntered; with an animator, `AttackCombo` is the combo number and the trigger is set |
| PlayerStates.PlayerAttackState.Update | Assets/Scripts/PlayerStates.cs:135-184 | its latches and request are those of AttackTick |
| PlayerStateMachine.Entered | Assets/Scripts/PlayerStates.cs:7-133 | an animator present gets the parameters of `s`; an attack's latches become those of AttackEntered; the driver and the other attacks are untouched |
| PlayerStateMachine.Changed | Assets/Scripts/PlayerStateMachine.cs:66-76 | the driver's fields and calls are those of StateMachine.Switched and SwitchCalls; an animator present holds the parameters of `s`; Attack3 never gains a queued combo |
| PlayerStateMachine.Returned | Assets/Scripts/PlayerStateMachine.cs:78-84 | nothing without a previous state; the driver's fields and calls are those of StateMachine.Returned and ReturnCalls |
| PlayerStateMachine.Ticked | Assets/Scripts/PlayerStateMachine.cs:61-64 | nothing without a current state; otherwise one Update call followed by either no change or exactly one ChangeState; the animator is never added or removed |
| PlayerStateMachine.InitialIsIdle | Assets/Scripts/PlayerStateMachine.cs:44-59 | after Start the player is in Idle with no previous state; Idle was entered once; the animator parameters are reset |
| PlayerStateMachine.ChangedKeepsInv | Assets/Scripts/PlayerStateMachine.cs:66-76 | ChangeState preserves the player invariant: a current state; no combo queued in Attack3; the animator parameters are those of the current state; a well-formed trace |
| PlayerStateMachine.ReturnedKeepsInv | Assets/Scripts/PlayerStateMachine.cs:78-84 | ReturnToPreviousState preserves the invariant |
| PlayerStateMachine.TickedKeepsInv | Assets/Scripts/PlayerStateMachine.cs:61-64 | Update preserves the invariant |
| PlayerStateMachine.RunKeepsInv | Assets/Scripts/PlayerStateMachine.cs:61-64 | any run of Updates preserves the invariant |
| PlayerStateMachine.TickFollowsTable | Assets/Scripts/PlayerStates.cs:135-315 | the combo only moves forward, Attack3 returns only to Idle, and Idle never starts an attack by itself |
| PlayerStateMachine.IdleStays | Assets/Scripts/PlayerStates.cs:17-21 | Idle's Update changes nothing |
| PlayerStateMachine.AttackTickDecides | Assets/Scripts/PlayerStates.cs:168-183 | an attack is left exactly when its Update asks, for the next attack if queued and Idle otherwise; the animator then holds the new state's parameters |
| PlayerStateMachine.ReentryClearsLatches | Assets/Scripts/PlayerStateMachine.cs:66-76 | re-entering the current attack runs Exit and Enter again and clears its latches |
| PlayerStateMachine.RunFollowsActivation | Assets/Scripts/PlayerStateMachine.cs:61-64 | while an activation has asked for nothing, the machine stays in the attack, and the attack's latches are the activation's |
| PlayerStateMachine.PlayerStateMachine.constructor | Assets/Scripts/PlayerStateMachine.cs:44-59 | Start leaves the player as Initial describes, with the invariant established |
| PlayerStateMachine.PlayerStateMachine.ChangeState | Assets/Scripts/PlayerStateMachine.cs:66-76 | the new player state is Changed of the old, and the invariant is kept |
| PlayerStateMachine.PlayerStateMachine.ReturnToPreviousState | Assets/Scripts/PlayerStateMachine.cs:78-84 | the new player state is Returned of the old |
| PlayerStateMachine.PlayerStateMachine.Update | Assets/Scripts/PlayerStateMachine.cs:61-64 | the new player state is Ticked of the old, and the invariant is kept |
| NetworkPlayerSpawner.SlotIndex | Assets/Scripts/NetworkPlayerSpawner.cs:57-58 | the slot `clientId % length` is always in bounds, and ids below the length get their own slot |
| NetworkPlayerSpawner.ArrayPrefab | Assets/Scripts/NetworkPlayerSpawner.cs:64-74 | the array supplies a prefab iff it is non-null, non-empty and non-null at the client's slot, and then it is that entry |
| NetworkPlayerSpawner.ChoosePrefab | Assets/Scripts/NetworkPlayerSpawner.cs:62-88 | the fallback order is the array entry, then the default prefab, then the NetworkConfig prefab; there is no prefab iff all three are missing |
| NetworkPlayerSpawner.SpawnPlayer | Assets/Scripts/NetworkPlayerSpawner.cs:48-110 | nothing iff there are no spawn points. Otherwise: no prefab, or a prefab without a NetworkObject, or a spawn at the slot's in-bounds point with the chosen prefab |
| NetworkPlayerSpawner.NetworkSpawnRequests | Assets/Scripts/NetworkPlayerSpawner.cs:11-23 | OnNetworkSpawn spawns only on a server, and there exactly the host's own id when it is a host |
| NetworkPlayerSpawner.ConnectedRequests | Assets/Scripts/NetworkPlayerSpawner.cs:33-46 | a connection spawns that client iff on a server and it is not the host's own id on a host |
| NetworkPlayerSpawner.NonServerSpawnsNothing | Assets/Scripts/NetworkPlayerSpawner.cs:11-46 | a non-server node makes no SpawnPlayer call, whoever connects |
| NetworkPlayerSpawner.HostSpawnedOnce | Assets/Scripts/NetworkPlayerSpawner.cs:19-42 | on a host the host's own id is spawned exactly once, however often it is reported as connecting |
| NetworkPlayerSpawner.ClientSpawnedPerConnection | Assets/Scripts/NetworkPlayerSpawner.cs:33-46 | on a server every other client is spawned once per connection |
| NetworkPlayerSpawner.OutcomesNameRequests | Assets/Scripts/NetworkPlayerSpawner.cs:48-58 | with spawn points configured, the outcomes name each client exactly as often as SpawnPlayer was called for it |
| NetworkPlayerSpawner.NonServerHasNoOutcomes | Assets/Scripts/NetworkPlayerSpawner.cs:11-46 | a non-server node has no spawn outcome at all |
| NetworkPlayerSpawner.HostOutcomeOnce | Assets/Scripts/NetworkPlayerSpawner.cs:11-58 | on a host with spawn points, the first outcome is the host's own SpawnPlayer, at slot `SlotIndex(localClientId)` when it spawns, and no other outcome names the host |
| NetworkPlayerSpawner.ClientOutcomePerConnection | Assets/Scripts/NetworkPlayerSpawner.cs:33-58 | on a server with spawn points, every other client has one outcome per connection |
| NetworkPlayerSpawner.TwoPointScenario | Assets/Scripts/NetworkPlayerSpawner.cs:48-88 | two points, prefabs [A, null] and default D: host 0 gets A at point 0, client 1 gets D at point 1, and client 2 gets A at point 0 |

## Left out

- Engine calls are not modelled: NavMesh `SetDestination` and `ResetPath`, the destination offset, the facing and rotation helpers, animator `SetFloat`, effect and projectile `Instantiate`, audio, `Destroy`, gizmos and `Debug.Log`.
- Vector geometry is not modelled. `Vector3.Distance` is computed outside the model and arrives each tick as the player's distance.
- Floating point: floats are exact reals. The rounding of the `0.3f`-style constants and of `Time.time - last*Time` is not modelled.
- `MeleeAttackState.hasAttacked` is not modelled, because it is declared but never read or written.
- `chargeDuration` is not modelled, because the charge timeout that would read it is commented out. ChargeNeverTimesOut states that it is absent.
- RangeAttack is modelled, but no transition enters it; TickFollowsTable shows this.
- The laser gate is modelled, but no state uses it. The beam state, server-authority gating and replication do not exist in this code and are not invented.
- Death is not linked to the machine. `EnemyHealth.Die` disables `EnemyAI` and the NavMeshAgent but not `EnemyStateMachine`. The link between health and the machine, and `EnemyAI.Update`'s own animator bookkeeping, are not modelled.
- The trigger hooks `OnTriggerEnter` and `OnTriggerExit` are not modelled, because every state's hooks are empty. The animation-event receivers are not modelled either, for the same reason.
- EnemyAI.EnemyAI.ResetMeleeAttackCooldown: models the gate update only. The source then calls `animator.ResetTrigger` on a reference that is null without an Animator component; that would throw after the fields are set.
- The projectile prefab is not modelled. A ranged attack on a player is recorded whether or not a projectile prefab is set.
- `PlayerController` is not part of this model. Its `IsAttackPressed` is a per-frame boolean input.
- The `CanResumeMovement() && HasMovementInput()` branches are not modelled, because they are empty. CanResumeMovement is modelled as a predicate with its own lemmas.
- `attackHit` is not modelled, because it is a physics `OverlapBox` query that only logs. The `atkHitboxes[k]` accesses are taken to be in bounds.
- Idle → Attack1: `PlayerIdleState.Update` (PlayerStates.cs:17-21) is empty, and nothing in this code changes Idle into Attack1; an attack starts only through an outside `ChangeState`.
- The animator engine is not modelled: consuming the trigger and the progress of `normalizedTime` are foreign. The reported state name and time are inputs.
- Spawning itself is not modelled: `Instantiate`, `SpawnAsPlayerObject`, `Destroy`, the callback subscription and `OnNetworkDespawn`. A SpawnPlayer call's outcome is a value instead.
- Spawn-point transforms are names only, so a null entry in `spawnPoints`, which would throw at `spawnPoint.position` on the `Instantiate` line (NetworkPlayerSpawner.cs:97), cannot be expressed.
- `NetworkManagerUI.cs` and `EnemyProjectile.cs` are not part of this model.
- The `EnemyHealth` getters and `GetHealthPercentage` (a float ratio) are not modelled.
- `maxHealth` is a constant, because none of the modelled operations change it.
- EnemyHealth.EnemyHealth.Heal: implements the corrected Heal (see Findings). The wrap-around as written is HealedAsWritten.
- EnemyHealth.StaysInRange: holds with the corrected Heal (see Findings); as written, a large heal wraps below 0 (HealOverflowAsWritten). It also requires non-negative amounts, because neither method guards against negative ones (NegativeAmountsLeaveRange).

## Findings

| source | as written | input that shows it | evidently intended | confidence | as-written member | corrected member |
|---|---|---|---|---|---|---|
| Assets/Scripts/EnemyHealth.cs:75-76 | `currentHealth += healAmount` wraps on `int` overflow before the clamp at `maxHealth` | health 100 of 100, alive, `Heal(2147483647)`: health becomes -2147483549 and the enemy stays alive | healing never lowers health, and the result is `min(maxHealth, health + amount)` | not executed; high that the wrap happens, medium that callers can pass such amounts | EnemyHealth.HealOverflowAsWritten | EnemyHealth.Healed |
