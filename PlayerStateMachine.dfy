/**
 * PlayerStateMachine: the driver that hosts Idle and the three attacks.
 * The whole player (driver fields, the attacks' latches, the animator's
 * parameters) is abstracted as a PlayerView; the class's methods are
 * proved to change it exactly as Changed, Returned and Ticked say, and the
 * combo's properties are proved about those functions.
 */
module PlayerStateMachine {
  import opened Optional
  import opened PlayerStates
  import StateMachine

  /** The `AttackCombo` integer and the `Attack` trigger. */
  datatype Params = Params(attackCombo: int, attackTrigger: bool)

  datatype PlayerView = PlayerView(
    machine: StateMachine.Machine<PlayerStateId>,
    attack1: Latches,
    attack2: Latches,
    attack3: Latches,
    animator: Option<Params>,
    calls: seq<StateMachine.Call<PlayerStateId>>)

  function LatchesOf(v: PlayerView, s: PlayerStateId): Latches
    requires s != Idle
  {
    match s
    case Attack1 => v.attack1
    case Attack2 => v.attack2
    case Attack3 => v.attack3
  }

  function WithLatches(v: PlayerView, s: PlayerStateId, l: Latches): (r: PlayerView)
    requires s != Idle
    ensures LatchesOf(r, s) == l
  {
    match s
    case Attack1 => v.(attack1 := l)
    case Attack2 => v.(attack2 := l)
    case Attack3 => v.(attack3 := l)
  }

  /** The parameters Enter of `s` leaves in the animator: Idle's reset, or an attack's combo number and trigger. */
  function ParamsFor(s: PlayerStateId): Params
  {
    Params(ComboNumber(s), s != Idle)
  }

  /**
   * What `s.Enter()` does; no state's Exit does anything.  An animator
   * present gets the parameters of `s`; an attack's latches are those of
   * AttackEntered; the driver and the other attacks are untouched.
   */
  function Entered(v: PlayerView, s: PlayerStateId): (r: PlayerView)
    ensures r.machine == v.machine && r.calls == v.calls
    ensures r.animator == if v.animator.Some? then Some(ParamsFor(s)) else None
    ensures s != Idle ==> LatchesOf(r, s) == AttackEntered(s, LatchesOf(v, s))
    ensures s != Attack1 ==> r.attack1 == v.attack1
    ensures s != Attack2 ==> r.attack2 == v.attack2
    ensures s != Attack3 ==> r.attack3 == v.attack3
  {
    var params := if v.animator.Some? then Some(ParamsFor(s)) else None;
    if s == Idle then v.(animator := params)
    else WithLatches(v, s, AttackEntered(s, LatchesOf(v, s))).(animator := params)
  }

  /**
   * `ChangeState(s)`: exit the current state, if any (a no-op), then enter
   * `s`.  The driver's fields and calls are those of StateMachine.Switched,
   * an animator present holds the parameters of `s`, and Attack3 never
   * gains a queued combo.
   */
  function Changed(v: PlayerView, s: PlayerStateId): (r: PlayerView)
    ensures r.machine == StateMachine.Switched(v.machine, s)
    ensures r.calls == v.calls + StateMachine.SwitchCalls(v.machine, s)
    ensures r.animator.Some? <==> v.animator.Some?
    ensures r.animator.Some? ==> r.animator.value == ParamsFor(s)
    ensures !v.attack3.comboQueued ==> !r.attack3.comboQueued
  {
    Entered(v.(machine := StateMachine.Switched(v.machine, s),
               calls := v.calls + StateMachine.SwitchCalls(v.machine, s)), s)
  }

  /** `ReturnToPreviousState()`: nothing without a previous state, else ChangeState(previous). */
  function Returned(v: PlayerView): (r: PlayerView)
    ensures v.machine.previous.None? ==> r == v
    ensures r.machine == StateMachine.Returned(v.machine)
    ensures r.calls == v.calls + StateMachine.ReturnCalls(v.machine)
  {
    if v.machine.previous.None? then v else Changed(v, v.machine.previous.value)
  }

  /**
   * `Update()`: the current state's Update (Idle's does nothing), and the
   * change it asks for.  Without a current state nothing happens;
   * otherwise the driver makes one Update call and then either stays or
   * performs exactly one ChangeState.  The animator is never added or
   * removed.
   */
  function Ticked(v: PlayerView, f: Frame): (r: PlayerView)
    ensures v.machine.current.None? ==> r == v
    ensures v.machine.current.Some? ==>
              var u := v.calls + [StateMachine.Update(v.machine.current.value)];
              || (r.machine == v.machine && r.calls == u)
              || (r.machine.current.Some? &&
                  r.machine == StateMachine.Switched(v.machine, r.machine.current.value) &&
                  r.calls == u + StateMachine.SwitchCalls(v.machine, r.machine.current.value))
    ensures r.animator.Some? <==> v.animator.Some?
  {
    if v.machine.current.None? then v
    else
      var c := v.machine.current.value;
      var u := v.(calls := v.calls + [StateMachine.Update(c)]);
      if c == Idle then u
      else
        var st := AttackTick(c, v.animator.Some?, LatchesOf(v, c), f);
        var w := WithLatches(u, c, st.latches);
        if st.next.Some? then Changed(w, st.next.value) else w
  }

  function Run(v: PlayerView, frames: seq<Frame>): PlayerView
    decreases |frames|
  {
    if frames == [] then v else Run(Ticked(v, frames[0]), frames[1..])
  }

  /** The player before `Start`: cleared latches, and the animator's default parameters if it has one. */
  function Fresh(hasAnimator: bool): PlayerView
  {
    PlayerView(StateMachine.Unstarted(), Latches(false, false), Latches(false, false), Latches(false, false),
               if hasAnimator then Some(Params(0, false)) else None, [])
  }

  /** After `Start`: `ChangeState(idleState)`. */
  function Initial(hasAnimator: bool): PlayerView
  {
    Changed(Fresh(hasAnimator), Idle)
  }

  /**
   * What holds of every started player: a state is current; Attack3 has
   * no queued combo; the animator's parameters are the ones the current
   * state's Enter wrote; and the lifecycle calls are well formed with
   * exactly the current state active.
   */
  ghost predicate Inv(v: PlayerView)
  {
    && v.machine.current.Some?
    && !v.attack3.comboQueued
    && (v.animator.Some? ==> v.animator.value == ParamsFor(v.machine.current.value))
    && StateMachine.Replayed(v.calls) == Some(v.machine.current)
  }

  lemma InitialIsIdle(hasAnimator: bool)
    ensures Inv(Initial(hasAnimator))
    ensures Initial(hasAnimator).machine == StateMachine.Machine(Some(Idle), None)
    ensures Initial(hasAnimator).calls == [StateMachine.Enter(Idle)]
    ensures hasAnimator ==> Initial(hasAnimator).animator == Some(Params(0, false))
  {
  }

  lemma {:induction false} ChangedKeepsInv(v: PlayerView, s: PlayerStateId)
    requires Inv(v)
    ensures Inv(Changed(v, s))
  {
    StateMachine.SwitchWellFormed(v.calls, v.machine, s);
  }

  lemma {:induction false} ReturnedKeepsInv(v: PlayerView)
    requires Inv(v)
    ensures Inv(Returned(v))
  {
    if v.machine.previous.Some? {
      ChangedKeepsInv(v, v.machine.previous.value);
    }
  }

  lemma {:induction false} TickedKeepsInv(v: PlayerView, f: Frame)
    requires Inv(v)
    ensures Inv(Ticked(v, f))
  {
    var c := v.machine.current.value;
    StateMachine.UpdateWellFormed(v.calls, v.machine);
    assert v.calls + StateMachine.UpdateCalls(v.machine) == v.calls + [StateMachine.Update(c)];
    var u := v.(calls := v.calls + [StateMachine.Update(c)]);
    assert Inv(u);
    if c != Idle {
      var st := AttackTick(c, v.animator.Some?, LatchesOf(v, c), f);
      var w := WithLatches(u, c, st.latches);
      assert Inv(w);
      if st.next.Some? {
        ChangedKeepsInv(w, st.next.value);
      }
    }
  }

  lemma {:induction false} RunKeepsInv(v: PlayerView, frames: seq<Frame>)
    requires Inv(v)
    ensures Inv(Run(v, frames))
    decreases |frames|
  {
    if frames != [] {
      TickedKeepsInv(v, frames[0]);
      RunKeepsInv(Ticked(v, frames[0]), frames[1..]);
    }
  }

  // ---------------------------------------------------------------------
  // The combo
  // ---------------------------------------------------------------------

  /** The states one Update can lead to from each state. */
  function Successors(s: PlayerStateId): set<PlayerStateId>
  {
    match s
    case Idle => {Idle}
    case Attack1 => {Attack1, Attack2, Idle}
    case Attack2 => {Attack2, Attack3, Idle}
    case Attack3 => {Attack3, Idle}
  }

  /**
   * Every Update stays put or follows the table: the combo only moves
   * forward, Attack3 only returns to Idle, and Idle never starts an attack
   * on its own.
   */
  lemma TickFollowsTable(v: PlayerView, f: Frame)
    requires Inv(v)
    ensures Ticked(v, f).machine.current.value in Successors(v.machine.current.value)
  {
  }

  /** Idle's Update changes nothing but the record of the call. */
  lemma IdleStays(v: PlayerView, f: Frame)
    requires v.machine.current == Some(Idle)
    ensures Ticked(v, f) == v.(calls := v.calls + [StateMachine.Update(Idle)])
  {
  }

  /**
   * In an attack, the Update leaves the attack exactly when its animation
   * is complete (having been seen playing), for the next attack when a
   * combo is queued by then and for Idle otherwise; the next state enters
   * with cleared latches and writes its combo number to the animator.
   */
  lemma AttackTickDecides(v: PlayerView, f: Frame)
    requires Inv(v) && v.machine.current.value != Idle
    ensures var c := v.machine.current.value;
            var st := AttackTick(c, v.animator.Some?, LatchesOf(v, c), f);
            var w := Ticked(v, f);
            && (st.next.None? ==> w.machine.current == Some(c) && LatchesOf(w, c) == st.latches)
            && (st.next.Some? ==>
                  && w.machine == StateMachine.Machine(st.next, Some(c))
                  && (c != Attack3 && st.latches.comboQueued ==> st.next == Some(ComboSuccessor(c)))
                  && (c == Attack3 || !st.latches.comboQueued ==> st.next == Some(Idle))
                  && (w.animator.Some? ==> w.animator.value == ParamsFor(st.next.value)))
  {
  }

  /**
   * Re-entering the current attack runs its Exit and Enter again, which
   * clears its latches.
   */
  lemma ReentryClearsLatches(v: PlayerView, s: PlayerStateId)
    requires Inv(v) && s != Idle && v.machine.current == Some(s)
    ensures var w := Changed(v, s);
            && w.machine == StateMachine.Machine(Some(s), Some(s))
            && LatchesOf(w, s) == Latches(false, false)
            && w.calls == v.calls + [StateMachine.Exit(s), StateMachine.Enter(s)]
  {
  }

  /**
   * While an activation has not asked for a change, the machine stays in
   * the attack and its latches are the activation's.
   */
  lemma {:induction false} RunFollowsActivation(v: PlayerView, frames: seq<Frame>)
    requires Inv(v) && v.machine.current.value != Idle
    requires Activation(v.machine.current.value, v.animator.Some?, LatchesOf(v, v.machine.current.value), frames).next.None?
    ensures Run(v, frames).machine == v.machine
    ensures LatchesOf(Run(v, frames), v.machine.current.value) ==
            Activation(v.machine.current.value, v.animator.Some?, LatchesOf(v, v.machine.current.value), frames).latches
    decreases |frames|
  {
    if frames != [] {
      var c := v.machine.current.value;
      var w := Ticked(v, frames[0]);
      TickedKeepsInv(v, frames[0]);
      RunFollowsActivation(w, frames[1..]);
    }
  }

  // ---------------------------------------------------------------------
  // The class
  // ---------------------------------------------------------------------

  class PlayerStateMachine {
    var currentState: Option<PlayerStateId>
    var previousState: Option<PlayerStateId>

    const animator: Animator?
    const attack1State: PlayerAttackState
    const attack2State: PlayerAttackState
    const attack3State: PlayerAttackState

    /** The lifecycle calls made so far. */
    ghost var calls: seq<StateMachine.Call<PlayerStateId>>

    ghost function Repr(): set<object>
    {
      {this, attack1State, attack2State, attack3State} + (if animator != null then {animator} else {})
    }

    /** Each attack object plays its own attack. */
    ghost predicate Wired()
    {
      && attack1State.attack == Attack1
      && attack2State.attack == Attack2
      && attack3State.attack == Attack3
    }

    ghost function View(): PlayerView
      reads Repr()
    {
      PlayerView(StateMachine.Machine(currentState, previousState),
                 attack1State.Current(), attack2State.Current(), attack3State.Current(),
                 if animator != null then Some(Params(animator.attackCombo, animator.attackTrigger)) else None,
                 calls)
    }

    ghost predicate Valid()
      reads Repr()
    {
      Wired() && Inv(View())
    }

    function StateObject(s: PlayerStateId): (r: PlayerAttackState)
      requires s != Idle
      ensures Wired() ==> r.attack == s
    {
      match s
      case Attack1 => attack1State
      case Attack2 => attack2State
      case Attack3 => attack3State
    }

    /** The state objects, then `Start`: `ChangeState(idleState)`. */
    constructor (hasAnimator: bool)
      ensures (animator != null) == hasAnimator
      ensures Wired()
      ensures View() == Initial(hasAnimator)
      ensures Valid()
      ensures fresh(Repr())
    {
      if hasAnimator {
        animator := new Animator();
      } else {
        animator := null;
      }
      attack1State := new PlayerAttackState(Attack1);
      attack2State := new PlayerAttackState(Attack2);
      attack3State := new PlayerAttackState(Attack3);
      currentState := None;
      previousState := None;
      calls := [];
      new;
      ChangeState(Idle);
      InitialIsIdle(hasAnimator);
    }

    method EnterState(s: PlayerStateId)
      requires Wired()
      modifies Repr()
      ensures View() == Entered(old(View()), s).(calls := old(calls) + [StateMachine.Enter(s)])
    {
      calls := calls + [StateMachine.Enter(s)];
      if s == Idle {
        IdleEnter(animator);
      } else {
        StateObject(s).Enter(animator);
      }
    }

    /** `ChangeState(s)`. */
    method ChangeState(s: PlayerStateId)
      requires Wired()
      modifies Repr()
      ensures View() == Changed(old(View()), s)
      ensures old(Inv(View())) ==> Valid()
    {
      ghost var v := View();
      if currentState.Some? {
        previousState := currentState;
        // every state's Exit is empty
        calls := calls + [StateMachine.Exit(currentState.value)];
      }
      currentState := Some(s);
      assert View() == v.(machine := StateMachine.Switched(v.machine, s),
                          calls := v.calls + (if v.machine.current.Some? then [StateMachine.Exit(v.machine.current.value)] else []));
      EnterState(s);
      if Inv(v) {
        ChangedKeepsInv(v, s);
      }
    }

    method ReturnToPreviousState()
      requires Wired()
      modifies Repr()
      ensures View() == Returned(old(View()))
      ensures old(Inv(View())) ==> Valid()
    {
      if previousState.Some? {
        ChangeState(previousState.value);
      }
    }

    /** One frame: the animator's report and whether attack is pressed. */
    method Update(info: StateInfo, attackPressed: bool)
      requires Wired()
      modifies Repr()
      ensures View() == Ticked(old(View()), Frame(info, attackPressed))
      ensures old(Inv(View())) ==> Valid()
    {
      ghost var v := View();
      if currentState.None? {
        return;
      }
      var c := currentState.value;
      calls := calls + [StateMachine.Update(c)];
      if c == Idle {
        return;
      }
      var next := StateObject(c).Update(animator != null, info, attackPressed);
      ghost var st := AttackTick(c, v.animator.Some?, LatchesOf(v, c), Frame(info, attackPressed));
      assert next == st.next;
      assert View() == WithLatches(v.(calls := v.calls + [StateMachine.Update(c)]), c, st.latches);
      if next.Some? {
        ChangeState(next.value);
      }
      if Inv(v) {
        TickedKeepsInv(v, Frame(info, attackPressed));
      }
    }
  }
}
