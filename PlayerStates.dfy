/**
 * The player's combo states: Idle and three chained attacks.  An attack
 * waits until the animator shows its own animation, may queue the next
 * attack when the button is pressed inside its combo window, and on
 * completion moves to the next attack if one was queued, else to Idle.
 *
 * What the animator shows each frame (`GetCurrentAnimatorStateInfo(0)`)
 * is an input; the two animator parameters the states write, the
 * `AttackCombo` integer and the `Attack` trigger, are the fields of an
 * Animator object.  A missing Animator component is a null reference.
 */
module PlayerStates {
  import opened Optional

  datatype PlayerStateId = Idle | Attack1 | Attack2 | Attack3

  /** The animator state an attack plays (its `attackStateName`). */
  function AttackStateName(s: PlayerStateId): string
    requires s != Idle
  {
    match s
    case Attack1 => "Attack1"
    case Attack2 => "Attack2"
    case Attack3 => "Attack3"
  }

  /** The `AttackCombo` value a state's Enter writes: 0 for Idle, the combo number for an attack. */
  function ComboNumber(s: PlayerStateId): int
  {
    match s
    case Idle => 0
    case Attack1 => 1
    case Attack2 => 2
    case Attack3 => 3
  }

  /** Normalised animation times: the combo window, inclusive at both ends, and movement resume. */
  datatype Timing = Timing(comboWindowStart: real, comboWindowEnd: real, movementResumeTime: real)

  /** The base class's defaults, Attack2's later window end, Attack3's window at 1.0 and resume at 0.99. */
  function TimingOf(s: PlayerStateId): Timing
    requires s != Idle
  {
    match s
    case Attack1 => Timing(0.3, 0.8, 0.9)
    case Attack2 => Timing(0.3, 0.89, 0.9)
    case Attack3 => Timing(1.0, 1.0, 0.99)
  }

  /** The next attack of the combo; Attack3 is the last. */
  function ComboSuccessor(s: PlayerStateId): PlayerStateId
  {
    match s
    case Attack1 => Attack2
    case Attack2 => Attack3
    case _ => Idle
  }

  /** What the animator reports for layer 0: the name of the playing state and its normalised time. */
  datatype StateInfo = StateInfo(name: string, normalizedTime: real)

  /** Truncation toward zero, as a C# float-to-integer conversion does. */
  function Trunc(x: real): int
  {
    if x >= 0.0 then x.Floor else -((-x).Floor)
  }

  /**
   * C#'s `x % 1.0f`: the remainder takes the sign of `x`, so it is the
   * fractional part for non-negative times and lies in (-1, 0] otherwise.
   */
  function FMod1(x: real): (r: real)
    ensures x >= 0.0 ==> 0.0 <= r < 1.0
    ensures x < 0.0 ==> -1.0 < r <= 0.0
    ensures (x - r).Floor as real == x - r
  {
    x - Trunc(x) as real
  }

  /** Below one loop the remainder is the time itself. */
  lemma FMod1FirstLoop(x: real)
    requires 0.0 <= x < 1.0
    ensures FMod1(x) == x
  {
  }

  /** The remainder repeats every whole loop of the animation. */
  lemma FMod1Periodic(x: real, n: nat)
    requires x >= 0.0
    ensures FMod1(x + n as real) == FMod1(x)
  {
    assert (x + n as real).Floor == x.Floor + n;
  }

  /** `IsAnimationPlaying`: the animator is present and in the attack's own state. */
  predicate IsAnimationPlaying(hasAnimator: bool, info: StateInfo, s: PlayerStateId)
    requires s != Idle
    ensures !hasAnimator ==> !IsAnimationPlaying(hasAnimator, info, s)
    ensures hasAnimator ==> (IsAnimationPlaying(hasAnimator, info, s) <==> info.name == AttackStateName(s))
  {
    hasAnimator && info.name == AttackStateName(s)
  }

  /** `IsInComboWindow`: started, in its own state, and the looped time inside the window. */
  predicate IsInComboWindow(hasAnimator: bool, animationStarted: bool, info: StateInfo, s: PlayerStateId)
    requires s != Idle
    ensures IsInComboWindow(hasAnimator, animationStarted, info, s) ==>
              animationStarted && IsAnimationPlaying(hasAnimator, info, s)
    ensures animationStarted && IsAnimationPlaying(hasAnimator, info, s) ==>
              (IsInComboWindow(hasAnimator, animationStarted, info, s) <==>
                 TimingOf(s).comboWindowStart <= FMod1(info.normalizedTime) <= TimingOf(s).comboWindowEnd)
  {
    if !hasAnimator || !animationStarted then false
    else if info.name != AttackStateName(s) then false
    else
      var t := FMod1(info.normalizedTime);
      TimingOf(s).comboWindowStart <= t <= TimingOf(s).comboWindowEnd
  }

  /** `CanResumeMovement`: started, and either out of its own state or past the resume time in the loop. */
  predicate CanResumeMovement(hasAnimator: bool, animationStarted: bool, info: StateInfo, s: PlayerStateId)
    requires s != Idle
    ensures CanResumeMovement(hasAnimator, animationStarted, info, s) ==> hasAnimator && animationStarted
    ensures hasAnimator && animationStarted && !IsAnimationPlaying(hasAnimator, info, s) ==>
              CanResumeMovement(hasAnimator, animationStarted, info, s)
    ensures animationStarted && IsAnimationPlaying(hasAnimator, info, s) ==>
              (CanResumeMovement(hasAnimator, animationStarted, info, s) <==>
                 FMod1(info.normalizedTime) >= TimingOf(s).movementResumeTime)
  {
    if !hasAnimator || !animationStarted then false
    else if info.name != AttackStateName(s) then true
    else FMod1(info.normalizedTime) >= TimingOf(s).movementResumeTime
  }

  /** `IsAnimationComplete`: started, and either out of its own state or at the raw time 1.0 or later. */
  predicate IsAnimationComplete(hasAnimator: bool, animationStarted: bool, info: StateInfo, s: PlayerStateId)
    requires s != Idle
    ensures IsAnimationComplete(hasAnimator, animationStarted, info, s) ==> hasAnimator && animationStarted
    ensures hasAnimator && animationStarted && !IsAnimationPlaying(hasAnimator, info, s) ==>
              IsAnimationComplete(hasAnimator, animationStarted, info, s)
    ensures animationStarted && IsAnimationPlaying(hasAnimator, info, s) ==>
              (IsAnimationComplete(hasAnimator, animationStarted, info, s) <==> info.normalizedTime >= 1.0)
  {
    if !hasAnimator || !animationStarted then false
    else if info.name != AttackStateName(s) then true
    else info.normalizedTime >= 1.0
  }

  /** Attack3's window [1.0, 1.0] is never open: the looped time is always below 1. */
  lemma Attack3WindowNeverOpen(hasAnimator: bool, animationStarted: bool, info: StateInfo)
    ensures !IsInComboWindow(hasAnimator, animationStarted, info, Attack3)
  {
  }

  /**
   * Inside its own state, the combo window is open at a time exactly when
   * it is open a whole number of loops later; completion, which looks at
   * the raw time, holds from the end of the first loop on.
   */
  lemma WindowRepeatsEachLoop(hasAnimator: bool, info: StateInfo, s: PlayerStateId, n: nat)
    requires s != Idle
    requires info.normalizedTime >= 0.0
    ensures var later := info.(normalizedTime := info.normalizedTime + n as real);
            IsInComboWindow(hasAnimator, true, later, s) == IsInComboWindow(hasAnimator, true, info, s)
    ensures var later := info.(normalizedTime := info.normalizedTime + n as real);
            n >= 1 && hasAnimator ==> IsAnimationComplete(hasAnimator, true, later, s)
  {
    FMod1Periodic(info.normalizedTime, n);
  }

  /**
   * During the first loop of its own animation an attack is never both in
   * its combo window and complete, and it can resume movement only after
   * its window has closed.
   */
  lemma FirstLoopOrder(hasAnimator: bool, info: StateInfo, s: PlayerStateId)
    requires s != Idle
    requires info.name == AttackStateName(s) && 0.0 <= info.normalizedTime < 1.0
    ensures !(IsInComboWindow(hasAnimator, true, info, s) && IsAnimationComplete(hasAnimator, true, info, s))
    ensures IsInComboWindow(hasAnimator, true, info, s) ==> !CanResumeMovement(hasAnimator, true, info, s)
  {
    FMod1FirstLoop(info.normalizedTime);
  }

  /**
   * At the end of the first loop (time 1.0) an attack is complete but may
   * not resume movement, since the looped time is back at 0.
   */
  lemma CompleteWithoutResume(s: PlayerStateId)
    requires s != Idle
    ensures IsAnimationComplete(true, true, StateInfo(AttackStateName(s), 1.0), s)
    ensures !CanResumeMovement(true, true, StateInfo(AttackStateName(s), 1.0), s)
  {
    assert FMod1(1.0) == 0.0;
  }

  /** Before the animation is seen playing, every predicate is false. */
  lemma NotStartedSeesNothing(hasAnimator: bool, info: StateInfo, s: PlayerStateId)
    requires s != Idle
    ensures !IsInComboWindow(hasAnimator, false, info, s)
    ensures !CanResumeMovement(hasAnimator, false, info, s)
    ensures !IsAnimationComplete(hasAnimator, false, info, s)
  {
  }

  // ---------------------------------------------------------------------
  // The attack states' latches
  // ---------------------------------------------------------------------

  /** `animationStarted`, and `comboQueued` (which Attack3 does not have and never sets). */
  datatype Latches = Latches(animationStarted: bool, comboQueued: bool)

  /** One frame as an attack sees it: the animator's report and `IsAttackPressed()`. */
  datatype Frame = Frame(info: StateInfo, attackPressed: bool)

  /** What one attack Update leaves: the latches and the change it asks for. */
  datatype AttackStep = AttackStep(latches: Latches, next: Option<PlayerStateId>)

  /** An attack's Enter, latch part: both latches cleared (Attack3 clears only its one). */
  function AttackEntered(s: PlayerStateId, l: Latches): (r: Latches)
    ensures !r.animationStarted
    ensures s != Attack3 ==> !r.comboQueued
    ensures s == Attack3 ==> r.comboQueued == l.comboQueued
  {
    if s == Attack3 then l.(animationStarted := false) else Latches(false, false)
  }

  /**
   * An attack's Update: nothing until the animation is seen playing; then
   * `animationStarted` latches, a press inside the combo window queues the
   * next attack (Attack1 and Attack2 only), and on completion the state
   * asks for the next attack if one is queued and for Idle otherwise.
   */
  function AttackTick(s: PlayerStateId, hasAnimator: bool, l: Latches, f: Frame): (r: AttackStep)
    requires s != Idle
    ensures !l.animationStarted && !IsAnimationPlaying(hasAnimator, f.info, s) ==> r == AttackStep(l, None)
    ensures l.animationStarted || IsAnimationPlaying(hasAnimator, f.info, s) ==>
              && r.latches.animationStarted
              && (r.latches.comboQueued <==>
                    l.comboQueued || (s != Attack3 && f.attackPressed && IsInComboWindow(hasAnimator, true, f.info, s)))
              && (r.next.Some? <==> IsAnimationComplete(hasAnimator, true, f.info, s))
    ensures r.next.Some? ==> r.next.value == if s != Attack3 && r.latches.comboQueued then ComboSuccessor(s) else Idle
  {
    if !l.animationStarted && !IsAnimationPlaying(hasAnimator, f.info, s) then AttackStep(l, None)
    else
      var started := l.(animationStarted := true);
      var queued :=
        if s != Attack3 && IsInComboWindow(hasAnimator, true, f.info, s) && f.attackPressed
        then started.(comboQueued := true) else started;
      var next :=
        if !IsAnimationComplete(hasAnimator, true, f.info, s) then None
        else if s != Attack3 && queued.comboQueued then Some(ComboSuccessor(s))
        else Some(Idle);
      AttackStep(queued, next)
  }

  /**
   * One activation of an attack over a run of frames: the Updates up to and
   * including the first that asks for a change, and what that asked for
   * (None if the run ends first).
   */
  function Activation(s: PlayerStateId, hasAnimator: bool, l: Latches, frames: seq<Frame>): AttackStep
    requires s != Idle
    decreases |frames|
  {
    if frames == [] then AttackStep(l, None)
    else
      var r := AttackTick(s, hasAnimator, l, frames[0]);
      if r.next.Some? then r else Activation(s, hasAnimator, r.latches, frames[1..])
  }

  /**
   * The latches hold for the rest of an activation: once started it stays
   * started, once a combo is queued it stays queued, and a queued combo
   * means the activation ends in the next attack.
   */
  lemma {:induction false} LatchesHold(s: PlayerStateId, hasAnimator: bool, l: Latches, frames: seq<Frame>)
    requires s != Idle
    ensures l.animationStarted ==> Activation(s, hasAnimator, l, frames).latches.animationStarted
    ensures l.comboQueued ==> Activation(s, hasAnimator, l, frames).latches.comboQueued
    ensures l.comboQueued && s != Attack3 && Activation(s, hasAnimator, l, frames).next.Some? ==>
              Activation(s, hasAnimator, l, frames).next.value == ComboSuccessor(s)
    decreases |frames|
  {
    if frames != [] {
      var r := AttackTick(s, hasAnimator, l, frames[0]);
      if r.next.None? {
        LatchesHold(s, hasAnimator, r.latches, frames[1..]);
      }
    }
  }

  /** No press lands in a combo window during the run. */
  predicate NoPressInWindow(s: PlayerStateId, hasAnimator: bool, frames: seq<Frame>)
    requires s != Idle
  {
    forall i :: 0 <= i < |frames| ==>
      !(frames[i].attackPressed && IsInComboWindow(hasAnimator, true, frames[i].info, s))
  }

  /** Without a queued combo and without a press in the window, an activation can only end in Idle. */
  lemma {:induction false} NoPressEndsIdle(s: PlayerStateId, hasAnimator: bool, l: Latches, frames: seq<Frame>)
    requires s != Idle
    requires !l.comboQueued
    requires NoPressInWindow(s, hasAnimator, frames)
    ensures !Activation(s, hasAnimator, l, frames).latches.comboQueued
    ensures Activation(s, hasAnimator, l, frames).next.Some? ==> Activation(s, hasAnimator, l, frames).next.value == Idle
    decreases |frames|
  {
    if frames != [] {
      var r := AttackTick(s, hasAnimator, l, frames[0]);
      assert !(frames[0].attackPressed && IsInComboWindow(hasAnimator, true, frames[0].info, s));
      if r.next.None? {
        assert NoPressInWindow(s, hasAnimator, frames[1..]) by {
          forall i | 0 <= i < |frames[1..]|
            ensures !(frames[1..][i].attackPressed && IsInComboWindow(hasAnimator, true, frames[1..][i].info, s))
          {
            assert frames[1..][i] == frames[i + 1];
          }
        }
        NoPressEndsIdle(s, hasAnimator, r.latches, frames[1..]);
      }
    }
  }

  /** Attack3's activations end only in Idle, whatever is pressed. */
  lemma {:induction false} Attack3EndsIdle(hasAnimator: bool, l: Latches, frames: seq<Frame>)
    ensures Activation(Attack3, hasAnimator, l, frames).next.Some? ==>
              Activation(Attack3, hasAnimator, l, frames).next.value == Idle
    decreases |frames|
  {
    if frames != [] {
      var r := AttackTick(Attack3, hasAnimator, l, frames[0]);
      if r.next.None? {
        Attack3EndsIdle(hasAnimator, r.latches, frames[1..]);
      }
    }
  }

  /**
   * Scenario: Attack1 playing at 0.85 with the button pressed does not
   * queue (its window ends at 0.8), so at 1.0 it returns to Idle; the same
   * press at 0.85 in Attack2 (window end 0.89) queues Attack3.
   */
  lemma PressAfterWindow()
    ensures var l := AttackTick(Attack1, true, Latches(false, false), Frame(StateInfo("Attack1", 0.85), true));
            && l == AttackStep(Latches(true, false), None)
            && AttackTick(Attack1, true, l.latches, Frame(StateInfo("Attack1", 1.0), false)).next == Some(Idle)
    ensures var l := AttackTick(Attack2, true, Latches(false, false), Frame(StateInfo("Attack2", 0.85), true));
            && l == AttackStep(Latches(true, true), None)
            && AttackTick(Attack2, true, l.latches, Frame(StateInfo("Attack2", 1.0), false)).next == Some(Attack3)
  {
    FMod1FirstLoop(0.85);
    assert FMod1(1.0) == 0.0;
  }

  // ---------------------------------------------------------------------
  // The classes
  // ---------------------------------------------------------------------

  /** The animator parameters the states write. */
  class Animator {
    var attackCombo: int
    var attackTrigger: bool

    constructor ()
      ensures attackCombo == 0 && !attackTrigger
    {
      attackCombo := 0;
      attackTrigger := false;
    }
  }

  /** `PlayerIdleState.Enter`: combo 0 and the attack trigger reset, when there is an animator. */
  method IdleEnter(animator: Animator?)
    modifies animator
    ensures animator != null ==> animator.attackCombo == 0 && !animator.attackTrigger
  {
    if animator != null {
      animator.attackCombo := 0;
      animator.attackTrigger := false;
    }
  }

  /** One of PlayerAttack1State, PlayerAttack2State and PlayerAttack3State. */
  class PlayerAttackState {
    const attack: PlayerStateId
    var animationStarted: bool
    var comboQueued: bool

    function Current(): Latches
      reads this
    {
      Latches(animationStarted, comboQueued)
    }

    constructor (attack: PlayerStateId)
      requires attack != Idle
      ensures this.attack == attack
      ensures Current() == Latches(false, false)
    {
      this.attack := attack;
      animationStarted := false;
      comboQueued := false;
    }

    /** Clears the latches, then sets `AttackCombo` to the combo number and the attack trigger. */
    method Enter(animator: Animator?)
      requires attack != Idle
      modifies this, animator
      ensures Current() == AttackEntered(attack, old(Current()))
      ensures animator != null ==> animator.attackCombo == ComboNumber(attack) && animator.attackTrigger
    {
      animationStarted := false;
      if attack != Attack3 {
        comboQueued := false;
      }
      if animator != null {
        animator.attackCombo := ComboNumber(attack);
        animator.attackTrigger := true;
      }
    }

    /** One frame; returns the change the state asks the machine for. */
    method Update(hasAnimator: bool, info: StateInfo, attackPressed: bool) returns (next: Option<PlayerStateId>)
      requires attack != Idle
      modifies this
      ensures AttackStep(Current(), next) == AttackTick(attack, hasAnimator, old(Current()), Frame(info, attackPressed))
    {
      next := None;
      if !animationStarted {
        if IsAnimationPlaying(hasAnimator, info, attack) {
          animationStarted := true;
        } else {
          return;
        }
      }
      if attack != Attack3 && IsInComboWindow(hasAnimator, animationStarted, info, attack) && attackPressed {
        comboQueued := true;
      }
      if IsAnimationComplete(hasAnimator, animationStarted, info, attack) {
        if attack != Attack3 && comboQueued {
          next := Some(ComboSuccessor(attack));
        } else {
          next := Some(Idle);
        }
      }
    }
  }
}
