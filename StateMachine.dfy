/**
 * The bookkeeping of the state-machine driver that EnemyStateMachine and
 * PlayerStateMachine both implement: the `currentState` and `previousState`
 * fields, and the order in which the driver calls Enter, Update and Exit
 * on its states.  What the states do inside those calls is modelled by each
 * machine; this module states what every driver guarantees regardless.
 */
module StateMachine {
  import opened Optional

  /** The driver's two fields; `None` stands for a null state reference. */
  datatype Machine<S> = Machine(current: Option<S>, previous: Option<S>)

  /** One lifecycle call made by the driver on one of its states. */
  datatype Call<S> = Enter(state: S) | Update(state: S) | Exit(state: S)

  /** The driver before its first ChangeState: no current and no previous state. */
  function Unstarted<S>(): Machine<S>
  {
    Machine(None, None)
  }

  /**
   * ChangeState(next): when a state is current it becomes `previousState`;
   * `next` always becomes current.
   */
  function Switched<S>(m: Machine<S>, next: S): (r: Machine<S>)
    ensures r.current == Some(next)
    ensures m.current.Some? ==> r.previous == m.current
    ensures m.current.None? ==> r.previous == m.previous
  {
    Machine(Some(next), if m.current.Some? then m.current else m.previous)
  }

  /** The calls ChangeState(next) makes: Exit of the current state, if any, then Enter of `next`. */
  function SwitchCalls<S>(m: Machine<S>, next: S): (r: seq<Call<S>>)
    ensures |r| == (if m.current.Some? then 2 else 1)
    ensures r[|r| - 1] == Enter(next)
    ensures m.current.Some? ==> r[0] == Exit(m.current.value)
  {
    (if m.current.Some? then [Exit(m.current.value)] else []) + [Enter(next)]
  }

  /** The calls Update makes: one Update of the current state, none when there is none. */
  function UpdateCalls<S>(m: Machine<S>): (r: seq<Call<S>>)
    ensures |r| == (if m.current.Some? then 1 else 0)
    ensures m.current.Some? ==> r[0] == Update(m.current.value)
  {
    if m.current.Some? then [Update(m.current.value)] else []
  }

  /**
   * ReturnToPreviousState: nothing without a recorded previous state;
   * otherwise the previous state becomes current, and the state it
   * replaces becomes the previous one.
   */
  function Returned<S>(m: Machine<S>): (r: Machine<S>)
    ensures m.previous.None? ==> r == m
    ensures m.previous.Some? ==> r.current == m.previous
    ensures m.previous.Some? && m.current.Some? ==> r.previous == m.current
    ensures m.previous.Some? && m.current.None? ==> r.previous == m.previous
  {
    if m.previous.None? then m else Switched(m, m.previous.value)
  }

  /** The calls ReturnToPreviousState makes. */
  function ReturnCalls<S>(m: Machine<S>): (r: seq<Call<S>>)
    ensures m.previous.None? ==> r == []
  {
    if m.previous.None? then [] else SwitchCalls(m, m.previous.value)
  }

  // ---------------------------------------------------------------------
  // An independent account of a well-formed lifecycle.  Replaying a trace
  // of calls yields the state left active, or None when the trace breaks
  // the discipline: a state is entered only while none is active, and only
  // the active state is updated or exited.
  // ---------------------------------------------------------------------

  function Accept<S(==)>(active: Option<S>, c: Call<S>): Option<Option<S>>
  {
    match c
    case Enter(s) => if active.None? then Some(Some(s)) else None
    case Update(s) => if active == Some(s) then Some(active) else None
    case Exit(s) => if active == Some(s) then Some(None) else None
  }

  function Replayed<S(==)>(calls: seq<Call<S>>): Option<Option<S>>
    decreases |calls|
  {
    if calls == [] then Some(None)
    else
      match Replayed(calls[..|calls| - 1])
      case None => None
      case Some(active) => Accept(active, calls[|calls| - 1])
  }

  lemma ReplayedSnoc<S>(calls: seq<Call<S>>, c: Call<S>)
    ensures Replayed(calls + [c]) ==
            (match Replayed(calls) case None => None case Some(active) => Accept(active, c))
  {
    assert (calls + [c])[..|calls|] == calls;
  }

  /** ChangeState keeps the lifecycle well formed and leaves exactly `next` active. */
  lemma {:induction false} SwitchWellFormed<S>(calls: seq<Call<S>>, m: Machine<S>, next: S)
    requires Replayed(calls) == Some(m.current)
    ensures Replayed(calls + SwitchCalls(m, next)) == Some(Switched(m, next).current)
  {
    if m.current.Some? {
      ReplayedSnoc(calls, Exit(m.current.value));
      ReplayedSnoc(calls + [Exit(m.current.value)], Enter(next));
      assert calls + SwitchCalls(m, next) == calls + [Exit(m.current.value)] + [Enter(next)];
    } else {
      ReplayedSnoc(calls, Enter(next));
    }
  }

  /** Update keeps the lifecycle well formed and leaves the active state as it was. */
  lemma {:induction false} UpdateWellFormed<S>(calls: seq<Call<S>>, m: Machine<S>)
    requires Replayed(calls) == Some(m.current)
    ensures Replayed(calls + UpdateCalls(m)) == Some(m.current)
  {
    if m.current.Some? {
      ReplayedSnoc(calls, Update(m.current.value));
    } else {
      assert calls + UpdateCalls(m) == calls;
    }
  }

  /**
   * The old state's Exit comes before the new state's Enter, and Enter of
   * `next` is the one Enter and the last call ChangeState makes.
   */
  lemma ExitPrecedesEnter<S>(m: Machine<S>, next: S)
    ensures var calls := SwitchCalls(m, next);
            && calls[|calls| - 1] == Enter(next)
            && (forall i :: 0 <= i < |calls| - 1 ==> calls[i].Exit?)
            && (m.current.Some? <==> |calls| == 2)
            && (m.current.Some? ==> calls[0] == Exit(m.current.value))
  {
  }

  /** ReturnToPreviousState right after ChangeState from a state `c` makes `c` current again. */
  lemma ReturnUndoesSwitch<S>(m: Machine<S>, next: S)
    requires m.current.Some?
    ensures Returned(Switched(m, next)) == Machine(m.current, Some(next))
    ensures ReturnCalls(Switched(m, next)) == [Exit(next), Enter(m.current.value)]
  {
  }

  // ---------------------------------------------------------------------
  // Any sequence of driver operations.
  // ---------------------------------------------------------------------

  /**
   * What a caller can do to a driver: ChangeState, ReturnToPreviousState,
   * or one Update in which the current state asks for `request`.
   */
  datatype Op<S> = ChangeTo(next: S) | ReturnToPrevious | Tick(request: Option<S>)

  function Applied<S>(m: Machine<S>, op: Op<S>): Machine<S>
  {
    match op
    case ChangeTo(next) => Switched(m, next)
    case ReturnToPrevious => Returned(m)
    case Tick(request) => if m.current.Some? && request.Some? then Switched(m, request.value) else m
  }

  function AppliedCalls<S>(m: Machine<S>, op: Op<S>): seq<Call<S>>
  {
    match op
    case ChangeTo(next) => SwitchCalls(m, next)
    case ReturnToPrevious => ReturnCalls(m)
    case Tick(request) =>
      UpdateCalls(m) + (if m.current.Some? && request.Some? then SwitchCalls(m, request.value) else [])
  }

  function Run<S>(m: Machine<S>, ops: seq<Op<S>>): Machine<S>
    decreases |ops|
  {
    if ops == [] then m else Run(Applied(m, ops[0]), ops[1..])
  }

  function RunCalls<S>(m: Machine<S>, ops: seq<Op<S>>): seq<Call<S>>
    decreases |ops|
  {
    if ops == [] then [] else AppliedCalls(m, ops[0]) + RunCalls(Applied(m, ops[0]), ops[1..])
  }

  lemma {:induction false} AppliedWellFormed<S>(calls: seq<Call<S>>, m: Machine<S>, op: Op<S>)
    requires Replayed(calls) == Some(m.current)
    ensures Replayed(calls + AppliedCalls(m, op)) == Some(Applied(m, op).current)
  {
    match op
    case ChangeTo(next) => SwitchWellFormed(calls, m, next);
    case ReturnToPrevious =>
      if m.previous.Some? {
        SwitchWellFormed(calls, m, m.previous.value);
      } else {
        assert calls + AppliedCalls(m, op) == calls;
      }
    case Tick(request) =>
      UpdateWellFormed(calls, m);
      if m.current.Some? && request.Some? {
        SwitchWellFormed(calls + UpdateCalls(m), m, request.value);
        assert calls + AppliedCalls(m, op) == calls + UpdateCalls(m) + SwitchCalls(m, request.value);
      } else {
        assert calls + AppliedCalls(m, op) == calls + UpdateCalls(m);
      }
  }

  lemma RunCallsStep<S>(calls: seq<Call<S>>, m: Machine<S>, ops: seq<Op<S>>)
    requires ops != []
    ensures calls + RunCalls(m, ops) == (calls + AppliedCalls(m, ops[0])) + RunCalls(Applied(m, ops[0]), ops[1..])
  {
  }

  /**
   * Whatever the callers do, the trace of lifecycle calls stays well formed:
   * exactly the driver's current state is active at every point.
   */
  lemma {:induction false} RunWellFormed<S>(calls: seq<Call<S>>, m: Machine<S>, ops: seq<Op<S>>)
    requires Replayed(calls) == Some(m.current)
    ensures Replayed(calls + RunCalls(m, ops)) == Some(Run(m, ops).current)
    decreases |ops|
  {
    if ops == [] {
      assert calls + RunCalls(m, ops) == calls;
    } else {
      RunCallsStep(calls, m, ops);
      AppliedWellFormed(calls, m, ops[0]);
      RunWellFormed(calls + AppliedCalls(m, ops[0]), Applied(m, ops[0]), ops[1..]);
    }
  }

  /** Once a state has been entered, the driver never again has no current state. */
  lemma {:induction false} NeverUnset<S>(m: Machine<S>, ops: seq<Op<S>>)
    requires m.current.Some?
    ensures Run(m, ops).current.Some?
    decreases |ops|
  {
    if ops != [] {
      NeverUnset(Applied(m, ops[0]), ops[1..]);
    }
  }
}
