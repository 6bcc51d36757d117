/**
 * The ability gate EnemyAI keeps three times over (charge, melee, laser):
 * a `can*` flag and a `last*Time` stamp.  The gate opens only when the
 * flag is set AND at least the cooldown has passed since the stamp;
 * starting the ability clears the flag, resetting the cooldown stamps the
 * current time and sets the flag again.
 */
module Cooldown {

  datatype Gate = Gate(ready: bool, lastTime: real)

  /**
   * `Can*()`: the flag is set and `now - last*Time >= cooldown`.  A clear
   * flag closes the gate whatever the time; with the flag set the gate is
   * open exactly from `last*Time + cooldown` on.
   */
  predicate IsReady(g: Gate, cooldown: real, now: real)
    ensures !g.ready ==> !IsReady(g, cooldown, now)
    ensures g.ready ==> (IsReady(g, cooldown, now) <==> now >= g.lastTime + cooldown)
  {
    g.ready && now - g.lastTime >= cooldown
  }

  /** An open gate that nothing touches stays open at every later time. */
  lemma StaysOpen(g: Gate, cooldown: real, now: real, later: real)
    requires IsReady(g, cooldown, now) && now <= later
    ensures IsReady(g, cooldown, later)
  {
  }

  /** `Start*()`: clears the flag only. */
  function Started(g: Gate): (r: Gate)
    ensures r.lastTime == g.lastTime
    ensures forall cooldown, now :: !IsReady(r, cooldown, now)
  {
    g.(ready := false)
  }

  /** `Reset*Cooldown()` at time `t`: stamps `t` and sets the flag. */
  function Reset(g: Gate, t: real): (r: Gate)
    ensures forall cooldown, now :: IsReady(r, cooldown, now) <==> now >= t + cooldown
  {
    Gate(true, t)
  }

  /** What can happen to a gate between two queries. */
  datatype GateOp = Start | ResetAt(t: real)

  function Apply(g: Gate, ops: seq<GateOp>): Gate
    decreases |ops|
  {
    if ops == [] then g
    else Apply(match ops[0] case Start => Started(g) case ResetAt(t) => Reset(g, t), ops[1..])
  }

  predicate NoReset(ops: seq<GateOp>)
  {
    forall i :: 0 <= i < |ops| ==> ops[i].Start?
  }

  /**
   * A gate whose flag is clear stays closed, at every time and for every
   * cooldown, until a reset: a started ability cannot be retried early.
   */
  lemma {:induction false} ClosedUntilReset(g: Gate, ops: seq<GateOp>, cooldown: real, now: real)
    requires !g.ready
    requires NoReset(ops)
    ensures !IsReady(Apply(g, ops), cooldown, now)
    ensures Apply(g, ops).lastTime == g.lastTime
    decreases |ops|
  {
    if ops != [] {
      assert ops[0].Start?;
      assert NoReset(ops[1..]) by {
        forall i | 0 <= i < |ops[1..]| ensures ops[1..][i].Start? {
          assert ops[1..][i] == ops[i + 1];
        }
      }
      ClosedUntilReset(Started(g), ops[1..], cooldown, now);
    }
  }

  /**
   * After a reset at `t` followed only by queries, the gate is closed
   * strictly before `t + cooldown` and open from then on; the last reset of
   * a sequence is the one that counts.
   */
  lemma {:induction false} LastResetDecides(g: Gate, ops: seq<GateOp>, t: real, cooldown: real, now: real)
    requires |ops| > 0 && ops[|ops| - 1] == ResetAt(t)
    ensures IsReady(Apply(g, ops), cooldown, now) <==> now >= t + cooldown
    decreases |ops|
  {
    if |ops| == 1 {
    } else {
      var g' := match ops[0] case Start => Started(g) case ResetAt(t0) => Reset(g, t0);
      assert ops[1..][|ops[1..]| - 1] == ops[|ops| - 1];
      LastResetDecides(g', ops[1..], t, cooldown, now);
    }
  }

  /**
   * The worked example with a 10 s cooldown: started at 0, reset at 1.5,
   * the gate is still closed at 10 (only 8.5 s since the reset) and open
   * at 11.5.
   */
  lemma ScenarioC(g: Gate)
    ensures var g' := Reset(Started(g), 1.5);
            !IsReady(Started(g), 10.0, 1.5) && !IsReady(g', 10.0, 10.0) && IsReady(g', 10.0, 11.5)
  {
  }
}
