/**
 * Properties of any sequence of driver operations, applied one after another
 * with `Driver.Step`.
 */
module Traces {
  import opened Header
  import opened Ranges
  import opened Driver

  /** The state reached from `s` by applying `ops` in order. */
  function Trace(s: State, ops: seq<Op>): State
    decreases |ops|
  {
    if ops == [] then s else Trace(Step(s, ops[0]), ops[1..])
  }

  /** A run state that some operation of the driver assigns. */
  predicate Assignable(r: RunState)
  {
    r == Created || r == Running || r == Paused || r == Stopped
  }

  /** No operation ever puts the driver into Unknown or Ended. */
  lemma {:induction false} TraceKeepsAssignableRunState(s: State, ops: seq<Op>)
    requires Assignable(s.runState)
    ensures Assignable(Trace(s, ops).runState)
    decreases |ops|
  {
    if ops != [] {
      TraceKeepsAssignableRunState(Step(s, ops[0]), ops[1..]);
    }
  }

  lemma NeverUnknownOrEnded(ops: seq<Op>)
    ensures Trace(Initial(), ops).runState != Unknown
    ensures Trace(Initial(), ops).runState != Ended
  {
    TraceKeepsAssignableRunState(Initial(), ops);
  }

  /** At most one indicator output is High after any sequence of operations. */
  lemma {:induction false} TraceKeepsAtMostOneLit(s: State, ops: seq<Op>)
    requires AtMostOneLit(s.leds)
    ensures AtMostOneLit(Trace(s, ops).leds)
    decreases |ops|
  {
    if ops != [] {
      TraceKeepsAtMostOneLit(Step(s, ops[0]), ops[1..]);
    }
  }

  lemma NeverTwoLit(ops: seq<Op>)
    ensures AtMostOneLit(Trace(Initial(), ops).leds)
  {
    TraceKeepsAtMostOneLit(Initial(), ops);
  }

  /**
   * A driver that is not running stays silent until `run` is called: it sends
   * no trigger sequence and does not become Running.
   */
  lemma {:induction false} NoTriggerWithoutRun(s: State, ops: seq<Op>)
    requires s.runState != Running
    requires forall i :: 0 <= i < |ops| ==> !ops[i].RunOp?
    ensures Trace(s, ops).runState != Running
    ensures Trace(s, ops).triggers == s.triggers
    decreases |ops|
  {
    if ops != [] {
      NoTriggerWithoutRun(Step(s, ops[0]), ops[1..]);
    }
  }

  /** The zone setters, the only operations that can change a bound. */
  predicate IsSetter(op: Op)
  {
    op.SetRedOp? || op.SetYellowOp? || op.SetGreenOp?
  }

  /**
   * As long as no bound is reconfigured, signalling is on only over fully
   * configured zones.
   */
  lemma {:induction false} SignalOnlyWhenConfigured(s: State, ops: seq<Op>)
    requires s.signal ==> DistancesSet(s.zones)
    requires forall i :: 0 <= i < |ops| ==> !IsSetter(ops[i])
    ensures Trace(s, ops).signal ==> DistancesSet(Trace(s, ops).zones)
    ensures Trace(s, ops).zones == s.zones
    decreases |ops|
  {
    if ops != [] {
      SignalOnlyWhenConfigured(Step(s, ops[0]), ops[1..]);
    }
  }

  /**
   * The setters do not re-evaluate signalling: undefining a bound after
   * construction leaves signalling on over an unconfigured zone set until the
   * next `run` or `signalOn`.
   */
  lemma SetterLeavesSignalStale()
    ensures Trace(Initial(), [SetRedOp(DISTANCE_UNDEF, DISTANCE_UNDEF)]).signal
    ensures !DistancesSet(Trace(Initial(), [SetRedOp(DISTANCE_UNDEF, DISTANCE_UNDEF)]).zones)
    ensures !Trace(Initial(), [SetRedOp(DISTANCE_UNDEF, DISTANCE_UNDEF), RunOp]).signal
  {
    var unset := SetRedOp(DISTANCE_UNDEF, DISTANCE_UNDEF);
    var s1 := Step(Initial(), unset);
    assert [unset, RunOp][1..] == [RunOp];
    assert Trace(s1, [RunOp]) == Trace(Step(s1, RunOp), []) == Step(s1, RunOp);
    assert Trace(Initial(), [unset, RunOp]) == Trace(s1, [RunOp]);
  }

  /** A run that follows a reconfiguration restores the signalling invariant. */
  lemma RunRestoresSignalInvariant(s: State)
    ensures Step(s, RunOp).signal == DistancesSet(Step(s, RunOp).zones)
  {
  }

  /** Scenario: construct, run, pause; a ping then returns the sentinel and changes nothing. */
  lemma PausedPingReturnsSentinel(duration: Long)
    ensures Trace(Initial(), [RunOp, PauseOp]).runState == Paused
    ensures PingResult(Trace(Initial(), [RunOp, PauseOp]), duration) == ERR_RUNSTATE as real
    ensures Step(Trace(Initial(), [RunOp, PauseOp]), PingOp(duration)) == Trace(Initial(), [RunOp, PauseOp])
  {
    var s := Trace(Initial(), [RunOp, PauseOp]);
    assert s == Initial().(runState := Paused);
    NotRunningPingHoldsOutputs(s, duration);
  }
}
