/**
 * Edge detection: the button loop turns changes between the remembered and
 * the current button states into presses and releases, in index order; a
 * trigger is first compared with a threshold and remembered in a latch so
 * that holding it fires once.
 */
module EdgeDetector {
  import opened Wrappers

  datatype Transition = Pressed(idx: nat) | Released(idx: nat)

  /** `button_states.get(i, False)`. */
  function Previous(states: map<nat, bool>, i: nat): bool {
    if i in states then states[i] else false
  }

  /** The handler, if any, that button `i` runs when its state is `current`. */
  function EdgeAt(states: map<nat, bool>, i: nat, current: bool): seq<Transition> {
    var prev := Previous(states, i);
    if current && !prev then [Pressed(i)]
    else if !current && prev then [Released(i)]
    else []
  }

  /** The handlers the button loop runs over indices `0 .. |current| - 1`, in order. */
  function Edges(states: map<nat, bool>, current: seq<bool>): (r: seq<Transition>)
    ensures |r| <= |current|
    decreases |current|
  {
    if current == [] then []
    else
      var n := |current| - 1;
      Edges(states, current[..n]) + EdgeAt(states, n, current[n])
  }

  /** The remembered states after the loop: `button_states[i] = current[i]` for every index read. */
  function Commit(states: map<nat, bool>, current: seq<bool>): (r: map<nat, bool>)
    ensures forall i: nat :: i < |current| ==> i in r && r[i] == current[i]
    ensures forall i :: i in states && i >= |current| ==> i in r && r[i] == states[i]
    ensures forall i :: i in r ==> i in states || i < |current|
    decreases |current|
  {
    if current == [] then states
    else
      var n := |current| - 1;
      Commit(states, current[..n])[n := current[n]]
  }

  /** The button loop one index further on. */
  lemma EdgesStep(states: map<nat, bool>, current: seq<bool>, i: nat)
    requires i < |current|
    ensures Edges(states, current[..i + 1]) == Edges(states, current[..i]) + EdgeAt(states, i, current[i])
    ensures Commit(states, current[..i + 1]) == Commit(states, current[..i])[i := current[i]]
    ensures Previous(Commit(states, current[..i]), i) == Previous(states, i)
  {
    assert current[..i + 1][..i] == current[..i];
  }

  /**
   * Every handler run is a real change: a press is false to true, a release
   * true to false, for an index that was read; and indices increase.
   */
  lemma {:induction false} EdgesSound(states: map<nat, bool>, current: seq<bool>)
    ensures forall k :: 0 <= k < |Edges(states, current)| ==>
              var t := Edges(states, current)[k];
              && t.idx < |current|
              && Previous(states, t.idx) != current[t.idx]
              && (t.Pressed? <==> current[t.idx])
    ensures forall j, k :: 0 <= j < k < |Edges(states, current)| ==>
              Edges(states, current)[j].idx < Edges(states, current)[k].idx
    decreases |current|
  {
    if current != [] {
      var n := |current| - 1;
      EdgesSound(states, current[..n]);
    }
  }

  /** Every change of an index that was read runs its handler. */
  lemma {:induction false} EdgesComplete(states: map<nat, bool>, current: seq<bool>, i: nat)
    requires i < |current| && Previous(states, i) != current[i]
    ensures (if current[i] then Pressed(i) else Released(i)) in Edges(states, current)
    decreases |current|
  {
    var n := |current| - 1;
    if i < n {
      EdgesComplete(states, current[..n], i);
    }
  }

  /** Equal states run no handler. */
  lemma {:induction false} SteadyStatesRunNothing(states: map<nat, bool>, current: seq<bool>)
    requires forall i: nat :: i < |current| ==> Previous(states, i) == current[i]
    ensures Edges(states, current) == []
    decreases |current|
  {
    if current != [] {
      SteadyStatesRunNothing(states, current[..|current| - 1]);
    }
  }

  /** A button held over two polls runs its press handler once: the second poll runs nothing. */
  lemma HeldButtonFiresOnce(states: map<nat, bool>, current: seq<bool>)
    ensures Edges(Commit(states, current), current) == []
  {
    SteadyStatesRunNothing(Commit(states, current), current);
  }

  const TriggerThreshold: real := 0.5

  /** A trigger axis in [-1, 1] rescaled to [0, 1] by `(a + 1) / 2`. */
  function Rescale(axis: real): real {
    (axis + 1.0) / 2.0
  }

  /**
   * One trigger check: the new latch and the handler it runs, `Some(true)`
   * for a press and `Some(false)` for a release.
   */
  function LatchStep(latched: bool, value: real): (r: (bool, Option<bool>))
    ensures r.0 == (value > TriggerThreshold)
    ensures r.1 == Some(true) <==> value > TriggerThreshold && !latched
    ensures r.1 == Some(false) <==> value <= TriggerThreshold && latched
    ensures r.1.None? <==> latched == (value > TriggerThreshold)
  {
    if value > TriggerThreshold && !latched then (true, Some(true))
    else if value <= TriggerThreshold && latched then (false, Some(false))
    else (latched, None)
  }

  /** A rest position exactly at the threshold is not pressed; 0.51 after rescaling is. */
  lemma ThresholdIsStrict()
    ensures Rescale(0.0) == 0.5 && LatchStep(false, Rescale(0.0)) == (false, None)
    ensures Rescale(0.02) == 0.51 && LatchStep(false, Rescale(0.02)) == (true, Some(true))
  {
  }

  /** The latch after a run of checks and the handlers they ran, in order. */
  function LatchRun(latched: bool, values: seq<real>): (bool, seq<bool>)
    decreases |values|
  {
    if values == [] then (latched, [])
    else
      var before := LatchRun(latched, values[..|values| - 1]);
      var step := LatchStep(before.0, values[|values| - 1]);
      (step.0, before.1 + (if step.1.Some? then [step.1.value] else []))
  }

  /**
   * Hysteresis: the handlers of a run alternate, the first one flips the
   * starting latch, and the final latch is the direction of the last one.
   */
  lemma {:induction false} LatchRunAlternates(latched: bool, values: seq<real>)
    ensures var (fin, fired) := LatchRun(latched, values);
            && (forall k :: 0 <= k < |fired| - 1 ==> fired[k] != fired[k + 1])
            && (fired != [] ==> fired[0] == !latched && fin == fired[|fired| - 1])
            && (fired == [] ==> fin == latched)
    decreases |values|
  {
    if values != [] {
      LatchRunAlternates(latched, values[..|values| - 1]);
    }
  }

  /** Holding a trigger past the threshold from rest fires exactly one press. */
  lemma {:induction false} HeldTriggerFiresOnce(values: seq<real>)
    requires |values| > 0
    requires forall k :: 0 <= k < |values| ==> values[k] > TriggerThreshold
    ensures LatchRun(false, values).0 && LatchRun(false, values).1 == [true]
    decreases |values|
  {
    var n := |values| - 1;
    if n > 0 {
      HeldTriggerFiresOnce(values[..n]);
      assert LatchStep(true, values[n]) == (true, None);
    } else {
      assert values[..n] == [];
    }
  }
}
