/**
 Terminal receipts are not quite absorbing.  The root live receipt of a promotion and the archived
 run of a preparation are published inside the exception handler's reach, so a failing publication
 rewrites the terminal receipt just written, after rolling a live release back.  So does the receipt's
 own write, if it raises although it took hold.  Terminal receipts never change exactly when neither
 raises.
 */
module DeploymentReceipts {
  import opened Prelude
  import opened Deadline
  import opened Deployment
  import opened DeploymentSafety

  /** An exception at or after the instruction that writes the terminal receipt. */
  ghost predicate LateRaise(setup: Setup, s: State, step: Step) {
    step.Raise? && s.process.Running? && s.process.at >= FinishAt(setup)
  }

  ghost predicate Undisturbed(setup: Setup, states: seq<State>, steps: seq<Step>)
    requires |states| == |steps| + 1
  {
    forall i :: 0 <= i < |steps| ==> !LateRaise(setup, states[i], steps[i])
  }

  ghost predicate IsFinal(s: State) {
    s.marker.Some? && Terminal(s.marker.value.state)
  }

  ghost predicate Quiet(setup: Setup, s: State) {
    IsFinal(s) ==> s.process.Off? || s.process.Closing? || (s.process.Running? && s.process.at > FinishAt(setup))
  }

  lemma QuietStep(setup: Setup, s: State, step: Step, t: State)
    requires Inv(setup, s) && Quiet(setup, s) && Next(setup, s, step, t) && !LateRaise(setup, s, step)
    ensures Quiet(setup, t) && (IsFinal(s) ==> t.marker == s.marker)
  {
    if s.process.Running? {
      Layout(setup, s.process.at);
    }
  }

  lemma {:induction false} QuietRun(setup: Setup, states: seq<State>, steps: seq<Step>, i: nat)
    requires Run(setup, states, steps) && Undisturbed(setup, states, steps) && i <= |steps|
    ensures Inv(setup, states[i]) && Quiet(setup, states[i])
  {
    RunKeeps(setup, states, steps, i);
    if i > 0 {
      QuietRun(setup, states, steps, i - 1);
      QuietStep(setup, states[i - 1], steps[i - 1], states[i]);
    }
  }

  lemma FinalStep(setup: Setup, states: seq<State>, steps: seq<Step>, i: nat)
    requires Run(setup, states, steps) && Undisturbed(setup, states, steps) && i < |steps| && IsFinal(states[i])
    ensures states[i + 1].marker == states[i].marker
  {
    QuietRun(setup, states, steps, i);
    QuietStep(setup, states[i], steps[i], states[i + 1]);
  }

  lemma {:induction false} SameMarker(states: seq<State>, i: nat, j: nat)
    requires i <= j < |states| && IsFinal(states[i])
    requires forall k :: i <= k < j && IsFinal(states[k]) ==> states[k + 1].marker == states[k].marker
    ensures states[j].marker == states[i].marker
    decreases j
  {
    if i < j {
      SameMarker(states, i, j - 1);
      assert states[j - 1 + 1].marker == states[j - 1].marker;
    }
  }

  lemma FinalStays(setup: Setup, states: seq<State>, steps: seq<Step>, i: nat, j: nat)
    requires Run(setup, states, steps) && Undisturbed(setup, states, steps) && i <= j <= |steps| && IsFinal(states[i])
    ensures states[j].marker == states[i].marker
  {
    forall k | i <= k < j && IsFinal(states[k]) ensures states[k + 1].marker == states[k].marker {
      FinalStep(setup, states, steps, k);
    }
    SameMarker(states, i, j);
  }

  // ---------- A publication that raises ----------

  /** The release can complete: its push has a clock, and a live proof of its targets exists. */
  ghost predicate Completes(setup: Setup, proof: Proof) {
    setup.manifest.pushedAt > 0.0 && (!setup.warm ==> CheckedTargets(setup.manifest, proof))
  }

  /** `s` is about to execute instruction `k`, at the very moment of the push. */
  ghost predicate Reached(setup: Setup, proof: Proof, s: State, k: nat) {
    && s.clock == Clock(setup.manifest.pushedAt, 0.0)
    && s.process.Running? && s.process.at == k && s.process.deadline.built == s.clock
    && s.process.deadline.cap >= setup.manifest.pushedAt + ACTIVATION_SECONDS
    && (k > 16 ==> s.proof == Some(proof)) && forall g :: 0 <= g < |s.log| ==> !s.log[g].action.RunRollback?
  }

  ghost predicate Ends(setup: Setup, states: seq<State>, steps: seq<Step>, s: State) {
    Run(setup, states, steps) && states[|steps|] == s
  }

  lemma Extend(setup: Setup, states: seq<State>, steps: seq<Step>, s: State, step: Step, t: State)
    requires Ends(setup, states, steps, s) && Next(setup, s, step, t)
    ensures Ends(setup, states + [t], steps + [step], t)
  {
    forall i | 0 <= i < |steps + [step]|
      ensures Next(setup, (states + [t])[i], (steps + [step])[i], (states + [t])[i + 1])
    {
      if i < |steps| {
        assert (states + [t])[i + 1] == states[i + 1];
      }
    }
  }

  ghost predicate Straight(steps: seq<Step>) {
    forall k :: 0 <= k < |steps| ==> steps[k].Begin? || steps[k].Lock? || steps[k].Advance? || steps[k].WriteProof?
  }

  lemma ReachFirst(setup: Setup, proof: Proof) returns (states: seq<State>, steps: seq<Step>, s: State)
    requires setup.manifest.pushedAt > 0.0
    ensures Ends(setup, states, steps, s) && Reached(setup, proof, s, 0) && Straight(steps)
  {
    var clock := Clock(setup.manifest.pushedAt, 0.0);
    var d := Start(setup.manifest.pushedAt, Limit(setup), clock).value;
    var r := Receipt(Queued, false, None, None);
    var s0 := State(clock, None, None, None, [], [], Off);
    var s1 := s0.(marker := Some(r), process := Waiting(r, d));
    s := s1.(process := Running(0, r, d));
    states, steps := [s0], [];
    Extend(setup, states, steps, s0, Begin, s1);
    states, steps := states + [s1], steps + [Begin];
    Extend(setup, states, steps, s1, Lock, s);
    states, steps := states + [s], steps + [Lock];
  }

  lemma ReachNext(setup: Setup, proof: Proof, s: State, k: nat) returns (t: State)
    requires Inv(setup, s) && Reached(setup, proof, s, k) && k <= FinishAt(setup)
    requires (k == 16 ==> s.proof == Some(proof)) && (k >= PROVE ==> Completes(setup, proof))
    ensures Next(setup, s, Advance, t) && Reached(setup, proof, t, k + 1)
  {
    Layout(setup, k);
    var i := Program(setup)[k];
    assert InTime(setup, i, s.process.deadline, s.clock);
    t := Effect(setup, s, i).(process := Running(k + 1, InMemory(i, s.process.receipt), DeadlineIn(setup, i, s.process.deadline)));
  }

  lemma {:induction false} Reach(setup: Setup, proof: Proof, k: nat) returns (states: seq<State>, steps: seq<Step>, s: State)
    requires setup.manifest.pushedAt > 0.0 && k <= FinishAt(setup) + 1 && (k > PROVE ==> Completes(setup, proof))
    ensures Ends(setup, states, steps, s) && Reached(setup, proof, s, k) && Straight(steps)
  {
    if k == 0 {
      states, steps, s := ReachFirst(setup, proof);
    } else {
      states, steps, s := Reach(setup, proof, k - 1);
      if k == 17 {
        var p := s.(proof := Some(proof));
        Extend(setup, states, steps, s, WriteProof(proof), p);
        states, steps, s := states + [p], steps + [WriteProof(proof)], p;
      }
      RunKeeps(setup, states, steps, |steps|);
      var t := ReachNext(setup, proof, s, k - 1);
      Extend(setup, states, steps, s, Advance, t);
      states, steps, s := states + [t], steps + [Advance], t;
    }
  }

  /** The terminal receipt is durable, its publication raises, and the handler starts. */
  lemma PublicationRaises(setup: Setup, proof: Proof) returns (states: seq<State>, steps: seq<Step>, s: State)
    requires Completes(setup, proof)
    ensures Ends(setup, states, steps, s) && IsFinal(s)
    ensures s.marker.value.state == if setup.warm then Warmed else Live
    ensures if setup.warm then s.process.Recording? && s.process.receipt.state.Failed?
            else s.process.Restoring? && s.process.deadline.built == s.clock && s.clock == Clock(setup.manifest.pushedAt, 0.0)
  {
    var u;
    states, steps, u := Reach(setup, proof, FinishAt(setup) + 1);
    RunKeeps(setup, states, steps, |steps|);
    Layout(setup, FinishAt(setup) + 1);
    var failed := Raised(u.process.receipt);
    s := u.(process := if failed.activationStarted then Restoring(failed, u.process.deadline) else Recording(failed));
    Extend(setup, states, steps, u, Raise(false), s);
    states, steps := states + [s], steps + [Raise(false)];
  }

  /** A live release is rolled back while its durable receipt still says live, and says so forever. */
  lemma LiveReceiptOfRestoredRelease(setup: Setup, proof: Proof) returns (states: seq<State>, steps: seq<Step>, s: State)
    requires Completes(setup, proof) && !setup.warm
    ensures Ends(setup, states, steps, s) && s.process.Off? && s.marker.Some? && s.marker.value.state.Live?
    ensures |s.log| > 0 && s.log[|s.log| - 1].action.RunRollback?
  {
    var u;
    states, steps, u := PublicationRaises(setup, proof);
    RunKeeps(setup, states, steps, |steps|);
    var d := u.process.deadline.(cap := u.process.deadline.ends);
    var v := u.(log := u.log + [Granted(RunRollback, d, false, u.clock)],
                process := Recording(u.process.receipt.(rollback := Some(true))));
    Extend(setup, states, steps, u, Rollback(true, true), v);
    states, steps := states + [v], steps + [Rollback(true, true)];
    s := v.(process := Off);
    Extend(setup, states, steps, v, Crash, s);
    states, steps := states + [s], steps + [Crash];
  }

  /** A terminal receipt is rewritten. */
  lemma FinalRewritten(setup: Setup, proof: Proof) returns (states: seq<State>, steps: seq<Step>, i: nat, j: nat)
    requires Completes(setup, proof)
    ensures Run(setup, states, steps) && i <= j <= |steps| && IsFinal(states[i]) && states[j].marker != states[i].marker
  {
    var u;
    states, steps, u := PublicationRaises(setup, proof);
    i := |steps|;
    RunKeeps(setup, states, steps, |steps|);
    if !setup.warm {
      var v := u.(process := Recording(u.process.receipt.(rollback := Some(false))));
      Extend(setup, states, steps, u, Rollback(false, false), v);
      states, steps, u := states + [v], steps + [Rollback(false, false)], v;
    }
    RunKeeps(setup, states, steps, |steps|);
    var w := u.(marker := Some(u.process.receipt), process := Closing(u.process.receipt));
    Extend(setup, states, steps, u, Record, w);
    states, steps := states + [w], steps + [Record];
    j := |steps|;
  }

  /** With `disturbed`, writing and publishing a terminal receipt may raise; no terminal receipt ever changes. */
  ghost predicate Absorbing(setup: Setup, disturbed: bool) {
    forall states: seq<State>, steps: seq<Step>, i: nat, j: nat |
      Run(setup, states, steps) && (disturbed || Undisturbed(setup, states, steps)) && i <= j <= |steps| && IsFinal(states[i]) ::
      states[j].marker == states[i].marker
  }

  /** Terminal receipts are absorbing exactly when neither their write nor their publication raises. */
  lemma AbsorbingExactly(setup: Setup, proof: Proof, disturbed: bool)
    requires Completes(setup, proof)
    ensures Absorbing(setup, disturbed) <==> !disturbed
  {
    if disturbed {
      var states, steps, i, j := FinalRewritten(setup, proof);
    } else {
      forall states: seq<State>, steps: seq<Step>, i: nat, j: nat |
        Run(setup, states, steps) && Undisturbed(setup, states, steps) && i <= j <= |steps| && IsFinal(states[i])
        ensures states[j].marker == states[i].marker
      {
        FinalStays(setup, states, steps, i, j);
      }
    }
  }
}
