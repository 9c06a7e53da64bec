/** Safety of deployments over every sequence of interrupted and restarted processes. */
module DeploymentSafety {
  import opened Prelude
  import opened Deadline
  import opened Deployment

  const ARM := 12
  const ACTIVATE := 13
  const PROVE := 17
  const CHECK := 19
  const FINISH := 20

  function Activations(log: seq<Grant>): nat {
    if log == [] then 0
    else Activations(log[..|log| - 1]) + if log[|log| - 1].action.RunActivate? then 1 else 0
  }

  lemma Appended(log: seq<Grant>, g: Grant)
    ensures Activations(log + [g]) == Activations(log) + if g.action.RunActivate? then 1 else 0
  {
    assert (log + [g])[..|log|] == log;
  }

  function FinishAt(setup: Setup): nat {
    if setup.warm then 11 else FINISH
  }

  ghost predicate Valid(setup: Setup, now: Clock, d: Terms) {
    Built(d, Limit(setup)) && d.pushedAt == setup.manifest.pushedAt && now.monotonic >= d.built.monotonic
  }

  /** The live proof of the manifest is on disk and the last check was in time. */
  ghost predicate Proven(setup: Setup, s: State) {
    && s.proof.Some? && CheckedTargets(setup.manifest, s.proof.value)
    && s.checked.Some? && s.checked.value < ACTIVATION_SECONDS
  }

  ghost predicate InBounds(setup: Setup, g: Grant) {
    if setup.warm then g.ends <= PREPARATION_SECONDS - (LIMIT_SECONDS - ACTIVATION_SECONDS)
    else if g.action.RunRollback? then g.ends <= LIMIT_SECONDS
    else g.ends <= ACTIVATION_SECONDS
  }

  ghost predicate LogAgrees(setup: Setup, log: seq<Grant>) {
    forall i :: 0 <= i < |log| ==> InBounds(setup, log[i])
  }

  ghost predicate RunningAgrees(setup: Setup, s: State)
    requires s.process.Running? && s.marker.Some?
  {
    var at, r, m := s.process.at, s.process.receipt, s.marker.value;
    && at < |Program(setup)|
    && r.activationStarted == m.activationStarted
    && (r.activationStarted <==> !setup.warm && at > ARM)
    && (at <= ACTIVATE ==> Activations(s.log) == 0)
    && (at > 0 && at <= FinishAt(setup) ==> !Terminal(r.state) && !Terminal(m.state))
    && (at == 0 ==> m == r && !Terminal(r.state))
    && (at > FinishAt(setup) ==> m == r && r.state == if setup.warm then Warmed else Live)
    && (!setup.warm && at > PROVE ==> s.proof.Some? && CheckedTargets(setup.manifest, s.proof.value))
    && (!setup.warm && at > CHECK ==> Proven(setup, s))
  }

  ghost predicate ProcessAgrees(setup: Setup, s: State) {
    match s.process
    case Off => true
    case Waiting(r, d) => s.marker == Some(r) && !Terminal(r.state) && Valid(setup, s.clock, d)
    case Running(at, r, d) =>
      s.marker.Some? && Valid(setup, s.clock, d) && RunningAgrees(setup, s)
    case Restoring(r, d) =>
      s.marker.Some? && r.state.Failed? && r.activationStarted && !setup.warm && Valid(setup, s.clock, d)
    case Recording(r) =>
      s.marker.Some? && r.state.Failed? && (s.marker.value.activationStarted ==> r.activationStarted) && (r.activationStarted ==> !setup.warm)
    case Closing(r) => s.marker == Some(r) && Terminal(r.state)
  }

  ghost predicate Inv(setup: Setup, s: State) {
    && Activations(s.log) <= 1
    && (Activations(s.log) == 1 ==> s.marker.Some? && s.marker.value.activationStarted)
    && (s.marker.Some? && s.marker.value.activationStarted ==> !setup.warm)
    && (s.marker.Some? && s.marker.value.state.Live? ==> Proven(setup, s))
    && LogAgrees(setup, s.log)
    && ProcessAgrees(setup, s)
  }

  /** Where the decisive instructions stand. */
  lemma Layout(setup: Setup, at: nat)
    requires at < |Program(setup)|
    ensures var i := Program(setup)[at];
            && (i.Arm? <==> !setup.warm && at == ARM)
            && (i == Invoke(RunActivate) <==> !setup.warm && at == ACTIVATE)
            && (i.Prove? <==> !setup.warm && at == PROVE)
            && (i.CheckDeadline? <==> !setup.warm && at == CHECK)
            && (i.Finish? <==> at == FinishAt(setup))
            && (i.Publish? <==> at == FinishAt(setup) + 1)
            && (i.Finish? ==> i.outcome == if setup.warm then Warmed else Live)
            && (i.Enter? ==> !Terminal(i.stage)) && i != Invoke(RunRollback)
            && (at + 1 == |Program(setup)| <==> at == FinishAt(setup) + 1)
  {
  }

  lemma AdvanceWriteKeeps(setup: Setup, s: State, t: State)
    requires Inv(setup, s) && Next(setup, s, Advance, t) && Writes(Program(setup)[s.process.at])
    ensures Inv(setup, t)
  {
    Layout(setup, s.process.at);
  }

  /** A command granted under a valid deadline ends in bounds, and the log grows by it. */
  lemma GrantKeeps(setup: Setup, log: seq<Grant>, action: Action, d: Terms, activation: bool, now: Clock)
    requires Valid(setup, now, d) && Remaining(d, activation, now).Ok? && LogAgrees(setup, log)
    requires activation || (action.RunRollback? && !setup.warm)
    ensures var g := Granted(action, d, activation, now);
            LogAgrees(setup, log + [g]) && Activations(log + [g]) == Activations(log) + if action.RunActivate? then 1 else 0
  {
    GrantEnds(d, Limit(setup), activation, now);
    Appended(log, Granted(action, d, activation, now));
  }

  lemma AdvanceCommandKeeps(setup: Setup, s: State, t: State)
    requires Inv(setup, s) && Next(setup, s, Advance, t) && Program(setup)[s.process.at].Invoke?
    ensures Inv(setup, t)
  {
    Layout(setup, s.process.at);
    GrantKeeps(setup, s.log, Program(setup)[s.process.at].action, s.process.deadline, true, s.clock);
  }

  lemma AdvanceOtherKeeps(setup: Setup, s: State, t: State)
    requires Inv(setup, s) && Next(setup, s, Advance, t)
    requires !Program(setup)[s.process.at].Invoke? && !Writes(Program(setup)[s.process.at])
    ensures Inv(setup, t)
  {
    Layout(setup, s.process.at);
    if Program(setup)[s.process.at].CheckDeadline? {
      GrantEnds(s.process.deadline, Limit(setup), true, s.clock);
    }
  }

  lemma AdvanceKeeps(setup: Setup, s: State, t: State)
    requires Inv(setup, s) && Next(setup, s, Advance, t)
    ensures Inv(setup, t)
  {
    if Writes(Program(setup)[s.process.at]) {
      AdvanceWriteKeeps(setup, s, t);
    } else if Program(setup)[s.process.at].Invoke? {
      AdvanceCommandKeeps(setup, s, t);
    } else {
      AdvanceOtherKeeps(setup, s, t);
    }
  }

  /** An exception that leaves the durable state as it is. */
  lemma RaiseIdleKeeps(setup: Setup, s: State, effect: bool, t: State)
    requires Inv(setup, s) && Next(setup, s, Raise(effect), t)
    requires effect ==> !Writes(Program(setup)[s.process.at]) && !Program(setup)[s.process.at].Invoke?
    ensures Inv(setup, t)
  {
    Layout(setup, s.process.at);
  }

  /** An exception after the marker was written. */
  lemma RaiseWriteKeeps(setup: Setup, s: State, t: State)
    requires Inv(setup, s) && Next(setup, s, Raise(true), t) && Writes(Program(setup)[s.process.at])
    ensures Inv(setup, t)
  {
    Layout(setup, s.process.at);
  }

  /** An exception after a command was started. */
  lemma RaiseCommandKeeps(setup: Setup, s: State, t: State)
    requires Inv(setup, s) && Next(setup, s, Raise(true), t) && Program(setup)[s.process.at].Invoke?
    ensures Inv(setup, t)
  {
    Layout(setup, s.process.at);
    GrantKeeps(setup, s.log, Program(setup)[s.process.at].action, s.process.deadline, true, s.clock);
  }

  lemma RaiseKeeps(setup: Setup, s: State, effect: bool, t: State)
    requires Inv(setup, s) && Next(setup, s, Raise(effect), t)
    ensures Inv(setup, t)
  {
    if effect && Writes(Program(setup)[s.process.at]) {
      RaiseWriteKeeps(setup, s, t);
    } else if effect && Program(setup)[s.process.at].Invoke? {
      RaiseCommandKeeps(setup, s, t);
    } else {
      RaiseIdleKeeps(setup, s, effect, t);
    }
  }

  lemma BuildKeeps(setup: Setup, s: State, t: State)
    requires Inv(setup, s) && Next(setup, s, BuildOne, t)
    ensures Inv(setup, t)
  {
    Layout(setup, s.process.at);
    GrantKeeps(setup, s.log, RunBuild, s.process.deadline, true, s.clock);
  }

  lemma RollbackKeeps(setup: Setup, s: State, step: Step, t: State)
    requires Inv(setup, s) && Next(setup, s, step, t) && step.Rollback?
    ensures Inv(setup, t)
  {
    if step.started {
      var d := s.process.deadline.(cap := s.process.deadline.ends);
      assert Valid(setup, s.clock, d);
      GrantKeeps(setup, s.log, RunRollback, d, false, s.clock);
    }
  }

  lemma OtherKeeps(setup: Setup, s: State, step: Step, t: State)
    requires Inv(setup, s) && Next(setup, s, step, t)
    requires !step.Advance? && !step.Raise? && !step.BuildOne? && !step.Rollback?
    ensures Inv(setup, t)
  {
  }

  lemma StepKeeps(setup: Setup, s: State, step: Step, t: State)
    requires Inv(setup, s) && Next(setup, s, step, t)
    ensures Inv(setup, t)
  {
    match step
    case Advance => AdvanceKeeps(setup, s, t);
    case Raise(effect) => RaiseKeeps(setup, s, effect, t);
    case BuildOne => BuildKeeps(setup, s, t);
    case Rollback(_, _) => RollbackKeeps(setup, s, step, t);
    case _ => OtherKeeps(setup, s, step, t);
  }

  lemma {:induction false} RunKeeps(setup: Setup, states: seq<State>, steps: seq<Step>, i: nat)
    requires Run(setup, states, steps) && i <= |steps|
    ensures Inv(setup, states[i])
  {
    if i > 0 {
      RunKeeps(setup, states, steps, i - 1);
      StepKeeps(setup, states[i - 1], steps[i - 1], states[i]);
    }
  }

  /** Activation runs at most once per release, over all processes that ever worked on it. */
  lemma ActivatesAtMostOnce(setup: Setup, states: seq<State>, steps: seq<Step>, i: nat)
    requires Run(setup, states, steps) && i <= |steps|
    ensures Activations(states[i].log) <= 1
  {
    RunKeeps(setup, states, steps, i);
  }

  /** It starts only after its journal is durable. */
  lemma ActivationIsJournaled(setup: Setup, states: seq<State>, steps: seq<Step>, i: nat)
    requires Run(setup, states, steps) && i < |steps|
    requires Activations(states[i + 1].log) != Activations(states[i].log)
    ensures states[i].marker.Some? && states[i].marker.value.activationStarted
  {
    RunKeeps(setup, states, steps, i);
    var s, t := states[i], states[i + 1];
    assert Next(setup, s, steps[i], t);
    if |t.log| > |s.log| {
      assert t.log == s.log + [t.log[|s.log|]];
      Appended(s.log, t.log[|s.log|]);
      if s.process.Running? {
        Layout(setup, s.process.at);
      }
    }
  }

  /** Every command ever granted ends in its budget, counted from the push. */
  lemma GrantsInBounds(setup: Setup, states: seq<State>, steps: seq<Step>, i: nat, k: nat)
    requires Run(setup, states, steps) && i <= |steps| && k < |states[i].log|
    ensures InBounds(setup, states[i].log[k])
  {
    RunKeeps(setup, states, steps, i);
  }

  // ---------- The proof behind a live receipt ----------

  lemma {:induction false} KindIsUnique(targets: seq<Target>, i: nat)
    requires i < |targets| && forall a, b :: 0 <= a < b < |targets| ==> targets[a].id != targets[b].id
    ensures KindOf(targets, targets[i].id) == Some(targets[i].kind)
  {
    if i < |targets| - 1 {
      KindIsUnique(targets[..|targets| - 1], i);
    }
  }

  ghost predicate ProvedOnce(m: Manifest, proof: Proof, i: nat)
    requires i < |m.targets|
  {
    exists k :: 0 <= k < |proof.targets| && proof.targets[k].id == m.targets[i].id &&
                proof.targets[k].kind == m.targets[i].kind && RowReady(proof.targets[k]) &&
                forall j :: 0 <= j < |proof.targets| && proof.targets[j].id == m.targets[i].id ==> j == k
  }

  /** An accepted proof has exactly one ready row of the right kind for every target, and no others. */
  lemma CheckedProvesEachOnce(m: Manifest, proof: Proof)
    requires CheckedTargets(m, proof)
    ensures forall i :: 0 <= i < |m.targets| ==> ProvedOnce(m, proof, i)
    ensures forall k :: 0 <= k < |proof.targets| ==> exists i :: 0 <= i < |m.targets| && m.targets[i].id == proof.targets[k].id
  {
    FullImpliesDistinct(TargetIds(m.targets));
    FullImpliesDistinct(ProvedIds(proof.targets));
    forall a, b | 0 <= a < b < |m.targets| ensures m.targets[a].id != m.targets[b].id {
      assert TargetIds(m.targets)[a] != TargetIds(m.targets)[b];
    }
    forall i | 0 <= i < |m.targets| ensures ProvedOnce(m, proof, i) {
      TargetRow(m, proof, i);
    }
    forall k | 0 <= k < |proof.targets| ensures exists i :: 0 <= i < |m.targets| && m.targets[i].id == proof.targets[k].id {
      assert ProvedIds(proof.targets)[k] in Elements(TargetIds(m.targets));
    }
  }

  lemma TargetRow(m: Manifest, proof: Proof, i: nat)
    requires CheckedTargets(m, proof) && i < |m.targets| && Distinct(ProvedIds(proof.targets))
    requires forall a, b :: 0 <= a < b < |m.targets| ==> m.targets[a].id != m.targets[b].id
    ensures ProvedOnce(m, proof, i)
  {
    var ids := ProvedIds(proof.targets);
    assert TargetIds(m.targets)[i] in Elements(ids);
    var k :| 0 <= k < |ids| && ids[k] == m.targets[i].id;
    forall j | 0 <= j < |proof.targets| && proof.targets[j].id == m.targets[i].id ensures j == k {
      assert ids[j] == ids[k];
    }
    KindIsUnique(m.targets, i);
  }

  /** A live receipt: every manifest target was proved exactly once, and the last check was before 540 s. */
  lemma LiveIsProven(setup: Setup, states: seq<State>, steps: seq<Step>, i: nat)
    requires Run(setup, states, steps) && i <= |steps|
    requires states[i].marker.Some? && states[i].marker.value.state.Live?
    ensures states[i].proof.Some? && states[i].proof.value.releaseId == setup.manifest.releaseId
    ensures forall k :: 0 <= k < |setup.manifest.targets| ==> ProvedOnce(setup.manifest, states[i].proof.value, k)
    ensures states[i].checked.Some? && states[i].checked.value < ACTIVATION_SECONDS
  {
    RunKeeps(setup, states, steps, i);
    CheckedProvesEachOnce(setup.manifest, states[i].proof.value);
  }

  // ---------- Restarts ----------

  /** The journal is durable and no process is executing the normal program. */
  ghost predicate Interrupted(setup: Setup, s: State) {
    && Inv(setup, s) && s.marker.Some? && s.marker.value.activationStarted && !s.process.Running?
  }

  lemma InterruptedStep(setup: Setup, s: State, step: Step, t: State)
    requires Interrupted(setup, s) && Next(setup, s, step, t)
    ensures Interrupted(setup, t)
    ensures t.log == s.log || (|t.log| == |s.log| + 1 && t.log[..|s.log|] == s.log && t.log[|s.log|].action.RunRollback?)
  {
    StepKeeps(setup, s, step, t);
  }

  /**
   Once a process stopped with the activation journaled, whatever later processes do to this
   release is restoration: the only commands they start are rollbacks.
   */
  lemma {:induction false} OnlyRollbackAfterInterruption(setup: Setup, states: seq<State>, steps: seq<Step>, i: nat, j: nat)
    requires Run(setup, states, steps) && i <= j <= |steps|
    requires states[i].process.Off? && states[i].marker.Some? && states[i].marker.value.activationStarted
    ensures Interrupted(setup, states[j])
    ensures |states[i].log| <= |states[j].log| && states[j].log[..|states[i].log|] == states[i].log
    ensures forall k :: |states[i].log| <= k < |states[j].log| ==> states[j].log[k].action.RunRollback?
    decreases j
  {
    if i == j {
      RunKeeps(setup, states, steps, i);
    } else {
      OnlyRollbackAfterInterruption(setup, states, steps, i, j - 1);
      InterruptedStep(setup, states[j - 1], steps[j - 1], states[j]);
    }
  }

  /** No process works on the release any more, and its receipt is final. */
  ghost predicate Settled(s: State, r: Receipt) {
    s.process.Off? && s.marker == Some(r) && Terminal(r.state)
  }

  /** A receipt found terminal by a new process is returned unchanged by every process from then on. */
  lemma {:induction false} TerminalReturnedForever(setup: Setup, states: seq<State>, steps: seq<Step>, i: nat, j: nat, r: Receipt)
    requires Run(setup, states, steps) && i <= j <= |steps| && Settled(states[i], r)
    ensures Settled(states[j], r) && states[j].log == states[i].log
    ensures |states[i].returned| <= |states[j].returned|
    ensures forall k :: |states[i].returned| <= k < |states[j].returned| ==> states[j].returned[k] == r
    decreases j
  {
    if i < j {
      TerminalReturnedForever(setup, states, steps, i, j - 1, r);
      assert Next(setup, states[j - 1], steps[j - 1], states[j]);
    }
  }
}
