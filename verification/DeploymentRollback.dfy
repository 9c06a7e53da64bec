/**
 When a failed release whose activation had started was rolled back.  A process that restarts on an
 interrupted activation but cannot get the lock in time records failure without restoring anything,
 and an attempted rollback may not get its command started.
 */
module DeploymentRollback {
  import opened Prelude
  import opened Deadline
  import opened Deployment
  import opened DeploymentSafety
  import opened DeploymentReceipts

  /** Failure is recorded for a release whose activation had started. */
  ghost predicate FailedArmed(s: State) {
    s.marker.Some? && s.marker.value.state.Failed? && s.marker.value.activationStarted
  }

  /** A rollback command was started. */
  ghost predicate Invoked(log: seq<Grant>) {
    exists k :: 0 <= k < |log| && log[k].action.RunRollback?
  }

  /** A process gives up waiting for the lock although an activation was interrupted. */
  ghost predicate ArmedTimeout(s: State, step: Step) {
    step.QueueTimeout? && s.process.Waiting? && s.process.receipt.activationStarted
  }

  /** An attempted rollback does not get its command started. */
  ghost predicate Unstarted(step: Step) {
    step.Rollback? && !step.started
  }

  // ---------- What the receipt tells ----------

  /** What has happened so far in a run. */
  datatype History = History(gaveUp: bool, unstarted: bool, started: bool)

  ghost function Extended(s: State, step: Step, h: History): History {
    History(h.gaveUp || ArmedTimeout(s, step), h.unstarted || Unstarted(step), h.started || (step.Rollback? && step.started))
  }

  /** What the `rollback` field of a receipt says. */
  ghost predicate Reports(r: Receipt, h: History) {
    && (!r.state.Failed? ==> r.rollback.None?)
    && (r.rollback == Some(true) ==> h.started)
    && (r.rollback.Some? ==> h.started || h.unstarted)
  }

  ghost predicate ProcessReports(s: State, h: History) {
    match s.process
    case Off => true
    case Waiting(r, _) => r.rollback.None? && s.marker == Some(r)
    case Running(_, r, _) => r.rollback.None? && !r.state.Failed?
    case Restoring(r, _) => r.rollback.None?
    case Recording(r) => Reports(r, h) && (r.activationStarted ==> r.rollback.Some?)
    case Closing(r) => s.marker == Some(r)
  }

  ghost predicate Told(s: State, h: History) {
    && ProcessReports(s, h) && (s.marker.Some? ==> Reports(s.marker.value, h))
    && (FailedArmed(s) ==> s.process.Off? || s.process.Closing?)
    && (FailedArmed(s) ==> (s.marker.value.rollback.None? <==> h.gaveUp))
    && (h.gaveUp ==> FailedArmed(s)) && (Invoked(s.log) <==> h.started)
  }

  lemma InvokedAppend(log: seq<Grant>, g: Grant)
    ensures Invoked(log + [g]) <==> Invoked(log) || g.action.RunRollback?
  {
    assert (log + [g])[|log|] == g;
    assert forall k :: 0 <= k < |log| ==> (log + [g])[k] == log[k];
  }

  lemma LogStep(setup: Setup, s: State, step: Step, t: State)
    requires Inv(setup, s) && Next(setup, s, step, t)
    ensures Invoked(t.log) <==> Invoked(s.log) || (step.Rollback? && step.started)
  {
    if s.process.Running? {
      Layout(setup, s.process.at);
    }
    if |t.log| > |s.log| {
      InvokedAppend(s.log, t.log[|s.log|]);
    }
  }

  lemma ToldStep(setup: Setup, s: State, step: Step, t: State, h: History)
    requires Inv(setup, s) && Told(s, h) && Next(setup, s, step, t)
    ensures Told(t, Extended(s, step, h))
  {
    LogStep(setup, s, step, t);
    if s.process.Running? && !step.Crash? && !step.Elapse? {
      RunningTells(setup, s, step, t, h);
    } else {
      OthersTell(setup, s, step, t, h);
    }
  }

  /** An instruction of the program, raising or not. */
  lemma RunningTells(setup: Setup, s: State, step: Step, t: State, h: History)
    requires Inv(setup, s) && Told(s, h) && Next(setup, s, step, t) && s.process.Running? && !step.Crash? && !step.Elapse?
    requires Invoked(t.log) <==> Extended(s, step, h).started
    ensures Told(t, Extended(s, step, h))
  {
    Layout(setup, s.process.at);
    if step.Advance? {
      AdvanceTells(setup, s, t, h);
    }
  }

  lemma AdvanceTells(setup: Setup, s: State, t: State, h: History)
    requires Inv(setup, s) && Told(s, h) && Next(setup, s, Advance, t)
    requires Invoked(t.log) <==> h.started
    ensures Told(t, h)
  {
    Layout(setup, s.process.at);
  }

  lemma OthersTell(setup: Setup, s: State, step: Step, t: State, h: History)
    requires Inv(setup, s) && Told(s, h) && Next(setup, s, step, t) && (s.process.Running? ==> step.Crash? || step.Elapse?)
    requires Invoked(t.log) <==> Extended(s, step, h).started
    ensures Told(t, Extended(s, step, h))
  {
  }

  ghost function HistoryOf(states: seq<State>, steps: seq<Step>, i: nat): History
    requires |states| == |steps| + 1 && i <= |steps|
  {
    History(exists k :: 0 <= k < i && ArmedTimeout(states[k], steps[k]),
            exists k :: 0 <= k < i && Unstarted(steps[k]),
            exists k :: 0 <= k < i && steps[k].Rollback? && steps[k].started)
  }

  lemma HistoryExtends(states: seq<State>, steps: seq<Step>, i: nat)
    requires |states| == |steps| + 1 && i < |steps|
    ensures HistoryOf(states, steps, i + 1) == Extended(states[i], steps[i], HistoryOf(states, steps, i))
  {
  }

  lemma {:induction false} ToldRun(setup: Setup, states: seq<State>, steps: seq<Step>, i: nat)
    requires Run(setup, states, steps) && i <= |steps|
    ensures Told(states[i], HistoryOf(states, steps, i))
  {
    if i > 0 {
      ToldRun(setup, states, steps, i - 1);
      RunKeeps(setup, states, steps, i - 1);
      ToldStep(setup, states[i - 1], steps[i - 1], states[i], HistoryOf(states, steps, i - 1));
      HistoryExtends(states, steps, i - 1);
    }
  }

  /**
   The receipt of a failed release whose activation had started names no rollback exactly when some
   process gave up waiting for the lock.  A rollback it calls verified was started, and where no command
   was started at all, a process gave up or an attempt did not get that far.
   */
  lemma ReceiptTellsRollback(setup: Setup, states: seq<State>, steps: seq<Step>, i: nat)
    requires Run(setup, states, steps) && i <= |steps| && FailedArmed(states[i])
    ensures var r, h := states[i].marker.value, HistoryOf(states, steps, i);
            && (r.rollback.None? <==> h.gaveUp) && (r.rollback == Some(true) ==> Invoked(states[i].log))
            && (!Invoked(states[i].log) ==> h.gaveUp || h.unstarted)
  {
    ToldRun(setup, states, steps, i);
  }

  // ---------- Exactly when a rollback is certain ----------

  /** With `givesUp` and `refuses` these two are possible; every failed release that had started activation was rolled back. */
  ghost predicate Restores(setup: Setup, givesUp: bool, refuses: bool) {
    forall states: seq<State>, steps: seq<Step>, i: nat |
      Run(setup, states, steps) && i <= |steps| && FailedArmed(states[i])
      && (givesUp || !HistoryOf(states, steps, i).gaveUp) && (refuses || !HistoryOf(states, steps, i).unstarted) ::
      Invoked(states[i].log)
  }

  ghost predicate Uneventful(steps: seq<Step>) {
    forall k :: 0 <= k < |steps| ==> !Unstarted(steps[k]) && !steps[k].QueueTimeout?
  }

  /** A release whose activation command has just started. */
  lemma Activated(setup: Setup) returns (states: seq<State>, steps: seq<Step>, s: State)
    requires setup.manifest.pushedAt > 0.0 && !setup.warm
    ensures Ends(setup, states, steps, s) && Uneventful(steps) && !Invoked(s.log) && Activations(s.log) == 1
    ensures s.clock == Clock(setup.manifest.pushedAt, 0.0) && s.process.Running? && s.process.at == ACTIVATE + 1
    ensures s.process.receipt.activationStarted
    ensures s.marker.Some? && s.marker.value.activationStarted && !Terminal(s.marker.value.state)
  {
    var proof := Proof("", []);
    var u;
    states, steps, u := Reach(setup, proof, ACTIVATE);
    RunKeeps(setup, states, steps, |steps|);
    s := ReachNext(setup, proof, u, ACTIVATE);
    Layout(setup, ACTIVATE);
    Appended(u.log, Granted(RunActivate, u.process.deadline, true, u.clock));
    StepKeeps(setup, u, Advance, s);
    Extend(setup, states, steps, u, Advance, s);
    states, steps := states + [s], steps + [Advance];
  }

  /** A process restarts on it, waits for the lock in vain and records failure: nothing is rolled back. */
  lemma GivesUp(setup: Setup) returns (states: seq<State>, steps: seq<Step>, s: State)
    requires setup.manifest.pushedAt > 0.0 && !setup.warm
    ensures Ends(setup, states, steps, s) && FailedArmed(s) && !Invoked(s.log) && Activations(s.log) == 1
    ensures forall k :: 0 <= k < |steps| ==> !Unstarted(steps[k])
  {
    var u;
    states, steps, u := Activated(setup);
    var off := u.(process := Off);
    Extend(setup, states, steps, u, Crash, off);
    states, steps := states + [off], steps + [Crash];
    var r, d := off.marker.value, Start(setup.manifest.pushedAt, Limit(setup), off.clock).value;
    var waiting := off.(process := Waiting(r, d));
    Extend(setup, states, steps, off, Begin, waiting);
    states, steps := states + [waiting], steps + [Begin];
    var clock := Clock(setup.manifest.pushedAt + LIMIT_SECONDS, LIMIT_SECONDS);
    var late := waiting.(clock := clock);
    Extend(setup, states, steps, waiting, Elapse(clock), late);
    states, steps := states + [late], steps + [Elapse(clock)];
    var failed := r.(state := Failed, failureStage := Some(Queued));
    s := late.(marker := Some(failed), process := Closing(failed));
    Extend(setup, states, steps, late, QueueTimeout, s);
    states, steps := states + [s], steps + [QueueTimeout];
  }

  /** The activation raises and the rollback that follows does not get its command started. */
  lemma Refuses(setup: Setup) returns (states: seq<State>, steps: seq<Step>, s: State)
    requires setup.manifest.pushedAt > 0.0 && !setup.warm
    ensures Ends(setup, states, steps, s) && FailedArmed(s) && !Invoked(s.log) && Activations(s.log) == 1
    ensures forall k :: 0 <= k < |steps| ==> !steps[k].QueueTimeout?
  {
    var u;
    states, steps, u := Activated(setup);
    Layout(setup, ACTIVATE + 1);
    var failed := Raised(u.process.receipt);
    assert InMemory(Program(setup)[ACTIVATE + 1], u.process.receipt) == u.process.receipt;
    var restoring := u.(process := Restoring(failed, u.process.deadline));
    Extend(setup, states, steps, u, Raise(false), restoring);
    states, steps := states + [restoring], steps + [Raise(false)];
    var r := failed.(rollback := Some(false));
    var recording := restoring.(process := Recording(r));
    Extend(setup, states, steps, restoring, Rollback(false, false), recording);
    states, steps := states + [recording], steps + [Rollback(false, false)];
    s := recording.(marker := Some(r), process := Closing(r));
    Extend(setup, states, steps, recording, Record, s);
    states, steps := states + [s], steps + [Record];
  }

  /**
   A failed release that had started activation is certain to have been rolled back exactly when no
   process gives up on an interrupted activation and every attempted rollback starts its command.  A
   preparation never activates.
   */
  lemma RestoresExactly(setup: Setup, givesUp: bool, refuses: bool)
    requires setup.manifest.pushedAt > 0.0
    ensures Restores(setup, givesUp, refuses) <==> setup.warm || (!givesUp && !refuses)
  {
    if setup.warm || (!givesUp && !refuses) {
      forall states: seq<State>, steps: seq<Step>, i: nat |
        Run(setup, states, steps) && i <= |steps| && FailedArmed(states[i])
        && (givesUp || !HistoryOf(states, steps, i).gaveUp) && (refuses || !HistoryOf(states, steps, i).unstarted)
        ensures Invoked(states[i].log)
      {
        RunKeeps(setup, states, steps, i);
        ReceiptTellsRollback(setup, states, steps, i);
      }
    } else if givesUp {
      var states, steps, s := GivesUp(setup);
      assert !HistoryOf(states, steps, |steps|).unstarted;
      assert !Invoked(states[|steps|].log);
    } else {
      var states, steps, s := Refuses(setup);
      assert !HistoryOf(states, steps, |steps|).gaveUp;
      assert !Invoked(states[|steps|].log);
    }
  }
}
