/**
 The deployment of one release, run by any number of successive processes on retained state.

 A process executes a fixed list of instructions.  It may die between any two effects; a command or
 a durable write may also raise, before or after its effect took hold, which enters the exception
 handler.  `marker` is the receipt file, `log` lists every adapter command that was started.
 */
module Deployment {
  import opened Prelude
  import opened Deadline

  // ---------- The live proof ----------

  datatype Target = Target(id: string, kind: string)

  datatype ProofRow = ProofRow(id: string, kind: string, healthy: bool, matches: bool,
                               downloaded: bool, workerReady: bool, identityPreserved: bool)

  datatype Proof = Proof(releaseId: string, targets: seq<ProofRow>)

  datatype Manifest = Manifest(releaseId: string, pushedAt: real, targets: seq<Target>)

  function TargetIds(targets: seq<Target>): seq<string> {
    seq(|targets|, i requires 0 <= i < |targets| => targets[i].id)
  }

  function ProvedIds(rows: seq<ProofRow>): seq<string> {
    seq(|rows|, i requires 0 <= i < |rows| => rows[i].id)
  }

  predicate RowReady(row: ProofRow) {
    row.healthy && row.matches && (row.kind == "android" ==> row.downloaded && row.workerReady && row.identityPreserved)
  }

  /** The kind the manifest declares for an identifier; of repeated identifiers the last counts. */
  function KindOf(targets: seq<Target>, id: string): Option<string> {
    if targets == [] then None
    else if targets[|targets| - 1].id == id then Some(targets[|targets| - 1].kind)
    else KindOf(targets[..|targets| - 1], id)
  }

  predicate CheckedTargets(m: Manifest, proof: Proof) {
    && |Elements(TargetIds(m.targets))| == |m.targets|
    && (exists i :: 0 <= i < |m.targets| && KindOf(m.targets, m.targets[i].id) == Some("android"))
    && |proof.targets| == |Elements(TargetIds(m.targets))|
    && Elements(ProvedIds(proof.targets)) == Elements(TargetIds(m.targets))
    && (forall i :: 0 <= i < |proof.targets| ==>
                      Some(proof.targets[i].kind) == KindOf(m.targets, proof.targets[i].id) && RowReady(proof.targets[i]))
    && proof.releaseId == m.releaseId
  }

  // ---------- Receipts, instructions and state ----------

  datatype Condition = Queued | Preflight | Building | Verifying | Activation | Readiness | Live | Failed | Warmed

  datatype Receipt = Receipt(state: Condition, activationStarted: bool, failureStage: Option<Condition>, rollback: Option<bool>)

  datatype Action = RunPreflight | RunBuild | RunVerify | RunActivate | RunReadiness | RunRollback

  datatype Instruction =
    | Enter(stage: Condition)
    | SaveRequest
    | Invoke(action: Action)
    | Build
    | Leave
    | Arm
    | Prove
    | CheckDeadline
    | Finish(outcome: Condition)
    | Publish

  /** A started command, with the time since the push at which its granted timeout ends. */
  datatype Grant = Grant(action: Action, ends: real)

  datatype Process =
    | Off
    | Waiting(receipt: Receipt, deadline: Terms)
    | Running(at: nat, receipt: Receipt, deadline: Terms)
    | Restoring(receipt: Receipt, deadline: Terms)
    | Recording(receipt: Receipt)
    | Closing(receipt: Receipt)

  datatype State = State(clock: Clock, marker: Option<Receipt>, proof: Option<Proof>, checked: Option<real>,
                         log: seq<Grant>, returned: seq<Receipt>, process: Process)

  datatype Setup = Setup(manifest: Manifest, warm: bool)

  predicate Terminal(c: Condition) {
    c.Live? || c.Failed? || c.Warmed?
  }

  const LIVE_PROGRAM :=
    [Enter(Preflight), SaveRequest, Invoke(RunPreflight), Leave, Enter(Building), Build, Leave, Enter(Verifying), SaveRequest,
     Invoke(RunVerify), Leave, Enter(Activation), Arm, Invoke(RunActivate), Leave, Enter(Readiness), Invoke(RunReadiness),
     Prove, Leave, CheckDeadline, Finish(Live), Publish]
  const WARM_PROGRAM :=
    [Enter(Preflight), SaveRequest, Invoke(RunPreflight), Leave, Enter(Building), Build, Leave, Enter(Verifying), SaveRequest,
     Invoke(RunVerify), Leave, Finish(Warmed), Publish]

  /** `Publish` is the root live receipt of a promotion, or the archived run of a preparation. */
  function Program(setup: Setup): seq<Instruction> {
    if setup.warm then WARM_PROGRAM else LIVE_PROGRAM
  }

  function Limit(setup: Setup): real {
    if setup.warm then PREPARATION_SECONDS else LIMIT_SECONDS
  }

  /** Every normal stage of a promotion is capped at nine minutes after the push. */
  function Capped(setup: Setup, d: Terms): Terms {
    d.(cap := if setup.warm then d.ends else setup.manifest.pushedAt + ACTIVATION_SECONDS)
  }

  /** What an instruction does to the receipt in memory before it writes anything. */
  function InMemory(i: Instruction, r: Receipt): Receipt {
    match i
    case Enter(stage) => r.(state := stage)
    case Arm => r.(activationStarted := true)
    case Finish(outcome) => r.(state := outcome)
    case _ => r
  }

  predicate Writes(i: Instruction) {
    i.Enter? || i.Leave? || i.Arm? || i.Finish?
  }

  /** The deadline in force while an instruction runs. */
  function DeadlineIn(setup: Setup, i: Instruction, d: Terms): Terms {
    if i.Enter? then Capped(setup, d) else d
  }

  predicate NeedsTime(i: Instruction) {
    i.Enter? || i.Invoke? || i.CheckDeadline?
  }

  predicate InTime(setup: Setup, i: Instruction, d: Terms, now: Clock) {
    NeedsTime(i) ==> Remaining(DeadlineIn(setup, i, d), true, now).Ok?
  }

  function Granted(action: Action, d: Terms, activation: bool, now: Clock): Grant
    requires Remaining(d, activation, now).Ok?
  {
    Grant(action, SincePush(d, now.monotonic + Remaining(d, activation, now).value))
  }

  datatype Step =
    | Elapse(clock: Clock)
    | Crash
    | WriteProof(proof: Proof)
    | Begin
    | Lock
    | QueueTimeout
    | Advance
    | BuildOne
    | Raise(effect: bool)
    | Rollback(started: bool, verified: bool)
    | Record
    | Return

  predicate Init(s: State) {
    s.marker.None? && s.proof.None? && s.checked.None? && s.log == [] && s.returned == [] && s.process.Off?
  }

  /** The effect of an instruction that took hold, apart from the control flow. */
  function Effect(setup: Setup, s: State, i: Instruction): State
    requires s.process.Running? && InTime(setup, i, s.process.deadline, s.clock)
  {
    var r := InMemory(i, s.process.receipt);
    if Writes(i) then s.(marker := Some(r))
    else if i.Invoke? then s.(log := s.log + [Granted(i.action, s.process.deadline, true, s.clock)])
    else if i.CheckDeadline? then s.(checked := Some(SincePush(s.process.deadline, s.clock.monotonic)))
    else s
  }

  predicate Next(setup: Setup, s: State, step: Step, t: State) {
    match step
    case Elapse(clock) => clock.monotonic >= s.clock.monotonic && t == s.(clock := clock)
    case Crash => t == s.(process := Off)
    case WriteProof(proof) =>
      // Only the readiness command writes the proof file.
      && s.process.Running? && s.process.at < |Program(setup)| && Program(setup)[s.process.at] == Invoke(RunReadiness)
      && t == s.(proof := Some(proof))
    case Begin =>
      && s.process.Off? && Start(setup.manifest.pushedAt, Limit(setup), s.clock).Ok?
      && if s.marker.Some? && Terminal(s.marker.value.state) then
           t == s.(returned := s.returned + [s.marker.value])
         else
           var r := if s.marker.Some? then s.marker.value else Receipt(Queued, false, None, None);
           t == s.(marker := Some(r), process := Waiting(r, Start(setup.manifest.pushedAt, Limit(setup), s.clock).value))
    case Lock =>
      && s.process.Waiting?
      && t == s.(process := if s.process.receipt.activationStarted then Restoring(Raised(s.process.receipt), s.process.deadline)
                            else Running(0, s.process.receipt, s.process.deadline))
    case QueueTimeout =>
      && s.process.Waiting? && Remaining(s.process.deadline, true, s.clock).Error?
      && var r := s.process.receipt.(state := Failed, failureStage := Some(Queued));
      t == s.(marker := Some(r), process := Closing(r))
    case Advance =>
      && s.process.Running? && s.process.at < |Program(setup)|
      && var i := Program(setup)[s.process.at];
      && InTime(setup, i, s.process.deadline, s.clock)
      && (i.Prove? ==> s.proof.Some? && CheckedTargets(setup.manifest, s.proof.value))
      && var r := InMemory(i, s.process.receipt);
      t == Effect(setup, s, i).(process := if s.process.at + 1 == |Program(setup)| then Closing(r)
                                           else Running(s.process.at + 1, r, DeadlineIn(setup, i, s.process.deadline)))
    case BuildOne =>
      && s.process.Running? && s.process.at < |Program(setup)| && Program(setup)[s.process.at].Build?
      && Remaining(s.process.deadline, true, s.clock).Ok?
      && t == s.(log := s.log + [Granted(RunBuild, s.process.deadline, true, s.clock)])
    case Raise(effect) =>
      && s.process.Running? && s.process.at < |Program(setup)|
      && var i := Program(setup)[s.process.at];
      && (effect ==> InTime(setup, i, s.process.deadline, s.clock))
      && var failed := Raised(InMemory(i, s.process.receipt));
      t == (if effect then Effect(setup, s, i) else s)
           .(process := if failed.activationStarted then Restoring(failed, s.process.deadline) else Recording(failed))
    case Rollback(started, verified) =>
      && s.process.Restoring? && (verified ==> started)
      && var d := s.process.deadline.(cap := s.process.deadline.ends);
      && (started ==> Remaining(d, false, s.clock).Ok?)
      && t == s.(log := if started then s.log + [Granted(RunRollback, d, false, s.clock)] else s.log,
                 process := Recording(s.process.receipt.(rollback := Some(verified))))
    case Record =>
      && s.process.Recording?
      && t == s.(marker := Some(s.process.receipt), process := Closing(s.process.receipt))
    case Return =>
      && s.process.Closing?
      && t == s.(returned := s.returned + [s.process.receipt], process := Off)
  }

  /** The receipt in memory when the exception handler starts. */
  function Raised(r: Receipt): Receipt {
    r.(state := Failed, failureStage := Some(r.state))
  }

  ghost predicate Run(setup: Setup, states: seq<State>, steps: seq<Step>) {
    && |states| == |steps| + 1 && Init(states[0])
    && forall i :: 0 <= i < |steps| ==> Next(setup, states[i], steps[i], states[i + 1])
  }
}
