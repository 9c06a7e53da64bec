/**
 The cluster release coordinator as a step relation.

 The state has four parts: the Kubernetes API server (Jobs, and every Job creation ever
 transmitted), the working volume, the checkpoint held by the remote catalogue, and the program
 counter of the one tick that may run at a time.  Crashes, exceptions, lost or late creation
 requests, disappearing Jobs, configuration upgrades and loss of the whole volume are steps of
 the environment.  A request is identified by its SHA-256; that digest is taken to be injective,
 so the model names a request by its content.  Job names are truncated digests and may collide,
 hence `naming` is an arbitrary function.
 */
module Coordinator {
  import opened Prelude

  type EventName = string
  type Uid = nat
  type Ticket = nat

  const PROMOTION := "refs/tags/android-release/"

  datatype Operation = Prepare | Promote

  datatype Event = Event(project: string, ref: string, commit: string, pushedAt: int, serial: string)

  /** A frozen or promoted manifest binds a configuration; a rejected promotion has only its clock. */
  datatype Manifest = Frozen(pushedAt: int, config: int) | Bare(pushedAt: int)

  datatype Request = Request(operation: Operation, manifest: Manifest, events: seq<EventName>, push: Event)

  /** The rendered Job journaled with a request; it survives later configuration changes. */
  datatype Definition = Definition(request: Request, config: int)

  datatype EffectState = Submitting | Running | Complete | Failed | SubmissionUnknown

  /** One `cluster-effects` marker file. */
  datatype Effect = Effect(state: EffectState, started: bool, definition: Option<Definition>, uid: Option<Uid>)

  type Effects = map<Request, Effect>

  /** The working volume; `cursors` is the `source-cursors.json` file, written last in recovery. */
  datatype Volume = Volume(cursors: Option<int>, effects: Effects, events: map<EventName, Event>)

  datatype Checkpoint = Checkpoint(config: int, cursors: int, effects: Effects, events: map<EventName, Event>)

  datatype Phase = Active | Succeeded | Broken

  datatype Job = Job(uid: Uid, definition: Definition, phase: Phase)

  /**
   `sent` lists every Job creation the coordinator ever transmitted; `admitted[u]` is the ticket the
   server admitted as the Job with uid `u`; `refused` holds the tickets answered with a conflict.
   */
  datatype Server = Server(jobs: map<string, Job>, sent: seq<Definition>, admitted: seq<Ticket>, refused: set<Ticket>)

  /** The accumulators of one pass over the marker files. */
  datatype Scan = Scan(todo: set<Request>, handled: set<EventName>, live: bool, preparing: bool)

  datatype Stage =
    | Journaling
    | Checkpointing
    | Looking(already: bool)
    | Absent
    | Creating
    | Waiting(ticket: Ticket)
    | Adopting(uid: Uid, state: EffectState)

  datatype Process =
    | Down
    | Recovering(goal: Checkpoint)
    | Intake
    | Reconciling(scan: Scan)
    | Submission(request: Request, stage: Stage, scan: Scan, newWork: bool)
    | Finishing

  datatype State = State(config: int, server: Server, volume: Volume, archive: Option<Checkpoint>, process: Process)

  type References = set<(string, string)>

  /** Fixed surroundings: the truncated Job name of a request, and the source references of each configuration. */
  datatype Setup = Setup(naming: Request -> string, selected: int -> References)

  const LOST := Volume(None, map[], map[])

  predicate Terminal(e: EffectState) {
    e.Complete? || e.Failed? || e.SubmissionUnknown?
  }

  /** An unknown submission keeps occupying its lane: it may still be executing. */
  predicate Occupies(e: EffectState) {
    e.Submitting? || e.Running? || e.SubmissionUnknown?
  }

  predicate IsPromotion(e: Event) {
    PROMOTION <= e.ref
  }

  /** The stable sort order of pending events: push clock, server identity, then file name. */
  predicate Before(events: map<EventName, Event>, a: EventName, b: EventName)
    requires a in events && b in events
  {
    var x, y := events[a], events[b];
    if x.pushedAt != y.pushedAt then x.pushedAt < y.pushedAt
    else if x.serial != y.serial then Less(x.serial, y.serial)
    else Less(a, b)
  }

  /** The events a tick may still turn into a request. */
  function Pending(selected: References, volume: Volume, handled: set<EventName>): set<EventName> {
    set n | n in volume.events && n !in handled &&
            ((volume.events[n].project, volume.events[n].ref) in selected || IsPromotion(volume.events[n]))
  }

  function Promotions(selected: References, volume: Volume, handled: set<EventName>): set<EventName> {
    set n | n in Pending(selected, volume, handled) && IsPromotion(volume.events[n])
  }

  /**
   The selection of a tick with no live operation active: the oldest pending promotion alone, or,
   without promotions and without an active preparation, every pending event in order.
   */
  predicate Chosen(selected: References, volume: Volume, scan: Scan, chosen: seq<EventName>)
  {
    var pending := Pending(selected, volume, scan.handled);
    var promotions := Promotions(selected, volume, scan.handled);
    if promotions != {} then
      |chosen| == 1 && chosen[0] in promotions &&
      forall n :: n in promotions && n != chosen[0] ==> Before(volume.events, chosen[0], n)
    else if scan.preparing then
      chosen == []
    else
      && (set n | n in chosen) == pending
      && forall i, j :: 0 <= i < j < |chosen| ==>
                          chosen[i] in pending && chosen[j] in pending && Before(volume.events, chosen[i], chosen[j])
  }

  function Snapshot(config: int, volume: Volume): Checkpoint
    requires volume.cursors.Some?
  {
    Checkpoint(config, volume.cursors.value, volume.effects, volume.events)
  }

  /** Where a tick continues once `submit` returned `value` for `request`. */
  function Returned(p: Process, value: Effect): Process
    requires p.Submission?
  {
    if p.newWork then Finishing
    else
      var busy := Occupies(value.state);
      Reconciling(Scan(p.scan.todo - {p.request},
                       p.scan.handled + (set n | n in p.request.events),
                       p.scan.live || (busy && !p.request.operation.Prepare?),
                       p.scan.preparing || (busy && p.request.operation.Prepare?)))
  }

  function Observed(phase: Phase, evidence: bool): EffectState {
    match phase
    case Active => Running
    case Broken => Failed
    case Succeeded => if evidence then Complete else Failed
  }

  datatype Step =
    // The environment.
    | Crash
    | LoseVolume
    | Upgrade(config: int)
    | Deliver(ticket: Ticket)
    | Progress(name: string, phase: Phase)
    | Vanish(name: string)
    // Recovery and intake.
    | Begin
    | RestoreEffect(request: Request)
    | RestoreEvent(name: EventName)
    | RestoreCursors
    | Ingest(events: map<EventName, Event>, cursors: int)
    // One call of submit.
    | Reconcile(request: Request)
    | Journal
    | Save
    | Look(evidence: bool)
    | Unknown
    | Create
    | Reply(evidence: bool)
    | Adopt
    // The choice of new work and the end of the tick.
    | Rest
    | Reject(chosen: seq<EventName>)
    | Propose(chosen: seq<EventName>, manifest: Manifest)
    | Finish

  predicate Init(s: State) {
    && s.volume.cursors.Some? && s.volume.effects == map[] && s.volume.events == map[]
    && s.archive.None? && s.process.Down?
    && s.server == Server(map[], [], [], {})
  }

  predicate Next(setup: Setup, s: State, step: Step, t: State) {
    match step
    case Crash => t == s.(process := Down)
    case LoseVolume => t == s.(process := Down, volume := LOST)
    case Upgrade(config) => s.process.Down? && t == s.(config := config)
    case Deliver(ticket) => Delivers(setup, s, ticket, t)
    case Progress(name, phase) =>
      && name in s.server.jobs && s.server.jobs[name].phase.Active?
      && t == s.(server := s.server.(jobs := s.server.jobs[name := s.server.jobs[name].(phase := phase)]))
    case Vanish(name) =>
      t == s.(server := s.server.(jobs := s.server.jobs - {name}))
    case Begin => Begins(s, t)
    case RestoreEffect(r) =>
      && s.process.Recovering? && r in s.process.goal.effects
      && t == s.(volume := s.volume.(effects := s.volume.effects[r := s.process.goal.effects[r]]))
    case RestoreEvent(n) =>
      && s.process.Recovering? && n in s.process.goal.events
      && t == s.(volume := s.volume.(events := s.volume.events[n := s.process.goal.events[n]]))
    case RestoreCursors =>
      && s.process.Recovering?
      && s.process.goal.effects.Keys <= s.volume.effects.Keys && s.process.goal.events.Keys <= s.volume.events.Keys
      && t == s.(volume := s.volume.(cursors := Some(s.process.goal.cursors)), process := Intake)
    case Ingest(events, cursors) =>
      && s.process.Intake?
      && (forall n :: n in events && n in s.volume.events ==> events[n] == s.volume.events[n])
      && t == s.(volume := s.volume.(events := s.volume.events + events, cursors := Some(cursors)),
                 process := Reconciling(Scan(s.volume.effects.Keys, {}, false, false)))
    case Reconcile(r) =>
      && s.process.Reconciling? && r in s.process.scan.todo
      && t == s.(process := Submission(r, Journaling, s.process.scan, false))
    case Journal => s.process.Submission? && s.process.stage.Journaling? && Journals(s, t)
    case Save =>
      && s.process.Submission? && s.process.stage.Checkpointing? && s.volume.cursors.Some?
      && t == s.(archive := Some(Snapshot(s.config, s.volume)), process := s.process.(stage := Looking(false)))
    case Look(evidence) => s.process.Submission? && s.process.stage.Looking? && Looks(setup, s, evidence, t)
    case Unknown =>
      && s.process.Submission? && s.process.stage.Absent? && s.process.request in s.volume.effects
      && var value := s.volume.effects[s.process.request].(state := SubmissionUnknown);
      t == s.(volume := s.volume.(effects := s.volume.effects[s.process.request := value]),
              process := Returned(s.process, value))
    case Create =>
      && s.process.Submission? && s.process.stage.Creating?
      && s.process.request in s.volume.effects && s.volume.effects[s.process.request].definition.Some?
      && t == s.(server := s.server.(sent := s.server.sent + [s.volume.effects[s.process.request].definition.value]),
                 process := s.process.(stage := Waiting(|s.server.sent|)))
    case Reply(evidence) => s.process.Submission? && s.process.stage.Waiting? && Replies(setup, s, evidence, t)
    case Adopt =>
      && s.process.Submission? && s.process.stage.Adopting? && s.process.request in s.volume.effects
      && var value := s.volume.effects[s.process.request].(state := s.process.stage.state, uid := Some(s.process.stage.uid));
      t == s.(volume := s.volume.(effects := s.volume.effects[s.process.request := value]),
              process := Returned(s.process, value))
    case Rest =>
      && s.process.Reconciling? && s.process.scan.todo == {}
      && (s.process.scan.live || Chosen(setup.selected(s.config), s.volume, s.process.scan, []))
      && t == s.(process := Finishing)
    case Reject(chosen) =>
      && Choosing(setup, s, chosen) && IsPromotion(s.volume.events[chosen[|chosen| - 1]])
      && var push := s.volume.events[chosen[|chosen| - 1]];
      var request := Request(Promote, Bare(push.pushedAt), chosen, push);
      t == s.(volume := s.volume.(effects := s.volume.effects[request := Effect(Failed, false, None, None)]),
              process := Finishing)
    case Propose(chosen, manifest) =>
      && Choosing(setup, s, chosen) && manifest.Frozen? && manifest.config == s.config
      && var push := s.volume.events[chosen[|chosen| - 1]];
      && (IsPromotion(push) ==> manifest.pushedAt == push.pushedAt)
      && t == s.(process := Submission(Request(if IsPromotion(push) then Promote else Prepare, manifest, chosen, push),
                                       Journaling, s.process.scan, true))
    case Finish =>
      && s.process.Finishing? && s.volume.cursors.Some?
      && t == s.(archive := Some(Snapshot(s.config, s.volume)), process := Down)
  }

  /** The pass over the markers is over, no live operation is active, and there is work to select. */
  predicate Choosing(setup: Setup, s: State, chosen: seq<EventName>) {
    && s.process.Reconciling? && s.process.scan.todo == {} && !s.process.scan.live
    && chosen != [] && (forall n :: n in chosen ==> n in s.volume.events)
    && Chosen(setup.selected(s.config), s.volume, s.process.scan, chosen)
  }

  /** A creation request reaches the server, possibly long after its sender died. */
  predicate Delivers(setup: Setup, s: State, ticket: Ticket, t: State) {
    && ticket < |s.server.sent| && ticket !in s.server.admitted && ticket !in s.server.refused
    && var definition := s.server.sent[ticket];
    var name := setup.naming(definition.request);
    if name in s.server.jobs then
      t == s.(server := s.server.(refused := s.server.refused + {ticket}))
    else
      t == s.(server := s.server.(jobs := s.server.jobs[name := Job(|s.server.admitted|, definition, Active)],
                                  admitted := s.server.admitted + [ticket]))
  }

  /** A tick starts; without cursors on the volume it first restores the checkpoint. */
  predicate Begins(s: State, t: State) {
    && s.process.Down?
    && if s.volume.cursors.Some? then
         t == s.(process := Intake)
       else
         && s.archive.Some? && s.archive.value.config == s.config
         && var goal := s.archive.value;
         && (forall r :: r in goal.effects && r in s.volume.effects ==> s.volume.effects[r] == goal.effects[r])
         && (forall n :: n in goal.events && n in s.volume.events ==> s.volume.events[n] == goal.events[n])
         && t == s.(process := Recovering(goal))
  }

  /** submit up to and including the marker write that precedes every external effect. */
  predicate Journals(s: State, t: State)
    requires s.process.Submission?
  {
    var r := s.process.request;
    if r in s.volume.effects && Terminal(s.volume.effects[r].state) then
      t == s.(process := Returned(s.process, s.volume.effects[r]))
    else if r in s.volume.effects && s.volume.effects[r].started then
      t == s.(process := s.process.(stage := Looking(true)))
    else
      && r.manifest.Frozen? && r.manifest.config == s.config
      && var value := Effect(Submitting, true, Some(Definition(r, s.config)), None);
      t == s.(volume := s.volume.(effects := s.volume.effects[r := value]),
              process := s.process.(stage := Checkpointing))
  }

  /** The observation in ensure_job: adopt the identical Job, or decide between unknown and creation. */
  predicate Looks(setup: Setup, s: State, evidence: bool, t: State)
    requires s.process.Submission? && s.process.stage.Looking?
  {
    var r := s.process.request;
    && r in s.volume.effects && s.volume.effects[r].definition.Some?
    && var value := s.volume.effects[r];
    var name := setup.naming(r);
    if name in s.server.jobs then
      var job := s.server.jobs[name];
      && job.definition == value.definition.value && (value.uid.Some? ==> value.uid.value == job.uid)
      && t == s.(process := s.process.(stage := Adopting(job.uid, Observed(job.phase, evidence))))
    else if s.process.stage.already || value.uid.Some? then
      t == s.(process := s.process.(stage := Absent))
    else
      t == s.(process := s.process.(stage := Creating))
  }

  /** The reply to the creation; a conflicting Job is adopted only through the same identity. */
  predicate Replies(setup: Setup, s: State, evidence: bool, t: State)
    requires s.process.Submission? && s.process.stage.Waiting?
  {
    var ticket := s.process.stage.ticket;
    && ticket < |s.server.sent|
    && (if ticket in s.server.admitted then
          exists u: Uid :: u < |s.server.admitted| && s.server.admitted[u] == ticket &&
                           t == s.(process := s.process.(stage := Adopting(u, Running)))
        else
          && ticket in s.server.refused
          && var name := setup.naming(s.process.request);
          && name in s.server.jobs && s.server.jobs[name].definition == s.server.sent[ticket]
          && t == s.(process := s.process.(stage := Adopting(s.server.jobs[name].uid,
                                                             Observed(s.server.jobs[name].phase, evidence)))))
  }

  /** A run: any finite sequence of steps from an initialized installation. */
  ghost predicate Run(setup: Setup, states: seq<State>, steps: seq<Step>) {
    && |states| == |steps| + 1 && Init(states[0])
    && forall i :: 0 <= i < |steps| ==> Next(setup, states[i], steps[i], states[i + 1])
  }
}
