/** What every step of the coordinator keeps, and the safety of whole runs. */
module CoordinatorSafety {
  import opened Prelude
  import opened Coordinator

  ghost predicate Apart(a: Request, b: Request) {
    forall n :: n in a.events ==> n !in b.events
  }

  /** Each event name occurs in at most one retained effect. */
  ghost predicate Partitioned(e: Effects) {
    forall a, b :: a in e && b in e && a != b ==> Apart(a, b)
  }

  /** At most one live operation and at most one preparation are active. */
  ghost predicate Lanes(e: Effects) {
    forall a, b :: a in e && b in e && Occupies(e[a].state) && Occupies(e[b].state) && a.operation == b.operation ==> a == b
  }

  /** Only a rejected promotion is unsubmitted, and a journaled Job is the one of its own request. */
  ghost predicate Sane(e: Effects) {
    forall r :: r in e ==>
                  && (e[r].started || e[r].state.Failed?)
                  && (e[r].started ==> e[r].definition.Some? && e[r].definition.value.request == r)
  }

  ghost predicate Sound(e: Effects) {
    Partitioned(e) && Lanes(e) && Sane(e)
  }

  ghost predicate Started(e: Effects, r: Request) {
    r in e && e[r].started
  }

  ghost predicate Archived(archive: Option<Checkpoint>, r: Request) {
    archive.Some? && Started(archive.value.effects, r)
  }

  ghost predicate Unsent(sent: seq<Definition>, r: Request) {
    forall i :: 0 <= i < |sent| ==> sent[i].request != r
  }

  /** No creation is transmitted before its journal is in the remote checkpoint. */
  ghost predicate Journaled(sent: seq<Definition>, archive: Option<Checkpoint>) {
    forall i :: 0 <= i < |sent| ==> Archived(archive, sent[i].request)
  }

  ghost predicate SentOnce(sent: seq<Definition>) {
    forall i, j :: 0 <= i < j < |sent| ==> sent[i].request != sent[j].request
  }

  ghost predicate Admissions(server: Server) {
    && (forall u :: 0 <= u < |server.admitted| ==> server.admitted[u] < |server.sent|)
    && (forall u, v :: 0 <= u < v < |server.admitted| ==> server.admitted[u] != server.admitted[v])
    && (forall n :: n in server.jobs ==>
                      && server.jobs[n].uid < |server.admitted|
                      && server.jobs[n].definition == server.sent[server.admitted[server.jobs[n].uid]])
  }

  /** A whole volume has everything in the checkpoint; a partial one has nothing else. */
  ghost predicate VolumeAgrees(volume: Volume, archive: Option<Checkpoint>) {
    if volume.cursors.Some? then
      archive.Some? ==> Retains(archive.value.effects, volume.effects)
    else
      forall r :: r in volume.effects ==>
                    archive.Some? && r in archive.value.effects && volume.effects[r] == archive.value.effects[r]
  }

  ghost predicate Retains(before: Effects, after: Effects) {
    forall r :: r in before ==> r in after && (before[r].started ==> after[r].started)
  }

  /** The markers already visited are accounted for in the accumulators. */
  ghost predicate Scanned(e: Effects, scan: Scan) {
    && scan.todo <= e.Keys
    && forall r :: r in e && r !in scan.todo ==>
                     && (forall n :: n in r.events ==> n in scan.handled)
                     && (Occupies(e[r].state) ==> if r.operation.Prepare? then scan.preparing else scan.live)
  }

  ghost predicate NewLane(e: Effects, r: Request) {
    && r !in e
    && (forall q :: q in e ==> Apart(q, r) && Apart(r, q))
    && (forall q :: q in e && Occupies(e[q].state) ==> q.operation != r.operation)
  }

  ghost predicate StageAgrees(s: State)
    requires s.process.Submission?
  {
    var r, stage, scan := s.process.request, s.process.stage, s.process.scan;
    if stage.Journaling? then
      if s.process.newWork then NewLane(s.volume.effects, r) else r in scan.todo && Scanned(s.volume.effects, scan)
    else
      && Started(s.volume.effects, r) && !Terminal(s.volume.effects[r].state)
      && (!s.process.newWork ==> r in scan.todo && Scanned(s.volume.effects, scan))
      && (stage.Checkpointing? ==> Unsent(s.server.sent, r))
      && (stage == Looking(false) || stage.Creating? ==>
            Unsent(s.server.sent, r) && Archived(s.archive, r))
      && (stage.Waiting? ==> stage.ticket < |s.server.sent| && s.server.sent[stage.ticket].request == r)
  }

  ghost predicate ProcessAgrees(s: State) {
    match s.process
    case Down => true
    case Recovering(goal) => s.archive == Some(goal) && s.volume.cursors.None?
    case Intake => true
    case Reconciling(scan) => Scanned(s.volume.effects, scan)
    case Submission(_, _, _, _) => StageAgrees(s)
    case Finishing => true
  }

  ghost predicate Inv(s: State) {
    && Sound(s.volume.effects) && (s.archive.Some? ==> Sound(s.archive.value.effects))
    && Journaled(s.server.sent, s.archive) && SentOnce(s.server.sent) && Admissions(s.server)
    && VolumeAgrees(s.volume, s.archive) && (s.volume.cursors.None? ==> s.process.Down? || s.process.Recovering?)
    && ProcessAgrees(s)
  }

  lemma PartSound(part: Effects, whole: Effects)
    requires Sound(whole)
    requires forall r :: r in part ==> r in whole && part[r] == whole[r]
    ensures Sound(part)
  {
  }

  lemma EnvironmentKeeps(setup: Setup, s: State, step: Step, t: State)
    requires Inv(s) && Next(setup, s, step, t)
    requires step.Crash? || step.LoseVolume? || step.Upgrade? || step.Progress? || step.Vanish?
    ensures Inv(t)
  {
  }

  lemma DeliveryKeepsAdmissions(setup: Setup, s: State, ticket: Ticket, t: State)
    requires Admissions(s.server) && Delivers(setup, s, ticket, t)
    ensures Admissions(t.server)
  {
  }

  lemma DeliveryKeeps(setup: Setup, s: State, step: Step, t: State)
    requires Inv(s) && Next(setup, s, step, t)
    requires step.Deliver?
    ensures Inv(t)
  {
    DeliveryKeepsAdmissions(setup, s, step.ticket, t);
  }

  lemma RecoveryKeeps(setup: Setup, s: State, step: Step, t: State)
    requires Inv(s) && Next(setup, s, step, t)
    requires step.Begin? || step.RestoreEffect? || step.RestoreEvent? || step.RestoreCursors? || step.Ingest?
    ensures Inv(t)
  {
    if step.RestoreEffect? {
      PartSound(t.volume.effects, s.archive.value.effects);
    }
  }

  /** Adding an effect with new events in a free lane keeps the retained effects sound. */
  lemma AdditionSound(e: Effects, r: Request, value: Effect)
    requires Sound(e) && NewLane(e, r)
    requires value.started || value.state.Failed?
    requires value.started ==> value.definition.Some? && value.definition.value.request == r
    ensures Sound(e[r := value])
  {
  }

  /** Rewriting a running effect keeps the retained effects sound and accounted for. */
  lemma RewriteSound(e: Effects, r: Request, value: Effect)
    requires Sound(e) && Started(e, r) && Occupies(e[r].state)
    requires value.started && value.definition == e[r].definition
    ensures Sound(e[r := value])
  {
  }

  lemma JournalKeeps(setup: Setup, s: State, step: Step, t: State)
    requires Inv(s) && Next(setup, s, step, t)
    requires step.Journal?
    ensures Inv(t)
  {
    var r := s.process.request;
    if s.process.newWork {
      AdditionSound(s.volume.effects, r, Effect(Submitting, true, Some(Definition(r, s.config)), None));
      assert Unsent(s.server.sent, r);
    }
  }

  lemma RemoteKeeps(setup: Setup, s: State, step: Step, t: State)
    requires Inv(s) && Next(setup, s, step, t)
    requires step.Reconcile? || step.Save? || step.Create?
    ensures Inv(t)
  {
  }

  lemma StageMoves(s: State, stage: Stage)
    requires Inv(s) && s.process.Submission? && !s.process.stage.Journaling?
    requires stage.Absent? || stage.Adopting? || (stage.Creating? && s.process.stage == Looking(false))
    ensures Inv(s.(process := s.process.(stage := stage)))
  {
  }

  lemma ObservationKeeps(setup: Setup, s: State, step: Step, t: State)
    requires Inv(s) && Next(setup, s, step, t)
    requires step.Look? || step.Reply?
    ensures Inv(t)
  {
    StageMoves(s, t.process.stage);
  }

  lemma MarkerKeeps(setup: Setup, s: State, step: Step, t: State)
    requires Inv(s) && Next(setup, s, step, t)
    requires step.Unknown? || step.Adopt?
    ensures Inv(t)
  {
    RewriteSound(s.volume.effects, s.process.request, t.volume.effects[s.process.request]);
  }

  /** The selected events belong to no retained effect, and the selected operation has a free lane. */
  lemma ChosenIsNew(setup: Setup, s: State, chosen: seq<EventName>, r: Request)
    requires Inv(s) && Choosing(setup, s, chosen) && r.events == chosen
    requires r.operation.Prepare? <==> !IsPromotion(s.volume.events[chosen[|chosen| - 1]])
    ensures NewLane(s.volume.effects, r)
  {
    forall n | n in chosen ensures n !in s.process.scan.handled {
      assert n in Pending(setup.selected(s.config), s.volume, s.process.scan.handled);
    }
    assert chosen[0] in chosen;
    assert r.operation.Prepare? ==> Promotions(setup.selected(s.config), s.volume, s.process.scan.handled) == {};
  }

  lemma ChoiceKeeps(setup: Setup, s: State, step: Step, t: State)
    requires Inv(s) && Next(setup, s, step, t)
    requires step.Rest? || step.Reject? || step.Propose? || step.Finish?
    ensures Inv(t)
  {
    match step
    case Propose(chosen, _) => ChosenIsNew(setup, s, chosen, t.process.request);
    case Reject(chosen) =>
      var push := s.volume.events[chosen[|chosen| - 1]];
      var r := Request(Promote, Bare(push.pushedAt), chosen, push);
      ChosenIsNew(setup, s, chosen, r);
      AdditionSound(s.volume.effects, r, t.volume.effects[r]);
    case _ =>
  }

  lemma StepKeeps(setup: Setup, s: State, step: Step, t: State)
    requires Inv(s) && Next(setup, s, step, t)
    ensures Inv(t)
  {
    if step.Crash? || step.LoseVolume? || step.Upgrade? || step.Progress? || step.Vanish? {
      EnvironmentKeeps(setup, s, step, t);
    } else if step.Begin? || step.RestoreEffect? || step.RestoreEvent? || step.RestoreCursors? || step.Ingest? {
      RecoveryKeeps(setup, s, step, t);
    } else if step.Rest? || step.Reject? || step.Propose? || step.Finish? {
      ChoiceKeeps(setup, s, step, t);
    } else {
      SubmissionKeeps(setup, s, step, t);
    }
  }

  lemma SubmissionKeeps(setup: Setup, s: State, step: Step, t: State)
    requires Inv(s) && Next(setup, s, step, t)
    requires step.Deliver? || step.Journal? || step.Unknown? || step.Adopt? || step.Look? || step.Reply?
             || step.Reconcile? || step.Save? || step.Create?
    ensures Inv(t)
  {
    if step.Deliver? {
      DeliveryKeeps(setup, s, step, t);
    } else if step.Journal? {
      JournalKeeps(setup, s, step, t);
    } else if step.Unknown? || step.Adopt? {
      MarkerKeeps(setup, s, step, t);
    } else if step.Look? || step.Reply? {
      ObservationKeeps(setup, s, step, t);
    } else {
      RemoteKeeps(setup, s, step, t);
    }
  }

  lemma {:induction false} RunKeeps(setup: Setup, states: seq<State>, steps: seq<Step>, i: nat)
    requires Run(setup, states, steps) && i <= |steps|
    ensures Inv(states[i])
  {
    if i > 0 {
      RunKeeps(setup, states, steps, i - 1);
      StepKeeps(setup, states[i - 1], steps[i - 1], states[i]);
    }
  }

  lemma SentApart(s: State, a: Ticket, b: Ticket)
    requires Inv(s) && a < b < |s.server.sent|
    ensures Apart(s.server.sent[a].request, s.server.sent[b].request)
  {
    assert Archived(s.archive, s.server.sent[a].request) && Archived(s.archive, s.server.sent[b].request);
  }

  /** The events executed by the Job admitted with uid `u`. */
  function Executed(s: State, u: Uid): seq<EventName>
    requires Admissions(s.server) && u < |s.server.admitted|
  {
    s.server.sent[s.server.admitted[u]].request.events
  }

  /** No two admitted Jobs, however long ago they existed, cover the same event. */
  ghost predicate ExecutedOnce(s: State) {
    && Admissions(s.server)
    && forall u: Uid, v: Uid, n | u < |s.server.admitted| && v < |s.server.admitted| ::
         n in Executed(s, u) && n in Executed(s, v) ==> u == v
  }

  ghost predicate AllApart(sent: seq<Definition>) {
    forall a, b :: 0 <= a < b < |sent| ==> Apart(sent[a].request, sent[b].request)
  }

  lemma EitherApart(sent: seq<Definition>, a: Ticket, b: Ticket)
    requires AllApart(sent) && a < |sent| && b < |sent| && a != b
    ensures Apart(sent[a].request, sent[b].request)
  {
    if b < a {
      assert Apart(sent[b].request, sent[a].request);
    }
  }

  lemma AdmittedApart(s: State)
    requires Admissions(s.server) && AllApart(s.server.sent)
    ensures ExecutedOnce(s)
  {
    forall u: Uid, v: Uid, n |
      u < |s.server.admitted| && v < |s.server.admitted| && n in Executed(s, u) && n in Executed(s, v)
      ensures u == v
    {
      var a, b := s.server.admitted[u], s.server.admitted[v];
      if a != b {
        EitherApart(s.server.sent, a, b);
      }
    }
  }

  lemma InvExecutesOnce(s: State)
    requires Inv(s)
    ensures ExecutedOnce(s)
  {
    forall a, b | 0 <= a < b < |s.server.sent| ensures Apart(s.server.sent[a].request, s.server.sent[b].request) {
      SentApart(s, a, b);
    }
    AdmittedApart(s);
  }

  /**
   At-most-once execution.  In every state of every run, whatever crashed, vanished, arrived late
   or was lost, no two admitted Jobs cover the same event.
   */
  lemma AtMostOnce(setup: Setup, states: seq<State>, steps: seq<Step>, i: nat)
    requires Run(setup, states, steps) && i <= |steps|
    ensures ExecutedOnce(states[i])
  {
    RunKeeps(setup, states, steps, i);
    InvExecutesOnce(states[i]);
  }

  /**
   The lane invariant and the event partition of the working volume: one live operation, one
   preparation, and every event name in at most one retained effect.
   */
  lemma LanesAndPartition(setup: Setup, states: seq<State>, steps: seq<Step>, i: nat)
    requires Run(setup, states, steps) && i <= |steps|
    ensures Lanes(states[i].volume.effects) && Partitioned(states[i].volume.effects)
  {
    RunKeeps(setup, states, steps, i);
  }

  lemma BeforeOrders(events: map<EventName, Event>, a: EventName, b: EventName)
    requires a in events && b in events
    ensures a == b || Before(events, a, b) || Before(events, b, a)
    ensures !(Before(events, a, b) && Before(events, b, a)) && !Before(events, a, a)
  {
    LessTotal(events[a].serial, events[b].serial);
    LessTotal(a, b);
    LessTotal(a, a);
  }

  lemma BeforeTransitive(events: map<EventName, Event>, a: EventName, b: EventName, c: EventName)
    requires a in events && b in events && c in events && Before(events, a, b) && Before(events, b, c)
    ensures Before(events, a, c)
  {
    var x, y, z := events[a].serial, events[b].serial, events[c].serial;
    LessTotal(x, z);
    if Less(x, y) && Less(y, z) {
      LessTransitive(x, y, z);
    }
    if Less(a, b) && Less(b, c) {
      LessTransitive(a, b, c);
    }
  }

  ghost predicate First(events: map<EventName, Event>, names: set<EventName>, n: EventName)
    requires names <= events.Keys
  {
    n in names && forall m :: m in names && m != n ==> Before(events, n, m)
  }

  lemma {:induction false} FirstExists(events: map<EventName, Event>, names: set<EventName>) returns (n: EventName)
    requires names <= events.Keys && |names| > 0
    ensures First(events, names, n)
    decreases |names|
  {
    var x := Member(names);
    var rest := names - {x};
    n := x;
    if |rest| > 0 {
      var m := FirstExists(events, rest);
      BeforeOrders(events, m, x);
      if Before(events, m, x) {
        n := m;
      } else {
        forall k | k in names && k != x ensures Before(events, x, k) {
          if k != m {
            BeforeTransitive(events, x, m, k);
          }
        }
      }
    }
  }

  /**
   A promotion is never blocked by an active preparation.  With the live lane free and a promotion
   pending, the tick cannot rest: it selects the oldest promotion, that and nothing else, and can
   submit it, whether or not a preparation is active.
   */
  lemma PromotionNeverWaitsForPreparation(setup: Setup, s: State) returns (n: EventName, t: State)
    requires s.process.Reconciling? && s.process.scan.todo == {} && !s.process.scan.live
    requires Promotions(setup.selected(s.config), s.volume, s.process.scan.handled) != {}
    ensures n in Promotions(setup.selected(s.config), s.volume, s.process.scan.handled)
    ensures forall chosen :: Choosing(setup, s, chosen) <==> chosen == [n]
    ensures forall u :: !Next(setup, s, Rest, u)
    ensures Next(setup, s, Propose([n], Frozen(s.volume.events[n].pushedAt, s.config)), t) && t.process.Submission?
    ensures t.process.request.operation.Promote? && t.process.request.events == [n]
  {
    var promotions := Promotions(setup.selected(s.config), s.volume, s.process.scan.handled);
    n := FirstExists(s.volume.events, promotions);
    assert Choosing(setup, s, [n]);
    forall chosen | Choosing(setup, s, chosen) ensures chosen == [n] {
      BeforeOrders(s.volume.events, chosen[0], n);
    }
    var push := s.volume.events[n];
    t := s.(process := Submission(Request(Promote, Frozen(push.pushedAt, s.config), [n], push), Journaling, s.process.scan, true));
  }

  /** No creation of `r` is pending in the running tick. */
  ghost predicate Settled(s: State, r: Request) {
    s.process.Submission? && s.process.request == r ==>
      !s.process.stage.Checkpointing? && s.process.stage != Looking(false) && !s.process.stage.Creating?
  }

  /** `r` is journaled remotely and was not created: nothing will create it. */
  ghost predicate Sealed(s: State, r: Request) {
    Inv(s) && Archived(s.archive, r) && Unsent(s.server.sent, r) && Settled(s, r)
  }

  /** `r` is journaled on a whole working volume and was not created. */
  ghost predicate Held(s: State, r: Request) {
    && Inv(s) && s.volume.cursors.Some? && Started(s.volume.effects, r)
    && Unsent(s.server.sent, r) && Settled(s, r)
  }

  /** Only a checkpoint of the volume replaces the archived one. */
  lemma ArchiveChanges(setup: Setup, s: State, step: Step, t: State)
    requires Next(setup, s, step, t)
    ensures t.archive == s.archive || (t.archive == Some(Snapshot(s.config, s.volume)) && !s.process.Down? && !s.process.Recovering?)
  {
  }

  /** The checkpoint never forgets a journaled submission. */
  lemma StepKeepsArchived(setup: Setup, s: State, step: Step, t: State, r: Request)
    requires Inv(s) && Next(setup, s, step, t) && Archived(s.archive, r)
    ensures Archived(t.archive, r)
  {
    ArchiveChanges(setup, s, step, t);
    if t.archive != s.archive {
      SnapshotKeeps(s, r);
    }
  }

  lemma SnapshotKeeps(s: State, r: Request)
    requires VolumeAgrees(s.volume, s.archive) && s.volume.cursors.Some? && Archived(s.archive, r)
    ensures Archived(Some(Snapshot(s.config, s.volume)), r)
  {
    assert r in s.volume.effects;
  }

  lemma StepKeepsUnsent(setup: Setup, s: State, step: Step, t: State, r: Request)
    requires Inv(s) && Next(setup, s, step, t) && Unsent(s.server.sent, r) && Settled(s, r)
    ensures Unsent(t.server.sent, r)
  {
    if step.Create? {
      assert s.volume.effects[s.process.request].definition.value.request == s.process.request;
    }
  }

  /** A request already journaled on a whole volume never re-enters the creating stages. */
  lemma StepKeepsSettled(setup: Setup, s: State, step: Step, t: State, r: Request)
    requires Inv(s) && Next(setup, s, step, t) && Settled(s, r)
    requires s.volume.cursors.Some? ==> Started(s.volume.effects, r)
    ensures Settled(t, r)
  {
    if s.process.Submission? {
      SubmissionSettles(setup, s, step, t, r);
    }
  }

  lemma SubmissionSettles(setup: Setup, s: State, step: Step, t: State, r: Request)
    requires Inv(s) && Next(setup, s, step, t) && Settled(s, r) && s.process.Submission?
    requires s.volume.cursors.Some? ==> Started(s.volume.effects, r)
    ensures Settled(t, r)
  {
  }

  lemma StepKeepsSealed(setup: Setup, s: State, step: Step, t: State, r: Request)
    requires Sealed(s, r) && Next(setup, s, step, t)
    ensures Sealed(t, r)
  {
    StepKeeps(setup, s, step, t);
    StepKeepsArchived(setup, s, step, t, r);
    StepKeepsUnsent(setup, s, step, t, r);
    StepKeepsSettled(setup, s, step, t, r);
  }

  lemma StepKeepsHeld(setup: Setup, s: State, step: Step, t: State, r: Request)
    requires Held(s, r) && Next(setup, s, step, t) && !step.LoseVolume?
    ensures Held(t, r)
  {
    StepKeeps(setup, s, step, t);
    StepKeepsUnsent(setup, s, step, t, r);
    StepKeepsSettled(setup, s, step, t, r);
    StepKeepsJournal(setup, s, step, t, r);
  }

  lemma StepKeepsJournal(setup: Setup, s: State, step: Step, t: State, r: Request)
    requires Inv(s) && Next(setup, s, step, t) && !step.LoseVolume?
    requires s.volume.cursors.Some? && Started(s.volume.effects, r)
    ensures t.volume.cursors.Some? && Started(t.volume.effects, r)
  {
    if step.Reject? {
      var push := s.volume.events[step.chosen[|step.chosen| - 1]];
      ChosenIsNew(setup, s, step.chosen, Request(Promote, Bare(push.pushedAt), step.chosen, push));
    }
  }

  /** A finished, failed or unknown effect is never rewritten while the volume is retained. */
  lemma StepAbsorbs(setup: Setup, s: State, step: Step, t: State, r: Request)
    requires Inv(s) && Next(setup, s, step, t) && !step.LoseVolume? && s.volume.cursors.Some?
    requires r in s.volume.effects && Terminal(s.volume.effects[r].state)
    ensures t.volume.cursors.Some? && r in t.volume.effects && t.volume.effects[r] == s.volume.effects[r]
  {
    if step.Reject? {
      var push := s.volume.events[step.chosen[|step.chosen| - 1]];
      ChosenIsNew(setup, s, step.chosen, Request(Promote, Bare(push.pushedAt), step.chosen, push));
    }
  }

  lemma {:induction false} SealedForever(setup: Setup, states: seq<State>, steps: seq<Step>, i: nat, j: nat, r: Request)
    requires Run(setup, states, steps) && i <= j <= |steps| && Sealed(states[i], r)
    ensures Sealed(states[j], r)
  {
    if i < j {
      SealedForever(setup, states, steps, i, j - 1, r);
      StepKeepsSealed(setup, states[j - 1], steps[j - 1], states[j], r);
    }
  }

  lemma {:induction false} HeldWhileRetained(setup: Setup, states: seq<State>, steps: seq<Step>, i: nat, j: nat, r: Request)
    requires Run(setup, states, steps) && i <= j <= |steps| && Held(states[i], r)
    requires forall k :: i <= k < j ==> !steps[k].LoseVolume?
    ensures Held(states[j], r)
  {
    if i < j {
      HeldWhileRetained(setup, states, steps, i, j - 1, r);
      StepKeepsHeld(setup, states[j - 1], steps[j - 1], states[j], r);
    }
  }

  /**
   A journaled submission whose journal reached the checkpoint before the coordinator stopped is
   never created afterwards, whatever the environment does, including loss of the volume.
   */
  lemma ArchivedJournalNeverCreated(setup: Setup, states: seq<State>, steps: seq<Step>, i: nat, j: nat, r: Request)
    requires Run(setup, states, steps) && i <= j <= |steps|
    requires states[i].process.Down? && Archived(states[i].archive, r) && Unsent(states[i].server.sent, r)
    ensures Unsent(states[j].server.sent, r)
  {
    RunKeeps(setup, states, steps, i);
    SealedForever(setup, states, steps, i, j, r);
  }

  /** The same for a journal that is only on the working volume, as long as that volume is retained. */
  lemma RetainedJournalNeverCreated(setup: Setup, states: seq<State>, steps: seq<Step>, i: nat, j: nat, r: Request)
    requires Run(setup, states, steps) && i <= j <= |steps|
    requires forall k :: i <= k < j ==> !steps[k].LoseVolume?
    requires states[i].process.Down? && states[i].volume.cursors.Some?
    requires Started(states[i].volume.effects, r) && Unsent(states[i].server.sent, r)
    ensures Unsent(states[j].server.sent, r)
  {
    RunKeeps(setup, states, steps, i);
    HeldWhileRetained(setup, states, steps, i, j, r);
  }

  /** On a retained volume terminal effects stay as they are, archived or not. */
  lemma {:induction false} TerminalWhileRetained(setup: Setup, states: seq<State>, steps: seq<Step>, i: nat, j: nat, r: Request)
    requires Run(setup, states, steps) && i <= j <= |steps|
    requires forall k :: i <= k < j ==> !steps[k].LoseVolume?
    requires states[i].volume.cursors.Some? && r in states[i].volume.effects && Terminal(states[i].volume.effects[r].state)
    ensures states[j].volume.cursors.Some? && r in states[j].volume.effects
    ensures states[j].volume.effects[r] == states[i].volume.effects[r]
    decreases j
  {
    if i < j {
      TerminalWhileRetained(setup, states, steps, i, j - 1, r);
      RunKeeps(setup, states, steps, j - 1);
      StepAbsorbs(setup, states[j - 1], steps[j - 1], states[j], r);
    }
  }

  ghost predicate HasFinal(e: Effects, r: Request, value: Effect) {
    r in e && e[r] == value && Terminal(value.state)
  }

  /** A whole volume has every terminal effect of the checkpoint, unchanged. */
  ghost predicate FinalsAgree(volume: Volume, archive: Option<Checkpoint>) {
    volume.cursors.Some? && archive.Some? ==>
      forall r :: r in archive.value.effects && Terminal(archive.value.effects[r].state) ==>
                    HasFinal(volume.effects, r, archive.value.effects[r])
  }

  /** Recovery ends with the checkpoint's effects on the volume. */
  lemma RecoveredFinals(setup: Setup, s: State, step: Step, t: State)
    requires Inv(s) && Next(setup, s, step, t) && s.volume.cursors.None? && t.volume.cursors.Some?
    ensures t.archive == s.archive && FinalsAgree(t.volume, t.archive)
  {
  }

  lemma StepKeepsFinals(setup: Setup, s: State, step: Step, t: State)
    requires Inv(s) && Next(setup, s, step, t) && FinalsAgree(s.volume, s.archive)
    ensures FinalsAgree(t.volume, t.archive)
  {
    ArchiveChanges(setup, s, step, t);
    if t.volume.cursors.Some? && s.volume.cursors.None? {
      RecoveredFinals(setup, s, step, t);
    } else if t.volume.cursors.Some? && t.archive.Some? {
      forall r | r in t.archive.value.effects && Terminal(t.archive.value.effects[r].state)
        ensures HasFinal(t.volume.effects, r, t.archive.value.effects[r])
      {
        assert HasFinal(s.volume.effects, r, t.archive.value.effects[r]);
        StepAbsorbs(setup, s, step, t, r);
      }
    }
  }

  lemma {:induction false} FinalsInEveryState(setup: Setup, states: seq<State>, steps: seq<Step>, i: nat)
    requires Run(setup, states, steps) && i <= |steps|
    ensures FinalsAgree(states[i].volume, states[i].archive)
  {
    if i > 0 {
      FinalsInEveryState(setup, states, steps, i - 1);
      RunKeeps(setup, states, steps, i - 1);
      StepKeepsFinals(setup, states[i - 1], steps[i - 1], states[i]);
    }
  }

  /**
   Terminal effects, among them `submission_unknown`, are absorbing: once in the archived checkpoint
   an effect stays as it is in every later checkpoint and on every later whole volume, through any
   number of volume losses and recoveries.
   */
  lemma {:induction false} TerminalEffectsAbsorb(setup: Setup, states: seq<State>, steps: seq<Step>, i: nat, j: nat, r: Request, value: Effect)
    requires Run(setup, states, steps) && i <= j <= |steps|
    requires states[i].archive.Some? && HasFinal(states[i].archive.value.effects, r, value)
    ensures states[j].archive.Some? && HasFinal(states[j].archive.value.effects, r, value)
    ensures states[j].volume.cursors.Some? ==> HasFinal(states[j].volume.effects, r, value)
    decreases j
  {
    FinalsInEveryState(setup, states, steps, j);
    if i < j {
      TerminalEffectsAbsorb(setup, states, steps, i, j - 1, r, value);
      RunKeeps(setup, states, steps, j - 1);
      ArchiveChanges(setup, states[j - 1], steps[j - 1], states[j]);
    }
  }

  // ---------- Journals and the loss of volumes ----------

  /** A submission is journaled in the checkpoint or on a whole volume. */
  ghost predicate JournalKnown(s: State, r: Request) {
    Archived(s.archive, r) || (s.volume.cursors.Some? && Started(s.volume.effects, r))
  }

  ghost predicate LosesNothing(s: State) {
    s.volume.cursors.Some? ==> forall r :: Started(s.volume.effects, r) ==> Archived(s.archive, r)
  }

  ghost predicate CarefulStep(s: State, step: Step) {
    step.LoseVolume? ==> LosesNothing(s)
  }

  /** A volume is lost only while every journal on it is in the checkpoint. */
  ghost predicate Careful(states: seq<State>, steps: seq<Step>) {
    |states| == |steps| + 1 && forall k :: 0 <= k < |steps| ==> CarefulStep(states[k], steps[k])
  }

  ghost predicate Standing(s: State, r: Request) {
    Inv(s) && JournalKnown(s, r) && Unsent(s.server.sent, r) && Settled(s, r)
  }

  lemma StepKeepsStanding(setup: Setup, s: State, step: Step, t: State, r: Request)
    requires Standing(s, r) && Next(setup, s, step, t) && CarefulStep(s, step)
    ensures Standing(t, r)
  {
    if Archived(s.archive, r) || step.LoseVolume? {
      StepKeepsSealed(setup, s, step, t, r);
    } else {
      StepKeepsHeld(setup, s, step, t, r);
    }
  }

  lemma StandsAtStop(s: State, r: Request)
    requires Inv(s) && s.process.Down? && JournalKnown(s, r) && Unsent(s.server.sent, r)
    ensures Standing(s, r)
  {
  }

  lemma StandsNext(setup: Setup, states: seq<State>, steps: seq<Step>, k: nat, r: Request)
    requires Run(setup, states, steps) && Careful(states, steps) && k < |steps| && Standing(states[k], r)
    ensures Standing(states[k + 1], r)
  {
    assert Next(setup, states[k], steps[k], states[k + 1]) && CarefulStep(states[k], steps[k]);
    StepKeepsStanding(setup, states[k], steps[k], states[k + 1], r);
  }

  lemma {:induction false} StandsForever(states: seq<State>, i: nat, j: nat, r: Request)
    requires i <= j < |states| && Standing(states[i], r)
    requires forall k :: i <= k < j && Standing(states[k], r) ==> Standing(states[k + 1], r)
    ensures Standing(states[j], r)
  {
    if i < j {
      StandsForever(states, i, j - 1, r);
      assert Standing(states[j - 1 + 1], r);
    }
  }

  /** Where volumes are lost carefully, no journaled and unsent submission is created after a stop. */
  lemma JournalStaysUnsent(setup: Setup, states: seq<State>, steps: seq<Step>, i: nat, j: nat, r: Request)
    requires Run(setup, states, steps) && Careful(states, steps) && i <= j <= |steps|
    requires states[i].process.Down? && JournalKnown(states[i], r) && Unsent(states[i].server.sent, r)
    ensures Unsent(states[j].server.sent, r)
  {
    RunKeeps(setup, states, steps, i);
    StandsAtStop(states[i], r);
    forall k | i <= k < j && Standing(states[k], r) ensures Standing(states[k + 1], r) {
      StandsNext(setup, states, steps, k, r);
    }
    StandsForever(states, i, j, r);
  }
}
