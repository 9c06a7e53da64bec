/**
 At-most-once execution with late checkpoint writes and any recovery, as long as no submission relies on
 a checkpoint that was skipped because the stored one is equal, while a write is in flight.
 */
module CoordinatorWritten {
  import opened Prelude
  import opened Coordinator
  import opened CoordinatorSafety
  import opened CoordinatorLate

  /** A checkpoint before a submission is written, unless no write is in flight. */
  ghost predicate WrittenMove(w: World, move: Move, v: World) {
    move == Plain(Save) && w.late != {} ==> v.base.archive != w.base.archive
  }

  ghost predicate Written(worlds: seq<World>, moves: seq<Move>) {
    |worlds| == |moves| + 1 && forall i :: 0 <= i < |moves| ==> WrittenMove(worlds[i], moves[i], worlds[i + 1])
  }

  // ---------- Invariant ----------

  /** Every creation ever transmitted is journaled among the effects. */
  ghost predicate Carries(sent: seq<Definition>, e: Effects) {
    forall i :: 0 <= i < |sent| ==> Started(e, sent[i].request)
  }

  ghost predicate Good(sent: seq<Definition>, e: Effects) {
    Sane(e) && Carries(sent, e)
  }

  /** The request shares no event with what was transmitted. */
  ghost predicate Unshared(sent: seq<Definition>, r: Request) {
    forall i :: 0 <= i < |sent| ==> Apart(sent[i].request, r)
  }

  ghost predicate Foreign(e: Effects, r: Request) {
    r !in e && forall q :: q in e ==> Apart(q, r)
  }

  /** The events of the markers already visited are accounted for. */
  ghost predicate Noted(e: Effects, scan: Scan) {
    scan.todo <= e.Keys && forall r :: r in e && r !in scan.todo ==> forall n :: n in r.events ==> n in scan.handled
  }

  ghost predicate SubmissionFits(w: World)
    requires w.base.process.Submission?
  {
    var e, r, stage, scan := w.base.volume.effects, w.base.process.request, w.base.process.stage, w.base.process.scan;
    && (!w.base.process.newWork ==> r in scan.todo && Noted(e, scan))
    && if stage.Journaling? then w.base.process.newWork ==> Foreign(e, r)
       else
         && Started(e, r) && (stage.Checkpointing? ==> Unshared(w.base.server.sent, r))
         && (stage == Looking(false) || stage.Creating? ==>
               Unshared(w.base.server.sent, r) && Archived(w.base.archive, r) && w.late == {})
  }

  ghost predicate ProcessFits(w: World) {
    match w.base.process
    case Recovering(goal) =>
      && Good(w.base.server.sent, goal.effects)
      && forall r :: r in goal.effects && r in w.base.volume.effects ==> w.base.volume.effects[r] == goal.effects[r]
    case Reconciling(scan) => Noted(w.base.volume.effects, scan)
    case Submission(_, _, _, _) => SubmissionFits(w)
    case _ => true
  }

  /** What is stored or in flight has every transmitted creation, and so has a whole volume. */
  ghost predicate StoresFit(w: World) {
    var s := w.base;
    && Sane(s.volume.effects) && (s.volume.cursors.Some? ==> Carries(s.server.sent, s.volume.effects))
    && (s.archive.Some? ==> Good(s.server.sent, s.archive.value.effects)) && (s.archive.None? ==> s.server.sent == [])
    && (forall c :: c in w.late ==> Good(s.server.sent, c.effects))
    && (s.volume.cursors.None? ==> s.process.Down? || s.process.Recovering?)
  }

  ghost predicate WrittenInv(w: World) {
    Admissions(w.base.server) && AllApart(w.base.server.sent) && StoresFit(w) && ProcessFits(w)
  }

  // ---------- Steps ----------

  ghost predicate Outside(step: Step) {
    step.Crash? || step.LoseVolume? || step.Upgrade? || step.Progress? || step.Vanish? || step.Deliver?
  }

  lemma OutsideFits(setup: Setup, w: World, step: Step, v: World)
    requires WrittenInv(w) && Follows(setup, w, Plain(step), v) && Outside(step)
    ensures WrittenInv(v)
  {
    if step.Deliver? {
      DeliveryKeepsAdmissions(setup, w.base, step.ticket, v.base);
    }
  }

  lemma RecoveryFits(setup: Setup, w: World, step: Step, v: World)
    requires WrittenInv(w) && Follows(setup, w, Plain(step), v)
    requires step.Begin? || step.RestoreEffect? || step.RestoreEvent? || step.RestoreCursors? || step.Ingest?
    ensures WrittenInv(v)
  {
  }

  lemma JournalFits(setup: Setup, w: World, v: World)
    requires WrittenInv(w) && Follows(setup, w, Plain(Journal), v)
    ensures WrittenInv(v)
  {
    var r, e := w.base.process.request, w.base.volume.effects;
    if w.base.process.newWork {
      forall i | 0 <= i < |w.base.server.sent| ensures Apart(w.base.server.sent[i].request, r) {
        assert Started(e, w.base.server.sent[i].request);
      }
    }
  }

  lemma SaveFits(setup: Setup, w: World, step: Step, v: World)
    requires WrittenInv(w) && Follows(setup, w, Plain(step), v) && WrittenMove(w, Plain(step), v) && (step.Save? || step.Finish?)
    ensures WrittenInv(v)
  {
  }

  lemma StageFits(w: World, stage: Stage)
    requires WrittenInv(w) && w.base.process.Submission? && !w.base.process.stage.Journaling?
    requires stage.Absent? || stage.Adopting? || (stage.Creating? && w.base.process.stage == Looking(false))
    ensures WrittenInv(World(w.base.(process := w.base.process.(stage := stage)), w.late))
  {
  }

  lemma LookFits(setup: Setup, w: World, step: Step, v: World)
    requires WrittenInv(w) && Follows(setup, w, Plain(step), v) && (step.Look? || step.Reply?)
    ensures WrittenInv(v)
  {
    LookMoves(setup, w, step, v);
    StageFits(w, v.base.process.stage);
  }

  lemma LookMoves(setup: Setup, w: World, step: Step, v: World)
    requires Follows(setup, w, Plain(step), v) && (step.Look? || step.Reply?)
    ensures w.base.process.Submission? && !w.base.process.stage.Journaling? && v.base.process.Submission?
    ensures var stage := v.base.process.stage;
            && (stage.Absent? || stage.Adopting? || (stage.Creating? && w.base.process.stage == Looking(false)))
            && v == World(w.base.(process := w.base.process.(stage := stage)), w.late)
  {
  }

  lemma ReconcileFits(setup: Setup, w: World, step: Step, v: World)
    requires WrittenInv(w) && Follows(setup, w, Plain(step), v) && step.Reconcile?
    ensures WrittenInv(v)
  {
  }

  lemma CreateFits(setup: Setup, w: World, v: World)
    requires WrittenInv(w) && Follows(setup, w, Plain(Create), v)
    ensures WrittenInv(v)
  {
    var r, sent := w.base.process.request, w.base.server.sent;
    assert w.base.volume.effects[r].definition.value.request == r;
    assert v.late == {} && Started(w.base.archive.value.effects, r) && Started(w.base.volume.effects, r);
  }

  lemma RewriteGood(sent: seq<Definition>, e: Effects, r: Request, value: Effect)
    requires Good(sent, e) && Started(e, r) && value.started && value.definition == e[r].definition
    ensures Good(sent, e[r := value])
  {
  }

  /** The marker of a submission is rewritten and the tick goes on. */
  lemma ReturnFits(w: World, value: Effect)
    requires WrittenInv(w) && w.base.process.Submission? && !w.base.process.stage.Journaling? && w.base.volume.cursors.Some?
    requires w.base.process.request in w.base.volume.effects
    requires value.started && value.definition == w.base.volume.effects[w.base.process.request].definition
    ensures var r := w.base.process.request;
            WrittenInv(World(w.base.(volume := w.base.volume.(effects := w.base.volume.effects[r := value]),
                                     process := Returned(w.base.process, value)), w.late))
  {
    RewriteGood(w.base.server.sent, w.base.volume.effects, w.base.process.request, value);
  }

  lemma MarkerFits(setup: Setup, w: World, step: Step, v: World)
    requires WrittenInv(w) && Follows(setup, w, Plain(step), v) && (step.Unknown? || step.Adopt?)
    ensures WrittenInv(v)
  {
    ReturnFits(w, v.base.volume.effects[w.base.process.request]);
  }

  /** Selected events belong to no effect on the volume. */
  lemma SelectedIsForeign(setup: Setup, s: State, chosen: seq<EventName>, r: Request)
    requires Choosing(setup, s, chosen) && Noted(s.volume.effects, s.process.scan) && r.events == chosen
    ensures Foreign(s.volume.effects, r)
  {
    forall n | n in chosen ensures n !in s.process.scan.handled {
      assert n in Pending(setup.selected(s.config), s.volume, s.process.scan.handled);
    }
    assert chosen[0] in chosen;
  }

  lemma ChoiceFits(setup: Setup, w: World, step: Step, v: World)
    requires WrittenInv(w) && Follows(setup, w, Plain(step), v) && (step.Rest? || step.Reject? || step.Propose?)
    ensures WrittenInv(v)
  {
    match step
    case Propose(chosen, _) => SelectedIsForeign(setup, w.base, chosen, v.base.process.request);
    case Reject(chosen) =>
      var push := w.base.volume.events[chosen[|chosen| - 1]];
      SelectedIsForeign(setup, w.base, chosen, Request(Promote, Bare(push.pushedAt), chosen, push));
    case _ =>
  }

  lemma DispatchFits(setup: Setup, w: World, v: World)
    requires WrittenInv(w) && Follows(setup, w, Dispatch, v)
    ensures WrittenInv(v)
  {
  }

  lemma ArriveFits(setup: Setup, w: World, c: Checkpoint, v: World)
    requires WrittenInv(w) && Follows(setup, w, Arrive(c), v)
    ensures WrittenInv(v)
  {
    assert Good(w.base.server.sent, c.effects);
  }

  lemma PlainFits(setup: Setup, w: World, step: Step, v: World)
    requires WrittenInv(w) && Follows(setup, w, Plain(step), v) && WrittenMove(w, Plain(step), v)
    ensures WrittenInv(v)
  {
    if Outside(step) {
      OutsideFits(setup, w, step, v);
    } else if step.Begin? || step.RestoreEffect? || step.RestoreEvent? || step.RestoreCursors? || step.Ingest? {
      RecoveryFits(setup, w, step, v);
    } else if step.Rest? || step.Reject? || step.Propose? {
      ChoiceFits(setup, w, step, v);
    } else if step.Journal? {
      JournalFits(setup, w, v);
    } else if step.Create? {
      CreateFits(setup, w, v);
    } else if step.Save? || step.Finish? {
      SaveFits(setup, w, step, v);
    } else if step.Unknown? || step.Adopt? {
      MarkerFits(setup, w, step, v);
    } else if step.Reconcile? {
      ReconcileFits(setup, w, step, v);
    } else {
      LookFits(setup, w, step, v);
    }
  }

  lemma MoveFits(setup: Setup, w: World, move: Move, v: World)
    requires WrittenInv(w) && Follows(setup, w, move, v) && WrittenMove(w, move, v)
    ensures WrittenInv(v)
  {
    match move
    case Plain(step) => PlainFits(setup, w, step, v);
    case Dispatch => DispatchFits(setup, w, v);
    case Arrive(c) => ArriveFits(setup, w, c, v);
  }

  lemma {:induction false} WrittenKeeps(setup: Setup, worlds: seq<World>, moves: seq<Move>, i: nat)
    requires LateRun(setup, worlds, moves) && Written(worlds, moves) && i <= |moves|
    ensures WrittenInv(worlds[i])
  {
    if i > 0 {
      WrittenKeeps(setup, worlds, moves, i - 1);
      assert WrittenMove(worlds[i - 1], moves[i - 1], worlds[i - 1 + 1]);
      MoveFits(setup, worlds[i - 1], moves[i - 1], worlds[i]);
    }
  }

  /** At most once, with late writes and any recovery, if no needed checkpoint is skipped under way. */
  lemma WrittenAtMostOnce(setup: Setup, worlds: seq<World>, moves: seq<Move>, i: nat)
    requires LateRun(setup, worlds, moves) && Written(worlds, moves) && i <= |moves|
    ensures ExecutedOnce(worlds[i].base)
  {
    WrittenKeeps(setup, worlds, moves, i);
    AdmittedApart(worlds[i].base);
  }
}
