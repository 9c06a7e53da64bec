/**
 What a checkpoint write does that arrives after its sender stopped, a volume was lost and another
 coordinator recovered from the older checkpoint: exactly which laws of the coordinator it breaks.
 */
module CoordinatorLateWitness {
  import opened Prelude
  import opened Coordinator
  import opened CoordinatorSafety
  import opened CoordinatorLate
  import opened CoordinatorWritten
  import W = CoordinatorWitness

  /** Configuration 0 does not read the repository of the push; configuration 1 does. */
  const WANTED := Request(Promote, Frozen(1, 1), ["e"], W.PUSH)
  const ORDER := Definition(WANTED, 1)
  const MARKER := Effect(Submitting, true, Some(ORDER), None)
  const JOURNALED := Volume(Some(0), map[WANTED := MARKER], map["e" := W.PUSH])
  const SAVED := Checkpoint(1, 0, map[WANTED := MARKER], map["e" := W.PUSH])
  const REFUSED := Request(Promote, Bare(1), ["e"], W.PUSH)
  const FAILED := Effect(Failed, false, None, None)
  const REJECTED := Volume(Some(0), map[REFUSED := FAILED], map["e" := W.PUSH])
  const REFUSAL := Checkpoint(1, 0, map[REFUSED := FAILED], map["e" := W.PUSH])

  function At(config: int, server: Server, volume: Volume, archive: Option<Checkpoint>, process: Process, late: set<Checkpoint>): World {
    World(State(config, server, volume, archive, process), late)
  }

  function Wanted(stage: Stage): Process {
    Submission(WANTED, stage, W.SCAN, true)
  }

  // ---------- Runs in pieces ----------

  /** A run that ends in `w`; if `written`, without a checkpoint skipped under way. */
  ghost predicate Ends(setup: Setup, worlds: seq<World>, moves: seq<Move>, w: World, written: bool) {
    LateRun(setup, worlds, moves) && worlds[|moves|] == w && (written ==> Written(worlds, moves))
  }

  lemma Extend(setup: Setup, worlds: seq<World>, moves: seq<Move>, w: World, written: bool, move: Move, v: World)
    returns (ws: seq<World>, ms: seq<Move>)
    requires Ends(setup, worlds, moves, w, written) && Follows(setup, w, move, v) && (written ==> WrittenMove(w, move, v))
    ensures Ends(setup, ws, ms, v, written) && worlds <= ws
  {
    ws, ms := worlds + [v], moves + [move];
    forall i | 0 <= i < |ms| ensures Follows(setup, ws[i], ms[i], ws[i + 1]) && (written ==> WrittenMove(ws[i], ms[i], ws[i + 1])) {
      if i < |moves| {
        assert ws[i + 1] == worlds[i + 1] && ms[i] == moves[i];
        assert written ==> WrittenMove(worlds[i], moves[i], worlds[i + 1]);
      }
    }
  }

  /** The coordinator is started again on a whole volume, under another configuration. */
  lemma Restarts(setup: Setup, worlds: seq<World>, moves: seq<Move>, a: World, written: bool, config: int)
    returns (ws: seq<World>, ms: seq<Move>)
    requires Ends(setup, worlds, moves, a, written) && a.base.process.Down? && a.base.volume.cursors.Some?
    ensures Ends(setup, ws, ms, World(a.base.(config := config, process := Intake), a.late), written) && worlds <= ws
  {
    var b := World(a.base.(config := config), a.late);
    ws, ms := Extend(setup, worlds, moves, a, written, Plain(Upgrade(config)), b);
    ws, ms := Extend(setup, ws, ms, b, written, Plain(Begin), World(b.base.(process := Intake), a.late));
  }

  /** A tick that reads nothing new and has nothing to do. */
  lemma Idles(setup: Setup, worlds: seq<World>, moves: seq<Move>, archive: Option<Checkpoint>, written: bool)
    returns (ws: seq<World>, ms: seq<Move>)
    requires Ends(setup, worlds, moves, At(0, W.IDLE, W.EMPTY, archive, Intake, {}), written)
    ensures Ends(setup, ws, ms, At(0, W.IDLE, W.EMPTY, archive, Finishing, {}), written) && worlds <= ws
  {
    W.IngestFromBoundary();
    var a := At(0, W.IDLE, W.EMPTY, archive, Intake, {});
    var b := At(0, W.IDLE, W.EMPTY, archive, Reconciling(W.SCAN), {});
    ws, ms := Extend(setup, worlds, moves, a, written, Plain(Ingest(map[], 0)), b);
    assert Pending(setup.selected(0), W.EMPTY, {}) == {};
    ws, ms := Extend(setup, ws, ms, b, written, Plain(Rest), At(0, W.IDLE, W.EMPTY, archive, Finishing, {}));
  }

  /** A tick that reads the push. */
  lemma ReadsPush(setup: Setup, worlds: seq<World>, moves: seq<Move>, server: Server, archive: Option<Checkpoint>,
                  late: set<Checkpoint>, written: bool)
    returns (ws: seq<World>, ms: seq<Move>, b: World)
    requires Ends(setup, worlds, moves, At(1, server, W.EMPTY, archive, Intake, late), written)
    ensures b == At(1, server, W.LISTED, archive, Reconciling(W.SCAN), late) && Choosing(setup, b.base, ["e"])
    ensures Ends(setup, ws, ms, b, written) && worlds <= ws
  {
    W.IngestFromBoundary();
    b := At(1, server, W.LISTED, archive, Reconciling(W.SCAN), late);
    ws, ms := Extend(setup, worlds, moves, At(1, server, W.EMPTY, archive, Intake, late), written, Plain(Ingest(map["e" := W.PUSH], 0)), b);
    W.SelectsPush(setup, b.base);
  }

  /** It journals the promotion. */
  lemma Submits(setup: Setup, worlds: seq<World>, moves: seq<Move>, server: Server, archive: Option<Checkpoint>,
                late: set<Checkpoint>, written: bool)
    returns (ws: seq<World>, ms: seq<Move>)
    requires Ends(setup, worlds, moves, At(1, server, W.EMPTY, archive, Intake, late), written)
    ensures Ends(setup, ws, ms, At(1, server, JOURNALED, archive, Wanted(Checkpointing), late), written) && worlds <= ws
  {
    var b;
    ws, ms, b := ReadsPush(setup, worlds, moves, server, archive, late, written);
    var c := At(1, server, W.LISTED, archive, Wanted(Journaling), late);
    ws, ms := Extend(setup, ws, ms, b, written, Plain(Propose(["e"], Frozen(1, 1))), c);
    ws, ms := Extend(setup, ws, ms, c, written, Plain(Journal), At(1, server, JOURNALED, archive, Wanted(Checkpointing), late));
  }

  /** The volume is lost and recovered from the first checkpoint, under its configuration. */
  lemma Restores(setup: Setup, worlds: seq<World>, moves: seq<Move>, a: World, written: bool)
    returns (ws: seq<World>, ms: seq<Move>)
    requires Ends(setup, worlds, moves, a, written) && a.base.archive == Some(W.BOUNDARY)
    ensures Ends(setup, ws, ms, At(0, a.base.server, W.EMPTY, Some(W.BOUNDARY), Intake, a.late), written) && worlds <= ws
  {
    var b := At(a.base.config, a.base.server, LOST, Some(W.BOUNDARY), Down, a.late);
    var c := At(0, a.base.server, LOST, Some(W.BOUNDARY), Down, a.late);
    var d := At(0, a.base.server, LOST, Some(W.BOUNDARY), Recovering(W.BOUNDARY), a.late);
    ws, ms := Extend(setup, worlds, moves, a, written, Plain(LoseVolume), b);
    ws, ms := Extend(setup, ws, ms, b, written, Plain(Upgrade(0)), c);
    ws, ms := Extend(setup, ws, ms, c, written, Plain(Begin), d);
    ws, ms := Extend(setup, ws, ms, d, written, Plain(RestoreCursors), At(0, a.base.server, W.EMPTY, Some(W.BOUNDARY), Intake, a.late));
  }

  /** The Job is not there and its creation is transmitted. */
  lemma Creates(setup: Setup, worlds: seq<World>, moves: seq<Move>, server: Server, late: set<Checkpoint>, written: bool)
    returns (ws: seq<World>, ms: seq<Move>)
    requires Ends(setup, worlds, moves, At(1, server, JOURNALED, Some(SAVED), Wanted(Looking(false)), late), written)
    requires setup.naming(WANTED) !in server.jobs
    ensures Ends(setup, ws, ms, At(1, server.(sent := server.sent + [ORDER]), JOURNALED, Some(SAVED), Wanted(Waiting(|server.sent|)), late), written)
    ensures worlds <= ws
  {
    var a := At(1, server, JOURNALED, Some(SAVED), Wanted(Looking(false)), late);
    var b := At(1, server, JOURNALED, Some(SAVED), Wanted(Creating), late);
    ws, ms := Extend(setup, worlds, moves, a, written, Plain(Look(false)), b);
    ws, ms := Extend(setup, ws, ms, b, written, Plain(Create),
      At(1, server.(sent := server.sent + [ORDER]), JOURNALED, Some(SAVED), Wanted(Waiting(|server.sent|)), late));
  }

  /** The first tick archives the empty boundary; the second one starts under the other configuration. */
  lemma Opens(setup: Setup) returns (ws: seq<World>, ms: seq<Move>)
    ensures Ends(setup, ws, ms, At(1, W.IDLE, W.EMPTY, Some(W.BOUNDARY), Intake, {}), true)
  {
    var a := At(0, W.IDLE, W.EMPTY, None, Down, {});
    ws, ms := [a], [];
    assert Ends(setup, ws, ms, a, true);
    ws, ms := Extend(setup, ws, ms, a, true, Plain(Begin), At(0, W.IDLE, W.EMPTY, None, Intake, {}));
    ws, ms := Idles(setup, ws, ms, None, true);
    var b := At(0, W.IDLE, W.EMPTY, None, Finishing, {});
    var c := At(0, W.IDLE, W.EMPTY, Some(W.BOUNDARY), Down, {});
    ws, ms := Extend(setup, ws, ms, b, true, Plain(Finish), c);
    ws, ms := Restarts(setup, ws, ms, c, true, 1);
  }

  lemma Different()
    ensures W.BOUNDARY != SAVED && W.BOUNDARY != REFUSAL
  {
  }

  /** A coordinator stops while its checkpoint is in flight; the volume is lost and recovered; the write arrives. */
  lemma ArrivesAfterRecovery(setup: Setup, worlds: seq<World>, moves: seq<Move>, volume: Volume, process: Process, c: Checkpoint)
    returns (ws: seq<World>, ms: seq<Move>)
    requires Ends(setup, worlds, moves, At(1, W.IDLE, volume, Some(W.BOUNDARY), process, {}), true)
    requires volume.cursors.Some? && Snapshot(1, volume) == c && c != W.BOUNDARY
    requires process.Finishing? || (process.Submission? && process.stage.Checkpointing?)
    ensures Ends(setup, ws, ms, At(0, W.IDLE, W.EMPTY, Some(c), Intake, {}), true)
  {
    var a := At(1, W.IDLE, volume, Some(W.BOUNDARY), process, {});
    var b := At(1, W.IDLE, volume, Some(W.BOUNDARY), Down, {c});
    assert {} + {c} == {c};
    ws, ms := Extend(setup, worlds, moves, a, true, Dispatch, b);
    ws, ms := Restores(setup, ws, ms, b, true);
    var d := At(0, W.IDLE, W.EMPTY, Some(W.BOUNDARY), Intake, {c});
    ws, ms := Extend(setup, ws, ms, d, true, Arrive(c), At(0, W.IDLE, W.EMPTY, Some(c), Intake, {}));
  }

  lemma JournalArrives(setup: Setup) returns (ws: seq<World>, ms: seq<Move>)
    ensures Ends(setup, ws, ms, At(0, W.IDLE, W.EMPTY, Some(SAVED), Intake, {}), true)
  {
    ws, ms := Opens(setup);
    ws, ms := Submits(setup, ws, ms, W.IDLE, Some(W.BOUNDARY), {}, true);
    Different();
    ws, ms := ArrivesAfterRecovery(setup, ws, ms, JOURNALED, Wanted(Checkpointing), SAVED);
  }

  /** The journal in the checkpoint is not on the volume, and its submission is created. */
  lemma ArchivedJournalCreated(setup: Setup) returns (ws: seq<World>, ms: seq<Move>, i: nat)
    ensures LateRun(setup, ws, ms) && Written(ws, ms) && i <= |ms|
    ensures ws[i].base.process.Down? && Archived(ws[i].base.archive, WANTED) && Unsent(ws[i].base.server.sent, WANTED)
    ensures !Unsent(ws[|ms|].base.server.sent, WANTED)
  {
    ws, ms := JournalArrives(setup);
    var a := At(0, W.IDLE, W.EMPTY, Some(SAVED), Intake, {});
    var b := At(0, W.IDLE, W.EMPTY, Some(SAVED), Down, {});
    ws, ms := Extend(setup, ws, ms, a, true, Plain(Crash), b);
    i := |ms|;
    ws, ms := Restarts(setup, ws, ms, b, true, 1);
    ws, ms := Submits(setup, ws, ms, W.IDLE, Some(SAVED), {}, true);
    var c := At(1, W.IDLE, JOURNALED, Some(SAVED), Wanted(Checkpointing), {});
    ws, ms := Extend(setup, ws, ms, c, true, Plain(Save), At(1, W.IDLE, JOURNALED, Some(SAVED), Wanted(Looking(false)), {}));
    ws, ms := Creates(setup, ws, ms, W.IDLE, {}, true);
    assert ws[i] == b;
    assert ws[|ms|].base.server.sent[0] == ORDER;
  }

  /** A terminal effect arrives with a late checkpoint, and the next one forgets it. */
  lemma ArchivedFinalForgotten(setup: Setup) returns (ws: seq<World>, ms: seq<Move>, i: nat)
    ensures LateRun(setup, ws, ms) && Written(ws, ms) && i <= |ms|
    ensures FinalArchived(ws[i].base, REFUSED, FAILED) && !FinalArchived(ws[|ms|].base, REFUSED, FAILED)
  {
    ws, ms := Opens(setup);
    var b;
    ws, ms, b := ReadsPush(setup, ws, ms, W.IDLE, Some(W.BOUNDARY), {}, true);
    ws, ms := Extend(setup, ws, ms, b, true, Plain(Reject(["e"])), At(1, W.IDLE, REJECTED, Some(W.BOUNDARY), Finishing, {}));
    Different();
    ws, ms := ArrivesAfterRecovery(setup, ws, ms, REJECTED, Finishing, REFUSAL);
    i := |ms|;
    ws, ms := Idles(setup, ws, ms, Some(REFUSAL), true);
    var c := At(0, W.IDLE, W.EMPTY, Some(REFUSAL), Finishing, {});
    ws, ms := Extend(setup, ws, ms, c, true, Plain(Finish), At(0, W.IDLE, W.EMPTY, Some(W.BOUNDARY), Down, {}));
    assert ws[i] == At(0, W.IDLE, W.EMPTY, Some(REFUSAL), Intake, {});
  }

  // ---------- Executed twice ----------

  const ONCE := Server(map[], [ORDER], [0], {})
  const TWICE := Server(map[], [ORDER, ORDER], [0], {})

  function Admitted(setup: Setup, server: Server): Server {
    server.(jobs := map[setup.naming(WANTED) := Job(|server.admitted|, ORDER, Active)], admitted := server.admitted + [|server.admitted|])
  }

  /** Beside the arrived checkpoint a second one is in flight, taken before the push was read again. */
  lemma SecondInFlight(setup: Setup) returns (ws: seq<World>, ms: seq<Move>)
    ensures Ends(setup, ws, ms, At(1, W.IDLE, W.EMPTY, Some(SAVED), Intake, {W.BOUNDARY}), true)
  {
    ws, ms := JournalArrives(setup);
    ws, ms := Idles(setup, ws, ms, Some(SAVED), true);
    var a := At(0, W.IDLE, W.EMPTY, Some(SAVED), Finishing, {});
    var b := At(0, W.IDLE, W.EMPTY, Some(SAVED), Down, {W.BOUNDARY});
    assert {} + {W.BOUNDARY} == {W.BOUNDARY};
    Different();
    ws, ms := Extend(setup, ws, ms, a, true, Dispatch, b);
    ws, ms := Restarts(setup, ws, ms, b, true, 1);
  }

  /** The same submission makes the same checkpoint, which is skipped; its Job is admitted, and the second write arrives. */
  lemma SkippedThenErased(setup: Setup) returns (ws: seq<World>, ms: seq<Move>)
    ensures Ends(setup, ws, ms, At(1, Admitted(setup, W.IDLE.(sent := [ORDER])), JOURNALED, Some(W.BOUNDARY), Wanted(Waiting(0)), {}), false)
  {
    ws, ms := SecondInFlight(setup);
    ws, ms := Submits(setup, ws, ms, W.IDLE, Some(SAVED), {W.BOUNDARY}, false);
    var a := At(1, W.IDLE, JOURNALED, Some(SAVED), Wanted(Checkpointing), {W.BOUNDARY});
    ws, ms := Extend(setup, ws, ms, a, false, Plain(Save), At(1, W.IDLE, JOURNALED, Some(SAVED), Wanted(Looking(false)), {W.BOUNDARY}));
    ws, ms := Creates(setup, ws, ms, W.IDLE, {W.BOUNDARY}, false);
    var sent := W.IDLE.(sent := [ORDER]);
    assert W.IDLE.sent + [ORDER] == [ORDER];
    var b := At(1, sent, JOURNALED, Some(SAVED), Wanted(Waiting(0)), {W.BOUNDARY});
    var c := At(1, Admitted(setup, sent), JOURNALED, Some(SAVED), Wanted(Waiting(0)), {W.BOUNDARY});
    ws, ms := Extend(setup, ws, ms, b, false, Plain(Deliver(0)), c);
    ws, ms := Extend(setup, ws, ms, c, false, Arrive(W.BOUNDARY),
      At(1, Admitted(setup, sent), JOURNALED, Some(W.BOUNDARY), Wanted(Waiting(0)), {}));
  }

  /** The Job vanishes, the volume is lost, and recovery knows of neither. */
  lemma Erased(setup: Setup) returns (ws: seq<World>, ms: seq<Move>)
    ensures Ends(setup, ws, ms, At(1, ONCE, W.EMPTY, Some(W.BOUNDARY), Intake, {}), false)
  {
    ws, ms := SkippedThenErased(setup);
    var server := Admitted(setup, W.IDLE.(sent := [ORDER]));
    assert W.IDLE.admitted + [0] == [0] && server.jobs - {setup.naming(WANTED)} == map[];
    var a := At(1, server, JOURNALED, Some(W.BOUNDARY), Wanted(Waiting(0)), {});
    var b := At(1, ONCE, JOURNALED, Some(W.BOUNDARY), Wanted(Waiting(0)), {});
    ws, ms := Extend(setup, ws, ms, a, false, Plain(Vanish(setup.naming(WANTED))), b);
    ws, ms := Restores(setup, ws, ms, b, false);
    var c := At(0, ONCE, W.EMPTY, Some(W.BOUNDARY), Intake, {});
    var d := At(0, ONCE, W.EMPTY, Some(W.BOUNDARY), Down, {});
    ws, ms := Extend(setup, ws, ms, c, false, Plain(Crash), d);
    ws, ms := Restarts(setup, ws, ms, d, false, 1);
  }

  /** One push is executed by two Jobs. */
  lemma ExecutedTwice(setup: Setup) returns (ws: seq<World>, ms: seq<Move>)
    ensures LateRun(setup, ws, ms) && !ExecutedOnce(ws[|ms|].base)
  {
    ws, ms := Erased(setup);
    ws, ms := Submits(setup, ws, ms, ONCE, Some(W.BOUNDARY), {}, false);
    var a := At(1, ONCE, JOURNALED, Some(W.BOUNDARY), Wanted(Checkpointing), {});
    ws, ms := Extend(setup, ws, ms, a, false, Plain(Save), At(1, ONCE, JOURNALED, Some(SAVED), Wanted(Looking(false)), {}));
    ws, ms := Creates(setup, ws, ms, ONCE, {}, false);
    assert ONCE.sent + [ORDER] == [ORDER, ORDER];
    var b := At(1, TWICE, JOURNALED, Some(SAVED), Wanted(Waiting(1)), {});
    var c := At(1, Admitted(setup, TWICE), JOURNALED, Some(SAVED), Wanted(Waiting(1)), {});
    ws, ms := Extend(setup, ws, ms, b, false, Plain(Deliver(1)), c);
    BothExecute(setup, c.base);
  }

  lemma BothExecute(setup: Setup, s: State)
    requires s.server == Admitted(setup, TWICE)
    ensures !ExecutedOnce(s)
  {
    assert s.server.admitted == [0, 1] && s.server.sent == [ORDER, ORDER];
    if Admissions(s.server) {
      assert "e" in Executed(s, 0) && "e" in Executed(s, 1);
    }
  }

  // ---------- Exactly ----------

  /** Runs in which recovery is patient, if `patient`, and needed checkpoints are written, if `written`. */
  ghost predicate Allowed(setup: Setup, worlds: seq<World>, moves: seq<Move>, patient: bool, written: bool) {
    LateRun(setup, worlds, moves) && (patient ==> Patient(worlds, moves)) && (written ==> Written(worlds, moves))
  }

  ghost predicate OnceHolds(setup: Setup, patient: bool, written: bool) {
    forall worlds: seq<World>, moves: seq<Move>, i: nat | Allowed(setup, worlds, moves, patient, written) && i <= |moves| :: ExecutedOnce(worlds[i].base)
  }

  ghost predicate JournalsHold(setup: Setup, patient: bool, written: bool) {
    forall worlds: seq<World>, moves: seq<Move>, i: nat, j: nat, r: Request |
      Allowed(setup, worlds, moves, patient, written) && i <= j <= |moves|
      && worlds[i].base.process.Down? && Archived(worlds[i].base.archive, r) && Unsent(worlds[i].base.server.sent, r) ::
      Unsent(worlds[j].base.server.sent, r)
  }

  ghost predicate FinalsHold(setup: Setup, patient: bool, written: bool) {
    forall worlds: seq<World>, moves: seq<Move>, i: nat, j: nat, r: Request, value: Effect |
      Allowed(setup, worlds, moves, patient, written) && i <= j <= |moves| && FinalArchived(worlds[i].base, r, value) ::
      FinalArchived(worlds[j].base, r, value)
  }

  /**
   Every event is executed at most once, with checkpoint writes that arrive late, exactly when no
   recovery begins while a write is in flight, or no checkpoint needed by a submission is skipped then.
   */
  lemma OnceExactly(setup: Setup, patient: bool, written: bool)
    ensures OnceHolds(setup, patient, written) <==> patient || written
  {
    if patient || written {
      forall worlds: seq<World>, moves: seq<Move>, i: nat | Allowed(setup, worlds, moves, patient, written) && i <= |moves| ensures ExecutedOnce(worlds[i].base) {
        if patient {
          PatientAtMostOnce(setup, worlds, moves, i);
        } else {
          WrittenAtMostOnce(setup, worlds, moves, i);
        }
      }
    } else {
      var worlds, moves := ExecutedTwice(setup);
      assert Allowed(setup, worlds, moves, patient, written);
    }
  }

  /** Archived journals stand exactly when no recovery begins while a write is in flight. */
  lemma JournalsExactly(setup: Setup, patient: bool, written: bool)
    ensures JournalsHold(setup, patient, written) <==> patient
  {
    if patient {
      forall worlds: seq<World>, moves: seq<Move>, i: nat, j: nat, r: Request |
        Allowed(setup, worlds, moves, patient, written) && i <= j <= |moves|
        && worlds[i].base.process.Down? && Archived(worlds[i].base.archive, r) && Unsent(worlds[i].base.server.sent, r)
        ensures Unsent(worlds[j].base.server.sent, r)
      {
        PatientJournals(setup, worlds, moves, i, j, r);
      }
    } else {
      var worlds, moves, i := ArchivedJournalCreated(setup);
      assert Allowed(setup, worlds, moves, patient, written);
    }
  }

  /** So do terminal effects. */
  lemma FinalsExactly(setup: Setup, patient: bool, written: bool)
    ensures FinalsHold(setup, patient, written) <==> patient
  {
    if patient {
      forall worlds: seq<World>, moves: seq<Move>, i: nat, j: nat, r: Request, value: Effect |
        Allowed(setup, worlds, moves, patient, written) && i <= j <= |moves| && FinalArchived(worlds[i].base, r, value)
        ensures FinalArchived(worlds[j].base, r, value)
      {
        PatientFinals(setup, worlds, moves, i, j, r, value);
      }
    } else {
      var worlds, moves, i := ArchivedFinalForgotten(setup);
      assert Allowed(setup, worlds, moves, patient, written);
    }
  }
}
