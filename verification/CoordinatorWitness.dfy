/**
 When a journaled submission can be created after all: exactly when volumes are lost with journals
 that no checkpoint has.  The run below stops between journal and checkpoint, loses the volume, and
 creates the request later.
 */
module CoordinatorWitness {
  import opened Prelude
  import opened Coordinator
  import opened CoordinatorSafety

  const PUSH := Event("gcoms", PROMOTION, "c", 1, "1")
  const WANTED := Request(Promote, Frozen(1, 0), ["e"], PUSH)
  const MARKER := Effect(Submitting, true, Some(Definition(WANTED, 0)), None)
  const EMPTY := Volume(Some(0), map[], map[])
  const LISTED := Volume(Some(0), map[], map["e" := PUSH])
  const JOURNALED := Volume(Some(0), map[WANTED := MARKER], map["e" := PUSH])
  const BOUNDARY := Checkpoint(0, 0, map[], map[])
  const IDLE := Server(map[], [], [], {})
  const SCAN := Scan({}, {}, false, false)

  /** The first tick archives the empty boundary; the second stops between journal and checkpoint. */
  function Before(): seq<State> {
    var archive := Some(BOUNDARY);
    [ State(0, IDLE, EMPTY, None, Down),
      State(0, IDLE, EMPTY, None, Intake),
      State(0, IDLE, EMPTY, None, Reconciling(SCAN)),
      State(0, IDLE, EMPTY, None, Finishing),
      State(0, IDLE, EMPTY, archive, Down),
      State(0, IDLE, EMPTY, archive, Intake),
      State(0, IDLE, LISTED, archive, Reconciling(SCAN)),
      State(0, IDLE, LISTED, archive, Submission(WANTED, Journaling, SCAN, true)),
      State(0, IDLE, JOURNALED, archive, Submission(WANTED, Checkpointing, SCAN, true)),
      State(0, IDLE, JOURNALED, archive, Down) ]
  }

  /** The volume is lost, and the next tick recovers, selects the same push and creates its Job. */
  function After(): seq<State> {
    var archive, saved := Some(BOUNDARY), Some(Snapshot(0, JOURNALED));
    [ State(0, IDLE, LOST, archive, Down),
      State(0, IDLE, LOST, archive, Recovering(BOUNDARY)),
      State(0, IDLE, EMPTY, archive, Intake),
      State(0, IDLE, LISTED, archive, Reconciling(SCAN)),
      State(0, IDLE, LISTED, archive, Submission(WANTED, Journaling, SCAN, true)),
      State(0, IDLE, JOURNALED, archive, Submission(WANTED, Checkpointing, SCAN, true)),
      State(0, IDLE, JOURNALED, saved, Submission(WANTED, Looking(false), SCAN, true)),
      State(0, IDLE, JOURNALED, saved, Submission(WANTED, Creating, SCAN, true)),
      State(0, IDLE.(sent := [Definition(WANTED, 0)]), JOURNALED, saved, Submission(WANTED, Waiting(0), SCAN, true)) ]
  }

  function Schedule(): seq<Step> {
    [ Begin, Ingest(map[], 0), Rest, Finish, Begin, Ingest(map["e" := PUSH], 0), Propose(["e"], Frozen(1, 0)), Journal, Crash,
      LoseVolume,
      Begin, RestoreCursors, Ingest(map["e" := PUSH], 0), Propose(["e"], Frozen(1, 0)), Journal, Save, Look(false), Create ]
  }

  lemma SelectsPush(setup: Setup, s: State)
    requires s.volume == LISTED && s.process == Reconciling(SCAN)
    ensures Choosing(setup, s, ["e"])
  {
    assert Promotions(setup.selected(s.config), LISTED, {}) == {"e"};
  }

  lemma IngestFromBoundary()
    ensures EMPTY.events + map[] == EMPTY.events && EMPTY.events + map["e" := PUSH] == LISTED.events
    ensures EMPTY.effects.Keys == {}
  {
  }

  lemma FirstHalf(setup: Setup, i: nat)
    requires i < 9
    ensures Next(setup, Before()[i], Schedule()[i], Before()[i + 1])
  {
    IngestFromBoundary();
    if i == 6 {
      SelectsPush(setup, Before()[6]);
    }
  }

  lemma SecondHalf(setup: Setup, i: nat)
    requires i < 8
    ensures Next(setup, After()[i], Schedule()[i + 10], After()[i + 1])
  {
    IngestFromBoundary();
    if i == 3 {
      SelectsPush(setup, After()[3]);
    }
  }

  lemma JournalOnLostVolumeIsCreatedLater(setup: Setup) returns (states: seq<State>, steps: seq<Step>)
    ensures Run(setup, states, steps) && |steps| == 18
    ensures states[9].process.Down? && states[9].volume.cursors.Some? && Started(states[9].volume.effects, WANTED)
    ensures Unsent(states[9].server.sent, WANTED) && steps[9].LoseVolume? && !Archived(states[9].archive, WANTED)
    ensures !Unsent(states[18].server.sent, WANTED)
  {
    states, steps := Before() + After(), Schedule();
    forall i | 0 <= i < |steps| ensures Next(setup, states[i], steps[i], states[i + 1]) {
      if i < 9 {
        FirstHalf(setup, i);
      } else if i > 9 {
        SecondHalf(setup, i - 10);
      }
    }
    assert states[18].server.sent[0].request == WANTED;
  }

  /**
   After a stop, no journaled submission that was not sent is ever created, in any run; with
   `careful`, in any run that loses volumes only while every journal on them is in the checkpoint.
   */
  ghost predicate JournalsStand(setup: Setup, careful: bool) {
    forall states: seq<State>, steps: seq<Step>, i: nat, j: nat, r: Request |
      Run(setup, states, steps) && (careful ==> Careful(states, steps)) && i <= j <= |steps|
      && states[i].process.Down? && JournalKnown(states[i], r) && Unsent(states[i].server.sent, r) ::
      Unsent(states[j].server.sent, r)
  }

  /** Journals stand if and only if volumes are lost carefully, whatever the surroundings. */
  lemma JournalsStandExactly(setup: Setup, careful: bool)
    ensures JournalsStand(setup, careful) <==> careful
  {
    if careful {
      forall states: seq<State>, steps: seq<Step>, i: nat, j: nat, r: Request |
        Run(setup, states, steps) && Careful(states, steps) && i <= j <= |steps|
        && states[i].process.Down? && JournalKnown(states[i], r) && Unsent(states[i].server.sent, r)
        ensures Unsent(states[j].server.sent, r)
      {
        JournalStaysUnsent(setup, states, steps, i, j, r);
      }
    } else {
      var states, steps := JournalOnLostVolumeIsCreatedLater(setup);
      assert JournalKnown(states[9], WANTED) && !Unsent(states[18].server.sent, WANTED);
    }
  }
}
