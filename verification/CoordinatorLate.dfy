/**
 Checkpoint writes that arrive after their sender stopped.

 A checkpoint is a compare-and-swap on the catalogue, so a write in flight can still take effect while
 no other one did, and a checkpoint equal to the stored one is not written at all.  `late` holds the
 writes in flight that the stored version does not refuse.
 */
module CoordinatorLate {
  import opened Prelude
  import opened Coordinator
  import opened CoordinatorSafety

  datatype World = World(base: State, late: set<Checkpoint>)

  datatype Move = Plain(step: Step) | Dispatch | Arrive(checkpoint: Checkpoint)

  /** The coordinator is about to write a checkpoint. */
  predicate Saving(s: State) {
    s.volume.cursors.Some? && (s.process.Finishing? || (s.process.Submission? && s.process.stage.Checkpointing?))
  }

  ghost predicate Follows(setup: Setup, w: World, move: Move, v: World) {
    match move
    case Plain(step) =>
      Next(setup, w.base, step, v.base) && v.late == if v.base.archive == w.base.archive then w.late else {}
    case Dispatch =>
      && Saving(w.base) && w.base.archive != Some(Snapshot(w.base.config, w.base.volume))
      && v == World(w.base.(process := Down), w.late + {Snapshot(w.base.config, w.base.volume)})
    case Arrive(c) => c in w.late && v == World(w.base.(archive := Some(c)), {})
  }

  ghost predicate LateRun(setup: Setup, worlds: seq<World>, moves: seq<Move>) {
    && |worlds| == |moves| + 1 && Init(worlds[0].base) && worlds[0].late == {}
    && forall i :: 0 <= i < |moves| ==> Follows(setup, worlds[i], moves[i], worlds[i + 1])
  }

  /** No recovery begins while a checkpoint write is in flight. */
  ghost predicate PatientMove(w: World, move: Move) {
    move == Plain(Begin) && w.base.volume.cursors.None? ==> w.late == {}
  }

  ghost predicate Patient(worlds: seq<World>, moves: seq<Move>) {
    |worlds| == |moves| + 1 && forall i :: 0 <= i < |moves| ==> PatientMove(worlds[i], moves[i])
  }

  // ---------- With patient recovery ----------

  /** Everything is kept: started submissions stay started and terminal effects stay as they are. */
  ghost predicate Grows(a: Effects, b: Effects) {
    Retains(a, b) && forall r :: r in a && Terminal(a[r].state) ==> HasFinal(b, r, a[r])
  }

  /** A write in flight has what the stored checkpoint has, and a whole volume what the write has. */
  ghost predicate InFlight(s: State, c: Checkpoint) {
    && Sound(c.effects) && (s.archive.Some? ==> Grows(s.archive.value.effects, c.effects))
    && (s.volume.cursors.Some? ==> Grows(c.effects, s.volume.effects))
  }

  /** A volume without cursors has not been restored since the write left. */
  ghost predicate Unrestored(w: World) {
    w.late != {} ==> !w.base.process.Recovering? && (w.base.volume.cursors.None? ==> w.base.volume.effects == map[])
  }

  ghost predicate LateInv(w: World) {
    && Inv(w.base) && FinalsAgree(w.base.volume, w.base.archive) && Unrestored(w)
    && forall c :: c in w.late ==> InFlight(w.base, c)
  }

  lemma GrowsTransitive(a: Effects, b: Effects, c: Effects)
    requires Grows(a, b) && Grows(b, c)
    ensures Grows(a, c)
  {
    forall r | r in a && Terminal(a[r].state) ensures HasFinal(c, r, a[r]) {
      assert HasFinal(b, r, a[r]);
    }
  }

  lemma VolumeGrows(setup: Setup, s: State, step: Step, t: State)
    requires Inv(s) && Next(setup, s, step, t) && !step.LoseVolume? && s.volume.cursors.Some?
    ensures t.volume.cursors.Some? && Grows(s.volume.effects, t.volume.effects)
  {
    forall r | r in s.volume.effects && Terminal(s.volume.effects[r].state)
      ensures HasFinal(t.volume.effects, r, s.volume.effects[r])
    {
      StepAbsorbs(setup, s, step, t, r);
    }
    forall r | r in s.volume.effects ensures r in t.volume.effects && (s.volume.effects[r].started ==> t.volume.effects[r].started) {
      if s.volume.effects[r].started {
        StepKeepsJournal(setup, s, step, t, r);
      }
    }
    assert t.volume.cursors.Some?;
  }

  lemma FlightStep(setup: Setup, s: State, step: Step, t: State, c: Checkpoint)
    requires Inv(s) && Next(setup, s, step, t) && t.archive == s.archive && InFlight(s, c)
    requires s.volume.cursors.None? ==> t.volume.cursors.None?
    ensures InFlight(t, c)
  {
    if t.volume.cursors.Some? {
      VolumeGrows(setup, s, step, t);
      GrowsTransitive(c.effects, s.volume.effects, t.volume.effects);
    }
  }

  lemma UnrestoredStep(setup: Setup, w: World, step: Step, v: World)
    requires LateInv(w) && Follows(setup, w, Plain(step), v) && PatientMove(w, Plain(step)) && v.late != {}
    ensures Unrestored(v) && v.late == w.late && v.base.archive == w.base.archive
    ensures w.base.volume.cursors.None? ==> v.base.volume.cursors.None?
  {
  }

  lemma PlainKeeps(setup: Setup, w: World, step: Step, v: World)
    requires LateInv(w) && Follows(setup, w, Plain(step), v) && PatientMove(w, Plain(step))
    ensures LateInv(v)
  {
    StepKeeps(setup, w.base, step, v.base);
    StepKeepsFinals(setup, w.base, step, v.base);
    if v.late != {} {
      UnrestoredStep(setup, w, step, v);
      forall c | c in v.late ensures InFlight(v.base, c) {
        FlightStep(setup, w.base, step, v.base, c);
      }
    }
  }

  lemma DispatchKeeps(setup: Setup, w: World, v: World)
    requires LateInv(w) && Follows(setup, w, Dispatch, v)
    ensures LateInv(v)
  {
    var c := Snapshot(w.base.config, w.base.volume);
    assert InFlight(v.base, c);
    forall d | d in v.late ensures InFlight(v.base, d) {
      assert d in w.late ==> InFlight(w.base, d);
    }
  }

  lemma ArriveKeeps(setup: Setup, w: World, c: Checkpoint, v: World)
    requires LateInv(w) && Follows(setup, w, Arrive(c), v)
    ensures LateInv(v)
  {
    assert InFlight(w.base, c);
  }

  lemma MoveKeeps(setup: Setup, w: World, move: Move, v: World)
    requires LateInv(w) && Follows(setup, w, move, v) && PatientMove(w, move)
    ensures LateInv(v)
  {
    match move
    case Plain(step) => PlainKeeps(setup, w, step, v);
    case Dispatch => DispatchKeeps(setup, w, v);
    case Arrive(c) => ArriveKeeps(setup, w, c, v);
  }

  lemma {:induction false} PatientKeeps(setup: Setup, worlds: seq<World>, moves: seq<Move>, i: nat)
    requires LateRun(setup, worlds, moves) && Patient(worlds, moves) && i <= |moves|
    ensures LateInv(worlds[i])
  {
    if i > 0 {
      PatientKeeps(setup, worlds, moves, i - 1);
      assert PatientMove(worlds[i - 1], moves[i - 1]);
      MoveKeeps(setup, worlds[i - 1], moves[i - 1], worlds[i]);
    }
  }

  /** At most once, in lanes and partitioned, with late writes but patient recovery. */
  lemma PatientAtMostOnce(setup: Setup, worlds: seq<World>, moves: seq<Move>, i: nat)
    requires LateRun(setup, worlds, moves) && Patient(worlds, moves) && i <= |moves|
    ensures ExecutedOnce(worlds[i].base) && Lanes(worlds[i].base.volume.effects) && Partitioned(worlds[i].base.volume.effects)
  {
    PatientKeeps(setup, worlds, moves, i);
    InvExecutesOnce(worlds[i].base);
  }

  lemma MoveKeepsSealed(setup: Setup, w: World, move: Move, v: World, r: Request)
    requires LateInv(w) && Sealed(w.base, r) && Follows(setup, w, move, v) && LateInv(v)
    ensures Sealed(v.base, r)
  {
    match move
    case Plain(step) => StepKeepsSealed(setup, w.base, step, v.base, r);
    case Dispatch =>
    case Arrive(c) => assert InFlight(w.base, c);
  }

  lemma SealedNext(setup: Setup, worlds: seq<World>, moves: seq<Move>, k: nat, r: Request)
    requires LateRun(setup, worlds, moves) && Patient(worlds, moves) && k < |moves| && Sealed(worlds[k].base, r)
    ensures Sealed(worlds[k + 1].base, r)
  {
    PatientKeeps(setup, worlds, moves, k);
    PatientKeeps(setup, worlds, moves, k + 1);
    MoveKeepsSealed(setup, worlds[k], moves[k], worlds[k + 1], r);
  }

  lemma {:induction false} SealedOn(worlds: seq<World>, i: nat, j: nat, r: Request)
    requires i <= j < |worlds| && Sealed(worlds[i].base, r)
    requires forall k :: i <= k < j && Sealed(worlds[k].base, r) ==> Sealed(worlds[k + 1].base, r)
    ensures Sealed(worlds[j].base, r)
    decreases j
  {
    if i < j {
      SealedOn(worlds, i, j - 1, r);
      assert Sealed(worlds[j - 1 + 1].base, r);
    }
  }

  /** An archived journal is never created and never forgotten, with late writes but patient recovery. */
  lemma PatientJournals(setup: Setup, worlds: seq<World>, moves: seq<Move>, i: nat, j: nat, r: Request)
    requires LateRun(setup, worlds, moves) && Patient(worlds, moves) && i <= j <= |moves|
    requires worlds[i].base.process.Down? && Archived(worlds[i].base.archive, r) && Unsent(worlds[i].base.server.sent, r)
    ensures Unsent(worlds[j].base.server.sent, r) && Archived(worlds[j].base.archive, r)
  {
    PatientKeeps(setup, worlds, moves, i);
    forall k | i <= k < j && Sealed(worlds[k].base, r) ensures Sealed(worlds[k + 1].base, r) {
      SealedNext(setup, worlds, moves, k, r);
    }
    SealedOn(worlds, i, j, r);
  }

  ghost predicate FinalArchived(s: State, r: Request, value: Effect) {
    s.archive.Some? && HasFinal(s.archive.value.effects, r, value)
  }

  lemma MoveKeepsFinal(setup: Setup, w: World, move: Move, v: World, r: Request, value: Effect)
    requires LateInv(w) && FinalArchived(w.base, r, value) && Follows(setup, w, move, v)
    ensures FinalArchived(v.base, r, value)
  {
    match move
    case Plain(step) => ArchiveChanges(setup, w.base, step, v.base);
    case Dispatch =>
    case Arrive(c) => assert InFlight(w.base, c);
  }

  lemma FinalNext(setup: Setup, worlds: seq<World>, moves: seq<Move>, k: nat, r: Request, value: Effect)
    requires LateRun(setup, worlds, moves) && Patient(worlds, moves) && k < |moves| && FinalArchived(worlds[k].base, r, value)
    ensures FinalArchived(worlds[k + 1].base, r, value)
  {
    PatientKeeps(setup, worlds, moves, k);
    MoveKeepsFinal(setup, worlds[k], moves[k], worlds[k + 1], r, value);
  }

  lemma {:induction false} FinalOn(worlds: seq<World>, i: nat, j: nat, r: Request, value: Effect)
    requires i <= j < |worlds| && FinalArchived(worlds[i].base, r, value)
    requires forall k :: i <= k < j && FinalArchived(worlds[k].base, r, value) ==> FinalArchived(worlds[k + 1].base, r, value)
    ensures FinalArchived(worlds[j].base, r, value)
    decreases j
  {
    if i < j {
      FinalOn(worlds, i, j - 1, r, value);
      assert FinalArchived(worlds[j - 1 + 1].base, r, value);
    }
  }

  /** Terminal effects absorb once archived, with late writes but patient recovery. */
  lemma PatientFinals(setup: Setup, worlds: seq<World>, moves: seq<Move>, i: nat, j: nat, r: Request, value: Effect)
    requires LateRun(setup, worlds, moves) && Patient(worlds, moves) && i <= j <= |moves| && FinalArchived(worlds[i].base, r, value)
    ensures FinalArchived(worlds[j].base, r, value)
    ensures worlds[j].base.volume.cursors.Some? ==> HasFinal(worlds[j].base.volume.effects, r, value)
  {
    forall k | i <= k < j && FinalArchived(worlds[k].base, r, value) ensures FinalArchived(worlds[k + 1].base, r, value) {
      FinalNext(setup, worlds, moves, k, r, value);
    }
    FinalOn(worlds, i, j, r, value);
    PatientKeeps(setup, worlds, moves, j);
  }
}
