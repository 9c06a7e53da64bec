/**
 The build-cache writer of one native component.

 Any number of observers execute `remote` at once, each under a lease identity of its own.  Clocks are
 not trusted: the lease may pass to a newcomer at any time, and an observer may be arbitrarily slow
 between a fence, which only reads who holds the lease, and the mutation it guards.  Jobs may be
 deleted and the volume with the markers may be lost at any time.  An observer that stops is one that
 takes no further step, so a create request that is delivered late is the step of a slow observer.
 */
module CacheWriter {
  import opened Prelude

  /** A Job name stands for its immutable request. */
  type Name = nat

  datatype Observer =
    | Acquired(target: Name)
    | Looked(target: Name, version: nat)
    | Waiting(target: Name, version: nat)
    | Clear(target: Name, version: nat)
    | Informed(target: Name, version: nat, submitted: bool)
    | Fenced(target: Name, version: nat, submitted: bool)
    | Published(target: Name, version: nat, submitted: bool)
    | Confirmed(target: Name, version: nat, submitted: bool)
    | Marked(target: Name, version: nat, submitted: bool)
    | Absent(target: Name, version: nat)
    | Creating(target: Name, version: nat)
    | Created(target: Name, version: nat)
    | Settling(target: Name, version: nat)
    | Done

  /** A published owner of the cache, and the observer that published it. */
  datatype Claim = Claim(name: Name, turn: nat)

  /**
   Observers are numbered in the order in which they acquired the lease; `holder` is the one that has
   it.  `claims` lists every published owner, the last being current and its length the version;
   `jobs` says which Jobs exist and whether they still run.
   */
  datatype State = State(turns: nat, holder: Option<nat>, claims: seq<Claim>, jobs: map<Name, bool>, markers: set<Name>,
                         observers: map<nat, Observer>)

  datatype Step =
    | Acquire(target: Name)
    | Release
    | Look(o: nat)
    | Fetch(o: nat)
    | ReadMarker(o: nat)
    | Fence(o: nat)
    | Publish(o: nat)
    | Mark(o: nat)
    | Ensure(o: nat)
    | Create(o: nat)
    | Remark(o: nat)
    | Republish(o: nat)
    | Finish(name: Name)
    | Delete(name: Name)
    | Forget(kept: set<Name>)

  const INIT := State(0, None, [], map[], {}, map[])

  predicate Running(jobs: map<Name, bool>, name: Name) {
    name in jobs && jobs[name]
  }

  /** The Job recorded as owner at a version. */
  function OwnerAt(claims: seq<Claim>, version: nat): Option<Name> {
    if 0 < version <= |claims| then Some(claims[version - 1].name) else None
  }

  /** The observer's next phase after looking at the previous Job; a missing one stops it. */
  function Observe(s: State, o: Observer): Option<Observer>
    requires o.Looked? || o.Waiting?
  {
    match OwnerAt(s.claims, o.version)
    case None => Some(Clear(o.target, o.version))
    case Some(previous) =>
      if previous !in s.jobs then None
      else if s.jobs[previous] && previous != o.target then Some(Waiting(o.target, o.version))
      else Some(Clear(o.target, o.version))
  }

  /** The phase behind a fence; the other phases have none in front of them. */
  function Passed(o: Observer): Option<Observer> {
    match o
    case Informed(target, v, submitted) => Some(Fenced(target, v, submitted))
    case Published(target, v, submitted) => Some(Confirmed(target, v, submitted))
    case Absent(target, v) => Some(Creating(target, v))
    case Created(target, v) => Some(Settling(target, v))
    case _ => None
  }

  /** What `ensure_job` does after its lookup: adopt the Job, refuse, or go on to the fence before creation. */
  function Ensured(s: State, o: Observer): Option<Observer>
    requires o.Marked?
  {
    if o.target in s.jobs then Some(Created(o.target, o.version))
    else if o.submitted then None
    else Some(Absent(o.target, o.version))
  }

  ghost predicate Next(s: State, step: Step, t: State) {
    match step
    case Acquire(target) =>
      t == s.(turns := s.turns + 1, holder := Some(s.turns), observers := s.observers[s.turns := Acquired(target)])
    case Release => t == s.(holder := None)
    case Look(o) =>
      && o in s.observers && s.observers[o].Acquired?
      && t == s.(observers := s.observers[o := Looked(s.observers[o].target, |s.claims|)])
    case Fetch(o) =>
      && o in s.observers && (s.observers[o].Looked? || s.observers[o].Waiting?)
      && Observe(s, s.observers[o]).Some?
      && t == s.(observers := s.observers[o := Observe(s, s.observers[o]).value])
    case ReadMarker(o) =>
      && o in s.observers && s.observers[o].Clear?
      && var x := s.observers[o];
         t == s.(observers := s.observers[o :=
                   Informed(x.target, x.version, OwnerAt(s.claims, x.version) == Some(x.target) || x.target in s.markers)])
    case Fence(o) =>
      && o in s.observers && s.holder == Some(o) && Passed(s.observers[o]).Some?
      && t == s.(observers := s.observers[o := Passed(s.observers[o]).value])
    case Publish(o) =>
      && o in s.observers && s.observers[o].Fenced? && s.observers[o].version == |s.claims|
      && var x := s.observers[o];
         t == s.(claims := s.claims + [Claim(x.target, o)],
                 observers := s.observers[o := Published(x.target, x.version + 1, x.submitted)])
    case Mark(o) =>
      && o in s.observers && s.observers[o].Confirmed?
      && var x := s.observers[o];
         t == s.(markers := s.markers + {x.target}, observers := s.observers[o := Marked(x.target, x.version, x.submitted)])
    case Ensure(o) =>
      && o in s.observers && s.observers[o].Marked? && Ensured(s, s.observers[o]).Some?
      && t == s.(observers := s.observers[o := Ensured(s, s.observers[o]).value])
    case Create(o) =>
      && o in s.observers && s.observers[o].Creating?
      && var x := s.observers[o];
         t == s.(jobs := if x.target in s.jobs then s.jobs else s.jobs[x.target := true],
                 observers := s.observers[o := Created(x.target, x.version)])
    case Remark(o) =>
      && o in s.observers && s.observers[o].Created? && t == s.(markers := s.markers + {s.observers[o].target})
    case Republish(o) =>
      && o in s.observers && s.observers[o].Settling? && s.observers[o].version == |s.claims|
      && t == s.(claims := s.claims + [Claim(s.observers[o].target, o)], observers := s.observers[o := Done])
    case Finish(name) => Running(s.jobs, name) && t == s.(jobs := s.jobs[name := false])
    case Delete(name) => t == s.(jobs := s.jobs - {name})
    case Forget(kept) => kept <= s.markers && t == s.(markers := kept)
  }

  ghost predicate Run(states: seq<State>, steps: seq<Step>) {
    && |states| == |steps| + 1 && states[0] == INIT
    && forall i :: 0 <= i < |steps| ==> Next(states[i], steps[i], states[i + 1])
  }

  // ---------- Invariant ----------

  ghost predicate Versioned(claims: seq<Claim>, o: Observer) {
    match o
    case Acquired(_) => true
    case Done => true
    case _ => o.version <= |claims|
  }

  /** An observer that has seen the previous writer finish and has not published yet. */
  ghost predicate Choosing(o: Observer) {
    o.Clear? || o.Informed? || o.Fenced?
  }

  ghost predicate Submitting(o: Observer) {
    o.Published? || o.Confirmed? || o.Marked? || o.Absent? || o.Creating? || o.Created? || o.Settling?
  }

  /** The observer that published the current version. */
  ghost function Publisher(claims: seq<Claim>): nat
    requires claims != []
  {
    claims[|claims| - 1].turn
  }

  /**
   An observer about to replace the current owner: unless a later turn published it, that owner does
   not run, or is the observer's own Job.  One that passed its fence came after the publisher.
   */
  ghost predicate ChoosingAgrees(claims: seq<Claim>, jobs: map<Name, bool>, n: nat, o: Observer)
    requires Choosing(o)
  {
    claims != [] && o.version == |claims| ==>
      && n != Publisher(claims)
      && (o.Fenced? ==> Publisher(claims) < n)
      && (Publisher(claims) < n ==> claims[|claims| - 1].name == o.target || !Running(jobs, claims[|claims| - 1].name))
  }

  /** An observer past its publication, at the version it published; whoever moved on came later. */
  ghost predicate SubmittingAgrees(claims: seq<Claim>, n: nat, o: Observer)
    requires Submitting(o)
  {
    && 0 < o.version <= |claims| && claims[o.version - 1] == Claim(o.target, n)
    && (o.version < |claims| ==> n < claims[o.version].turn)
  }

  /** Passed its fence and about to create: nobody moved on, and nobody else has created the Job. */
  ghost predicate CreatingAgrees(claims: seq<Claim>, jobs: map<Name, bool>, observers: map<nat, Observer>, n: nat, o: Observer)
    requires o.Creating?
  {
    && o.version == |claims| && o.target !in jobs
    && forall m :: m in observers && Choosing(observers[m]) && observers[m].version == |claims| ==> m < n
  }

  ghost predicate Unpublished(claims: seq<Claim>, n: nat) {
    forall i :: 0 <= i < |claims| ==> claims[i].turn != n
  }

  ghost predicate ObserverAgrees(turns: nat, claims: seq<Claim>, jobs: map<Name, bool>, observers: map<nat, Observer>, n: nat, o: Observer) {
    && Versioned(claims, o)
    && (!Submitting(o) && !o.Done? ==> Unpublished(claims, n))
    && (Choosing(o) ==> ChoosingAgrees(claims, jobs, n, o))
    && (Submitting(o) ==> SubmittingAgrees(claims, n, o))
    && (o.Absent? && n + 1 == turns ==> o.target !in jobs)
    && (o.Creating? ==> CreatingAgrees(claims, jobs, observers, n, o))
  }

  /** Turns only grow along the claims, and only the current owner runs. */
  ghost predicate Claimed(turns: nat, claims: seq<Claim>, jobs: map<Name, bool>) {
    && (forall i :: 0 <= i < |claims| ==> claims[i].turn < turns)
    && (forall i, j :: 0 <= i < j < |claims| ==> claims[i].turn <= claims[j].turn)
    && forall n: Name :: Running(jobs, n) ==> OwnerAt(claims, |claims|) == Some(n)
  }

  ghost predicate Inv(s: State) {
    && (s.holder.Some? ==> s.holder.value + 1 == s.turns) && (forall o :: o in s.observers ==> o < s.turns)
    && Claimed(s.turns, s.claims, s.jobs)
    && forall o :: o in s.observers ==> ObserverAgrees(s.turns, s.claims, s.jobs, s.observers, o, s.observers[o])
  }

  ghost predicate AgreesAt(s: State, o: nat)
    requires o in s.observers
  {
    ObserverAgrees(s.turns, s.claims, s.jobs, s.observers, o, s.observers[o])
  }

  lemma LeaseKeeps(s: State, step: Step, t: State)
    requires Inv(s) && Next(s, step, t) && (step.Acquire? || step.Release? || step.Forget? || step.Remark? || step.Mark?)
    ensures Inv(t)
  {
    forall o | o in t.observers ensures AgreesAt(t, o) {
      assert o in s.observers ==> AgreesAt(s, o);
    }
  }

  lemma LookKeeps(s: State, step: Step, t: State)
    requires Inv(s) && Next(s, step, t) && (step.Look? || step.ReadMarker?)
    ensures Inv(t)
  {
    forall o | o in t.observers ensures AgreesAt(t, o) {
      assert AgreesAt(s, o) && AgreesAt(s, step.o);
    }
  }

  lemma FetchKeeps(s: State, step: Step, t: State)
    requires Inv(s) && Next(s, step, t) && step.Fetch?
    ensures Inv(t)
  {
    assert AgreesAt(s, step.o);
    forall o | o in t.observers ensures AgreesAt(t, o) {
      assert AgreesAt(s, o);
    }
  }

  lemma FenceKeeps(s: State, step: Step, t: State)
    requires Inv(s) && Next(s, step, t) && step.Fence?
    ensures Inv(t)
  {
    forall o | o in t.observers ensures AgreesAt(t, o) {
      assert AgreesAt(s, o) && AgreesAt(s, step.o);
    }
  }

  lemma PublishKeeps(s: State, step: Step, t: State)
    requires Inv(s) && Next(s, step, t) && step.Publish?
    ensures Inv(t)
  {
    assert AgreesAt(s, step.o);
    forall o | o in t.observers ensures AgreesAt(t, o) {
      assert AgreesAt(s, o);
    }
  }

  lemma RepublishKeeps(s: State, step: Step, t: State)
    requires Inv(s) && Next(s, step, t) && step.Republish?
    ensures Inv(t)
  {
    assert AgreesAt(s, step.o);
    forall o | o in t.observers ensures AgreesAt(t, o) {
      assert AgreesAt(s, o);
    }
  }

  lemma EnsureKeeps(s: State, step: Step, t: State)
    requires Inv(s) && Next(s, step, t) && step.Ensure?
    ensures Inv(t)
  {
    assert AgreesAt(s, step.o);
    forall o | o in t.observers ensures AgreesAt(t, o) {
      assert AgreesAt(s, o);
    }
  }

  lemma CreateKeeps(s: State, step: Step, t: State)
    requires Inv(s) && Next(s, step, t) && step.Create?
    ensures Inv(t)
  {
    assert AgreesAt(s, step.o);
    forall o | o in t.observers ensures AgreesAt(t, o) {
      assert AgreesAt(s, o);
    }
  }

  lemma JobKeeps(s: State, step: Step, t: State)
    requires Inv(s) && Next(s, step, t) && (step.Finish? || step.Delete?)
    ensures Inv(t)
  {
    forall o | o in t.observers ensures AgreesAt(t, o) {
      assert AgreesAt(s, o);
    }
  }

  lemma StepKeeps(s: State, step: Step, t: State)
    requires Inv(s) && Next(s, step, t)
    ensures Inv(t)
  {
    if step.Acquire? || step.Release? || step.Forget? || step.Remark? || step.Mark? {
      LeaseKeeps(s, step, t);
    } else if step.Look? || step.ReadMarker? {
      LookKeeps(s, step, t);
    } else if step.Fetch? {
      FetchKeeps(s, step, t);
    } else if step.Fence? {
      FenceKeeps(s, step, t);
    } else if step.Publish? {
      PublishKeeps(s, step, t);
    } else if step.Republish? {
      RepublishKeeps(s, step, t);
    } else if step.Ensure? {
      EnsureKeeps(s, step, t);
    } else if step.Create? {
      CreateKeeps(s, step, t);
    } else {
      JobKeeps(s, step, t);
    }
  }

  lemma {:induction false} RunKeeps(states: seq<State>, steps: seq<Step>, i: nat)
    requires Run(states, steps) && i < |states|
    ensures Inv(states[i])
  {
    if i > 0 {
      RunKeeps(states, steps, i - 1);
      StepKeeps(states[i - 1], steps[i - 1], states[i]);
    }
  }

  /** In every run a Job that still runs is the one recorded as owner. */
  lemma RunningIsOwner(states: seq<State>, steps: seq<Step>, i: nat, name: Name)
    requires Run(states, steps) && i < |states| && Running(states[i].jobs, name)
    ensures states[i].claims != [] && states[i].claims[|states[i].claims| - 1].name == name
  {
    RunKeeps(states, steps, i);
  }

  /** At most one Job writes the cache, in every state of every run. */
  lemma SingleWriter(states: seq<State>, steps: seq<Step>, i: nat, a: Name, b: Name)
    requires Run(states, steps) && i < |states| && Running(states[i].jobs, a) && Running(states[i].jobs, b)
    ensures a == b
  {
    RunningIsOwner(states, steps, i, a);
    RunningIsOwner(states, steps, i, b);
  }

  // ---------- A missing owner ----------

  /**
   The recorded owner is a Job that does not exist, and nobody was already past its look at it.  The
   observer that published it may have stopped anywhere, or may still be about to create it.
   */
  ghost predicate Missing(s: State, owner: Claim) {
    && s.claims != [] && s.claims[|s.claims| - 1] == owner && owner.name !in s.jobs
    && forall o :: o in s.observers && Choosing(s.observers[o]) ==> s.observers[o].version < |s.claims|
  }

  /** Publication alone brings this about: it comes before the Job exists. */
  lemma PublishedIsMissing(s: State, o: nat, t: State)
    requires Inv(s) && Next(s, Publish(o), t) && s.observers[o].target !in s.jobs
    ensures Missing(t, Claim(s.observers[o].target, o))
  {
    forall m | m in t.observers && Choosing(t.observers[m]) ensures t.observers[m].version < |t.claims| {
      assert AgreesAt(s, m);
    }
  }

  /** The only way out is that the observer which published the owner creates that very Job. */
  lemma StepKeepsMissing(s: State, step: Step, t: State, owner: Claim)
    requires Inv(s) && Missing(s, owner) && Next(s, step, t)
    ensures t.claims != [] && t.claims[|t.claims| - 1] == owner && t.jobs.Keys <= s.jobs.Keys + {owner.name}
    ensures if step == Create(owner.turn) then owner.name in t.jobs
            else Missing(t, owner) && t.jobs.Keys <= s.jobs.Keys
  {
    if step.Republish? || step.Create? {
      assert AgreesAt(s, step.o);
    }
    forall m | m in t.observers && Choosing(t.observers[m]) ensures t.observers[m].version < |t.claims| {
      if m in s.observers {
        assert AgreesAt(s, m);
      }
    }
  }

  ghost predicate Blocks(s: State, step: Step, t: State, owner: Claim) {
    Missing(s, owner) && step != Create(owner.turn) ==> Missing(t, owner) && t.jobs.Keys <= s.jobs.Keys
  }

  lemma {:induction false} BlocksOn(states: seq<State>, steps: seq<Step>, i: nat, j: nat, owner: Claim)
    requires i <= j <= |steps| && |states| == |steps| + 1 && Missing(states[i], owner) && Create(owner.turn) !in steps[i..j]
    requires forall k :: i <= k < j ==> Blocks(states[k], steps[k], states[k + 1], owner)
    ensures Missing(states[j], owner) && states[j].jobs.Keys <= states[i].jobs.Keys
    decreases j
  {
    if i < j {
      assert steps[i..j] == steps[i..j - 1] + [steps[j - 1]];
      BlocksOn(states, steps, i, j - 1, owner);
      assert Blocks(states[j - 1], steps[j - 1], states[j - 1 + 1], owner);
    }
  }

  /**
   Unless the observer that published the missing owner creates it, nobody takes the cache over and no
   Job at all is created, however many observers come and wherever that observer stopped.
   */
  lemma MissingOwnerBlocks(states: seq<State>, steps: seq<Step>, i: nat, j: nat, owner: Claim)
    requires Run(states, steps) && i <= j < |states| && Missing(states[i], owner) && Create(owner.turn) !in steps[i..j]
    ensures Missing(states[j], owner) && states[j].jobs.Keys <= states[i].jobs.Keys
  {
    forall k | i <= k < j ensures Blocks(states[k], steps[k], states[k + 1], owner) {
      RunKeeps(states, steps, k);
      if Missing(states[k], owner) {
        StepKeepsMissing(states[k], steps[k], states[k + 1], owner);
      }
    }
    BlocksOn(states, steps, i, j, owner);
  }

  /** The lease has passed from the publisher, which was not past the fence before creation. */
  ghost predicate Orphaned(s: State, owner: Claim) {
    && Missing(s, owner) && s.holder != Some(owner.turn)
    && (owner.turn in s.observers ==> !s.observers[owner.turn].Creating?)
  }

  lemma StepKeepsOrphaned(s: State, step: Step, t: State, owner: Claim)
    requires Inv(s) && Orphaned(s, owner) && Next(s, step, t)
    ensures Orphaned(t, owner) && t.jobs.Keys <= s.jobs.Keys
  {
    StepKeepsMissing(s, step, t, owner);
  }

  /** From then on no Job is ever created and the owner never changes: it must be reconciled by hand. */
  lemma {:induction false} OrphanBlocksForever(states: seq<State>, steps: seq<Step>, i: nat, j: nat, owner: Claim)
    requires Run(states, steps) && i <= j < |states| && Orphaned(states[i], owner)
    ensures Orphaned(states[j], owner) && states[j].jobs.Keys <= states[i].jobs.Keys
    decreases j
  {
    if i < j {
      OrphanBlocksForever(states, steps, i, j - 1, owner);
      OrphanStep(states, steps, j - 1, owner);
    }
  }

  lemma OrphanStep(states: seq<State>, steps: seq<Step>, k: nat, owner: Claim)
    requires Run(states, steps) && k < |steps| && Orphaned(states[k], owner)
    ensures Orphaned(states[k + 1], owner) && states[k + 1].jobs.Keys <= states[k].jobs.Keys
  {
    RunKeeps(states, steps, k);
    StepKeepsOrphaned(states[k], steps[k], states[k + 1], owner);
  }
}
