/**
 The catalogue of published objects: one ConfigMap that any number of binders read and replace at the
 version they read.  The publication lease is not trusted here.  A binder whose reply is lost stops;
 its request may still be delivered, at any later time.
 */
module Catalogue {
  import opened Prelude

  const MAX_CATALOGUE := 700 * 1024

  datatype Kind = Artifacts | Prepared | Runs | Checkpoints

  datatype Descriptor = Descriptor(key: string, version: string, sha256: string, bytes: nat)

  datatype Entry = Entry(kind: Kind, key: string)

  type Table = map<Entry, Descriptor>

  datatype Bind = Bind(entry: Entry, descriptor: Descriptor, replace: bool)

  /** The stored object, with its resource version; a missing one reads as an empty table. */
  datatype Server = Missing | Stored(table: Table, version: nat)

  datatype Binder =
    | Ready(bind: Bind)
    | Writing(bind: Bind, base: Server)
    | Lost(bind: Bind, base: Server)
    | Returned(bind: Bind, descriptor: Descriptor)
    | Failed

  datatype State = State(server: Server, binders: map<nat, Binder>)

  /** The length of the canonical encoding. */
  type Size = Table -> nat

  datatype Step = Start(b: nat, bind: Bind) | Read(b: nat) | Put(b: nat) | Deliver(b: nat) | Lose(b: nat)

  const INIT := State(Missing, map[])

  function TableOf(server: Server): Table {
    match server case Missing => map[] case Stored(table, _) => table
  }

  /** The update of a binder that read `base`. */
  function Changed(base: Server, bind: Bind): Table {
    TableOf(base)[bind.entry := bind.descriptor]
  }

  /** `bind` after its read: return, refuse, or go on to write. */
  function Decide(size: Size, server: Server, bind: Bind): Binder {
    var table := TableOf(server);
    if size(table) > MAX_CATALOGUE then Failed
    else if bind.entry in table && table[bind.entry].sha256 == bind.descriptor.sha256 then Returned(bind, table[bind.entry])
    else if bind.entry in table && !bind.replace then Failed
    else if size(Changed(server, bind)) > MAX_CATALOGUE then Failed
    else Writing(bind, server)
  }

  /** The server's compare-and-swap: the version read is still the version stored. */
  function Swap(server: Server, base: Server, bind: Bind): Option<Server> {
    if server.Stored? != base.Stored? || (base.Stored? && server.version != base.version) then None
    else Some(Stored(Changed(base, bind), if base.Stored? then base.version + 1 else 0))
  }

  ghost predicate Next(size: Size, s: State, step: Step, t: State) {
    match step
    case Start(b, bind) =>
      && b !in s.binders && (bind.replace ==> bind.entry.kind == Checkpoints)
      && t == s.(binders := s.binders[b := Ready(bind)])
    case Read(b) =>
      && b in s.binders && s.binders[b].Ready?
      && t == s.(binders := s.binders[b := Decide(size, s.server, s.binders[b].bind)])
    case Put(b) =>
      && b in s.binders && s.binders[b].Writing?
      && var x := s.binders[b];
         (match Swap(s.server, x.base, x.bind)
          case Some(server) => t == State(server, s.binders[b := Returned(x.bind, x.bind.descriptor)])
          case None => t == s.(binders := s.binders[b := Ready(x.bind)]))
    case Deliver(b) =>
      && b in s.binders && s.binders[b].Lost?
      && var x := s.binders[b];
         && Swap(s.server, x.base, x.bind).Some?
         && t == State(Swap(s.server, x.base, x.bind).value, s.binders[b := Failed])
    case Lose(b) =>
      && b in s.binders && s.binders[b].Writing?
      && t == s.(binders := s.binders[b := Lost(s.binders[b].bind, s.binders[b].base)])
  }

  ghost predicate Run(size: Size, states: seq<State>, steps: seq<Step>) {
    && |states| == |steps| + 1 && states[0] == INIT
    && forall i :: 0 <= i < |steps| ==> Next(size, states[i], steps[i], states[i + 1])
  }

  /** What was read is what is stored for as long as the version is the same. */
  ghost predicate Earlier(base: Server, server: Server) {
    base.Stored? ==> server.Stored? && base.version <= server.version && (base.version == server.version ==> base == server)
  }

  /** A write in progress was decided on the table it replaces. */
  ghost predicate Decided(size: Size, server: Server, bind: Bind, base: Server) {
    && Earlier(base, server)
    && (bind.entry in TableOf(base) ==> bind.replace)
    && (bind.replace ==> bind.entry.kind == Checkpoints)
    && size(Changed(base, bind)) <= MAX_CATALOGUE
  }

  ghost predicate BinderInv(size: Size, server: Server, x: Binder) {
    match x
    case Ready(bind) => bind.replace ==> bind.entry.kind == Checkpoints
    case Writing(bind, base) => Decided(size, server, bind, base)
    case Lost(bind, base) => Decided(size, server, bind, base)
    case Returned(bind, d) =>
      && d.sha256 == bind.descriptor.sha256
      && bind.entry in TableOf(server)
      && (bind.entry.kind != Checkpoints ==> TableOf(server)[bind.entry] == d)
    case Failed => true
  }

  ghost predicate Inv(size: Size, s: State) {
    && (s.server.Stored? ==> size(s.server.table) <= MAX_CATALOGUE)
    && forall b :: b in s.binders ==> BinderInv(size, s.server, s.binders[b])
  }

  /** Entries are never dropped, and only a checkpoint replacement changes one. */
  ghost predicate Keeps(before: Server, after: Server) {
    forall e :: e in TableOf(before) ==>
                  e in TableOf(after) && (e.kind != Checkpoints ==> TableOf(after)[e] == TableOf(before)[e])
  }

  lemma SwapKeeps(size: Size, server: Server, base: Server, bind: Bind)
    requires Decided(size, server, bind, base) && Swap(server, base, bind).Some?
    ensures var after := Swap(server, base, bind).value;
            && Keeps(server, after) && size(TableOf(after)) <= MAX_CATALOGUE
            && bind.entry in TableOf(after) && TableOf(after)[bind.entry] == bind.descriptor
            && forall e :: e in TableOf(server) && e != bind.entry ==> TableOf(after)[e] == TableOf(server)[e]
  {
  }

  lemma StepKeeps(size: Size, s: State, step: Step, t: State)
    requires Inv(size, s) && Next(size, s, step, t)
    ensures Inv(size, t) && Keeps(s.server, t.server)
  {
    if step.Put? || step.Deliver? {
      var x := s.binders[step.b];
      assert BinderInv(size, s.server, x);
      if Swap(s.server, x.base, x.bind).Some? {
        SwapKeeps(size, s.server, x.base, x.bind);
      }
      forall b | b in t.binders ensures BinderInv(size, t.server, t.binders[b]) {
        assert b != step.b ==> BinderInv(size, s.server, s.binders[b]);
      }
    }
  }

  lemma {:induction false} RunKeeps(size: Size, states: seq<State>, steps: seq<Step>, i: nat)
    requires Run(size, states, steps) && i < |states|
    ensures Inv(size, states[i])
  {
    if i > 0 {
      RunKeeps(size, states, steps, i - 1);
      StepKeeps(size, states[i - 1], steps[i - 1], states[i]);
    }
  }

  /** A binding outside the checkpoints keeps its first descriptor in every later state of every run. */
  lemma {:induction false} BoundForever(size: Size, states: seq<State>, steps: seq<Step>, i: nat, j: nat, e: Entry)
    requires Run(size, states, steps) && i <= j < |states| && e in TableOf(states[i].server)
    ensures e in TableOf(states[j].server)
    ensures e.kind != Checkpoints ==> TableOf(states[j].server)[e] == TableOf(states[i].server)[e]
  {
    if i < j {
      BoundForever(size, states, steps, i, j - 1, e);
      RunKeeps(size, states, steps, j - 1);
      StepKeeps(size, states[j - 1], steps[j - 1], states[j]);
    }
  }

  /** The binder's write of the step, if the step is one. */
  ghost predicate Replaces(s: State, step: Step, e: Entry) {
    && (step.Put? || step.Deliver?) && step.b in s.binders && (s.binders[step.b].Writing? || s.binders[step.b].Lost?)
    && s.binders[step.b].bind.entry == e && s.binders[step.b].bind.replace
  }

  /** Even a checkpoint changes only by a bind that asked to replace it. */
  lemma ChangedOnlyByReplacement(size: Size, states: seq<State>, steps: seq<Step>, i: nat, e: Entry)
    requires Run(size, states, steps) && i < |steps| && e in TableOf(states[i].server)
    requires !Replaces(states[i], steps[i], e)
    ensures e in TableOf(states[i + 1].server) && TableOf(states[i + 1].server)[e] == TableOf(states[i].server)[e]
  {
    RunKeeps(size, states, steps, i);
    var s, step := states[i], steps[i];
    assert Next(size, s, step, states[i + 1]);
    if step.Put? || step.Deliver? {
      var x := s.binders[step.b];
      assert BinderInv(size, s.server, x);
      if Swap(s.server, x.base, x.bind).Some? {
        SwapKeeps(size, s.server, x.base, x.bind);
      }
    }
  }

  /**
   What a bind returns has the requested digest and is in the catalogue: it is what is stored at the
   step that returns it, and outside the checkpoints in every state from then on.
   */
  lemma ReturnedIsStored(size: Size, states: seq<State>, steps: seq<Step>, i: nat, b: nat)
    requires Run(size, states, steps) && i < |states| && b in states[i].binders && states[i].binders[b].Returned?
    ensures var x := states[i].binders[b];
            && x.descriptor.sha256 == x.bind.descriptor.sha256
            && x.bind.entry in TableOf(states[i].server)
            && (x.bind.entry.kind != Checkpoints ==> TableOf(states[i].server)[x.bind.entry] == x.descriptor)
    ensures i > 0 && !(b in states[i - 1].binders && states[i - 1].binders[b].Returned?) ==>
              TableOf(states[i].server)[states[i].binders[b].bind.entry] == states[i].binders[b].descriptor
  {
    RunKeeps(size, states, steps, i);
    assert BinderInv(size, states[i].server, states[i].binders[b]);
    if i > 0 {
      RunKeeps(size, states, steps, i - 1);
      assert Next(size, states[i - 1], steps[i - 1], states[i]);
    }
  }

  /** The stored catalogue never exceeds its bound. */
  lemma StoredWithinBound(size: Size, states: seq<State>, steps: seq<Step>, i: nat)
    requires Run(size, states, steps) && i < |states| && states[i].server.Stored?
    ensures size(states[i].server.table) <= MAX_CATALOGUE
  {
    RunKeeps(size, states, steps, i);
  }
}
