/**
 The coordinator's Kubernetes Lease as a timed step relation over any number of holders.

 Time is real.  A wall-clock reading at time `t` lies in `[t, t + skew]`, so two readings disagree
 with true elapsed time by at most `skew`; monotonic clocks measure true elapsed time.  At most
 `delay` passes between stamping `renewTime` and sampling `started`, and a fenced request is over
 after `request` seconds.  Writing the lease object itself has no time bound: a write may commit
 arbitrarily late, but only onto the resource version it observed.  Version 0 stands for the lease
 that does not exist yet, so creating it is the write that observed version 0; leases are never
 deleted.
 */
module Lease {
  import opened Prelude

  type Holder = string

  const DURATION := 120.0
  const MARGIN := 30.0

  datatype Timing = Timing(request: real, skew: real, delay: real)

  datatype LeaseObject = LeaseObject(version: nat, owner: Option<Holder>, renewed: real)

  datatype Kind = Acquire | Renew | Release

  /** The progress of one acquire, renew or release. */
  datatype Write =
    | Idle
    | Seen(kind: Kind, version: nat, owner: Option<Holder>, renewed: real)
    | Cleared(kind: Kind, version: nat)
    | Stamped(kind: Kind, version: nat, stamp: real, at: real)
    | Sent(kind: Kind, version: nat, stamp: real, started: real)
    | Acknowledged(kind: Kind, started: real)

  /** The progress of one fence and of the mutation it admits. */
  datatype Guard =
    | Free
    | Observing(until: real, deadline: real, seen: bool)
    | Mutating(until: real, deadline: real)

  datatype Client = Client(validUntil: real, failed: bool, write: Write, guard: Guard)

  datatype State = State(now: real, lease: LeaseObject, clients: map<Holder, Client>)

  datatype Step =
    | Wait(seconds: real)
    | Read(p: Holder, kind: Kind)
    | Check(p: Holder, clock: real)
    | Stamp(p: Holder, clock: real)
    | Send(p: Holder)
    | Commit(p: Holder)
    | Answer(p: Holder)
    | Fail(p: Holder)
    | Fence(p: Holder)
    | Observe(p: Holder)
    | Mutate(p: Holder)
    | Done(p: Holder)

  ghost predicate Possible(timing: Timing) {
    timing.request >= 0.0 && timing.skew >= 0.0 && timing.delay >= 0.0
  }

  ghost predicate Init(s: State) {
    && s.now == 0.0 && s.lease == LeaseObject(0, None, 0.0)
    && forall p :: p in s.clients ==> s.clients[p] == Client(0.0, false, Idle, Free)
  }

  predicate Reading(timing: Timing, s: State, clock: real) {
    s.now <= clock <= s.now + timing.skew
  }

  predicate Deadline(g: Guard, now: real) {
    match g
    case Free => true
    case Observing(_, deadline, _) => now <= deadline
    case Mutating(_, deadline) => now <= deadline
  }

  predicate InRelease(w: Write) {
    !w.Idle? && w.kind.Release?
  }

  /** The client `p` of `s` becomes `c`. */
  predicate Becomes(s: State, p: Holder, c: Client, t: State)
    requires p in s.clients
  {
    t == s.(clients := s.clients[p := c])
  }

  ghost predicate Next(timing: Timing, s: State, step: Step, t: State) {
    match step
    case Wait(seconds) =>
      && seconds >= 0.0 && (forall p :: p in s.clients ==> Deadline(s.clients[p].guard, s.now + seconds))
      && t == s.(now := s.now + seconds)
    case Read(p, kind) =>
      && p in s.clients && s.clients[p].write.Idle?
      && (!kind.Acquire? ==> s.lease.owner == Some(p))
      && (kind.Release? ==> s.clients[p].guard.Free?)
      && Becomes(s, p, s.clients[p].(write := Seen(kind, s.lease.version, s.lease.owner, s.lease.renewed)), t)
    case Check(p, clock) =>
      && p in s.clients && s.clients[p].write.Seen? && Reading(timing, s, clock)
      && var w := s.clients[p].write;
      && (w.kind.Acquire? && w.owner.Some? && w.owner.value != p ==> clock >= w.renewed + DURATION)
      && Becomes(s, p, s.clients[p].(write := Cleared(w.kind, w.version)), t)
    case Stamp(p, clock) =>
      && p in s.clients && s.clients[p].write.Cleared? && Reading(timing, s, clock)
      && Becomes(s, p, s.clients[p].(write := Stamped(s.clients[p].write.kind, s.clients[p].write.version, clock, s.now)), t)
    case Send(p) =>
      && p in s.clients && s.clients[p].write.Stamped?
      && var w := s.clients[p].write;
      && s.now <= w.at + timing.delay
      && Becomes(s, p, s.clients[p].(write := Sent(w.kind, w.version, w.stamp, s.now)), t)
    case Commit(p) =>
      && p in s.clients && s.clients[p].write.Sent?
      && var w := s.clients[p].write;
      if w.version != s.lease.version then
        Becomes(s, p, s.clients[p].(write := Idle, failed := s.clients[p].failed || w.kind.Renew?), t)
      else
        t == State(s.now,
                   LeaseObject(s.lease.version + 1, if w.kind.Release? then None else Some(p), w.stamp),
                   s.clients[p := s.clients[p].(write := Acknowledged(w.kind, w.started))])
    case Answer(p) =>
      && p in s.clients && s.clients[p].write.Acknowledged?
      && var w := s.clients[p].write;
      Becomes(s, p,
              s.clients[p].(write := Idle,
                            validUntil := if w.kind.Release? then s.clients[p].validUntil else w.started + DURATION), t)
    case Fail(p) =>
      && p in s.clients
      && Becomes(s, p, s.clients[p].(failed := true, write := if s.clients[p].write.Sent? then s.clients[p].write else Idle), t)
    case Fence(p) =>
      && p in s.clients && s.clients[p].guard.Free? && !InRelease(s.clients[p].write)
      && !s.clients[p].failed && s.now + MARGIN < s.clients[p].validUntil
      && Becomes(s, p, s.clients[p].(guard := Observing(s.clients[p].validUntil, s.now + timing.request, false)), t)
    case Observe(p) =>
      && p in s.clients && s.clients[p].guard.Observing? && s.lease.owner == Some(p)
      && Becomes(s, p, s.clients[p].(guard := s.clients[p].guard.(seen := true)), t)
    case Mutate(p) =>
      && p in s.clients && s.clients[p].guard.Observing? && s.clients[p].guard.seen
      && Becomes(s, p, s.clients[p].(guard := Mutating(s.clients[p].guard.until, s.now + timing.request)), t)
    case Done(p) =>
      && p in s.clients
      && Becomes(s, p, s.clients[p].(guard := Free), t)
  }

  ghost predicate Run(timing: Timing, states: seq<State>, steps: seq<Step>) {
    && |states| == |steps| + 1 && Init(states[0])
    && forall i :: 0 <= i < |steps| ==> Next(timing, states[i], steps[i], states[i + 1])
  }

  /** Whoever has a fenced mutation in flight owns the lease object. */
  ghost predicate Exclusive(s: State) {
    forall p :: p in s.clients && s.clients[p].guard.Mutating? ==> s.lease.owner == Some(p)
  }

  /** The margin covers two bounded requests, the clock skew and the stamping delay. */
  ghost predicate Sufficient(timing: Timing) {
    2.0 * timing.request + timing.skew + timing.delay <= MARGIN
  }

  // ---------- The invariant ----------

  /** What an unfinished write on the current version has established. */
  ghost predicate Justified(timing: Timing, now: real, lease: LeaseObject, p: Holder, kind: Kind) {
    if kind.Acquire? then
      lease.owner.Some? && lease.owner.value != p ==> now >= lease.renewed + DURATION - timing.skew
    else
      lease.owner == Some(p)
  }

  ghost predicate WriteAgrees(timing: Timing, now: real, lease: LeaseObject, p: Holder, c: Client) {
    match c.write
    case Idle => true
    case Seen(kind, version, owner, renewed) =>
      && version <= lease.version && (!kind.Acquire? ==> owner == Some(p))
      && (version == lease.version ==> owner == lease.owner && renewed == lease.renewed)
    case Cleared(kind, version) =>
      version <= lease.version && (version == lease.version ==> Justified(timing, now, lease, p, kind))
    case Stamped(kind, version, stamp, at) =>
      && version <= lease.version && (version == lease.version ==> Justified(timing, now, lease, p, kind))
      && at <= stamp && at <= now && c.validUntil - DURATION <= stamp
    case Sent(kind, version, stamp, started) =>
      && version <= lease.version && (version == lease.version ==> Justified(timing, now, lease, p, kind))
      && started - timing.delay <= stamp && started <= now && c.validUntil - DURATION <= stamp && c.validUntil - DURATION <= started
    case Acknowledged(kind, started) =>
      && started <= now && c.validUntil - DURATION <= started
      && (!kind.Release? && lease.owner == Some(p) ==> lease.renewed >= started - timing.delay)
  }

  ghost predicate Fenced(timing: Timing, lease: LeaseObject, p: Holder, until: real) {
    lease.owner == Some(p) && lease.renewed >= until - DURATION - timing.delay
  }

  ghost predicate GuardAgrees(timing: Timing, now: real, lease: LeaseObject, p: Holder, c: Client) {
    match c.guard
    case Free => true
    case Observing(until, deadline, seen) =>
      && until <= c.validUntil && now <= deadline && deadline < until - MARGIN + timing.request
      && !InRelease(c.write) && (seen ==> Fenced(timing, lease, p, until))
    case Mutating(until, deadline) =>
      && until <= c.validUntil && now <= deadline && deadline < until - MARGIN + 2.0 * timing.request
      && !InRelease(c.write) && Fenced(timing, lease, p, until)
  }

  /** The validity a client believes in is backed by the stamp on the lease it owns. */
  ghost predicate Backed(timing: Timing, now: real, lease: LeaseObject, p: Holder, c: Client) {
    && c.validUntil <= now + DURATION
    && (lease.owner == Some(p) ==> lease.renewed >= c.validUntil - DURATION - timing.delay)
    && WriteAgrees(timing, now, lease, p, c)
  }

  ghost predicate AllBacked(timing: Timing, s: State) {
    forall p :: p in s.clients ==> Backed(timing, s.now, s.lease, p, s.clients[p])
  }

  ghost predicate AllFenced(timing: Timing, s: State) {
    forall p :: p in s.clients ==> GuardAgrees(timing, s.now, s.lease, p, s.clients[p])
  }

  lemma CommitKeepsBacked(timing: Timing, s: State, p: Holder, q: Holder, t: State)
    requires Possible(timing) && AllBacked(timing, s) && Next(timing, s, Commit(q), t) && p in s.clients
    ensures Backed(timing, t.now, t.lease, p, t.clients[p])
  {
    assert Backed(timing, s.now, s.lease, p, s.clients[p]);
  }

  lemma OwnStepKeepsBacked(timing: Timing, s: State, p: Holder, step: Step, t: State)
    requires Possible(timing) && AllBacked(timing, s) && Next(timing, s, step, t) && !step.Commit?
    requires !step.Wait? && step.p == p && p in s.clients
    ensures Backed(timing, t.now, t.lease, p, t.clients[p])
  {
    assert Backed(timing, s.now, s.lease, p, s.clients[p]);
  }

  lemma StepKeepsBacked(timing: Timing, s: State, step: Step, t: State)
    requires Possible(timing) && AllBacked(timing, s) && Next(timing, s, step, t)
    ensures AllBacked(timing, t)
  {
    forall p | p in t.clients ensures Backed(timing, t.now, t.lease, p, t.clients[p]) {
      if step.Commit? {
        CommitKeepsBacked(timing, s, p, step.p, t);
      } else if !step.Wait? && step.p == p {
        OwnStepKeepsBacked(timing, s, p, step, t);
      } else {
        assert Backed(timing, s.now, s.lease, p, s.clients[p]);
      }
    }
  }

  /** An acquire by `q` cannot commit over a lease that `p` relies on. */
  lemma CommitKeepsFenced(timing: Timing, s: State, p: Holder, q: Holder, t: State)
    requires Possible(timing) && Sufficient(timing) && AllBacked(timing, s) && AllFenced(timing, s)
    requires Next(timing, s, Commit(q), t) && p in s.clients
    ensures GuardAgrees(timing, t.now, t.lease, p, t.clients[p])
  {
    assert Backed(timing, s.now, s.lease, p, s.clients[p]) && Backed(timing, s.now, s.lease, q, s.clients[q]);
    assert GuardAgrees(timing, s.now, s.lease, p, s.clients[p]);
  }

  lemma StepKeepsFenced(timing: Timing, s: State, step: Step, t: State)
    requires Possible(timing) && Sufficient(timing) && AllBacked(timing, s) && AllFenced(timing, s)
    requires Next(timing, s, step, t)
    ensures AllFenced(timing, t)
  {
    forall p | p in t.clients ensures GuardAgrees(timing, t.now, t.lease, p, t.clients[p]) {
      if step.Commit? {
        CommitKeepsFenced(timing, s, p, step.p, t);
      } else {
        assert Backed(timing, s.now, s.lease, p, s.clients[p]) && GuardAgrees(timing, s.now, s.lease, p, s.clients[p]);
      }
    }
  }

  lemma {:induction false} RunKeepsBacked(timing: Timing, states: seq<State>, steps: seq<Step>, i: nat)
    requires Possible(timing) && Run(timing, states, steps) && i <= |steps|
    ensures AllBacked(timing, states[i])
  {
    if i > 0 {
      RunKeepsBacked(timing, states, steps, i - 1);
      StepKeepsBacked(timing, states[i - 1], steps[i - 1], states[i]);
    }
  }

  lemma {:induction false} RunKeepsFenced(timing: Timing, states: seq<State>, steps: seq<Step>, i: nat)
    requires Possible(timing) && Sufficient(timing) && Run(timing, states, steps) && i <= |steps|
    ensures AllFenced(timing, states[i])
  {
    if i > 0 {
      RunKeepsFenced(timing, states, steps, i - 1);
      RunKeepsBacked(timing, states, steps, i - 1);
      StepKeepsFenced(timing, states[i - 1], steps[i - 1], states[i]);
    }
  }

  /**
   Mutual exclusion: in every state of every run at most one holder has a fenced mutation in
   flight, and that holder still owns the lease, so no successor's acquire has committed.
   */
  lemma MutualExclusion(timing: Timing, states: seq<State>, steps: seq<Step>, i: nat)
    requires Possible(timing) && Sufficient(timing) && Run(timing, states, steps) && i <= |steps|
    ensures Exclusive(states[i])
    ensures forall p, q | p in states[i].clients && q in states[i].clients ::
              states[i].clients[p].guard.Mutating? && states[i].clients[q].guard.Mutating? ==> p == q
  {
    RunKeepsFenced(timing, states, steps, i);
    forall p | p in states[i].clients && states[i].clients[p].guard.Mutating? ensures states[i].lease.owner == Some(p) {
      assert GuardAgrees(timing, states[i].now, states[i].lease, p, states[i].clients[p]);
    }
  }

  /** With any clocks at all, a release that commits clears only its own holder's lease. */
  lemma ReleaseNeverClearsSuccessor(timing: Timing, states: seq<State>, steps: seq<Step>, i: nat, p: Holder)
    requires Possible(timing) && Run(timing, states, steps) && i < |steps|
    requires steps[i] == Commit(p) && p in states[i].clients && InRelease(states[i].clients[p].write)
    ensures states[i + 1].lease == states[i].lease || states[i].lease.owner == Some(p)
  {
    RunKeepsBacked(timing, states, steps, i);
    assert Backed(timing, states[i].now, states[i].lease, p, states[i].clients[p]);
    assert Next(timing, states[i], steps[i], states[i + 1]);
  }

  // ---------- The margin is exact ----------

  function Pair(now: real, lease: LeaseObject, a: Client, b: Client): State {
    State(now, lease, map["a" := a, "b" := b])
  }

  function Slack(timing: Timing): real {
    var excess := 2.0 * timing.request + timing.skew + timing.delay - MARGIN;
    if excess < 1.0 then excess else 1.0
  }

  /** "a" acquires with the earliest stamp and the latest start, and fences at the last moment. */
  function Opening(timing: Timing): seq<State> {
    var newcomer := Client(0.0, false, Idle, Free);
    var none := LeaseObject(0, None, 0.0);
    var mine := LeaseObject(1, Some("a"), 0.0);
    var until := timing.delay + DURATION;
    var fence := until - MARGIN - Slack(timing);
    var holding := Client(until, false, Idle, Free);
    [ Pair(0.0, none, newcomer, newcomer),
      Pair(0.0, none, newcomer.(write := Seen(Acquire, 0, None, 0.0)), newcomer),
      Pair(0.0, none, newcomer.(write := Cleared(Acquire, 0)), newcomer),
      Pair(0.0, none, newcomer.(write := Stamped(Acquire, 0, 0.0, 0.0)), newcomer),
      Pair(timing.delay, none, newcomer.(write := Stamped(Acquire, 0, 0.0, 0.0)), newcomer),
      Pair(timing.delay, none, newcomer.(write := Sent(Acquire, 0, 0.0, timing.delay)), newcomer),
      Pair(timing.delay, mine, newcomer.(write := Acknowledged(Acquire, timing.delay)), newcomer),
      Pair(timing.delay, mine, holding, newcomer),
      Pair(fence, mine, holding, newcomer) ]
  }

  /** Both requests of "a" take their full bound; "b" reads the fastest clock and commits. */
  function Closing(timing: Timing): seq<State> {
    var newcomer := Client(0.0, false, Idle, Free);
    var mine := LeaseObject(1, Some("a"), 0.0);
    var until := timing.delay + DURATION;
    var fence := until - MARGIN - Slack(timing);
    var holding := Client(until, false, Idle, Free);
    var middle, end := fence + timing.request, fence + timing.request + timing.request;
    var mutating := holding.(guard := Mutating(until, end));
    [ Pair(fence, mine, holding.(guard := Observing(until, middle, false)), newcomer),
      Pair(fence, mine, holding.(guard := Observing(until, middle, true)), newcomer),
      Pair(middle, mine, holding.(guard := Observing(until, middle, true)), newcomer),
      Pair(middle, mine, mutating, newcomer),
      Pair(end, mine, mutating, newcomer),
      Pair(end, mine, mutating, newcomer.(write := Seen(Acquire, 1, Some("a"), 0.0))),
      Pair(end, mine, mutating, newcomer.(write := Cleared(Acquire, 1))),
      Pair(end, mine, mutating, newcomer.(write := Stamped(Acquire, 1, end, end))),
      Pair(end, mine, mutating, newcomer.(write := Sent(Acquire, 1, end, end))),
      Pair(end, LeaseObject(2, Some("b"), end), mutating, newcomer.(write := Acknowledged(Acquire, end))) ]
  }

  function OpeningSteps(timing: Timing): seq<Step> {
    [ Read("a", Acquire), Check("a", 0.0), Stamp("a", 0.0), Wait(timing.delay), Send("a"), Commit("a"), Answer("a"),
      Wait(DURATION - MARGIN - Slack(timing)) ]
  }

  function ClosingSteps(timing: Timing): seq<Step> {
    var end := Closing(timing)[4].now;
    [ Observe("a"), Wait(timing.request), Mutate("a"), Wait(timing.request), Read("b", Acquire),
      Check("b", end + timing.skew), Stamp("b", end), Send("b"), Commit("b") ]
  }

  lemma OpeningRuns(timing: Timing, i: nat)
    requires Possible(timing) && !Sufficient(timing) && i < 8
    ensures Next(timing, Opening(timing)[i], OpeningSteps(timing)[i], Opening(timing)[i + 1])
  {
  }

  lemma PairUpdate(now: real, lease: LeaseObject, a: Client, b: Client, c: Client)
    ensures Pair(now, lease, a, b).clients["a" := c] == Pair(now, lease, c, b).clients
    ensures Pair(now, lease, a, b).clients["b" := c] == Pair(now, lease, a, c).clients
  {
  }

  lemma FencedPartRuns(timing: Timing, i: nat)
    requires Possible(timing) && !Sufficient(timing) && i < 4
    ensures Next(timing, Closing(timing)[i], ClosingSteps(timing)[i], Closing(timing)[i + 1])
  {
    var s, t := Closing(timing)[i], Closing(timing)[i + 1];
    PairUpdate(s.now, s.lease, s.clients["a"], s.clients["b"], t.clients["a"]);
  }

  lemma TakeoverRuns(timing: Timing, i: nat)
    requires Possible(timing) && !Sufficient(timing) && 4 <= i < 9
    ensures Next(timing, Closing(timing)[i], ClosingSteps(timing)[i], Closing(timing)[i + 1])
  {
    var s, t := Closing(timing)[i], Closing(timing)[i + 1];
    PairUpdate(s.now, s.lease, s.clients["a"], s.clients["b"], t.clients["b"]);
  }

  /** When the margin does not cover the delays, a successor acquires under a mutation in flight. */
  lemma Violation(timing: Timing) returns (states: seq<State>, steps: seq<Step>)
    requires Possible(timing) && !Sufficient(timing)
    ensures Run(timing, states, steps) && !Exclusive(states[|steps|])
  {
    states := Opening(timing) + Closing(timing);
    steps := OpeningSteps(timing) + [Fence("a")] + ClosingSteps(timing);
    forall i | 0 <= i < |steps| ensures Next(timing, states[i], steps[i], states[i + 1]) {
      if i < 8 {
        OpeningRuns(timing, i);
      } else if 8 < i < 13 {
        FencedPartRuns(timing, i - 9);
      } else if i >= 13 {
        TakeoverRuns(timing, i - 9);
      }
    }
    assert "a" in states[18].clients && states[18].clients["a"].guard.Mutating?;
  }

  /** Thirty seconds are exactly enough: exclusion on every run is equivalent to the time budget. */
  lemma MarginIsExact(timing: Timing)
    requires Possible(timing)
    ensures Sufficient(timing) <==>
            forall states, steps, i: nat :: Run(timing, states, steps) && i <= |steps| ==> Exclusive(states[i])
  {
    if Sufficient(timing) {
      forall states, steps, i: nat | Run(timing, states, steps) && i <= |steps| ensures Exclusive(states[i]) {
        MutualExclusion(timing, states, steps, i);
      }
    } else {
      var states, steps := Violation(timing);
    }
  }
}
