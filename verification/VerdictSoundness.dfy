/** What a passing verdict means for the event log itself. */
module VerdictSoundness {
  import opened Prelude
  import opened Verdict
  import Auc

  // ---------- Reading the log directly ----------

  /** The size, digest and expected receivers last announced for a transfer. */
  function SizeIn(events: seq<Event>, key: Key): Option<nat> {
    if events == [] then None
    else
      var e := events[|events| - 1];
      if e.Transfer? && e.key == key && e.size.Some? then e.size else SizeIn(events[..|events| - 1], key)
  }

  function DigestIn(events: seq<Event>, key: Key): Option<string> {
    if events == [] then None
    else
      var e := events[|events| - 1];
      if e.Transfer? && e.key == key && e.sha256.Some? then e.sha256 else DigestIn(events[..|events| - 1], key)
  }

  function ExpectedIn(events: seq<Event>, key: Key): set<Client> {
    if events == [] then {}
    else
      var e := events[|events| - 1];
      if e.Transfer? && e.key == key && e.expected.Some? then e.expected.value else ExpectedIn(events[..|events| - 1], key)
  }

  predicate Concerns(e: Event, key: Key, c: Client) {
    (e.Accepted? || e.Exported?) && e.key == key && e.client == c
  }

  /** The receivers a transfer must reach: those announced and those that took part. */
  ghost predicate Required(events: seq<Event>, key: Key, c: Client) {
    c in ExpectedIn(events, key) || exists i :: 0 <= i < |events| && Concerns(events[i], key, c)
  }

  /**
   Entry `a` accepts and entry `x` exports, nothing else happens to the receiver from `a` on, and the
   export has the size and digest announced before it.
   */
  ghost predicate Proves(events: seq<Event>, key: Key, c: Client, a: nat, x: nat) {
    && a < x < |events|
    && events[a].Accepted? && Concerns(events[a], key, c) && events[x].Exported? && Concerns(events[x], key, c)
    && (forall i :: a < i < |events| && Concerns(events[i], key, c) ==> events[i].Exported?)
    && (forall i :: x < i < |events| ==> !Concerns(events[i], key, c))
    && events[x].elapsed >= events[a].elapsed && events[x].verified
    && events[x].size == SizeIn(events[..x], key) && events[x].sha256 == DigestIn(events[..x], key)
  }

  // ---------- The fold reads the log ----------

  lemma {:induction false} FoldAnnounces(events: seq<Event>, key: Key)
    ensures var t := InfoOf(Fold(events).transfers, key);
            t.size == SizeIn(events, key) && t.sha256 == DigestIn(events, key) && t.expected == ExpectedIn(events, key)
  {
    if events != [] {
      FoldAnnounces(events[..|events| - 1], key);
    }
  }

  lemma {:induction false} FoldReceives(events: seq<Event>, key: Key, c: Client)
    ensures c in InfoOf(Fold(events).transfers, key).receivers <==> exists i :: 0 <= i < |events| && Concerns(events[i], key, c)
  {
    if events != [] {
      var n := |events| - 1;
      FoldReceives(events[..n], key, c);
      assert events[..n] + [events[n]] == events;
      if Concerns(events[n], key, c) {
        assert c in InfoOf(Fold(events).transfers, key).receivers;
      } else {
        assert forall i :: 0 <= i < n ==> events[..n][i] == events[i];
        assert (c in InfoOf(Fold(events).transfers, key).receivers) == (c in InfoOf(Fold(events[..n]).transfers, key).receivers);
      }
    }
  }

  /** The acceptance that a receiver's state remembers. */
  ghost predicate AcceptedAt(events: seq<Event>, key: Key, c: Client, a: nat) {
    && a < |events| && events[a].Accepted? && Concerns(events[a], key, c)
    && forall i :: a < i < |events| && Concerns(events[i], key, c) ==> events[i].Exported?
  }

  lemma {:induction false} FoldAccepts(events: seq<Event>, key: Key, c: Client) returns (a: nat)
    requires ReceiverOf(InfoOf(Fold(events).transfers, key), c).accepted.Some?
    ensures AcceptedAt(events, key, c, a)
    ensures ReceiverOf(InfoOf(Fold(events).transfers, key), c).accepted == Some(events[a].elapsed)
  {
    var n := |events| - 1;
    if events[n].Accepted? && Concerns(events[n], key, c) {
      a := n;
    } else {
      a := FoldAccepts(events[..n], key, c);
    }
  }

  /** A valid receiver was proved by the log. */
  lemma {:induction false} FoldProves(events: seq<Event>, key: Key, c: Client) returns (a: nat, x: nat)
    requires ReceiverOf(InfoOf(Fold(events).transfers, key), c).valid
    ensures Proves(events, key, c, a, x)
    ensures var r := ReceiverOf(InfoOf(Fold(events).transfers, key), c);
            r.accepted == Some(events[a].elapsed) && r.exported == Some(events[x].elapsed)
  {
    var n := |events| - 1;
    var front := events[..n];
    if Concerns(events[n], key, c) {
      x := n;
      a := FoldAccepts(front, key, c);
      FoldAnnounces(front, key);
    } else {
      a, x := FoldProves(front, key, c);
      ProvesLater(events, key, c, a, x);
    }
  }

  lemma ProvesLater(events: seq<Event>, key: Key, c: Client, a: nat, x: nat)
    requires events != [] && Proves(events[..|events| - 1], key, c, a, x) && !Concerns(events[|events| - 1], key, c)
    ensures Proves(events, key, c, a, x)
  {
    assert events[..|events| - 1][..x] == events[..x];
  }

  // ---------- What passing means ----------

  /** The time a receiver may take, by the size finally announced. */
  ghost predicate InTime(events: seq<Event>, key: Key, a: nat, x: nat)
    requires a < |events| && x < |events| && events[a].Accepted? && events[x].Exported?
  {
    && SizeIn(events, key).Some?
    && (SizeIn(events, key).value <= MIB ==> events[x].elapsed - events[a].elapsed <= 300.0)
    && (SizeIn(events, key).value >= GIB ==> events[x].elapsed - events[a].elapsed <= 14400.0)
  }

  lemma {:induction false} FoldHas(events: seq<Event>, key: Key)
    ensures key !in Fold(events).transfers ==> InfoOf(Fold(events).transfers, key) == NEW
  {
  }

  lemma RequiredIsChecked(events: seq<Event>, key: Key, c: Client)
    requires Required(events, key, c)
    ensures key in Fold(events).transfers && c in Recipients(Fold(events).transfers[key])
  {
    FoldAnnounces(events, key);
    FoldReceives(events, key, c);
    FoldHas(events, key);
  }

  /** A valid receiver of a reportable log: proved, and of a transfer with a size. */
  lemma ValidIsProved(events: seq<Event>, key: Key, c: Client) returns (a: nat, x: nat)
    requires Reportable(Fold(events)) && ReceiverOf(InfoOf(Fold(events).transfers, key), c).valid
    ensures Proves(events, key, c, a, x) && SizeIn(events, key).Some?
    ensures var r := ReceiverOf(InfoOf(Fold(events).transfers, key), c);
            r.accepted == Some(events[a].elapsed) && r.exported == Some(events[x].elapsed)
  {
    a, x := FoldProves(events, key, c);
    FoldAnnounces(events, key);
    FoldHas(events, key);
    assert !Unreportable(Fold(events).transfers[key], c);
  }

  /** One required receiver of a log that passes the transfer gate. */
  lemma ReceiverProved(events: seq<Event>, key: Key, c: Client) returns (a: nat, x: nat)
    requires Reportable(Fold(events)) && Delivered(Fold(events), events) && Required(events, key, c) && Cancelled(key, c) !in events
    ensures Proves(events, key, c, a, x) && InTime(events, key, a, x)
  {
    RequiredIsChecked(events, key, c);
    var t := Fold(events).transfers[key];
    assert WithinLimit(t, ReceiverOf(t, c));
    a, x := ValidIsProved(events, key, c);
    FoldAnnounces(events, key);
  }

  /** An export entry agrees with what was announced before it. */
  ghost predicate Agrees(events: seq<Event>, i: nat)
    requires i < |events| && events[i].Exported?
  {
    events[i].verified && events[i].size == SizeIn(events[..i], events[i].key) && events[i].sha256 == DigestIn(events[..i], events[i].key)
  }

  lemma {:induction false} NoMismatch(events: seq<Event>, i: nat)
    requires !Fold(events).mismatched && i < |events| && events[i].Exported?
    ensures Agrees(events, i)
  {
    var n := |events| - 1;
    if i == n {
      FoldAnnounces(events[..n], events[n].key);
    } else {
      NoMismatch(events[..n], i);
      assert events[..n][..i] == events[..i];
    }
  }

  /**
   A campaign passes only if its log holds no failure; every sent chat is acknowledged; every case
   that is required or reported passed last; no export ever disagreed; and every required receiver
   that was not cancelled accepted, and then exported in time with the announced size and digest.
   */
  lemma PassIsEarned(phase: string, events: seq<Event>)
    requires Decide(phase, events) == Pass
    ensures phase == "campaign" && NoFailure(events) && ChatsAcknowledged(events) && ResourcesBounded(events) && CasesPass(events)
    ensures forall key, c :: Required(events, key, c) && Cancelled(key, c) !in events ==>
              exists a, x :: Proves(events, key, c, a, x) && InTime(events, key, a, x)
    ensures forall i :: 0 <= i < |events| && events[i].Exported? ==> Agrees(events, i)
  {
    forall key, c | Required(events, key, c) && Cancelled(key, c) !in events
      ensures exists a, x :: Proves(events, key, c, a, x) && InTime(events, key, a, x)
    {
      var a, x := ReceiverProved(events, key, c);
    }
    forall i | 0 <= i < |events| && events[i].Exported? ensures Agrees(events, i) {
      NoMismatch(events, i);
    }
  }

  lemma {:induction false} CountGrows(values: seq<real>, x: real, y: real)
    requires x <= y
    ensures Auc.Count(values, x, true) <= Auc.Count(values, y, true)
  {
    if values != [] {
      CountGrows(values[1..], x, y);
    }
  }

  /**
   The chat latency of a passing campaign: it measured both phases long enough; at least 95 of 100
   mixed acknowledgments came within twice the baseline's 95th percentile or within two seconds of
   it, and none took more than two minutes.
   */
  lemma LatencyIsEarned(phase: string, events: seq<Event>) returns (usual: real)
    requires Decide(phase, events) == Pass
    ensures Window(events, "mixed") >= 14400.0 && Window(events, "baseline") >= 1800.0
    ensures var baseline, mixed := Seconds(events, "baseline"), Seconds(events, "mixed");
            && baseline != [] && mixed != []
            && 100 * Auc.Count(baseline, usual, true) >= 95 * |baseline| && 100 * Auc.Count(baseline, usual, false) < 95 * |baseline|
            && 100 * Auc.Count(mixed, Larger(2.0 * usual, usual + 2.0), true) >= 95 * |mixed|
            && forall x :: x in mixed ==> x <= 120.0
  {
    var baseline, mixed := Seconds(events, "baseline"), Seconds(events, "mixed");
    usual := Percentile(baseline, 95).value;
    PercentileMeaning(baseline, 95);
    PercentileMeaning(mixed, 95);
    CountGrows(mixed, Percentile(mixed, 95).value, Larger(2.0 * usual, usual + 2.0));
  }

  // ---------- Large files ----------

  /** Somebody who did not cancel had to receive the transfer. */
  ghost predicate Wanted(events: seq<Event>, key: Key) {
    exists c :: Required(events, key, c) && Cancelled(key, c) !in events
  }

  /** Somebody who did not cancel exported it, verified and in time. */
  ghost predicate Received(events: seq<Event>, key: Key) {
    exists c, a, x :: Cancelled(key, c) !in events && Proves(events, key, c, a, x) && InTime(events, key, a, x)
  }

  ghost predicate IsLargeFile(events: seq<Event>, key: Key) {
    key in Large(Fold(events), GIB) || key in Large(Fold(events), 256 * MIB)
  }

  /**
   The corpus gate counts announcements.  A passing log has all eight large files exported exactly when
   each of them had to be received by somebody.
   */
  lemma LargeFilesExactly(phase: string, events: seq<Event>)
    requires Decide(phase, events) == Pass
    ensures |Large(Fold(events), GIB)| == 4 && |Large(Fold(events), 256 * MIB)| == 4
    ensures (forall key :: IsLargeFile(events, key) ==> Received(events, key)) <==>
            (forall key :: IsLargeFile(events, key) ==> Wanted(events, key))
  {
    forall key ensures Received(events, key) <==> Wanted(events, key) {
      ReceivedIfWanted(events, key);
    }
  }

  lemma ReceivedIfWanted(events: seq<Event>, key: Key)
    requires Reportable(Fold(events)) && Delivered(Fold(events), events)
    ensures Received(events, key) <==> Wanted(events, key)
  {
    if c :| Required(events, key, c) && Cancelled(key, c) !in events {
      var a, x := ReceiverProved(events, key, c);
    }
  }


  /** A passing log proves an export from every host to every other host. */
  lemma CoverageIsEarned(phase: string, events: seq<Event>, from: nat, to: nat) returns (key: Key, c: Client, a: nat, x: nat)
    requires Decide(phase, events) == Pass && from < 8 && to < 8 && from != to
    ensures Proves(events, key, c, a, x) && c / 2 == to
    ensures InfoOf(Fold(events).transfers, key).sender.Some? && InfoOf(Fold(events).transfers, key).sender.value / 2 == from
  {
    var s := Fold(events);
    assert Reached(s, from, to);
    key, c :| key in s.transfers && c in s.transfers[key].receivers && Reaches(s.transfers[key], c, from, to);
    a, x := FoldProves(events, key, c);
  }

  // ---------- Interruptions and recoveries ----------

  /** A receiver was observed with part of the file, between its acceptance and its export. */
  ghost predicate PartialObservation(events: seq<Event>, p: Event, a: nat, x: nat) {
    && p in events && p.Precondition? && Proves(events, p.key, p.client, a, x)
    && SizeIn(events, p.key).Some? && 0 < p.verifiedBytes < SizeIn(events, p.key).value
    && events[a].elapsed <= p.elapsed < events[x].elapsed
  }

  /** A receiver made progress within five minutes of a recovery, between its acceptance and its export. */
  ghost predicate TimelyRecovery(events: seq<Event>, e: Event, a: nat, x: nat) {
    && e in events && e.Progress? && Proves(events, e.key, e.client, a, x)
    && SizeIn(events, e.key).Some? && 0 <= e.before <= e.after <= SizeIn(events, e.key).value
    && events[a].elapsed <= e.started <= e.elapsed <= events[x].elapsed && e.elapsed - e.started <= 300.02
  }

  lemma FaultIsObserved(events: seq<Event>, p: Event) returns (a: nat, x: nat)
    requires Reportable(Fold(events)) && p in events && p.Precondition? && FaultProof(Fold(events), p)
    ensures PartialObservation(events, p, a, x)
  {
    a, x := ValidIsProved(events, p.key, p.client);
    FoldAnnounces(events, p.key);
  }

  lemma RecoveryIsTimely(events: seq<Event>, e: Event) returns (a: nat, x: nat)
    requires Reportable(Fold(events)) && e in events && RecoveryProof(Fold(events), events, e)
    ensures TimelyRecovery(events, e, a, x)
  {
    a, x := ValidIsProved(events, e.key, e.client);
    FoldAnnounces(events, e.key);
  }

  /** For each interruption a passing log shows a receiver with part of the file that completed it later. */
  lemma InterruptionIsEarned(phase: string, events: seq<Event>, i: nat) returns (p: Event, a: nat, x: nat)
    requires Decide(phase, events) == Pass && i < |PARTIAL|
    ensures PartialObservation(events, p, a, x) && p.name == PARTIAL[i]
  {
    var s := Fold(events);
    assert Interrupted(s, events, PARTIAL[i]);
    p :| p in events && p.Precondition? && p.name == PARTIAL[i] && FaultProof(s, p);
    a, x := FaultIsObserved(events, p);
  }

  /** And a receiver that recovered in time after an interruption recorded for it. */
  lemma RecoveryIsEarned(phase: string, events: seq<Event>, i: nat) returns (p: Event, e: Event, a: nat, x: nat)
    requires Decide(phase, events) == Pass && i < |PARTIAL|
    ensures TimelyRecovery(events, e, a, x) && p in events && p.Precondition? && p.name == e.name == PARTIAL[i]
    ensures p.key == e.key && p.client == e.client && p.elapsed <= e.started
  {
    var s := Fold(events);
    assert Recovered(s, events, PARTIAL[i]);
    e :| e in events && e.Progress? && e.name == PARTIAL[i] && RecoveryProof(s, events, e);
    p :| p in events && p.Precondition? && p.name == e.name && p.key == e.key && p.client == e.client && p.elapsed <= e.started;
    a, x := RecoveryIsTimely(events, e);
  }

  /** The recovery's own precondition shows the whole story of one receiver, from acceptance to export. */
  ghost predicate StoryOf(events: seq<Event>, p: Event, e: Event) {
    exists a, x :: PartialObservation(events, p, a, x) && TimelyRecovery(events, e, a, x)
  }

  ghost predicate Matches(p: Event, e: Event) {
    p.Precondition? && e.Progress? && p.name == e.name && p.key == e.key && p.client == e.client && p.elapsed <= e.started
  }

  /**
   The two need not be one story.  A recovery and the precondition recorded for it tell one if and
   only if that precondition shows a part of the file and lies between acceptance and export; the
   gate does not ask this of the precondition of a recovery.
   */
  lemma StoryExactly(phase: string, events: seq<Event>, p: Event, e: Event)
    requires Decide(phase, events) == Pass && p in events && e in events && Matches(p, e) && RecoveryProof(Fold(events), events, e)
    ensures var t := InfoOf(Fold(events).transfers, e.key);
            && t.size.Some?
            && (StoryOf(events, p, e) <==> 0 < p.verifiedBytes < t.size.value && During(ReceiverOf(t, e.client), p.elapsed))
  {
    var t := InfoOf(Fold(events).transfers, e.key);
    var a, x := ValidIsProved(events, e.key, e.client);
    var b, y := RecoveryIsTimely(events, e);
    FoldAnnounces(events, e.key);
    OneProof(events, e.key, e.client, a, x, b, y);
    if 0 < p.verifiedBytes < t.size.value && During(ReceiverOf(t, e.client), p.elapsed) {
      assert PartialObservation(events, p, a, x) && TimelyRecovery(events, e, a, x);
    }
    if StoryOf(events, p, e) {
      var c, z :| PartialObservation(events, p, c, z) && TimelyRecovery(events, e, c, z);
      OneProof(events, e.key, e.client, a, x, c, z);
    }
  }

  /** A receiver's acceptance and export are determined. */
  lemma OneProof(events: seq<Event>, key: Key, c: Client, a: nat, x: nat, b: nat, y: nat)
    requires Proves(events, key, c, a, x) && Proves(events, key, c, b, y)
    ensures a == b && x == y
  {
  }
}
