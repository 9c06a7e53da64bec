/**
 Exports are verified against the transfer as announced so far.  Whether a verified export also has
 the size and digest finally announced depends on what is announced after it, and nothing checks that.
 */
module VerdictAnnouncements {
  import opened Prelude
  import opened Verdict
  import opened VerdictSoundness

  lemma {:induction false} SizeAppend(a: seq<Event>, b: seq<Event>, key: Key)
    ensures SizeIn(a + b, key) == Or(SizeIn(b, key), SizeIn(a, key))
    decreases |b|
  {
    if b == [] {
      assert a + b == a;
    } else {
      SizeAppend(a, b[..|b| - 1], key);
      assert (a + b)[..|a + b| - 1] == a + b[..|b| - 1];
    }
  }

  lemma {:induction false} DigestAppend(a: seq<Event>, b: seq<Event>, key: Key)
    ensures DigestIn(a + b, key) == Or(DigestIn(b, key), DigestIn(a, key))
    decreases |b|
  {
    if b == [] {
      assert a + b == a;
    } else {
      DigestAppend(a, b[..|b| - 1], key);
      assert (a + b)[..|a + b| - 1] == a + b[..|b| - 1];
    }
  }

  /**
   A verified export has the size and digest finally announced if and only if the last size and the
   last digest announced after it, if any are, are its own.
   */
  lemma FinalMatchExactly(events: seq<Event>, x: nat)
    requires x < |events| && events[x].Exported? && Agrees(events, x)
    ensures var key, after := events[x].key, events[x + 1..];
            && (events[x].size == SizeIn(events, key) <==> SizeIn(after, key).Some? ==> SizeIn(after, key) == events[x].size)
            && (events[x].sha256 == DigestIn(events, key) <==> DigestIn(after, key).Some? ==> DigestIn(after, key) == events[x].sha256)
  {
    var key := events[x].key;
    var through := events[..x + 1];
    assert events == through + events[x + 1..] && through[..x] == events[..x];
    SizeAppend(through, events[x + 1..], key);
    DigestAppend(through, events[x + 1..], key);
  }

  // ---------- A late announcement ----------

  function Late(key: Key, size: Option<nat>, digest: Option<string>): Event {
    Transfer(key, size, digest, None, None, None)
  }

  /** The transfer after it: another size or digest, everything else as before. */
  function Renamed(t: Info, size: Option<nat>, digest: Option<string>): Info {
    t.(size := Or(size, t.size), sha256 := Or(digest, t.sha256))
  }

  lemma LateFold(events: seq<Event>, key: Key, size: Option<nat>, digest: Option<string>)
    ensures var s := Fold(events);
            Fold(events + [Late(key, size, digest)]) ==
            s.(transfers := s.transfers[key := Renamed(InfoOf(s.transfers, key), size, digest)])
  {
    assert (events + [Late(key, size, digest)])[..|events|] == events;
  }

  /** Sizes do not enter the evidence of such a transfer. */
  predicate SizeFree(title: string) {
    title !in PARTIAL && title != "complementary" && !("large-" <= title)
  }

  /** A size that leaves every receiver of the transfer within its time limit. */
  predicate Tolerates(s: Summary, events: seq<Event>, key: Key, size: nat) {
    var t := InfoOf(s.transfers, key);
    && SizeFree(t.title)
    && forall c :: c in Recipients(t) && Cancelled(key, c) !in events ==> WithinLimit(t.(size := Some(size)), ReceiverOf(t, c))
  }

  /** What a late announcement leaves as it is. */
  ghost predicate Alike(a: Info, b: Info, resized: bool) {
    && a.expected == b.expected && a.title == b.title && a.sender == b.sender && a.receivers == b.receivers
    && (a.size.Some? ==> b.size.Some?) && (if resized then SizeFree(a.title) else a.size == b.size)
  }

  lemma LogGates(events: seq<Event>, e: Event)
    requires e.Transfer?
    ensures var log := events + [e];
            && (NoFailure(log) <==> NoFailure(events)) && (ResourcesBounded(log) <==> ResourcesBounded(events))
            && Seconds(log, "baseline") == Seconds(events, "baseline") && Seconds(log, "mixed") == Seconds(events, "mixed")
            && Window(log, "mixed") == Window(events, "mixed") && Window(log, "baseline") == Window(events, "baseline")
  {
    assert (events + [e])[..|events|] == events;
    forall x | x in events ensures x in events + [e] {
    }
  }

  lemma ChatGates(events: seq<Event>, e: Event)
    requires e.Transfer? && ChatsAcknowledged(events)
    ensures ChatsAcknowledged(events + [e])
  {
    forall x | x in events + [e] && x.ChatSent? ensures exists a :: a in events + [e] && a.ChatAck? && a.message == x.message {
      var a :| a in events && a.ChatAck? && a.message == x.message;
      assert a in events + [e];
    }
  }

  lemma CaseGates(events: seq<Event>, e: Event)
    requires e.Transfer? && CasesPass(events) && Clean(events)
    ensures CasesPass(events + [e]) && Clean(events + [e])
  {
    var log := events + [e];
    assert log[..|events|] == events;
    forall name ensures CaseResult(log, name) == CaseResult(events, name) {
    }
    forall host ensures CleanupOf(log, host) == CleanupOf(events, host) {
    }
  }

  lemma PresenceGates(events: seq<Event>, e: Event)
    requires e.Transfer? && AllReady(events) && AllCarried(events)
    ensures AllReady(events + [e]) && AllCarried(events + [e])
  {
    var log := events + [e];
    forall c | 0 <= c < 16 ensures Qualified(log, c) && Diagnosed(log, c) {
      assert Qualified(events, c) && Diagnosed(events, c);
      var x :| x in events && x.Ready? && x.client == c && x.qualified;
      assert x in log;
      var y, slot :| y in events && y.Traffic? && slot in y.diagnostics && y.diagnostics[slot].samples > 0 && y.host * 2 + slot == c;
      assert y in log;
    }
    forall host | 0 <= host < 8 ensures Attached(log, host) {
      assert Attached(events, host);
      var x :| x in events && x.Traffic? && x.host == host && x.attached;
      assert x in log;
    }
  }

  /** The same transfers, but one renamed. */
  ghost predicate Replaced(s: Summary, t: Summary, key: Key, resized: bool) {
    && key in t.transfers && t == s.(transfers := s.transfers[key := t.transfers[key]])
    && Alike(InfoOf(s.transfers, key), t.transfers[key], resized)
  }

  lemma ReplacedInfo(s: Summary, t: Summary, key: Key, resized: bool, k: Key)
    requires Replaced(s, t, key, resized)
    ensures Alike(InfoOf(s.transfers, k), InfoOf(t.transfers, k), resized && k == key)
    ensures k != key ==> InfoOf(s.transfers, k) == InfoOf(t.transfers, k)
    ensures k in s.transfers ==> k in t.transfers
    ensures k in t.transfers && k !in s.transfers ==> t.transfers[k].receivers == map[] && t.transfers[k].expected == {} && t.transfers[k].title == ""
  {
  }

  lemma ReportableGate(s: Summary, t: Summary, key: Key, resized: bool)
    requires Replaced(s, t, key, resized) && Reportable(s)
    ensures Reportable(t)
  {
    forall k, c | k in t.transfers && c in t.transfers[k].receivers ensures !Unreportable(t.transfers[k], c) {
      ReplacedInfo(s, t, key, resized, k);
      assert k in s.transfers && !Unreportable(s.transfers[k], c);
    }
  }

  lemma CoveredGate(s: Summary, t: Summary, key: Key, resized: bool)
    requires Replaced(s, t, key, resized) && Covered(s)
    ensures Covered(t)
  {
    forall a, b | 0 <= a < 8 && 0 <= b < 8 && a != b ensures Reached(t, a, b) {
      assert Reached(s, a, b);
      var k, c :| k in s.transfers && c in s.transfers[k].receivers && Reaches(s.transfers[k], c, a, b);
      ReplacedInfo(s, t, key, resized, k);
      assert Reaches(t.transfers[k], c, a, b);
    }
    forall k, c | k in t.transfers && c in t.transfers[k].receivers && IsCoverage(t.transfers[k]) ensures OtherHost(t.transfers[k], c) {
      ReplacedInfo(s, t, key, resized, k);
      assert k in s.transfers && OtherHost(s.transfers[k], c);
    }
  }

  lemma CorpusGate(s: Summary, t: Summary, key: Key, resized: bool)
    requires Replaced(s, t, key, resized) && Corpus(s)
    ensures Corpus(t)
  {
    LargeSame(s, t, key, resized, GIB);
    LargeSame(s, t, key, resized, 256 * MIB);
  }

  lemma LargeSame(s: Summary, t: Summary, key: Key, resized: bool, size: nat)
    requires Replaced(s, t, key, resized)
    ensures Large(s, size) == Large(t, size)
  {
    forall k: Key ensures k in Large(s, size) <==> k in Large(t, size) {
      ReplacedInfo(s, t, key, resized, k);
    }
  }

  lemma RecoveryGates(s: Summary, t: Summary, key: Key, resized: bool, events: seq<Event>, log: seq<Event>, i: nat)
    requires Replaced(s, t, key, resized) && (forall e :: e in events ==> e in log) && i < |PARTIAL|
    requires Interrupted(s, events, PARTIAL[i]) && Recovered(s, events, PARTIAL[i])
    ensures Interrupted(t, log, PARTIAL[i]) && Recovered(t, log, PARTIAL[i])
  {
    var e :| e in events && e.Precondition? && e.name == PARTIAL[i] && FaultProof(s, e);
    ReplacedInfo(s, t, key, resized, e.key);
    assert FaultProof(t, e) && e in log;
    var f :| f in events && f.Progress? && f.name == PARTIAL[i] && RecoveryProof(s, events, f);
    ReplacedInfo(s, t, key, resized, f.key);
    PrecededLater(events, log, f);
    assert RecoveryProof(t, log, f) && f in log;
  }

  lemma PrecededLater(events: seq<Event>, log: seq<Event>, f: Event)
    requires (forall e :: e in events ==> e in log) && f.Progress? && Preceded(events, f)
    ensures Preceded(log, f)
  {
    var p :| p in events && p.Precondition? && p.name == f.name && p.key == f.key && p.client == f.client && p.elapsed <= f.started;
    assert p in log;
  }

  lemma SourceGates(s: Summary, t: Summary, key: Key, resized: bool, events: seq<Event>, e: Event)
    requires Replaced(s, t, key, resized) && e.Transfer? && MultipleSources(s, events)
    ensures MultipleSources(t, events + [e])
  {
    var log := events + [e];
    var x :| x in events && MissingSource(s, x);
    ReplacedInfo(s, t, key, resized, x.key);
    assert x in log && MissingSource(t, x);
    var y :| y in events && TwoSources(s, y);
    ReplacedInfo(s, t, key, resized, y.key);
    assert y in log && TwoSources(t, y);
    var k :| k in s.transfers && LateJoin(s.transfers[k], Contributions(events, k));
    ReplacedInfo(s, t, key, resized, k);
    assert log[..|events|] == events;
    assert Contributions(log, k) == Contributions(events, k);
    assert k in t.transfers && LateJoin(t.transfers[k], Contributions(log, k));
  }

  lemma DeliveredGate(s: Summary, t: Summary, key: Key, events: seq<Event>, size: Option<nat>, digest: Option<string>)
    requires t == s.(transfers := s.transfers[key := Renamed(InfoOf(s.transfers, key), size, digest)])
    requires Delivered(s, events) && (size.Some? ==> Tolerates(s, events, key, size.value))
    ensures Delivered(t, events + [Late(key, size, digest)])
  {
    var log := events + [Late(key, size, digest)];
    forall k, c | k in t.transfers && c in Recipients(t.transfers[k]) && Cancelled(k, c) !in log
      ensures WithinLimit(t.transfers[k], ReceiverOf(t.transfers[k], c))
    {
      assert Cancelled(k, c) in events ==> Cancelled(k, c) in log;
      if k in s.transfers {
        assert WithinLimit(s.transfers[k], ReceiverOf(s.transfers[k], c));
      }
    }
  }

  /**
   A passing campaign still passes after a transfer is announced anew, with any digest, and with any
   size that the time limits tolerate: the verdict never looks at its exports again.
   */
  lemma LateAnnouncementPasses(phase: string, events: seq<Event>, key: Key, size: Option<nat>, digest: Option<string>)
    requires Decide(phase, events) == Pass && (size.Some? ==> Tolerates(Fold(events), events, key, size.value))
    ensures Decide(phase, events + [Late(key, size, digest)]) == Pass
    ensures size.Some? ==> SizeIn(events + [Late(key, size, digest)], key) == size
    ensures digest.Some? ==> DigestIn(events + [Late(key, size, digest)], key) == digest
  {
    var e := Late(key, size, digest);
    var log, s, t := events + [e], Fold(events), Fold(events + [e]);
    LateFold(events, key, size, digest);
    assert Replaced(s, t, key, size.Some?);
    ReportableGate(s, t, key, size.Some?);
    LogGates(events, e);
    ChatGates(events, e);
    DeliveredGate(s, t, key, events, size, digest);
    LateComplete(s, t, key, size.Some?, events, e);
  }

  lemma LateComplete(s: Summary, t: Summary, key: Key, resized: bool, events: seq<Event>, e: Event)
    requires Replaced(s, t, key, resized) && e.Transfer? && Complete(s, events)
    ensures Complete(t, events + [e])
  {
    LogGates(events, e);
    CaseGates(events, e);
    PresenceGates(events, e);
    CoveredGate(s, t, key, resized);
    CorpusGate(s, t, key, resized);
    SourceGates(s, t, key, resized, events, e);
    forall i | 0 <= i < |PARTIAL| ensures Interrupted(t, events + [e], PARTIAL[i]) && Recovered(t, events + [e], PARTIAL[i]) {
      RecoveryGates(s, t, key, resized, events, events + [e], i);
    }
  }
}
