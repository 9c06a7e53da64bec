/**
 A campaign log that passes.  In it the recovery proved for one kind of interruption and the
 interruption proved for it concern different receivers.
 */
module VerdictWitness {
  import opened Prelude
  import opened Verdict
  import opened VerdictAnnouncements
  import opened VerdictSoundness
  import Auc

  // ---------- Transfers ----------

  const KEYS := 25
  const PAIRS := 400

  function SizeOf(k: Key): nat {
    if 8 <= k < 12 then GIB else if 12 <= k < 16 then 256 * MIB else 5
  }

  function TitleOf(k: Key): string {
    if k < 8 then "coverage-" else if k < 16 then "large-" else if k < 22 then PARTIAL[k - 16]
    else if k == 22 then "missing-source" else if k == 23 then "simultaneous" else "complementary"
  }

  function SenderOf(k: Key): Client {
    if k < 8 then 2 * k else 0
  }

  /** One client of every other host receives a coverage transfer; client 2 the others, and client 4 one of them too. */
  predicate Receives(k: Key, c: Client) {
    if k < 8 then c < 16 && c % 2 == 0 && c / 2 != k else 16 <= k < 25 && (c == 2 || (k == 16 && c == 4))
  }

  function InfoFor(k: Key): Info {
    Info(Some(SizeOf(k)), Some("h"), {}, TitleOf(k), Some(SenderOf(k)), map[])
  }

  function Announced(n: nat): seq<Event> {
    seq(n, k requires 0 <= k => Transfer(k, Some(SizeOf(k)), Some("h"), None, Some(TitleOf(k)), Some(SenderOf(k))))
  }

  function Acceptances(n: nat): seq<Event> {
    seq(n, i requires 0 <= i => if Receives(i / 16, i % 16) then Accepted(i / 16, i % 16, 1.0) else Other)
  }

  function Exports(n: nat): seq<Event> {
    seq(n, i requires 0 <= i =>
      if Receives(i / 16, i % 16) then Exported(i / 16, i % 16, 3.0, Some(SizeOf(i / 16)), Some("h"), true) else Other)
  }

  const ACCEPTED := Receiver(Some(1.0), None, false)
  const EXPORTED := Receiver(Some(1.0), Some(3.0), true)

  function AfterAnnounced(n: nat): map<Key, Info> {
    map k: Key | 0 <= k < n :: InfoFor(k)
  }

  /** The receivers after the first pairs accepted, and the first of those exported. */
  function ReceiversAfter(k: Key, accepted: nat, exported: nat): map<Client, Receiver> {
    map c: Client | 0 <= c < 16 && Receives(k, c) && 16 * k + c < accepted :: if 16 * k + c < exported then EXPORTED else ACCEPTED
  }

  function After(accepted: nat, exported: nat): map<Key, Info> {
    map k: Key | 0 <= k < KEYS :: InfoFor(k).(receivers := ReceiversAfter(k, accepted, exported))
  }

  lemma {:induction false} FoldAnnounced(n: nat)
    ensures Fold(Announced(n)) == Summary(AfterAnnounced(n), false, false)
  {
    if n > 0 {
      FoldAnnounced(n - 1);
      assert Announced(n) == Announced(n - 1) + [Announced(n)[n - 1]];
      FoldLast(Announced(n - 1), Announced(n)[n - 1]);
      AnnounceStep(n - 1);
    }
  }

  lemma AnnounceStep(k: nat)
    ensures Step(Summary(AfterAnnounced(k), false, false), Announced(k + 1)[k]) == Summary(AfterAnnounced(k + 1), false, false)
  {
    assert AfterAnnounced(k)[k := InfoFor(k)] == AfterAnnounced(k + 1);
  }

  lemma ReceiverAdded(k: Key, i: nat, accepted: bool)
    requires i < PAIRS
    ensures var n, m := if accepted then i else PAIRS, if accepted then 0 else i;
            var n', m' := if accepted then i + 1 else PAIRS, if accepted then 0 else i + 1;
            ReceiversAfter(k, n', m') ==
            if k == i / 16 && Receives(k, i % 16) then ReceiversAfter(k, n, m)[i % 16 := if accepted then ACCEPTED else EXPORTED]
            else ReceiversAfter(k, n, m)
  {
    var n, m := if accepted then i else PAIRS, if accepted then 0 else i;
    var n', m' := if accepted then i + 1 else PAIRS, if accepted then 0 else i + 1;
    var a, b := ReceiversAfter(k, n, m), ReceiversAfter(k, n', m');
    forall c: Client | Receives(k, c) && c < 16 && 16 * k + c == i ensures k == i / 16 && c == i % 16 {
    }
    if k == i / 16 && Receives(k, i % 16) {
      assert b == a[i % 16 := if accepted then ACCEPTED else EXPORTED];
    } else {
      assert b == a;
    }
  }

  lemma PairAdded(i: nat, accepted: bool)
    requires i < PAIRS
    ensures var s := if accepted then After(i, 0) else After(PAIRS, i);
            var t := if accepted then After(i + 1, 0) else After(PAIRS, i + 1);
            var k := i / 16;
            && k in s
            && t == if Receives(k, i % 16)
                    then s[k := s[k].(receivers := s[k].receivers[i % 16 := if accepted then ACCEPTED else EXPORTED])] else s
  {
    var s := if accepted then After(i, 0) else After(PAIRS, i);
    var t := if accepted then After(i + 1, 0) else After(PAIRS, i + 1);
    forall k: Key | 0 <= k < KEYS
      ensures t[k] == if k == i / 16 && Receives(k, i % 16)
                      then s[k].(receivers := s[k].receivers[i % 16 := if accepted then ACCEPTED else EXPORTED]) else s[k]
    {
      ReceiverAdded(k, i, accepted);
    }
  }

  lemma AcceptStep(i: nat)
    requires i < PAIRS
    ensures Step(Summary(After(i, 0), false, false), Acceptances(i + 1)[i]) == Summary(After(i + 1, 0), false, false)
  {
    PairAdded(i, true);
  }

  lemma ExportStep(i: nat)
    requires i < PAIRS
    ensures Step(Summary(After(PAIRS, i), false, false), Exports(i + 1)[i]) == Summary(After(PAIRS, i + 1), false, false)
  {
    PairAdded(i, false);
    if Receives(i / 16, i % 16) {
      ExportCounts(i);
    }
  }

  lemma ExportCounts(i: nat)
    requires i < PAIRS && Receives(i / 16, i % 16)
    ensures i / 16 in After(PAIRS, i)
    ensures var t := After(PAIRS, i)[i / 16];
            && Counts(t, Exported(i / 16, i % 16, 3.0, Some(SizeOf(i / 16)), Some("h"), true))
            && ReceiverOf(t, i % 16) == ACCEPTED && t.size.Some?
  {
    assert i % 16 in ReceiversAfter(i / 16, PAIRS, i);
  }

  lemma FoldLast(events: seq<Event>, e: Event)
    ensures Fold(events + [e]) == Step(Fold(events), e)
  {
    assert (events + [e])[..|events|] == events;
  }

  lemma AppendLast(before: seq<Event>, front: seq<Event>, e: Event)
    ensures before + (front + [e]) == before + front + [e]
  {
  }

  lemma Prefixes(n: nat)
    requires n > 0
    ensures Acceptances(n) == Acceptances(n - 1) + [Acceptances(n)[n - 1]]
    ensures Exports(n) == Exports(n - 1) + [Exports(n)[n - 1]]
  {
  }

  lemma {:induction false} FoldAcceptances(before: seq<Event>, n: nat)
    requires Fold(before) == Summary(After(0, 0), false, false) && n <= PAIRS
    ensures Fold(before + Acceptances(n)) == Summary(After(n, 0), false, false)
  {
    if n == 0 {
      assert before + Acceptances(0) == before;
    } else {
      FoldAcceptances(before, n - 1);
      Prefixes(n);
      AppendLast(before, Acceptances(n - 1), Acceptances(n)[n - 1]);
      FoldLast(before + Acceptances(n - 1), Acceptances(n)[n - 1]);
      AcceptStep(n - 1);
    }
  }

  lemma {:induction false} FoldExports(before: seq<Event>, n: nat)
    requires Fold(before) == Summary(After(PAIRS, 0), false, false) && n <= PAIRS
    ensures Fold(before + Exports(n)) == Summary(After(PAIRS, n), false, false)
  {
    if n == 0 {
      assert before + Exports(0) == before;
    } else {
      FoldExports(before, n - 1);
      Prefixes(n);
      AppendLast(before, Exports(n - 1), Exports(n)[n - 1]);
      FoldLast(before + Exports(n - 1), Exports(n)[n - 1]);
      ExportStep(n - 1);
    }
  }

  lemma FoldDeliveries()
    ensures Fold(Deliveries()) == FINAL
  {
    FoldAnnounced(KEYS);
    assert AfterAnnounced(KEYS) == After(0, 0);
    FoldAcceptances(Announced(KEYS), PAIRS);
    FoldExports(Announced(KEYS) + Acceptances(PAIRS), PAIRS);
  }

  // ---------- The other entries ----------

  function Interruptions(): seq<Event> {
    seq(6, i requires 0 <= i < 6 => Precondition(16 + i, PARTIAL[i], 2, 2.0, Some(5), 1, "downloading"))
  }

  function Recoveries(): seq<Event> {
    seq(6, i requires 0 <= i < 6 => Progress(16 + i, PARTIAL[i], if i == 0 then 4 else 2, 2.0, 1, 2, 2.0, 0.0, "downloading"))
  }

  /** Recorded before the client accepted anything, and of nothing. */
  const EMPTY := Precondition(16, PARTIAL[0], 4, 0.0, Some(5), 0, "downloading")

  const UNAVAILABLE := Unavailable(22, 2, 2.0, true, 0)
  const SIMULTANEOUS := Simultaneous(23, 2, 3.0, 2, true)
  const FIRST := Contribution(24, 2, 2.0, "a", 0, 1, true)
  const SECOND := Contribution(24, 2, 3.0, "b", 1, 5, true)
  const DIAGNOSED := map[0 := Diagnostics(1, 0, 0, 0), 1 := Diagnostics(1, 0, 0, 0)]

  function Faults(): seq<Event> { [EMPTY, UNAVAILABLE, SIMULTANEOUS] }

  function Windows(): seq<Event> {
    [ChatSent("m"), ChatAck("m", "baseline", 1.0, false), ChatAck("m", "mixed", 1.0, false),
     WindowEnd("mixed", 14400.0), WindowEnd("baseline", 1800.0)]
  }

  function Singles(): seq<Event> { Faults() + [FIRST, SECOND] + Windows() }

  function Hosts(): seq<Event> {
    seq(8, h requires 0 <= h => Cleanup(h, true)) + seq(8, h requires 0 <= h => Traffic(h, true, DIAGNOSED))
    + seq(16, c requires 0 <= c => Ready(c, true))
  }

  function Results(): seq<Event> {
    seq(|CASES|, i requires 0 <= i < |CASES| => Case(CASES[i], "pass"))
  }

  function Rest(): seq<Event> {
    Interruptions() + Recoveries() + Singles() + Hosts() + Results()
  }

  function Deliveries(): seq<Event> {
    Announced(KEYS) + Acceptances(PAIRS) + Exports(PAIRS)
  }

  function Log(): seq<Event> {
    Deliveries() + Rest()
  }

  /** What can be said of every entry outside the deliveries. */
  predicate Plain(e: Event) {
    match e
    case Case(_, result) => result == "pass"
    case WindowEnd(name, duration) => duration == if name == "mixed" then 14400.0 else 1800.0
    case ChatSent(message) => message == "m"
    case ChatAck(_, _, seconds, _) => seconds == 1.0
    case Cleanup(host, passed) => host < 8 && passed
    case Ready(client, qualified) => client < 16 && qualified
    case Traffic(host, attached, diagnostics) => host < 8 && attached && diagnostics == DIAGNOSED
    case Precondition(key, _, client, _, _, bytes, _) => 16 <= key < 22 && (client == 4 ==> bytes == 0)
    case Progress(key, name, client, _, _, _, _, _, _) => 16 <= key < 22 && name == PARTIAL[key - 16] && client == if key == 16 then 4 else 2
    case Unavailable(key, _, _, _, _) => key == 22
    case Simultaneous(key, _, _, _, _) => key == 23
    case Contribution(key, _, _, _, _, _, _) => key == 24
    case _ => false
  }

  /** Entries of the deliveries. */
  predicate Delivery(e: Event) {
    e.Transfer? || e.Accepted? || e.Exported? || e.Other?
  }

  lemma FaultsArePlain()
    ensures forall e :: e in Interruptions() || e in Recoveries() ==> Plain(e)
  {
  }

  lemma SinglesArePlain()
    ensures forall e :: e in Singles() ==> Plain(e)
  {
    assert forall e :: e in Faults() ==> Plain(e);
    assert forall e :: e in Windows() ==> Plain(e);
  }

  lemma HostsArePlain()
    ensures forall e :: e in Hosts() ==> Plain(e)
  {
  }

  lemma ResultsArePlain()
    ensures forall e :: e in Results() ==> Plain(e)
  {
  }

  lemma RestIsPlain()
    ensures forall e :: e in Rest() ==> Plain(e)
  {
    FaultsArePlain();
    SinglesArePlain();
    HostsArePlain();
    ResultsArePlain();
    InFive(Interruptions(), Recoveries(), Singles(), Hosts(), Results());
  }

  lemma InFive(a: seq<Event>, b: seq<Event>, c: seq<Event>, d: seq<Event>, f: seq<Event>)
    ensures forall e :: e in a + b + c + d + f <==> e in a || e in b || e in c || e in d || e in f
  {
  }

  lemma Classified()
    ensures forall e :: e in Log() ==> Plain(e) || Delivery(e)
  {
    RestIsPlain();
  }

  lemma {:induction false} FoldPlain(before: seq<Event>, more: seq<Event>)
    requires forall e :: e in more ==> Plain(e)
    requires forall k: Key :: k < KEYS ==> k in Fold(before).transfers
    ensures Fold(before + more) == Fold(before)
    decreases |more|
  {
    if more == [] {
      assert before + more == before;
    } else {
      var n := |more| - 1;
      FoldPlain(before, more[..n]);
      FoldLast(before + more[..n], more[n]);
      assert before + more == before + more[..n] + [more[n]];
      PlainStep(Fold(before), more[n]);
    }
  }

  lemma PlainStep(s: Summary, e: Event)
    requires Plain(e) && forall k: Key :: k < KEYS ==> k in s.transfers
    ensures Step(s, e) == s
  {
    if Keyed(e) {
      assert s.transfers[e.key := s.transfers[e.key]] == s.transfers;
    }
  }

  const FINAL := Summary(After(PAIRS, PAIRS), false, false)

  lemma FoldLog()
    ensures Fold(Log()) == FINAL
  {
    FoldDeliveries();
    RestIsPlain();
    FoldPlain(Deliveries(), Rest());
  }

  // ---------- Gates on the log ----------

  lemma {:induction false} LastCase(events: seq<Event>, name: string)
    requires (exists e :: e in events && e.Case? && e.name == name) && forall e :: e in events && e.Case? ==> e.result == "pass"
    ensures CaseResult(events, name) == "pass"
  {
    var n := |events| - 1;
    if !(events[n].Case? && events[n].name == name) {
      var e :| e in events && e.Case? && e.name == name;
      assert e in events[..n];
      LastCase(events[..n], name);
    }
  }

  lemma {:induction false} LastCleanup(events: seq<Event>, host: nat)
    requires Cleanup(host, true) in events && forall e :: e in events && e.Cleanup? ==> e.passed
    ensures CleanupOf(events, host) == Some(true)
  {
    var n := |events| - 1;
    if !(events[n].Cleanup? && events[n].host == host) {
      assert Cleanup(host, true) in events[..n];
      LastCleanup(events[..n], host);
    }
  }

  lemma {:induction false} LastWindow(events: seq<Event>, name: string, duration: real)
    requires WindowEnd(name, duration) in events && forall e :: e in events && e.WindowEnd? && e.name == name ==> e.duration == duration
    ensures Window(events, name) == duration
  {
    var n := |events| - 1;
    if !(events[n].WindowEnd? && events[n].name == name) {
      assert WindowEnd(name, duration) in events[..n];
      LastWindow(events[..n], name, duration);
    }
  }

  lemma {:induction false} AllOnes(events: seq<Event>, phase: string)
    requires forall e :: e in events && e.ChatAck? ==> e.seconds == 1.0
    ensures forall i :: 0 <= i < |Seconds(events, phase)| ==> Seconds(events, phase)[i] == 1.0
    ensures ChatAck("m", phase, 1.0, false) in events ==> Seconds(events, phase) != []
  {
    if events != [] {
      AllOnes(events[..|events| - 1], phase);
    }
  }

  lemma {:induction false} InsertOnes(s: seq<real>)
    requires forall i :: 0 <= i < |s| ==> s[i] == 1.0
    ensures forall i :: 0 <= i < |Auc.Insert(1.0, s)| ==> Auc.Insert(1.0, s)[i] == 1.0
  {
  }

  lemma {:induction false} SortOnes(s: seq<real>)
    requires forall i :: 0 <= i < |s| ==> s[i] == 1.0
    ensures forall i :: 0 <= i < |s| ==> Auc.Sort(s)[i] == 1.0
  {
    if s != [] {
      SortOnes(s[1..]);
      InsertOnes(Auc.Sort(s[1..]));
    }
  }

  lemma InHosts(h: nat)
    requires h < 8
    ensures Cleanup(h, true) in Log() && Traffic(h, true, DIAGNOSED) in Log() && Ready(2 * h, true) in Log() && Ready(2 * h + 1, true) in Log()
  {
    assert Hosts()[h] == Cleanup(h, true) && Hosts()[8 + h] == Traffic(h, true, DIAGNOSED);
    assert Hosts()[16 + 2 * h] == Ready(2 * h, true) && Hosts()[17 + 2 * h] == Ready(2 * h + 1, true);
    assert Hosts()[h] in Rest() && Hosts()[8 + h] in Rest() && Hosts()[16 + 2 * h] in Rest() && Hosts()[17 + 2 * h] in Rest();
  }

  lemma LogSingles(i: nat)
    requires i < |Singles()|
    ensures Singles()[i] in Log()
  {
    assert Singles()[i] in Rest();
  }

  lemma FailureGates()
    ensures NoFailure(Log()) && ResourcesBounded(Log()) && ChatsAcknowledged(Log())
  {
    Classified();
    LogSingles(6);
    Unfailing(Log());
  }

  lemma Unfailing(log: seq<Event>)
    requires (forall e :: e in log ==> Plain(e) || Delivery(e)) && ChatAck("m", "baseline", 1.0, false) in log
    ensures NoFailure(log) && ResourcesBounded(log) && ChatsAcknowledged(log)
  {
  }

  lemma CleanGate()
    ensures Clean(Log())
  {
    Classified();
    forall h | 0 <= h < 8 ensures CleanupOf(Log(), h) == Some(true) {
      InHosts(h);
      LastCleanup(Log(), h);
    }
  }

  lemma ReadyGate()
    ensures AllReady(Log())
  {
    Classified();
    forall c | 0 <= c < 16 ensures Qualified(Log(), c) {
      InHosts(c / 2);
      assert c == 2 * (c / 2) || c == 2 * (c / 2) + 1;
    }
  }

  lemma CarriedGate()
    ensures AllCarried(Log())
  {
    Classified();
    forall h | 0 <= h < 8 ensures Traffic(h, true, DIAGNOSED) in Log() {
      InHosts(h);
    }
    CarriedBy(Log());
  }

  lemma CarriedBy(log: seq<Event>)
    requires (forall e :: e in log ==> Plain(e) || Delivery(e)) && forall h: nat :: h < 8 ==> Traffic(h, true, DIAGNOSED) in log
    ensures AllCarried(log)
  {
    forall h: nat | h < 8 ensures Attached(log, h) && Diagnosed(log, 2 * h) && Diagnosed(log, 2 * h + 1) {
      OneHost(log, h);
    }
    forall c: nat | c < 16 ensures Diagnosed(log, c) {
      assert c / 2 < 8 && (c == 2 * (c / 2) || c == 2 * (c / 2) + 1);
    }
    forall e, slot: nat | e in log && e.Traffic? && slot in e.diagnostics ensures e.host * 2 + slot < 16 {
      assert Plain(e);
    }
  }

  lemma OneHost(log: seq<Event>, h: nat)
    requires Traffic(h, true, DIAGNOSED) in log
    ensures Attached(log, h) && Diagnosed(log, 2 * h) && Diagnosed(log, 2 * h + 1)
  {
    var e := Traffic(h, true, DIAGNOSED);
    assert e in log && 0 in e.diagnostics && e.diagnostics[0].samples > 0 && e.host * 2 + 0 == 2 * h;
    assert 1 in e.diagnostics && e.diagnostics[1].samples > 0 && e.host * 2 + 1 == 2 * h + 1;
  }

  lemma CaseGate()
    ensures CasesPass(Log())
  {
    Classified();
    forall i | 0 <= i < |CASES| ensures CaseResult(Log(), CASES[i]) == "pass" {
      assert Results()[i] == Case(CASES[i], "pass") && Results()[i] in Rest();
      LastCase(Log(), CASES[i]);
    }
    forall e | e in Log() && e.Case? ensures CaseResult(Log(), e.name) == "pass" {
      LastCase(Log(), e.name);
    }
  }

  lemma ChatGates()
    ensures Measured(Log()) && LatencyPasses(Seconds(Log(), "baseline"), Seconds(Log(), "mixed"))
  {
    Classified();
    LogSingles(6);
    LogSingles(7);
    LogSingles(8);
    LogSingles(9);
    MeasuredBy(Log());
  }

  lemma MeasuredBy(log: seq<Event>)
    requires forall e :: e in log ==> Plain(e) || Delivery(e)
    requires ChatAck("m", "baseline", 1.0, false) in log && ChatAck("m", "mixed", 1.0, false) in log
    requires WindowEnd("mixed", 14400.0) in log && WindowEnd("baseline", 1800.0) in log
    ensures Measured(log) && LatencyPasses(Seconds(log, "baseline"), Seconds(log, "mixed"))
  {
    LastWindow(log, "mixed", 14400.0);
    LastWindow(log, "baseline", 1800.0);
    AllOnes(log, "baseline");
    AllOnes(log, "mixed");
    SortOnes(Seconds(log, "baseline"));
    SortOnes(Seconds(log, "mixed"));
  }

  // ---------- Gates on the transfers ----------

  lemma FinalReceiver(k: Key, c: Client)
    requires k < KEYS
    ensures k in FINAL.transfers && (c in FINAL.transfers[k].receivers <==> Receives(k, c))
    ensures Receives(k, c) ==> ReceiverOf(FINAL.transfers[k], c) == EXPORTED
    ensures FINAL.transfers[k].size == Some(SizeOf(k)) && FINAL.transfers[k].title == TitleOf(k)
    ensures FINAL.transfers[k].sender == Some(SenderOf(k)) && FINAL.transfers[k].expected == {}
  {
  }

  lemma DeliveryGates()
    ensures Reportable(FINAL) && Delivered(FINAL, Log())
  {
    forall k: Key, c: Client | k in FINAL.transfers && c in FINAL.transfers[k].receivers
      ensures !Unreportable(FINAL.transfers[k], c) && WithinLimit(FINAL.transfers[k], ReceiverOf(FINAL.transfers[k], c))
    {
      FinalReceiver(k, c);
    }
    forall k: Key | k in FINAL.transfers ensures Recipients(FINAL.transfers[k]) == FINAL.transfers[k].receivers.Keys {
      FinalReceiver(k, 0);
    }
  }

  lemma CoverageGate()
    ensures Covered(FINAL)
  {
    forall a, b | 0 <= a < 8 && 0 <= b < 8 && a != b ensures Reached(FINAL, a, b) {
      FinalReceiver(a, 2 * b);
      assert Reaches(FINAL.transfers[a], 2 * b, a, b);
    }
    forall k: Key, c: Client | k in FINAL.transfers && c in FINAL.transfers[k].receivers ensures OtherHost(FINAL.transfers[k], c) {
      FinalReceiver(k, c);
    }
  }

  lemma LargeKey(k: Key)
    ensures k in Large(FINAL, GIB) <==> 8 <= k < 12
    ensures k in Large(FINAL, 256 * MIB) <==> 12 <= k < 16
  {
    if k < KEYS {
      FinalReceiver(k, 0);
    }
  }

  lemma FourKeys(keys: set<Key>, first: Key)
    requires forall k: Key :: k in keys <==> first <= k < first + 4
    ensures |keys| == 4
  {
    assert keys == {first, first + 1, first + 2, first + 3};
  }

  lemma CorpusGate()
    ensures Corpus(FINAL)
  {
    forall k: Key ensures (k in Large(FINAL, GIB) <==> 8 <= k < 12) && (k in Large(FINAL, 256 * MIB) <==> 12 <= k < 16) {
      LargeKey(k);
    }
    FourKeys(Large(FINAL, GIB), 8);
    FourKeys(Large(FINAL, 256 * MIB), 12);
  }

  lemma RecoveryGate(i: nat)
    requires i < |PARTIAL|
    ensures Interrupted(FINAL, Log(), PARTIAL[i]) && Recovered(FINAL, Log(), PARTIAL[i])
  {
    var p, e := Interruptions()[i], Recoveries()[i];
    assert p in Rest() && e in Rest();
    FinalReceiver(16 + i, 2);
    FinalReceiver(16 + i, e.client);
    assert FaultProof(FINAL, p);
    LogSingles(0);
    assert Preceded(Log(), e) by {
      var q := if i == 0 then EMPTY else p;
      assert q in Log() && q.Precondition? && q.name == e.name && q.key == e.key && q.client == e.client && q.elapsed <= e.started;
    }
    assert RecoveryProof(FINAL, Log(), e);
  }

  lemma {:induction false} ContributionsAppend(a: seq<Event>, b: seq<Event>, key: Key)
    ensures Contributions(a + b, key) == Contributions(a, key) + Contributions(b, key)
    decreases |b|
  {
    if b == [] {
      assert a + b == a;
    } else {
      ContributionsAppend(a, b[..|b| - 1], key);
      assert (a + b)[..|a + b| - 1] == a + b[..|b| - 1];
    }
  }

  lemma {:induction false} NoContributions(a: seq<Event>, key: Key)
    requires forall e :: e in a ==> !e.Contribution?
    ensures Contributions(a, key) == []
  {
    if a != [] {
      NoContributions(a[..|a| - 1], key);
    }
  }

  lemma SourceContributions()
    ensures Contributions([FIRST, SECOND], 24) == [FIRST, SECOND]
  {
    var b := [FIRST, SECOND];
    assert b[..1] == [FIRST] && [FIRST][..0] == [];
    assert Contributions([FIRST], 24) == [FIRST];
  }

  lemma SingleContributions()
    ensures Contributions(Singles(), 24) == [FIRST, SECOND]
  {
    NoContributions(Faults(), 24);
    NoContributions(Windows(), 24);
    SourceContributions();
    ContributionsAppend(Faults(), [FIRST, SECOND], 24);
    ContributionsAppend(Faults() + [FIRST, SECOND], Windows(), 24);
  }

  lemma DeliveriesOnly()
    ensures forall e :: e in Deliveries() ==> Delivery(e)
  {
  }

  lemma TwoContributions()
    ensures Contributions(Log(), 24) == [FIRST, SECOND]
  {
    DeliveriesOnly();
    NoContributions(Deliveries(), 24);
    NoContributions(Interruptions(), 24);
    NoContributions(Recoveries(), 24);
    NoContributions(Hosts(), 24);
    NoContributions(Results(), 24);
    SingleContributions();
    var a := Interruptions() + Recoveries();
    ContributionsAppend(Deliveries(), Rest(), 24);
    ContributionsAppend(a + Singles() + Hosts(), Results(), 24);
    ContributionsAppend(a + Singles(), Hosts(), 24);
    ContributionsAppend(a, Singles(), 24);
    ContributionsAppend(Interruptions(), Recoveries(), 24);
  }

  lemma SourcesGate()
    ensures MultipleSources(FINAL, Log())
  {
    LogSingles(1);
    LogSingles(2);
    FinalReceiver(22, 2);
    FinalReceiver(23, 2);
    FinalReceiver(24, 2);
    assert MissingSource(FINAL, UNAVAILABLE) && TwoSources(FINAL, SIMULTANEOUS);
    TwoContributions();
    assert LateJoin(FINAL.transfers[24], Contributions(Log(), 24));
  }

  lemma LogUnfailed()
    ensures Unfailed(FINAL, Log())
  {
    FailureGates();
    ChatGates();
    DeliveryGates();
  }

  lemma LogComplete()
    ensures Complete(FINAL, Log())
  {
    ChatGates();
    CoverageGate();
    ReadyGate();
    CarriedGate();
    CorpusGate();
    CaseGate();
    forall i | 0 <= i < |PARTIAL| ensures Interrupted(FINAL, Log(), PARTIAL[i]) && Recovered(FINAL, Log(), PARTIAL[i]) {
      RecoveryGate(i);
    }
    SourcesGate();
    CleanGate();
  }

  lemma Passes(log: seq<Event>, s: Summary)
    requires Fold(log) == s && Reportable(s) && Unfailed(s, log) && Complete(s, log)
    ensures Decide("campaign", log) == Pass
  {
  }

  /** Some campaign passes. */
  lemma LogPasses()
    ensures Decide("campaign", Log()) == Pass
  {
    FoldLog();
    DeliveryGates();
    LogUnfailed();
    LogComplete();
    Passes(Log(), FINAL);
  }

  lemma OtherNames(k: nat)
    requires k < |PARTIAL| && PARTIAL[k] == PARTIAL[0]
    ensures k == 0
  {
  }

  lemma NoStory(log: seq<Event>, p: Event, e: Event)
    requires Matches(p, e) && Plain(p) && Plain(e) && e.name == PARTIAL[0]
    ensures !StoryOf(log, p, e)
  {
    OtherNames(e.key - 16);
    assert p.verifiedBytes == 0;
  }

  /** It passes although no recovery from the first kind of interruption belongs to an observed partial download. */
  lemma PassWithoutStory()
    ensures Decide("campaign", Log()) == Pass
    ensures forall p, e :: p in Log() && e in Log() && Matches(p, e) && e.name == PARTIAL[0] ==> !StoryOf(Log(), p, e)
  {
    LogPasses();
    Classified();
    forall p, e | p in Log() && e in Log() && Matches(p, e) && e.name == PARTIAL[0] ensures !StoryOf(Log(), p, e) {
      NoStory(Log(), p, e);
    }
  }

  lemma Unwanted(key: Key, c: Client)
    requires 8 <= key < 16
    ensures !Required(Log(), key, c)
  {
    FoldLog();
    FinalReceiver(key, c);
    FoldReceives(Log(), key, c);
    FoldAnnounces(Log(), key);
  }

  /** It passes although nobody received any of its eight large files. */
  lemma PassWithoutLargeFiles()
    ensures Decide("campaign", Log()) == Pass
    ensures forall key :: IsLargeFile(Log(), key) ==> !Received(Log(), key)
  {
    LogPasses();
    FoldLog();
    forall key | IsLargeFile(Log(), key) ensures !Received(Log(), key) {
      LargeKey(key);
      forall c ensures !Required(Log(), key, c) {
        Unwanted(key, c);
      }
      ReceivedIfWanted(Log(), key);
    }
  }

  lemma ThirdOfFour(a: seq<Event>, b: seq<Event>, c: seq<Event>, d: seq<Event>, i: nat)
    requires i < |c|
    ensures var all := a + b + c + d; |a| + |b| + i < |all| && all[|a| + |b| + i] == c[i]
  {
  }

  lemma ExportEntry() returns (x: nat)
    ensures x < |Log()| && Log()[x] == Exported(0, 2, 3.0, Some(5), Some("h"), true)
  {
    x := |Announced(KEYS)| + |Acceptances(PAIRS)| + 2;
    ThirdOfFour(Announced(KEYS), Acceptances(PAIRS), Exports(PAIRS), Rest(), 2);
    assert Receives(0, 2);
  }

  lemma OtherDigest(events: seq<Event>, x: nat, digest: string) returns (log: seq<Event>)
    requires Decide("campaign", events) == Pass && x < |events| && events[x].Exported?
    ensures Decide("campaign", log) == Pass && x < |log| && log[x] == events[x]
    ensures DigestIn(log, events[x].key) == Some(digest)
  {
    log := events + [Late(events[x].key, None, Some(digest))];
    LateAnnouncementPasses("campaign", events, events[x].key, None, Some(digest));
  }

  /** It still passes after an announcement of another digest, with which the verified export disagrees. */
  lemma PassWithAnotherDigest() returns (log: seq<Event>, x: nat)
    ensures Decide("campaign", log) == Pass && x < |log| && log[x].Exported? && log[x].verified
    ensures log[x].sha256 == Some("h") && DigestIn(log, log[x].key) == Some("g")
  {
    LogPasses();
    x := ExportEntry();
    log := OtherDigest(Log(), x, "g");
  }
}
