/**
 The verdict of a fleet file campaign: a fold of the event log into transfers, receivers and failures,
 and the gates that decide it.
 */
module Verdict {
  import opened Prelude
  import Auc

  const MIB := 1024 * 1024
  const GIB := 1024 * 1024 * 1024

  /** A transfer's identifier. */
  type Key = nat
  type Client = nat

  datatype Diagnostics = Diagnostics(samples: int, buffered: int, pulls: int, actions: int)

  /** A log entry; fields that an entry may lack are optional. */
  datatype Event =
    | Failure(kind: string)
    | Case(name: string, result: string)
    | Transfer(key: Key, size: Option<nat>, sha256: Option<string>, expected: Option<set<Client>>, title: Option<string>, sender: Option<Client>)
    | Accepted(key: Key, client: Client, elapsed: real)
    | Exported(key: Key, client: Client, elapsed: real, size: Option<nat>, sha256: Option<string>, verified: bool)
    | Cancelled(key: Key, client: Client)
    | WindowEnd(name: string, duration: real)
    | ChatSent(message: string)
    | ChatAck(message: string, phase: string, seconds: real, faulted: bool)
    | Cleanup(host: nat, passed: bool)
    | Ready(client: Client, qualified: bool)
    | Traffic(host: nat, attached: bool, diagnostics: map<nat, Diagnostics>)
    | Precondition(key: Key, name: string, client: Client, elapsed: real, size: Option<nat>, verifiedBytes: int, state: string)
    | Progress(key: Key, name: string, client: Client, elapsed: real, before: int, after: int, started: real, seconds: real, state: string)
    | Unavailable(key: Key, client: Client, elapsed: real, stopped: bool, verifiedBytes: int)
    | Simultaneous(key: Key, client: Client, elapsed: real, sources: int, enabled: bool)
    | Contribution(key: Key, client: Client, elapsed: real, source: string, before: int, after: int, exclusive: bool)
    | Other

  datatype Receiver = Receiver(accepted: Option<real>, exported: Option<real>, valid: bool)

  datatype Info = Info(size: Option<nat>, sha256: Option<string>, expected: set<Client>, title: string, sender: Option<Client>,
                       receivers: map<Client, Receiver>)

  const NEW := Info(None, None, {}, "", None, map[])
  const ABSENT := Receiver(None, None, false)

  // ---------- The fold ----------

  /** The transfers seen so far, whether an export failed verification, and whether the fold raised. */
  datatype Summary = Summary(transfers: map<Key, Info>, mismatched: bool, raised: bool)

  const START := Summary(map[], false, false)

  function Or<T>(a: Option<T>, b: Option<T>): Option<T> {
    if a.Some? then a else b
  }

  function InfoOf(transfers: map<Key, Info>, key: Key): Info {
    if key in transfers then transfers[key] else NEW
  }

  function ReceiverOf(t: Info, client: Client): Receiver {
    if client in t.receivers then t.receivers[client] else ABSENT
  }

  /** `transfer` entries change what they carry and keep the rest. */
  function Announce(t: Info, e: Event): Info
    requires e.Transfer?
  {
    Info(Or(e.size, t.size), Or(e.sha256, t.sha256), if e.expected.Some? then e.expected.value else t.expected,
         if e.title.Some? then e.title.value else t.title, Or(e.sender, t.sender), t.receivers)
  }

  /** An export counts if it follows acceptance and agrees with the transfer as announced so far. */
  predicate Counts(t: Info, e: Event)
    requires e.Exported?
  {
    && ReceiverOf(t, e.client).accepted.Some? && e.elapsed >= ReceiverOf(t, e.client).accepted.value
    && e.size == t.size && e.sha256 == t.sha256 && e.verified
  }

  predicate Keyed(e: Event) {
    || e.Transfer? || e.Accepted? || e.Exported? || e.Cancelled? || e.Precondition? || e.Progress?
    || e.Unavailable? || e.Simultaneous? || e.Contribution?
  }

  function Updated(t: Info, e: Event): Info {
    if e.Transfer? then Announce(t, e)
    else if e.Accepted? then t.(receivers := t.receivers[e.client := Receiver(Some(e.elapsed), None, false)])
    else if e.Exported? then
      t.(receivers := t.receivers[e.client := Receiver(ReceiverOf(t, e.client).accepted, Some(e.elapsed), Counts(t, e))])
    else t
  }

  /** Dividing by the duration needs the size; without one it raises. */
  predicate Raises(t: Info, e: Event) {
    e.Exported? && Counts(t, e) && t.size == None && e.elapsed > ReceiverOf(t, e.client).accepted.value
  }

  function Step(s: Summary, e: Event): Summary {
    if !Keyed(e) then s
    else
      var t := InfoOf(s.transfers, e.key);
      Summary(s.transfers[e.key := Updated(t, e)], s.mismatched || (e.Exported? && !Counts(t, e)), s.raised || Raises(t, e))
  }

  function Fold(events: seq<Event>): Summary {
    if events == [] then START else Step(Fold(events[..|events| - 1]), events[|events| - 1])
  }

  /** The fold as executed, entry by entry. */
  method Observe(events: seq<Event>) returns (s: Summary)
    ensures s == Fold(events)
  {
    s := START;
    for i := 0 to |events|
      invariant s == Fold(events[..i])
    {
      assert events[..i + 1][..i] == events[..i];
      s := Step(s, events[i]);
    }
    assert events[..|events|] == events;
  }

  // ---------- Failures ----------

  predicate WithinLimit(t: Info, r: Receiver) {
    && r.valid && r.accepted.Some? && r.exported.Some?
    && (var size := if t.size.Some? then t.size.value else 0;
        && (size <= MIB ==> r.exported.value - r.accepted.value <= 300.0)
        && (size >= GIB ==> r.exported.value - r.accepted.value <= 14400.0))
  }

  function Recipients(t: Info): set<Client> {
    t.expected + t.receivers.Keys
  }

  predicate Delivered(s: Summary, events: seq<Event>) {
    forall key, c :: key in s.transfers && c in Recipients(s.transfers[key]) && Cancelled(key, c) !in events ==>
      WithinLimit(s.transfers[key], ReceiverOf(s.transfers[key], c))
  }

  predicate ChatsAcknowledged(events: seq<Event>) {
    forall e :: e in events && e.ChatSent? ==> exists a :: a in events && a.ChatAck? && a.message == e.message
  }

  predicate NoFailure(events: seq<Event>) {
    forall e :: e in events ==> !e.Failure?
  }

  predicate WithinResources(d: Diagnostics) {
    d.buffered <= 4 * MIB && d.pulls <= 8 && d.actions <= 128
  }

  predicate ResourcesBounded(events: seq<Event>) {
    forall e :: e in events && e.Traffic? ==> forall slot :: slot in e.diagnostics ==> WithinResources(e.diagnostics[slot])
  }

  // ---------- Chat latency ----------

  /** The acknowledgment times of a phase; faults do not count in the mixed phase. */
  function Seconds(events: seq<Event>, phase: string): seq<real> {
    if events == [] then []
    else
      var e := events[|events| - 1];
      Seconds(events[..|events| - 1], phase) +
      if e.ChatAck? && e.phase == phase && !(phase == "mixed" && e.faulted) then [e.seconds] else []
  }

  /** A share in hundredths, rounded up to whole ones. */
  function Ceiling(share: nat): (k: nat)
    ensures 100 * k >= share && (k > 0 ==> 100 * (k - 1) < share)
  {
    (share + 99) / 100
  }

  lemma Share(n: nat, percent: nat)
    requires n > 0 && percent <= 100
    ensures 0 <= percent * n <= 100 * n && (percent > 0 ==> percent * n > 0)
  {
  }

  /** The position of a percentile among n sorted values: the ceiling of its share, counted from one. */
  function Rank(n: nat, percent: nat): (k: nat)
    requires n > 0 && percent <= 100
    ensures k < n
  {
    Share(n, percent);
    RankInRange(percent * n, n);
    var k := Ceiling(percent * n);
    if k == 0 then 0 else k - 1
  }

  lemma RankInRange(share: nat, n: nat)
    requires share <= 100 * n
    ensures Ceiling(share) <= n
  {
  }

  function Percentile(values: seq<real>, percent: nat): Option<real>
    requires percent <= 100
  {
    if values == [] then None else Some(Auc.Sort(values)[Rank(|values|, percent)])
  }

  function Larger(a: real, b: real): real {
    if a < b then b else a
  }

  /** Mixed traffic may at most double the usual latency, or add two seconds; nobody waits two minutes. */
  predicate LatencyPasses(baseline: seq<real>, mixed: seq<real>) {
    var b, m := Percentile(baseline, 95), Percentile(mixed, 95);
    b.Some? && m.Some? ==> m.value <= Larger(2.0 * b.value, b.value + 2.0) && forall x :: x in mixed ==> x <= 120.0
  }

  // ---------- Gates ----------

  const CASES := ["coverage", "boundaries", "unaccepted", "pause_resume", "receiver_restart", "import_resume", "source_change",
                  "relay_restart", "path_outage", "loss_delay", "multisource_late_join", "multisource_simultaneous", "missing_source",
                  "corruption", "disk_full", "quota", "membership_removal", "pm_isolation", "credential_renewal", "archive_reopen",
                  "chat_mixed", "large_files"]

  const PARTIAL := ["pause_resume", "receiver_restart", "quota", "relay_restart", "path_outage", "loss_delay"]

  /** The last result recorded for a case. */
  function CaseResult(events: seq<Event>, name: string): string {
    if events == [] then "not_run"
    else
      var e := events[|events| - 1];
      if e.Case? && e.name == name then e.result else CaseResult(events[..|events| - 1], name)
  }

  predicate CasesPass(events: seq<Event>) {
    && (forall i :: 0 <= i < |CASES| ==> CaseResult(events, CASES[i]) == "pass")
    && forall e :: e in events && e.Case? ==> CaseResult(events, e.name) == "pass"
  }

  /** The duration of the last window of a name. */
  function Window(events: seq<Event>, name: string): real {
    if events == [] then 0.0
    else
      var e := events[|events| - 1];
      if e.WindowEnd? && e.name == name then e.duration else Window(events[..|events| - 1], name)
  }

  predicate Measured(events: seq<Event>) {
    && Window(events, "mixed") >= 14400.0 && Window(events, "baseline") >= 1800.0
    && Seconds(events, "baseline") != [] && Seconds(events, "mixed") != []
  }

  /** The last cleanup of a host. */
  function CleanupOf(events: seq<Event>, host: nat): Option<bool> {
    if events == [] then None
    else
      var e := events[|events| - 1];
      if e.Cleanup? && e.host == host then Some(e.passed) else CleanupOf(events[..|events| - 1], host)
  }

  predicate Clean(events: seq<Event>) {
    && (forall host :: 0 <= host < 8 ==> CleanupOf(events, host) == Some(true))
    && forall e :: e in events && e.Cleanup? ==> e.host < 8
  }

  predicate Qualified(events: seq<Event>, c: Client) {
    exists e :: e in events && e.Ready? && e.client == c && e.qualified
  }

  /** Sixteen clients came up, each on a qualified transport at least once. */
  predicate AllReady(events: seq<Event>) {
    && (forall c :: 0 <= c < 16 ==> Qualified(events, c))
    && forall e :: e in events && e.Ready? ==> e.client < 16
  }

  predicate Attached(events: seq<Event>, host: nat) {
    exists e :: e in events && e.Traffic? && e.host == host && e.attached
  }

  /** Two client slots per host; a client is diagnosed by a sample in its slot. */
  predicate Diagnosed(events: seq<Event>, c: Client) {
    exists e, slot :: e in events && e.Traffic? && slot in e.diagnostics && e.diagnostics[slot].samples > 0 && e.host * 2 + slot == c
  }

  /** Every relay carried subscriptions and every client was diagnosed, and no others. */
  predicate AllCarried(events: seq<Event>) {
    && (forall host :: 0 <= host < 8 ==> Attached(events, host))
    && (forall c :: 0 <= c < 16 ==> Diagnosed(events, c))
    && forall e :: e in events && e.Traffic? ==>
         && (e.attached ==> e.host < 8)
         && forall slot :: slot in e.diagnostics && e.diagnostics[slot].samples > 0 ==> e.host * 2 + slot < 16
  }

  predicate IsLarge(t: Info, size: nat) {
    "large-" <= t.title && t.size == Some(size)
  }

  function Large(s: Summary, size: nat): set<Key> {
    set k | k in s.transfers && IsLarge(s.transfers[k], size)
  }

  predicate Corpus(s: Summary) {
    |Large(s, GIB)| == 4 && |Large(s, 256 * MIB)| == 4
  }

  predicate IsCoverage(t: Info) {
    "coverage-" <= t.title
  }

  /** Some verified coverage transfer went from one host to the other. */
  predicate Reached(s: Summary, a: nat, b: nat) {
    exists key, c :: key in s.transfers && c in s.transfers[key].receivers && Reaches(s.transfers[key], c, a, b)
  }

  predicate Reaches(t: Info, c: Client, a: nat, b: nat) {
    IsCoverage(t) && t.sender.Some? && t.sender.value / 2 == a && c / 2 == b && ReceiverOf(t, c).valid
  }

  /** Coverage transfers reached exactly the ordered pairs of different hosts. */
  predicate Covered(s: Summary) {
    && (forall a, b :: 0 <= a < 8 && 0 <= b < 8 && a != b ==> Reached(s, a, b))
    && forall key, c :: key in s.transfers && c in s.transfers[key].receivers && IsCoverage(s.transfers[key]) ==>
         OtherHost(s.transfers[key], c)
  }

  predicate OtherHost(t: Info, c: Client) {
    ReceiverOf(t, c).valid && t.sender.Some? ==> t.sender.value / 2 != c / 2 && t.sender.value < 16 && c < 16
  }

  // ---------- Evidence of faults and recoveries ----------

  /** The receiver's export is verified, and an observation lies between its acceptance and its export. */
  predicate During(r: Receiver, elapsed: real) {
    r.valid && r.accepted.Some? && r.exported.Some? && r.accepted.value <= elapsed < r.exported.value
  }

  /** A partial download that was interrupted on purpose and later completed. */
  predicate FaultProof(s: Summary, e: Event) {
    && e.Precondition?
    && var t := InfoOf(s.transfers, e.key);
       && t.title == e.name && e.size == t.size && t.size.Some? && 0 < e.verifiedBytes < t.size.value
       && e.state in {"downloading", "waiting_for_peers"} && During(ReceiverOf(t, e.client), e.elapsed)
  }

  /** An interruption of the same receiver was recorded no later than the recovery began. */
  predicate Preceded(events: seq<Event>, e: Event)
    requires e.Progress?
  {
    exists p :: p in events && p.Precondition? && p.name == e.name && p.key == e.key && p.client == e.client && p.elapsed <= e.started
  }

  /** Progress within five minutes of a recovery that followed an interruption. */
  predicate RecoveryProof(s: Summary, events: seq<Event>, e: Event) {
    && e.Progress?
    && var t := InfoOf(s.transfers, e.key);
       var r := ReceiverOf(t, e.client);
       var size := if t.size.Some? then t.size.value else 0;
       && t.title == e.name && Preceded(events, e) && r.valid && r.accepted.Some? && r.exported.Some?
       && (0 <= e.before < e.after <= size || (e.state == "complete" && t.size.Some? && e.before == e.after == size))
       && e.state in {"downloading", "waiting_for_peers", "complete"}
       && 0.0 <= e.seconds <= 300.0 && -0.02 <= e.elapsed - e.started - e.seconds <= 0.02
       && r.accepted.value <= e.started <= e.elapsed <= r.exported.value
  }

  predicate Interrupted(s: Summary, events: seq<Event>, name: string) {
    exists e :: e in events && e.Precondition? && e.name == name && FaultProof(s, e)
  }

  predicate Recovered(s: Summary, events: seq<Event>, name: string) {
    exists e :: e in events && e.Progress? && e.name == name && RecoveryProof(s, events, e)
  }

  predicate AllRecovered(s: Summary, events: seq<Event>) {
    forall i :: 0 <= i < |PARTIAL| ==> Interrupted(s, events, PARTIAL[i]) && Recovered(s, events, PARTIAL[i])
  }

  predicate MissingSource(s: Summary, e: Event) {
    && e.Unavailable?
    && var t := InfoOf(s.transfers, e.key);
       t.title == "missing-source" && e.stopped && e.verifiedBytes == 0 && During(ReceiverOf(t, e.client), e.elapsed)
  }

  predicate TwoSources(s: Summary, e: Event) {
    && e.Simultaneous?
    && var t := InfoOf(s.transfers, e.key);
       var r := ReceiverOf(t, e.client);
       t.title == "simultaneous" && e.sources >= 2 && e.enabled && r.valid && r.exported.Some? && r.exported.value <= e.elapsed
  }

  /** The contributions to one transfer, in order. */
  function Contributions(events: seq<Event>, key: Key): seq<Event> {
    if events == [] then []
    else
      var e := events[|events| - 1];
      Contributions(events[..|events| - 1], key) + if e.Contribution? && e.key == key then [e] else []
  }

  /** A second source completed exclusively what a first one had begun exclusively. */
  predicate LateJoin(t: Info, parts: seq<Event>) {
    && |parts| == 2 && parts[0].Contribution? && parts[1].Contribution? && t.title == "complementary"
    && var first, second := parts[0], parts[1];
       var r := ReceiverOf(t, first.client);
       && first.client == second.client && first.source != second.source && first.exclusive && second.exclusive
       && first.before == 0 && t.size.Some? && 0 < first.after < t.size.value
       && second.before == first.after && second.after == t.size.value
       && During(r, first.elapsed) && r.exported.value <= second.elapsed
  }

  predicate MultipleSources(s: Summary, events: seq<Event>) {
    && (exists e :: e in events && MissingSource(s, e))
    && (exists e :: e in events && TwoSources(s, e))
    && exists key :: key in s.transfers && LateJoin(s.transfers[key], Contributions(events, key))
  }

  // ---------- The verdict ----------

  datatype Outcome = Pass | Fail | Incomplete | Raised

  /** A verified export of a transfer without a size, or of a coverage transfer without a sender, raises. */
  predicate Unreportable(t: Info, c: Client) {
    ReceiverOf(t, c).valid && (t.size == None || (IsCoverage(t) && t.sender == None))
  }

  predicate Reportable(s: Summary) {
    !s.raised && forall key, c :: key in s.transfers && c in s.transfers[key].receivers ==> !Unreportable(s.transfers[key], c)
  }

  predicate Unfailed(s: Summary, events: seq<Event>) {
    && NoFailure(events) && !s.mismatched && Delivered(s, events) && ChatsAcknowledged(events) && ResourcesBounded(events)
    && LatencyPasses(Seconds(events, "baseline"), Seconds(events, "mixed"))
  }

  predicate Complete(s: Summary, events: seq<Event>) {
    && Measured(events) && Covered(s) && AllReady(events) && AllCarried(events) && Corpus(s) && CasesPass(events)
    && AllRecovered(s, events) && MultipleSources(s, events) && Clean(events)
  }

  function Decide(phase: string, events: seq<Event>): Outcome {
    var s := Fold(events);
    if !Reportable(s) then Raised
    else if !Unfailed(s, events) then Fail
    else if phase == "campaign" && Complete(s, events) then Pass
    else Incomplete
  }

  /** Which interruptions and recoveries a log proves, marked entry by entry. */
  method Evidence(s: Summary, events: seq<Event>) returns (faults: set<string>, recoveries: set<string>)
    ensures forall name :: name in faults <==> Interrupted(s, events, name)
    ensures forall name :: name in recoveries <==> Recovered(s, events, name)
  {
    faults, recoveries := {}, {};
    for i := 0 to |events|
      invariant forall name :: name in faults <==> exists k :: 0 <= k < i && events[k].Precondition? && events[k].name == name && FaultProof(s, events[k])
      invariant forall name :: name in recoveries <==>
                  exists k :: 0 <= k < i && events[k].Progress? && events[k].name == name && RecoveryProof(s, events, events[k])
    {
      if events[i].Precondition? && FaultProof(s, events[i]) {
        faults := faults + {events[i].name};
      }
      if events[i].Progress? && RecoveryProof(s, events, events[i]) {
        recoveries := recoveries + {events[i].name};
      }
    }
  }

  // ---------- What a percentile is ----------

  lemma CountAtRank(s: seq<real>, k: nat)
    requires Auc.Sorted(s) && k < |s|
    ensures Auc.Count(s, s[k], true) >= k + 1 && Auc.Count(s, s[k], false) <= k
  {
    CountPrefix(s, s[k], true, k + 1);
    CountSuffix(s, s[k], false, k);
  }

  lemma {:induction false} CountPrefix(s: seq<real>, x: real, right: bool, n: nat)
    requires n <= |s| && forall i :: 0 <= i < n ==> Auc.Before(s[i], x, right)
    ensures Auc.Count(s, x, right) >= n
    decreases |s|
  {
    if n > 0 {
      CountPrefix(s[1..], x, right, n - 1);
    }
  }

  lemma {:induction false} CountSuffix(s: seq<real>, x: real, right: bool, n: nat)
    requires n <= |s| && forall i :: n <= i < |s| ==> !Auc.Before(s[i], x, right)
    ensures Auc.Count(s, x, right) <= n
    decreases |s|
  {
    if s != [] {
      CountSuffix(s[1..], x, right, if n > 0 then n - 1 else 0);
    }
  }

  /** The percentile is the least of the values that its share of them does not exceed. */
  lemma PercentileMeaning(values: seq<real>, percent: nat)
    requires values != [] && 0 < percent <= 100
    ensures var p := Percentile(values, percent).value;
            && 100 * Auc.Count(values, p, true) >= percent * |values|
            && 100 * Auc.Count(values, p, false) < percent * |values|
  {
    var s, k := Auc.Sort(values), Rank(|values|, percent);
    Auc.SortSorts(values);
    Auc.SortCounts(values, s[k], true);
    Auc.SortCounts(values, s[k], false);
    CountAtRank(s, k);
    Share(|values|, percent);
    Shares(percent * |values|, k, Auc.Count(values, s[k], true), Auc.Count(values, s[k], false));
  }

  lemma Shares(share: nat, k: nat, upTo: nat, below: nat)
    requires share > 0 && k == Ceiling(share) - 1 && upTo >= k + 1 && below <= k
    ensures 100 * upTo >= share && 100 * below < share
  {
  }
}
