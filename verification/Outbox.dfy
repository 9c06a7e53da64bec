/**
 Server push receipts: what the hook wrote, its archived form and its restoration, and the worker that
 removes a record from the outbox only once its archived copy was read back.
 */
module Outbox {
  import opened Prelude
  import opened Archive
  import Base64
  import Intake = SourceIntake

  const MAX_EVENT := 2048
  const PROJECTS := {"gcoms", "dropship", "gchat", "drone"}

  /** The fields of a hook record. */
  datatype Hook = Hook(schema: int, project: string, repository: string, ref: string, commit: string, pushedAt: int, nonce: string)

  datatype Event = Event(hook: Hook, id: string)

  datatype PushReceipt = PushReceipt(eventSha: string, original: string)

  /** Reads the JSON text of a hook record with exactly its fields. */
  type Parser = string -> Option<Hook>

  // ---------- Codec ----------

  predicate HasDots(s: string) {
    exists i :: 0 <= i < |s| - 1 && s[i] == '.' && s[i + 1] == '.'
  }

  predicate Nonce(s: string) {
    && |s| == 36 && s[8] == '-' && s[13] == '-' && s[18] == '-' && s[23] == '-'
    && Intake.Hex(s[..8] + s[9..13] + s[14..18] + s[19..23] + s[24..], 32)
  }

  predicate Reference(project: string, ref: string) {
    && |ref| <= 256 && Intake.ReferenceText(ref) && !HasDots(ref)
    && if Intake.PROMOTION <= ref then project == "gcoms" && Intake.Hex(ref[|Intake.PROMOTION|..], 64)
       else ref == "refs/heads/main" || Intake.AGENT <= ref
  }

  /** Everything about a record except its clock. */
  predicate WellFormed(h: Hook) {
    && h.schema == 1 && h.project in PROJECTS && h.repository == "ghost-local/" + h.project && Reference(h.project, h.ref)
    && Intake.Hex(h.commit, 40) && (exists i :: 0 <= i < |h.commit| && h.commit[i] != '0') && h.pushedAt > 0 && Nonce(h.nonce)
  }

  function Decode(w: World, parse: Parser, raw: string, now: real): Result<Event> {
    if !(0 < |raw| <= MAX_EVENT) then Error("bounded original server event required")
    else match parse(raw)
         case None => Error("unexpected server push event fields")
         case Some(h) =>
           if !WellFormed(h) || h.pushedAt as real > now then Error("invalid original server push identity or clock")
           else Ok(Event(h, w.hash(raw)))
  }

  function ReceiptFor(w: World, parse: Parser, raw: ByteString, now: real): Result<PushReceipt> {
    match Decode(w, parse, raw, now)
    case Error(e) => Error(e)
    case Ok(event) => Ok(PushReceipt(event.id, Base64.Encode(raw)))
  }

  function Restore(w: World, parse: Parser, receipt: PushReceipt, now: real): Result<Event> {
    if |receipt.original| > 4 * MAX_EVENT / 3 + 4 then Error("invalid archived server receipt")
    else match Base64.Decode(receipt.original)
         case None => Error("invalid base64")
         case Some(raw) =>
           match Decode(w, parse, raw, now)
           case Error(e) => Error(e)
           case Ok(event) => if event.id != receipt.eventSha then Error("original server push bytes changed") else Ok(event)
  }

  /** The archived text: keys in order, no spaces. */
  function Canonical(r: PushReceipt): string {
    "{\"event_sha256\":\"" + r.eventSha + "\",\"kind\":\"android-server-push\",\"original_b64\":\"" + r.original + "\",\"schema\":1}"
  }

  /** The cached text: two spaces of indentation and a final newline. */
  function Indented(r: PushReceipt): string {
    "{\n  \"event_sha256\": \"" + r.eventSha + "\",\n  \"kind\": \"android-server-push\",\n  \"original_b64\": \"" + r.original
    + "\",\n  \"schema\": 1\n}\n"
  }

  /**
   A receipt restores the event it was made from, whatever the later clock, exactly when that clock
   has reached the original push.
   */
  lemma RestoresOriginal(w: World, parse: Parser, raw: ByteString, now: real, later: real)
    requires Decode(w, parse, raw, now).Ok?
    ensures var r := ReceiptFor(w, parse, raw, now).value;
            && (Restore(w, parse, r, later).Ok? <==> Decode(w, parse, raw, now).value.hook.pushedAt as real <= later)
            && (Restore(w, parse, r, later).Ok? ==> Restore(w, parse, r, later) == Decode(w, parse, raw, now))
            && Restore(w, parse, r, now) == Decode(w, parse, raw, now)
  {
    Base64.RoundTrip(raw);
    Base64.EncodedLength(raw);
  }

  /** What restores was made from bytes with the recorded digest. */
  lemma RestoredIsOriginal(w: World, parse: Parser, r: PushReceipt, now: real)
    requires Restore(w, parse, r, now).Ok?
    ensures Base64.Decode(r.original).Some?
    ensures var raw := Base64.Decode(r.original).value;
            w.hash(raw) == r.eventSha && Decode(w, parse, raw, now) == Restore(w, parse, r, now)
  {
  }

  lemma OriginalFits(raw: ByteString)
    requires |raw| <= MAX_EVENT
    ensures |Base64.Encode(raw)| <= 2732 <= 4 * MAX_EVENT / 3 + 4
  {
    Base64.EncodedLength(raw);
  }

  /** Every accepted record fits the bounds of the archive's readers, archived or cached. */
  lemma ReceiptFits(w: World, parse: Parser, raw: ByteString, now: real)
    requires Decode(w, parse, raw, now).Ok? && IsDigest(w.hash(raw))
    ensures var r := ReceiptFor(w, parse, raw, now).value;
            && |r.original| <= 4 * MAX_EVENT / 3 + 4
            && 0 < |Canonical(r)| <= 4096 && 0 < |Indented(r)| <= 4096
  {
    OriginalFits(raw);
    TextsFit(ReceiptFor(w, parse, raw, now).value);
  }

  lemma TextsFit(r: PushReceipt)
    requires |r.original| <= 2732 && |r.eventSha| == 64
    ensures 0 < |Canonical(r)| <= 4096 && 0 < |Indented(r)| <= 4096
  {
    assert |"{\n  \"event_sha256\": \""| + |"\",\n  \"kind\": \"android-server-push\",\n  \"original_b64\": \""| + |"\",\n  \"schema\": 1\n}\n"| < 200;
    assert |"{\"event_sha256\":\""| + |"\",\"kind\":\"android-server-push\",\"original_b64\":\""| + |"\",\"schema\":1}"| < 200;
  }

  // ---------- The worker ----------

  datatype Spool = Spool(files: map<string, ByteString>, store: Store)

  /** The archived text of a record that may be forwarded. */
  function Forward(w: World, parse: Parser, name: string, raw: ByteString, now: real): Result<string> {
    match ReceiptFor(w, parse, raw, now)
    case Error(e) => Error(e)
    case Ok(r) => if name != r.eventSha + ".json" then Error("outbox filename differs from original event bytes") else Ok(Canonical(r))
  }

  /** The archive after a verified upload, or why it is not verified. */
  function Archived(w: World, store: Store, data: string): Outcome<Descriptor> {
    var put := Put(w, store, data, w.hash(data), true);
    match put.result
    case Error(e) => put
    case Ok(d) => if Read(w, put.store, d, true) == Ok(data) then put else Outcome(put.store, Error("server event archive readback differs"))
  }

  /** The archive holds a verified copy of a record. */
  ghost predicate Safe(w: World, store: Store, raw: ByteString) {
    exists d :: Read(w, store, d, true) == Ok(Canonical(PushReceipt(w.hash(raw), Base64.Encode(raw))))
  }

  /** A record is not lost: it is in the outbox or safe in the archive. */
  ghost predicate Held(w: World, s: Spool, raw: ByteString) {
    (w.hash(raw) + ".json" in s.files && s.files[w.hash(raw) + ".json"] == raw) || Safe(w, s.store, raw)
  }

  lemma PutGrows(w: World, s: Store, source: string, checksum: string, record: bool)
    requires Tracked(s)
    ensures Extends(s, Put(w, s, source, checksum, record).store) && Tracked(Put(w, s, source, checksum, record).store)
  {
  }

  lemma SafeLater(w: World, a: Store, b: Store, raw: ByteString)
    requires Safe(w, a, raw) && Extends(a, b)
    ensures Safe(w, b, raw)
  {
    var text := Canonical(PushReceipt(w.hash(raw), Base64.Encode(raw)));
    var d :| Read(w, a, d, true) == Ok(text);
    assert Read(w, b, d, true) == Ok(text);
  }

  // ---------- Runs ----------

  function NameOf(w: World, raw: ByteString): string {
    w.hash(raw) + ".json"
  }

  /** The worker between its verified upload and the removal of the file it read. */
  datatype Worker = Idle | Verified(name: string, raw: ByteString)

  datatype State = State(spool: Spool, worker: Worker)

  datatype Step = Drop(raw: ByteString) | Upload(name: string, now: real) | Remove | Crash

  /** The hook never overwrites other bytes; removal looks again whether the file is the one that was read. */
  ghost predicate Next(w: World, parse: Parser, s: State, step: Step, t: State) {
    var files := s.spool.files;
    match step
    case Drop(raw) =>
      && (NameOf(w, raw) in files ==> files[NameOf(w, raw)] == raw)
      && t == s.(spool := s.spool.(files := files[NameOf(w, raw) := raw]))
    case Upload(name, now) =>
      && s.worker == Idle && name in files && Forward(w, parse, name, files[name], now).Ok?
      && var done := Archived(w, s.spool.store, Forward(w, parse, name, files[name], now).value);
         t == State(Spool(files, done.store), if done.result.Ok? then Verified(name, files[name]) else Idle)
    case Remove =>
      && s.worker.Verified? && s.worker.name in files && files[s.worker.name] == s.worker.raw
      && t == State(s.spool.(files := files - {s.worker.name}), Idle)
    case Crash => t == s.(worker := Idle)
  }

  ghost predicate Run(w: World, parse: Parser, states: seq<State>, steps: seq<Step>) {
    && |states| == |steps| + 1 && states[0].worker == Idle && Tracked(states[0].spool.store)
    && forall i :: 0 <= i < |steps| ==> Next(w, parse, states[i], steps[i], states[i + 1])
  }

  ghost predicate Inv(w: World, s: State) {
    Tracked(s.spool.store) && (s.worker.Verified? ==> s.worker.name == NameOf(w, s.worker.raw) && Safe(w, s.spool.store, s.worker.raw))
  }

  lemma UploadIsSafe(w: World, parse: Parser, store: Store, name: string, raw: ByteString, now: real)
    requires Tracked(store) && Forward(w, parse, name, raw, now).Ok?
    ensures var done := Archived(w, store, Forward(w, parse, name, raw, now).value);
            && Extends(store, done.store) && Tracked(done.store)
            && (done.result.Ok? ==> name == NameOf(w, raw) && Safe(w, done.store, raw))
  {
    var data := Forward(w, parse, name, raw, now).value;
    PutGrows(w, store, data, w.hash(data), true);
    assert data == Canonical(PushReceipt(w.hash(raw), Base64.Encode(raw)));
  }

  lemma StepKeeps(w: World, parse: Parser, s: State, step: Step, t: State, raw: ByteString)
    requires Inv(w, s) && Next(w, parse, s, step, t)
    ensures Inv(w, t)
    ensures Held(w, s.spool, raw) ==> Held(w, t.spool, raw)
  {
    if step.Upload? {
      UploadIsSafe(w, parse, s.spool.store, step.name, s.spool.files[step.name], step.now);
      if Safe(w, s.spool.store, raw) {
        SafeLater(w, s.spool.store, t.spool.store, raw);
      }
    }
  }

  lemma {:induction false} RunKeeps(w: World, parse: Parser, states: seq<State>, steps: seq<Step>, i: nat)
    requires Run(w, parse, states, steps) && i < |states|
    ensures Inv(w, states[i])
  {
    if i > 0 {
      RunKeeps(w, parse, states, steps, i - 1);
      StepKeeps(w, parse, states[i - 1], steps[i - 1], states[i], "");
    }
  }

  lemma HeldNext(w: World, parse: Parser, states: seq<State>, steps: seq<Step>, k: nat, raw: ByteString)
    requires Run(w, parse, states, steps) && k < |steps| && Held(w, states[k].spool, raw)
    ensures Held(w, states[k + 1].spool, raw)
  {
    RunKeeps(w, parse, states, steps, k);
    StepKeeps(w, parse, states[k], steps[k], states[k + 1], raw);
  }

  lemma {:induction false} HeldOn(w: World, states: seq<State>, i: nat, j: nat, raw: ByteString)
    requires i <= j < |states| && Held(w, states[i].spool, raw)
    requires forall k :: i <= k < j && Held(w, states[k].spool, raw) ==> Held(w, states[k + 1].spool, raw)
    ensures Held(w, states[j].spool, raw)
    decreases j
  {
    if i < j {
      HeldOn(w, states, i, j - 1, raw);
      assert Held(w, states[j - 1 + 1].spool, raw);
    }
  }

  /** Over every run, with crashes anywhere, a record once in the outbox is there or safe in the archive ever after. */
  lemma NothingLost(w: World, parse: Parser, states: seq<State>, steps: seq<Step>, i: nat, j: nat, raw: ByteString)
    requires Run(w, parse, states, steps) && i <= j < |states| && Held(w, states[i].spool, raw)
    ensures Held(w, states[j].spool, raw)
  {
    forall k | i <= k < j && Held(w, states[k].spool, raw) ensures Held(w, states[k + 1].spool, raw) {
      HeldNext(w, parse, states, steps, k, raw);
    }
    HeldOn(w, states, i, j, raw);
  }

  // ---------- One pass ----------

  predicate EventName(name: string) {
    |name| == 69 && IsDigest(name[..64]) && name[64..] == ".json"
  }

  /** The first names of a pass, in order. */
  function Batch(w: World, names: set<string>, limit: nat): seq<string> {
    var order := w.sorted(set n | n in names && EventName(n));
    if |order| <= limit then order else order[..limit]
  }

  class Directory {
    var files: map<string, ByteString>
    var store: Store

    constructor (files: map<string, ByteString>, store: Store)
      ensures this.files == files && this.store == store
    {
      this.files, this.store := files, store;
    }

    /** One record is uploaded and read back; the outbox is left as it is. */
    method ForwardOne(w: World, parse: Parser, name: string, now: real) returns (ok: bool)
      requires Tracked(store) && name in files
      modifies this
      ensures files == old(files) && Extends(old(store), store) && Tracked(store)
      ensures ok ==> Safe(w, store, files[name]) && name == NameOf(w, files[name])
    {
      if |files[name]| == 0 || |files[name]| > MAX_EVENT {
        return false;
      }
      var data := Forward(w, parse, name, files[name], now);
      if data.Error? {
        return false;
      }
      UploadIsSafe(w, parse, store, name, files[name], now);
      var done := Archived(w, store, data.value);
      store := done.store;
      return done.result.Ok?;
    }

    /** A pass removes exactly the leading names it forwarded, each safe in the archive, and stops at the first it cannot. */
    method Drain(w: World, parse: Parser, now: real, limit: nat) returns (count: nat, ok: bool)
      requires Enumerates(w) && Tracked(store)
      modifies this
      ensures var names := Batch(w, old(files).Keys, limit);
              && count <= |names| && (ok ==> count == |names|) && count <= limit
              && files == old(files) - Elements(names[..count])
              && Forwarded(w, store, old(files), names[..count])
      ensures Extends(old(store), store) && Tracked(store)
    {
      var names := Batch(w, files.Keys, limit);
      count := 0;
      while count < |names|
        invariant count <= |names| && Tracked(store) && Extends(old(store), store)
        invariant files == old(files) - Elements(names[..count])
        invariant Forwarded(w, store, old(files), names[..count])
      {
        NextName(w, old(files), limit, count);
        ghost var before := store;
        ok := ForwardOne(w, parse, names[count], now);
        ForwardedLater(w, before, store, old(files), names, count);
        if !ok {
          return;
        }
        Removal(old(files), names, count);
        files := files - {names[count]};
        count := count + 1;
      }
      ok := true;
    }
  }

  lemma NextName(w: World, files: map<string, ByteString>, limit: nat, count: nat)
    requires Enumerates(w) && count < |Batch(w, files.Keys, limit)|
    ensures var names := Batch(w, files.Keys, limit); names[count] in files && names[count] !in names[..count]
  {
    var all := set n | n in files.Keys && EventName(n);
    var names := Batch(w, files.Keys, limit);
    assert Distinct(w.sorted(all)) && w.sorted(all)[count] == names[count];
    assert names[count] in Elements(w.sorted(all));
  }

  /** The named records all have a verified copy. */
  ghost predicate Forwarded(w: World, store: Store, files: map<string, ByteString>, names: seq<string>) {
    forall i :: 0 <= i < |names| ==> names[i] in files && Safe(w, store, files[names[i]])
  }

  lemma ForwardedLater(w: World, a: Store, b: Store, files: map<string, ByteString>, names: seq<string>, k: nat)
    requires Extends(a, b) && k < |names| && names[k] in files && Forwarded(w, a, files, names[..k])
    ensures Forwarded(w, b, files, names[..k]) && (Safe(w, b, files[names[k]]) ==> Forwarded(w, b, files, names[..k + 1]))
  {
    forall i | 0 <= i < k ensures names[i] in files && Safe(w, b, files[names[i]]) {
      assert names[i] == names[..k][i];
      SafeLater(w, a, b, files[names[i]]);
    }
  }

  lemma Removal(files: map<string, ByteString>, names: seq<string>, k: nat)
    requires k < |names|
    ensures files - Elements(names[..k]) - {names[k]} == files - Elements(names[..k + 1])
  {
    assert Elements(names[..k + 1]) == Elements(names[..k]) + {names[k]};
  }
}
