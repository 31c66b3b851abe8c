/**
The append-only audit log: entries chained under a lock, checkpoints owed by whichever
thread appended, and a file that is verified whenever it is opened.
*/
module Log {
  import opened Wrappers
  import opened Encoding
  import opened Events
  import opened Verify
  import Anchor

  const DEFAULT_EVERY: nat := 64

  /** What the lock guards, with the file's contents. */
  datatype LogState = LogState(instance: Bytes, records: seq<AuditRecord>, number: nat, head: Digest)

  /** The in-memory number and head are those of a file that verifies. */
  predicate Coherent(sha: Bytes -> Digest, log: LogState) {
    && Chained(sha, log.instance, log.records)
    && log.number == |log.records|
    && log.head == HeadAfter(sha, log.instance, log.records, log.number)
  }

  /** Bytes as lowercase hexadecimal text. */
  function ToHex(bytes: Bytes): (text: Bytes)
    ensures |text| == 2 * |bytes|
  {
    if bytes == [] then [] else [HexDigit(bytes[0] / 16), HexDigit(bytes[0] % 16)] + ToHex(bytes[1..])
  }

  function HexDigit(n: nat): Byte
    requires n < 16
  {
    if n < 10 then 48 + n else 87 + n
  }

  function HexValue(c: Byte): int {
    if c < 58 then c - 48 else c - 87
  }

  /** The bytes that pairs of hexadecimal digits stand for. */
  function FromHex(text: Bytes): seq<int> {
    if |text| < 2 then [] else [16 * HexValue(text[0]) + HexValue(text[1])] + FromHex(text[2..])
  }

  lemma {:induction false} HexInverts(bytes: Bytes)
    ensures FromHex(ToHex(bytes)) == bytes
  {
    if bytes != [] {
      HexInverts(bytes[1..]);
      assert ToHex(bytes)[2..] == ToHex(bytes[1..]);
    }
  }

  // ---- the critical section ----

  function Draft(log: LogState, actor: Actor, event: AuditEvent, at: Bytes): Entry {
    Entry(log.number + 1, log.head, at, actor.principal, RunText(actor), Kind(event), Fields(event))
  }

  /** Write one entry: what the lock holder does. */
  function Write(sha: Bytes -> Digest, log: LogState, actor: Actor, event: AuditEvent, at: Bytes): LogState {
    var hash := Chain(sha, log.head, Canonical(Draft(log, actor, event, at)));
    var record := AuditRecord(log.number + 1, at, actor, log.head, hash, event);
    LogState(log.instance, log.records + [record], log.number + 1, hash)
  }

  function CheckpointEvent(log: LogState, signer: Option<(nat, Digest) -> Bytes>): AuditEvent {
    Checkpoint(log.number, ToHex(log.head), if signer.None? then None else Some(signer.value(log.number, log.head)))
  }

  predicate Due(every: nat, number: nat) {
    every != 0 && number % every == 0
  }

  /** A record that keeps its place does so whatever is appended. */
  lemma SoundSurvivesAppend(sha: Bytes -> Digest, instance: Bytes, records: seq<AuditRecord>, r: AuditRecord)
    requires Chained(sha, instance, records)
    ensures forall i :: 0 <= i < |records| ==> Sound(sha, instance, records + [r], i)
  {
    var longer := records + [r];
    assert longer[..|records|] == records;
    forall i | 0 <= i < |records|
      ensures Sound(sha, instance, longer, i)
    {
      SoundIsLocal(sha, instance, longer, |records|, i);
    }
  }

  /** Writing an entry keeps the log coherent. */
  lemma WriteKeepsCoherent(sha: Bytes -> Digest, log: LogState, actor: Actor, event: AuditEvent, at: Bytes)
    requires Coherent(sha, log)
    ensures Coherent(sha, Write(sha, log, actor, event, at))
  {
    hide Canonical, Kind, Fields;
    var after := Write(sha, log, actor, event, at);
    var r := after.records[log.number];
    SoundSurvivesAppend(sha, log.instance, log.records, r);
    assert EntryOf(r) == Draft(log, actor, event, at);
    assert after.records[..log.number] == log.records;
    assert Sound(sha, log.instance, after.records, log.number);
  }

  /** The verifier agrees with a coherent log's own number and head. */
  lemma VerifierAgrees(sha: Bytes -> Digest, log: LogState, report: Report)
    requires Coherent(sha, log) && IsReport(sha, log.instance, log.records, report)
    ensures report.status.Intact? && report.entryCount == log.number
    ensures report.head == if log.number == 0 then None else Some(log.head)
  {
    IntactMeansChained(sha, log.instance, log.records, report);
  }

  /** Every checkpoint commits to exactly the records before it. */
  predicate HonestCheckpoints(sha: Bytes -> Digest, instance: Bytes, records: seq<AuditRecord>) {
    forall i :: 0 <= i < |records| && records[i].event.Checkpoint? ==> HonestAt(sha, instance, records, i)
  }

  predicate HonestAt(sha: Bytes -> Digest, instance: Bytes, records: seq<AuditRecord>, i: nat)
    requires i < |records| && records[i].event.Checkpoint?
  {
    && records[i].event.entryCount == i
    && records[i].event.head == ToHex(HeadAfter(sha, instance, records, i))
  }

  lemma WriteKeepsHonesty(sha: Bytes -> Digest, log: LogState, signer: Option<(nat, Digest) -> Bytes>,
                          actor: Actor, event: AuditEvent, at: Bytes)
    requires Coherent(sha, log) && HonestCheckpoints(sha, log.instance, log.records)
    requires event.Checkpoint? ==> event == CheckpointEvent(log, signer)
    ensures HonestCheckpoints(sha, log.instance, Write(sha, log, actor, event, at).records)
  {
    hide Chained, Canonical, Draft, Chain, ToHex;
    var after := Write(sha, log, actor, event, at).records;
    forall i | 0 <= i < |after| && after[i].event.Checkpoint?
      ensures HonestAt(sha, log.instance, after, i)
    {
      assert i > 0 ==> after[i - 1] == log.records[i - 1];
      if i < log.number {
        assert HonestAt(sha, log.instance, log.records, i);
      }
    }
  }

  // ---- any number of threads, and reopenings ----

  /** The log, with the checkpoints some thread has still to write. */
  datatype Shared = Shared(log: LogState, every: nat, owed: nat)

  datatype Step =
    | Append(actor: Actor, event: AuditEvent, at: Bytes)
    | WriteOwed(actor: Actor, at: Bytes)
    | WriteCheckpoint(actor: Actor, at: Bytes)
    | Reopen(actor: Actor, at: Bytes, later: Bytes, every: nat)

  /** The log a process holds once it has read the file back; nothing changes when the file does not verify. */
  function Opened(sha: Bytes -> Digest, log: LogState, actor: Actor, at: Bytes, later: Bytes): LogState {
    if !Chained(sha, log.instance, log.records) then log else
    var n := |log.records|;
    var found := LogState(log.instance, log.records, n, HeadAfter(sha, log.instance, log.records, n));
    var begun := Write(sha, found, actor, LogOpened(log.instance, n), at);
    if Due(DEFAULT_EVERY, begun.number) then Write(sha, begun, actor, CheckpointEvent(begun, None), later) else begun
  }

  /** One critical section, by whichever thread comes next. */
  function Next(sha: Bytes -> Digest, signer: Option<(nat, Digest) -> Bytes>, s: Shared, step: Step): Shared {
    match step
    case Append(actor, event, at) =>
      var log := Write(sha, s.log, actor, event, at);
      s.(log := log, owed := s.owed + if Due(s.every, log.number) then 1 else 0)
    case WriteOwed(actor, at) =>
      if s.owed == 0 then s
      else s.(log := Write(sha, s.log, actor, CheckpointEvent(s.log, signer), at), owed := s.owed - 1)
    case WriteCheckpoint(actor, at) =>
      s.(log := Write(sha, s.log, actor, CheckpointEvent(s.log, signer), at))
    case Reopen(actor, at, later, every) =>
      Shared(Opened(sha, s.log, actor, at, later), every, 0)
  }

  function Interleave(sha: Bytes -> Digest, signer: Option<(nat, Digest) -> Bytes>, s: Shared, steps: seq<Step>): Shared
    decreases |steps|
  {
    if steps == [] then s else Interleave(sha, signer, Next(sha, signer, s, steps[0]), steps[1..])
  }

  /** Callers leave checkpoints to the log. */
  predicate NoForeignCheckpoints(steps: seq<Step>) {
    forall i :: 0 <= i < |steps| && steps[i].Append? ==> !steps[i].event.Checkpoint?
  }

  lemma OpenedIsCoherent(sha: Bytes -> Digest, log: LogState, actor: Actor, at: Bytes, later: Bytes)
    requires Coherent(sha, log)
    ensures
      var after := Opened(sha, log, actor, at, later);
      && Coherent(sha, after)
      && after.instance == log.instance
      && log.records < after.records
      && (HonestCheckpoints(sha, log.instance, log.records) ==> HonestCheckpoints(sha, log.instance, after.records))
  {
    hide Canonical, Chain, Draft, HonestCheckpoints, ToHex, Chained;
    var found := LogState(log.instance, log.records, |log.records|, log.head);
    var event := LogOpened(log.instance, |log.records|);
    var begun := Write(sha, found, actor, event, at);
    WriteKeepsCoherent(sha, found, actor, event, at);
    WriteKeepsCoherent(sha, begun, actor, CheckpointEvent(begun, None), later);
    if HonestCheckpoints(sha, log.instance, log.records) {
      WriteKeepsHonesty(sha, found, None, actor, event, at);
      WriteKeepsHonesty(sha, begun, None, actor, CheckpointEvent(begun, None), later);
    }
  }

  lemma NextIsCoherent(sha: Bytes -> Digest, signer: Option<(nat, Digest) -> Bytes>, s: Shared, step: Step)
    requires Coherent(sha, s.log)
    ensures
      var after := Next(sha, signer, s, step).log;
      && Coherent(sha, after)
      && after.instance == s.log.instance
      && s.log.records <= after.records
      && (HonestCheckpoints(sha, s.log.instance, s.log.records) && NoForeignCheckpoints([step])
          ==> HonestCheckpoints(sha, s.log.instance, after.records))
  {
    hide Canonical, Chain, Draft, HonestCheckpoints, Coherent, Opened;
    match step
    case Append(actor, event, at) =>
      WriteKeepsCoherent(sha, s.log, actor, event, at);
      if HonestCheckpoints(sha, s.log.instance, s.log.records) && NoForeignCheckpoints([step]) {
        assert [step][0].event == event;
        WriteKeepsHonesty(sha, s.log, signer, actor, event, at);
      }
    case WriteOwed(actor, at) => CheckpointIsCoherent(sha, signer, s.log, actor, at);
    case WriteCheckpoint(actor, at) => CheckpointIsCoherent(sha, signer, s.log, actor, at);
    case Reopen(actor, at, later, _) => OpenedIsCoherent(sha, s.log, actor, at, later);
  }

  lemma CheckpointIsCoherent(
    sha: Bytes -> Digest, signer: Option<(nat, Digest) -> Bytes>, log: LogState, actor: Actor, at: Bytes)
    requires Coherent(sha, log)
    ensures
      var after := Write(sha, log, actor, CheckpointEvent(log, signer), at);
      && Coherent(sha, after)
      && after.instance == log.instance
      && log.records <= after.records
      && (HonestCheckpoints(sha, log.instance, log.records) ==> HonestCheckpoints(sha, log.instance, after.records))
  {
    hide Canonical, Chain, Draft, HonestCheckpoints, Coherent, CheckpointEvent;
    WriteKeepsCoherent(sha, log, actor, CheckpointEvent(log, signer), at);
    if HonestCheckpoints(sha, log.instance, log.records) {
      WriteKeepsHonesty(sha, log, signer, actor, CheckpointEvent(log, signer), at);
    }
  }

  /**
  Whatever the interleaving of appends, checkpoints and reopenings, the log stays coherent,
  only ever grows, and every checkpoint the log wrote commits to the records before it.
  */
  lemma {:induction false} EveryInterleavingIsCoherent(
    sha: Bytes -> Digest, signer: Option<(nat, Digest) -> Bytes>, s: Shared, steps: seq<Step>)
    requires Coherent(sha, s.log)
    ensures
      var after := Interleave(sha, signer, s, steps).log;
      && Coherent(sha, after)
      && after.instance == s.log.instance
      && s.log.records <= after.records
      && (HonestCheckpoints(sha, s.log.instance, s.log.records) && NoForeignCheckpoints(steps)
          ==> HonestCheckpoints(sha, s.log.instance, after.records))
    decreases |steps|
  {
    hide Coherent, HonestCheckpoints, Next;
    if steps != [] {
      NextIsCoherent(sha, signer, s, steps[0]);
      EveryInterleavingIsCoherent(sha, signer, Next(sha, signer, s, steps[0]), steps[1..]);
    }
  }

  /** The log and the verifier agree after any interleaving: intact, with the in-memory count and head. */
  lemma LogAndVerifierAgree(
    sha: Bytes -> Digest, signer: Option<(nat, Digest) -> Bytes>, s: Shared, steps: seq<Step>, report: Report)
    requires Coherent(sha, s.log)
    requires IsReport(sha, s.log.instance, Interleave(sha, signer, s, steps).log.records, report)
    ensures
      var after := Interleave(sha, signer, s, steps).log;
      && report.status.Intact?
      && report.entryCount == after.number
      && report.head == if after.number == 0 then None else Some(after.head)
  {
    hide Coherent, Interleave, IsReport;
    EveryInterleavingIsCoherent(sha, signer, s, steps);
    VerifierAgrees(sha, Interleave(sha, signer, s, steps).log, report);
  }

  // ---- checkpoints asked for, written and lost ----

  /** Checkpoints a step asks for: directly, or by an entry at a number that the policy then in force names. */
  function AskedBy(s: Shared, step: Step): nat {
    match step
    case Append(_, _, _) => if s.every != 0 && (s.log.number + 1) % s.every == 0 then 1 else 0
    case WriteOwed(_, _) => 0
    case WriteCheckpoint(_, _) => 1
    case Reopen(_, _, _, _) => if (s.log.number + 1) % 64 == 0 then 1 else 0
  }

  function Asked(sha: Bytes -> Digest, signer: Option<(nat, Digest) -> Bytes>, s: Shared, steps: seq<Step>): nat
    decreases |steps|
  {
    if steps == [] then 0
    else AskedBy(s, steps[0]) + Asked(sha, signer, Next(sha, signer, s, steps[0]), steps[1..])
  }

  /** What reopenings lose: a process that is gone writes none of what it owed. */
  function Lost(sha: Bytes -> Digest, signer: Option<(nat, Digest) -> Bytes>, s: Shared, steps: seq<Step>): nat
    decreases |steps|
  {
    if steps == [] then 0
    else (if steps[0].Reopen? then s.owed else 0) + Lost(sha, signer, Next(sha, signer, s, steps[0]), steps[1..])
  }

  /** Checkpoints on record or owed. */
  function Answered(s: Shared): nat {
    CheckpointsIn(s.log.records) + s.owed
  }

  lemma CheckpointsExtend(records: seq<AuditRecord>, r: AuditRecord)
    ensures CheckpointsIn(records + [r]) == CheckpointsIn(records) + if r.event.Checkpoint? then 1 else 0
  {
    assert (records + [r])[..|records|] == records;
  }

  lemma WriteCounts(sha: Bytes -> Digest, log: LogState, actor: Actor, event: AuditEvent, at: Bytes)
    ensures CheckpointsIn(Write(sha, log, actor, event, at).records) ==
      CheckpointsIn(log.records) + if event.Checkpoint? then 1 else 0
  {
    hide Chain, Canonical, Draft, CheckpointsIn;
    var after := Write(sha, log, actor, event, at).records;
    CheckpointsExtend(log.records, after[|log.records|]);
  }

  lemma StepIsAccounted(sha: Bytes -> Digest, signer: Option<(nat, Digest) -> Bytes>, s: Shared, step: Step)
    requires Coherent(sha, s.log) && NoForeignCheckpoints([step])
    ensures Answered(Next(sha, signer, s, step)) + (if step.Reopen? then s.owed else 0) ==
      Answered(s) + AskedBy(s, step)
  {
    hide Write, CheckpointsIn, Chained, HeadAfter;
    match step
    case Append(actor, event, at) =>
      assert [step][0].event == event;
      WriteCounts(sha, s.log, actor, event, at);
      WriteNumbers(sha, s.log, actor, event, at);
    case WriteOwed(actor, at) => WriteCounts(sha, s.log, actor, CheckpointEvent(s.log, signer), at);
    case WriteCheckpoint(actor, at) => WriteCounts(sha, s.log, actor, CheckpointEvent(s.log, signer), at);
    case Reopen(actor, at, later, _) =>
      var event := LogOpened(s.log.instance, s.log.number);
      var begun := Write(sha, s.log, actor, event, at);
      WriteCounts(sha, s.log, actor, event, at);
      WriteNumbers(sha, s.log, actor, event, at);
      WriteCounts(sha, begun, actor, CheckpointEvent(begun, None), later);
  }

  lemma WriteNumbers(sha: Bytes -> Digest, log: LogState, actor: Actor, event: AuditEvent, at: Bytes)
    ensures Write(sha, log, actor, event, at).number == log.number + 1
  {}

  /**
  No checkpoint is doubled, and none is lost but by reopening. Whatever the interleaving of
  threads, policies and reopenings, each checkpoint asked for is on record, still owed, or
  was owed by a process that ended before writing it.
  */
  lemma {:induction false} DueEntriesAreAnswered(
    sha: Bytes -> Digest, signer: Option<(nat, Digest) -> Bytes>, s: Shared, steps: seq<Step>)
    requires Coherent(sha, s.log) && NoForeignCheckpoints(steps)
    ensures Answered(Interleave(sha, signer, s, steps)) + Lost(sha, signer, s, steps) ==
      Answered(s) + Asked(sha, signer, s, steps)
    decreases |steps|
  {
    hide Coherent, HonestCheckpoints, Next, Answered, AskedBy;
    if steps != [] {
      assert [steps[0]][0] == steps[0];
      NextIsCoherent(sha, signer, s, steps[0]);
      StepIsAccounted(sha, signer, s, steps[0]);
      DueEntriesAreAnswered(sha, signer, Next(sha, signer, s, steps[0]), steps[1..]);
    }
  }

  /** Entries at due numbers, checkpoints apart; an opening is judged by the default policy. */
  function DueIn(every: nat, records: seq<AuditRecord>): nat {
    if records == [] then 0 else
    var n := |records|;
    DueIn(every, records[..n - 1]) + if DueAt(every, n, records[n - 1].event) then 1 else 0
  }

  predicate DueAt(every: nat, number: nat, event: AuditEvent) {
    var policy := if event.LogOpened? then 64 else every;
    !event.Checkpoint? && policy != 0 && number % policy == 0
  }

  /** Callers leave checkpoints and openings to the log, and every process sets one policy. */
  predicate KeepsPolicy(every: nat, steps: seq<Step>) {
    && NoForeignCheckpoints(steps)
    && forall i :: 0 <= i < |steps| ==>
         (steps[i].Append? ==> !steps[i].event.LogOpened?) && (steps[i].Reopen? ==> steps[i].every == every)
  }

  function DirectCheckpoints(steps: seq<Step>): nat {
    if steps == [] then 0 else (if steps[0].WriteCheckpoint? then 1 else 0) + DirectCheckpoints(steps[1..])
  }

  lemma WriteIsDue(sha: Bytes -> Digest, log: LogState, actor: Actor, event: AuditEvent, at: Bytes, every: nat)
    ensures DueIn(every, Write(sha, log, actor, event, at).records) ==
      DueIn(every, log.records) + if DueAt(every, |log.records| + 1, event) then 1 else 0
  {
    hide Chain, Canonical, Draft, DueAt;
    var after := Write(sha, log, actor, event, at).records;
    assert after[..|log.records|] == log.records;
  }

  lemma StepIsDue(sha: Bytes -> Digest, signer: Option<(nat, Digest) -> Bytes>, s: Shared, step: Step)
    requires Coherent(sha, s.log) && KeepsPolicy(s.every, [step])
    ensures Next(sha, signer, s, step).every == s.every
    ensures DueIn(s.every, Next(sha, signer, s, step).log.records) + (if step.WriteCheckpoint? then 1 else 0) ==
      DueIn(s.every, s.log.records) + AskedBy(s, step)
  {
    hide Write, DueIn, Chained, HeadAfter;
    assert [step][0] == step;
    match step
    case Append(actor, event, at) => WriteIsDue(sha, s.log, actor, event, at, s.every);
    case WriteOwed(actor, at) => WriteIsDue(sha, s.log, actor, CheckpointEvent(s.log, signer), at, s.every);
    case WriteCheckpoint(actor, at) => WriteIsDue(sha, s.log, actor, CheckpointEvent(s.log, signer), at, s.every);
    case Reopen(actor, at, later, _) =>
      var event := LogOpened(s.log.instance, s.log.number);
      var begun := Write(sha, s.log, actor, event, at);
      WriteIsDue(sha, s.log, actor, event, at, s.every);
      WriteIsDue(sha, begun, actor, CheckpointEvent(begun, None), later, s.every);
  }

  /**
  So, while the policy stays the same, the records themselves tell what is missing: one
  checkpoint for each entry at a due number and one for each direct request, less those that
  were owed when the log was reopened.
  */
  lemma {:induction false} RecordsShowWhatReopeningLost(
    sha: Bytes -> Digest, signer: Option<(nat, Digest) -> Bytes>, s: Shared, steps: seq<Step>)
    requires Coherent(sha, s.log) && KeepsPolicy(s.every, steps)
    ensures
      var after := Interleave(sha, signer, s, steps);
      Answered(after) - DueIn(s.every, after.log.records) ==
        Answered(s) - DueIn(s.every, s.log.records) + DirectCheckpoints(steps) - Lost(sha, signer, s, steps)
    decreases |steps|
  {
    hide Coherent, HonestCheckpoints, Next, Answered, AskedBy, DueIn;
    if steps != [] {
      assert [steps[0]][0] == steps[0];
      NextIsCoherent(sha, signer, s, steps[0]);
      StepIsAccounted(sha, signer, s, steps[0]);
      StepIsDue(sha, signer, s, steps[0]);
      RecordsShowWhatReopeningLost(sha, signer, Next(sha, signer, s, steps[0]), steps[1..]);
    }
  }

  /** No false alarm: a log that has only been appended to since it was anchored passes both checks. */
  lemma HonestLogsKeepTheirAnchors(
    sha: Bytes -> Digest, signer: Option<(nat, Digest) -> Bytes>, s: Shared, steps: seq<Step>,
                                   anchored: Anchor.AnchorRecord, report: Report)
    requires Coherent(sha, s.log) && anchored.entryCount == s.log.number && anchored.head == s.log.head
    requires IsReport(sha, s.log.instance, Interleave(sha, signer, s, steps).log.records, report)
    ensures Anchor.AnchoredStatus(Interleave(sha, signer, s, steps).log.records, anchored, report).Intact?
  {
    hide Interleave, IsReport, Chained, Anchor.AnchoredStatus;
    var after := Interleave(sha, signer, s, steps).log;
    EveryInterleavingIsCoherent(sha, signer, s, steps);
    Anchor.AnchorVerdict(sha, s.log.instance, after.records, report, anchored);
  }

  /** One append with its checkpoint, as two critical sections of the interleaved log. */
  function AppendedAlone(sha: Bytes -> Digest, signer: Option<(nat, Digest) -> Bytes>, s: Shared,
                         actor: Actor, event: AuditEvent, at: Bytes, owner: Actor, later: Bytes): Shared
  {
    Next(sha, signer, Next(sha, signer, s, Step.Append(actor, event, at)), WriteOwed(owner, later))
  }

  /** The checkpoint of the first `n` records, as its owner writes it. */
  predicate IsCheckpointOf(r: AuditRecord, n: nat, head: Digest, signer: Option<(nat, Digest) -> Bytes>, owner: Actor) {
    && r.event.Checkpoint? && r.actor == owner
    && r.event.entryCount == n && FromHex(r.event.head) == head
    && r.event.signature == (if signer.None? then None else Some(signer.value(n, head)))
  }

  /** The entry is recorded as handed over, and a checkpoint follows it exactly at a multiple of the policy. */
  predicate RecordsAppend(before: LogState, after: LogState, signer: Option<(nat, Digest) -> Bytes>, every: nat,
                          actor: Actor, event: AuditEvent, at: Bytes, owner: Actor)
  {
    var n := |before.records| + 1;
    var due := every != 0 && n % every == 0;
    && after.number == |after.records| == n + (if due then 1 else 0)
    && before.records < after.records
    && var r := after.records[n - 1];
       && r.number == n && r.actor == actor && r.event == event && r.at == at
       && (due ==> IsCheckpointOf(after.records[n], n, r.hash, signer, owner))
  }

  lemma AppendedIsRecorded(sha: Bytes -> Digest, signer: Option<(nat, Digest) -> Bytes>, every: nat, log: LogState,
                           actor: Actor, event: AuditEvent, at: Bytes, owner: Actor, later: Bytes)
    requires log.number == |log.records|
    ensures
      var after := AppendedAlone(sha, signer, Shared(log, every, 0), actor, event, at, owner, later).log;
      RecordsAppend(log, after, signer, every, actor, event, at, owner)
  {
    hide Chain, Canonical, Draft, ToHex, FromHex;
    HexInverts(Write(sha, log, actor, event, at).head);
  }

  // ---- the log object ----

  /** A line of the log file. */
  datatype Line = Blank | Malformed | Written(record: AuditRecord)

  predicate Readable(lines: seq<Line>) {
    forall i :: 0 <= i < |lines| ==> !lines[i].Malformed?
  }

  /** The records on the lines that hold one, in order. */
  function RecordsIn(lines: seq<Line>): seq<AuditRecord> {
    if lines == [] then [] else
    var last := lines[|lines| - 1];
    RecordsIn(lines[..|lines| - 1]) + if last.Written? then [last.record] else []
  }

  lemma RecordsInSnoc(lines: seq<Line>, line: Line)
    ensures RecordsIn(lines + [line]) == RecordsIn(lines) + if line.Written? then [line.record] else []
  {
    assert (lines + [line])[..|lines|] == lines;
  }

  /** Read every record back, skipping blank lines; a malformed line anywhere is an error. */
  method ReadRecords(lines: seq<Line>) returns (result: Option<seq<AuditRecord>>)
    ensures result == if Readable(lines) then Some(RecordsIn(lines)) else None
  {
    var records := [];
    for i := 0 to |lines|
      invariant Readable(lines[..i]) && records == RecordsIn(lines[..i])
    {
      RecordsInSnoc(lines[..i], lines[i]);
      assert lines[..i + 1] == lines[..i] + [lines[i]];
      match lines[i] {
        case Blank =>
        case Malformed => return None;
        case Written(record) => records := records + [record];
      }
    }
    assert lines[..|lines|] == lines;
    return Some(records);
  }

  class LogFile {
    var lines: seq<Line>

    constructor (lines: seq<Line>)
      ensures this.lines == lines
    {
      this.lines := lines;
    }
  }

  class AuditLog {
    const sha: Bytes -> Digest
    const file: LogFile
    const instance: Bytes
    const actor: Actor
    var number: nat
    var head: Digest
    var every: nat
    var signer: Option<(nat, Digest) -> Bytes>

    ghost function State(): LogState
      reads this, file
    {
      LogState(instance, RecordsIn(file.lines), number, head)
    }

    ghost predicate Valid()
      reads this, file
    {
      Readable(file.lines) && Coherent(sha, State())
    }

    constructor (sha: Bytes -> Digest, file: LogFile, instance: Bytes, actor: Actor, number: nat, head: Digest)
      ensures this.sha == sha && this.file == file && this.instance == instance && this.actor == actor
      ensures this.number == number && this.head == head && every == DEFAULT_EVERY && signer == None
    {
      this.sha, this.file, this.instance, this.actor := sha, file, instance, actor;
      this.number, this.head, this.every, this.signer := number, head, DEFAULT_EVERY, None;
    }

    /** Set how often checkpoints are written; zero for never. */
    method SetCheckpointPolicy(every: nat)
      modifies this`every
      ensures this.every == every
    {
      this.every := every;
    }

    method SetSigner(signer: (nat, Digest) -> Bytes)
      modifies this`signer
      ensures this.signer == Some(signer)
    {
      this.signer := Some(signer);
    }

    /** Write one entry with the lock held. */
    method WriteEntry(actor: Actor, event: AuditEvent, at: Bytes) returns (n: nat)
      requires Valid()
      modifies this`number, this`head, file
      ensures Valid() && n == number == old(number) + 1
      ensures State() == Write(sha, old(State()), actor, event, at)
    {
      WriteKeepsCoherent(sha, State(), actor, event, at);
      n := number + 1;
      var canonical := CanonicalEntry(Entry(n, head, at, actor.principal, RunText(actor), Kind(event), Fields(event)));
      var hash := Chain(sha, head, canonical);
      var record := AuditRecord(n, at, actor, head, hash, event);
      RecordsInSnoc(file.lines, Written(record));
      file.lines := file.lines + [Written(record)];
      number := n;
      head := hash;
    }

    /** Commit to the head as it is when the lock is taken. */
    method EmitCheckpoint(at: Bytes) returns (n: nat)
      requires Valid()
      modifies this`number, this`head, file
      ensures Valid() && n == number == old(number) + 1
      ensures State() == Write(sha, old(State()), actor, CheckpointEvent(old(State()), signer), at)
      ensures IsCheckpointOf(State().records[old(number)], old(number), old(head), signer, actor)
    {
      HexInverts(head);
      var signature := None;
      if signer.Some? {
        signature := Some(signer.value(number, head));
      }
      n := WriteEntry(actor, Checkpoint(number, ToHex(head), signature), at);
    }

    method MaybeCheckpoint(n: nat, at: Bytes)
      requires Valid()
      modifies this`number, this`head, file
      ensures Valid()
      ensures State() ==
        if Due(every, n) then Write(sha, old(State()), actor, CheckpointEvent(old(State()), signer), at)
        else old(State())
    {
      if every == 0 || n % every != 0 {
        return;
      }
      var _ := EmitCheckpoint(at);
    }

    /** Append, then write the checkpoint that came due, with no other thread in between. */
    method AppendAs(actor: Actor, event: AuditEvent, at: Bytes, later: Bytes) returns (n: nat)
      requires Valid()
      modifies this`number, this`head, file
      ensures Valid() && n == old(number) + 1
      ensures State() ==
        AppendedAlone(sha, signer, Shared(old(State()), every, 0), actor, event, at, this.actor, later).log
      ensures RecordsAppend(old(State()), State(), signer, every, actor, event, at, this.actor)
    {
      AppendedIsRecorded(sha, signer, every, State(), actor, event, at, this.actor, later);
      n := WriteEntry(actor, event, at);
      MaybeCheckpoint(n, later);
    }

    method Append(event: AuditEvent, at: Bytes, later: Bytes) returns (n: nat)
      requires Valid()
      modifies this`number, this`head, file
      ensures Valid() && n == old(number) + 1
      ensures State() == AppendedAlone(sha, signer, Shared(old(State()), every, 0), actor, event, at, actor, later).log
    {
      n := AppendAs(actor, event, at, later);
    }

    /** Publish the current head and count. */
    method PublishAnchor(anchor: Anchor.FileAnchor, at: Bytes) returns (record: Anchor.AnchorRecord)
      requires Valid()
      modifies anchor
      ensures anchor.lines == old(anchor.lines) + [Anchor.Published(record)]
      ensures record.instance == instance && Anchor.Commits(sha, instance, record, State().records)
    {
      record := Anchor.AnchorRecord(instance, number, head, at);
      anchor.Publish(record);
    }
  }

  /** Open the log: read and verify the file, refuse it unless it is intact, then record the opening. */
  method Open(sha: Bytes -> Digest, file: LogFile, instance: Bytes, actor: Actor, at: Bytes, later: Bytes)
    returns (log: Option<AuditLog>)
    modifies file
    ensures log.Some? <==> Readable(old(file.lines)) && Chained(sha, instance, RecordsIn(old(file.lines)))
    ensures log.None? ==> file.lines == old(file.lines)
    ensures log.Some? ==>
      var before := RecordsIn(old(file.lines));
      && fresh(log.value) && log.value.Valid()
      && log.value.sha == sha && log.value.file == file && log.value.instance == instance && log.value.actor == actor
      && log.value.every == DEFAULT_EVERY && log.value.signer == None
      && log.value.State() == Opened(sha, LogState(instance, before, 0, Genesis(sha, instance)), actor, at, later)
      && before < log.value.State().records
      && log.value.State().records[|before|].event == LogOpened(instance, |before|)
  {
    var read := ReadRecords(file.lines);
    if read.None? {
      return None;
    }
    var report := VerifyRecords(sha, read.value, instance);
    IntactMeansChained(sha, instance, read.value, report);
    if !report.status.Intact? {
      return None;
    }
    var head := match report.head { case Some(h) => h case None => Genesis(sha, instance) };
    var reopened := new AuditLog(sha, file, instance, actor, report.entryCount, head);
    var _ := reopened.Append(LogOpened(instance, report.entryCount), at, later);
    return Some(reopened);
  }
}
