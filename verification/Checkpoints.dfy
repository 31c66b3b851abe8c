/**
What one thread leaves in the log: its entries in order, and checkpoints at the places the
policy fixes.
*/
module Checkpoints {
  import opened Wrappers
  import opened Encoding
  import opened Events
  import opened Verify
  import opened Log

  /** What a caller hands to one append, and the time its checkpoint would be written. */
  datatype Call = Call(actor: Actor, event: AuditEvent, at: Bytes, later: Bytes)

  /** The log after these appends, made by one thread under one policy. */
  function AppendAll(sha: Bytes -> Digest, signer: Option<(nat, Digest) -> Bytes>, every: nat, owner: Actor,
                     log: LogState, calls: seq<Call>): LogState
    decreases |calls|
  {
    if calls == [] then log else
    var before := AppendAll(sha, signer, every, owner, log, calls[..|calls| - 1]);
    var c := calls[|calls| - 1];
    AppendedAlone(sha, signer, Shared(before, every, 0), c.actor, c.event, c.at, owner, c.later).log
  }

  predicate LeaveCheckpoints(calls: seq<Call>) {
    forall k :: 0 <= k < |calls| ==> !calls[k].event.Checkpoint?
  }

  /** The entries that are not checkpoints, in order: who, what and when. */
  function Entered(records: seq<AuditRecord>): seq<(Actor, AuditEvent, Bytes)> {
    if records == [] then [] else
    var last := records[|records| - 1];
    Entered(records[..|records| - 1]) + if last.event.Checkpoint? then [] else [(last.actor, last.event, last.at)]
  }

  function Handed(calls: seq<Call>): (entries: seq<(Actor, AuditEvent, Bytes)>)
    ensures |entries| == |calls|
  {
    seq(|calls|, k requires 0 <= k < |calls| => (calls[k].actor, calls[k].event, calls[k].at))
  }

  lemma EnteredSnoc(records: seq<AuditRecord>, r: AuditRecord)
    ensures Entered(records + [r]) ==
      Entered(records) + if r.event.Checkpoint? then [] else [(r.actor, r.event, r.at)]
  {
    assert (records + [r])[..|records|] == records;
  }

  lemma AfterMultiple(n: nat, every: nat)
    requires every >= 2 && n % every == 0
    ensures (n + 1) % every == 1
  {
    var q, m := n / every, (n + 1) / every;
    assert every * (m - q) == every * m - every * q;
    Spread(every, m - q);
  }

  lemma Spread(d: nat, k: int)
    ensures k >= 1 ==> d * k >= d
    ensures k <= -1 ==> d * k + d <= 0
  {}

  /** Where checkpoints stand among the records from `start` on. */
  predicate Spaced(every: nat, start: nat, records: seq<AuditRecord>) {
    forall i :: start <= i < |records| ==> (records[i].event.Checkpoint? <==> PlaceOfCheckpoint(every, start, i))
  }

  /** After each multiple of the policy; after every entry under a policy of one; nowhere under a policy of zero. */
  predicate PlaceOfCheckpoint(every: nat, start: nat, i: nat) {
    if every == 0 then false
    else if every == 1 then i >= start && (i - start) % 2 == 1
    else i > start && i % every == 0
  }

  /** How long the log is then. */
  predicate Complete(every: nat, start: nat, calls: nat, length: nat) {
    if every == 0 then length == start + calls
    else if every == 1 then length == start + 2 * calls
    else if calls == 0 then length == start
    else length > start && length % every != 0
  }

  lemma AppendKeepsSpacing(every: nat, start: nat, calls: nat, before: seq<AuditRecord>, after: seq<AuditRecord>)
    requires start <= |before| && Spaced(every, start, before) && Complete(every, start, calls, |before|)
    requires before < after && !after[|before|].event.Checkpoint?
    requires |after| == |before| + 1 + if every != 0 && (|before| + 1) % every == 0 then 1 else 0
    requires |after| == |before| + 2 ==> after[|before| + 1].event.Checkpoint?
    ensures Spaced(every, start, after) && Complete(every, start, calls + 1, |after|)
  {
    var n := |before| + 1;
    if every >= 2 && n % every == 0 {
      AfterMultiple(n, every);
    }
    forall i | start <= i < |after|
      ensures after[i].event.Checkpoint? <==> PlaceOfCheckpoint(every, start, i)
    {
      assert i < |before| ==> after[i] == before[i];
    }
  }

  /**
  One thread's appends leave the log with the callers' entries in the order they were handed
  over, as they were handed over, and among them a checkpoint at exactly these indices: under
  a policy of two or more, at its multiples; under a policy of one, after each entry; under a
  policy of zero, nowhere.
  */
  lemma {:induction false} CheckpointsFallOnMultiples(
    sha: Bytes -> Digest, signer: Option<(nat, Digest) -> Bytes>, every: nat, owner: Actor, log: LogState,
    calls: seq<Call>)
    requires log.number == |log.records| && LeaveCheckpoints(calls)
    ensures
      var after, start := AppendAll(sha, signer, every, owner, log, calls), |log.records|;
      && after.number == |after.records| && log.records <= after.records
      && Entered(after.records) == Entered(log.records) + Handed(calls)
      && Complete(every, start, |calls|, |after.records|) && Spaced(every, start, after.records)
    decreases |calls|
  {
    hide AppendedAlone, Complete, Spaced, Entered, Handed;
    var start := |log.records|;
    if calls == [] {
      NothingAppended(every, start, log.records);
    } else {
      var n, c := |calls| - 1, calls[|calls| - 1];
      CheckpointsFallOnMultiples(sha, signer, every, owner, log, calls[..n]);
      var before := AppendAll(sha, signer, every, owner, log, calls[..n]);
      var after := AppendAll(sha, signer, every, owner, log, calls);
      AppendedIsRecorded(sha, signer, every, before, c.actor, c.event, c.at, owner, c.later);
      AppendKeepsSpacing(every, start, n, before.records, after.records);
      AppendEnters(before.records, after.records, c);
      HandedSnoc(calls);
    }
  }

  lemma NothingAppended(every: nat, start: nat, records: seq<AuditRecord>)
    requires |records| == start
    ensures Complete(every, start, 0, |records|) && Spaced(every, start, records)
    ensures Handed([]) == []
  {}

  lemma HandedSnoc(calls: seq<Call>)
    requires calls != []
    ensures
      var c := calls[|calls| - 1];
      Handed(calls) == Handed(calls[..|calls| - 1]) + [(c.actor, c.event, c.at)]
  {}

  lemma AppendEnters(before: seq<AuditRecord>, after: seq<AuditRecord>, c: Call)
    requires before < after && |after| <= |before| + 2 && !c.event.Checkpoint?
    requires (after[|before|].actor, after[|before|].event, after[|before|].at) == (c.actor, c.event, c.at)
    requires |after| == |before| + 2 ==> after[|before| + 1].event.Checkpoint?
    ensures Entered(after) == Entered(before) + [(c.actor, c.event, c.at)]
  {
    hide Entered;
    var one := before + [after[|before|]];
    EnteredSnoc(before, after[|before|]);
    if |after| == |before| + 2 {
      assert after == one + [after[|before| + 1]];
      EnteredSnoc(one, after[|before| + 1]);
    } else {
      assert after == one;
    }
  }

  // ---- logs that were regular from the start ----

  /** Checkpoints stand at the multiples of the policy, and none is missing at the end. */
  predicate Regular(every: nat, records: seq<AuditRecord>)
    requires every >= 2
  {
    && (forall i :: 0 <= i < |records| ==> (records[i].event.Checkpoint? <==> i > 0 && i % every == 0))
    && (records != [] ==> |records| % every != 0)
  }

  /** A regular log stays regular, whatever one thread appends. */
  lemma RegularStaysRegular(
    sha: Bytes -> Digest, signer: Option<(nat, Digest) -> Bytes>, every: nat, owner: Actor, log: LogState,
    calls: seq<Call>)
    requires every >= 2 && log.number == |log.records| && LeaveCheckpoints(calls)
    requires Regular(every, log.records)
    ensures Regular(every, AppendAll(sha, signer, every, owner, log, calls).records)
  {
    hide AppendAll;
    CheckpointsFallOnMultiples(sha, signer, every, owner, log, calls);
    var after, start := AppendAll(sha, signer, every, owner, log, calls).records, |log.records|;
    forall i | 0 <= i < |after|
      ensures after[i].event.Checkpoint? <==> i > 0 && i % every == 0
    {
      assert i < start ==> after[i] == log.records[i];
    }
  }

  /** Opening a log is one append under the default policy. */
  lemma OpeningIsAppending(sha: Bytes -> Digest, log: LogState, actor: Actor, at: Bytes, later: Bytes)
    requires Coherent(sha, log)
    ensures Opened(sha, log, actor, at, later) ==
      AppendAll(sha, None, 64, actor, log, [Call(actor, LogOpened(log.instance, |log.records|), at, later)])
  {
    hide Chain, Canonical, Draft, ToHex, Chained, HeadAfter;
    var c := Call(actor, LogOpened(log.instance, |log.records|), at, later);
    assert [c][..0] == [];
    assert AppendAll(sha, None, 64, actor, log, []) == log;
  }

  /** So it keeps a log regular at the default policy. */
  lemma OpeningStaysRegular(sha: Bytes -> Digest, log: LogState, actor: Actor, at: Bytes, later: Bytes)
    requires Coherent(sha, log) && Regular(64, log.records)
    ensures Regular(64, Opened(sha, log, actor, at, later).records)
  {
    hide AppendAll, Opened, Regular;
    OpeningIsAppending(sha, log, actor, at, later);
    RegularStaysRegular(sha, None, 64, actor, log, [Call(actor, LogOpened(log.instance, |log.records|), at, later)]);
  }

  /** A log opened on an empty file writes its first checkpoint after sixty-four entries, the opening included. */
  lemma FreshLogsAreRegular(
    sha: Bytes -> Digest, signer: Option<(nat, Digest) -> Bytes>, instance: Bytes, actor: Actor, at: Bytes,
    later: Bytes, calls: seq<Call>)
    requires LeaveCheckpoints(calls)
    ensures
      var opening := Opened(sha, LogState(instance, [], 0, Genesis(sha, instance)), actor, at, later);
      var records := AppendAll(sha, signer, 64, actor, opening, calls).records;
      && records != [] && records[0].event == LogOpened(instance, 0)
      && forall i :: 0 <= i < |records| ==> (records[i].event.Checkpoint? <==> i > 0 && i % 64 == 0)
  {
    hide AppendAll, Opened, Coherent;
    var empty := LogState(instance, [], 0, Genesis(sha, instance));
    NothingIsCoherent(sha, instance);
    OpeningStaysRegular(sha, empty, actor, at, later);
    OpenedIsCoherent(sha, empty, actor, at, later);
    OpeningComesFirst(sha, empty, actor, at, later);
    var opening := Opened(sha, empty, actor, at, later);
    CoherentIsNumbered(sha, opening);
    RegularStaysRegular(sha, signer, 64, actor, opening, calls);
    CheckpointsFallOnMultiples(sha, signer, 64, actor, opening, calls);
  }

  lemma NothingIsCoherent(sha: Bytes -> Digest, instance: Bytes)
    ensures Coherent(sha, LogState(instance, [], 0, Genesis(sha, instance)))
  {}

  lemma CoherentIsNumbered(sha: Bytes -> Digest, log: LogState)
    requires Coherent(sha, log)
    ensures log.number == |log.records|
  {}

  lemma OpeningComesFirst(sha: Bytes -> Digest, log: LogState, actor: Actor, at: Bytes, later: Bytes)
    requires Coherent(sha, log)
    ensures
      var after := Opened(sha, log, actor, at, later).records;
      |after| > |log.records| && after[|log.records|].event == LogOpened(log.instance, |log.records|)
  {
    hide Chain, Canonical, Draft, ToHex;
  }
}
