/**
Audit records, the hash chain over them, and the verifier that walks it. The hash function
is a parameter about which nothing is assumed.
*/
module Verify {
  import opened Wrappers
  import opened Encoding
  import opened Events

  type Digest = b: Bytes | |b| == 32 witness Zeros(32)

  datatype AuditRecord = AuditRecord(
    number: nat,
    at: Bytes,
    actor: Actor,
    prev: Digest,
    hash: Digest,
    event: AuditEvent)

  datatype ChainStatus =
    | Intact
    | EntryEdited(at: nat)
    | ChainBroken(at: nat, expected: Digest, found: Digest)
    | SequenceGap(expectedNumber: nat, foundNumber: nat)
    | WrongGenesis(expected: Digest, found: Digest)
    | Truncated(anchoredCount: nat, actualCount: nat)
    | AnchorMismatch(anchoredCount: nat, anchoredHead: Digest, actualHead: Digest)

  datatype Report = Report(
    status: ChainStatus,
    entryCount: nat,
    head: Option<Digest>,
    checkpoints: nat,
    danglingIntents: seq<nat>)

  // ---- the chain ----

  function GenesisInput(instance: Bytes): Bytes {
    Ascii("kawach/audit/genesis/v1") + instance
  }

  function EntryInput(prev: Digest, canonical: Bytes): Bytes {
    Ascii("kawach/audit/entry/v1") + prev + canonical
  }

  function Genesis(sha: Bytes -> Digest, instance: Bytes): Digest {
    sha(GenesisInput(instance))
  }

  /** The hash that follows `head` once `canonical` is chained onto it. */
  function Chain(sha: Bytes -> Digest, head: Digest, canonical: Bytes): Digest {
    sha(EntryInput(head, canonical))
  }

  function EntryOf(r: AuditRecord): Entry {
    Entry(r.number, r.prev, r.at, r.actor.principal, RunText(r.actor), Kind(r.event), Fields(r.event))
  }

  function RecomputeHash(sha: Bytes -> Digest, r: AuditRecord): Digest {
    Chain(sha, r.prev, Canonical(EntryOf(r)))
  }

  // ---- what a good record is ----

  /** The chain's hash after `n` records: the genesis value, or what record `n` stores. */
  function HeadAfter(sha: Bytes -> Digest, instance: Bytes, records: seq<AuditRecord>, n: nat): Digest
    requires n <= |records|
  {
    if n == 0 then Genesis(sha, instance) else records[n - 1].hash
  }

  /** Record `i` is numbered, linked and hashed as its place demands. */
  predicate Sound(sha: Bytes -> Digest, instance: Bytes, records: seq<AuditRecord>, i: nat)
    requires i < |records|
  {
    && records[i].number == i + 1
    && records[i].prev == HeadAfter(sha, instance, records, i)
    && RecomputeHash(sha, records[i]) == records[i].hash
  }

  /** Every record is sound. */
  predicate Chained(sha: Bytes -> Digest, instance: Bytes, records: seq<AuditRecord>) {
    forall i :: 0 <= i < |records| ==> Sound(sha, instance, records, i)
  }

  /** Which of the three checks record `i` fails first. */
  function Fault(sha: Bytes -> Digest, instance: Bytes, records: seq<AuditRecord>, i: nat): (status: ChainStatus)
    requires i < |records|
    ensures status.Intact? <==> Sound(sha, instance, records, i)
  {
    var r, expected := records[i], HeadAfter(sha, instance, records, i);
    if r.number != i + 1 then SequenceGap(i + 1, r.number)
    else if r.prev != expected && i == 0 then WrongGenesis(expected, r.prev)
    else if r.prev != expected then ChainBroken(r.number, expected, r.prev)
    else if RecomputeHash(sha, r) != r.hash then EntryEdited(r.number)
    else Intact
  }

  // ---- open intents ----

  predicate Closes(r: AuditRecord, intent: nat) {
    r.event.AccessOutcome? && r.event.intent == intent
  }

  /** Record `i` is an intent that no later record below `n` completes. */
  predicate Dangling(records: seq<AuditRecord>, n: nat, i: nat)
    requires n <= |records|
  {
    && i < n
    && records[i].event.AccessIntent?
    && forall j :: i < j < n ==> !Closes(records[j], i + 1)
  }

  predicate Ascending(numbers: seq<nat>) {
    forall i, j :: 0 <= i < j < |numbers| ==> numbers[i] < numbers[j]
  }

  /** `numbers` lists exactly the open intents below `n`, in order. */
  predicate ListsDangling(records: seq<AuditRecord>, n: nat, numbers: seq<nat>)
    requires n <= |records|
  {
    && Ascending(numbers)
    && (forall k :: 0 <= k < |numbers| ==> numbers[k] > 0 && Dangling(records, n, numbers[k] - 1))
    && (forall i :: 0 <= i < n && Dangling(records, n, i) ==> i + 1 in numbers)
  }

  function CheckpointsIn(records: seq<AuditRecord>): nat {
    if records == [] then 0
    else CheckpointsIn(records[..|records| - 1]) + if records[|records| - 1].event.Checkpoint? then 1 else 0
  }

  /** Keep the numbers other than `n`, in order. */
  function Without(numbers: seq<nat>, n: nat): (kept: seq<nat>)
    ensures forall k :: k in kept <==> k in numbers && k != n
  {
    if numbers == [] then [] else
    if numbers[0] == n then Without(numbers[1..], n) else [numbers[0]] + Without(numbers[1..], n)
  }

  lemma {:induction false} WithoutAscends(numbers: seq<nat>, n: nat)
    requires Ascending(numbers)
    ensures Ascending(Without(numbers, n))
  {
    if numbers != [] {
      var rest := Without(numbers[1..], n);
      WithoutAscends(numbers[1..], n);
      forall i | 0 <= i < |rest|
        ensures numbers[0] < rest[i]
      {
        assert rest[i] in rest && rest[i] in numbers[1..];
      }
    }
  }

  // ---- the verifier ----

  /** What a report on `records` must say: the longest sound prefix, and why it ends. */
  predicate IsReport(sha: Bytes -> Digest, instance: Bytes, records: seq<AuditRecord>, report: Report) {
    var n := report.entryCount;
    && n <= |records|
    && Chained(sha, instance, records[..n])
    && (n == |records| ==> report.status == Intact)
    && (n < |records| ==> !Sound(sha, instance, records, n) && report.status == Fault(sha, instance, records, n))
    && report.head == (if n == 0 then None else Some(records[n - 1].hash))
    && report.checkpoints == CheckpointsIn(records[..n])
    && ListsDangling(records, n, report.danglingIntents)
  }

  /** Whether records are sound depends only on the records up to them. */
  lemma SoundIsLocal(sha: Bytes -> Digest, instance: Bytes, records: seq<AuditRecord>, n: nat, i: nat)
    requires i < n <= |records|
    ensures Sound(sha, instance, records[..n], i) <==> Sound(sha, instance, records, i)
  {}

  lemma PrefixChained(sha: Bytes -> Digest, instance: Bytes, records: seq<AuditRecord>, n: nat)
    requires n <= |records|
    ensures Chained(sha, instance, records[..n]) <==> forall i :: 0 <= i < n ==> Sound(sha, instance, records, i)
  {
    forall i | 0 <= i < n
      ensures Sound(sha, instance, records[..n], i) <==> Sound(sha, instance, records, i)
    {
      SoundIsLocal(sha, instance, records, n, i);
    }
  }

  /** The open intents after one more record. */
  function NextOpen(numbers: seq<nat>, r: AuditRecord): seq<nat> {
    if r.event.AccessIntent? then numbers + [r.number]
    else if r.event.AccessOutcome? then Without(numbers, r.event.intent)
    else numbers
  }

  lemma OpenStep(records: seq<AuditRecord>, n: nat, i: nat)
    requires n < |records|
    ensures Dangling(records, n + 1, i) <==>
      (i == n && records[n].event.AccessIntent?) || (Dangling(records, n, i) && !Closes(records[n], i + 1))
  {}

  lemma NextOpenAscends(numbers: seq<nat>, r: AuditRecord)
    requires Ascending(numbers) && forall k :: 0 <= k < |numbers| ==> numbers[k] < r.number
    ensures Ascending(NextOpen(numbers, r))
  {
    hide Without;
    if r.event.AccessOutcome? {
      WithoutAscends(numbers, r.event.intent);
    }
  }

  lemma NextOpenHolds(numbers: seq<nat>, r: AuditRecord, k: nat)
    ensures k in NextOpen(numbers, r) <==>
      (k in numbers && !Closes(r, k)) || (r.event.AccessIntent? && k == r.number)
  {}

  lemma ListedDangles(records: seq<AuditRecord>, n: nat, numbers: seq<nat>, k: nat)
    requires n <= |records| && ListsDangling(records, n, numbers)
    ensures k in numbers <==> k > 0 && Dangling(records, n, k - 1)
  {
    hide Dangling;
    if k in numbers {
      var i :| 0 <= i < |numbers| && numbers[i] == k;
    } else if k > 0 && Dangling(records, n, k - 1) {
      InRange(records, n, k - 1);
    }
  }

  lemma InRange(records: seq<AuditRecord>, n: nat, i: nat)
    requires n <= |records|
    ensures Dangling(records, n, i) ==> i < n
  {}

  lemma NextOpenLists(records: seq<AuditRecord>, n: nat, numbers: seq<nat>)
    requires n < |records| && records[n].number == n + 1 && ListsDangling(records, n, numbers)
    ensures ListsDangling(records, n + 1, NextOpen(numbers, records[n]))
  {
    hide Dangling, NextOpen, Closes, Ascending;
    var after, m := NextOpen(numbers, records[n]), n + 1;
    forall k: nat
      ensures k in after <==> k > 0 && Dangling(records, m, k - 1)
    {
      ListedDangles(records, n, numbers, k);
      NextOpenHolds(numbers, records[n], k);
      if k > 0 {
        OpenStep(records, n, k - 1);
      }
    }
    forall k | 0 <= k < |numbers|
      ensures numbers[k] < n + 1
    {
      InRange(records, n, numbers[k] - 1);
    }
    NextOpenAscends(numbers, records[n]);
    forall k | 0 <= k < |after|
      ensures after[k] > 0 && Dangling(records, m, after[k] - 1)
    {
      assert after[k] in after;
    }
    forall i | 0 <= i < m && Dangling(records, m, i)
      ensures i + 1 in after
    {
      assert i + 1 - 1 == i;
    }
  }

  /** What the verifier has established once the first `n` records passed. */
  predicate Walked(sha: Bytes -> Digest, instance: Bytes, records: seq<AuditRecord>, n: nat,
                   expectedPrev: Digest, checkpoints: nat, openIntents: seq<nat>, head: Option<Digest>)
  {
    && n <= |records|
    && Chained(sha, instance, records[..n])
    && expectedPrev == HeadAfter(sha, instance, records, n)
    && head == (if n == 0 then None else Some(records[n - 1].hash))
    && checkpoints == CheckpointsIn(records[..n])
    && ListsDangling(records, n, openIntents)
  }

  lemma WalkedOn(sha: Bytes -> Digest, instance: Bytes, records: seq<AuditRecord>, n: nat,
                 expectedPrev: Digest, checkpoints: nat, openIntents: seq<nat>, head: Option<Digest>)
    requires Walked(sha, instance, records, n, expectedPrev, checkpoints, openIntents, head)
    requires n < |records| && Sound(sha, instance, records, n)
    ensures Walked(sha, instance, records, n + 1, records[n].hash,
      checkpoints + (if records[n].event.Checkpoint? then 1 else 0),
      NextOpen(openIntents, records[n]), Some(records[n].hash))
  {
    PrefixChained(sha, instance, records, n);
    PrefixChained(sha, instance, records, n + 1);
    NextOpenLists(records, n, openIntents);
    assert records[..n + 1][..n] == records[..n];
  }

  /** Walk the records, stopping at the first that fails a check. */
  method VerifyRecords(sha: Bytes -> Digest, records: seq<AuditRecord>, instance: Bytes) returns (report: Report)
    ensures IsReport(sha, instance, records, report)
  {
    var genesis := Genesis(sha, instance);
    var expectedPrev := genesis;
    var expectedNumber := 1;
    var checkpoints := 0;
    var openIntents: seq<nat> := [];
    var status := Intact;
    var head: Option<Digest> := None;

    while expectedNumber - 1 < |records|
      invariant expectedNumber >= 1 && status.Intact?
      invariant Walked(sha, instance, records, expectedNumber - 1, expectedPrev, checkpoints, openIntents, head)
    {
      var record := records[expectedNumber - 1];
      if record.number != expectedNumber {
        status := SequenceGap(expectedNumber, record.number);
        break;
      }
      if record.prev != expectedPrev {
        status := if expectedNumber == 1 then WrongGenesis(genesis, record.prev)
                  else ChainBroken(record.number, expectedPrev, record.prev);
        break;
      }
      if RecomputeHash(sha, record) != record.hash {
        status := EntryEdited(record.number);
        break;
      }
      WalkedOn(sha, instance, records, expectedNumber - 1, expectedPrev, checkpoints, openIntents, head);
      if record.event.Checkpoint? {
        checkpoints := checkpoints + 1;
      } else if record.event.AccessIntent? {
        openIntents := openIntents + [record.number];
      } else if record.event.AccessOutcome? {
        openIntents := Without(openIntents, record.event.intent);
      }
      expectedPrev := record.hash;
      head := Some(record.hash);
      expectedNumber := expectedNumber + 1;
    }
    report := Report(status, expectedNumber - 1, head, checkpoints, openIntents);
  }

  /** The verifier says intact exactly when every record is sound. */
  lemma IntactMeansChained(sha: Bytes -> Digest, instance: Bytes, records: seq<AuditRecord>, report: Report)
    requires IsReport(sha, instance, records, report)
    ensures report.status.Intact? <==> Chained(sha, instance, records)
    ensures report.status.Intact? ==>
      && report.entryCount == |records|
      && report.head == if records == [] then None else Some(HeadAfter(sha, instance, records, |records|))
  {
    assert records[..|records|] == records;
  }

  /**
  What each verdict says of the record after the sound prefix, the one the walk stopped at:
  its number is checked first, then its link, then the hash of its contents.
  */
  lemma VerdictMeans(sha: Bytes -> Digest, instance: Bytes, records: seq<AuditRecord>, report: Report)
    requires IsReport(sha, instance, records, report)
    ensures report.entryCount <= |records|
    ensures
      var n, status := report.entryCount, report.status;
      && (status.Intact? <==> n == |records|)
      && (n < |records| ==>
            var r := records[n];
            var numbered := r.number == n + 1;
            var expected := if n == 0 then sha(GenesisInput(instance)) else records[n - 1].hash;
            var contents := sha(EntryInput(r.prev, Canonical(EntryOf(r))));
            && (status == SequenceGap(n + 1, r.number) <==> !numbered)
            && (status == WrongGenesis(expected, r.prev) <==> numbered && n == 0 && r.prev != expected)
            && (status == ChainBroken(n + 1, expected, r.prev) <==> numbered && n > 0 && r.prev != expected)
            && (status == EntryEdited(n + 1) <==> numbered && r.prev == expected && contents != r.hash)
            && (status.SequenceGap? || status.WrongGenesis? || status.ChainBroken? || status.EntryEdited?)
            && !(numbered && r.prev == expected && contents == r.hash))
  {
    hide Canonical, EntryOf, ListsDangling;
  }

  /** A log has one correct report: the conditions above leave no freedom. */
  lemma ReportIsUnique(sha: Bytes -> Digest, instance: Bytes, records: seq<AuditRecord>, a: Report, b: Report)
    requires IsReport(sha, instance, records, a) && IsReport(sha, instance, records, b)
    ensures a == b
  {
    PrefixChained(sha, instance, records, a.entryCount);
    PrefixChained(sha, instance, records, b.entryCount);
    assert a.entryCount == b.entryCount;
    SameOpenLists(records, a.entryCount, a.danglingIntents, b.danglingIntents);
  }

  lemma SameOpenLists(records: seq<AuditRecord>, n: nat, a: seq<nat>, b: seq<nat>)
    requires n <= |records| && ListsDangling(records, n, a) && ListsDangling(records, n, b)
    ensures a == b
  {
    forall k ensures k in a <==> k in b {
      if k in a {
        assert exists i :: 0 <= i < |a| && a[i] == k;
      }
      if k in b {
        assert exists i :: 0 <= i < |b| && b[i] == k;
      }
    }
    AscendingIsCanonical(a, b);
  }

  lemma HasFirst(numbers: seq<nat>)
    requires |numbers| > 0
    ensures exists k :: k in numbers
  {
    assert numbers[0] in numbers;
  }

  lemma {:induction false} AscendingIsCanonical(a: seq<nat>, b: seq<nat>)
    requires Ascending(a) && Ascending(b) && forall k :: k in a <==> k in b
    ensures a == b
  {
    if a == [] {
      if |b| > 0 {
        HasFirst(b);
      }
    } else {
      assert a[0] in a && a[0] in b;
      assert b[0] in b && b[0] in a;
      assert a[0] == b[0];
      forall k ensures k in a[1..] <==> k in b[1..] {
        assert k in a[1..] <==> k in a && k != a[0];
        assert k in b[1..] <==> k in b && k != b[0];
      }
      AscendingIsCanonical(a[1..], b[1..]);
    }
  }
}
