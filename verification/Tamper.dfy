/**
Tamper evidence as a reduction: from two chained logs that end in the same hash one can
compute either that they agree on everything hashed, or two different byte strings, both
hashed by the logs, with one hash.
*/
module Tamper {
  import opened Wrappers
  import opened Encoding
  import opened Events
  import opened Verify

  predicate Collides(sha: Bytes -> Digest, x: Bytes, y: Bytes) {
    x != y && sha(x) == sha(y)
  }

  /** What was hashed to obtain the chain's value after `n` records. */
  function HashedAt(instance: Bytes, records: seq<AuditRecord>, n: nat): Bytes
    requires n <= |records|
  {
    if n == 0 then GenesisInput(instance)
    else EntryInput(records[n - 1].prev, Canonical(EntryOf(records[n - 1])))
  }

  /** Walk two logs back from positions with equal hashes to the first inputs that differ. */
  function FindCollision(instA: Bytes, a: seq<AuditRecord>, i: nat, instB: Bytes, b: seq<AuditRecord>, j: nat)
    : (pair: Option<(Bytes, Bytes)>)
    requires i <= |a| && j <= |b|
  {
    if HashedAt(instA, a, i) != HashedAt(instB, b, j) then Some((HashedAt(instA, a, i), HashedAt(instB, b, j)))
    else if i == 0 || j == 0 then None
    else FindCollision(instA, a, i - 1, instB, b, j - 1)
  }

  /** The two records agree on everything the hash covers. */
  predicate SameHashed(r: AuditRecord, s: AuditRecord) {
    && r.number == s.number
    && r.at == s.at
    && r.actor.principal == s.actor.principal
    && RunText(r.actor) == RunText(s.actor)
    && r.prev == s.prev
    && r.hash == s.hash
    && Erase(r.event) == Erase(s.event)
  }

  /** The first `n` records of the two logs agree on everything hashed. */
  predicate AgreeUpTo(a: seq<AuditRecord>, b: seq<AuditRecord>, n: nat) {
    && n <= |a| && n <= |b|
    && forall k :: 0 <= k < n ==> SameHashed(a[k], b[k])
  }

  predicate Encodable(records: seq<AuditRecord>) {
    forall i :: 0 <= i < |records| ==> Fits(EntryOf(records[i]))
  }

  lemma SameEntry(r: AuditRecord, s: AuditRecord)
    requires r.hash == s.hash
    ensures EntryOf(r) == EntryOf(s) <==> SameHashed(r, s)
  {
    HashSeesEventUpToErasure(r.event, s.event);
  }

  /** What is hashed for an entry fixes both the link and the contents. */
  lemma EntryInputIsInjective(prevA: Digest, a: Bytes, prevB: Digest, b: Bytes)
    requires EntryInput(prevA, a) == EntryInput(prevB, b)
    ensures prevA == prevB && a == b
  {
    var domain := Ascii("kawach/audit/entry/v1");
    Splits(domain + prevA, a);
    Splits(domain + prevB, b);
    assert |domain + prevA| == |domain + prevB|;
    Splits(domain, prevA);
    Splits(domain, prevB);
  }

  /** Equal entry inputs come from records that agree. */
  lemma InputsDetermineRecords(r: AuditRecord, s: AuditRecord)
    requires r.hash == s.hash && Fits(EntryOf(r)) && Fits(EntryOf(s))
    requires EntryInput(r.prev, Canonical(EntryOf(r))) == EntryInput(s.prev, Canonical(EntryOf(s)))
    ensures SameHashed(r, s)
  {
    EntryInputIsInjective(r.prev, Canonical(EntryOf(r)), s.prev, Canonical(EntryOf(s)));
    CanonicalIsInjective(EntryOf(r), EntryOf(s));
    SameEntry(r, s);
  }

  /** The two hash domains never produce the same input. */
  lemma DomainsAreSeparate(instance: Bytes, prev: Digest, canonical: Bytes)
    ensures GenesisInput(instance) != EntryInput(prev, canonical)
  {
    assert GenesisInput(instance)[13] == 'g' as int % 256;
    assert EntryInput(prev, canonical)[13] == 'e' as int % 256;
  }

  lemma GenesisDeterminesInstance(a: Bytes, b: Bytes)
    requires GenesisInput(a) == GenesisInput(b)
    ensures a == b
  {
    Splits(Ascii("kawach/audit/genesis/v1"), a);
    Splits(Ascii("kawach/audit/genesis/v1"), b);
  }

  /** In a chained log every head is the hash of the input recorded for it. */
  lemma HeadIsHashed(sha: Bytes -> Digest, instance: Bytes, records: seq<AuditRecord>, n: nat)
    requires n <= |records| && Chained(sha, instance, records)
    ensures HeadAfter(sha, instance, records, n) == sha(HashedAt(instance, records, n))
  {
    if n > 0 {
      assert Sound(sha, instance, records, n - 1);
    }
  }

  /** Equal inputs: the same record before, on both sides or on neither. */
  lemma EqualInputsStepBack(instA: Bytes, a: seq<AuditRecord>, i: nat, instB: Bytes, b: seq<AuditRecord>, j: nat)
    requires i <= |a| && j <= |b| && Encodable(a) && Encodable(b)
    requires HashedAt(instA, a, i) == HashedAt(instB, b, j)
    requires i > 0 && j > 0 ==> a[i - 1].hash == b[j - 1].hash
    ensures i == 0 <==> j == 0
    ensures i == 0 ==> instA == instB
    ensures i > 0 ==> SameHashed(a[i - 1], b[j - 1])
  {
    if i > 0 && j > 0 {
      InputsDetermineRecords(a[i - 1], b[j - 1]);
    } else if i > 0 {
      DomainsAreSeparate(instB, a[i - 1].prev, Canonical(EntryOf(a[i - 1])));
    } else if j > 0 {
      DomainsAreSeparate(instA, b[j - 1].prev, Canonical(EntryOf(b[j - 1])));
    } else {
      GenesisDeterminesInstance(instA, instB);
    }
  }

  /**
  The reduction. Whatever the two positions, equal chain values there mean the same
  position, the same instance and agreement on every record before it; or else the walk
  back hands over a collision of the hash function.
  */
  lemma {:induction false} TamperEvidence(
    sha: Bytes -> Digest, instA: Bytes, a: seq<AuditRecord>, i: nat, instB: Bytes, b: seq<AuditRecord>, j: nat)
    requires i <= |a| && j <= |b| && Encodable(a) && Encodable(b)
    requires Chained(sha, instA, a) && Chained(sha, instB, b)
    requires HeadAfter(sha, instA, a, i) == HeadAfter(sha, instB, b, j)
    ensures
      match FindCollision(instA, a, i, instB, b, j)
      case Some((x, y)) => Collides(sha, x, y)
      case None => i == j && instA == instB && AgreeUpTo(a, b, i)
    decreases i
  {
    hide Canonical, EntryOf, GenesisInput, EntryInput, Fits, SameHashed;
    HeadIsHashed(sha, instA, a, i);
    HeadIsHashed(sha, instB, b, j);
    if HashedAt(instA, a, i) == HashedAt(instB, b, j) {
      EqualInputsStepBack(instA, a, i, instB, b, j);
      if i > 0 {
        assert Sound(sha, instA, a, i - 1) && Sound(sha, instB, b, j - 1);
        TamperEvidence(sha, instA, a, i - 1, instB, b, j - 1);
      }
    }
  }

  lemma SameRecordsSameInput(instance: Bytes, a: seq<AuditRecord>, b: seq<AuditRecord>, n: nat)
    requires AgreeUpTo(a, b, n)
    ensures HashedAt(instance, a, n) == HashedAt(instance, b, n)
  {
    hide Canonical, Kind, Fields;
    if n > 0 {
      SameEntry(a[n - 1], b[n - 1]);
    }
  }

  /** The walk is complete: it gives up a pair only where the logs really differ. */
  lemma {:induction false} AgreeingLogsYieldNoCollision(
    instance: Bytes, a: seq<AuditRecord>, b: seq<AuditRecord>, n: nat)
    requires AgreeUpTo(a, b, n)
    ensures FindCollision(instance, a, n, instance, b, n) == None
  {
    hide HashedAt, SameHashed;
    SameRecordsSameInput(instance, a, b, n);
    if n > 0 {
      AgreeingLogsYieldNoCollision(instance, a, b, n - 1);
    }
  }

  /** Where the collision search can look: inputs the two logs hashed on the way. */
  lemma {:induction false} CollisionIsFromTheLogs(
    instA: Bytes, a: seq<AuditRecord>, i: nat, instB: Bytes, b: seq<AuditRecord>, j: nat)
    returns (k: nat)
    requires i <= |a| && j <= |b|
    ensures k <= i && k <= j
    ensures FindCollision(instA, a, i, instB, b, j).Some? ==>
      FindCollision(instA, a, i, instB, b, j).value == (HashedAt(instA, a, i - k), HashedAt(instB, b, j - k))
  {
    hide HashedAt;
    if i == 0 || j == 0 || HashedAt(instA, a, i) != HashedAt(instB, b, j) {
      k := 0;
    } else {
      k := CollisionIsFromTheLogs(instA, a, i - 1, instB, b, j - 1);
      k := k + 1;
    }
  }

  /** Two logs one instance calls intact, with one head: the same log, or a collision. */
  lemma EqualHeadsMeanEqualLogs(
    sha: Bytes -> Digest, instance: Bytes, a: seq<AuditRecord>, reportA: Report, b: seq<AuditRecord>, reportB: Report)
    requires IsReport(sha, instance, a, reportA) && IsReport(sha, instance, b, reportB)
    requires reportA.status.Intact? && reportB.status.Intact? && reportA.head == reportB.head
    requires Encodable(a) && Encodable(b)
    ensures
      match FindCollision(instance, a, |a|, instance, b, |b|)
      case Some((x, y)) => Collides(sha, x, y)
      case None => |a| == |b| && AgreeUpTo(a, b, |a|)
  {
    hide IsReport, Chained, HeadAfter, HashedAt, SameHashed, Encodable, FindCollision;
    IntactMeansChained(sha, instance, a, reportA);
    IntactMeansChained(sha, instance, b, reportB);
    TamperEvidence(sha, instance, a, |a|, instance, b, |b|);
  }

  /**
  Beyond the bound on lengths nothing is computed about the hash at all: two records that
  differ in who acted have one hash, whatever the hash function and whatever the event.
  */
  lemma OversizedRecordsCollide(sha: Bytes -> Digest, r: AuditRecord)
    ensures
      var a := r.(actor := Actor(Zeros(TWO_32), None));
      var b := r.(actor := Actor([], Some(Zeros(TWO_32))));
      RecomputeHash(sha, a) == RecomputeHash(sha, b) && !SameHashed(a, b)
  {
    hide Canonical, Kind, Fields;
    OversizedPartsCollide(r.number, r.prev, r.at, Kind(r.event), Fields(r.event));
    assert |Zeros(TWO_32)| != |Zeros(0)|;
  }

  /** A log verified under another instance's name yields a collision, unless both are empty of records. */
  lemma InstancesAreSeparate(sha: Bytes -> Digest, instA: Bytes, instB: Bytes, records: seq<AuditRecord>)
    requires instA != instB && records != [] && Chained(sha, instA, records) && Chained(sha, instB, records)
    ensures Collides(sha, GenesisInput(instA), GenesisInput(instB))
  {
    assert Sound(sha, instA, records, 0) && Sound(sha, instB, records, 0);
    if GenesisInput(instA) == GenesisInput(instB) {
      GenesisDeterminesInstance(instA, instB);
    }
  }

  // ---- how each kind of tampering is reported ----

  lemma ReportStopsAt(sha: Bytes -> Digest, instance: Bytes, records: seq<AuditRecord>, report: Report, n: nat)
    requires IsReport(sha, instance, records, report) && n < |records|
    requires forall i :: 0 <= i < n ==> Sound(sha, instance, records, i)
    requires !Sound(sha, instance, records, n)
    ensures report.entryCount == n
  {
    PrefixChained(sha, instance, records, report.entryCount);
  }

  /** What comes after a record does not decide whether it is sound. */
  lemma SoundByPrefix(sha: Bytes -> Digest, instance: Bytes, a: seq<AuditRecord>, b: seq<AuditRecord>, n: nat)
    requires Chained(sha, instance, a) && n <= |a| && n <= |b| && a[..n] == b[..n]
    ensures forall i :: 0 <= i < n ==> Sound(sha, instance, b, i)
  {
    hide RecomputeHash;
    forall i | 0 <= i < n
      ensures Sound(sha, instance, b, i)
    {
      assert Sound(sha, instance, a, i);
      assert b[i] == b[..n][i] && (i > 0 ==> b[i - 1] == b[..n][i - 1]);
    }
  }

  /**
  A record of a verifying log whose contents are replaced, its number, link and hash kept, is
  reported as edited, at its number; or old and new contents are a hash collision.
  */
  lemma EditIsReported(
    sha: Bytes -> Digest, instance: Bytes, log: seq<AuditRecord>, i: nat, edited: AuditRecord, report: Report)
    requires Chained(sha, instance, log) && i < |log| && Fits(EntryOf(log[i])) && Fits(EntryOf(edited))
    requires edited.number == log[i].number && edited.prev == log[i].prev && edited.hash == log[i].hash
    requires !SameHashed(log[i], edited)
    requires IsReport(sha, instance, log[i := edited], report)
    ensures
      || (report.status == EntryEdited(i + 1) && report.entryCount == i)
      || Collides(sha, HashedAt(instance, log, i + 1), HashedAt(instance, log[i := edited], i + 1))
  {
    hide Canonical, EntryOf, EntryInput, Fits, SameHashed, IsReport, Fault;
    var after := log[i := edited];
    assert Sound(sha, instance, log, i);
    SoundByPrefix(sha, instance, log, after, i);
    if HashedAt(instance, log, i + 1) == HashedAt(instance, after, i + 1) {
      InputsDetermineRecords(log[i], edited);
    } else if !Sound(sha, instance, after, i) {
      ReportStopsAt(sha, instance, after, report, i);
      VerdictMeans(sha, instance, after, report);
    }
  }

  /** A record linked to anything but its predecessor is reported as a broken chain, the first as a wrong genesis. */
  lemma RelinkIsReported(
    sha: Bytes -> Digest, instance: Bytes, log: seq<AuditRecord>, i: nat, relinked: AuditRecord, report: Report)
    requires Chained(sha, instance, log) && i < |log|
    requires relinked.number == log[i].number && relinked.prev != log[i].prev
    requires IsReport(sha, instance, log[i := relinked], report)
    ensures report.entryCount == i
    ensures report.status ==
      if i == 0 then WrongGenesis(log[i].prev, relinked.prev) else ChainBroken(i + 1, log[i].prev, relinked.prev)
  {
    hide Canonical, EntryOf, EntryInput, IsReport, Fault;
    var after := log[i := relinked];
    assert Sound(sha, instance, log, i);
    SoundByPrefix(sha, instance, log, after, i);
    assert i > 0 ==> after[i - 1] == log[i - 1];
    ReportStopsAt(sha, instance, after, report, i);
    VerdictMeans(sha, instance, after, report);
  }

  /** A record of the log in another one's place is reported as a gap, with the number expected there and its own. */
  lemma MisplacementIsReported(
    sha: Bytes -> Digest, instance: Bytes, log: seq<AuditRecord>, after: seq<AuditRecord>, i: nat, j: nat,
    report: Report)
    requires Chained(sha, instance, log) && i < |log| && i < |after| && j < |log| && i != j
    requires after[..i] == log[..i] && after[i] == log[j]
    requires IsReport(sha, instance, after, report)
    ensures report.entryCount == i && report.status == SequenceGap(i + 1, j + 1)
  {
    hide Canonical, EntryOf, EntryInput, IsReport, Fault;
    SoundByPrefix(sha, instance, log, after, i);
    assert Sound(sha, instance, log, j);
    ReportStopsAt(sha, instance, after, report, i);
    VerdictMeans(sha, instance, after, report);
  }

  /** A log that verifies for one instance has a wrong genesis under another's name, or the names are a collision. */
  lemma SubstitutionIsReported(
    sha: Bytes -> Digest, instA: Bytes, instB: Bytes, log: seq<AuditRecord>, report: Report)
    requires Chained(sha, instA, log) && log != [] && instA != instB
    requires IsReport(sha, instB, log, report)
    ensures
      || (report.status == WrongGenesis(Genesis(sha, instB), Genesis(sha, instA)) && report.entryCount == 0)
      || Collides(sha, GenesisInput(instA), GenesisInput(instB))
  {
    hide Canonical, EntryOf, EntryInput, IsReport, Fault, GenesisInput;
    assert Sound(sha, instA, log, 0);
    if GenesisInput(instA) == GenesisInput(instB) {
      GenesisDeterminesInstance(instA, instB);
    } else if Genesis(sha, instA) != Genesis(sha, instB) {
      ReportStopsAt(sha, instB, log, report, 0);
      VerdictMeans(sha, instB, log, report);
    }
  }

  /** Records removed from the middle are reported as a gap; removed from the end, they are not missed. */
  lemma RemovalIsReported(
    sha: Bytes -> Digest, instance: Bytes, log: seq<AuditRecord>, from: nat, to: nat, report: Report)
    requires Chained(sha, instance, log) && from < to <= |log|
    requires IsReport(sha, instance, log[..from] + log[to..], report)
    ensures report.entryCount == from
    ensures report.status == if to < |log| then SequenceGap(from + 1, to + 1) else Intact
  {
    hide Canonical, EntryOf, EntryInput, IsReport, Fault;
    var after := log[..from] + log[to..];
    assert after[..from] == log[..from];
    SoundByPrefix(sha, instance, log, after, from);
    if to < |log| {
      assert after[from] == log[to];
      MisplacementIsReported(sha, instance, log, after, from, to, report);
    } else {
      IntactMeansChained(sha, instance, after, report);
    }
  }

  /** A record slipped in before another is reported where it stands, or else the one after it is. */
  lemma InsertionIsReported(
    sha: Bytes -> Digest, instance: Bytes, log: seq<AuditRecord>, i: nat, inserted: AuditRecord, report: Report)
    requires Chained(sha, instance, log) && i < |log|
    requires IsReport(sha, instance, log[..i] + [inserted] + log[i..], report)
    ensures !report.status.Intact?
    ensures report.entryCount == i || report.status == SequenceGap(i + 2, i + 1)
  {
    hide Canonical, EntryOf, EntryInput, IsReport, Fault;
    var after := log[..i] + [inserted] + log[i..];
    assert after[..i] == log[..i];
    SoundByPrefix(sha, instance, log, after, i);
    assert Sound(sha, instance, log, i) && after[i + 1] == log[i];
    if Sound(sha, instance, after, i) {
      ReportStopsAt(sha, instance, after, report, i + 1);
    } else {
      ReportStopsAt(sha, instance, after, report, i);
    }
    VerdictMeans(sha, instance, after, report);
  }
}
