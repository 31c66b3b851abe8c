/**
External anchors: published heads of the chain, and the comparison that makes a lost tail
or a rewritten prefix visible.
*/
module Anchor {
  import opened Wrappers
  import opened Encoding
  import opened Verify
  import opened Tamper

  datatype AnchorRecord = AnchorRecord(instance: Bytes, entryCount: nat, head: Digest, at: Bytes)

  /** A line of the anchor file. */
  datatype Line = Blank | Unparseable | Published(record: AnchorRecord)

  predicate Readable(lines: seq<Line>) {
    forall i :: 0 <= i < |lines| ==> !lines[i].Unparseable?
  }

  predicate Names(line: Line, instance: Bytes) {
    line.Published? && line.record.instance == instance
  }

  /** `best` is the first of the instance's records with the highest count; None when it has no record. */
  predicate IsLatest(lines: seq<Line>, instance: Bytes, best: Option<AnchorRecord>) {
    match best
    case None => forall i :: 0 <= i < |lines| ==> !Names(lines[i], instance)
    case Some(record) => exists k :: 0 <= k < |lines| && IsBestAt(lines, instance, k, record)
  }

  predicate IsBestAt(lines: seq<Line>, instance: Bytes, k: nat, record: AnchorRecord)
    requires k < |lines|
  {
    && record.instance == instance
    && lines[k] == Published(record)
    && (forall i :: 0 <= i < k && Names(lines[i], instance) ==> lines[i].record.entryCount < record.entryCount)
    && (forall i :: k <= i < |lines| && Names(lines[i], instance) ==> lines[i].record.entryCount <= record.entryCount)
  }

  lemma LatestStep(lines: seq<Line>, instance: Bytes, best: Option<AnchorRecord>, n: nat)
    requires n < |lines| && IsLatest(lines[..n], instance, best)
    ensures
      var supersedes := Names(lines[n], instance) && (best.None? || lines[n].record.entryCount > best.value.entryCount);
      IsLatest(lines[..n + 1], instance, if supersedes then Some(lines[n].record) else best)
  {
    var before, now := lines[..n], lines[..n + 1];
    assert forall i :: 0 <= i < n ==> now[i] == before[i];
    if Names(lines[n], instance) && (best.None? || lines[n].record.entryCount > best.value.entryCount) {
      assert IsBestAt(now, instance, n, lines[n].record);
    } else if best.Some? {
      var k :| 0 <= k < n && IsBestAt(before, instance, k, best.value);
      assert IsBestAt(now, instance, k, best.value);
    }
  }

  /** An append-only file of anchors. */
  class FileAnchor {
    var lines: seq<Line>

    constructor ()
      ensures lines == []
    {
      lines := [];
    }

    method Publish(record: AnchorRecord)
      modifies this
      ensures lines == old(lines) + [Published(record)]
    {
      lines := lines + [Published(record)];
    }

    /** The instance's anchor with the highest count; an unparseable line anywhere is an error. */
    method Latest(instance: Bytes) returns (latest: Result<Option<AnchorRecord>, nat>)
      ensures latest.Success? <==> Readable(lines)
      ensures latest.Success? ==> IsLatest(lines, instance, latest.value)
      ensures latest.Failure? ==>
        latest.error < |lines| && lines[latest.error].Unparseable? && Readable(lines[..latest.error])
    {
      var best: Option<AnchorRecord> := None;
      for i := 0 to |lines|
        invariant Readable(lines[..i])
        invariant IsLatest(lines[..i], instance, best)
      {
        assert lines[..i + 1] == lines[..i] + [lines[i]];
        LatestStep(lines, instance, best, i);
        match lines[i] {
          case Blank =>
          case Unparseable => return Failure(i);
          case Published(record) =>
            if record.instance == instance {
              var supersedes := best.None? || record.entryCount > best.value.entryCount;
              if supersedes {
                best := Some(record);
              }
            }
        }
      }
      assert lines[..|lines|] == lines;
      return Success(best);
    }
  }

  /** Appending to the file never lowers the latest anchor, nor replaces it at the same count. */
  lemma AppendingNeverRollsBack(
    lines: seq<Line>, more: seq<Line>, instance: Bytes, was: AnchorRecord, now: Option<AnchorRecord>)
    requires IsLatest(lines, instance, Some(was)) && IsLatest(lines + more, instance, now)
    ensures now.Some?
    ensures now.value.entryCount > was.entryCount || now.value == was
  {
    var all := lines + more;
    var k :| 0 <= k < |lines| && IsBestAt(lines, instance, k, was);
    assert all[k] == lines[k] && Names(all[k], instance);
    assert now.Some?;
    var m :| 0 <= m < |all| && IsBestAt(all, instance, m, now.value);
    assert Names(all[m], instance);
    if m < |lines| {
      assert all[m] == lines[m];
    }
  }

  /** The file has one latest anchor. */
  lemma LatestIsUnique(lines: seq<Line>, instance: Bytes, a: Option<AnchorRecord>, b: Option<AnchorRecord>)
    requires IsLatest(lines, instance, a) && IsLatest(lines, instance, b)
    ensures a == b
  {
    assert lines + [] == lines;
    if a.Some? {
      AppendingNeverRollsBack(lines, [], instance, a.value, b);
    }
    if b.Some? {
      AppendingNeverRollsBack(lines, [], instance, b.value, a);
    }
  }

  // ---- comparing a log with an anchor ----

  /** The first record numbered `number`. */
  function Find(records: seq<AuditRecord>, number: nat): (found: Option<AuditRecord>)
    ensures found.Some? ==> found.value in records && found.value.number == number
    ensures found.None? ==> forall r :: r in records ==> r.number != number
  {
    if records == [] then None
    else if records[0].number == number then Some(records[0])
    else Find(records[1..], number)
  }

  /** The status once the anchor has been consulted. */
  function AnchoredStatus(records: seq<AuditRecord>, anchored: AnchorRecord, report: Report): ChainStatus {
    if report.entryCount < anchored.entryCount then Truncated(anchored.entryCount, report.entryCount) else
    match Find(records, anchored.entryCount)
    case None => report.status
    case Some(r) =>
      if r.hash == anchored.head then report.status
      else AnchorMismatch(anchored.entryCount, anchored.head, r.hash)
  }

  predicate IsAnchoredReport(records: seq<AuditRecord>, anchored: Option<AnchorRecord>, report: Report, after: Report) {
    after == if anchored.None? then report else report.(status := AnchoredStatus(records, anchored.value, report))
  }

  /** The report after comparison with the latest anchor in the file. */
  ghost predicate IsCheckedReport(
    lines: seq<Line>, instance: Bytes, records: seq<AuditRecord>, report: Report, after: Report) {
    exists best :: IsLatest(lines, instance, best) && IsAnchoredReport(records, best, report, after)
  }

  /** Compare a verified log with the instance's latest anchor; false when the anchors cannot be read. */
  method VerifyAgainstAnchor(records: seq<AuditRecord>, instance: Bytes, anchor: FileAnchor, report: Report)
    returns (after: Report, ok: bool)
    ensures ok <==> Readable(anchor.lines)
    ensures !ok ==> after == report
    ensures ok ==> IsCheckedReport(anchor.lines, instance, records, report, after)
  {
    var latest := anchor.Latest(instance);
    if latest.Failure? {
      return report, false;
    }
    after, ok := report, true;
    if latest.value.Some? {
      var anchored := latest.value.value;
      if report.entryCount < anchored.entryCount {
        after := report.(status := Truncated(anchored.entryCount, report.entryCount));
      } else {
        var atAnchor := Find(records, anchored.entryCount);
        if atAnchor.Some? && atAnchor.value.hash != anchored.head {
          after := report.(status := AnchorMismatch(anchored.entryCount, anchored.head, atAnchor.value.hash));
        }
      }
    }
  }

  /** In a chained log the record numbered `n` is the `n`th; none is numbered zero. */
  lemma FindInChain(sha: Bytes -> Digest, instance: Bytes, records: seq<AuditRecord>, n: nat)
    requires Chained(sha, instance, records) && n <= |records|
    ensures Find(records, n) == if n == 0 then None else Some(records[n - 1])
  {
    hide *;
    NumbersInOrder(sha, instance, records);
    FindNumbered(records, n, 0);
  }

  lemma NumbersInOrder(sha: Bytes -> Digest, instance: Bytes, records: seq<AuditRecord>)
    requires Chained(sha, instance, records)
    ensures forall i :: 0 <= i < |records| ==> records[i].number == i + 1
  {
    forall i | 0 <= i < |records|
      ensures records[i].number == i + 1
    {
      assert Sound(sha, instance, records, i);
    }
  }

  lemma {:induction false} FindNumbered(records: seq<AuditRecord>, n: nat, skipped: nat)
    requires forall i :: 0 <= i < |records| ==> records[i].number == skipped + i + 1
    requires n <= skipped + |records|
    ensures Find(records, n) == if n <= skipped then None else Some(records[n - skipped - 1])
  {
    if records != [] && records[0].number != n {
      FindNumbered(records[1..], n, skipped + 1);
    }
  }

  /** After both checks a log is intact exactly when it verifies, is long enough and has the anchored hash there. */
  lemma AnchorVerdict(
    sha: Bytes -> Digest, instance: Bytes, records: seq<AuditRecord>, report: Report, anchored: AnchorRecord)
    requires IsReport(sha, instance, records, report)
    ensures AnchoredStatus(records, anchored, report).Intact? <==>
      && Chained(sha, instance, records)
      && anchored.entryCount <= |records|
      && (anchored.entryCount > 0 ==> records[anchored.entryCount - 1].hash == anchored.head)
  {
    IntactMeansChained(sha, instance, records, report);
    if Chained(sha, instance, records) && anchored.entryCount <= |records| {
      FindInChain(sha, instance, records, anchored.entryCount);
    }
  }

  /** Record `k` is the first one with this number. */
  predicate FirstNumbered(records: seq<AuditRecord>, n: nat, k: nat) {
    k < |records| && records[k].number == n && forall j :: 0 <= j < k ==> records[j].number != n
  }

  lemma {:induction false} FindIs(records: seq<AuditRecord>, n: nat, k: nat)
    requires FirstNumbered(records, n, k)
    ensures Find(records, n) == Some(records[k])
  {
    if k > 0 {
      assert records[0].number != n;
      FindIs(records[1..], n, k - 1);
    }
  }

  lemma {:induction false} FindFinds(records: seq<AuditRecord>, n: nat) returns (k: nat)
    requires Find(records, n).Some?
    ensures FirstNumbered(records, n, k)
  {
    k := 0;
    if records[0].number != n {
      k := FindFinds(records[1..], n);
      k := k + 1;
    }
  }

  /**
  What the comparison adds to a verdict: a shortfall, with the anchored count and the count
  that verified; else a mismatch exactly when the first record numbered as the anchor is has
  another hash, with the anchor's head first and the log's second; else nothing.
  */
  lemma ComparisonMeans(
    sha: Bytes -> Digest, instance: Bytes, records: seq<AuditRecord>, report: Report, anchored: AnchorRecord)
    requires IsReport(sha, instance, records, report)
    ensures
      var n, status := anchored.entryCount, AnchoredStatus(records, anchored, report);
      && (report.entryCount < n <==> status == Truncated(n, report.entryCount))
      && (forall a: Digest :: status == AnchorMismatch(n, anchored.head, a) <==>
            && n <= report.entryCount && a != anchored.head
            && exists k: nat :: FirstNumbered(records, n, k) && records[k].hash == a)
      && (status.AnchorMismatch? ==> status.anchoredCount == n && status.anchoredHead == anchored.head)
      && (!status.Truncated? && !status.AnchorMismatch? ==> status == report.status)
      && (0 < n <= report.entryCount ==> FirstNumbered(records, n, n - 1))
  {
    hide IsReport, Find, Chained;
    VerdictMeans(sha, instance, records, report);
    var n := anchored.entryCount;
    if Find(records, n).Some? {
      var k := FindFinds(records, n);
      FindIs(records, n, k);
    }
    forall k: nat | FirstNumbered(records, n, k)
      ensures Find(records, n) == Some(records[k])
    {
      FindIs(records, n, k);
    }
    if 0 < n <= report.entryCount {
      SoundPrefixIsNumbered(sha, instance, records, report);
    }
  }

  lemma SoundPrefixIsNumbered(sha: Bytes -> Digest, instance: Bytes, records: seq<AuditRecord>, report: Report)
    requires IsReport(sha, instance, records, report)
    ensures report.entryCount <= |records|
    ensures forall i :: 0 <= i < report.entryCount ==> records[i].number == i + 1
  {
    hide Chained;
    var sound := records[..report.entryCount];
    NumbersInOrder(sha, instance, sound);
    assert forall i :: 0 <= i < report.entryCount ==> records[i] == sound[i];
  }

  /**
  `Truncated` is reported exactly when the chain stops verifying before the anchored count:
  the log is too short, or it is long enough but unsound below the anchor.
  */
  lemma TruncatedMeansShortChain(
    sha: Bytes -> Digest, instance: Bytes, records: seq<AuditRecord>, report: Report, anchored: AnchorRecord)
    requires IsReport(sha, instance, records, report)
    ensures AnchoredStatus(records, anchored, report).Truncated? <==>
      |records| < anchored.entryCount || !Chained(sha, instance, records[..anchored.entryCount])
  {
    PrefixChained(sha, instance, records, report.entryCount);
    if anchored.entryCount <= |records| {
      PrefixChained(sha, instance, records, anchored.entryCount);
    }
    if report.entryCount < |records| {
      assert !Sound(sha, instance, records, report.entryCount);
    }
  }

  /** So a log of full length can be called truncated: one misnumbered record, anchored at count one. */
  lemma FullLengthCalledTruncated(
    sha: Bytes -> Digest, instance: Bytes, r: AuditRecord, report: Report, head: Digest, at: Bytes)
    requires IsReport(sha, instance, [r.(number := 2)], report)
    ensures report.status == SequenceGap(1, 2)
    ensures AnchoredStatus([r.(number := 2)], AnchorRecord(instance, 1, head, at), report) == Truncated(1, 0)
  {
    var records := [r.(number := 2)];
    assert !Sound(sha, instance, records, 0);
    PrefixChained(sha, instance, records, report.entryCount);
    assert report.entryCount == 0;
  }

  /** An anchor tells the truth about a log: its length and its head. */
  predicate Commits(sha: Bytes -> Digest, instance: Bytes, anchored: AnchorRecord, records: seq<AuditRecord>) {
    anchored.entryCount == |records| && anchored.head == HeadAfter(sha, instance, records, |records|)
  }

  /**
  An anchor fixes the prefix: a log still intact after comparison with it begins with exactly
  the anchored log, or the two logs give a hash collision.
  */
  lemma AnchorFixesPrefix(
    sha: Bytes -> Digest, instance: Bytes, anchoredLog: seq<AuditRecord>, anchored: AnchorRecord,
    records: seq<AuditRecord>, report: Report)
    requires Chained(sha, instance, anchoredLog) && Commits(sha, instance, anchored, anchoredLog)
    requires IsReport(sha, instance, records, report) && AnchoredStatus(records, anchored, report).Intact?
    requires Encodable(anchoredLog) && Encodable(records)
    ensures |anchoredLog| <= |records|
    ensures
      match FindCollision(instance, anchoredLog, |anchoredLog|, instance, records, |anchoredLog|)
      case Some((x, y)) => Collides(sha, x, y)
      case None => AgreeUpTo(anchoredLog, records, |anchoredLog|)
  {
    hide AnchoredStatus, IsReport, Encodable, FindCollision, HashedAt, Chained;
    AnchorVerdict(sha, instance, records, report, anchored);
    TamperEvidence(sha, instance, anchoredLog, |anchoredLog|, instance, records, |anchoredLog|);
  }

  /** So the latest anchor in the file fixes the prefix of every log that passes both checks. */
  lemma LatestAnchorFixesPrefix(
    sha: Bytes -> Digest, instance: Bytes, lines: seq<Line>, anchoredLog: seq<AuditRecord>, latest: AnchorRecord,
    records: seq<AuditRecord>, report: Report, after: Report)
    requires IsLatest(lines, instance, Some(latest))
    requires Chained(sha, instance, anchoredLog) && Commits(sha, instance, latest, anchoredLog)
    requires IsReport(sha, instance, records, report)
    requires IsCheckedReport(lines, instance, records, report, after) && after.status.Intact?
    requires Encodable(anchoredLog) && Encodable(records)
    ensures |anchoredLog| <= |records|
    ensures
      match FindCollision(instance, anchoredLog, |anchoredLog|, instance, records, |anchoredLog|)
      case Some((x, y)) => Collides(sha, x, y)
      case None => AgreeUpTo(anchoredLog, records, |anchoredLog|)
  {
    hide AnchoredStatus, IsLatest, IsReport, Encodable, FindCollision, Chained, AgreeUpTo, Commits;
    var best :| IsLatest(lines, instance, best) && IsAnchoredReport(records, best, report, after);
    LatestIsUnique(lines, instance, best, Some(latest));
    AnchorFixesPrefix(sha, instance, anchoredLog, latest, records, report);
  }

  /**
  No other anchor is compared. A log that keeps the hash an earlier anchor names, at the
  count it names, begins with the log that was anchored, or a collision is computed; and a
  log that begins with it keeps that hash. The comparison itself does not ask.
  */
  lemma AnchorIsKeptIffHeadIs(
    sha: Bytes -> Digest, instance: Bytes, anchoredLog: seq<AuditRecord>, anchored: AnchorRecord,
    records: seq<AuditRecord>)
    requires Chained(sha, instance, anchoredLog) && Commits(sha, instance, anchored, anchoredLog)
    requires Chained(sha, instance, records) && |anchoredLog| <= |records|
    requires Encodable(anchoredLog) && Encodable(records)
    ensures HeadAfter(sha, instance, records, |anchoredLog|) == anchored.head ==>
      match FindCollision(instance, anchoredLog, |anchoredLog|, instance, records, |anchoredLog|)
      case Some((x, y)) => Collides(sha, x, y)
      case None => AgreeUpTo(anchoredLog, records, |anchoredLog|)
    ensures AgreeUpTo(anchoredLog, records, |anchoredLog|) ==>
      HeadAfter(sha, instance, records, |anchoredLog|) == anchored.head
  {
    hide Encodable, FindCollision, HashedAt, Chained;
    if HeadAfter(sha, instance, records, |anchoredLog|) == anchored.head {
      TamperEvidence(sha, instance, anchoredLog, |anchoredLog|, instance, records, |anchoredLog|);
    }
  }

  /**
  An anchor appended for a log becomes the one compared exactly if it counts more records
  than the latest did, or repeats it; the log then passes, whatever earlier anchors name.
  */
  lemma OnlyTheLatestIsCompared(
    sha: Bytes -> Digest, instance: Bytes, lines: seq<Line>, was: Option<AnchorRecord>,
    appended: AnchorRecord, records: seq<AuditRecord>, report: Report)
    requires IsLatest(lines, instance, was) && appended.instance == instance
    requires Chained(sha, instance, records) && Commits(sha, instance, appended, records)
    requires IsReport(sha, instance, records, report)
    ensures
      var supersedes := was.None? || appended.entryCount > was.value.entryCount;
      && (IsLatest(lines + [Published(appended)], instance, Some(appended)) <==> supersedes || was.value == appended)
      && (supersedes ==> IsCheckedReport(lines + [Published(appended)], instance, records, report, report))
    ensures report.status.Intact?
  {
    hide Chained, IsReport, Find;
    var all := lines + [Published(appended)];
    assert all[..|lines|] == lines && all[..|lines| + 1] == all;
    LatestStep(all, instance, was, |lines|);
    if was.Some? && IsLatest(all, instance, Some(appended)) {
      AppendingNeverRollsBack(lines, [Published(appended)], instance, was.value, Some(appended));
    }
    IntactMeansChained(sha, instance, records, report);
    AnchorVerdict(sha, instance, records, report, appended);
    assert IsAnchoredReport(records, Some(appended), report, report);
  }
}
