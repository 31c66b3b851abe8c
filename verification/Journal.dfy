/**
The write-ahead journal of one rotation run: its records, its file as a sequence of
lines, and the replay that rebuilds a run from that file.
*/
module JournalFile {
  import opened Wrappers
  import opened Protocol

  type Handle = nat
  type VersionId = nat
  type RunId = nat

  datatype Record =
    | RunStarted(apply: bool)
    | Transition(from: RotationState, event: RotationEvent, to: RotationState)
    | HandleAssigned(handle: Handle)
    | PublicationBaseline(previous: Option<VersionId>)
    | VersionAssigned(previous: Option<VersionId>, written: VersionId)
    | Escalation(hint: RemediationHint)
    | RunFinished(terminal: RotationState)

  datatype JournalEntry = JournalEntry(number: nat, run: RunId, record: Record)

  datatype Line = Blank | Unparseable | Parsed(entry: JournalEntry)

  // ---- what a sequence of records says ----

  /** The state a record sequence has reached. */
  datatype Replayed = Replayed(
    state: RotationState,
    handle: Option<Handle>,
    previous: Option<VersionId>,
    written: Option<VersionId>,
    escalation: Option<RemediationHint>)

  const NOTHING: Replayed := Replayed(Pending, None, None, None, None)

  /** One record; `None` when it does not continue what came before. */
  function Apply(at: Replayed, record: Record): Option<Replayed> {
    match record
    case RunStarted(_) => Some(at)
    case Transition(from, _, to) => if from == at.state then Some(at.(state := to)) else None
    case HandleAssigned(handle) => Some(at.(handle := Some(handle)))
    case PublicationBaseline(previous) => Some(at.(previous := previous))
    case VersionAssigned(previous, written) => Some(at.(previous := previous, written := Some(written)))
    case Escalation(hint) => Some(at.(escalation := Some(hint)))
    case RunFinished(terminal) => if terminal == at.state then Some(at) else None
  }

  function Fold(records: seq<Record>): Option<Replayed> {
    if records == [] then Some(NOTHING) else
    match Fold(records[..|records| - 1])
    case None => None
    case Some(at) => Apply(at, records[|records| - 1])
  }

  lemma FoldSnoc(records: seq<Record>, record: Record)
    ensures Fold(records + [record]) ==
      match Fold(records) { case None => None case Some(at) => Apply(at, record) }
  {
    assert (records + [record])[..|records|] == records;
  }

  /** A journal that replays also replays at every earlier crash point. */
  lemma {:induction false} FoldPrefix(records: seq<Record>, n: nat)
    requires n <= |records| && Fold(records).Some?
    ensures Fold(records[..n]).Some?
    decreases |records|
  {
    if n < |records| {
      var init := records[..|records| - 1];
      FoldPrefix(init, n);
      assert init[..n] == records[..n];
    } else {
      assert records[..n] == records;
    }
  }

  /** The facts a journal accumulates. */
  datatype Fact = StateFact | HandleFact | PreviousFact | WrittenFact | EscalationFact

  predicate Sets(record: Record, fact: Fact) {
    match fact
    case StateFact => record.Transition?
    case HandleFact => record.HandleAssigned?
    case PreviousFact => record.PublicationBaseline? || record.VersionAssigned?
    case WrittenFact => record.VersionAssigned?
    case EscalationFact => record.Escalation?
  }

  /** The replayed fact is the one this record states. */
  predicate Agrees(at: Replayed, fact: Fact, record: Record)
    requires Sets(record, fact)
  {
    match fact
    case StateFact => at.state == record.to
    case HandleFact => at.handle == Some(record.handle)
    case PreviousFact => at.previous == record.previous
    case WrittenFact => at.written == Some(record.written)
    case EscalationFact => at.escalation == Some(record.hint)
  }

  predicate SameFact(a: Replayed, b: Replayed, fact: Fact) {
    match fact
    case StateFact => a.state == b.state
    case HandleFact => a.handle == b.handle
    case PreviousFact => a.previous == b.previous
    case WrittenFact => a.written == b.written
    case EscalationFact => a.escalation == b.escalation
  }

  ghost predicate NoneSets(records: seq<Record>, fact: Fact) {
    forall j :: 0 <= j < |records| ==> !Sets(records[j], fact)
  }

  ghost predicate LastSets(records: seq<Record>, fact: Fact, i: int) {
    && 0 <= i < |records|
    && Sets(records[i], fact)
    && forall j :: i < j < |records| ==> !Sets(records[j], fact)
  }

  lemma ApplySetsFact(at: Replayed, record: Record, fact: Fact)
    requires Apply(at, record).Some?
    ensures
      if Sets(record, fact) then Agrees(Apply(at, record).value, fact, record)
      else SameFact(Apply(at, record).value, at, fact)
  {}

  /**
  Replay reports exactly the last durable fact of each kind, and the initial value of a
  fact the journal never states.
  */
  lemma {:induction false} FoldIsLastFact(records: seq<Record>, fact: Fact)
    requires Fold(records).Some?
    ensures NoneSets(records, fact) ==> SameFact(Fold(records).value, NOTHING, fact)
    ensures forall i :: LastSets(records, fact, i) ==> Agrees(Fold(records).value, fact, records[i])
  {
    if records != [] {
      var init, last := records[..|records| - 1], records[|records| - 1];
      FoldIsLastFact(init, fact);
      ApplySetsFact(Fold(init).value, last, fact);
      forall i | LastSets(records, fact, i)
        ensures Agrees(Fold(records).value, fact, records[i])
      {
        if i < |init| {
          assert LastSets(init, fact, i);
        }
      }
      if NoneSets(records, fact) {
        assert NoneSets(init, fact);
      }
    }
  }

  // ---- replay over the file ----

  datatype ReplayError =
    | MalformedEntry(line: nat)
    | SequenceGap(expected: nat, found: nat)
    | BrokenChain(number: nat, from: RotationState, at: RotationState)
    | FinishedElsewhere(terminal: RotationState, at: RotationState)
    | EmptyJournal

  datatype RecoveredRun = RecoveredRun(
    run: RunId,
    state: RotationState,
    handle: Option<Handle>,
    writtenVersion: Option<VersionId>,
    previousVersion: Option<VersionId>,
    escalation: Option<RemediationHint>,
    lastSeq: nat,
    tornTail: bool)

  /** The entries among the first `n` lines. */
  function Entries(lines: seq<Line>, n: nat): (entries: seq<JournalEntry>)
    requires n <= |lines|
    ensures |entries| <= n
  {
    if n == 0 then [] else
    match lines[n - 1]
    case Parsed(entry) => Entries(lines, n - 1) + [entry]
    case _ => Entries(lines, n - 1)
  }

  function RecordsOf(entries: seq<JournalEntry>): (records: seq<Record>)
    ensures |records| == |entries|
  {
    seq(|entries|, i requires 0 <= i < |entries| => entries[i].record)
  }

  function EntryError(at: Replayed, entry: JournalEntry): Option<ReplayError> {
    match entry.record
    case Transition(from, _, _) =>
      if from != at.state then Some(BrokenChain(entry.number, from, at.state)) else None
    case RunFinished(terminal) =>
      if terminal != at.state then Some(FinishedElsewhere(terminal, at.state)) else None
    case _ => None
  }

  /** What is wrong with line `i`, given that every line before it is fine. */
  function LineError(lines: seq<Line>, i: nat): Option<ReplayError>
    requires i < |lines|
  {
    match lines[i]
    case Blank => None
    case Unparseable => if i + 1 == |lines| then None else Some(MalformedEntry(i + 1))
    case Parsed(entry) =>
      var before := Entries(lines, i);
      if entry.number != |before| + 1 then Some(SequenceGap(|before| + 1, entry.number)) else
      match Fold(RecordsOf(before))
      case None => None
      case Some(at) => EntryError(at, entry)
  }

  ghost predicate CleanUpTo(lines: seq<Line>, n: nat)
    requires n <= |lines|
  {
    forall i :: 0 <= i < n ==> LineError(lines, i) == None
  }

  /** The error of the first bad line at or after `i`. */
  function FirstError(lines: seq<Line>, i: nat): (error: Option<ReplayError>)
    requires i <= |lines|
    ensures error.None? <==> forall j :: i <= j < |lines| ==> LineError(lines, j) == None
    decreases |lines| - i
  {
    if i == |lines| then None
    else if LineError(lines, i).Some? then LineError(lines, i)
    else FirstError(lines, i + 1)
  }

  /** What replay returns for a file. */
  function ReplayOf(lines: seq<Line>): Result<RecoveredRun, ReplayError> {
    var entries := Entries(lines, |lines|);
    match FirstError(lines, 0)
    case Some(error) => Failure(error)
    case None =>
      if entries == [] then Failure(EmptyJournal) else
      match Fold(RecordsOf(entries))
      case None => Failure(EmptyJournal)
      case Some(at) =>
        Success(RecoveredRun(entries[0].run, at.state, at.handle, at.written, at.previous,
                             at.escalation, |entries|, lines[|lines| - 1].Unparseable?))
  }

  lemma RecordsOfSnoc(entries: seq<JournalEntry>, entry: JournalEntry)
    ensures RecordsOf(entries + [entry]) == RecordsOf(entries) + [entry.record]
  {}

  lemma NoErrorMeansApplies(at: Replayed, entry: JournalEntry)
    requires EntryError(at, entry) == None
    ensures Apply(at, entry.record).Some?
  {}

  lemma EntriesStep(lines: seq<Line>, i: nat)
    requires i < |lines|
    ensures Entries(lines, i + 1) ==
      Entries(lines, i) + if lines[i].Parsed? then [lines[i].entry] else []
  {}

  /** A clean line keeps the fold going. */
  lemma {:induction false} CleanLineFolds(lines: seq<Line>, i: nat)
    requires i < |lines| && LineError(lines, i) == None
    requires Fold(RecordsOf(Entries(lines, i))).Some?
    ensures Fold(RecordsOf(Entries(lines, i + 1))).Some?
  {
    EntriesStep(lines, i);
    var before := Entries(lines, i);
    if lines[i].Parsed? {
      NoErrorMeansApplies(Fold(RecordsOf(before)).value, lines[i].entry);
      RecordsOfSnoc(before, lines[i].entry);
      FoldSnoc(RecordsOf(before), lines[i].entry.record);
    } else {
      assert Entries(lines, i + 1) == before;
    }
  }

  lemma {:induction false} CleanFolds(lines: seq<Line>, n: nat)
    requires n <= |lines| && CleanUpTo(lines, n)
    ensures Fold(RecordsOf(Entries(lines, n))).Some?
  {
    if n == 0 {
      assert RecordsOf(Entries(lines, 0)) == [];
    } else {
      CleanFolds(lines, n - 1);
      CleanLineFolds(lines, n - 1);
    }
  }

  lemma {:induction false} FirstErrorAt(lines: seq<Line>, from: nat, i: nat)
    requires from <= i < |lines| && LineError(lines, i).Some?
    requires forall j :: from <= j < i ==> LineError(lines, j) == None
    ensures FirstError(lines, from) == LineError(lines, i)
    decreases i - from
  {
    if from < i {
      FirstErrorAt(lines, from + 1, i);
    }
  }

  lemma NothingRead(lines: seq<Line>)
    ensures Entries(lines, 0) == [] && Fold(RecordsOf(Entries(lines, 0))) == Some(NOTHING)
  {
    assert RecordsOf([]) == [];
  }

  /** What one more line adds to what was read. */
  lemma LineRead(lines: seq<Line>, i: nat)
    requires i < |lines| && Fold(RecordsOf(Entries(lines, i))).Some?
    ensures
      var before, after := Entries(lines, i), Entries(lines, i + 1);
      if lines[i].Parsed? then
        && |after| == |before| + 1 && after[0] == (if before == [] then lines[i].entry else before[0])
        && Fold(RecordsOf(after)) == Apply(Fold(RecordsOf(before)).value, lines[i].entry.record)
      else after == before
  {
    hide Fold, RecordsOf, Apply;
    EntriesStep(lines, i);
    if lines[i].Parsed? {
      RecordsOfSnoc(Entries(lines, i), lines[i].entry);
      FoldSnoc(RecordsOf(Entries(lines, i)), lines[i].entry.record);
    }
  }

  /** Rebuild a run from its journal file. */
  method Replay(lines: seq<Line>) returns (result: Result<RecoveredRun, ReplayError>)
    ensures result == ReplayOf(lines)
  {
    hide Fold, FirstError, RecordsOf, Entries;
    var run: Option<RunId> := None;
    var state := Pending;
    var handle: Option<Handle> := None;
    var writtenVersion: Option<VersionId> := None;
    var previousVersion: Option<VersionId> := None;
    var escalation: Option<RemediationHint> := None;
    var lastSeq := 0;
    var tornTail := false;

    var index := 0;
    NothingRead(lines);
    while index < |lines|
      invariant index <= |lines|
      invariant CleanUpTo(lines, index)
      invariant lastSeq == |Entries(lines, index)|
      invariant run == if lastSeq == 0 then None else Some(Entries(lines, index)[0].run)
      invariant Fold(RecordsOf(Entries(lines, index))) ==
        Some(Replayed(state, handle, previousVersion, writtenVersion, escalation))
      invariant tornTail == (index == |lines| && index > 0 && lines[index - 1].Unparseable?)
    {
      var line := lines[index];
      LineRead(lines, index);
      match line {
        case Blank =>
        case Unparseable =>
          if index + 1 == |lines| {
            tornTail := true;
          } else {
            FirstErrorAt(lines, 0, index);
            return Failure(MalformedEntry(index + 1));
          }
        case Parsed(entry) =>
          if entry.number != lastSeq + 1 {
            FirstErrorAt(lines, 0, index);
            return Failure(SequenceGap(lastSeq + 1, entry.number));
          }
          lastSeq := entry.number;
          if run.None? {
            run := Some(entry.run);
          }
          match entry.record {
            case RunStarted(_) =>
            case Transition(from, _, to) =>
              if from != state {
                FirstErrorAt(lines, 0, index);
                return Failure(BrokenChain(entry.number, from, state));
              }
              state := to;
            case HandleAssigned(h) => handle := Some(h);
            case PublicationBaseline(previous) => previousVersion := previous;
            case VersionAssigned(previous, written) =>
              previousVersion := previous;
              writtenVersion := Some(written);
            case Escalation(hint) => escalation := Some(hint);
            case RunFinished(terminal) =>
              if terminal != state {
                FirstErrorAt(lines, 0, index);
                return Failure(FinishedElsewhere(terminal, state));
              }
          }
      }
      index := index + 1;
    }

    if run.None? {
      return Failure(EmptyJournal);
    }
    return Success(RecoveredRun(run.value, state, handle, writtenVersion, previousVersion,
                                escalation, lastSeq, tornTail));
  }

  // ---- exactness ----

  /** The file an uninterrupted sequence of appends leaves behind. */
  function Lines(run: RunId, records: seq<Record>): (lines: seq<Line>)
    ensures |lines| == |records|
  {
    seq(|records|, i requires 0 <= i < |records| => Parsed(JournalEntry(i + 1, run, records[i])))
  }

  function Recovered(run: RunId, at: Replayed, lastSeq: nat, tornTail: bool): RecoveredRun {
    RecoveredRun(run, at.state, at.handle, at.written, at.previous, at.escalation, lastSeq, tornTail)
  }

  lemma {:induction false} EntriesOfWritten(run: RunId, records: seq<Record>, rest: seq<Line>, n: nat)
    requires n <= |records|
    ensures
      var entries := Entries(Lines(run, records) + rest, n);
      && |entries| == n
      && RecordsOf(entries) == records[..n]
      && forall i :: 0 <= i < n ==> entries[i] == JournalEntry(i + 1, run, records[i])
  {
    if n == 0 {
      assert RecordsOf([]) == records[..0];
    } else {
      EntriesOfWritten(run, records, rest, n - 1);
      assert (Lines(run, records) + rest)[n - 1] == Parsed(JournalEntry(n, run, records[n - 1]));
      assert records[..n] == records[..n - 1] + [records[n - 1]];
    }
  }

  lemma WrittenLineAt(run: RunId, records: seq<Record>, rest: seq<Line>, i: nat)
    requires i < |records|
    ensures
      var lines := Lines(run, records) + rest;
      && lines[i] == Parsed(JournalEntry(i + 1, run, records[i]))
      && |Entries(lines, i)| == i && RecordsOf(Entries(lines, i)) == records[..i]
  {
    hide Entries, RecordsOf;
    EntriesOfWritten(run, records, rest, i);
  }

  lemma AppliesMeansNoError(at: Replayed, entry: JournalEntry)
    ensures Apply(at, entry.record).Some? ==> EntryError(at, entry).None?
  {}

  /** The records before one of a journal that folds do fold, and it applies to what they say. */
  lemma FoldReaches(records: seq<Record>, i: nat)
    requires Fold(records).Some? && i < |records|
    ensures Fold(records[..i]).Some? && Apply(Fold(records[..i]).value, records[i]).Some?
  {
    hide Fold, Apply;
    FoldPrefix(records, i);
    FoldPrefix(records, i + 1);
    assert records[..i + 1] == records[..i] + [records[i]];
    FoldSnoc(records[..i], records[i]);
  }

  lemma WrittenLineIsClean(run: RunId, records: seq<Record>, rest: seq<Line>, i: nat)
    requires Fold(records).Some? && i < |records|
    ensures LineError(Lines(run, records) + rest, i) == None
  {
    hide Fold, Entries, RecordsOf, Lines, Apply, EntryError;
    WrittenLineAt(run, records, rest, i);
    FoldReaches(records, i);
    AppliesMeansNoError(Fold(records[..i]).value, JournalEntry(i + 1, run, records[i]));
  }

  lemma WrittenLinesAreClean(run: RunId, records: seq<Record>, rest: seq<Line>)
    requires Fold(records).Some?
    ensures CleanUpTo(Lines(run, records) + rest, |records|)
  {
    hide LineError, Fold, Lines;
    forall i | 0 <= i < |records|
      ensures LineError(Lines(run, records) + rest, i) == None
    {
      WrittenLineIsClean(run, records, rest, i);
    }
  }

  lemma ReplayWritten(run: RunId, records: seq<Record>, torn: bool)
    requires Fold(records).Some? && records != []
    ensures ReplayOf(Lines(run, records) + if torn then [Unparseable] else []) ==
      Success(Recovered(run, Fold(records).value, |records|, torn))
  {
    var rest := if torn then [Unparseable] else [];
    var lines := Lines(run, records) + rest;
    WrittenLinesAreClean(run, records, rest);
    EntriesOfWritten(run, records, rest, |records|);
    assert records[..|records|] == records;
    assert Entries(lines, |lines|) == Entries(lines, |records|);
    assert forall j :: 0 <= j < |lines| ==> LineError(lines, j) == None;
    assert FirstError(lines, 0) == None;
  }

  /**
  Replay is exact at every crash point: any non-empty prefix of a journal whose records
  fold is accepted, and reports precisely what that prefix says; an unparseable final
  line changes nothing but the torn-tail flag.
  */
  lemma ReplayIsExact(run: RunId, records: seq<Record>, n: nat)
    requires Fold(records).Some? && 0 < n <= |records|
    ensures Fold(records[..n]).Some?
    ensures
      var at := Fold(records[..n]).value;
      && ReplayOf(Lines(run, records[..n])) == Success(Recovered(run, at, n, false))
      && ReplayOf(Lines(run, records[..n]) + [Unparseable]) == Success(Recovered(run, at, n, true))
  {
    FoldPrefix(records, n);
    ReplayWritten(run, records[..n], false);
    ReplayWritten(run, records[..n], true);
    assert Lines(run, records[..n]) + [] == Lines(run, records[..n]);
  }

  lemma {:induction false} FirstErrorExists(lines: seq<Line>, from: nat) returns (i: nat)
    requires from <= |lines| && FirstError(lines, from).Some?
    ensures from <= i < |lines| && LineError(lines, i) == FirstError(lines, from)
    ensures forall j :: from <= j < i ==> LineError(lines, j) == None
    decreases |lines| - from
  {
    if LineError(lines, from).Some? {
      i := from;
    } else {
      i := FirstErrorExists(lines, from + 1);
    }
  }

  // ---- what a good file is, by its own lines ----

  /** The state reached after these entries: where the last transition among them leads. */
  function StateAfter(entries: seq<JournalEntry>): RotationState {
    if entries == [] then Pending
    else if entries[|entries| - 1].record.Transition? then entries[|entries| - 1].record.to
    else StateAfter(entries[..|entries| - 1])
  }

  /** A transition starts, and a run finishes, in the state that was reached. */
  predicate Continues(before: seq<JournalEntry>, record: Record) {
    && (record.Transition? ==> record.from == StateAfter(before))
    && (record.RunFinished? ==> record.terminal == StateAfter(before))
  }

  /** Line `i` is in order: only the last may be unparseable, and an entry is numbered and continues as it should. */
  predicate InOrder(lines: seq<Line>, i: nat)
    requires i < |lines|
  {
    && (lines[i].Unparseable? ==> i + 1 == |lines|)
    && (lines[i].Parsed? ==>
          && lines[i].entry.number == |Entries(lines, i)| + 1
          && Continues(Entries(lines, i), lines[i].entry.record))
  }

  predicate InOrderUpTo(lines: seq<Line>, n: nat)
    requires n <= |lines|
  {
    forall i :: 0 <= i < n ==> InOrder(lines, i)
  }

  lemma {:induction false} FoldReachesState(entries: seq<JournalEntry>)
    requires Fold(RecordsOf(entries)).Some?
    ensures Fold(RecordsOf(entries)).value.state == StateAfter(entries)
  {
    if entries != [] {
      var init := entries[..|entries| - 1];
      assert RecordsOf(entries)[..|entries| - 1] == RecordsOf(init);
      FoldReachesState(init);
    }
  }

  lemma ErrorIffOutOfOrder(lines: seq<Line>, i: nat)
    requires i < |lines| && CleanUpTo(lines, i)
    ensures LineError(lines, i) == None <==> InOrder(lines, i)
  {
    hide Fold, StateAfter, RecordsOf, Entries;
    CleanFolds(lines, i);
    FoldReachesState(Entries(lines, i));
  }

  lemma {:induction false} CleanIffInOrder(lines: seq<Line>, n: nat)
    requires n <= |lines|
    ensures CleanUpTo(lines, n) <==> InOrderUpTo(lines, n)
  {
    hide LineError, InOrder;
    if n > 0 {
      CleanIffInOrder(lines, n - 1);
      if CleanUpTo(lines, n - 1) {
        ErrorIffOutOfOrder(lines, n - 1);
      }
    }
  }

  /** The entries of a file are numbered from one and each continues the ones before. */
  predicate EntriesInOrder(entries: seq<JournalEntry>) {
    forall k :: 0 <= k < |entries| ==> entries[k].number == k + 1 && Continues(entries[..k], entries[k].record)
  }

  /** The entries before a line are the first ones of the file, and the line's own entry comes next. */
  lemma {:induction false} EntriesGrow(lines: seq<Line>, i: nat, n: nat)
    requires i < n <= |lines|
    ensures
      var before, all := Entries(lines, i), Entries(lines, n);
      && before <= all
      && (lines[i].Parsed? ==> |before| < |all| && all[|before|] == lines[i].entry)
    decreases n
  {
    if i + 1 < n {
      EntriesGrow(lines, i, n - 1);
    }
  }

  /** Every entry stands on some line. */
  lemma {:induction false} EntryHasLine(lines: seq<Line>, n: nat, k: nat) returns (i: nat)
    requires n <= |lines| && k < |Entries(lines, n)|
    ensures i < n && lines[i] == Parsed(Entries(lines, n)[k]) && Entries(lines, i) == Entries(lines, n)[..k]
  {
    if lines[n - 1].Parsed? && k + 1 == |Entries(lines, n)| {
      i := n - 1;
    } else {
      i := EntryHasLine(lines, n - 1, k);
      assert Entries(lines, n)[..k] == Entries(lines, n - 1)[..k];
    }
  }

  lemma InOrderIffEntriesAre(lines: seq<Line>)
    ensures InOrderUpTo(lines, |lines|) <==>
      (forall i :: 0 <= i < |lines| - 1 ==> !lines[i].Unparseable?) && EntriesInOrder(Entries(lines, |lines|))
  {
    hide Continues, Entries;
    var all := Entries(lines, |lines|);
    if InOrderUpTo(lines, |lines|) {
      forall i | 0 <= i < |lines| - 1
        ensures !lines[i].Unparseable?
      {
        assert InOrder(lines, i);
      }
      forall k | 0 <= k < |all|
        ensures all[k].number == k + 1 && Continues(all[..k], all[k].record)
      {
        var i := EntryHasLine(lines, |lines|, k);
        assert InOrder(lines, i);
      }
    }
    if (forall i :: 0 <= i < |lines| - 1 ==> !lines[i].Unparseable?) && EntriesInOrder(all) {
      forall i | 0 <= i < |lines|
        ensures InOrder(lines, i)
      {
        EntriesGrow(lines, i, |lines|);
        assert all[..|Entries(lines, i)|] == Entries(lines, i);
      }
    }
  }

  /**
  Replay accepts a file if and only if it has an entry, only its last line is unparseable if
  any is, its entries are numbered one, two, and so on, each transition starts where the one
  before ended, and each finish names the state that was reached.
  */
  lemma ReplayAcceptsIff(lines: seq<Line>)
    ensures ReplayOf(lines).Success? <==>
      && Entries(lines, |lines|) != []
      && (forall i :: 0 <= i < |lines| - 1 ==> !lines[i].Unparseable?)
      && EntriesInOrder(Entries(lines, |lines|))
  {
    hide LineError, InOrder, EntriesInOrder;
    InOrderIffEntriesAre(lines);
    CleanIffInOrder(lines, |lines|);
    if CleanUpTo(lines, |lines|) {
      CleanFolds(lines, |lines|);
    }
  }

  /** Line `i` is the first out of order. */
  predicate FirstOutOfOrder(lines: seq<Line>, i: nat) {
    i < |lines| && InOrderUpTo(lines, i) && !InOrder(lines, i)
  }

  /** The error is a true account of what is wrong with line `i`, the check that comes first named first. */
  predicate Describes(error: ReplayError, lines: seq<Line>, i: nat)
    requires i < |lines|
  {
    var before := Entries(lines, i);
    match error
    case MalformedEntry(line) => lines[i].Unparseable? && line == i + 1
    case SequenceGap(expected, found) =>
      lines[i].Parsed? && expected == |before| + 1 && found == lines[i].entry.number && found != expected
    case BrokenChain(number, from, at) =>
      && lines[i].Parsed? && number == lines[i].entry.number == |before| + 1
      && lines[i].entry.record.Transition? && from == lines[i].entry.record.from
      && at == StateAfter(before) && from != at
    case FinishedElsewhere(terminal, at) =>
      && lines[i].Parsed? && lines[i].entry.number == |before| + 1
      && lines[i].entry.record.RunFinished? && terminal == lines[i].entry.record.terminal
      && at == StateAfter(before) && terminal != at
    case EmptyJournal => false
  }

  lemma ErrorDescribes(lines: seq<Line>, i: nat)
    requires i < |lines| && CleanUpTo(lines, i) && LineError(lines, i).Some?
    ensures Describes(LineError(lines, i).value, lines, i)
  {
    hide Fold, StateAfter, RecordsOf, Entries;
    CleanFolds(lines, i);
    FoldReachesState(Entries(lines, i));
  }

  /**
  Which error a refused file gets: that of the first line out of order, with what was expected
  there and what was found; or, when every line is in order, that there is no entry.
  */
  lemma ReplayErrorIs(lines: seq<Line>)
    requires ReplayOf(lines).Failure?
    ensures forall i :: FirstOutOfOrder(lines, i) ==> Describes(ReplayOf(lines).error, lines, i)
    ensures ReplayOf(lines).error.EmptyJournal? <==> InOrderUpTo(lines, |lines|)
    ensures !ReplayOf(lines).error.EmptyJournal? ==> exists i :: FirstOutOfOrder(lines, i)
  {
    hide LineError, InOrder, Describes, Entries;
    CleanIffInOrder(lines, |lines|);
    if CleanUpTo(lines, |lines|) {
      CleanFolds(lines, |lines|);
    } else {
      var bad := FirstErrorExists(lines, 0);
      CleanIffInOrder(lines, bad);
      ErrorIffOutOfOrder(lines, bad);
      ErrorDescribes(lines, bad);
      assert FirstOutOfOrder(lines, bad);
      DescribedIsNotEmpty(ReplayOf(lines).error, lines, bad);
      forall i | FirstOutOfOrder(lines, i)
        ensures i == bad
      {
        assert InOrderUpTo(lines, bad) && InOrderUpTo(lines, i);
      }
    }
  }

  lemma DescribedIsNotEmpty(error: ReplayError, lines: seq<Line>, i: nat)
    requires i < |lines| && Describes(error, lines, i)
    ensures !error.EmptyJournal?
  {}

  /** What an accepted file is reported as: its first entry's run, its last number, the state reached, its torn tail. */
  lemma ReplayReports(lines: seq<Line>)
    requires ReplayOf(lines).Success?
    ensures
      var entries, run := Entries(lines, |lines|), ReplayOf(lines).value;
      && entries != [] && lines != []
      && run.run == entries[0].run
      && run.lastSeq == entries[|entries| - 1].number == |entries|
      && run.state == StateAfter(entries)
      && (run.tornTail <==> lines[|lines| - 1].Unparseable?)
      && Fold(RecordsOf(entries)) ==
           Some(Replayed(run.state, run.handle, run.previousVersion, run.writtenVersion, run.escalation))
  {
    hide Fold, StateAfter, RecordsOf;
    ReplayAcceptsIff(lines);
    CleanFolds(lines, |lines|);
    FoldReachesState(Entries(lines, |lines|));
  }

  // ---- appending to a file some process may have left mid-line ----

  /**
  The lines after an append. Text is added at the end of the file: on a line of its own
  when the last line is closed by a newline, and otherwise glued to that line, which then
  parses no more.
  */
  function Appended(lines: seq<Line>, closed: bool, entry: JournalEntry): seq<Line> {
    if closed || lines == [] then lines + [Parsed(entry)] else lines[..|lines| - 1] + [Unparseable]
  }

  function AppendedAll(lines: seq<Line>, closed: bool, entries: seq<JournalEntry>): seq<Line>
    decreases |entries|
  {
    if entries == [] then lines else AppendedAll(Appended(lines, closed, entries[0]), true, entries[1..])
  }

  /** The entries a journal numbers on from `start`. */
  function Numbered(run: RunId, start: nat, records: seq<Record>): seq<JournalEntry> {
    seq(|records|, i requires 0 <= i < |records| => JournalEntry(start + i + 1, run, records[i]))
  }

  lemma {:induction false} AppendedAllWhenClosed(lines: seq<Line>, entries: seq<JournalEntry>)
    ensures AppendedAll(lines, true, entries) ==
      lines + seq(|entries|, i requires 0 <= i < |entries| => Parsed(entries[i]))
    decreases |entries|
  {
    if entries != [] {
      AppendedAllWhenClosed(lines + [Parsed(entries[0])], entries[1..]);
    }
  }

  /** On a file that ends in a newline, appending is what it seems. */
  lemma AppendsExtendClosedFiles(run: RunId, records: seq<Record>, more: seq<Record>)
    ensures AppendedAll(Lines(run, records), true, Numbered(run, |records|, more)) == Lines(run, records + more)
  {
    AppendedAllWhenClosed(Lines(run, records), Numbered(run, |records|, more));
  }

  /**
  Reopening does not cut a torn final line off, so appends after it are not durable: the
  first is swallowed by the torn line, and with a second the file is refused. Recovery
  after a torn tail replays if and only if at most one record was appended, and never
  shows any of them.
  */
  lemma AppendsAfterTornTailAreLost(run: RunId, records: seq<Record>, more: seq<Record>)
    requires Fold(records).Some? && records != []
    ensures ReplayOf(AppendedAll(Lines(run, records) + [Unparseable], false, Numbered(run, |records|, more))) ==
      if |more| <= 1 then Success(Recovered(run, Fold(records).value, |records|, true))
      else Failure(MalformedEntry(|records| + 1))
  {
    hide ReplayOf, Fold, Recovered;
    var torn, entries := Lines(run, records) + [Unparseable], Numbered(run, |records|, more);
    ReplayWritten(run, records, true);
    if more != [] {
      assert Appended(torn, false, entries[0]) == torn;
      var rest := seq(|entries| - 1, i requires 0 <= i < |entries| - 1 => Parsed(entries[1..][i]));
      AppendedAllWhenClosed(torn, entries[1..]);
      if |more| > 1 {
        MalformedInTheMiddle(run, records, rest);
      } else {
        assert torn + rest == torn;
      }
    }
  }

  lemma MalformedInTheMiddle(run: RunId, records: seq<Record>, rest: seq<Line>)
    requires Fold(records).Some? && rest != []
    ensures ReplayOf(Lines(run, records) + [Unparseable] + rest) == Failure(MalformedEntry(|records| + 1))
  {
    var lines := Lines(run, records) + [Unparseable] + rest;
    assert lines == Lines(run, records) + ([Unparseable] + rest);
    WrittenLinesAreClean(run, records, [Unparseable] + rest);
    FirstErrorAt(lines, 0, |records|);
  }

  /** The first append after an unterminated record leaves the records before it and a torn line. */
  lemma UnterminatedBecomesTorn(run: RunId, records: seq<Record>, more: seq<Record>)
    requires records != [] && more != []
    ensures
      var rest :=
        seq(|more| - 1, i requires 0 <= i < |more| - 1 => Parsed(JournalEntry(|records| + i + 2, run, more[i + 1])));
      AppendedAll(Lines(run, records), false, Numbered(run, |records|, more)) ==
        Lines(run, records[..|records| - 1]) + [Unparseable] + rest
  {
    var n, entries := |records|, Numbered(run, |records|, more);
    var torn := Lines(run, records[..n - 1]) + [Unparseable];
    assert Lines(run, records)[..n - 1] == Lines(run, records[..n - 1]);
    assert Appended(Lines(run, records), false, entries[0]) == torn;
    AppendedAllWhenClosed(torn, entries[1..]);
  }

  /**
  A complete record missing only its newline is accepted, until the next append destroys
  it: that append shows neither record, and with a further one the file is refused. A file
  of one such record is left without any entry.
  */
  lemma UnterminatedRecordIsUndone(run: RunId, records: seq<Record>, more: seq<Record>)
    requires Fold(records).Some? && records != [] && more != []
    ensures ReplayOf(Lines(run, records)) == Success(Recovered(run, Fold(records).value, |records|, false))
    ensures Fold(records[..|records| - 1]).Some?
    ensures ReplayOf(AppendedAll(Lines(run, records), false, Numbered(run, |records|, more))) ==
      if |more| > 1 then Failure(MalformedEntry(|records|))
      else if |records| == 1 then Failure(EmptyJournal)
      else Success(Recovered(run, Fold(records[..|records| - 1]).value, |records| - 1, true))
  {
    hide ReplayOf, Fold, Recovered, AppendedAll, Numbered;
    var n, before := |records|, Lines(run, records[..|records| - 1]) + [Unparseable];
    ReplayIsExact(run, records, n);
    FoldPrefix(records, n - 1);
    assert records[..n] == records;
    UnterminatedBecomesTorn(run, records, more);
    if |more| > 1 {
      var rest := seq(|more| - 1, i requires 0 <= i < |more| - 1 => Parsed(JournalEntry(n + i + 2, run, more[i + 1])));
      MalformedInTheMiddle(run, records[..n - 1], rest);
    } else if n > 1 {
      ReplayIsExact(run, records, n - 1);
      assert before + [] == before;
    } else {
      NothingButTorn();
      assert before + [] == [Unparseable];
    }
  }

  lemma NothingButTorn()
    ensures ReplayOf([Unparseable]) == Failure(EmptyJournal)
  {
    assert Entries([Unparseable], 0) == [];
  }

  /** How a crash in the middle of an append can leave the end of the file. */
  datatype Tail = Closed | Unterminated | Torn

  function FileWithTail(run: RunId, records: seq<Record>, tail: Tail): seq<Line> {
    Lines(run, records) + if tail.Torn? then [Unparseable] else []
  }

  /**
  Appends after a reopening are durable if and only if the file ended in a newline:
  otherwise any append at all is lost, whatever else it takes with it.
  */
  lemma AppendsAreDurableIffClosed(run: RunId, records: seq<Record>, tail: Tail, more: seq<Record>)
    requires records != [] && Fold(records).Some? && Fold(records + more).Some?
    ensures
      var after := AppendedAll(FileWithTail(run, records, tail), tail.Closed?, Numbered(run, |records|, more));
      var intended := Recovered(run, Fold(records + more).value, |records + more|, tail.Torn?);
      ReplayOf(after) == Success(intended) <==> tail.Closed? || more == []
  {
    hide ReplayOf, Fold;
    var all := records + more;
    assert Lines(run, records) + [] == Lines(run, records);
    if more == [] {
      assert all == records;
      ReplayWritten(run, records, tail.Torn?);
    } else if tail.Closed? {
      AppendsExtendClosedFiles(run, records, more);
      ReplayWritten(run, all, false);
      assert Lines(run, all) + [] == Lines(run, all);
    } else if tail.Torn? {
      AppendsAfterTornTailAreLost(run, records, more);
    } else {
      UnterminatedRecordIsUndone(run, records, more);
    }
  }

  // ---- the journal object ----

  /** The durable file: it outlives every process that writes to it. */
  class File {
    var lines: seq<Line>
    /** Whether the last line ends in a newline. */
    var closed: bool

    constructor ()
      ensures lines == [] && closed
    {
      lines, closed := [], true;
    }
  }

  /** An append-only journal for one run. */
  class Journal {
    const file: File
    const run: RunId
    var lastSeq: nat

    /** The file holds exactly these records, written by this run. */
    ghost predicate Holds(records: seq<Record>)
      reads this, file
    {
      file.lines == Lines(run, records) && file.closed && lastSeq == |records|
    }

    constructor Create(file: File, run: RunId)
      requires file.lines == [] && file.closed
      ensures this.file == file && this.run == run && Holds([])
    {
      this.file, this.run, this.lastSeq := file, run, 0;
    }

    /** Position after the last durable entry of a replayed file. */
    constructor At(file: File, run: RunId, lastSeq: nat)
      ensures this.file == file && this.run == run && this.lastSeq == lastSeq
    {
      this.file, this.run, this.lastSeq := file, run, lastSeq;
    }

    /** Append one record and make it durable; a file that held `records` then holds one more. */
    method Append(record: Record, ghost records: seq<Record>) returns (number: nat)
      modifies this, file
      ensures number == lastSeq == old(lastSeq) + 1
      ensures file.closed
      ensures file.lines == Appended(old(file.lines), old(file.closed), JournalEntry(number, run, record))
      ensures old(Holds(records)) ==> Holds(records + [record])
    {
      lastSeq := lastSeq + 1;
      var entry := JournalEntry(lastSeq, run, record);
      file.lines := Appended(file.lines, file.closed, entry);
      file.closed := true;
      number := lastSeq;
    }
  }

  /**
  Reopen an existing journal, positioned after its last entry. The file is left as it is,
  torn tail included; what recovery learns is exactly what replay returns.
  */
  method Reopen(file: File, run: RunId, ghost records: seq<Record>)
    returns (result: Result<(Journal, RecoveredRun), ReplayError>)
    ensures result.Success? <==> ReplayOf(file.lines).Success?
    ensures result.Failure? ==> result.error == ReplayOf(file.lines).error
    ensures result.Success? ==>
      var (journal, recovered) := result.value;
      && fresh(journal) && journal.file == file && journal.run == run
      && recovered == ReplayOf(file.lines).value && journal.lastSeq == recovered.lastSeq
    ensures file.lines == Lines(run, records) && file.closed && Fold(records).Some? ==>
      && (result.Failure? ==> records == [] && result.error == EmptyJournal)
      && (result.Success? ==>
            && records != [] && result.value.0.Holds(records)
            && result.value.1 == Recovered(run, Fold(records).value, |records|, false))
  {
    if file.lines == Lines(run, records) && Fold(records).Some? && records != [] {
      ReplayIsExact(run, records, |records|);
      assert records[..|records|] == records;
    }
    var replayed := Replay(file.lines);
    if replayed.Failure? {
      return Failure(replayed.error);
    }
    var journal := new Journal.At(file, run, replayed.value.lastSeq);
    return Success((journal, replayed.value));
  }
}
