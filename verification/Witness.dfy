/**
Capability tokens over the audit log: a witness records the intent to read before it
exists and records exactly one outcome when it ends; a commit token is recorded before it
is handed out.
*/
module Witness {
  import opened Wrappers
  import opened Encoding
  import opened Events
  import opened Verify
  import opened Log

  // ---- the core vocabulary, lifted into the log's ----

  datatype CoreEvent =
    | CoreCommitTokenMinted(run: Bytes, confirmation: Confirmation)
    | CoreAccessIntent(run: Bytes, reference: Bytes, purpose: Bytes)
    | CoreAccessOutcome(intent: nat, outcome: ReadOutcome)

  function Lift(e: CoreEvent): AuditEvent {
    match e
    case CoreCommitTokenMinted(_, confirmation) => CommitTokenMinted(confirmation)
    case CoreAccessIntent(_, reference, purpose) => AccessIntent(reference, purpose)
    case CoreAccessOutcome(intent, outcome) => AccessOutcome(intent, outcome)
  }

  /** Who a core event is attributed to: the log's actor, in the event's run when it names one. */
  function Attributed(actor: Actor, e: CoreEvent): Actor {
    match e
    case CoreCommitTokenMinted(run, _) => actor.(run := Some(run))
    case CoreAccessIntent(run, _, _) => actor.(run := Some(run))
    case CoreAccessOutcome(_, _) => actor
  }

  // ---- any number of witnesses on one shared log ----

  datatype Standing = Held | Finished(outcome: ReadOutcome) | Lost

  datatype Token = Token(intent: nat, standing: Standing)

  datatype Readers = Readers(shared: Shared, tokens: seq<Token>)

  datatype Act =
    | Issue(run: Bytes, reference: Bytes, purpose: Bytes, at: Bytes)
    | Complete(token: nat, outcome: ReadOutcome, at: Bytes)
    | Drop(token: nat, at: Bytes)
    | Background(step: Step)

  function Recorded(sha: Bytes -> Digest, signer: Option<(nat, Digest) -> Bytes>, owner: Actor,
                    shared: Shared, e: CoreEvent, at: Bytes): Shared
  {
    Next(sha, signer, shared, Append(Attributed(owner, e), Lift(e), at))
  }

  function Finish(tokens: seq<Token>, k: nat, outcome: ReadOutcome): seq<Token>
    requires k < |tokens|
  {
    tokens[k := tokens[k].(standing := Finished(outcome))]
  }

  /** The process died: nobody holds these witnesses any more. */
  function Lose(tokens: seq<Token>): seq<Token> {
    seq(|tokens|, k requires 0 <= k < |tokens| =>
      if tokens[k].standing.Held? then tokens[k].(standing := Lost) else tokens[k])
  }

  predicate CanFinish(tokens: seq<Token>, k: nat) {
    k < |tokens| && tokens[k].standing.Held?
  }

  /** One act by whichever thread comes next; a witness that is not held can do nothing. */
  function Do(
    sha: Bytes -> Digest, signer: Option<(nat, Digest) -> Bytes>, owner: Actor, s: Readers, act: Act): Readers {
    match act
    case Issue(run, reference, purpose, at) =>
      var shared := Recorded(sha, signer, owner, s.shared, CoreAccessIntent(run, reference, purpose), at);
      Readers(shared, s.tokens + [Token(shared.log.number, Held)])
    case Complete(k, outcome, at) =>
      if !CanFinish(s.tokens, k) then s else
      Readers(Recorded(sha, signer, owner, s.shared, CoreAccessOutcome(s.tokens[k].intent, outcome), at),
              Finish(s.tokens, k, outcome))
    case Drop(k, at) =>
      if !CanFinish(s.tokens, k) then s else
      Readers(Recorded(sha, signer, owner, s.shared, CoreAccessOutcome(s.tokens[k].intent, ReadAbandoned), at),
              Finish(s.tokens, k, ReadAbandoned))
    case Background(step) =>
      Readers(Next(sha, signer, s.shared, step), if step.Reopen? then Lose(s.tokens) else s.tokens)
  }

  function DoAll(
    sha: Bytes -> Digest, signer: Option<(nat, Digest) -> Bytes>, owner: Actor, s: Readers, acts: seq<Act>): Readers
    decreases |acts|
  {
    if acts == [] then s else DoAll(sha, signer, owner, Do(sha, signer, owner, s, acts[0]), acts[1..])
  }

  predicate IsQuiet(e: AuditEvent) {
    !e.AccessIntent? && !e.AccessOutcome?
  }

  predicate QuietAct(act: Act) {
    act.Background? && act.step.Append? ==> IsQuiet(act.step.event)
  }

  /** Intents and outcomes are written by witnesses only. */
  predicate Disciplined(acts: seq<Act>) {
    forall i :: 0 <= i < |acts| ==> QuietAct(acts[i])
  }

  // ---- what the log says about the witnesses ----

  /** Record `j` is the one record after the intent that closes it, with this outcome. */
  predicate ClosedAt(records: seq<AuditRecord>, intent: nat, outcome: ReadOutcome, j: nat) {
    && intent <= j < |records|
    && Closes(records[j], intent) && records[j].event.outcome == outcome
    && forall i :: intent <= i < |records| && i != j ==> !Closes(records[i], intent)
  }

  predicate ClosedOnce(records: seq<AuditRecord>, intent: nat, outcome: ReadOutcome) {
    exists j :: intent <= j < |records| && ClosedAt(records, intent, outcome, j)
  }

  predicate NeverClosed(records: seq<AuditRecord>, intent: nat) {
    forall j :: intent <= j < |records| ==> !Closes(records[j], intent)
  }

  /** A witness's intent is on record, with one later outcome, its own, once finished and none before. */
  predicate OnRecord(records: seq<AuditRecord>, since: nat, t: Token) {
    && since < t.intent <= |records|
    && records[t.intent - 1].event.AccessIntent?
    && if t.standing.Finished? then ClosedOnce(records, t.intent, t.standing.outcome)
       else NeverClosed(records, t.intent)
  }

  predicate Names(tokens: seq<Token>, intent: nat) {
    exists k :: 0 <= k < |tokens| && tokens[k].intent == intent
  }

  predicate Distinct(tokens: seq<Token>) {
    forall k, m :: 0 <= k < m < |tokens| ==> tokens[k].intent != tokens[m].intent
  }

  /** The witnesses account for every intent and outcome written after the first `since` records. */
  predicate Accounted(records: seq<AuditRecord>, since: nat, tokens: seq<Token>) {
    && since <= |records|
    && Distinct(tokens)
    && (forall k :: 0 <= k < |tokens| ==> OnRecord(records, since, tokens[k]))
    && (forall i :: since <= i < |records| && records[i].event.AccessIntent? ==> Names(tokens, i + 1))
    && (forall i :: since <= i < |records| && records[i].event.AccessOutcome? ==>
          Names(tokens, records[i].event.intent))
  }

  lemma QuietRecordAccounted(records: seq<AuditRecord>, r: AuditRecord, since: nat, tokens: seq<Token>)
    requires Accounted(records, since, tokens) && IsQuiet(r.event)
    ensures Accounted(records + [r], since, tokens)
  {
    forall k | 0 <= k < |tokens|
      ensures OnRecord(records + [r], since, tokens[k])
    {
      OtherRecordKept(records, r, since, tokens[k]);
    }
  }

  /** A record that does not close a witness leaves what is known of it. */
  lemma OtherRecordKept(records: seq<AuditRecord>, r: AuditRecord, since: nat, t: Token)
    requires OnRecord(records, since, t) && !Closes(r, t.intent)
    ensures OnRecord(records + [r], since, t)
  {
    var longer := records + [r];
    assert forall i :: 0 <= i < |records| ==> longer[i] == records[i];
    if t.standing.Finished? {
      var j :| t.intent <= j < |records| && ClosedAt(records, t.intent, t.standing.outcome, j);
      assert ClosedAt(longer, t.intent, t.standing.outcome, j);
    }
  }

  lemma IntentAccounted(records: seq<AuditRecord>, r: AuditRecord, since: nat, tokens: seq<Token>)
    requires Accounted(records, since, tokens) && r.event.AccessIntent?
    ensures Accounted(records + [r], since, tokens + [Token(|records| + 1, Held)])
  {
    var longer, more := records + [r], tokens + [Token(|records| + 1, Held)];
    forall k | 0 <= k < |more|
      ensures OnRecord(longer, since, more[k])
    {
      if k < |tokens| {
        OtherRecordKept(records, r, since, tokens[k]);
      }
    }
    StillNamed(tokens, more);
    assert more[|tokens|].intent == |records| + 1;
  }

  lemma StillNamed(tokens: seq<Token>, more: seq<Token>)
    requires |tokens| <= |more| && forall k :: 0 <= k < |tokens| ==> more[k].intent == tokens[k].intent
    ensures forall intent :: Names(tokens, intent) ==> Names(more, intent)
  {
    forall intent | Names(tokens, intent)
      ensures Names(more, intent)
    {
      var k :| 0 <= k < |tokens| && tokens[k].intent == intent;
      assert more[k].intent == intent;
    }
  }

  lemma OutcomeAccounted(records: seq<AuditRecord>, r: AuditRecord, since: nat, tokens: seq<Token>, k: nat)
    requires Accounted(records, since, tokens) && CanFinish(tokens, k) && Closes(r, tokens[k].intent)
    ensures Accounted(records + [r], since, Finish(tokens, k, r.event.outcome))
  {
    var longer, after := records + [r], Finish(tokens, k, r.event.outcome);
    forall m | 0 <= m < |after|
      ensures OnRecord(longer, since, after[m])
    {
      assert tokens[m].intent != tokens[k].intent || m == k;
      if m == k {
        assert ClosedAt(longer, tokens[k].intent, r.event.outcome, |records|);
      } else {
        OtherRecordKept(records, r, since, tokens[m]);
      }
    }
    StillNamed(tokens, after);
    assert Names(tokens, tokens[k].intent);
  }

  lemma LostAccounted(records: seq<AuditRecord>, since: nat, tokens: seq<Token>)
    requires Accounted(records, since, tokens)
    ensures Accounted(records, since, Lose(tokens))
  {
    forall k | 0 <= k < |tokens|
      ensures OnRecord(records, since, Lose(tokens)[k])
    {
      assert OnRecord(records, since, tokens[k]);
    }
    StillNamed(tokens, Lose(tokens));
  }

  lemma OpenedAccounted(
    sha: Bytes -> Digest, log: LogState, actor: Actor, at: Bytes, later: Bytes, since: nat, tokens: seq<Token>)
    requires Accounted(log.records, since, tokens)
    ensures Accounted(Opened(sha, log, actor, at, later).records, since, tokens)
  {
    hide Accounted, Chained, Chain, Canonical, Draft, ToHex, HeadAfter, Due;
    if Chained(sha, log.instance, log.records) {
      var head := HeadAfter(sha, log.instance, log.records, |log.records|);
      var found := LogState(log.instance, log.records, |log.records|, head);
      var first := Write(sha, found, actor, LogOpened(log.instance, |log.records|), at);
      QuietRecordAccounted(log.records, first.records[|log.records|], since, tokens);
      var second := Write(sha, first, actor, CheckpointEvent(first, None), later);
      QuietRecordAccounted(first.records, second.records[|first.records|], since, tokens);
    }
  }

  lemma BackgroundAccounted(sha: Bytes -> Digest, signer: Option<(nat, Digest) -> Bytes>, shared: Shared, step: Step,
                            since: nat, tokens: seq<Token>)
    requires Accounted(shared.log.records, since, tokens) && (step.Append? ==> IsQuiet(step.event))
    ensures Accounted(Next(sha, signer, shared, step).log.records, since, tokens)
  {
    hide Accounted, Chain, Canonical, Draft, ToHex, Opened, Due;
    var records := shared.log.records;
    var after := Next(sha, signer, shared, step).log.records;
    if step.Reopen? {
      OpenedAccounted(sha, shared.log, step.actor, step.at, step.later, since, tokens);
    } else if step.Append? || step.WriteCheckpoint? || shared.owed > 0 {
      QuietRecordAccounted(records, after[|records|], since, tokens);
    }
  }

  lemma DoAccounted(
    sha: Bytes -> Digest, signer: Option<(nat, Digest) -> Bytes>, owner: Actor, s: Readers, act: Act, since: nat)
    requires Accounted(s.shared.log.records, since, s.tokens) && s.shared.log.number == |s.shared.log.records|
    requires QuietAct(act)
    ensures
      var after := Do(sha, signer, owner, s, act);
      Accounted(after.shared.log.records, since, after.tokens)
  {
    hide Accounted, Chain, Canonical, Draft, ToHex, Opened, Due, Lose, Finish;
    var records := s.shared.log.records;
    var after := Do(sha, signer, owner, s, act);
    match act
    case Issue(_, _, _, _) => IntentAccounted(records, after.shared.log.records[|records|], since, s.tokens);
    case Complete(k, _, _) =>
      if CanFinish(s.tokens, k) {
        OutcomeAccounted(records, after.shared.log.records[|records|], since, s.tokens, k);
      }
    case Drop(k, _) =>
      if CanFinish(s.tokens, k) {
        OutcomeAccounted(records, after.shared.log.records[|records|], since, s.tokens, k);
      }
    case Background(step) =>
      BackgroundAccounted(sha, signer, s.shared, step, since, s.tokens);
      LostAccounted(after.shared.log.records, since, s.tokens);
  }

  lemma DoIsCoherent(sha: Bytes -> Digest, signer: Option<(nat, Digest) -> Bytes>, owner: Actor, s: Readers, act: Act)
    requires Coherent(sha, s.shared.log)
    ensures Coherent(sha, Do(sha, signer, owner, s, act).shared.log)
    ensures Do(sha, signer, owner, s, act).shared.log.instance == s.shared.log.instance
    ensures s.shared.log.records <= Do(sha, signer, owner, s, act).shared.log.records
  {
    hide Coherent, Next, HonestCheckpoints, NoForeignCheckpoints;
    match act
    case Issue(run, reference, purpose, at) =>
      var e := CoreAccessIntent(run, reference, purpose);
      NextIsCoherent(sha, signer, s.shared, Append(Attributed(owner, e), Lift(e), at));
    case Complete(k, outcome, at) =>
      if CanFinish(s.tokens, k) {
        NextIsCoherent(sha, signer, s.shared, Append(owner, AccessOutcome(s.tokens[k].intent, outcome), at));
      }
    case Drop(k, at) =>
      if CanFinish(s.tokens, k) {
        NextIsCoherent(sha, signer, s.shared, Append(owner, AccessOutcome(s.tokens[k].intent, ReadAbandoned), at));
      }
    case Background(step) => NextIsCoherent(sha, signer, s.shared, step);
  }

  /** Each witness has one intent on record and, once finished, exactly one later outcome, whatever the interleaving. */
  lemma {:induction false} WitnessesAreAccounted(
    sha: Bytes -> Digest, signer: Option<(nat, Digest) -> Bytes>, owner: Actor, s: Readers, acts: seq<Act>, since: nat)
    requires Coherent(sha, s.shared.log) && Accounted(s.shared.log.records, since, s.tokens) && Disciplined(acts)
    ensures
      var after := DoAll(sha, signer, owner, s, acts);
      && Coherent(sha, after.shared.log)
      && after.shared.log.instance == s.shared.log.instance
      && s.shared.log.records <= after.shared.log.records
      && Accounted(after.shared.log.records, since, after.tokens)
    decreases |acts|
  {
    if acts != [] {
      var next := Do(sha, signer, owner, s, acts[0]);
      assert QuietAct(acts[0]);
      AccountedStep(sha, signer, owner, s, acts[0], since);
      WitnessesAreAccounted(sha, signer, owner, next, acts[1..], since);
    }
  }

  lemma AccountedStep(
    sha: Bytes -> Digest, signer: Option<(nat, Digest) -> Bytes>, owner: Actor, s: Readers, act: Act, since: nat)
    requires Coherent(sha, s.shared.log) && Accounted(s.shared.log.records, since, s.tokens) && QuietAct(act)
    ensures
      var after := Do(sha, signer, owner, s, act);
      && Coherent(sha, after.shared.log)
      && after.shared.log.instance == s.shared.log.instance
      && s.shared.log.records <= after.shared.log.records
      && Accounted(after.shared.log.records, since, after.tokens)
  {
    hide Do, Accounted, Chained, HeadAfter;
    DoIsCoherent(sha, signer, owner, s, act);
    DoAccounted(sha, signer, owner, s, act, since);
  }

  predicate IsUnfinished(t: Token, intent: nat) {
    t.intent == intent && !t.standing.Finished?
  }

  predicate Unfinished(tokens: seq<Token>, intent: nat) {
    exists k :: 0 <= k < |tokens| && IsUnfinished(tokens[k], intent)
  }

  /** A witness not finished has its intent dangling. */
  lemma UnfinishedDangles(records: seq<AuditRecord>, since: nat, tokens: seq<Token>, k: nat)
    requires Accounted(records, since, tokens) && k < |tokens| && !tokens[k].standing.Finished?
    ensures tokens[k].intent > since && Dangling(records, |records|, tokens[k].intent - 1)
  {
    assert OnRecord(records, since, tokens[k]);
  }

  /** A dangling intent written since then belongs to a witness not finished. */
  lemma DanglingIsUnfinished(records: seq<AuditRecord>, since: nat, tokens: seq<Token>, i: nat)
    requires Accounted(records, since, tokens) && since <= i && Dangling(records, |records|, i)
    ensures Unfinished(tokens, i + 1)
  {
    assert Names(tokens, i + 1);
    var k :| 0 <= k < |tokens| && tokens[k].intent == i + 1;
    assert OnRecord(records, since, tokens[k]);
    assert IsUnfinished(tokens[k], i + 1);
  }

  /** What was dangling before stays so: no witness names it. */
  lemma OlderIntentsUntouched(before: seq<AuditRecord>, records: seq<AuditRecord>, tokens: seq<Token>, i: nat)
    requires before <= records && Accounted(records, |before|, tokens) && i < |before|
    ensures Dangling(records, |records|, i) <==> Dangling(before, |before|, i)
  {
    forall j | |before| <= j < |records|
      ensures !Closes(records[j], i + 1)
    {
      if records[j].event.AccessOutcome? {
        assert Names(tokens, records[j].event.intent);
        var k :| 0 <= k < |tokens| && tokens[k].intent == records[j].event.intent;
        assert OnRecord(records, |before|, tokens[k]);
      }
    }
  }

  /** Record `i` dangles exactly if it did before, or is the intent of a witness not finished. */
  lemma DanglingMeansUnfinished(before: seq<AuditRecord>, records: seq<AuditRecord>, tokens: seq<Token>, i: nat)
    requires before <= records && Accounted(records, |before|, tokens)
    ensures Dangling(records, |records|, i) <==> Dangling(before, |before|, i) || Unfinished(tokens, i + 1)
  {
    hide Dangling, Accounted;
    if Unfinished(tokens, i + 1) {
      var k :| 0 <= k < |tokens| && IsUnfinished(tokens[k], i + 1);
      UnfinishedDangles(records, |before|, tokens, k);
    }
    if i < |before| {
      OlderIntentsUntouched(before, records, tokens, i);
    } else {
      NotBeyond(before, i);
      if Dangling(records, |records|, i) {
        DanglingIsUnfinished(records, |before|, tokens, i);
      }
    }
  }

  lemma NotBeyond(records: seq<AuditRecord>, i: nat)
    requires |records| <= i
    ensures !Dangling(records, |records|, i)
  {}

  /**
  The verifier's dangling intents are exactly the witnesses never finished, besides those
  that were dangling before the first of these witnesses was issued.
  */
  lemma DanglingAreTheUnfinished(
    sha: Bytes -> Digest, signer: Option<(nat, Digest) -> Bytes>, owner: Actor, shared: Shared, acts: seq<Act>,
    first: Report, last: Report, n: nat)
    requires Coherent(sha, shared.log) && Disciplined(acts)
    requires IsReport(sha, shared.log.instance, shared.log.records, first)
    requires
      var after := DoAll(sha, signer, owner, Readers(shared, []), acts);
      IsReport(sha, shared.log.instance, after.shared.log.records, last)
    ensures
      var after := DoAll(sha, signer, owner, Readers(shared, []), acts);
      && last.status.Intact?
      && (n in last.danglingIntents <==> n in first.danglingIntents || Unfinished(after.tokens, n))
  {
    hide Coherent, DoAll, IsReport, Dangling, Unfinished;
    var start := Readers(shared, []);
    var after := DoAll(sha, signer, owner, start, acts);
    var before, records := shared.log.records, after.shared.log.records;
    NothingIssued(before);
    WitnessesAreAccounted(sha, signer, owner, start, acts, |before|);
    ReportListsDangling(sha, shared.log, first, n);
    ReportListsDangling(sha, after.shared.log, last, n);
    VerifierAgrees(sha, after.shared.log, last);
    if n > 0 {
      DanglingMeansUnfinished(before, records, after.tokens, n - 1);
    } else {
      NoIntentZero(records, |before|, after.tokens);
    }
  }

  lemma NothingIssued(records: seq<AuditRecord>)
    ensures Accounted(records, |records|, [])
  {}

  lemma NoIntentZero(records: seq<AuditRecord>, since: nat, tokens: seq<Token>)
    requires Accounted(records, since, tokens)
    ensures !Unfinished(tokens, 0)
  {
    forall k | 0 <= k < |tokens|
      ensures !IsUnfinished(tokens[k], 0)
    {
      assert OnRecord(records, since, tokens[k]);
    }
  }

  lemma ReportListsDangling(sha: Bytes -> Digest, log: LogState, report: Report, n: nat)
    requires Coherent(sha, log) && IsReport(sha, log.instance, log.records, report)
    ensures n in report.danglingIntents <==> n > 0 && Dangling(log.records, |log.records|, n - 1)
  {
    VerifierAgrees(sha, log, report);
    if n in report.danglingIntents {
      var k :| 0 <= k < |report.danglingIntents| && report.danglingIntents[k] == n;
    }
    if n > 0 && Dangling(log.records, |log.records|, n - 1) {
      assert n - 1 + 1 in report.danglingIntents;
    }
  }

  // ---- the tokens themselves ----

  /** The record of a core event: its contents, under the run it names, or the log's own actor when it names none. */
  predicate IsRecordOf(r: AuditRecord, e: CoreEvent, owner: Actor, at: Bytes) {
    && r.at == at
    && match e
       case CoreCommitTokenMinted(run, confirmation) =>
         r.event == CommitTokenMinted(confirmation) && r.actor == Actor(owner.principal, Some(run))
       case CoreAccessIntent(run, reference, purpose) =>
         r.event == AccessIntent(reference, purpose) && r.actor == Actor(owner.principal, Some(run))
       case CoreAccessOutcome(intent, outcome) =>
         r.event == AccessOutcome(intent, outcome) && r.actor == owner
  }

  method RecordCore(log: AuditLog, e: CoreEvent, at: Bytes, later: Bytes) returns (n: nat)
    requires log.Valid()
    modifies log`number, log`head, log.file
    ensures log.Valid() && n == old(log.number) + 1
    ensures log.State() == CoreRecorded(log.sha, log.signer, old(log.State()), log.every, log.actor, e, at, later)
    ensures n <= |log.State().records| && IsRecordOf(log.State().records[n - 1], e, log.actor, at)
  {
    var actor := log.actor;
    match e {
      case CoreCommitTokenMinted(run, _) => actor := actor.(run := Some(run));
      case CoreAccessIntent(run, _, _) => actor := actor.(run := Some(run));
      case CoreAccessOutcome(_, _) =>
    }
    n := log.AppendAs(actor, Lift(e), at, later);
  }

  function CoreRecorded(sha: Bytes -> Digest, signer: Option<(nat, Digest) -> Bytes>, log: LogState, every: nat,
                        owner: Actor, e: CoreEvent, at: Bytes, later: Bytes): LogState
  {
    AppendedAlone(sha, signer, Shared(log, every, 0), Attributed(owner, e), Lift(e), at, owner, later).log
  }

  /** Permission for one read, and the duty to record how it ended. */
  class ReadWitness {
    const log: AuditLog
    const intent: nat
    var completed: bool

    constructor (log: AuditLog, intent: nat)
      ensures this.log == log && this.intent == intent && !completed
    {
      this.log, this.intent, this.completed := log, intent, false;
    }

    /** Record how the read ended; the witness is used up. */
    method Complete(outcome: ReadOutcome, at: Bytes, later: Bytes)
      requires log.Valid() && !completed
      modifies this, log`number, log`head, log.file
      ensures completed && log.Valid()
      ensures log.State() ==
        CoreRecorded(log.sha, log.signer, old(log.State()), log.every, log.actor,
                     CoreAccessOutcome(intent, outcome), at, later)
      ensures old(log.number) < |log.State().records|
      ensures IsRecordOf(log.State().records[old(log.number)], CoreAccessOutcome(intent, outcome), log.actor, at)
    {
      completed := true;
      var _ := RecordCore(log, CoreAccessOutcome(intent, outcome), at, later);
      Drop(at, later);
    }

    /** The witness goes out of scope: an unfinished read is recorded as abandoned, a finished one not again. */
    method Drop(at: Bytes, later: Bytes)
      requires log.Valid()
      modifies log`number, log`head, log.file
      ensures log.Valid()
      ensures log.State() == if completed then old(log.State()) else
        CoreRecorded(log.sha, log.signer, old(log.State()), log.every, log.actor,
                     CoreAccessOutcome(intent, ReadAbandoned), at, later)
      ensures !completed ==>
        && old(log.number) < |log.State().records|
        && IsRecordOf(log.State().records[old(log.number)], CoreAccessOutcome(intent, ReadAbandoned), log.actor, at)
    {
      if !completed {
        var _ := RecordCore(log, CoreAccessOutcome(intent, ReadAbandoned), at, later);
      }
    }
  }

  /** Record the intent, then hand out the witness. */
  method IssueWitness(log: AuditLog, run: Bytes, reference: Bytes, purpose: Bytes, at: Bytes, later: Bytes)
    returns (token: ReadWitness)
    requires log.Valid()
    modifies log`number, log`head, log.file
    ensures log.Valid() && fresh(token) && token.log == log && !token.completed
    ensures log.State() ==
      CoreRecorded(log.sha, log.signer, old(log.State()), log.every, log.actor,
                   CoreAccessIntent(run, reference, purpose), at, later)
    ensures token.intent == old(log.number) + 1 <= |log.State().records|
    ensures IsRecordOf(log.State().records[token.intent - 1], CoreAccessIntent(run, reference, purpose), log.actor, at)
  {
    var n := RecordCore(log, CoreAccessIntent(run, reference, purpose), at, later);
    token := new ReadWitness(log, n);
  }

  datatype ExecutionMode = DryRun | Apply(confirmation: Confirmation)

  datatype CommitToken = CommitToken(run: Bytes, mintedAt: nat)

  /** Authority to change the world: none in a dry run, and never without a record made first. */
  method MintCommitToken(mode: ExecutionMode, log: AuditLog, run: Bytes, at: Bytes, later: Bytes)
    returns (token: Option<CommitToken>)
    requires log.Valid()
    modifies log`number, log`head, log.file
    ensures log.Valid()
    ensures mode.DryRun? ==> token.None? && log.State() == old(log.State())
    ensures mode.Apply? ==>
      && token == Some(CommitToken(run, old(log.number) + 1))
      && log.State() == CoreRecorded(log.sha, log.signer, old(log.State()), log.every, log.actor,
                                     CoreCommitTokenMinted(run, mode.confirmation), at, later)
      && old(log.number) < |log.State().records|
      && IsRecordOf(log.State().records[old(log.number)],
                    CoreCommitTokenMinted(run, mode.confirmation), log.actor, at)
  {
    match mode {
      case DryRun => token := None;
      case Apply(confirmation) =>
        var n := RecordCore(log, CoreCommitTokenMinted(run, confirmation), at, later);
        token := Some(CommitToken(run, n));
    }
  }
}
