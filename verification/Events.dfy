/**
The audit vocabulary, and what of each event the hash commits to: a stable kind and an
ordered list of named fields.
*/
module Events {
  import opened Wrappers
  import opened Encoding

  datatype ReadOutcome = ReadSucceeded | ReadFailed | ReadAbandoned

  datatype Confirmation = Confirmation(operator: Bytes, reason: Bytes, ticket: Option<Bytes>)

  datatype AuditEvent =
    | AccessIntent(reference: Bytes, purpose: Bytes)
    | AccessOutcome(intent: nat, outcome: ReadOutcome)
    | CommitTokenMinted(confirmation: Confirmation)
    | RotationTransition(from: Bytes, event: Bytes, to: Bytes)
    | PolicyRefusal(code: Bytes, detail: Bytes)
    | Checkpoint(entryCount: nat, head: Bytes, signature: Option<Bytes>)
    | LogOpened(instance: Bytes, resumedAt: nat)

  datatype Actor = Actor(principal: Bytes, run: Option<Bytes>)

  /** The ASCII codes of a literal. */
  function Ascii(s: string): (bytes: Bytes)
    ensures |bytes| == |s|
    ensures forall i :: 0 <= i < |s| ==> bytes[i] == s[i] as int % 256
  {
    seq(|s|, i requires 0 <= i < |s| => s[i] as int % 256)
  }

  function OrEmpty(text: Option<Bytes>): Bytes {
    match text { case Some(t) => t case None => [] }
  }

  /** The run, or nothing: the encoding cannot tell no run from an empty one. */
  function RunText(actor: Actor): Bytes {
    OrEmpty(actor.run)
  }

  // ---- decimal numbers ----

  function Decimal(n: nat): (digits: Bytes)
    ensures digits != [] && forall i :: 0 <= i < |digits| ==> 48 <= digits[i] < 58
  {
    if n < 10 then [48 + n] else Decimal(n / 10) + [48 + n % 10]
  }

  function DecimalValue(digits: Bytes): int {
    if digits == [] then 0
    else 10 * DecimalValue(digits[..|digits| - 1]) + digits[|digits| - 1] - 48
  }

  lemma {:induction false} DecimalInverts(n: nat)
    ensures DecimalValue(Decimal(n)) == n
  {
    var digits := Decimal(n);
    if n < 10 {
      assert digits[..0] == [];
    } else {
      DecimalInverts(n / 10);
      assert digits[..|digits| - 1] == Decimal(n / 10);
    }
  }

  // ---- kind and fields ----

  function OutcomeName(outcome: ReadOutcome): Bytes {
    match outcome
    case ReadSucceeded => Ascii("Success")
    case ReadFailed => Ascii("Failed")
    case ReadAbandoned => Ascii("Abandoned")
  }

  function Kind(e: AuditEvent): Bytes {
    match e
    case AccessIntent(_, _) => Ascii("access_intent")
    case AccessOutcome(_, _) => Ascii("access_outcome")
    case CommitTokenMinted(_) => Ascii("commit_token_minted")
    case RotationTransition(_, _, _) => Ascii("rotation_transition")
    case PolicyRefusal(_, _) => Ascii("policy_refusal")
    case Checkpoint(_, _, _) => Ascii("checkpoint")
    case LogOpened(_, _) => Ascii("log_opened")
  }

  function Fields(e: AuditEvent): seq<(Bytes, Bytes)> {
    match e
    case AccessIntent(reference, purpose) => [(Ascii("reference"), reference), (Ascii("purpose"), purpose)]
    case AccessOutcome(intent, outcome) =>
      [(Ascii("intent_seq"), Decimal(intent)), (Ascii("outcome"), OutcomeName(outcome))]
    case CommitTokenMinted(confirmation) =>
      [(Ascii("operator"), confirmation.operator), (Ascii("reason"), confirmation.reason),
       (Ascii("ticket"), OrEmpty(confirmation.ticket))]
    case RotationTransition(from, event, to) => [(Ascii("from"), from), (Ascii("event"), event), (Ascii("to"), to)]
    case PolicyRefusal(code, detail) => [(Ascii("code"), code), (Ascii("detail"), detail)]
    case Checkpoint(entryCount, head, _) => [(Ascii("entry_count"), Decimal(entryCount)), (Ascii("head"), head)]
    case LogOpened(instance, resumedAt) => [(Ascii("instance"), instance), (Ascii("resumed_at"), Decimal(resumedAt))]
  }

  /** The event without what the hash does not see: a checkpoint's signature, and whether an empty ticket was given. */
  function Erase(e: AuditEvent): AuditEvent {
    match e
    case CommitTokenMinted(c) => CommitTokenMinted(c.(ticket := Some(OrEmpty(c.ticket))))
    case Checkpoint(entryCount, head, _) => Checkpoint(entryCount, head, None)
    case AccessIntent(_, _) => e
    case AccessOutcome(_, _) => e
    case RotationTransition(_, _, _) => e
    case PolicyRefusal(_, _) => e
    case LogOpened(_, _) => e
  }

  predicate SameVariant(e: AuditEvent, f: AuditEvent) {
    && (e.AccessIntent? <==> f.AccessIntent?)
    && (e.AccessOutcome? <==> f.AccessOutcome?)
    && (e.CommitTokenMinted? <==> f.CommitTokenMinted?)
    && (e.RotationTransition? <==> f.RotationTransition?)
    && (e.PolicyRefusal? <==> f.PolicyRefusal?)
    && (e.Checkpoint? <==> f.Checkpoint?)
  }

  /** No two variants share a kind. */
  lemma KindDeterminesVariant(e: AuditEvent, f: AuditEvent)
    ensures Kind(e) == Kind(f) <==> SameVariant(e, f)
  {
    assert Ascii("commit_token_minted")[0] == 'c' as int % 256;
    assert Ascii("rotation_transition")[0] == 'r' as int % 256;
    assert Ascii("access_outcome")[0] == 'a' as int % 256;
    assert Ascii("policy_refusal")[0] == 'p' as int % 256;
    assert Ascii("checkpoint")[0] == 'c' as int % 256;
    assert Ascii("log_opened")[0] == 'l' as int % 256;
  }

  // ---- reading an event back from its stable names ----

  function OutcomeNamed(name: Bytes): Option<ReadOutcome> {
    if name == Ascii("Success") then Some(ReadSucceeded)
    else if name == Ascii("Failed") then Some(ReadFailed)
    else if name == Ascii("Abandoned") then Some(ReadAbandoned)
    else None
  }

  lemma OutcomeNameInverts(outcome: ReadOutcome)
    ensures OutcomeNamed(OutcomeName(outcome)) == Some(outcome)
  {
    assert |Ascii("Success")| == 7 && |Ascii("Failed")| == 6 && |Ascii("Abandoned")| == 9;
  }

  /** The fields have exactly these names, in this order. */
  predicate Named(fields: seq<(Bytes, Bytes)>, names: seq<string>) {
    |fields| == |names| && forall i :: 0 <= i < |names| ==> fields[i].0 == Ascii(names[i])
  }

  function DecodeOutcome(intent: int, name: Bytes): Option<AuditEvent> {
    var outcome := OutcomeNamed(name);
    if intent >= 0 && outcome.Some? then Some(AccessOutcome(intent, outcome.value)) else None
  }

  /** The event with this kind and these fields, up to what the hash does not see. */
  function DecodeEvent(kind: Bytes, fields: seq<(Bytes, Bytes)>): Option<AuditEvent> {
    if kind == Ascii("access_intent") && Named(fields, ["reference", "purpose"]) then
      Some(AccessIntent(fields[0].1, fields[1].1))
    else if kind == Ascii("access_outcome") && Named(fields, ["intent_seq", "outcome"]) then
      DecodeOutcome(DecimalValue(fields[0].1), fields[1].1)
    else if kind == Ascii("commit_token_minted") && Named(fields, ["operator", "reason", "ticket"]) then
      Some(CommitTokenMinted(Confirmation(fields[0].1, fields[1].1, Some(fields[2].1))))
    else if kind == Ascii("rotation_transition") && Named(fields, ["from", "event", "to"]) then
      Some(RotationTransition(fields[0].1, fields[1].1, fields[2].1))
    else if kind == Ascii("policy_refusal") && Named(fields, ["code", "detail"]) then
      Some(PolicyRefusal(fields[0].1, fields[1].1))
    else if kind == Ascii("checkpoint") && Named(fields, ["entry_count", "head"]) then
      var n := DecimalValue(fields[0].1);
      if n >= 0 then Some(Checkpoint(n, fields[1].1, None)) else None
    else if kind == Ascii("log_opened") && Named(fields, ["instance", "resumed_at"]) then
      var n := DecimalValue(fields[1].1);
      if n >= 0 then Some(LogOpened(fields[0].1, n)) else None
    else None
  }

  /** The kinds, told apart by their lengths and a letter. */
  lemma KindsDiffer()
    ensures |Ascii("access_intent")| == 13 && |Ascii("access_outcome")| == 14 && |Ascii("policy_refusal")| == 14
    ensures |Ascii("commit_token_minted")| == 19 && |Ascii("rotation_transition")| == 19
    ensures |Ascii("checkpoint")| == 10 && |Ascii("log_opened")| == 10
    ensures Ascii("access_outcome")[0] == 97 && Ascii("policy_refusal")[0] == 112
    ensures Ascii("commit_token_minted")[0] == 99 && Ascii("rotation_transition")[0] == 114
    ensures Ascii("checkpoint")[0] == 99 && Ascii("log_opened")[0] == 108
  {}

  /** Kind and fields are stable names: a reader who knows them gets the event back. */
  lemma EventDecodes(e: AuditEvent)
    ensures DecodeEvent(Kind(e), Fields(e)) == Some(Erase(e))
  {
    hide Ascii, OutcomeNamed, DecimalValue, Decimal;
    KindsDiffer();
    match e
    case AccessIntent(_, _) =>
    case AccessOutcome(intent, outcome) =>
      DecimalInverts(intent);
      OutcomeNameInverts(outcome);
    case CommitTokenMinted(_) =>
    case RotationTransition(_, _, _) =>
    case PolicyRefusal(_, _) =>
    case Checkpoint(entryCount, _, _) => DecimalInverts(entryCount);
    case LogOpened(_, resumedAt) => DecimalInverts(resumedAt);
  }

  /** Equal kinds and fields mean equal events, exactly up to what `Erase` removes. */
  lemma HashSeesEventUpToErasure(e: AuditEvent, f: AuditEvent)
    ensures Kind(e) == Kind(f) && Fields(e) == Fields(f) <==> Erase(e) == Erase(f)
  {
    hide Ascii, Decimal, DecodeEvent;
    EventDecodes(e);
    EventDecodes(f);
  }
}
