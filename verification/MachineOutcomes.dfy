/**
Where processes end: what kills one, where each failed call leads, and where a recovery
leads from what the journal says and the world is.
*/
module MachineOutcomes {
  import opened Wrappers
  import opened Protocol
  import opened JournalFile
  import opened Machine
  import opened MachineInvariant
  import opened MachineSafety
  import opened MachineRefinement
  import opened MachineProgress
  import opened MachineTheorems

  // ---- what kills a process ----

  /** The state is in the middle of a call, and has what the call needs. */
  predicate Calls(state: RotationState, ctx: RunContext) {
    || state.Provisioning? || state.Publishing?
    || (state.Verifying? && ctx.newValue.Some?)
    || ((state.Draining? || state.Revoking?) && ctx.oldHandle.Some?)
    || (state.RestoringPublication? && ctx.previousVersion.Some?)
    || ((state.ReverseDraining? || state.RevokingNew?) && ctx.newHandle.Some?)
  }

  /**
  The reply answers what the process is waiting for: a call, which may fail, or a durable
  write, which may not. A process that is done, and a dry run once it is on record, wait for none.
  */
  predicate Fitting(s: Sys, reply: Reply)
    requires s.process.Up?
  {
    match s.process.pc
    case Begin(apply) => reply.Ok? && apply
    case Head(Provisioning) => reply.Created? || reply.ErrCreated? || reply.Err?
    case Head(state) => reply.Ok? || (reply.Err? && Calls(state, s.process.ctx))
    case Stage(_) => reply.Ok? || reply.Err?
    case Promote(_) => reply.Ok? || reply.Err?
    case Done(_) => false
    case _ => reply.Ok?
  }

  lemma CallDiesIff(cfg: Config, s: Sys, reply: Reply)
    requires s.process.Up? && s.process.pc.Head? && !s.process.pc.state.IsTerminal() && !reply.Crash?
    requires ImmediateEvent(s.process.pc.state, s.process.ctx).None?
    ensures CallStep(cfg, s, s.process.pc.state, reply).process.Down? <==> !Fitting(s, reply)
  {}

  lemma ImmediateMeansNoCall(state: RotationState, ctx: RunContext)
    requires ImmediateEvent(state, ctx).Some?
    ensures !Calls(state, ctx) && !state.Provisioning?
  {}

  lemma HeadDiesIff(cfg: Config, inc: Handle, s: Sys, reply: Reply)
    requires Claims(cfg, inc, s) && s.process.Up? && s.process.pc == Head(s.said.state) && !reply.Crash?
    ensures HeadStep(cfg, s, s.said.state, reply).process.Down? <==> !Fitting(s, reply)
  {
    hide Claims, Reconcile, HintFor, CallStep, ImmediateEvent;
    var state := s.said.state;
    var immediate := ImmediateEvent(state, s.process.ctx);
    if !state.IsTerminal() {
      if immediate.Some? {
        ImmediateHolds(cfg, inc, s, immediate.value);
        ImmediateMeansNoCall(state, s.process.ctx);
      } else {
        CallDiesIff(cfg, s, reply);
      }
    }
  }

  lemma DurableDiesIff(cfg: Config, inc: Handle, s: Sys)
    requires Claims(cfg, inc, s) && s.process.Up? && !s.process.pc.Head?
    requires !s.process.pc.Stage? && !s.process.pc.Promote?
    ensures DurableStep(cfg, s).process.Down? <==> s.process.pc == Begin(false) || Finished(s)
  {
    hide StateFacts, HeadFacts, Reconcile, HintFor;
  }

  lemma StepDiesIff(cfg: Config, inc: Handle, s: Sys, reply: Reply)
    requires Claims(cfg, inc, s) && s.process.Up?
    ensures Advance(cfg, s, reply).process.Down? <==> !Fitting(s, reply)
  {
    hide Claims, HeadStep, DurableStep, Calls;
    if s.process.pc.Head? && !reply.Crash? {
      HeadIsWhereSaid(cfg, inc, s);
      HeadDiesIff(cfg, inc, s, reply);
    } else if !s.process.pc.Stage? && !s.process.pc.Promote? && !reply.Crash? {
      DurableDiesIff(cfg, inc, s);
    }
  }

  lemma HeadIsWhereSaid(cfg: Config, inc: Handle, s: Sys)
    requires Claims(cfg, inc, s) && s.process.Up? && s.process.pc.Head?
    ensures s.process.pc == Head(s.said.state)
  {
    hide StateFacts, HeadFacts;
  }

  /**
  On every run, a living process goes down exactly if the reply is not one it is waiting for:
  no failure of a call ends a process.
  */
  lemma DiesIffUnfitting(
    cfg: Config, inc: Handle, world: World, apply: bool, replies: seq<Reply>, s: Sys, reply: Reply)
    requires Reaches(cfg, inc, world, apply, replies, s) && s.process.Up?
    ensures Advance(cfg, s, reply).process.Down? <==> !Fitting(s, reply)
  {
    hide Run, Advance, Claims, Fitting, HistoryInvariant, GhostInvariant, RecordsFacts;
    RunHoldsEverything(cfg, inc, world, apply, replies);
    StepDiesIff(cfg, inc, s, reply);
  }

  /** Reply `i` of a run met a living process that was not waiting for it. */
  ghost predicate UnfittingAt(cfg: Config, world: World, apply: bool, replies: seq<Reply>, i: nat)
    requires i < |replies|
  {
    var s := Run(cfg, Start(cfg, world, apply), replies[..i]);
    s.process.Up? && !Fitting(s, replies[i])
  }

  ghost predicate Interrupted(cfg: Config, world: World, apply: bool, replies: seq<Reply>) {
    exists i :: 0 <= i < |replies| && UnfittingAt(cfg, world, apply, replies, i)
  }

  /** A run that is down was interrupted: some reply was not one its process was waiting for. */
  lemma {:induction false} DownMeansInterrupted(
    cfg: Config, inc: Handle, world: World, apply: bool, replies: seq<Reply>)
    requires StartingWorld(cfg, inc, world) && AllHonest(inc, replies)
    requires Run(cfg, Start(cfg, world, apply), replies).process.Down?
    ensures Interrupted(cfg, world, apply, replies)
    decreases |replies|
  {
    hide Advance, Fitting, StartingWorld;
    if replies != [] {
      var n, before := |replies| - 1, replies[..|replies| - 1];
      var s := Run(cfg, Start(cfg, world, apply), before);
      if s.process.Down? {
        DownMeansInterrupted(cfg, inc, world, apply, before);
        var i :| 0 <= i < |before| && UnfittingAt(cfg, world, apply, before, i);
        assert before[..i] == replies[..i];
        assert UnfittingAt(cfg, world, apply, replies, i);
      } else {
        DiesIffUnfitting(cfg, inc, world, apply, before, s, replies[n]);
        assert UnfittingAt(cfg, world, apply, replies, n);
      }
    }
  }

  /** Every reply up to the end of the process is one it is waiting for. */
  ghost predicate AllFit(cfg: Config, s: Sys, replies: seq<Reply>)
    decreases |replies|
  {
    replies == [] || Finished(s) ||
    (s.process.Up? && Fitting(s, replies[0]) && AllFit(cfg, Advance(cfg, s, replies[0]), replies[1..]))
  }

  lemma {:induction false} FittingStepsFinish(cfg: Config, inc: Handle, s: Sys, replies: seq<Reply>) returns (k: nat)
    requires Invariant(cfg, inc, s) && s.process.Up? && AllHonest(inc, replies)
    requires AllFit(cfg, s, replies) && |replies| >= Measure(s)
    ensures k <= |replies| && Finished(Run(cfg, s, replies[..k]))
    decreases Measure(s)
  {
    hide Advance, Measure, RecordsFacts, Claims, Fitting;
    if Finished(s) {
      k := 0;
    } else {
      LifeCosts(s);
      StepDescends(cfg, inc, s, replies[0]);
      StepDiesIff(cfg, inc, s, replies[0]);
      AdvanceKeepsInvariant(cfg, inc, s, replies[0]);
      var j := FittingStepsFinish(cfg, inc, Advance(cfg, s, replies[0]), replies[1..]);
      k := j + 1;
      RunCons(cfg, s, replies[0], replies[1..][..j]);
      assert replies[..k] == [replies[0]] + replies[1..][..j];
    }
  }

  lemma LifeIsShort(s: Sys)
    ensures Measure(s) <= 90
  {}

  /** So a process whose calls all return, with whatever result, reaches a terminal state and says so. */
  lemma FittingRepliesFinish(
    cfg: Config, inc: Handle, world: World, apply: bool, replies: seq<Reply>, s: Sys, more: seq<Reply>)
    returns (k: nat)
    requires Reaches(cfg, inc, world, apply, replies, s) && s.process.Up?
    requires AllHonest(inc, more) && AllFit(cfg, s, more) && |more| >= 90
    ensures k <= |more| && Finished(Run(cfg, s, more[..k]))
  {
    hide Run, Advance, Claims, AllFit, HistoryInvariant, GhostInvariant, RecordsFacts, Measure;
    RunHoldsEverything(cfg, inc, world, apply, replies);
    LifeIsShort(s);
    k := FittingStepsFinish(cfg, inc, s, more);
  }

  // ---- where each failed call leads ----

  /** The call the process is in the middle of fails. */
  predicate CallFails(s: Sys, reply: Reply) {
    && s.process.Up? && (s.process.pc.Head? || s.process.pc.Stage? || s.process.pc.Promote?)
    && (reply.Err? || reply.ErrCreated?) && Fitting(s, reply)
  }

  /** What the operator is told when a call that must not be repeated blindly has failed. */
  function GuidanceFor(state: RotationState): Option<RemediationHint> {
    match state
    case Draining => Some(DrainTimeoutHint)
    case Revoking => Some(RevokeFailedHint)
    case RestoringPublication => Some(RestoreFailedHint)
    case ReverseDraining => Some(ReverseDrainTimeoutHint)
    case RevokingNew => Some(RevokeNewFailedHint)
    case _ => None
  }

  /** The process stops for the operator, and the journal says with which guidance. */
  ghost predicate StopsWith(cfg: Config, s: Sys, replies: seq<Reply>, hint: RemediationHint) {
    exists k :: 0 <= k <= |replies| && IsStopped(Run(cfg, s, replies[..k]), hint)
  }

  predicate IsStopped(s: Sys, hint: RemediationHint) {
    IsDone(s, NeedsOperator) && s.said.escalation == Some(hint)
  }

  /** After a failed call the process stands where it will record the failure. */
  lemma HeadFailureIsDelivered(cfg: Config, s: Sys, reply: Reply)
    requires CallFails(s, reply) && s.process.pc.Head?
    ensures
      var s', state := Advance(cfg, s, reply), s.process.pc.state;
      && s'.process.Up? && s'.said == s.said && state.IsInFlight()
      && s'.process.pc == Deliver(state, FailureOf(state))
  {
    hide EverVerified, DurableStep, RecoverStep, StageStep, PromoteStep, GhostOf;
  }

  lemma WriteFailureIsDelivered(cfg: Config, s: Sys, reply: Reply)
    requires CallFails(s, reply) && !s.process.pc.Head?
    ensures
      var s' := Advance(cfg, s, reply);
      s'.process.Up? && s'.said == s.said && s'.process.pc == Deliver(Publishing, FailureOf(Publishing))
  {
    hide EverVerified, DurableStep, RecoverStep, HeadStep, GhostOf;
  }

  function FailureOf(state: RotationState): RotationEvent {
    match state
    case Provisioning => ProvisionFailed
    case Verifying => VerifyFailed
    case Publishing => PublishFailed
    case Draining => DrainTimeout
    case Revoking => RevokeFailed
    case RestoringPublication => RestoreFailed
    case ReverseDraining => ReverseDrainTimeout
    case _ => RevokeNewFailed
  }

  lemma FailureMeans(state: RotationState)
    requires state.IsInFlight()
    ensures HintFor(state, FailureOf(state)) == GuidanceFor(state)
    ensures Next(state, FailureOf(state)) == Some(
      match state
      case Provisioning => RevokingNew
      case Verifying => RevokingNew
      case Publishing => RestoringPublication
      case _ => NeedsOperator)
  {}

  lemma WritesWhilePublishing(cfg: Config, inc: Handle, s: Sys)
    requires Claims(cfg, inc, s) && s.process.Up?
    ensures s.process.pc.Head? ==> s.process.pc.state == s.said.state
    ensures s.process.pc.Stage? || s.process.pc.Promote? ==> s.said.state.Publishing?
  {
    hide StateFacts, HeadFacts;
  }

  /** After a failed call the process stands where it will record the failure. */
  lemma FailureIsDelivered(cfg: Config, inc: Handle, s: Sys, reply: Reply)
    requires Claims(cfg, inc, s) && CallFails(s, reply)
    ensures
      var s', state := Advance(cfg, s, reply), s.said.state;
      && s'.process.Up? && s'.said == s.said && state.IsInFlight()
      && s'.process.pc == Deliver(state, FailureOf(state))
  {
    hide Claims, Advance, Fitting;
    WritesWhilePublishing(cfg, inc, s);
    if s.process.pc.Head? {
      HeadFailureIsDelivered(cfg, s, reply);
    } else {
      WriteFailureIsDelivered(cfg, s, reply);
    }
  }

  lemma DeliveredFailure(cfg: Config, s: Sys)
    requires s.process.Up? && s.process.pc.Deliver? && s.process.pc.from == s.said.state
    requires Next(s.said.state, s.process.pc.event).Some? && HintFor(s.said.state, s.process.pc.event).None?
    ensures
      var s', to := Advance(cfg, s, Ok), Next(s.said.state, s.process.pc.event).value;
      s'.process.Up? && s'.said.state == to && s'.process.pc == Head(to)
  {
    hide Next, HintFor, GhostOf;
  }

  lemma FailureRollsBack(cfg: Config, inc: Handle, s: Sys, replies: seq<Reply>)
    requires Invariant(cfg, inc, s) && s.process.Up? && s.process.pc.Deliver? && s.process.pc.from == s.said.state
    requires HintFor(s.said.state, s.process.pc.event).None?
    requires Next(s.said.state, s.process.pc.event) in {Some(RevokingNew), Some(RestoringPublication)}
    requires AllHonest(inc, replies) && AllSucceed(cfg, s, replies) && |replies| >= Measure(s)
    ensures EndsAt(cfg, s, replies, RolledBack)
  {
    hide Run, EndsAt, Measure, HintFor, Next, Advance, Invariant;
    LifeCosts(s);
    var next := Advance(cfg, s, replies[0]);
    DeliveredFailure(cfg, s);
    InvariantClaims(cfg, inc, s);
    StepDescends(cfg, inc, s, replies[0]);
    AdvanceKeepsInvariant(cfg, inc, s, replies[0]);
    HeadEnds(cfg, inc, next, replies[1..]);
    EndsLater(cfg, s, replies, RolledBack);
  }

  lemma InvariantClaims(cfg: Config, inc: Handle, s: Sys)
    requires Invariant(cfg, inc, s)
    ensures Claims(cfg, inc, s)
  {}

  lemma StopTakesThree(cfg: Config, s: Sys, hint: RemediationHint)
    requires s.process.Up? && s.process.pc.Deliver? && s.process.pc.from == s.said.state
    requires Next(s.said.state, s.process.pc.event) == Some(NeedsOperator)
    requires HintFor(s.said.state, s.process.pc.event) == Some(hint)
    ensures
      var told := Advance(cfg, s, Ok);
      var stopped := Advance(cfg, told, Ok);
      && told.process.Up? && told.process.pc == Commit(s.said.state, s.process.pc.event)
      && stopped.process.Up? && stopped.process.pc == Head(NeedsOperator)
      && IsStopped(Advance(cfg, stopped, Ok), hint)
  {
    hide Next, HintFor, GhostOf;
  }

  lemma FailureStops(cfg: Config, s: Sys, replies: seq<Reply>, hint: RemediationHint)
    requires s.process.Up? && s.process.pc.Deliver? && s.process.pc.from == s.said.state
    requires Next(s.said.state, s.process.pc.event) == Some(NeedsOperator)
    requires HintFor(s.said.state, s.process.pc.event) == Some(hint)
    requires AllSucceed(cfg, s, replies) && |replies| >= 3
    ensures StopsWith(cfg, s, replies, hint)
  {
    hide Advance, Run, Next, HintFor;
    StopTakesThree(cfg, s, hint);
    var told := Advance(cfg, s, Ok);
    var stopped := Advance(cfg, told, Ok);
    var rest := replies[1..];
    assert AllSucceed(cfg, told, rest) && AllSucceed(cfg, stopped, rest[1..]);
    assert replies[0] == Ok && rest[0] == Ok && rest[1..][0] == Ok;
    var end := [Ok, Ok, Ok];
    assert replies[..3] == end;
    RunSnoc(cfg, s, [], Ok);
    RunSnoc(cfg, s, [Ok], Ok);
    RunSnoc(cfg, s, [Ok, Ok], Ok);
    assert [] + [Ok] == [Ok] && [Ok] + [Ok] == [Ok, Ok] && [Ok, Ok] + [Ok] == end;
    RunOfNothing(cfg, s);
    assert IsStopped(Run(cfg, s, replies[..3]), hint);
  }

  lemma RunOfNothing(cfg: Config, s: Sys)
    ensures Run(cfg, s, []) == s
  {}

  lemma StopsLater(cfg: Config, s: Sys, replies: seq<Reply>, hint: RemediationHint)
    requires replies != [] && StopsWith(cfg, Advance(cfg, s, replies[0]), replies[1..], hint)
    ensures StopsWith(cfg, s, replies, hint)
  {
    hide Advance, IsStopped;
    var rest := replies[1..];
    var j :| 0 <= j <= |rest| && IsStopped(Run(cfg, Advance(cfg, s, replies[0]), rest[..j]), hint);
    RunCons(cfg, s, replies[0], rest[..j]);
    assert replies[..j + 1] == [replies[0]] + rest[..j];
    assert IsStopped(Run(cfg, s, replies[..j + 1]), hint);
  }

  /**
  Where each failed call leads when everything after it succeeds, on every run. A failed
  provision or verification, and a failed baseline read, stage or promote, is compensated:
  the run ends rolled back. A failed drain, revoke, restore or reverse drain stops for the
  operator, with guidance of its own.
  */
  lemma FailedCallsEnd(
    cfg: Config, inc: Handle, world: World, apply: bool, replies: seq<Reply>, s: Sys, more: seq<Reply>)
    requires Reaches(cfg, inc, world, apply, replies, s)
    requires AllHonest(inc, more) && |more| >= 91 && CallFails(s, more[0])
    requires AllSucceed(cfg, Advance(cfg, s, more[0]), more[1..])
    ensures s.said.state in {Provisioning, Verifying, Publishing} ==> EndsAt(cfg, s, more, RolledBack)
    ensures s.said.state.Draining? ==> StopsWith(cfg, s, more, DrainTimeoutHint)
    ensures s.said.state.Revoking? ==> StopsWith(cfg, s, more, RevokeFailedHint)
    ensures s.said.state.RestoringPublication? ==> StopsWith(cfg, s, more, RestoreFailedHint)
    ensures s.said.state.ReverseDraining? ==> StopsWith(cfg, s, more, ReverseDrainTimeoutHint)
    ensures s.said.state.RevokingNew? ==> StopsWith(cfg, s, more, RevokeNewFailedHint)
    ensures s.said.state.IsInFlight()
  {
    hide Run, Advance, AllSucceed, EndsAt, StopsWith, HistoryInvariant, GhostInvariant, Measure;
    hide Next, HintFor, CallFails, Invariant;
    RunHoldsEverything(cfg, inc, world, apply, replies);
    InvariantClaims(cfg, inc, s);
    var failed := Advance(cfg, s, more[0]);
    FailureIsDelivered(cfg, inc, s, more[0]);
    FailureMeans(s.said.state);
    AdvanceKeepsInvariant(cfg, inc, s, more[0]);
    LifeIsShort(failed);
    if s.said.state in {Provisioning, Verifying, Publishing} {
      FailureRollsBack(cfg, inc, failed, more[1..]);
      EndsLater(cfg, s, more, RolledBack);
    } else {
      FailureStops(cfg, failed, more[1..], GuidanceFor(s.said.state).value);
      StopsLater(cfg, s, more, GuidanceFor(s.said.state).value);
    }
  }

  // ---- where recovery leads ----

  /**
  The state a recovery settles on, from what is journalled and what the world is: whether
  the credentials are live, and which version is published.
  */
  predicate Resolves(cfg: Config, inc: Handle, at: Replayed, world: World, to: RotationState) {
    match at.state
    case Provisioning => to == if IsLive(world, at.handle) then Provisioned else Pending
    case Verifying => to == Provisioned
    case Publishing =>
      to == if at.written.Some? then Published
            else if OldPublished(inc, world) && at.previous.Some? then Verified
            else NeedsOperator
    case Draining => to == Published
    case Revoking => to == if IsLive(world, cfg.active) then Drained else Completed
    case RestoringPublication => to == if at.previous == world.published then ReverseDraining else NeedsOperator
    case ReverseDraining => to == if at.previous == world.published then ReverseDraining else NeedsOperator
    case RevokingNew => to == if IsLive(world, at.handle) then RevokingNew else RolledBack
    case _ => to == at.state
  }

  lemma SettledResolves(cfg: Config, inc: Handle, s: Sys)
    requires Claims(cfg, inc, s)
    ensures Resolves(cfg, inc, s.said, s.world, Settled(cfg, s))
  {}

  /**
  On every run, the record a recovery journals about an unknown outcome names the state that
  the journal and the world settle, and what was observed: which credentials are live.
  */
  lemma ReconciliationIsRecorded(
    cfg: Config, inc: Handle, world: World, apply: bool, replies: seq<Reply>, s: Sys)
    requires Reaches(cfg, inc, world, apply, replies, s)
    requires s.process.Down? && s.records != [] && s.said.state.IsInFlight()
    ensures
      var s' := Advance(cfg, Advance(cfg, s, Ok), Ok);
      && |s'.records| == |s.records| + 1 && s.records < s'.records
      && var record := s'.records[|s.records|];
         && record.Transition? && record.from == s.said.state && record.event.Reconciled?
         && record.event.observed.newLive == IsLive(s.world, s.said.handle)
         && record.event.observed.oldLive == IsLive(s.world, cfg.active)
         && Resolves(cfg, inc, s.said, s.world, record.to)
         && s'.said.state == record.to
  {
    hide Run, HistoryInvariant, GhostInvariant, StateFacts, Resolves;
    RunHoldsEverything(cfg, inc, world, apply, replies);
    RecoveryOpens(cfg, inc, s);
    SettledResolves(cfg, inc, s);
    var asked := Advance(cfg, s, Ok);
    ResolutionIsRecorded(cfg, asked);
    RecoveryRecordsNothing(cfg, s);
  }

  lemma ResolutionIsRecorded(cfg: Config, s: Sys)
    requires s.process.Up? && s.process.pc.Resolve? && s.process.pc.from == s.said.state
    ensures
      var to := Reconcile(s.said.state, s.process.pc.observed);
      && Advance(cfg, s, Ok).said.state == to
      && Advance(cfg, s, Ok).records ==
           s.records + [Transition(s.said.state, Reconciled(s.process.pc.observed), to)]
  {
    hide Reconcile, GhostOf;
  }

  lemma RecoveryRecordsNothing(cfg: Config, s: Sys)
    requires s.process.Down?
    ensures Advance(cfg, s, Ok).records == s.records
  {
    hide Observe, GhostOf, Fold;
  }

  /** The journal leaves nothing open before publication, or says that publication has landed. */
  predicate GoesForward(at: Replayed) {
    || at.state.Pending? || at.state.Published? || at.state.Draining? || at.state.Drained?
    || at.state.Revoking? || at.state.Completed?
    || (at.state.Provisioning? && at.handle.None?)
    || (at.state.Publishing? && at.written.Some?)
  }

  /** The published side cannot be decided, or the run has stopped already. */
  predicate Undecidable(inc: Handle, at: Replayed, world: World) {
    || at.state.NeedsOperator?
    || (at.state.Publishing? && at.written.None? && !(OldPublished(inc, world) && at.previous.Some?))
    || ((at.state.RestoringPublication? || at.state.ReverseDraining?) && at.previous != world.published)
  }

  /** A credential was created and its value is lost, or compensation has begun and can go on. */
  predicate GoesBack(inc: Handle, at: Replayed, world: World) {
    || at.state.Provisioned? || at.state.Verifying? || at.state.Verified?
    || at.state.RevokingNew? || at.state.RolledBack?
    || (at.state.Provisioning? && at.handle.Some?)
    || (at.state.Publishing? && at.written.None? && OldPublished(inc, world) && at.previous.Some?)
    || ((at.state.RestoringPublication? || at.state.ReverseDraining?) && at.previous == world.published)
  }

  lemma StopsIffUndecidable(cfg: Config, inc: Handle, at: Replayed, world: World, to: RotationState)
    requires Resolves(cfg, inc, at, world, to)
    ensures to.NeedsOperator? <==> Undecidable(inc, at, world)
  {}

  lemma DestinationIs(cfg: Config, inc: Handle, s: Sys)
    requires Claims(cfg, inc, s)
    ensures Destination(Settled(cfg, s)) ==
      if Undecidable(inc, s.said, s.world) then NeedsOperator
      else if GoesForward(s.said) then Completed
      else RolledBack
    ensures !GoesBack(inc, s.said, s.world) <==> Undecidable(inc, s.said, s.world) || GoesForward(s.said)
    ensures !(Undecidable(inc, s.said, s.world) && GoesForward(s.said))
  {
    hide Settled;
    SettledResolves(cfg, inc, s);
  }

  /**
  Where a recovery all of whose calls succeed ends, on every run and from every journalled
  state, by the journal and the world alone: completed, rolled back, or stopped exactly where
  the published side cannot be decided. One of the three always applies.
  */
  lemma RecoveriesEnd(
    cfg: Config, inc: Handle, world: World, apply: bool, replies: seq<Reply>, s: Sys, more: seq<Reply>)
    requires Reaches(cfg, inc, world, apply, replies, s) && s.process.Down? && s.records != []
    requires AllHonest(inc, more) && |more| >= 91 && more[0] == Ok
    requires AllSucceed(cfg, Advance(cfg, s, more[0]), more[1..])
    ensures GoesForward(s.said) ==> EndsAt(cfg, s, more, Completed)
    ensures GoesBack(inc, s.said, s.world) ==> EndsAt(cfg, s, more, RolledBack)
    ensures Undecidable(inc, s.said, s.world) ==> EndsAt(cfg, s, more, NeedsOperator)
    ensures GoesForward(s.said) || GoesBack(inc, s.said, s.world) || Undecidable(inc, s.said, s.world)
  {
    hide Run, Advance, AllSucceed, EndsAt, HistoryInvariant, GhostInvariant, Claims;
    hide Destination, Settled, Undecidable, GoesForward, GoesBack;
    RunHoldsEverything(cfg, inc, world, apply, replies);
    SuccessfulRecoveryEnds(cfg, inc, s, more);
    DestinationIs(cfg, inc, s);
  }

  // ---- how a journal begins and ends ----

  /** The journal begins with the start of the run, as it was asked for, and says so when a process is done. */
  predicate Framed(apply: bool, s: Sys) {
    && (s.records == [] || s.records[0] == RunStarted(apply))
    && (s.process.Up? && s.process.pc.Begin? ==> s.records == [] && s.process.pc.apply == apply)
    && (s.process.Up? && !s.process.pc.Begin? ==> s.records != [])
    && (Finished(s) ==> s.records[|s.records| - 1] == RunFinished(s.process.pc.terminal))
  }

  lemma StepKeepsFrame(cfg: Config, apply: bool, s: Sys, reply: Reply)
    requires Framed(apply, s)
    ensures Framed(apply, Advance(cfg, s, reply))
  {
    hide EverVerified, Observe, Apply, Next, Reconcile, HintFor, Fold, GhostOf;
  }

  /** On every run the journal opens with how the run was started, and a finished process has journalled its end. */
  lemma {:induction false} RunsAreFramed(cfg: Config, world: World, apply: bool, replies: seq<Reply>)
    ensures Framed(apply, Run(cfg, Start(cfg, world, apply), replies))
    decreases |replies|
  {
    hide Advance;
    if replies != [] {
      var n := |replies| - 1;
      RunsAreFramed(cfg, world, apply, replies[..n]);
      StepKeepsFrame(cfg, apply, Run(cfg, Start(cfg, world, apply), replies[..n]), replies[n]);
    }
  }
}
