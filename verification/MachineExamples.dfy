/**
Runs, reply by reply, that show what the engine does not give: a credential nobody revokes,
a restore that recovery does not recognise, a crash outside the explored graph.
*/
module MachineExamples {
  import opened Wrappers
  import opened Protocol
  import opened GhostModel
  import opened JournalFile
  import opened Machine
  import opened MachineInvariant
  import opened MachineSafety
  import opened MachineProgress
  import opened MachineTheorems
  import opened MachineGraph

  // ---- following a run ----

  lemma {:induction false} RunAppends(cfg: Config, s: Sys, before: seq<Reply>, after: seq<Reply>)
    ensures Run(cfg, s, before + after) == Run(cfg, Run(cfg, s, before), after)
  {
    hide Advance;
    if after == [] {
      assert before + after == before;
    } else {
      var init, last := after[..|after| - 1], after[|after| - 1];
      assert (before + after)[..|before + after| - 1] == before + init;
      RunAppends(cfg, s, before, init);
    }
  }

  lemma RunNothing(cfg: Config, s: Sys)
    ensures Run(cfg, s, []) == s
  {}

  lemma RunTwo(cfg: Config, s: Sys, a: Reply, b: Reply)
    ensures Run(cfg, s, [a, b]) == Advance(cfg, Advance(cfg, s, a), b)
  {
    hide Advance, Run;
    RunSnoc(cfg, s, [], a);
    RunSnoc(cfg, s, [a], b);
    RunNothing(cfg, s);
    assert [] + [a] == [a] && [a] + [b] == [a, b];
  }

  lemma RunThree(cfg: Config, s: Sys, a: Reply, b: Reply, c: Reply)
    ensures Run(cfg, s, [a, b, c]) == Advance(cfg, Advance(cfg, Advance(cfg, s, a), b), c)
  {
    hide Advance, Run;
    RunTwo(cfg, s, a, b);
    RunSnoc(cfg, s, [a, b], c);
    assert [a, b] + [c] == [a, b, c];
  }

  /** The process stands at the head of the loop, where the journal says. */
  predicate AtHead(s: Sys, state: RotationState) {
    s.process.Up? && s.process.pc == Head(state) && s.said.state == state
  }

  lemma StartProvisions(cfg: Config, world: World)
    ensures
      var s := Run(cfg, Start(cfg, world, true), [Ok, Ok]);
      && AtHead(s, Provisioning) && s.process.ctx == FreshContext(cfg)
      && s.said == NOTHING.(state := Provisioning) && s.world == world && s.trace == []
  {
    RunTwo(cfg, Start(cfg, world, true), Ok, Ok);
  }

  lemma ProvisionSucceeds(cfg: Config, s: Sys, handle: Handle, value: Secret)
    requires AtHead(s, Provisioning)
    ensures
      var end := Run(cfg, s, [Created(handle, value), Ok, Ok]);
      && AtHead(end, Provisioned)
      && end.process.ctx == s.process.ctx.(newHandle := Some(handle), newValue := Some(value))
      && end.said == s.said.(handle := Some(handle), state := Provisioned)
      && end.world == s.world.Accept(handle, value) && end.trace == s.trace + [CredentialMade(handle, value)]
  {
    RunThree(cfg, s, Created(handle, value), Ok, Ok);
    var created := Advance(cfg, s, Created(handle, value));
    assert created == ProvisionCall(s, Created(handle, value));
    var recorded := Advance(cfg, created, Ok);
    assert recorded.process.pc == Deliver(Provisioning, ProvisionOk);
  }

  lemma VerifyStarts(cfg: Config, s: Sys)
    requires AtHead(s, Provisioned)
    ensures
      var end := Advance(cfg, s, Ok);
      && AtHead(end, Verifying) && end.process.ctx == s.process.ctx
      && end.said == s.said.(state := Verifying) && end.world == s.world
  {
    hide GhostOf, Reconcile;
  }

  lemma VerifyPasses(cfg: Config, s: Sys)
    requires AtHead(s, Verifying) && s.process.ctx.newValue.Some?
    ensures
      var end := Advance(cfg, Advance(cfg, s, Ok), Ok);
      && AtHead(end, Verified) && end.process.ctx == s.process.ctx
      && end.said == s.said.(state := Verified) && end.world == s.world
  {
    hide GhostOf, Reconcile;
    assert Advance(cfg, s, Ok) == VerifyCall(s, s.process.ctx.newValue.value, Ok);
  }

  lemma VerifySucceeds(cfg: Config, s: Sys)
    requires AtHead(s, Provisioned) && s.process.ctx.newValue.Some?
    ensures
      var end := Run(cfg, s, [Ok, Ok, Ok]);
      && AtHead(end, Verified) && end.process.ctx == s.process.ctx
      && end.said == s.said.(state := Verified) && end.world == s.world
  {
    hide Run, Advance;
    RunThree(cfg, s, Ok, Ok, Ok);
    VerifyStarts(cfg, s);
    VerifyPasses(cfg, Advance(cfg, s, Ok));
  }

  lemma PublishStarts(cfg: Config, s: Sys)
    requires AtHead(s, Verified)
    ensures
      var end := Advance(cfg, s, Ok);
      && AtHead(end, Publishing) && end.process.ctx == s.process.ctx
      && end.said == s.said.(state := Publishing) && end.world == s.world
  {
    hide GhostOf, Reconcile;
  }

  lemma BaselineIsRecorded(cfg: Config, s: Sys)
    requires AtHead(s, Publishing) && s.process.ctx.newValue.Some?
    ensures
      var end := Advance(cfg, Advance(cfg, s, Ok), Ok);
      && end.process.Up? && end.process.pc == Stage(s.process.ctx.newValue.value)
      && end.process.ctx == s.process.ctx.(previousVersion := s.world.published)
      && end.said == s.said.(previous := s.world.published) && end.world == s.world
  {
    hide GhostOf, Reconcile, Next;
    assert Advance(cfg, s, Ok) == PublishCall(s, Ok);
  }

  lemma PublishBegins(cfg: Config, s: Sys)
    requires AtHead(s, Verified) && s.process.ctx.newValue.Some?
    ensures
      var end := Run(cfg, s, [Ok, Ok, Ok]);
      && end.process.Up? && end.process.pc == Stage(s.process.ctx.newValue.value)
      && end.process.ctx == s.process.ctx.(previousVersion := s.world.published)
      && end.said == s.said.(state := Publishing, previous := s.world.published) && end.world == s.world
  {
    hide Run, Advance;
    RunThree(cfg, s, Ok, Ok, Ok);
    PublishStarts(cfg, s);
    BaselineIsRecorded(cfg, Advance(cfg, s, Ok));
  }

  lemma StageFails(cfg: Config, s: Sys, value: Secret)
    requires s.process.Up? && s.process.pc == Stage(value) && s.said.state.Publishing?
    ensures
      var end := Run(cfg, s, [Err(false), Ok]);
      && AtHead(end, RestoringPublication) && end.process.ctx == s.process.ctx.(newValue := None)
      && end.said == s.said.(state := RestoringPublication) && end.world == s.world
  {
    RunTwo(cfg, s, Err(false), Ok);
    var failed := Advance(cfg, s, Err(false));
    assert failed.process.pc == Deliver(Publishing, PublishFailed);
  }

  lemma RestoreThenLost(cfg: Config, s: Sys, version: VersionId)
    requires AtHead(s, RestoringPublication) && s.process.ctx.previousVersion == Some(version)
    ensures
      var end := Run(cfg, s, [Ok, Crash]);
      && end.process.Down? && end.said == s.said
      && end.world == s.world.Restore(version, cfg.nativeRestore)
  {
    RunTwo(cfg, s, Ok, Crash);
    assert Advance(cfg, s, Ok) == RestoreCall(cfg, s, version, Ok);
  }

  // ---- an interrupted publication that recovery does not recognise ----

  /** Everything succeeds until the value is verified. */
  function UpToVerified(handle: Handle, value: Secret): seq<Reply> {
    [Ok, Ok] + [Created(handle, value), Ok, Ok] + [Ok, Ok, Ok]
  }

  lemma VerifiedIsReached(cfg: Config, inc: Handle, world: World, handle: Handle, value: Secret)
    requires StartingWorld(cfg, inc, world) && handle != inc
    ensures
      var s := Run(cfg, Start(cfg, world, true), UpToVerified(handle, value));
      && AtHead(s, Verified) && s.process.ctx.newValue == Some(value)
      && s.said == NOTHING.(state := Verified, handle := Some(handle)) && s.world == world.Accept(handle, value)
  {
    hide Run, Advance, Start;
    var start := Start(cfg, world, true);
    var one := [Ok, Ok];
    var two := one + [Created(handle, value), Ok, Ok];
    StartProvisions(cfg, world);
    RunAppends(cfg, start, one, [Created(handle, value), Ok, Ok]);
    ProvisionSucceeds(cfg, Run(cfg, start, one), handle, value);
    RunAppends(cfg, start, two, [Ok, Ok, Ok]);
    VerifySucceeds(cfg, Run(cfg, start, two));
  }

  lemma PublicationLost(cfg: Config, s: Sys)
    requires AtHead(s, Verified)
    ensures
      var end := Run(cfg, s, [Ok, Crash]);
      end.process.Down? && end.said == s.said.(state := Publishing) && end.world == s.world
  {
    RunTwo(cfg, s, Ok, Crash);
    PublishStarts(cfg, s);
  }

  /**
  Nothing has been written and consumers read the old value, yet a process that dies before
  it has journalled the baseline leaves a publication that stops for the operator.
  */
  lemma UnwrittenPublicationIsNotRecognised(cfg: Config, inc: Handle, world: World, handle: Handle, value: Secret)
    requires StartingWorld(cfg, inc, world) && handle != inc
    ensures AllHonest(inc, UpToVerified(handle, value) + [Ok, Crash])
    ensures
      var s := Run(cfg, Start(cfg, world, true), UpToVerified(handle, value) + [Ok, Crash]);
      && s.process.Down? && s.said.state.Publishing?
      && OldPublished(inc, s.world) && Settled(cfg, s) == NeedsOperator
  {
    hide Run, Start, Settled;
    var start, verified := Start(cfg, world, true), UpToVerified(handle, value);
    VerifiedIsReached(cfg, inc, world, handle, value);
    RunAppends(cfg, start, verified, [Ok, Crash]);
    PublicationLost(cfg, Run(cfg, start, verified));
    var s := Run(cfg, start, verified + [Ok, Crash]);
    PublicationIsSettledIffJournalled(cfg, inc, world, true, verified + [Ok, Crash], s);
  }

  lemma StageThenLost(cfg: Config, s: Sys, value: Secret)
    requires s.process.Up? && s.process.pc == Stage(value) && !cfg.atomicPromote
    ensures
      var end := Run(cfg, s, [Ok, Crash]);
      end.process.Down? && end.said == s.said && end.world == s.world.Write(Stored(value, New), true)
  {
    RunTwo(cfg, s, Ok, Crash);
    assert Advance(cfg, s, Ok) == StageStep(cfg, s, value, Ok);
  }

  /**
  The new value was written and consumers read it, yet a process that dies before it has
  journalled the version leaves a publication that stops for the operator.
  */
  lemma LandedPublicationIsNotRecognised(cfg: Config, inc: Handle, world: World, handle: Handle, value: Secret)
    requires StartingWorld(cfg, inc, world) && handle != inc && !cfg.atomicPromote
    ensures AllHonest(inc, UpToVerified(handle, value) + [Ok, Ok, Ok] + [Ok, Crash])
    ensures
      var s := Run(cfg, Start(cfg, world, true), UpToVerified(handle, value) + [Ok, Ok, Ok] + [Ok, Crash]);
      && s.process.Down? && s.said.state.Publishing? && s.said.previous == world.published
      && NewPublished(s.said, s.world) && Settled(cfg, s) == NeedsOperator
  {
    hide Run, Start, Settled;
    var start, verified := Start(cfg, world, true), UpToVerified(handle, value);
    var begun := verified + [Ok, Ok, Ok];
    VerifiedIsReached(cfg, inc, world, handle, value);
    RunAppends(cfg, start, verified, [Ok, Ok, Ok]);
    PublishBegins(cfg, Run(cfg, start, verified));
    RunAppends(cfg, start, begun, [Ok, Crash]);
    StageThenLost(cfg, Run(cfg, start, begun), value);
    var s := Run(cfg, start, begun + [Ok, Crash]);
    PublicationIsSettledIffJournalled(cfg, inc, world, true, begun + [Ok, Crash], s);
  }

  // ---- a restore that recovery does not recognise ----

  /** Everything succeeds until the value is staged; the restore lands and the process dies. */
  function LostRestore(handle: Handle, value: Secret): seq<Reply> {
    UpToVerified(handle, value) + [Ok, Ok, Ok] + [Err(false), Ok] + [Ok, Crash]
  }

  lemma LostRestoreEnds(cfg: Config, inc: Handle, world: World, handle: Handle, value: Secret)
    requires StartingWorld(cfg, inc, world) && handle != inc
    ensures
      var s := Run(cfg, Start(cfg, world, true), LostRestore(handle, value));
      && s.process.Down? && s.said.state.RestoringPublication? && s.said.previous == world.published
      && s.world == world.Accept(handle, value).Restore(world.published.value, cfg.nativeRestore)
  {
    hide Run, Advance, Start;
    var start, verified := Start(cfg, world, true), UpToVerified(handle, value);
    var begun := verified + [Ok, Ok, Ok];
    var failed := begun + [Err(false), Ok];
    VerifiedIsReached(cfg, inc, world, handle, value);
    RunAppends(cfg, start, verified, [Ok, Ok, Ok]);
    PublishBegins(cfg, Run(cfg, start, verified));
    RunAppends(cfg, start, begun, [Err(false), Ok]);
    StageFails(cfg, Run(cfg, start, begun), value);
    RunAppends(cfg, start, failed, [Ok, Crash]);
    RestoreThenLost(cfg, Run(cfg, start, failed), world.published.value);
  }

  /**
  The restore landed and consumers read the old value, yet where the backend writes it
  forward, recovery stops for the operator instead of going on with the compensation.
  */
  lemma LandedRestoreIsNotRecognised(cfg: Config, inc: Handle, world: World, handle: Handle, value: Secret)
    requires StartingWorld(cfg, inc, world) && handle != inc && !cfg.nativeRestore
    ensures AllHonest(inc, LostRestore(handle, value))
    ensures
      var s := Run(cfg, Start(cfg, world, true), LostRestore(handle, value));
      && s.process.Down? && s.said.state.RestoringPublication?
      && OldPublished(inc, s.world) && s.said.previous != s.world.published
      && Reconcile(s.said.state, Observe(s.world, RecoveredContext(cfg, s.said))) == NeedsOperator
  {
    hide Run, Start, Observe, Reconcile;
    var s := Run(cfg, Start(cfg, world, true), LostRestore(handle, value));
    LostRestoreEnds(cfg, inc, world, handle, value);
    RecoveryContinuesMirrorIffBaselineUntouched(cfg, inc, world, true, LostRestore(handle, value), s);
  }

  // ---- credentials nobody revokes ----

  lemma FailedProvisionRollsBack(cfg: Config, s: Sys)
    requires s.process.Up? && s.process.pc == Deliver(Provisioning, ProvisionFailed)
    requires s.said.state.Provisioning? && s.process.ctx.newHandle.None?
    ensures
      var end := Run(cfg, s, [Ok, Ok]);
      end.said.state.RolledBack? && end.world == s.world && end.trace == s.trace
  {
    RunTwo(cfg, s, Ok, Ok);
    var revoking := Advance(cfg, s, Ok);
    assert revoking == Transit(cfg, s, Provisioning, ProvisionFailed);
    assert ImmediateEvent(RevokingNew, revoking.process.ctx) == Some(RevokeNewOk);
    assert Advance(cfg, revoking, Ok) == Transit(cfg, revoking, RevokingNew, RevokeNewOk);
  }

  lemma ProvisionFails(cfg: Config, s: Sys, handle: Handle, value: Secret)
    requires AtHead(s, Provisioning)
    ensures
      var end := Advance(cfg, s, ErrCreated(handle, value));
      && end.process.Up? && end.process.pc == Deliver(Provisioning, ProvisionFailed)
      && end.process.ctx == s.process.ctx && end.said == s.said
      && end.world == s.world.Accept(handle, value) && end.trace == s.trace + [Orphaned(handle)]
  {
    hide GhostOf, Next;
    assert Advance(cfg, s, ErrCreated(handle, value)) == ProvisionCall(s, ErrCreated(handle, value));
  }

  /**
  A provision that fails after creating its credential is rolled back without revoking it.
  */
  lemma OrphanSurvivesRollback(cfg: Config, inc: Handle, world: World, handle: Handle, value: Secret)
    requires StartingWorld(cfg, inc, world) && handle != inc
    ensures
      var s := Run(cfg, Start(cfg, world, true), [Ok, Ok] + [ErrCreated(handle, value)] + [Ok, Ok]);
      && s.said.state.RolledBack?
      && CreatedByRun(s.trace, handle) && handle in s.world.live
  {
    hide Start, StartingWorld, Run, Advance;
    var start, failed := Start(cfg, world, true), [Ok, Ok] + [ErrCreated(handle, value)];
    StartProvisions(cfg, world);
    RunSnoc(cfg, start, [Ok, Ok], ErrCreated(handle, value));
    ProvisionFails(cfg, Run(cfg, start, [Ok, Ok]), handle, value);
    var s := Run(cfg, start, failed);
    assert CreatedAt(s.trace, 0, handle);
    RunAppends(cfg, start, failed, [Ok, Ok]);
    FailedProvisionRollsBack(cfg, s);
  }

  lemma ProvisionIsLost(cfg: Config, s: Sys, handle: Handle, value: Secret)
    requires AtHead(s, Provisioning)
    ensures
      var end := Run(cfg, s, [Created(handle, value), Crash]);
      && end.process.Down? && end.records == s.records && end.said == s.said
      && end.world == s.world.Accept(handle, value)
      && end.trace == s.trace + [CredentialMade(handle, value), ProcessEnded]
  {
    hide Run, GhostOf;
    RunTwo(cfg, s, Created(handle, value), Crash);
    var created := Advance(cfg, s, Created(handle, value));
    assert created == ProvisionCall(s, Created(handle, value));
    assert s.trace + [CredentialMade(handle, value)] + [ProcessEnded]
      == s.trace + [CredentialMade(handle, value), ProcessEnded];
  }

  /** Recovery finds no journalled credential, so it resolves to the start and provisions again. */
  lemma RecoveryStartsOver(cfg: Config, s: Sys)
    requires s.process.Down? && s.said == NOTHING.(state := Provisioning)
    requires s.records != [] && Fold(s.records) == Some(s.said)
    ensures
      var end := Run(cfg, s, [Ok, Ok, Ok]);
      && AtHead(end, Provisioning) && end.process.ctx == FreshContext(cfg)
      && end.said == s.said && end.world == s.world && end.trace == s.trace
  {
    hide Run, Fold, GhostOf;
    RunThree(cfg, s, Ok, Ok, Ok);
    var asked := Advance(cfg, s, Ok);
    assert asked == RecoverStep(cfg, s, Ok);
    assert !Observe(s.world, RecoveredContext(cfg, s.said)).newLive;
    var settled := Advance(cfg, asked, Ok);
    assert AtHead(settled, Pending);
  }

  lemma {:induction false} HandleStays(cfg: Config, inc: Handle, s: Sys, replies: seq<Reply>)
    requires Invariant(cfg, inc, s) && AllHonest(inc, replies) && s.said.handle.Some?
    ensures Run(cfg, s, replies).said.handle == s.said.handle
  {
    hide Advance, Invariant;
    if replies != [] {
      var before := replies[..|replies| - 1];
      HandleStays(cfg, inc, s, before);
      RunKeepsInvariant(cfg, inc, s, before);
      AdvanceIsLogged(cfg, inc, Run(cfg, s, before), replies[|replies| - 1]);
      LoggedKeepsHandle(Run(cfg, s, before), Run(cfg, s, replies));
    }
  }

  lemma LoggedKeepsHandle(s: Sys, s': Sys)
    requires Logged(s, s') && s.said.handle.Some?
    ensures s'.said.handle == s.said.handle
  {
    if s'.records != s.records || s'.said != s.said {
      var record :| LoggedRecord(s, s', record);
    }
  }

  lemma {:induction false} CreationStays(cfg: Config, s: Sys, replies: seq<Reply>, handle: Handle)
    requires CreatedByRun(s.trace, handle)
    ensures CreatedByRun(Run(cfg, s, replies).trace, handle)
  {
    hide Advance;
    if replies != [] {
      var before := Run(cfg, s, replies[..|replies| - 1]);
      CreationStays(cfg, s, replies[..|replies| - 1], handle);
      TraceGrows(cfg, before, replies[|replies| - 1]);
      var i :| CreatedAt(before.trace, i, handle);
      assert CreatedAt(Run(cfg, s, replies).trace, i, handle);
    }
  }

  lemma TraceGrows(cfg: Config, s: Sys, reply: Reply)
    ensures s.trace <= Advance(cfg, s, reply).trace
  {
    hide EverVerified, Observe, Apply, Next, Reconcile;
  }

  /**
  A process that dies after creating a credential and before journalling its handle leaves
  it to nobody: recovery provisions again, and the rotation completes with both live.
  */
  lemma OrphanSurvivesCompletion(
    cfg: Config, inc: Handle, world: World, handle: Handle, value: Secret, next: Handle, nextValue: Secret)
    returns (replies: seq<Reply>)
    requires StartingWorld(cfg, inc, world) && handle != inc && next != inc && next != handle
    ensures
      var s := Run(cfg, Start(cfg, world, true), replies);
      && AllHonest(inc, replies)
      && s.said.state.Completed? && s.said.handle == Some(next)
      && CreatedByRun(s.trace, handle) && handle in s.world.live
  {
    hide Start, Advance, Run, Invariant, StartingWorld, HistoryInvariant;
    var start := Start(cfg, world, true);
    var lost := [Ok, Ok] + [Created(handle, value), Crash] + [Ok, Ok, Ok];
    var again := lost + [Created(next, nextValue), Ok, Ok];
    LostThenProvisioned(cfg, inc, world, handle, value, next, nextValue);
    var s := Run(cfg, start, again);
    RunHoldsEverything(cfg, inc, world, true, again);
    var rest := SuccessIsPossible(cfg, inc, s, 90);
    var k := SuccessCompletes(cfg, inc, s, rest);
    replies := again + rest[..k];
    RunAppends(cfg, start, again, rest[..k]);
    HandleStays(cfg, inc, s, rest[..k]);
    CreationStays(cfg, s, rest[..k], handle);
    var end := Run(cfg, start, replies);
    RunHoldsEverything(cfg, inc, world, true, replies);
    CompletedIsSaid(cfg, inc, end);
    NothingIsLeftIffJournalled(cfg, inc, world, true, replies, end);
  }

  lemma CompletedIsSaid(cfg: Config, inc: Handle, s: Sys)
    requires Invariant(cfg, inc, s) && CompletedCleanly(cfg, inc, s)
    ensures s.said.state.Completed?
  {}

  lemma LostThenProvisioned(
    cfg: Config, inc: Handle, world: World, handle: Handle, value: Secret, next: Handle, nextValue: Secret)
    requires StartingWorld(cfg, inc, world) && handle != inc && next != inc
    ensures
      var again := [Ok, Ok] + [Created(handle, value), Crash] + [Ok, Ok, Ok] + [Created(next, nextValue), Ok, Ok];
      var s := Run(cfg, Start(cfg, world, true), again);
      && AllHonest(inc, again) && |again| == 10
      && AtHead(s, Provisioned) && s.said.handle == Some(next) && CreatedByRun(s.trace, handle)
  {
    hide Start, Advance, Run, Invariant, StartingWorld, HistoryInvariant;
    var start := Start(cfg, world, true);
    var one := [Ok, Ok];
    var two := one + [Created(handle, value), Crash];
    var three := two + [Ok, Ok, Ok];
    StartProvisions(cfg, world);
    RunHoldsEverything(cfg, inc, world, true, one);
    ProvisioningIsJournalled(cfg, inc, Run(cfg, start, one));
    RunAppends(cfg, start, one, [Created(handle, value), Crash]);
    RunAppends(cfg, start, two, [Ok, Ok, Ok]);
    ProvisionIsLost(cfg, Run(cfg, start, one), handle, value);
    RecoveryStartsOver(cfg, Run(cfg, start, two));
    RunAppends(cfg, start, three, [Created(next, nextValue), Ok, Ok]);
    ProvisionSucceeds(cfg, Run(cfg, start, three), next, nextValue);
    var s := Run(cfg, start, three + [Created(next, nextValue), Ok, Ok]);
    assert CreatedAt(s.trace, 0, handle);
  }

  lemma ProvisioningIsJournalled(cfg: Config, inc: Handle, s: Sys)
    requires Invariant(cfg, inc, s) && AtHead(s, Provisioning)
    ensures s.records != [] && Fold(s.records) == Some(s.said)
  {}

  // ---- a crash outside the explored graph ----

  lemma CreatedThenLost(cfg: Config, s: Sys, handle: Handle, value: Secret)
    requires AtHead(s, Provisioning)
    ensures
      var end := Advance(cfg, Advance(cfg, Advance(cfg, s, Created(handle, value)), Ok), Crash);
      && end.process.Down? && end.said.state.Provisioning?
      && end.said.handle == Some(handle) && handle in end.world.live
  {
    var created := Advance(cfg, s, Created(handle, value));
    assert created == ProvisionCall(s, Created(handle, value));
    assert Advance(cfg, created, Ok).said.state.Provisioning?;
  }

  /** A crash between the recording of a provisioned handle and the transition that reports it. */
  lemma CrashAfterProvision(cfg: Config, inc: Handle, world: World, handle: Handle, value: Secret)
    requires StartingWorld(cfg, inc, world) && handle != inc
    ensures
      var s := Run(cfg, Start(cfg, world, true), [Ok, Ok] + [Created(handle, value), Ok, Crash]);
      s.process.Down? && s.said.state.Provisioning? && GhostOf(cfg, s).newLive
  {
    hide Start, StartingWorld, Advance, Run;
    var start := Start(cfg, world, true);
    StartProvisions(cfg, world);
    RunAppends(cfg, start, [Ok, Ok], [Created(handle, value), Ok, Crash]);
    CreatedThenLost(cfg, Run(cfg, start, [Ok, Ok]), handle, value);
    RunThree(cfg, Run(cfg, start, [Ok, Ok]), Created(handle, value), Ok, Crash);
  }

  /**
  The difference is real: here a crash leaves a journal that says `Provisioning` while the
  new credential is already live, a node no path of the ghost protocol visits. That is why
  the engine needs an invariant of its own.
  */
  lemma CrashLeavesTheExploredGraph(cfg: Config, inc: Handle, world: World, handle: Handle, value: Secret)
    requires StartingWorld(cfg, inc, world) && handle != inc
    ensures
      var s := Run(cfg, Start(cfg, world, true), [Ok, Ok] + [Created(handle, value), Ok, Crash]);
      s.process.Down? && !OnGraph(Node(s.said.state, GhostOf(cfg, s)))
  {
    hide Run, Start, StartingWorld, GhostOf;
    CrashAfterProvision(cfg, inc, world, handle, value);
    var s := Run(cfg, Start(cfg, world, true), [Ok, Ok] + [Created(handle, value), Ok, Crash]);
    GraphIsExactly(Node(s.said.state, GhostOf(cfg, s)));
  }
}
