/**
The invariant is kept by every step, so it holds on every run: any sequence of replies,
failures with or without landed effects, crashes and recoveries.
*/
module MachineSafety {
  import opened Wrappers
  import opened Protocol
  import opened JournalFile
  import opened Machine
  import opened MachineInvariant

  /** A step wrote nothing, or exactly one record that continues the journal legally. */
  ghost predicate Logged(s: Sys, s': Sys) {
    || (s'.records == s.records && s'.said == s.said)
    || (exists record :: LoggedRecord(s, s', record))
  }

  ghost predicate LoggedRecord(s: Sys, s': Sys, record: Record) {
    && s'.records == s.records + [record]
    && Apply(s.said, record) == Some(s'.said)
    && (record.HandleAssigned? ==> s.said.handle.None?)
    && (record.Transition? ==> Next(record.from, record.event) == Some(record.to))
  }

  ghost predicate Keeps(cfg: Config, inc: Handle, s: Sys, s': Sys) {
    Claims(cfg, inc, s') && Logged(s, s')
  }

  // ---- recording a transition ----

  lemma TransitKeeps(cfg: Config, inc: Handle, s: Sys, from: RotationState, event: RotationEvent)
    requires Claims(cfg, inc, s) && s.process.Up? && DeliverFacts(cfg, inc, s, s.said, from, event)
    requires ContextMatches(cfg, s.said, s.process.ctx)
    ensures Keeps(cfg, inc, s, Transit(cfg, s, from, event))
  {
    assert LoggedRecord(s, Transit(cfg, s, from, event), Transition(from, event, Next(from, event).value));
  }

  lemma DeliverKeeps(cfg: Config, inc: Handle, s: Sys, from: RotationState, event: RotationEvent)
    requires Claims(cfg, inc, s) && s.process.Up? && DeliverFacts(cfg, inc, s, s.said, from, event)
    requires ContextMatches(cfg, s.said, s.process.ctx)
    ensures Keeps(cfg, inc, s, DeliverStep(cfg, s, from, event))
  {
    hide Transit, Keeps, DeliverFacts, Claims, HintFor, Next;
    if HintFor(from, event).None? {
      TransitKeeps(cfg, inc, s, from, event);
    } else {
      EscalationKeeps(cfg, inc, s, from, event);
    }
  }

  lemma EscalationKeeps(cfg: Config, inc: Handle, s: Sys, from: RotationState, event: RotationEvent)
    requires Claims(cfg, inc, s) && s.process.Up? && DeliverFacts(cfg, inc, s, s.said, from, event)
    requires ContextMatches(cfg, s.said, s.process.ctx) && HintFor(from, event).Some?
    ensures Keeps(cfg, inc, s, DeliverStep(cfg, s, from, event))
  {
    hide Next, HintFor, Rank, OldPublished, HoldsSide;
    assert LoggedRecord(s, DeliverStep(cfg, s, from, event), Escalation(HintFor(from, event).value));
  }

  // ---- the calls ----

  ghost predicate Calling(cfg: Config, inc: Handle, s: Sys, state: RotationState) {
    && Claims(cfg, inc, s)
    && s.process.Up? && s.process.pc == Head(state) && ImmediateEvent(state, s.process.ctx).None?
  }

  lemma ProvisionKeeps(cfg: Config, inc: Handle, s: Sys, reply: Reply)
    requires Calling(cfg, inc, s, Provisioning) && Honest(inc, reply)
    ensures Keeps(cfg, inc, s, CallStep(cfg, s, Provisioning, reply))
  {}

  lemma VerifyKeeps(cfg: Config, inc: Handle, s: Sys, reply: Reply)
    requires Calling(cfg, inc, s, Verifying)
    ensures Keeps(cfg, inc, s, CallStep(cfg, s, Verifying, reply))
  {}

  lemma PublishKeeps(cfg: Config, inc: Handle, s: Sys, reply: Reply)
    requires Calling(cfg, inc, s, Publishing)
    ensures Keeps(cfg, inc, s, CallStep(cfg, s, Publishing, reply))
  {}

  lemma DrainKeeps(cfg: Config, inc: Handle, s: Sys, reply: Reply)
    requires Calling(cfg, inc, s, Draining)
    ensures Keeps(cfg, inc, s, CallStep(cfg, s, Draining, reply))
  {}

  /** A call has ended in `event` and left `world`: the claims on both sides of the event hold. */
  lemma Delivered(
    cfg: Config, inc: Handle, s: Sys, world: World, trace: seq<Effect>, event: RotationEvent, to: RotationState)
    requires Claims(cfg, inc, s) && s.process.Up? && s.process.pc.Head? && s.records != []
    requires ContextMatches(cfg, s.said, s.process.ctx)
    requires !event.Reconciled? && Next(s.said.state, event) == Some(to) && Rank(to) < Rank(s.said.state)
    requires StateFacts(cfg, inc, s.said, world)
    requires StateFacts(cfg, inc, s.said.(state := to), world)
    requires HeadFacts(s.said.(state := to), world, s.process.ctx, inc)
    ensures Claims(cfg, inc, Goto(s.(world := world, trace := trace), Deliver(s.said.state, event)))
  {}

  lemma RevokeSparesOther(world: World, handle: Handle, side: PublishedSide, other: Handle)
    requires HoldsSide(world, side, other) && handle != other
    ensures HoldsSide(world.Revoke(handle), side, other)
  {}

  lemma RevokeOldKeeps(cfg: Config, inc: Handle, s: Sys, reply: Reply)
    requires Calling(cfg, inc, s, Revoking)
    ensures Keeps(cfg, inc, s, CallStep(cfg, s, Revoking, reply))
  {
    var revoked, trace := s.world.Revoke(inc), s.trace + [RevokeCalled(inc)];
    RevokeSparesOther(s.world, inc, New, s.said.handle.value);
    match reply
    case Ok => Delivered(cfg, inc, s, revoked, trace, RevokeOk, Completed);
    case Err(landed) =>
      Delivered(cfg, inc, s, if landed then revoked else s.world, trace, RevokeFailed, NeedsOperator);
    case _ =>
  }

  lemma RestoreRepublishes(cfg: Config, inc: Handle, at: Replayed, world: World)
    requires StateFacts(cfg, inc, at, world) && at.state.RestoringPublication? && at.previous.Some?
    ensures StateFacts(cfg, inc, at, world.Restore(at.previous.value, cfg.nativeRestore))
    ensures StateFacts(cfg, inc, at.(state := ReverseDraining), world.Restore(at.previous.value, cfg.nativeRestore))
    ensures StateFacts(cfg, inc, at.(state := NeedsOperator), world.Restore(at.previous.value, cfg.nativeRestore))
  {}

  lemma DieKeeps(cfg: Config, inc: Handle, s: Sys)
    requires Claims(cfg, inc, s)
    ensures Keeps(cfg, inc, s, Die(s))
  {}

  lemma RestoreDelivers(
    cfg: Config, inc: Handle, s: Sys, world: World, event: RotationEvent, to: RotationState)
    requires Calling(cfg, inc, s, RestoringPublication)
    requires (event, to) in {(RestoreOk, ReverseDraining), (RestoreFailed, NeedsOperator)}
    requires StateFacts(cfg, inc, s.said, world) && StateFacts(cfg, inc, s.said.(state := to), world)
    ensures Keeps(cfg, inc, s, Goto(s.(world := world), Deliver(RestoringPublication, event)))
  {
    Delivered(cfg, inc, s, world, s.trace, event, to);
  }

  lemma RestoreIsOfOld(cfg: Config, inc: Handle, s: Sys)
    requires Calling(cfg, inc, s, RestoringPublication)
    ensures StateFacts(cfg, inc, s.said, s.world) && StateFacts(cfg, inc, s.said.(state := NeedsOperator), s.world)
    ensures s.said.state.RestoringPublication? && s.said.previous.Some?
    ensures s.process.ctx.previousVersion == s.said.previous && s.world.HasVersion(s.said.previous.value)
    ensures Keeps(cfg, inc, s, Die(s))
  {
    DieKeeps(cfg, inc, s);
  }

  lemma RestoreCallKeeps(cfg: Config, inc: Handle, s: Sys, reply: Reply)
    requires Calling(cfg, inc, s, RestoringPublication)
    ensures s.process.ctx.previousVersion.Some?
    ensures Keeps(cfg, inc, s, RestoreCall(cfg, s, s.process.ctx.previousVersion.value, reply))
  {
    hide StateFacts, Calling, Keeps;
    RestoreIsOfOld(cfg, inc, s);
    var restored := s.world.Restore(s.said.previous.value, cfg.nativeRestore);
    RestoreRepublishes(cfg, inc, s.said, s.world);
    if reply.Ok? {
      RestoreDelivers(cfg, inc, s, restored, RestoreOk, ReverseDraining);
    } else if reply.Err? {
      var world := if reply.landed then restored else s.world;
      RestoreDelivers(cfg, inc, s, world, RestoreFailed, NeedsOperator);
      assert s.(world := s.world) == s;
    }
  }

  lemma RestoreKeeps(cfg: Config, inc: Handle, s: Sys, reply: Reply)
    requires Calling(cfg, inc, s, RestoringPublication)
    ensures Keeps(cfg, inc, s, CallStep(cfg, s, RestoringPublication, reply))
  {
    hide Keeps, RestoreCall;
    RestoreCallKeeps(cfg, inc, s, reply);
  }

  lemma ReverseDrainKeeps(cfg: Config, inc: Handle, s: Sys, reply: Reply)
    requires Calling(cfg, inc, s, ReverseDraining)
    ensures Keeps(cfg, inc, s, CallStep(cfg, s, ReverseDraining, reply))
  {
    match reply
    case Ok =>
      var trace := s.trace + [DrainCompleted(s.said.handle.value)];
      Delivered(cfg, inc, s, s.world, trace, ReverseDrainComplete, RevokingNew);
    case Err(_) => Delivered(cfg, inc, s, s.world, s.trace, ReverseDrainTimeout, NeedsOperator);
    case _ =>
  }

  lemma RevokeNewUnpublishesNothing(cfg: Config, inc: Handle, at: Replayed, world: World)
    requires StateFacts(cfg, inc, at, world) && at.state.RevokingNew? && at.handle.Some?
    ensures StateFacts(cfg, inc, at, world.Revoke(at.handle.value))
    ensures StateFacts(cfg, inc, at.(state := RolledBack), world.Revoke(at.handle.value))
  {
    RevokeSparesOther(world, at.handle.value, Old, inc);
  }

  lemma RevokeNewKeeps(cfg: Config, inc: Handle, s: Sys, reply: Reply)
    requires Calling(cfg, inc, s, RevokingNew)
    ensures Keeps(cfg, inc, s, CallStep(cfg, s, RevokingNew, reply))
  {
    var handle := s.said.handle.value;
    var revoked, trace := s.world.Revoke(handle), s.trace + [RevokeCalled(handle)];
    RevokeNewUnpublishesNothing(cfg, inc, s.said, s.world);
    if reply.Ok? {
      Delivered(cfg, inc, s, revoked, trace, RevokeNewOk, RolledBack);
    } else if reply.Err? {
      Delivered(cfg, inc, s, if reply.landed then revoked else s.world, trace, RevokeNewFailed, NeedsOperator);
    }
  }

  lemma CallKeeps(cfg: Config, inc: Handle, s: Sys, state: RotationState, reply: Reply)
    requires Calling(cfg, inc, s, state) && Honest(inc, reply) && !state.IsTerminal()
    ensures Keeps(cfg, inc, s, CallStep(cfg, s, state, reply))
  {
    if state.Provisioning? { ProvisionKeeps(cfg, inc, s, reply); }
    else if state.Verifying? { VerifyKeeps(cfg, inc, s, reply); }
    else if state.Publishing? { PublishKeeps(cfg, inc, s, reply); }
    else if state.Draining? { DrainKeeps(cfg, inc, s, reply); }
    else if state.Revoking? { RevokeOldKeeps(cfg, inc, s, reply); }
    else if state.RestoringPublication? { RestoreKeeps(cfg, inc, s, reply); }
    else if state.ReverseDraining? { ReverseDrainKeeps(cfg, inc, s, reply); }
    else { RevokeNewKeeps(cfg, inc, s, reply); }
  }

  // ---- publishing ----

  lemma StageKeeps(cfg: Config, inc: Handle, s: Sys, reply: Reply)
    requires Claims(cfg, inc, s) && s.process.Up? && s.process.pc.Stage?
    ensures Keeps(cfg, inc, s, StageStep(cfg, s, s.process.pc.value, reply))
  {}

  lemma PromoteKeeps(cfg: Config, inc: Handle, s: Sys, reply: Reply)
    requires Claims(cfg, inc, s) && s.process.Up? && s.process.pc.Promote?
    ensures Keeps(cfg, inc, s, PromoteStep(s, s.process.pc.version, reply))
  {}

  // ---- recovery ----

  /** Recovery never resolves to a state whose claims are false. */
  lemma ReconcileIsSound(cfg: Config, inc: Handle, at: Replayed, world: World)
    requires StateFacts(cfg, inc, at, world)
    requires cfg.active.Some? ==> cfg.active.value == inc
    ensures
      var observed := Observe(world, RecoveredContext(cfg, at));
      StateFacts(cfg, inc, at.(state := Reconcile(at.state, observed)), world)
  {}

  lemma ResumeKeeps(cfg: Config, inc: Handle, s: Sys, ctx: RunContext)
    requires Claims(cfg, inc, s.(process := Down)) && s.records != []
    requires ContextMatches(cfg, s.said, ctx) && ctx.newValue.None?
    requires !s.said.state.Provisioning? && !s.said.state.Verifying? && !s.said.state.Publishing?
    ensures Claims(cfg, inc, Resume(cfg, s, ctx, s.said.state))
  {}

  lemma RecoverKeeps(cfg: Config, inc: Handle, s: Sys, reply: Reply)
    requires Claims(cfg, inc, s) && Fold(s.records) == Some(s.said) && s.process.Down?
    ensures Keeps(cfg, inc, s, RecoverStep(cfg, s, reply))
  {
    if reply.Ok? && s.records != [] && !s.said.state.IsInFlight() {
      ResumeKeeps(cfg, inc, s, RecoveredContext(cfg, s.said));
    }
  }

  lemma ResolveKeeps(cfg: Config, inc: Handle, s: Sys)
    requires Claims(cfg, inc, s) && s.process.Up? && s.process.pc.Resolve?
    ensures Keeps(cfg, inc, s, DurableStep(cfg, s))
  {
    var from, observed := s.process.pc.from, s.process.pc.observed;
    var record := Transition(from, Reconciled(observed), Reconcile(from, observed));
    assert observed == Observe(s.world, RecoveredContext(cfg, s.said));
    ReconcileIsSound(cfg, inc, s.said, s.world);
    ResumeKeeps(cfg, inc, Log(s, record), s.process.ctx);
    assert LoggedRecord(s, DurableStep(cfg, s), record);
  }

  // ---- the other durable steps ----

  lemma BeginKeeps(cfg: Config, inc: Handle, s: Sys)
    requires Claims(cfg, inc, s) && s.process.Up? && s.process.pc.Begin?
    ensures Keeps(cfg, inc, s, DurableStep(cfg, s))
  {
    assert LoggedRecord(s, DurableStep(cfg, s), RunStarted(s.process.pc.apply));
  }

  lemma AssignKeeps(cfg: Config, inc: Handle, s: Sys)
    requires Claims(cfg, inc, s) && s.process.Up? && s.process.pc.AssignHandle?
    ensures Keeps(cfg, inc, s, DurableStep(cfg, s))
  {
    assert LoggedRecord(s, DurableStep(cfg, s), HandleAssigned(s.process.pc.handle));
  }

  lemma BaselineKeeps(cfg: Config, inc: Handle, s: Sys)
    requires Claims(cfg, inc, s) && s.process.Up? && s.process.pc.Baseline?
    ensures Keeps(cfg, inc, s, DurableStep(cfg, s))
  {
    assert LoggedRecord(s, DurableStep(cfg, s), PublicationBaseline(s.process.pc.current));
  }

  lemma RecordVersionKeeps(cfg: Config, inc: Handle, s: Sys)
    requires Claims(cfg, inc, s) && s.process.Up? && s.process.pc.RecordVersion?
    ensures Keeps(cfg, inc, s, DurableStep(cfg, s))
  {
    assert LoggedRecord(s, DurableStep(cfg, s), VersionAssigned(s.said.previous, s.process.pc.version));
  }

  lemma AbandonKeeps(cfg: Config, inc: Handle, s: Sys)
    requires Claims(cfg, inc, s) && s.process.Up? && s.process.pc.Abandon?
    ensures Keeps(cfg, inc, s, DurableStep(cfg, s))
  {
    TransitKeeps(cfg, inc, s, s.process.pc.from, AbortRequested);
  }

  lemma DurableKeeps(cfg: Config, inc: Handle, s: Sys)
    requires Claims(cfg, inc, s) && s.process.Up?
    ensures Keeps(cfg, inc, s, DurableStep(cfg, s))
  {
    var pc := s.process.pc;
    if pc.Begin? { BeginKeeps(cfg, inc, s); }
    else if pc.AssignHandle? { AssignKeeps(cfg, inc, s); }
    else if pc.Baseline? { BaselineKeeps(cfg, inc, s); }
    else if pc.RecordVersion? { RecordVersionKeeps(cfg, inc, s); }
    else if pc.Resolve? { ResolveKeeps(cfg, inc, s); }
    else if pc.Abandon? { AbandonKeeps(cfg, inc, s); }
    else if pc.Deliver? { DeliverKeeps(cfg, inc, s, pc.from, pc.event); }
    else if pc.Commit? { TransitKeeps(cfg, inc, s, pc.from, pc.event); }
    else { DieKeeps(cfg, inc, s); }
  }

  // ---- the head of the loop ----

  lemma StartHolds(cfg: Config, inc: Handle, s: Sys, event: RotationEvent)
    requires Claims(cfg, inc, s) && s.process.Up? && s.process.pc.Head?
    requires StartEvent(s.said.state) == Some(event)
    ensures DeliverFacts(cfg, inc, s, s.said, s.said.state, event)
  {}

  lemma SkippedCallHolds(cfg: Config, inc: Handle, s: Sys, event: RotationEvent)
    requires Claims(cfg, inc, s) && s.process.Up? && s.process.pc.Head?
    requires s.said.state.IsInFlight() && ImmediateEvent(s.said.state, s.process.ctx) == Some(event)
    ensures DeliverFacts(cfg, inc, s, s.said, s.said.state, event)
  {
    hide Reconcile, HintFor, Fold;
    if s.said.state.Verifying? || s.said.state.RestoringPublication? {
    } else if s.said.state.Draining? || s.said.state.Revoking? {
    } else {
    }
  }

  lemma ImmediateHolds(cfg: Config, inc: Handle, s: Sys, event: RotationEvent)
    requires Claims(cfg, inc, s) && s.process.Up? && s.process.pc.Head? && !s.said.state.IsTerminal()
    requires ImmediateEvent(s.said.state, s.process.ctx) == Some(event)
    ensures DeliverFacts(cfg, inc, s, s.said, s.said.state, event)
  {
    if s.said.state.IsInFlight() {
      SkippedCallHolds(cfg, inc, s, event);
    } else {
      StartHolds(cfg, inc, s, event);
    }
  }

  lemma HeadKeeps(cfg: Config, inc: Handle, s: Sys, reply: Reply)
    requires Claims(cfg, inc, s) && s.process.Up? && s.process.pc.Head? && Honest(inc, reply)
    ensures Keeps(cfg, inc, s, HeadStep(cfg, s, s.process.pc.state, reply))
  {
    var state := s.process.pc.state;
    var immediate := ImmediateEvent(state, s.process.ctx);
    DieKeeps(cfg, inc, s);
    if state.IsTerminal() {
      if reply.Ok? {
        assert LoggedRecord(s, HeadStep(cfg, s, state, reply), RunFinished(state));
      }
    } else if immediate.None? {
      CallKeeps(cfg, inc, s, state, reply);
    } else {
      ImmediateHolds(cfg, inc, s, immediate.value);
      DeliverKeeps(cfg, inc, s, state, immediate.value);
    }
  }

  // ---- every step, every run ----

  lemma AdvanceKeepsClaims(cfg: Config, inc: Handle, s: Sys, reply: Reply)
    requires Claims(cfg, inc, s) && Fold(s.records) == Some(s.said) && Honest(inc, reply)
    ensures Keeps(cfg, inc, s, Advance(cfg, s, reply))
  {
    DieKeeps(cfg, inc, s);
    if s.process.Down? { RecoverKeeps(cfg, inc, s, reply); }
    else if reply.Crash? { }
    else if s.process.pc.Head? { HeadKeeps(cfg, inc, s, reply); }
    else if s.process.pc.Stage? { StageKeeps(cfg, inc, s, reply); }
    else if s.process.pc.Promote? { PromoteKeeps(cfg, inc, s, reply); }
    else { DurableKeeps(cfg, inc, s); }
  }

  lemma LoggedKeepsRecords(s: Sys, s': Sys)
    requires RecordsFacts(s.records, s.said) && Logged(s, s')
    ensures RecordsFacts(s'.records, s'.said)
  {
    if s'.records != s.records || s'.said != s.said {
      var record :| LoggedRecord(s, s', record);
      FoldSnoc(s.records, record);
      assert forall i :: 0 <= i < |s.records| ==> s'.records[i] == s.records[i];
    }
  }

  lemma AdvanceKeepsInvariant(cfg: Config, inc: Handle, s: Sys, reply: Reply)
    requires Invariant(cfg, inc, s) && Honest(inc, reply)
    ensures Invariant(cfg, inc, Advance(cfg, s, reply))
  {
    AdvanceKeepsClaims(cfg, inc, s, reply);
    LoggedKeepsRecords(s, Advance(cfg, s, reply));
  }

  ghost predicate AllHonest(inc: Handle, replies: seq<Reply>) {
    forall i :: 0 <= i < |replies| ==> Honest(inc, replies[i])
  }

  lemma {:induction false} RunKeepsInvariant(cfg: Config, inc: Handle, s: Sys, replies: seq<Reply>)
    requires Invariant(cfg, inc, s) && AllHonest(inc, replies)
    ensures Invariant(cfg, inc, Run(cfg, s, replies))
  {
    if replies != [] {
      RunKeepsInvariant(cfg, inc, s, replies[..|replies| - 1]);
      AdvanceKeepsInvariant(cfg, inc, Run(cfg, s, replies[..|replies| - 1]), replies[|replies| - 1]);
    }
  }
}
