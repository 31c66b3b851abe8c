/**
The order of effects is kept by every step: what is staged was verified in the same
process, what is made current was staged, and the old credential is revoked only after
a publication and a completed drain.
*/
module MachineHistory {
  import opened Wrappers
  import opened Protocol
  import opened JournalFile
  import opened Machine
  import opened MachineInvariant

  // ---- how one effect extends the history ----

  lemma PassingVerifies(trace: seq<Effect>, handle: Handle, value: Secret)
    requires ProvisionedNow(trace, handle, value)
    ensures VerifiedNow(trace + [VerifyPassed(value)], handle, value)
  {
    var a :| ProvisionedAt(trace, a, handle, value);
    var longer := trace + [VerifyPassed(value)];
    assert ProvisionedAt(longer, a, handle, value) && PassedAt(longer, |trace|, value);
  }

  lemma MarksExtend(trace: seq<Effect>, effect: Effect, value: Secret, handle: Handle)
    ensures Exposed(trace) ==> Exposed(trace + [effect])
    ensures Staged(trace, value) ==> Staged(trace + [effect], value)
    ensures DrainedAfterPublication(trace, handle) ==> DrainedAfterPublication(trace + [effect], handle)
  {
    var longer := trace + [effect];
    if Exposed(trace) {
      var p :| CurrentAt(trace, p);
      assert CurrentAt(longer, p);
    }
    if Staged(trace, value) {
      var i :| StagedAt(trace, i, value);
      assert StagedAt(longer, i, value);
    }
    if DrainedAfterPublication(trace, handle) {
      var p, d :| CurrentAt(trace, p) && DrainedAt(trace, d, handle) && p < d;
      assert CurrentAt(longer, p) && DrainedAt(longer, d, handle);
    }
  }

  lemma DrainMarks(trace: seq<Effect>, handle: Handle)
    requires Exposed(trace)
    ensures DrainedAfterPublication(trace + [DrainCompleted(handle)], handle)
  {
    var p :| CurrentAt(trace, p);
    var longer := trace + [DrainCompleted(handle)];
    assert CurrentAt(longer, p) && DrainedAt(longer, |trace|, handle);
  }

  lemma CurrentMarks(trace: seq<Effect>, value: Secret)
    ensures Exposed(trace + [MadeCurrent(value)])
  {
    assert CurrentAt(trace + [MadeCurrent(value)], |trace|);
  }

  lemma StageMarks(trace: seq<Effect>, value: Secret)
    ensures Staged(trace + [StageCalled(value)], value)
  {
    assert StagedAt(trace + [StageCalled(value)], |trace|, value);
  }

  lemma CreatedExtends(trace: seq<Effect>, effect: Effect, handle: Handle)
    ensures CreatedByRun(trace + [effect], handle) <==> CreatedByRun(trace, handle) || Creates(effect, handle)
  {
    var longer := trace + [effect];
    if CreatedByRun(trace, handle) {
      var i :| CreatedAt(trace, i, handle);
      assert CreatedAt(longer, i, handle);
    }
    if Creates(effect, handle) {
      assert CreatedAt(longer, |trace|, handle);
    }
    if CreatedByRun(longer, handle) && !Creates(effect, handle) {
      var i :| CreatedAt(longer, i, handle);
      assert CreatedAt(trace, i, handle);
    }
  }

  lemma OrderExtends(trace: seq<Effect>, effect: Effect, inc: Handle, journalled: Option<Handle>)
    requires EffectsOrdered(trace, inc, journalled) && Justified(trace, effect, inc, journalled)
    ensures EffectsOrdered(trace + [effect], inc, journalled)
  {
    var longer := trace + [effect];
    forall i | 0 <= i < |longer|
      ensures JustifiedAt(longer, i, inc, journalled)
    {
      if i < |trace| {
        assert JustifiedAt(trace, i, inc, journalled);
        assert longer[..i] == trace[..i];
      } else {
        assert longer[..i] == trace;
      }
    }
  }

  /** A justified effect keeps the history facts of a state. */
  lemma EffectKeeps(
    cfg: Config, inc: Handle, at: Replayed, before: World, world: World, trace: seq<Effect>, effect: Effect)
    requires HistoryFacts(cfg, inc, at, before, trace)
    requires Justified(trace, effect, inc, at.handle)
    requires forall h :: h in before.live && h != inc && at.handle != Some(h) ==> h in world.live
    requires forall h :: Creates(effect, h) ==> h in world.live && h != inc
    ensures HistoryFacts(cfg, inc, at, world, trace + [effect])
  {
    OrderExtends(trace, effect, inc, at.handle);
    MarksExtend(trace, effect, 0, inc);
    CreatedExtends(trace, effect, inc);
    forall h | CreatedByRun(trace + [effect], h)
      ensures h in world.live || at.handle == Some(h)
    {
      CreatedExtends(trace, effect, h);
    }
  }

  /** The facts carry over to a state that claims no more than this history shows. */
  lemma Restated(cfg: Config, inc: Handle, at: Replayed, at': Replayed, world: World, world': World, trace: seq<Effect>)
    requires HistoryFacts(cfg, inc, at, world, trace)
    requires world'.live == world.live
    requires at.handle == at'.handle || at.handle.None?
    requires at'.written.Some? ==> Exposed(trace)
    requires cfg.active.Some? && (at'.state.Drained? || at'.state.Revoking? || at'.state.Completed?) ==>
      DrainedAfterPublication(trace, inc)
    ensures HistoryFacts(cfg, inc, at', world', trace)
  {
    forall i | 0 <= i < |trace|
      ensures JustifiedAt(trace, i, inc, at'.handle)
    {
      assert JustifiedAt(trace, i, inc, at.handle);
    }
  }

  // ---- one lemma per kind of step ----

  ghost predicate Both(cfg: Config, inc: Handle, s: Sys) {
    Claims(cfg, inc, s) && HistoryInvariant(cfg, inc, s)
  }

  lemma DieHistory(cfg: Config, inc: Handle, s: Sys)
    requires Both(cfg, inc, s)
    ensures HistoryInvariant(cfg, inc, Die(s))
  {
    EffectKeeps(cfg, inc, s.said, s.world, s.world, s.trace, ProcessEnded);
  }

  lemma TransitHistory(cfg: Config, inc: Handle, s: Sys, from: RotationState, event: RotationEvent)
    requires HistoryInvariant(cfg, inc, s) && s.process.Up?
    requires from == s.said.state && Next(from, event).Some? && DeliverHistory(cfg, inc, s, s.said, from, event)
    ensures HistoryInvariant(cfg, inc, Transit(cfg, s, from, event))
  {}

  lemma DeliverStepHistory(cfg: Config, inc: Handle, s: Sys, from: RotationState, event: RotationEvent)
    requires HistoryInvariant(cfg, inc, s) && s.process.Up?
    requires from == s.said.state && Next(from, event).Some? && DeliverHistory(cfg, inc, s, s.said, from, event)
    ensures HistoryInvariant(cfg, inc, DeliverStep(cfg, s, from, event))
  {
    hide Transit, Next, HistoryInvariant, DeliverHistory, HintFor;
    if HintFor(from, event).None? {
      TransitHistory(cfg, inc, s, from, event);
    } else {
      EscalationHistory(cfg, inc, s, from, event);
    }
  }

  /** Noting an escalation changes none of the facts. */
  lemma EscalatedFacts(cfg: Config, inc: Handle, at: Replayed, hint: RemediationHint, world: World, trace: seq<Effect>)
    requires HistoryFacts(cfg, inc, at, world, trace)
    ensures HistoryFacts(cfg, inc, at.(escalation := Some(hint)), world, trace)
  {
    Restated(cfg, inc, at, at.(escalation := Some(hint)), world, world, trace);
  }

  lemma EscalationHistory(cfg: Config, inc: Handle, s: Sys, from: RotationState, event: RotationEvent)
    requires HistoryInvariant(cfg, inc, s) && s.process.Up? && HintFor(from, event).Some?
    requires from == s.said.state && Next(from, event).Some? && DeliverHistory(cfg, inc, s, s.said, from, event)
    ensures HistoryInvariant(cfg, inc, DeliverStep(cfg, s, from, event))
  {
    hide HintFor, HistoryFacts, Next;
    var hint := HintFor(from, event).value;
    EscalatedFacts(cfg, inc, s.said, hint, s.world, s.trace);
    EscalatedFacts(cfg, inc, s.said.(state := Next(from, event).value), hint, s.world, s.trace);
  }

  /** A call that left this trace and world delivers an event. */
  lemma DeliveredHistory(
    cfg: Config, inc: Handle, s: Sys, world: World, trace: seq<Effect>, event: RotationEvent, to: RotationState)
    requires s.process.Up? && Next(s.said.state, event) == Some(to)
    requires HistoryFacts(cfg, inc, s.said, world, trace)
    requires cfg.active.Some? && (to.Drained? || to.Revoking? || to.Completed?) ==> DrainedAfterPublication(trace, inc)
    requires HeadHistory(s.said.(state := to), trace, s.process.ctx)
    ensures HistoryInvariant(cfg, inc, Goto(s.(world := world, trace := trace), Deliver(s.said.state, event)))
  {
    Restated(cfg, inc, s.said, s.said.(state := to), world, world, trace);
  }

  lemma ProvisionHistory(cfg: Config, inc: Handle, s: Sys, reply: Reply)
    requires Both(cfg, inc, s) && s.process.Up? && s.process.pc == Head(Provisioning) && Honest(inc, reply)
    ensures HistoryInvariant(cfg, inc, ProvisionCall(s, reply))
  {
    if reply.Created? {
      var world, effect := s.world.Accept(reply.handle, reply.value), CredentialMade(reply.handle, reply.value);
      EffectKeeps(cfg, inc, s.said, s.world, world, s.trace, effect);
      assert ProvisionedAt(s.trace + [effect], |s.trace|, reply.handle, reply.value);
    } else if reply.ErrCreated? {
      var world, effect := s.world.Accept(reply.handle, reply.value), Orphaned(reply.handle);
      EffectKeeps(cfg, inc, s.said, s.world, world, s.trace, effect);
      DeliveredHistory(cfg, inc, s, world, s.trace + [effect], ProvisionFailed, RevokingNew);
    } else if reply.Err? {
      DeliveredHistory(cfg, inc, s, s.world, s.trace, ProvisionFailed, RevokingNew);
    } else {
      DieHistory(cfg, inc, s);
    }
  }

  lemma VerifyHistory(cfg: Config, inc: Handle, s: Sys, reply: Reply)
    requires Both(cfg, inc, s) && s.process.Up? && s.process.pc == Head(Verifying)
    ensures s.process.ctx.newValue.Some?
    ensures HistoryInvariant(cfg, inc, VerifyCall(s, s.process.ctx.newValue.value, reply))
  {
    var value := s.process.ctx.newValue.value;
    if reply.Ok? {
      EffectKeeps(cfg, inc, s.said, s.world, s.world, s.trace, VerifyPassed(value));
      PassingVerifies(s.trace, s.said.handle.value, value);
      DeliveredHistory(cfg, inc, s, s.world, s.trace + [VerifyPassed(value)], VerifyOk, Verified);
    } else if reply.Err? {
      DeliveredHistory(cfg, inc, s, s.world, s.trace, VerifyFailed, RevokingNew);
    } else {
      DieHistory(cfg, inc, s);
    }
  }

  lemma PublishHistory(cfg: Config, inc: Handle, s: Sys, reply: Reply)
    requires Both(cfg, inc, s) && s.process.Up? && s.process.pc == Head(Publishing)
    ensures HistoryInvariant(cfg, inc, PublishCall(s, reply))
  {
    if reply.Err? {
      DeliveredHistory(cfg, inc, s, s.world, s.trace, PublishFailed, RestoringPublication);
    } else if !reply.Ok? {
      DieHistory(cfg, inc, s);
    }
  }

  lemma DrainHistory(cfg: Config, inc: Handle, s: Sys, reply: Reply)
    requires Both(cfg, inc, s) && s.process.Up? && s.process.pc == Head(Draining) && cfg.active == Some(inc)
    ensures HistoryInvariant(cfg, inc, DrainCall(s, inc, reply, Draining, DrainComplete, DrainTimeout))
  {
    if reply.Ok? {
      EffectKeeps(cfg, inc, s.said, s.world, s.world, s.trace, DrainCompleted(inc));
      DrainMarks(s.trace, inc);
      DeliveredHistory(cfg, inc, s, s.world, s.trace + [DrainCompleted(inc)], DrainComplete, Drained);
    } else if reply.Err? {
      DeliveredHistory(cfg, inc, s, s.world, s.trace, DrainTimeout, NeedsOperator);
    } else {
      DieHistory(cfg, inc, s);
    }
  }

  lemma RevokeOldHistory(cfg: Config, inc: Handle, s: Sys, reply: Reply)
    requires Both(cfg, inc, s) && s.process.Up? && s.process.pc == Head(Revoking) && cfg.active == Some(inc)
    ensures HistoryInvariant(cfg, inc, RevokeCall(s, inc, reply, Revoking, RevokeOk, RevokeFailed))
  {
    var trace := s.trace + [RevokeCalled(inc)];
    if reply.Ok? || reply.Err? {
      var world := if reply.Ok? || reply.landed then s.world.Revoke(inc) else s.world;
      EffectKeeps(cfg, inc, s.said, s.world, world, s.trace, RevokeCalled(inc));
      if reply.Ok? {
        DeliveredHistory(cfg, inc, s, world, trace, RevokeOk, Completed);
      } else {
        DeliveredHistory(cfg, inc, s, world, trace, RevokeFailed, NeedsOperator);
      }
    } else {
      DieHistory(cfg, inc, s);
    }
  }

  lemma RestoreHistory(cfg: Config, inc: Handle, s: Sys, version: VersionId, reply: Reply)
    requires Both(cfg, inc, s) && s.process.Up? && s.process.pc == Head(RestoringPublication)
    ensures HistoryInvariant(cfg, inc, RestoreCall(cfg, s, version, reply))
  {
    hide StateFacts, HeadFacts, ContextMatches, EffectsOrdered, Rank;
    if reply.Ok? || reply.Err? {
      var world := if reply.Ok? || reply.landed then s.world.Restore(version, cfg.nativeRestore) else s.world;
      Restated(cfg, inc, s.said, s.said, s.world, world, s.trace);
      DeliveredHistory(cfg, inc, s, world, s.trace, RestoreOk, ReverseDraining);
      DeliveredHistory(cfg, inc, s, world, s.trace, RestoreFailed, NeedsOperator);
    } else {
      DieHistory(cfg, inc, s);
    }
  }

  lemma ReverseDrainHistory(cfg: Config, inc: Handle, s: Sys, handle: Handle, reply: Reply)
    requires Both(cfg, inc, s) && s.process.Up? && s.process.pc == Head(ReverseDraining)
    ensures
      var end := DrainCall(s, handle, reply, ReverseDraining, ReverseDrainComplete, ReverseDrainTimeout);
      HistoryInvariant(cfg, inc, end)
  {
    if reply.Ok? {
      EffectKeeps(cfg, inc, s.said, s.world, s.world, s.trace, DrainCompleted(handle));
      DeliveredHistory(cfg, inc, s, s.world, s.trace + [DrainCompleted(handle)], ReverseDrainComplete, RevokingNew);
    } else if reply.Err? {
      DeliveredHistory(cfg, inc, s, s.world, s.trace, ReverseDrainTimeout, NeedsOperator);
    } else {
      DieHistory(cfg, inc, s);
    }
  }

  lemma RevokeNewHistory(cfg: Config, inc: Handle, s: Sys, handle: Handle, reply: Reply)
    requires Both(cfg, inc, s) && s.process.Up? && s.process.pc == Head(RevokingNew) && s.said.handle == Some(handle)
    ensures HistoryInvariant(cfg, inc, RevokeCall(s, handle, reply, RevokingNew, RevokeNewOk, RevokeNewFailed))
  {
    var trace := s.trace + [RevokeCalled(handle)];
    if reply.Ok? || reply.Err? {
      var world := if reply.Ok? || reply.landed then s.world.Revoke(handle) else s.world;
      EffectKeeps(cfg, inc, s.said, s.world, world, s.trace, RevokeCalled(handle));
      if reply.Ok? {
        DeliveredHistory(cfg, inc, s, world, trace, RevokeNewOk, RolledBack);
      } else {
        DeliveredHistory(cfg, inc, s, world, trace, RevokeNewFailed, NeedsOperator);
      }
    } else {
      DieHistory(cfg, inc, s);
    }
  }

  lemma CallHistory(cfg: Config, inc: Handle, s: Sys, reply: Reply)
    requires Both(cfg, inc, s) && s.process.Up? && s.process.pc == Head(s.said.state) && Honest(inc, reply)
    requires !s.said.state.IsTerminal() && ImmediateEvent(s.said.state, s.process.ctx).None?
    ensures HistoryInvariant(cfg, inc, CallStep(cfg, s, s.said.state, reply))
  {
    var state := s.said.state;
    if state.Provisioning? { ProvisionHistory(cfg, inc, s, reply); }
    else if state.Verifying? { VerifyHistory(cfg, inc, s, reply); }
    else if state.Publishing? { PublishHistory(cfg, inc, s, reply); }
    else if state.Draining? { DrainHistory(cfg, inc, s, reply); }
    else if state.Revoking? { RevokeOldHistory(cfg, inc, s, reply); }
    else if state.RestoringPublication? { RestoreHistory(cfg, inc, s, s.said.previous.value, reply); }
    else if state.ReverseDraining? { ReverseDrainHistory(cfg, inc, s, s.said.handle.value, reply); }
    else { RevokeNewHistory(cfg, inc, s, s.said.handle.value, reply); }
  }

  lemma ImmediateHistory(cfg: Config, inc: Handle, s: Sys, event: RotationEvent)
    requires Both(cfg, inc, s) && s.process.Up? && s.process.pc == Head(s.said.state)
    requires ImmediateEvent(s.said.state, s.process.ctx) == Some(event) && Next(s.said.state, event).Some?
    ensures DeliverHistory(cfg, inc, s, s.said, s.said.state, event)
  {
    hide ImmediateEvent, Next, DeliverHistory, Claims, HistoryInvariant;
    if s.said.state.IsInFlight() {
      SkippedCallHistory(cfg, inc, s, event);
    } else {
      StartHistory(cfg, inc, s, event);
    }
  }

  lemma SkippedCallHistory(cfg: Config, inc: Handle, s: Sys, event: RotationEvent)
    requires Both(cfg, inc, s) && s.process.Up? && s.process.pc == Head(s.said.state) && s.said.state.IsInFlight()
    requires ImmediateEvent(s.said.state, s.process.ctx) == Some(event) && Next(s.said.state, event).Some?
    ensures DeliverHistory(cfg, inc, s, s.said, s.said.state, event)
  {
    Restated(cfg, inc, s.said, s.said.(state := Next(s.said.state, event).value), s.world, s.world, s.trace);
  }

  lemma StartHistory(cfg: Config, inc: Handle, s: Sys, event: RotationEvent)
    requires Both(cfg, inc, s) && s.process.Up? && s.process.pc == Head(s.said.state) && !s.said.state.IsInFlight()
    requires ImmediateEvent(s.said.state, s.process.ctx) == Some(event) && Next(s.said.state, event).Some?
    ensures DeliverHistory(cfg, inc, s, s.said, s.said.state, event)
  {
    hide StateFacts, HeadFacts, Reconcile, VerifiedNow, ProvisionedNow;
    Restated(cfg, inc, s.said, s.said.(state := Next(s.said.state, event).value), s.world, s.world, s.trace);
  }

  lemma ImmediateEventIsLegal(state: RotationState, ctx: RunContext)
    ensures !state.IsTerminal() && ImmediateEvent(state, ctx).Some? ==>
      Next(state, ImmediateEvent(state, ctx).value).Some?
  {}

  lemma HeadHistoryKept(cfg: Config, inc: Handle, s: Sys, reply: Reply)
    requires Both(cfg, inc, s) && s.process.Up? && s.process.pc.Head? && Honest(inc, reply)
    ensures HistoryInvariant(cfg, inc, HeadStep(cfg, s, s.process.pc.state, reply))
  {
    hide CallStep, DeliverStep, HistoryFacts, ImmediateEvent, DeliverHistory, Next;
    var state := s.said.state;
    var immediate := ImmediateEvent(state, s.process.ctx);
    ImmediateEventIsLegal(state, s.process.ctx);
    DieHistory(cfg, inc, s);
    if !state.IsTerminal() && immediate.None? {
      CallHistory(cfg, inc, s, reply);
    } else if !state.IsTerminal() {
      ImmediateHistory(cfg, inc, s, immediate.value);
      DeliverStepHistory(cfg, inc, s, state, immediate.value);
    }
  }

  lemma StageHistory(cfg: Config, inc: Handle, s: Sys, reply: Reply)
    requires Both(cfg, inc, s) && s.process.Up? && s.process.pc.Stage?
    ensures HistoryInvariant(cfg, inc, StageStep(cfg, s, s.process.pc.value, reply))
  {
    var value := s.process.pc.value;
    var called := s.trace + [StageCalled(value)];
    var written := s.world.Write(Stored(value, New), !cfg.atomicPromote);
    EffectKeeps(cfg, inc, s.said, s.world, written, s.trace, StageCalled(value));
    EffectKeeps(cfg, inc, s.said, s.world, s.world, s.trace, StageCalled(value));
    StageMarks(s.trace, value);
    if reply.Ok? && !cfg.atomicPromote {
      EffectKeeps(cfg, inc, s.said, written, written, called, MadeCurrent(value));
      CurrentMarks(called, value);
    } else if reply.Err? {
      var ctx := s.process.ctx.(newValue := None);
      DeliveredHistory(cfg, inc, WithContext(s, ctx), if reply.landed then written else s.world, called,
                       PublishFailed, RestoringPublication);
    } else if !reply.Ok? {
      DieHistory(cfg, inc, s);
    }
  }

  lemma PromoteHistory(cfg: Config, inc: Handle, s: Sys, reply: Reply)
    requires Both(cfg, inc, s) && s.process.Up? && s.process.pc.Promote?
    ensures HistoryInvariant(cfg, inc, PromoteStep(s, s.process.pc.version, reply))
  {
    var version := s.process.pc.version;
    var promoted, value := s.world.(published := Some(version)), s.world.At(version).value;
    if reply.Ok? {
      EffectKeeps(cfg, inc, s.said, s.world, promoted, s.trace, MadeCurrent(value));
      CurrentMarks(s.trace, value);
    } else if reply.Err? {
      Restated(cfg, inc, s.said, s.said, s.world, promoted, s.trace);
      var world := if reply.landed then promoted else s.world;
      DeliveredHistory(cfg, inc, s, world, s.trace, PublishFailed, RestoringPublication);
    } else {
      DieHistory(cfg, inc, s);
    }
  }

  lemma ResolveHistory(cfg: Config, inc: Handle, s: Sys)
    requires Both(cfg, inc, s) && s.process.Up? && s.process.pc.Resolve?
    ensures HistoryInvariant(cfg, inc, DurableStep(cfg, s))
  {
    var to := Reconcile(s.process.pc.from, s.process.pc.observed);
    Restated(cfg, inc, s.said, s.said.(state := to), s.world, s.world, s.trace);
  }

  lemma RecordedHistory(cfg: Config, inc: Handle, s: Sys)
    requires Both(cfg, inc, s) && s.process.Up?
    requires s.process.pc.AssignHandle? || s.process.pc.Baseline? || s.process.pc.RecordVersion?
    ensures HistoryInvariant(cfg, inc, DurableStep(cfg, s))
  {
    var pc, at, t := s.process.pc, s.said, s.trace;
    if pc.AssignHandle? {
      var named := at.(handle := Some(pc.handle));
      Restated(cfg, inc, at, named, s.world, s.world, t);
      Restated(cfg, inc, at, named.(state := Provisioned), s.world, s.world, t);
    } else if pc.Baseline? {
      Restated(cfg, inc, at, at.(previous := pc.current), s.world, s.world, t);
    } else {
      var recorded := at.(previous := s.process.ctx.previousVersion, written := Some(pc.version));
      Restated(cfg, inc, at, recorded, s.world, s.world, t);
      Restated(cfg, inc, at, recorded.(state := Published), s.world, s.world, t);
    }
  }

  lemma DurableHistory(cfg: Config, inc: Handle, s: Sys)
    requires Both(cfg, inc, s) && s.process.Up?
    ensures HistoryInvariant(cfg, inc, DurableStep(cfg, s))
  {
    var pc, at, t := s.process.pc, s.said, s.trace;
    DieHistory(cfg, inc, s);
    if pc.AssignHandle? || pc.Baseline? || pc.RecordVersion? {
      RecordedHistory(cfg, inc, s);
    } else if pc.Deliver? {
      DeliverStepHistory(cfg, inc, s, pc.from, pc.event);
    } else if pc.Commit? {
      TransitHistory(cfg, inc, s, pc.from, pc.event);
    } else if pc.Resolve? {
      ResolveHistory(cfg, inc, s);
    } else if pc.Abandon? {
      Restated(cfg, inc, at, at.(state := RevokingNew), s.world, s.world, t);
      TransitHistory(cfg, inc, s, pc.from, AbortRequested);
    }
  }

  lemma AdvanceKeepsHistory(cfg: Config, inc: Handle, s: Sys, reply: Reply)
    requires Both(cfg, inc, s) && Fold(s.records) == Some(s.said) && Honest(inc, reply)
    ensures HistoryInvariant(cfg, inc, Advance(cfg, s, reply))
  {
    DieHistory(cfg, inc, s);
    if s.process.Down? || reply.Crash? { }
    else if s.process.pc.Head? { HeadHistoryKept(cfg, inc, s, reply); }
    else if s.process.pc.Stage? { StageHistory(cfg, inc, s, reply); }
    else if s.process.pc.Promote? { PromoteHistory(cfg, inc, s, reply); }
    else { DurableHistory(cfg, inc, s); }
  }
}
