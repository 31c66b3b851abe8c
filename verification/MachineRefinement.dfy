/**
The running engine refines the ghost protocol: between two recorded transitions the
world moves only as the recorded event allows.
*/
module MachineRefinement {
  import opened Wrappers
  import opened Protocol
  import opened GhostModel
  import opened JournalFile
  import opened Machine
  import opened MachineInvariant

  /** How the ghost world stands to the one the current pass through the loop found. */
  ghost predicate GhostFacts(cfg: Config, s: Sys)
    requires s.process.Up?
  {
    var world, found, pc := GhostOf(cfg, s), s.process.found, s.process.pc;
    if pc.RecordVersion? then world == found.(published := New)
    else if pc.Deliver? || pc.Commit? then world in found.Successors(pc.event)
    else world == found
  }

  ghost predicate GhostInvariant(cfg: Config, s: Sys) {
    s.process.Up? ==> GhostFacts(cfg, s)
  }

  lemma VerifiedExtends(trace: seq<Effect>, effect: Effect)
    ensures EverVerified(trace + [effect]) <==> EverVerified(trace) || effect.VerifyPassed?
  {
    var longer := trace + [effect];
    if EverVerified(trace) {
      var i :| 0 <= i < |trace| && trace[i].VerifyPassed?;
      assert longer[i].VerifyPassed?;
    }
    if effect.VerifyPassed? {
      assert longer[|trace|].VerifyPassed?;
    }
    if EverVerified(longer) && !effect.VerifyPassed? {
      var i :| 0 <= i < |longer| && longer[i].VerifyPassed?;
      assert trace[i].VerifyPassed?;
    }
  }

  /**
  What an observation says, in any world: the new value is published if the current version is
  the one this run wrote, the old value if it is instead the baseline (or both are absent).
  */
  lemma ObservationMeans(world: World, ctx: RunContext)
    ensures
      var observed := Observe(world, ctx);
      var ours := world.published.Some? && ctx.writtenVersion == world.published;
      && (observed.published.New? <==> ours)
      && (observed.published.Old? <==> !ours && ctx.previousVersion == world.published)
      && (observed.newLive <==> ctx.newHandle.Some? && ctx.newHandle.value in world.live)
      && (observed.oldLive <==> ctx.oldHandle.Some? && ctx.oldHandle.value in world.live)
  {}

  /**
  What `observe` reports is the ghost's truthful observation, except that it may say
  `Unknown` where the version identities do not decide.
  */
  lemma ObservationIsTruthful(cfg: Config, inc: Handle, s: Sys, ctx: RunContext)
    requires Claims(cfg, inc, s) && ContextMatches(cfg, s.said, ctx)
    ensures TruthfulOrUnknown(Observe(s.world, ctx), GhostOf(cfg, s))
  {}

  ghost predicate CallingInGhost(cfg: Config, inc: Handle, s: Sys) {
    && Claims(cfg, inc, s) && s.process.Up? && s.process.pc == Head(s.said.state) && GhostFacts(cfg, s)
    && ImmediateEvent(s.said.state, s.process.ctx).None?
  }

  lemma ProvisionRefines(cfg: Config, inc: Handle, s: Sys, reply: Reply)
    requires CallingInGhost(cfg, inc, s) && s.said.state.Provisioning? && Honest(inc, reply)
    ensures GhostInvariant(cfg, ProvisionCall(s, reply))
  {
    hide EverVerified, Next;
    if reply.Created? {
      VerifiedExtends(s.trace, CredentialMade(reply.handle, reply.value));
    } else if reply.ErrCreated? {
      VerifiedExtends(s.trace, Orphaned(reply.handle));
    }
  }

  lemma VerifyRefines(cfg: Config, inc: Handle, s: Sys, reply: Reply)
    requires CallingInGhost(cfg, inc, s) && s.said.state.Verifying?
    ensures GhostInvariant(cfg, VerifyCall(s, s.process.ctx.newValue.value, reply))
  {
    VerifiedExtends(s.trace, VerifyPassed(s.process.ctx.newValue.value));
  }

  lemma DrainRefines(
    cfg: Config, inc: Handle, s: Sys, handle: Handle, reply: Reply, ok: RotationEvent, failed: RotationEvent)
    requires CallingInGhost(cfg, inc, s)
    requires ok == DrainComplete || ok == ReverseDrainComplete
    requires failed == DrainTimeout || failed == ReverseDrainTimeout
    ensures GhostInvariant(cfg, DrainCall(s, handle, reply, s.said.state, ok, failed))
  {
    VerifiedExtends(s.trace, DrainCompleted(handle));
  }

  lemma RevokeOldRefines(cfg: Config, inc: Handle, s: Sys, reply: Reply)
    requires CallingInGhost(cfg, inc, s) && s.said.state.Revoking? && cfg.active == Some(inc)
    ensures GhostInvariant(cfg, RevokeCall(s, inc, reply, Revoking, RevokeOk, RevokeFailed))
  {
    VerifiedExtends(s.trace, RevokeCalled(inc));
  }

  lemma RestoreRefines(cfg: Config, inc: Handle, s: Sys, reply: Reply)
    requires CallingInGhost(cfg, inc, s) && s.said.state.RestoringPublication?
    ensures GhostInvariant(cfg, RestoreCall(cfg, s, s.said.previous.value, reply))
  {}

  lemma RevokeNewRefines(cfg: Config, inc: Handle, s: Sys, reply: Reply)
    requires CallingInGhost(cfg, inc, s) && s.said.state.RevokingNew?
    ensures GhostInvariant(cfg, RevokeCall(s, s.said.handle.value, reply, RevokingNew, RevokeNewOk, RevokeNewFailed))
  {
    VerifiedExtends(s.trace, RevokeCalled(s.said.handle.value));
  }

  lemma MirrorRefines(cfg: Config, inc: Handle, s: Sys, reply: Reply)
    requires CallingInGhost(cfg, inc, s)
    requires s.said.state.RestoringPublication? || s.said.state.ReverseDraining? || s.said.state.RevokingNew?
    ensures GhostInvariant(cfg, CallStep(cfg, s, s.said.state, reply))
  {
    if s.said.state.RestoringPublication? {
      RestoreRefines(cfg, inc, s, reply);
    } else if s.said.state.ReverseDraining? {
      DrainRefines(cfg, inc, s, s.said.handle.value, reply, ReverseDrainComplete, ReverseDrainTimeout);
    } else {
      RevokeNewRefines(cfg, inc, s, reply);
    }
  }

  lemma CallRefines(cfg: Config, inc: Handle, s: Sys, reply: Reply)
    requires CallingInGhost(cfg, inc, s) && Honest(inc, reply) && !s.said.state.IsTerminal()
    ensures GhostInvariant(cfg, CallStep(cfg, s, s.said.state, reply))
  {
    hide ProvisionCall, VerifyCall, DrainCall, RevokeCall, Honest, EverVerified, Next;
    var state := s.said.state;
    if state.Provisioning? { ProvisionRefines(cfg, inc, s, reply); }
    else if state.Verifying? { VerifyRefines(cfg, inc, s, reply); }
    else if state.Publishing? { }
    else if state.Draining? { DrainRefines(cfg, inc, s, inc, reply, DrainComplete, DrainTimeout); }
    else if state.Revoking? { RevokeOldRefines(cfg, inc, s, reply); }
    else { MirrorRefines(cfg, inc, s, reply); }
  }

  /** An event that needs no call changes nothing in the ghost world either. */
  lemma ImmediateIsSilent(cfg: Config, inc: Handle, s: Sys, event: RotationEvent)
    requires Claims(cfg, inc, s) && s.process.Up? && s.process.pc == Head(s.said.state) && GhostFacts(cfg, s)
    requires ImmediateEvent(s.said.state, s.process.ctx) == Some(event)
    ensures GhostOf(cfg, s) in s.process.found.Successors(event) && !event.Reconciled?
  {}

  /** One step either records a transition that is a protocol edge, or leaves the protocol state alone. */
  ghost predicate ProtocolStep(cfg: Config, s: Sys, s': Sys)
    requires s.process.Up? && s'.process.Up?
  {
    if |s'.records| > |s.records| && s'.records[|s.records|].Transition? then
      var step := s'.records[|s.records|];
      && step.from == s.said.state && step.to == s'.said.state
      && s'.process.found == GhostOf(cfg, s')
      && Edge(Node(step.from, s.process.found), step.event, Node(step.to, s'.process.found))
    else
      s'.said.state == s.said.state && s'.process.found == s.process.found
  }

  lemma TransitIsEdge(cfg: Config, s: Sys, event: RotationEvent)
    requires s.process.Up? && !event.Reconciled? && GhostOf(cfg, s) in s.process.found.Successors(event)
    ensures
      var s' := Transit(cfg, s, s.said.state, event);
      GhostInvariant(cfg, s') && (s'.process.Up? ==> ProtocolStep(cfg, s, s'))
  {}

  lemma DeliverIsEdge(cfg: Config, s: Sys, event: RotationEvent)
    requires s.process.Up? && !event.Reconciled? && GhostOf(cfg, s) in s.process.found.Successors(event)
    ensures
      var s' := DeliverStep(cfg, s, s.said.state, event);
      GhostInvariant(cfg, s') && (s'.process.Up? ==> ProtocolStep(cfg, s, s'))
  {
    if HintFor(s.said.state, event).None? {
      TransitIsEdge(cfg, s, event);
    }
  }

  lemma HeadRefines(cfg: Config, inc: Handle, s: Sys, reply: Reply)
    requires Claims(cfg, inc, s) && s.process.Up? && s.process.pc.Head? && GhostFacts(cfg, s)
    requires Honest(inc, reply)
    ensures
      var s' := HeadStep(cfg, s, s.said.state, reply);
      GhostInvariant(cfg, s') && (s'.process.Up? ==> ProtocolStep(cfg, s, s'))
  {
    var state := s.said.state;
    if !state.IsTerminal() && ImmediateEvent(state, s.process.ctx).None? {
      CallRefines(cfg, inc, s, reply);
    } else if !state.IsTerminal() {
      ImmediateIsSilent(cfg, inc, s, ImmediateEvent(state, s.process.ctx).value);
      DeliverIsEdge(cfg, s, ImmediateEvent(state, s.process.ctx).value);
    }
  }

  lemma ResolveObserves(cfg: Config, inc: Handle, s: Sys)
    requires Claims(cfg, inc, s) && s.process.Up? && s.process.pc.Resolve?
    ensures s.process.pc.from == s.said.state && s.process.pc.from.IsInFlight()
    ensures TruthfulOrUnknown(s.process.pc.observed, GhostOf(cfg, s))
  {
    ObservationIsTruthful(cfg, inc, s, s.process.ctx);
  }

  lemma ResolveRefines(cfg: Config, inc: Handle, s: Sys)
    requires Claims(cfg, inc, s) && s.process.Up? && s.process.pc.Resolve? && GhostFacts(cfg, s)
    ensures
      var s' := DurableStep(cfg, s);
      GhostInvariant(cfg, s') && (s'.process.Up? ==> ProtocolStep(cfg, s, s'))
  {
    hide Claims, EverVerified, Observe, TruthfulOrUnknown, Reconcile;
    ResolveObserves(cfg, inc, s);
  }

  lemma DurableRefines(cfg: Config, inc: Handle, s: Sys)
    requires Claims(cfg, inc, s) && s.process.Up? && GhostFacts(cfg, s)
    ensures
      var s' := DurableStep(cfg, s);
      GhostInvariant(cfg, s') && (s'.process.Up? && !s.process.pc.Begin? ==> ProtocolStep(cfg, s, s'))
  {
    var pc := s.process.pc;
    if pc.Resolve? { ResolveRefines(cfg, inc, s); }
    else if pc.Deliver? { DeliverIsEdge(cfg, s, pc.event); }
    else if pc.Commit? { TransitIsEdge(cfg, s, pc.event); }
    else if pc.Abandon? { TransitIsEdge(cfg, s, AbortRequested); }
  }

  lemma StageRefines(cfg: Config, inc: Handle, s: Sys, reply: Reply)
    requires Claims(cfg, inc, s) && s.process.Up? && s.process.pc.Stage? && GhostFacts(cfg, s)
    ensures GhostInvariant(cfg, StageStep(cfg, s, s.process.pc.value, reply))
  {
    var value := s.process.pc.value;
    VerifiedExtends(s.trace, StageCalled(value));
    VerifiedExtends(s.trace + [StageCalled(value)], MadeCurrent(value));
  }

  lemma PromoteRefines(cfg: Config, inc: Handle, s: Sys, reply: Reply)
    requires Claims(cfg, inc, s) && s.process.Up? && s.process.pc.Promote? && GhostFacts(cfg, s)
    ensures GhostInvariant(cfg, PromoteStep(s, s.process.pc.version, reply))
  {
    VerifiedExtends(s.trace, MadeCurrent(s.world.At(s.process.pc.version).value));
  }

  /**
  Every step of a running process that survives it either records one transition, which
  is an edge of the ghost protocol from the world this pass of the loop found to the world
  now, or leaves the protocol state and that reference point alone.
  */
  lemma StepIsProtocolEdge(cfg: Config, inc: Handle, s: Sys, reply: Reply)
    requires Invariant(cfg, inc, s) && GhostInvariant(cfg, s)
    requires Honest(inc, reply)
    ensures GhostInvariant(cfg, Advance(cfg, s, reply))
    ensures s.process.Up? && !s.process.pc.Begin? && Advance(cfg, s, reply).process.Up? ==>
      ProtocolStep(cfg, s, Advance(cfg, s, reply))
  {
    if s.process.Down? || reply.Crash? { }
    else if s.process.pc.Head? { HeadRefines(cfg, inc, s, reply); }
    else if s.process.pc.Stage? { StageRefines(cfg, inc, s, reply); }
    else if s.process.pc.Promote? { PromoteRefines(cfg, inc, s, reply); }
    else { DurableRefines(cfg, inc, s); }
  }
}
