/**
Where the runs of the engine lie in the graph of the ghost protocol: exactly which journals
and worlds the exploration of that graph covers, and the path a run without crashes takes.
*/
module MachineGraph {
  import opened Wrappers
  import opened Protocol
  import opened GhostModel
  import opened JournalFile
  import opened Machine
  import opened MachineInvariant
  import opened MachineSafety
  import opened MachineRefinement
  import opened MachineTheorems

  // ---- when a value has been verified ----

  /** Nothing was verified before there was a credential, and nothing goes further unverified. */
  predicate Consistent(state: RotationState, side: PublishedSide, ever: bool) {
    && (state.Pending? || state.Provisioning? ==> !ever)
    && (state.Verified? || state.Publishing? || state.RestoringPublication? || state.ReverseDraining? ==> ever)
    && (ReadsNew(state) ==> ever)
    && (side.New? ==> ever)
  }

  /** The journalled state, and the one about to be journalled, agree with the verifications so far. */
  ghost predicate Knows(s: Sys) {
    var side, ever := PublishedSideOf(s.world), EverVerified(s.trace);
    && Consistent(s.said.state, side, ever)
    && (s.process.Up? && (s.process.pc.Deliver? || s.process.pc.Commit?) ==>
          Arrives(s.process.pc.from, s.process.pc.event, side, ever))
  }

  predicate Arrives(from: RotationState, event: RotationEvent, side: PublishedSide, ever: bool) {
    Next(from, event).Some? ==> Consistent(Next(from, event).value, side, ever)
  }

  lemma DieKnows(s: Sys)
    requires Knows(s)
    ensures Knows(Die(s))
  {
    VerifiedExtends(s.trace, ProcessEnded);
  }

  lemma TransitKnows(cfg: Config, s: Sys, event: RotationEvent)
    requires Knows(s) && s.process.Up?
    requires Arrives(s.said.state, event, PublishedSideOf(s.world), EverVerified(s.trace))
    ensures Knows(Transit(cfg, s, s.said.state, event))
  {
    hide EverVerified, Consistent, Next;
    DieKnows(s);
  }

  lemma DeliverKnows(cfg: Config, s: Sys, event: RotationEvent)
    requires Knows(s) && s.process.Up?
    requires Arrives(s.said.state, event, PublishedSideOf(s.world), EverVerified(s.trace))
    ensures Knows(DeliverStep(cfg, s, s.said.state, event))
  {
    hide EverVerified, Consistent, Next, HintFor;
    if HintFor(s.said.state, event).None? {
      TransitKnows(cfg, s, event);
    }
  }

  lemma ImmediateArrives(state: RotationState, ctx: RunContext, side: PublishedSide, ever: bool)
    requires Consistent(state, side, ever) && ImmediateEvent(state, ctx).Some?
    ensures Arrives(state, ImmediateEvent(state, ctx).value, side, ever)
  {}

  lemma ReconcileIsConsistent(state: RotationState, observed: Observation, side: PublishedSide, ever: bool)
    requires Consistent(state, side, ever)
    ensures Consistent(Reconcile(state, observed), side, ever)
  {}

  lemma ProvisionKnows(s: Sys, reply: Reply)
    requires Knows(s) && s.process.Up? && s.said.state.Provisioning?
    ensures Knows(ProvisionCall(s, reply))
  {
    hide EverVerified;
    DieKnows(s);
    if reply.Created? {
      VerifiedExtends(s.trace, CredentialMade(reply.handle, reply.value));
    } else if reply.ErrCreated? {
      VerifiedExtends(s.trace, Orphaned(reply.handle));
    }
  }

  lemma VerifyKnows(s: Sys, value: Secret, reply: Reply)
    requires Knows(s) && s.process.Up? && s.said.state.Verifying?
    ensures Knows(VerifyCall(s, value, reply))
  {
    hide EverVerified;
    DieKnows(s);
    VerifiedExtends(s.trace, VerifyPassed(value));
  }

  /** A drain or a revocation, of either credential, verifies and publishes nothing. */
  lemma DrainKnows(s: Sys, handle: Handle, reply: Reply, ok: RotationEvent, failed: RotationEvent)
    requires Knows(s) && s.process.Up?
    requires Arrives(s.said.state, ok, PublishedSideOf(s.world), EverVerified(s.trace))
    requires Arrives(s.said.state, failed, PublishedSideOf(s.world), EverVerified(s.trace))
    ensures Knows(DrainCall(s, handle, reply, s.said.state, ok, failed))
  {
    hide EverVerified, Consistent, Next;
    DieKnows(s);
    VerifiedExtends(s.trace, DrainCompleted(handle));
  }

  lemma RevokeKnows(s: Sys, handle: Handle, reply: Reply, ok: RotationEvent, failed: RotationEvent)
    requires Knows(s) && s.process.Up?
    requires Arrives(s.said.state, ok, PublishedSideOf(s.world), EverVerified(s.trace))
    requires Arrives(s.said.state, failed, PublishedSideOf(s.world), EverVerified(s.trace))
    ensures Knows(RevokeCall(s, handle, reply, s.said.state, ok, failed))
  {
    hide EverVerified, Consistent, Next;
    DieKnows(s);
    VerifiedExtends(s.trace, RevokeCalled(handle));
  }

  lemma PublishKnows(s: Sys, reply: Reply)
    requires Knows(s) && s.process.Up? && s.said.state.Publishing?
    ensures Knows(PublishCall(s, reply))
  {
    hide EverVerified;
    DieKnows(s);
  }

  lemma RestoreKnows(cfg: Config, s: Sys, version: VersionId, reply: Reply)
    requires Knows(s) && s.process.Up? && s.said.state.RestoringPublication?
    ensures Knows(RestoreCall(cfg, s, version, reply))
  {
    hide EverVerified;
    DieKnows(s);
  }

  lemma CallKnows(cfg: Config, s: Sys, reply: Reply)
    requires Knows(s) && s.process.Up?
    requires ImmediateEvent(s.said.state, s.process.ctx).None? && !s.said.state.IsTerminal()
    ensures Knows(CallStep(cfg, s, s.said.state, reply))
  {
    hide EverVerified, Reconcile, PublishedSideOf;
    hide ProvisionCall, VerifyCall, PublishCall, DrainCall, RevokeCall, RestoreCall;
    var state, ctx := s.said.state, s.process.ctx;
    match state {
      case Provisioning => ProvisionKnows(s, reply);
      case Verifying => VerifyKnows(s, ctx.newValue.value, reply);
      case Publishing => PublishKnows(s, reply);
      case Draining => DrainKnows(s, ctx.oldHandle.value, reply, DrainComplete, DrainTimeout);
      case Revoking => RevokeKnows(s, ctx.oldHandle.value, reply, RevokeOk, RevokeFailed);
      case RestoringPublication => RestoreKnows(cfg, s, ctx.previousVersion.value, reply);
      case ReverseDraining => DrainKnows(s, ctx.newHandle.value, reply, ReverseDrainComplete, ReverseDrainTimeout);
      case RevokingNew => RevokeKnows(s, ctx.newHandle.value, reply, RevokeNewOk, RevokeNewFailed);
      case _ =>
    }
  }

  lemma HeadKnows(cfg: Config, s: Sys, reply: Reply)
    requires Knows(s) && s.process.Up?
    ensures Knows(HeadStep(cfg, s, s.said.state, reply))
  {
    hide EverVerified, CallStep, DeliverStep, ImmediateEvent, Consistent;
    var state, ctx := s.said.state, s.process.ctx;
    DieKnows(s);
    if !state.IsTerminal() && ImmediateEvent(state, ctx).None? {
      CallKnows(cfg, s, reply);
    } else if !state.IsTerminal() {
      ImmediateArrives(state, ctx, PublishedSideOf(s.world), EverVerified(s.trace));
      DeliverKnows(cfg, s, ImmediateEvent(state, ctx).value);
    }
  }

  lemma StageKnows(cfg: Config, s: Sys, value: Secret, reply: Reply)
    requires Knows(s) && s.process.Up? && s.said.state.Publishing?
    ensures Knows(StageStep(cfg, s, value, reply))
  {
    hide EverVerified;
    DieKnows(s);
    VerifiedExtends(s.trace, StageCalled(value));
    VerifiedExtends(s.trace + [StageCalled(value)], MadeCurrent(value));
  }

  lemma PromoteKnows(s: Sys, version: VersionId, reply: Reply)
    requires Knows(s) && s.process.Up? && s.said.state.Publishing?
    ensures Knows(PromoteStep(s, version, reply))
  {
    hide EverVerified;
    DieKnows(s);
    if s.world.HasVersion(version) {
      VerifiedExtends(s.trace, MadeCurrent(s.world.At(version).value));
    }
  }

  /** What a decided step is about is the journalled state, and a publication is under way where one is. */
  predicate StandsOn(s: Sys)
    requires s.process.Up?
  {
    var pc, state := s.process.pc, s.said.state;
    && (pc.Deliver? || pc.Commit? || pc.Resolve? || pc.Abandon? ==> pc.from == state)
    && (pc.Abandon? ==> state.Provisioned? || state.Verified?)
    && (pc.AssignHandle? ==> state.Provisioning?)
    && (pc.Baseline? || pc.Stage? || pc.Promote? || pc.RecordVersion? ==> state.Publishing?)
    && (pc.Head? ==> pc.state == state)
  }

  lemma ClaimsStandOn(cfg: Config, inc: Handle, s: Sys)
    requires Claims(cfg, inc, s) && s.process.Up?
    ensures StandsOn(s)
  {
    hide StateFacts, HeadFacts, ContextMatches, Observe, Next;
  }

  lemma RecordKnows(cfg: Config, s: Sys)
    requires Knows(s) && s.process.Up? && StandsOn(s)
    requires s.process.pc.Begin? || s.process.pc.AssignHandle? || s.process.pc.Baseline? || s.process.pc.RecordVersion?
    ensures Knows(DurableStep(cfg, s))
  {
    hide EverVerified, Reconcile, PublishedSideOf;
    if s.process.pc.Begin? {
      DieKnows(Log(s, RunStarted(s.process.pc.apply)));
    }
  }

  lemma DurableKnows(cfg: Config, s: Sys)
    requires Knows(s) && s.process.Up? && StandsOn(s)
    ensures Knows(DurableStep(cfg, s))
  {
    hide EverVerified, DeliverStep, Transit, Consistent, Reconcile, PublishedSideOf, Apply;
    var pc, side, ever := s.process.pc, PublishedSideOf(s.world), EverVerified(s.trace);
    DieKnows(s);
    if pc.Deliver? {
      DeliverKnows(cfg, s, pc.event);
    } else if pc.Commit? {
      TransitKnows(cfg, s, pc.event);
    } else if pc.Abandon? {
      AbandonArrives(s.said.state, side, ever);
      TransitKnows(cfg, s, AbortRequested);
    } else if pc.Resolve? {
      ResolveKnows(cfg, s);
    } else if !pc.Head? && !pc.Stage? && !pc.Promote? && !pc.Done? {
      RecordKnows(cfg, s);
    }
  }

  lemma AbandonArrives(state: RotationState, side: PublishedSide, ever: bool)
    requires Consistent(state, side, ever) && (state.Provisioned? || state.Verified?)
    ensures Arrives(state, AbortRequested, side, ever)
  {}

  lemma ResolveKnows(cfg: Config, s: Sys)
    requires Knows(s) && s.process.Up? && s.process.pc.Resolve? && s.process.pc.from == s.said.state
    ensures Knows(DurableStep(cfg, s))
  {
    hide EverVerified, Consistent, Reconcile, PublishedSideOf;
    ReconcileIsConsistent(s.said.state, s.process.pc.observed, PublishedSideOf(s.world), EverVerified(s.trace));
  }

  lemma AdvanceKnows(cfg: Config, inc: Handle, s: Sys, reply: Reply)
    requires Knows(s) && Claims(cfg, inc, s)
    ensures Knows(Advance(cfg, s, reply))
  {
    hide EverVerified, HeadStep, StageStep, PromoteStep, DurableStep, Claims, Consistent;
    DieKnows(s);
    if s.process.Up? {
      ClaimsStandOn(cfg, inc, s);
    }
    if s.process.Down? || reply.Crash? { }
    else if s.process.pc.Head? { HeadKnows(cfg, s, reply); }
    else if s.process.pc.Stage? { StageKnows(cfg, s, s.process.pc.value, reply); }
    else if s.process.pc.Promote? { PromoteKnows(s, s.process.pc.version, reply); }
    else { DurableKnows(cfg, s); }
  }

  lemma {:induction false} RunKnows(cfg: Config, inc: Handle, world: World, apply: bool, replies: seq<Reply>)
    requires StartingWorld(cfg, inc, world) && AllHonest(inc, replies)
    ensures Knows(Run(cfg, Start(cfg, world, apply), replies))
  {
    if replies != [] {
      var before := replies[..|replies| - 1];
      RunKnows(cfg, inc, world, apply, before);
      RunHoldsEverything(cfg, inc, world, apply, before);
      AdvanceKnows(cfg, inc, Run(cfg, Start(cfg, world, apply), before), replies[|replies| - 1]);
    }
  }

  // ---- which crash points the exploration covers ----

  /** A landed effect, or a verification, that the journal does not know of yet. */
  predicate Unexplored(state: RotationState, g: Ghost) {
    || (state.Provisioning? && g.newLive)
    || ((state.Provisioned? || state.Verifying?) && g.verified)
    || (state.Publishing? && g.published.New?)
    || (state.Revoking? && !g.oldLive)
    || (state.RevokingNew? && !g.newLive && g.verified)
  }

  lemma ClaimsDecideVisited(cfg: Config, inc: Handle, s: Sys)
    requires StateFacts(cfg, inc, s.said, s.world) && Knows(s) && cfg.active == Some(inc)
    ensures Visited(Node(s.said.state, GhostOf(cfg, s))) <==> !Unexplored(s.said.state, GhostOf(cfg, s))
  {
    hide EverVerified, Next;
  }

  lemma ClaimsDecideVisitedUnnamed(cfg: Config, inc: Handle, s: Sys)
    requires StateFacts(cfg, inc, s.said, s.world) && Knows(s) && cfg.active.None?
    ensures Visited(Node(s.said.state, GhostOf(cfg, s))) <==>
      s.said.state.Completed? || (s.said.state.NeedsOperator? && GhostOf(cfg, s).published.New?)
  {
    hide EverVerified, Next;
  }

  /**
  Exactly what the exploration of the ghost protocol covers of the engine's runs. With the
  old credential named, a reachable journal and world make a node of the explored graph
  unless an effect landed, or a verification passed, that the journal does not record. With
  no credential named, only runs past the last use of the old one do.
  */
  lemma ExploredIff(cfg: Config, inc: Handle, world: World, apply: bool, replies: seq<Reply>, s: Sys)
    requires Reaches(cfg, inc, world, apply, replies, s)
    ensures
      var state, g := s.said.state, GhostOf(cfg, s);
      OnGraph(Node(state, g)) <==>
        if cfg.active.Some? then !Unexplored(state, g)
        else state.Completed? || (state.NeedsOperator? && g.published.New?)
  {
    hide Visited, Unexplored, GhostOf, StateFacts, Knows;
    RunHoldsEverything(cfg, inc, world, apply, replies);
    RunKnows(cfg, inc, world, apply, replies);
    GraphIsExactly(Node(s.said.state, GhostOf(cfg, s)));
    if cfg.active.Some? {
      ClaimsDecideVisited(cfg, inc, s);
    } else {
      ClaimsDecideVisitedUnnamed(cfg, inc, s);
    }
  }

  // ---- the path a run without crashes takes ----

  /** The events of the transitions a journal holds, in order. */
  function EventsOf(records: seq<Record>): seq<RotationEvent> {
    if records == [] then [] else
    var last := records[|records| - 1];
    EventsOf(records[..|records| - 1]) + if last.Transition? then [last.event] else []
  }

  lemma EventsOfSnoc(records: seq<Record>, record: Record)
    ensures EventsOf(records + [record]) == EventsOf(records) + if record.Transition? then [record.event] else []
  {
    assert (records + [record])[..|records|] == records;
  }

  /** The nodes follow the journal's events and end where the process now stands. */
  ghost predicate Traces(cfg: Config, s: Sys, nodes: seq<Node>)
    requires s.process.Up?
  {
    && PathFrom(StartingGhost(cfg), nodes, EventsOf(s.records))
    && nodes[|nodes| - 1] == Node(s.said.state, s.process.found)
  }

  lemma PathExtends(world: Ghost, nodes: seq<Node>, events: seq<RotationEvent>, event: RotationEvent, to: Node)
    requires PathFrom(world, nodes, events) && Edge(nodes[|nodes| - 1], event, to)
    ensures PathFrom(world, nodes + [to], events + [event])
  {
    hide Edge;
    var more, longer := nodes + [to], events + [event];
    forall k | 0 <= k < |longer|
      ensures Edge(more[k], longer[k], more[k + 1])
    {
      if k < |events| {
        assert Edge(nodes[k], events[k], nodes[k + 1]);
      }
    }
  }

  /** One step of a living process: the path goes on by the recorded transition, or stays. */
  lemma StepTraces(cfg: Config, s: Sys, s': Sys, nodes: seq<Node>) returns (more: seq<Node>)
    requires s.process.Up? && s'.process.Up? && Traces(cfg, s, nodes) && ProtocolStep(cfg, s, s')
    requires s'.records == s.records || (exists record :: s'.records == s.records + [record])
    ensures Traces(cfg, s', more)
  {
    hide Edge;
    more := nodes;
    if s'.records != s.records {
      var record :| s'.records == s.records + [record];
      EventsOfSnoc(s.records, record);
      if record.Transition? {
        var to := Node(s'.said.state, s'.process.found);
        PathExtends(StartingGhost(cfg), nodes, EventsOf(s.records), record.event, to);
        more := nodes + [to];
      }
    }
  }

  lemma LoggedAppends(s: Sys, s': Sys)
    requires Logged(s, s')
    ensures s'.records == s.records || (exists record :: s'.records == s.records + [record])
  {
    if s'.records != s.records {
      var record :| LoggedRecord(s, s', record);
    }
  }

  /** The first step: the run's start is journalled, and the world is the one the ghost starts from. */
  lemma FirstStepTraces(cfg: Config, inc: Handle, world: World, apply: bool, reply: Reply)
    requires StartingWorld(cfg, inc, world)
    ensures
      var s := Advance(cfg, Start(cfg, world, apply), reply);
      s.process.Up? ==> Traces(cfg, s, [Node(Pending, StartingGhost(cfg))]) && !s.process.pc.Begin?
  {
    assert [RunStarted(apply)][..0] == [];
    assert EventsOf([RunStarted(apply)]) == [];
    assert [] + [RunStarted(apply)] == [RunStarted(apply)];
  }

  lemma StaysBegun(cfg: Config, s: Sys, reply: Reply)
    requires s.process.Up? && !s.process.pc.Begin?
    ensures Advance(cfg, s, reply).process.Up? ==> !Advance(cfg, s, reply).process.pc.Begin?
  {
    hide EverVerified, Observe, Apply, Reconcile, Next;
  }

  lemma PathStep(cfg: Config, inc: Handle, s: Sys, reply: Reply)
    requires Invariant(cfg, inc, s) && GhostInvariant(cfg, s) && Honest(inc, reply)
    requires s.process.Up? && !s.process.pc.Begin? && Advance(cfg, s, reply).process.Up?
    ensures
      var s' := Advance(cfg, s, reply);
      && ProtocolStep(cfg, s, s') && !s'.process.pc.Begin?
      && (s'.records == s.records || (exists record :: s'.records == s.records + [record]))
  {
    hide Advance, Claims, RecordsFacts, GhostFacts, ProtocolStep, Logged;
    StepIsProtocolEdge(cfg, inc, s, reply);
    StaysBegun(cfg, s, reply);
    AdvanceIsLogged(cfg, inc, s, reply);
    LoggedAppends(s, Advance(cfg, s, reply));
  }

  lemma AdvanceIsLogged(cfg: Config, inc: Handle, s: Sys, reply: Reply)
    requires Invariant(cfg, inc, s) && Honest(inc, reply)
    ensures Logged(s, Advance(cfg, s, reply))
  {
    hide Advance, Claims, Logged;
    AdvanceKeepsClaims(cfg, inc, s, reply);
  }

  lemma HeadFound(cfg: Config, s: Sys, nodes: seq<Node>)
    requires s.process.Up? && GhostInvariant(cfg, s) && Traces(cfg, s, nodes)
    ensures s.process.pc.Head? ==> nodes[|nodes| - 1] == Node(s.said.state, GhostOf(cfg, s))
  {
    hide GhostOf, Path, EventsOf;
  }

  /**
  A run in which no process dies is a path of the ghost protocol, from the world in which
  the old credential is live (or, where none was named, not known to be): its edges are the
  journalled transitions, it ends where the process stands, and at the head of the loop
  that is the ghost of the world as it is.
  */
  lemma {:induction false} RunWithoutCrashIsAPath(
    cfg: Config, inc: Handle, world: World, apply: bool, replies: seq<Reply>)
    returns (nodes: seq<Node>)
    requires StartingWorld(cfg, inc, world) && AllHonest(inc, replies) && replies != []
    requires forall k :: 0 <= k <= |replies| ==> Run(cfg, Start(cfg, world, apply), replies[..k]).process.Up?
    ensures
      var s := Run(cfg, Start(cfg, world, apply), replies);
      && s.process.Up? && !s.process.pc.Begin? && Traces(cfg, s, nodes)
      && (s.process.pc.Head? ==> nodes[|nodes| - 1] == Node(s.said.state, GhostOf(cfg, s)))
    decreases |replies|
  {
    hide Advance, Start, StartingWorld, Traces, GhostOf;
    var start, n := Start(cfg, world, apply), |replies|;
    var before, reply := replies[..n - 1], replies[n - 1];
    var s := Run(cfg, start, before);
    assert replies[..n] == replies;
    assert Run(cfg, start, replies) == Advance(cfg, s, reply);
    RunHoldsEverything(cfg, inc, world, apply, replies);
    if n == 1 {
      assert before == [] && s == start;
      nodes := [Node(Pending, StartingGhost(cfg))];
      FirstStepTraces(cfg, inc, world, apply, reply);
    } else {
      forall k | 0 <= k <= |before|
        ensures Run(cfg, start, before[..k]).process.Up?
      {
        assert before[..k] == replies[..k];
      }
      nodes := RunWithoutCrashIsAPath(cfg, inc, world, apply, before);
      RunHoldsEverything(cfg, inc, world, apply, before);
      PathStep(cfg, inc, s, reply);
      nodes := StepTraces(cfg, s, Advance(cfg, s, reply), nodes);
    }
    HeadFound(cfg, Run(cfg, start, replies), nodes);
  }
}
