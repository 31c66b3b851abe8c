/**
Termination and success of a drive: it never meets an illegal transition, it makes at
most ten transitions whatever its calls return, and it completes the rotation when they
all succeed.
*/
module MachineProgress {
  import opened Wrappers
  import opened Protocol
  import opened JournalFile
  import opened Machine
  import opened MachineInvariant
  import opened MachineSafety

  // ---- bounds ----

  /** Steps a process can still take before it is done or dead. */
  function Measure(s: Sys): nat {
    if s.process.Down? then 0 else
    match s.process.pc
    case Begin(_) => 90
    case Resolve(_, _) => 89
    case Abandon(_) => 88
    case Head(state) => 8 * Rank(state) + 7
    case AssignHandle(_, _) => 8 * Rank(s.said.state) + 3
    case Baseline(_) => 8 * Rank(s.said.state) + 6
    case Stage(_) => 8 * Rank(s.said.state) + 5
    case Promote(_) => 8 * Rank(s.said.state) + 4
    case RecordVersion(_) => 8 * Rank(s.said.state) + 3
    case Deliver(_, _) => 8 * Rank(s.said.state) + 2
    case Commit(_, _) => 8 * Rank(s.said.state) + 1
    case Done(_) => 0
  }

  predicate Finished(s: Sys) {
    s.process.Up? && s.process.pc.Done?
  }

  /** A call records nothing and leaves the process where its outcome is handled. */
  lemma CallIsShort(cfg: Config, s: Sys, state: RotationState, reply: Reply)
    requires s.process.Up? && ImmediateEvent(state, s.process.ctx).None?
    ensures
      var s' := CallStep(cfg, s, state, reply);
      && s'.said == s.said && s'.records == s.records
      && (s'.process.Up? ==>
            s'.process.pc.AssignHandle? || s'.process.pc.Baseline? || s'.process.pc.Deliver?)
  {}

  lemma TransitDescends(cfg: Config, s: Sys, event: RotationEvent)
    requires s.process.Up? && Next(s.said.state, event).Some?
    requires Rank(Next(s.said.state, event).value) < Rank(s.said.state)
    ensures Measure(Transit(cfg, s, s.said.state, event)) < 8 * Rank(s.said.state)
  {}

  lemma HeadDescends(cfg: Config, inc: Handle, s: Sys, reply: Reply)
    requires Claims(cfg, inc, s) && s.process.Up? && s.process.pc.Head?
    ensures Measure(HeadStep(cfg, s, s.said.state, reply)) < Measure(s)
  {
    hide CallStep, StartEvent, HintFor;
    var state := s.said.state;
    var immediate := ImmediateEvent(state, s.process.ctx);
    if !state.IsTerminal() {
      if immediate.None? {
        CallIsShort(cfg, s, state, reply);
      } else {
        ImmediateHolds(cfg, inc, s, immediate.value);
        TransitDescends(cfg, s, immediate.value);
      }
    }
  }

  lemma RecordDescends(cfg: Config, inc: Handle, s: Sys)
    requires Claims(cfg, inc, s) && s.process.Up?
    requires s.process.pc.Begin? || s.process.pc.AssignHandle? || s.process.pc.Baseline? || s.process.pc.RecordVersion?
    ensures Measure(DurableStep(cfg, s)) < Measure(s)
  {}

  lemma ResolveDescends(cfg: Config, inc: Handle, s: Sys)
    requires Claims(cfg, inc, s) && s.process.Up? && s.process.pc.Resolve?
    ensures Measure(DurableStep(cfg, s)) < Measure(s)
  {}

  lemma DurableDescends(cfg: Config, inc: Handle, s: Sys)
    requires Claims(cfg, inc, s) && s.process.Up? && !s.process.pc.Head? && !s.process.pc.Done?
    requires !s.process.pc.Stage? && !s.process.pc.Promote?
    ensures Measure(DurableStep(cfg, s)) < Measure(s)
  {
    var pc := s.process.pc;
    if pc.Resolve? { ResolveDescends(cfg, inc, s); }
    else if pc.Abandon? { TransitDescends(cfg, s, AbortRequested); }
    else if pc.Deliver? || pc.Commit? { TransitDescends(cfg, s, pc.event); }
    else { RecordDescends(cfg, inc, s); }
  }

  /** A living process that is not done gets strictly closer to being done or dead. */
  lemma StepDescends(cfg: Config, inc: Handle, s: Sys, reply: Reply)
    requires Claims(cfg, inc, s) && s.process.Up? && !Finished(s)
    ensures Measure(Advance(cfg, s, reply)) < Measure(s)
  {
    if reply.Crash? { }
    else if s.process.pc.Head? { HeadDescends(cfg, inc, s, reply); }
    else if s.process.pc.Stage? || s.process.pc.Promote? { }
    else { DurableDescends(cfg, inc, s); }
  }

  lemma LifeCosts(s: Sys)
    requires s.process.Up? && !Finished(s)
    ensures Measure(s) > 0
  {}

  /** Whatever its calls return, a process is done or dead after at most `Measure` steps. */
  lemma {:induction false} EveryProcessEnds(cfg: Config, inc: Handle, s: Sys, replies: seq<Reply>) returns (k: nat)
    requires Invariant(cfg, inc, s) && AllHonest(inc, replies) && |replies| >= Measure(s)
    ensures k <= |replies| && k <= Measure(s)
    ensures Run(cfg, s, replies[..k]).process.Down? || Finished(Run(cfg, s, replies[..k]))
    decreases Measure(s)
  {
    hide Advance, Measure;
    if s.process.Down? || Finished(s) {
      k := 0;
    } else {
      LifeCosts(s);
      StepDescends(cfg, inc, s, replies[0]);
      AdvanceKeepsInvariant(cfg, inc, s, replies[0]);
      var j := EveryProcessEnds(cfg, inc, Advance(cfg, s, replies[0]), replies[1..]);
      k := j + 1;
      RunCons(cfg, s, replies[0], replies[1..][..j]);
      assert replies[..k] == [replies[0]] + replies[1..][..j];
    }
  }

  lemma {:induction false} RunCons(cfg: Config, s: Sys, reply: Reply, rest: seq<Reply>)
    ensures Run(cfg, s, [reply] + rest) == Run(cfg, Advance(cfg, s, reply), rest)
  {
    var all := [reply] + rest;
    if rest == [] {
      assert all[..0] == [];
    } else {
      RunCons(cfg, s, reply, rest[..|rest| - 1]);
      assert all[..|all| - 1] == [reply] + rest[..|rest| - 1];
    }
  }

  function Transitions(records: seq<Record>): nat {
    if records == [] then 0
    else Transitions(records[..|records| - 1]) + if records[|records| - 1].Transition? then 1 else 0
  }

  lemma TransitionsSnoc(records: seq<Record>, record: Record)
    ensures Transitions(records + [record]) == Transitions(records) + if record.Transition? then 1 else 0
  {
    assert (records + [record])[..|records|] == records;
  }

  /** Past recovery: the process is in its drive loop. */
  predicate Driving(s: Sys) {
    s.process.Up? && !s.process.pc.Begin? && !s.process.pc.Resolve? && !s.process.pc.Abandon?
  }

  /** The drive goes on, and every transition it recorded was paid for in rank. */
  ghost predicate Spends(s: Sys, s': Sys) {
    Driving(s') && Transitions(s'.records) + Rank(s'.said.state) <= Transitions(s.records) + Rank(s.said.state)
  }

  lemma TransitSpends(cfg: Config, s: Sys, event: RotationEvent)
    requires s.process.Up? && Next(s.said.state, event).Some?
    requires Rank(Next(s.said.state, event).value) < Rank(s.said.state)
    ensures Spends(s, Transit(cfg, s, s.said.state, event))
  {
    TransitionsSnoc(s.records, Transition(s.said.state, event, Next(s.said.state, event).value));
  }

  lemma DeliverSpends(cfg: Config, s: Sys, event: RotationEvent)
    requires s.process.Up? && Next(s.said.state, event).Some?
    requires Rank(Next(s.said.state, event).value) < Rank(s.said.state)
    ensures Spends(s, DeliverStep(cfg, s, s.said.state, event))
  {
    if HintFor(s.said.state, event).Some? {
      TransitionsSnoc(s.records, Escalation(HintFor(s.said.state, event).value));
    } else {
      TransitSpends(cfg, s, event);
    }
  }

  lemma HeadSpends(cfg: Config, inc: Handle, s: Sys, reply: Reply)
    requires Claims(cfg, inc, s) && s.process.Up? && s.process.pc.Head?
    ensures
      var s' := HeadStep(cfg, s, s.said.state, reply);
      s'.process.Down? || Spends(s, s')
  {
    hide CallStep, DeliverStep, Transitions;
    var state := s.said.state;
    var immediate := ImmediateEvent(state, s.process.ctx);
    if state.IsTerminal() {
      TransitionsSnoc(s.records, RunFinished(state));
    } else if immediate.None? {
      CallIsShort(cfg, s, state, reply);
    } else {
      ImmediateHolds(cfg, inc, s, immediate.value);
      DeliverSpends(cfg, s, immediate.value);
    }
  }

  lemma DurableSpends(cfg: Config, inc: Handle, s: Sys)
    requires Claims(cfg, inc, s) && Driving(s) && !Finished(s)
    requires !s.process.pc.Head? && !s.process.pc.Stage? && !s.process.pc.Promote?
    ensures Spends(s, DurableStep(cfg, s))
  {
    hide Transitions, Transit, HintFor;
    var pc := s.process.pc;
    if pc.Deliver? {
      DeliverSpends(cfg, s, pc.event);
    } else if pc.Commit? {
      TransitSpends(cfg, s, pc.event);
    } else if pc.AssignHandle? {
      TransitionsSnoc(s.records, HandleAssigned(pc.handle));
    } else if pc.Baseline? {
      TransitionsSnoc(s.records, PublicationBaseline(pc.current));
    } else {
      TransitionsSnoc(s.records, VersionAssigned(s.process.ctx.previousVersion, pc.version));
    }
  }

  lemma StepSpends(cfg: Config, inc: Handle, s: Sys, reply: Reply)
    requires Claims(cfg, inc, s) && Driving(s) && !Finished(s)
    ensures Advance(cfg, s, reply).process.Down? || Spends(s, Advance(cfg, s, reply))
  {
    if reply.Crash? || s.process.pc.Stage? || s.process.pc.Promote? { }
    else if s.process.pc.Head? { HeadSpends(cfg, inc, s, reply); }
    else { DurableSpends(cfg, inc, s); }
  }

  /** As long as the drive lives, it has recorded at most as many transitions as its rank allows: ten. */
  lemma {:induction false} DriveIsBounded(cfg: Config, inc: Handle, s: Sys, replies: seq<Reply>)
    requires Invariant(cfg, inc, s) && AllHonest(inc, replies) && Driving(s)
    requires forall k :: 0 <= k < |replies| ==>
      var mid := Run(cfg, s, replies[..k]); mid.process.Up? && !Finished(mid)
    requires Run(cfg, s, replies).process.Up?
    ensures Spends(s, Run(cfg, s, replies))
    ensures Transitions(Run(cfg, s, replies).records) <= Transitions(s.records) + 10
  {
    assert Rank(s.said.state) <= 10;
    if replies != [] {
      var before, reply := replies[..|replies| - 1], replies[|replies| - 1];
      forall k | 0 <= k < |before|
        ensures var mid := Run(cfg, s, before[..k]); mid.process.Up? && !Finished(mid)
      {
        assert before[..k] == replies[..k];
      }
      DriveIsBounded(cfg, inc, s, before);
      RunKeepsInvariant(cfg, inc, s, before);
      StepSpends(cfg, inc, Run(cfg, s, before), reply);
    }
  }

  // ---- success ----

  /** The reply with which the call at hand succeeds. */
  predicate Succeeds(s: Sys, reply: Reply)
    requires s.process.Up?
  {
    if s.process.pc == Head(Provisioning) then reply.Created? else reply.Ok?
  }

  predicate IsForward(state: RotationState) {
    && !state.RestoringPublication? && !state.ReverseDraining? && !state.RevokingNew?
    && !state.RolledBack? && !state.NeedsOperator?
  }

  /** The process stands on the forward path, about to record nothing but forward events. */
  predicate OnForwardPath(s: Sys) {
    && s.process.Up?
    && IsForward(s.said.state)
    && var pc := s.process.pc;
       && (pc.Begin? ==> pc.apply)
       && (pc.Deliver? ==> Advances(pc.from, pc.event))
       && !pc.Commit? && !pc.Resolve? && !pc.Abandon?
  }

  predicate Advances(from: RotationState, event: RotationEvent) {
    HintFor(from, event).None? && Next(from, event).Some? && IsForward(Next(from, event).value)
  }

  lemma ForwardCall(cfg: Config, s: Sys, reply: Reply)
    requires OnForwardPath(s) && Succeeds(s, reply) && s.process.pc == Head(s.said.state)
    requires s.said.state.IsInFlight() && ImmediateEvent(s.said.state, s.process.ctx).None?
    ensures OnForwardPath(CallStep(cfg, s, s.said.state, reply))
  {}

  lemma ForwardEvent(cfg: Config, inc: Handle, s: Sys, event: RotationEvent)
    requires Claims(cfg, inc, s) && OnForwardPath(s) && s.process.pc.Head? && !s.said.state.IsTerminal()
    requires ImmediateEvent(s.said.state, s.process.ctx) == Some(event)
    ensures Advances(s.said.state, event)
  {
    hide Advances, ImmediateEvent, StateFacts, ContextMatches, IsForward, Next;
    HeadHoldsValue(s.said, s.world, s.process.ctx, inc);
    ForwardEventOf(s.said.state, s.process.ctx);
  }

  lemma HeadHoldsValue(at: Replayed, world: World, ctx: RunContext, inc: Handle)
    ensures HeadFacts(at, world, ctx, inc) && at.state.Verifying? ==> ctx.newValue.Some?
  {}

  lemma ForwardEventOf(state: RotationState, ctx: RunContext)
    requires IsForward(state) && !state.IsTerminal() && ImmediateEvent(state, ctx).Some?
    requires state.Verifying? ==> ctx.newValue.Some?
    ensures Advances(state, ImmediateEvent(state, ctx).value)
  {}

  lemma ForwardHead(cfg: Config, inc: Handle, s: Sys, reply: Reply)
    requires Claims(cfg, inc, s) && OnForwardPath(s) && s.process.pc.Head? && Succeeds(s, reply)
    ensures OnForwardPath(HeadStep(cfg, s, s.said.state, reply))
  {
    var immediate := ImmediateEvent(s.said.state, s.process.ctx);
    if !s.said.state.IsTerminal() {
      if immediate.None? {
        ForwardCall(cfg, s, reply);
      } else {
        ForwardEvent(cfg, inc, s, immediate.value);
      }
    }
  }

  lemma ForwardStep(cfg: Config, inc: Handle, s: Sys, reply: Reply)
    requires Invariant(cfg, inc, s) && OnForwardPath(s) && !Finished(s) && Succeeds(s, reply)
    ensures OnForwardPath(Advance(cfg, s, reply))
  {
    hide HeadStep, DurableStep, StageStep, PromoteStep, Succeeds;
    PlainSuccess(s, reply);
    if s.process.pc.Head? {
      ForwardHead(cfg, inc, s, reply);
    } else if s.process.pc.Stage? || s.process.pc.Promote? {
      ForwardWrite(cfg, inc, s, reply);
    } else {
      ForwardDurable(cfg, inc, s);
    }
  }

  lemma PlainSuccess(s: Sys, reply: Reply)
    requires s.process.Up? && Succeeds(s, reply)
    ensures !reply.Crash?
    ensures !s.process.pc.Head? ==> reply.Ok?
  {}

  lemma ForwardWrite(cfg: Config, inc: Handle, s: Sys, reply: Reply)
    requires Invariant(cfg, inc, s) && OnForwardPath(s) && Succeeds(s, reply)
    requires s.process.pc.Stage? || s.process.pc.Promote?
    ensures OnForwardPath(Advance(cfg, s, reply))
  {}

  lemma ForwardDurable(cfg: Config, inc: Handle, s: Sys)
    requires Invariant(cfg, inc, s) && OnForwardPath(s) && !Finished(s)
    requires !s.process.pc.Head? && !s.process.pc.Stage? && !s.process.pc.Promote?
    ensures OnForwardPath(DurableStep(cfg, s))
  {
    hide DurableStep, Invariant;
    if s.process.pc.Deliver? {
      ForwardDelivery(cfg, inc, s);
    } else {
      ForwardRecord(cfg, inc, s);
    }
  }

  lemma ForwardRecord(cfg: Config, inc: Handle, s: Sys)
    requires Invariant(cfg, inc, s) && OnForwardPath(s) && !Finished(s) && !s.process.pc.Deliver?
    requires !s.process.pc.Head? && !s.process.pc.Stage? && !s.process.pc.Promote?
    ensures OnForwardPath(DurableStep(cfg, s))
  {
    hide Reconcile, DeliverFacts, ImmediateEvent;
  }

  lemma ForwardDelivery(cfg: Config, inc: Handle, s: Sys)
    requires Invariant(cfg, inc, s) && OnForwardPath(s) && s.process.pc.Deliver?
    ensures OnForwardPath(DurableStep(cfg, s))
  {}

  /** Every reply so far was the successful one. */
  ghost predicate AllSucceed(cfg: Config, s: Sys, replies: seq<Reply>)
    decreases |replies|
  {
    replies == [] || Finished(s) ||
    (s.process.Up? && Succeeds(s, replies[0]) && AllSucceed(cfg, Advance(cfg, s, replies[0]), replies[1..]))
  }

  predicate CompletedCleanly(cfg: Config, inc: Handle, s: Sys) {
    && s.process.Up? && s.process.pc == Done(Completed)
    && NewPublished(s.said, s.world)
    && (cfg.active.Some? ==> inc !in s.world.live)
  }

  lemma CompletionHolds(cfg: Config, inc: Handle, s: Sys)
    requires Claims(cfg, inc, s) && OnForwardPath(s) && Finished(s)
    ensures CompletedCleanly(cfg, inc, s)
  {}

  /**
  A rotation all of whose calls succeed completes: the old credential is dead, the new one
  live and published.
  */
  lemma {:induction false} SuccessCompletes(cfg: Config, inc: Handle, s: Sys, replies: seq<Reply>) returns (k: nat)
    requires Invariant(cfg, inc, s) && OnForwardPath(s) && AllHonest(inc, replies)
    requires AllSucceed(cfg, s, replies) && |replies| >= Measure(s)
    ensures k <= |replies| && k <= Measure(s)
    ensures
      CompletedCleanly(cfg, inc, Run(cfg, s, replies[..k]))
    decreases Measure(s)
  {
    hide Advance, IsForward, Advances, CompletedCleanly, Measure, RecordsFacts, Claims, Succeeds;
    if Finished(s) {
      k := 0;
      CompletionHolds(cfg, inc, s);
    } else {
      LifeCosts(s);
      StepDescends(cfg, inc, s, replies[0]);
      AdvanceKeepsInvariant(cfg, inc, s, replies[0]);
      ForwardStep(cfg, inc, s, replies[0]);
      var j := SuccessCompletes(cfg, inc, Advance(cfg, s, replies[0]), replies[1..]);
      k := j + 1;
      RunCons(cfg, s, replies[0], replies[1..][..j]);
      assert replies[..k] == [replies[0]] + replies[1..][..j];
    }
  }

  // ---- compensation and recovery ----

  predicate IsMirror(state: RotationState) {
    state.RestoringPublication? || state.ReverseDraining? || state.RevokingNew? || state.RolledBack?
  }

  predicate Compensates(from: RotationState, event: RotationEvent) {
    HintFor(from, event).None? && Next(from, event).Some? && IsMirror(Next(from, event).value)
  }

  /** The process is compensating, about to record nothing but events that go on with it. */
  predicate OnMirrorPath(s: Sys) {
    && s.process.Up? && IsMirror(s.said.state)
    && var pc := s.process.pc;
       (pc.Head? || pc.Done? || (pc.Deliver? && Compensates(pc.from, pc.event)))
  }

  lemma MirrorEvent(state: RotationState, ctx: RunContext)
    requires IsMirror(state) && ImmediateEvent(state, ctx).Some?
    ensures Compensates(state, ImmediateEvent(state, ctx).value)
  {}

  lemma MirrorCall(cfg: Config, inc: Handle, s: Sys)
    requires s.process.Up? && IsMirror(s.said.state) && !s.said.state.IsTerminal()
    requires StateFacts(cfg, inc, s.said, s.world) && ContextMatches(cfg, s.said, s.process.ctx)
    requires ImmediateEvent(s.said.state, s.process.ctx).None?
    ensures OnMirrorPath(CallStep(cfg, s, s.said.state, Ok))
  {}

  lemma MirrorHead(cfg: Config, inc: Handle, s: Sys)
    requires Claims(cfg, inc, s) && OnMirrorPath(s) && s.process.pc.Head?
    ensures OnMirrorPath(HeadStep(cfg, s, s.said.state, Ok))
  {
    hide CallStep, ImmediateEvent, Next, HintFor, StateFacts, HeadFacts;
    var state, ctx := s.said.state, s.process.ctx;
    if !state.IsTerminal() && ImmediateEvent(state, ctx).None? {
      MirrorCall(cfg, inc, s);
    } else if !state.IsTerminal() {
      MirrorEvent(state, ctx);
    }
  }

  lemma MirrorStep(cfg: Config, inc: Handle, s: Sys)
    requires Invariant(cfg, inc, s) && OnMirrorPath(s) && !Finished(s)
    ensures OnMirrorPath(Advance(cfg, s, Ok))
  {
    hide HeadStep, Next, HintFor, StateFacts, HeadFacts, Reconcile;
    if s.process.pc.Head? {
      MirrorHead(cfg, inc, s);
    }
  }

  lemma MirrorSucceedsByOk(cfg: Config, inc: Handle, s: Sys, reply: Reply)
    requires Invariant(cfg, inc, s) && OnMirrorPath(s) && Succeeds(s, reply)
    ensures reply == Ok
  {
    hide StateFacts, HeadFacts, Fold, Next;
  }

  lemma MirrorEnd(cfg: Config, inc: Handle, s: Sys)
    requires Invariant(cfg, inc, s) && OnMirrorPath(s) && Finished(s)
    ensures s.process.pc == Done(RolledBack)
  {
    hide StateFacts, HeadFacts, Fold, Next;
  }

  /** Compensation all of whose calls succeed ends rolled back. */
  lemma {:induction false} SuccessRollsBack(cfg: Config, inc: Handle, s: Sys, replies: seq<Reply>) returns (k: nat)
    requires Invariant(cfg, inc, s) && OnMirrorPath(s) && AllHonest(inc, replies)
    requires AllSucceed(cfg, s, replies) && |replies| >= Measure(s)
    ensures k <= |replies| && Run(cfg, s, replies[..k]).process.Up?
    ensures Run(cfg, s, replies[..k]).process.pc == Done(RolledBack)
    decreases Measure(s)
  {
    hide Advance, IsMirror, Compensates, Measure, RecordsFacts, Claims, Succeeds;
    if Finished(s) {
      k := 0;
      MirrorEnd(cfg, inc, s);
    } else {
      LifeCosts(s);
      MirrorSucceedsByOk(cfg, inc, s, replies[0]);
      StepDescends(cfg, inc, s, replies[0]);
      AdvanceKeepsInvariant(cfg, inc, s, replies[0]);
      MirrorStep(cfg, inc, s);
      var j := SuccessRollsBack(cfg, inc, Advance(cfg, s, replies[0]), replies[1..]);
      k := j + 1;
      RunCons(cfg, s, replies[0], replies[1..][..j]);
      assert replies[..k] == [replies[0]] + replies[1..][..j];
    }
  }

  /** Where a recovery that has settled on a state leads when everything succeeds. */
  function Destination(settled: RotationState): RotationState {
    if settled.NeedsOperator? then NeedsOperator
    else if settled.Provisioned? || settled.Verified? || IsMirror(settled) then RolledBack
    else Completed
  }

  /** The state recovery settles on: what reconciliation makes of an unknown outcome, else what was journalled. */
  function Settled(cfg: Config, s: Sys): RotationState {
    if s.said.state.IsInFlight() then Reconcile(s.said.state, Observe(s.world, RecoveredContext(cfg, s.said)))
    else s.said.state
  }

  ghost predicate EndsAt(cfg: Config, s: Sys, replies: seq<Reply>, terminal: RotationState) {
    exists k :: 0 <= k <= |replies| && IsDone(Run(cfg, s, replies[..k]), terminal)
  }

  predicate IsDone(s: Sys, terminal: RotationState) {
    s.process.Up? && s.process.pc == Done(terminal)
  }

  lemma EndsLater(cfg: Config, s: Sys, replies: seq<Reply>, terminal: RotationState)
    requires replies != [] && EndsAt(cfg, Advance(cfg, s, replies[0]), replies[1..], terminal)
    ensures EndsAt(cfg, s, replies, terminal)
  {
    hide Advance;
    var rest := replies[1..];
    var j :| 0 <= j <= |rest| && IsDone(Run(cfg, Advance(cfg, s, replies[0]), rest[..j]), terminal);
    RunCons(cfg, s, replies[0], rest[..j]);
    assert replies[..j + 1] == [replies[0]] + rest[..j];
    assert IsDone(Run(cfg, s, replies[..j + 1]), terminal);
  }

  lemma HeadEnds(cfg: Config, inc: Handle, s: Sys, replies: seq<Reply>)
    requires Invariant(cfg, inc, s) && s.process.Up? && s.process.pc == Head(s.said.state)
    requires !s.said.state.Provisioned? && !s.said.state.Verified?
    requires AllHonest(inc, replies) && AllSucceed(cfg, s, replies) && |replies| >= Measure(s)
    ensures EndsAt(cfg, s, replies, Destination(s.said.state))
  {
    hide Invariant, Advance, AllSucceed, Measure, Run;
    if s.said.state.NeedsOperator? {
      StoppedEnds(cfg, s, replies);
    } else if IsMirror(s.said.state) {
      var k := SuccessRollsBack(cfg, inc, s, replies);
      assert IsDone(Run(cfg, s, replies[..k]), RolledBack);
    } else {
      var k := SuccessCompletes(cfg, inc, s, replies);
      assert IsDone(Run(cfg, s, replies[..k]), Completed);
    }
  }

  lemma StoppedEnds(cfg: Config, s: Sys, replies: seq<Reply>)
    requires s.process.Up? && s.process.pc == Head(NeedsOperator)
    requires AllSucceed(cfg, s, replies) && |replies| >= Measure(s)
    ensures EndsAt(cfg, s, replies, NeedsOperator)
  {
    LifeCosts(s);
    var next := Advance(cfg, s, replies[0]);
    assert next.process.pc == Done(NeedsOperator);
    assert replies[1..][..0] == [];
    assert IsDone(Run(cfg, next, replies[1..][..0]), NeedsOperator);
    EndsLater(cfg, s, replies, NeedsOperator);
  }

  lemma ResumedEnds(cfg: Config, inc: Handle, s: Sys, replies: seq<Reply>)
    requires Invariant(cfg, inc, s) && s.process.Up?
    requires s.process.pc ==
      if s.said.state.Provisioned? || s.said.state.Verified? then Abandon(s.said.state) else Head(s.said.state)
    requires AllHonest(inc, replies) && AllSucceed(cfg, s, replies) && |replies| >= Measure(s)
    ensures EndsAt(cfg, s, replies, Destination(s.said.state))
  {
    hide Advance, Run, EndsAt, IsMirror;
    if s.process.pc.Abandon? {
      AbandonRollsBack(cfg, inc, s, replies);
    } else {
      HeadEnds(cfg, inc, s, replies);
    }
  }

  lemma AbandonRollsBack(cfg: Config, inc: Handle, s: Sys, replies: seq<Reply>)
    requires Invariant(cfg, inc, s) && s.process.Up? && s.process.pc == Abandon(s.said.state)
    requires s.said.state.Provisioned? || s.said.state.Verified?
    requires AllHonest(inc, replies) && AllSucceed(cfg, s, replies) && |replies| >= Measure(s)
    ensures EndsAt(cfg, s, replies, RolledBack)
  {
    hide Run, EndsAt, Measure;
    LifeCosts(s);
    var next := Advance(cfg, s, replies[0]);
    AbandonsToMirror(cfg, s);
    StepDescends(cfg, inc, s, replies[0]);
    AdvanceKeepsInvariant(cfg, inc, s, replies[0]);
    HeadEnds(cfg, inc, next, replies[1..]);
    EndsLater(cfg, s, replies, RolledBack);
  }

  lemma AbandonsToMirror(cfg: Config, s: Sys)
    requires s.process.Up? && s.process.pc == Abandon(s.said.state)
    requires s.said.state.Provisioned? || s.said.state.Verified?
    ensures
      var next := Advance(cfg, s, Ok);
      next.process.Up? && next.said.state.RevokingNew? && next.process.pc == Head(RevokingNew)
  {}

  /** The step that opens a recovery: to the question put to the world, or straight to the journalled state. */
  lemma RecoveryOpens(cfg: Config, inc: Handle, s: Sys)
    requires Invariant(cfg, inc, s) && s.process.Down? && s.records != []
    ensures
      var s' := Advance(cfg, s, Ok);
      && s'.process.Up? && s'.said == s.said
      && s'.process.pc ==
           if s.said.state.IsInFlight() then Resolve(s.said.state, Observe(s.world, RecoveredContext(cfg, s.said)))
           else if s.said.state.Provisioned? || s.said.state.Verified? then Abandon(s.said.state)
           else Head(s.said.state)
  {
    hide Observe, StateFacts;
  }

  lemma ResolutionSettles(cfg: Config, s: Sys)
    requires s.process.Up? && s.process.pc.Resolve? && s.process.pc.from == s.said.state
    ensures
      var s', to := Advance(cfg, s, Ok), Reconcile(s.said.state, s.process.pc.observed);
      && s'.process.Up? && s'.said.state == to
      && s'.process.pc == if to.Provisioned? || to.Verified? then Abandon(to) else Head(to)
  {
    hide Reconcile;
  }

  /**
  A recovery all of whose calls succeed ends, from every journalled state: completed when it
  settles on the forward path, rolled back when it settles on a credential that was not
  published or in the middle of compensating, and stopped when it cannot settle.
  */
  lemma SuccessfulRecoveryEnds(cfg: Config, inc: Handle, s: Sys, replies: seq<Reply>)
    requires Invariant(cfg, inc, s) && s.process.Down? && s.records != []
    requires AllHonest(inc, replies) && |replies| >= 91 && replies[0] == Ok
    requires AllSucceed(cfg, Advance(cfg, s, replies[0]), replies[1..])
    ensures EndsAt(cfg, s, replies, Destination(Settled(cfg, s)))
  {
    hide Advance, Run, EndsAt, Destination, Observe;
    var begun := Advance(cfg, s, Ok);
    RecoveryOpens(cfg, inc, s);
    AdvanceKeepsInvariant(cfg, inc, s, Ok);
    if s.said.state.IsInFlight() {
      ResolvedEnds(cfg, inc, begun, replies[1..]);
    } else {
      ResumedEnds(cfg, inc, begun, replies[1..]);
    }
    EndsLater(cfg, s, replies, Destination(Settled(cfg, s)));
  }

  lemma ResolvedEnds(cfg: Config, inc: Handle, s: Sys, replies: seq<Reply>)
    requires Invariant(cfg, inc, s) && s.process.Up? && s.process.pc.Resolve? && s.process.pc.from == s.said.state
    requires AllHonest(inc, replies) && AllSucceed(cfg, s, replies) && |replies| >= Measure(s)
    ensures EndsAt(cfg, s, replies, Destination(Reconcile(s.said.state, s.process.pc.observed)))
  {
    hide Run, EndsAt, Destination, Reconcile, Measure;
    LifeCosts(s);
    ResolutionSettles(cfg, s);
    StepDescends(cfg, inc, s, replies[0]);
    AdvanceKeepsInvariant(cfg, inc, s, replies[0]);
    ResumedEnds(cfg, inc, Advance(cfg, s, replies[0]), replies[1..]);
    EndsLater(cfg, s, replies, Destination(Reconcile(s.said.state, s.process.pc.observed)));
  }

  // ---- success is possible ----

  /** Everywhere a process can be once it has begun, short of a failure. */
  predicate OnCourse(s: Sys) {
    || OnForwardPath(s)
    || OnMirrorPath(s)
    || (s.process.Up?
        && (s.process.pc == Head(NeedsOperator) || s.process.pc == Done(NeedsOperator)
            || (s.process.pc.Resolve? && s.process.pc.from == s.said.state)
            || (s.process.pc == Abandon(s.said.state) && (s.said.state.Provisioned? || s.said.state.Verified?))))
  }

  lemma HeadIsOnCourse(s: Sys, state: RotationState)
    requires s.process.Up? && s.said.state == state
    requires s.process.pc == if state.Provisioned? || state.Verified? then Abandon(state) else Head(state)
    ensures OnCourse(s)
  {}

  lemma CourseStep(cfg: Config, inc: Handle, s: Sys, reply: Reply)
    requires s.process.Up? && Invariant(cfg, inc, s) && OnCourse(s) && !Finished(s) && Succeeds(s, reply)
    ensures OnCourse(Advance(cfg, s, reply))
  {
    hide Advance, Invariant, IsForward, IsMirror, Advances, Compensates, Next;
    if OnForwardPath(s) {
      ForwardStep(cfg, inc, s, reply);
    } else if OnMirrorPath(s) {
      MirrorSucceedsByOk(cfg, inc, s, reply);
      MirrorStep(cfg, inc, s);
    } else if s.process.pc.Resolve? {
      ResolutionSettles(cfg, s);
      HeadIsOnCourse(Advance(cfg, s, reply), Reconcile(s.said.state, s.process.pc.observed));
    } else if s.process.pc.Abandon? {
      AbandonsToMirror(cfg, s);
      HeadIsOnCourse(Advance(cfg, s, reply), RevokingNew);
    } else {
      StopIsRecorded(cfg, s);
    }
  }

  lemma StopIsRecorded(cfg: Config, s: Sys)
    requires s.process.Up? && s.process.pc == Head(NeedsOperator)
    ensures Advance(cfg, s, Ok).process.Up? && Advance(cfg, s, Ok).process.pc == Done(NeedsOperator)
  {}

  /** Success is always possible: some honest replies, as many as wanted, are all the successful ones. */
  lemma {:induction false} SuccessIsPossible(cfg: Config, inc: Handle, s: Sys, n: nat) returns (replies: seq<Reply>)
    requires Invariant(cfg, inc, s) && OnCourse(s) && n >= Measure(s)
    ensures |replies| == n && AllHonest(inc, replies) && AllSucceed(cfg, s, replies)
    decreases n
  {
    hide Advance, OnForwardPath, OnMirrorPath, Measure;
    CourseIsUp(s);
    if Finished(s) {
      replies := seq(n, i => Ok);
    } else {
      LifeCosts(s);
      var reply := if s.process.pc == Head(Provisioning) then Created(inc + 1, 0) else Ok;
      StepDescends(cfg, inc, s, reply);
      AdvanceKeepsInvariant(cfg, inc, s, reply);
      CourseStep(cfg, inc, s, reply);
      var rest := SuccessIsPossible(cfg, inc, Advance(cfg, s, reply), n - 1);
      replies := [reply] + rest;
      assert replies[1..] == rest;
    }
  }

  lemma CourseIsUp(s: Sys)
    requires OnCourse(s)
    ensures s.process.Up?
  {}

  /** So is the success of a recovery, from every journalled state. */
  lemma RecoveryCanSucceed(cfg: Config, inc: Handle, s: Sys, n: nat) returns (replies: seq<Reply>)
    requires Invariant(cfg, inc, s) && s.process.Down? && s.records != [] && n >= 91
    ensures |replies| == n && AllHonest(inc, replies) && replies[0] == Ok
    ensures AllSucceed(cfg, Advance(cfg, s, replies[0]), replies[1..])
  {
    hide Advance, OnForwardPath, OnMirrorPath, AllSucceed;
    var begun := Advance(cfg, s, Ok);
    RecoveryOpens(cfg, inc, s);
    AdvanceKeepsInvariant(cfg, inc, s, Ok);
    if !s.said.state.IsInFlight() {
      HeadIsOnCourse(begun, s.said.state);
    }
    var rest := SuccessIsPossible(cfg, inc, begun, n - 1);
    replies := [Ok] + rest;
    assert replies[1..] == rest;
  }
}
