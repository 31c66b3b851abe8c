/**
The rotation engine as a step machine. Durable state (journal records and the world) is
kept apart from the volatile process, every step makes at most one durable effect, and
the environment decides how each call ends: so a crash can fall between any two effects.
*/
module Machine {
  import opened Wrappers
  import opened Protocol
  import opened GhostModel
  import opened JournalFile

  type Secret = nat

  // ---- the world ----

  /** One immutable version in the backend, and whose value it holds. */
  datatype Stored = Stored(value: Secret, side: PublishedSide)

  /**
  Both external systems. Version `n` is `history[n - 1]`, so a version identifier is
  never reused; `live` maps each accepted credential to the value it accepts.
  */
  datatype World = World(
    history: seq<Stored>,
    published: Option<VersionId>,
    live: map<Handle, Secret>)
  {
    predicate HasVersion(version: VersionId) {
      1 <= version <= |history|
    }

    function At(version: VersionId): Stored
      requires HasVersion(version)
    {
      history[version - 1]
    }

    /** Write a new version, making it current or only staging it. */
    function Write(stored: Stored, makeCurrent: bool): World {
      World(history + [stored], if makeCurrent then Some(|history| + 1) else published, live)
    }

    /**
    Put an earlier version back: a native restore makes that version itself current again,
    otherwise its value is written forward. A version that does not exist is refused.
    */
    function Restore(version: VersionId, native: bool): World {
      if !HasVersion(version) then this
      else if native then this.(published := Some(version))
      else Write(At(version), true)
    }

    function Accept(handle: Handle, value: Secret): World {
      this.(live := live[handle := value])
    }

    function Revoke(handle: Handle): World {
      this.(live := live - {handle})
    }
  }

  /**
  What the operator configured: the known active credential, and the backend's shape, which
  may promote a staged version separately and may restore without writing a new version.
  */
  datatype Config = Config(active: Option<Handle>, atomicPromote: bool, nativeRestore: bool)

  // ---- the environment's replies ----

  /** How a call ends. `Err` covers errors and negative reports; `landed` says whether the effect took place first. */
  datatype Reply =
    | Ok
    | Err(landed: bool)
    | Created(handle: Handle, value: Secret)
    | ErrCreated(handle: Handle, value: Secret)
    | Crash

  // ---- the volatile process ----

  datatype RunContext = RunContext(
    oldHandle: Option<Handle>,
    newHandle: Option<Handle>,
    newValue: Option<Secret>,
    previousVersion: Option<VersionId>,
    writtenVersion: Option<VersionId>)

  function FreshContext(cfg: Config): RunContext {
    RunContext(cfg.active, None, None, None, None)
  }

  /** Where the process stands between two durable effects. */
  datatype Pc =
    | Begin(apply: bool)
    | Head(state: RotationState)
    | AssignHandle(handle: Handle, value: Secret)
    | Baseline(current: Option<VersionId>)
    | Stage(value: Secret)
    | Promote(version: VersionId)
    | RecordVersion(version: VersionId)
    | Deliver(from: RotationState, event: RotationEvent)
    | Commit(from: RotationState, event: RotationEvent)
    | Resolve(from: RotationState, observed: Observation)
    | Abandon(from: RotationState)
    | Done(terminal: RotationState)

  /** `found` is the ghost world as the current pass through the loop found it. */
  datatype Process = Down | Up(pc: Pc, ctx: RunContext, found: Ghost)

  /** The history of everything that reached the outside world, and of processes ending. */
  datatype Effect =
    | CredentialMade(handle: Handle, value: Secret)
    | Orphaned(handle: Handle)
    | VerifyPassed(value: Secret)
    | StageCalled(value: Secret)
    | MadeCurrent(value: Secret)
    | DrainCompleted(handle: Handle)
    | RevokeCalled(handle: Handle)
    | ProcessEnded

  /** `said` is what the records say so far; every step keeps it equal to their fold. */
  datatype Sys = Sys(
    records: seq<Record>,
    said: Replayed,
    world: World,
    trace: seq<Effect>,
    process: Process)

  function Start(cfg: Config, world: World, apply: bool): Sys {
    Sys([], NOTHING, world, [], Up(Begin(apply), FreshContext(cfg), StartingGhost(cfg)))
  }

  /** The ghost world a run starts from; an old credential nobody named is not known to be live. */
  function StartingGhost(cfg: Config): Ghost {
    INITIAL.(oldLive := cfg.active.Some?)
  }

  // ---- the abstraction to the ghost model ----

  predicate IsLive(world: World, handle: Option<Handle>) {
    handle.Some? && handle.value in world.live
  }

  function PublishedSideOf(world: World): PublishedSide {
    match world.published
    case Some(version) => if world.HasVersion(version) then world.At(version).side else Unknown
    case None => Unknown
  }

  /** The ghost world, reading "new is live" as the journalled handle being live. */
  function GhostOf(cfg: Config, s: Sys): Ghost {
    var newLive := IsLive(s.world, s.said.handle);
    Ghost(newLive, newLive, IsLive(s.world, cfg.active), PublishedSideOf(s.world), EverVerified(s.trace))
  }

  predicate EverVerified(trace: seq<Effect>) {
    exists i :: 0 <= i < |trace| && trace[i].VerifyPassed?
  }

  // ---- one step ----

  /** The process dies: its context, and the plaintext in it, is gone. */
  function Die(s: Sys): Sys {
    s.(process := Down, trace := s.trace + [ProcessEnded])
  }

  function Goto(s: Sys, pc: Pc): Sys
    requires s.process.Up?
  {
    s.(process := s.process.(pc := pc))
  }

  function WithContext(s: Sys, ctx: RunContext): Sys
    requires s.process.Up?
  {
    s.(process := s.process.(ctx := ctx))
  }

  function Log(s: Sys, record: Record): Sys {
    s.(records := s.records + [record],
       said := match Apply(s.said, record) { case Some(at) => at case None => s.said })
  }

  function Effected(s: Sys, world: World, effect: Effect): Sys {
    s.(world := world, trace := s.trace + [effect])
  }

  /** Arrive at the head of the loop in a state. */
  function Arrive(cfg: Config, s: Sys, ctx: RunContext, state: RotationState): Sys {
    s.(process := Up(Head(state), ctx, GhostOf(cfg, s)))
  }

  /** The event of a step that has nothing to call. */
  function ImmediateEvent(state: RotationState, ctx: RunContext): Option<RotationEvent> {
    if state.Verifying? then (if ctx.newValue.None? then Some(VerifyFailed) else None)
    else if state.Draining? then (if ctx.oldHandle.None? then Some(DrainComplete) else None)
    else if state.Revoking? then (if ctx.oldHandle.None? then Some(RevokeOk) else None)
    else if state.RestoringPublication? then (if ctx.previousVersion.None? then Some(RestoreOk) else None)
    else if state.ReverseDraining? then (if ctx.newHandle.None? then Some(ReverseDrainComplete) else None)
    else if state.RevokingNew? then (if ctx.newHandle.None? then Some(RevokeNewOk) else None)
    else StartEvent(state)
  }

  /** Make a transition durable; an illegal one ends the process. */
  function Transit(cfg: Config, s: Sys, from: RotationState, event: RotationEvent): Sys
    requires s.process.Up?
  {
    match Next(from, event)
    case None => Die(s)
    case Some(to) => Arrive(cfg, Log(s, Transition(from, event, to)), s.process.ctx, to)
  }

  /** Journal the guidance of an escalating event first, then the transition. */
  function DeliverStep(cfg: Config, s: Sys, from: RotationState, event: RotationEvent): Sys
    requires s.process.Up?
  {
    match HintFor(from, event)
    case Some(hint) => Goto(Log(s, Escalation(hint)), Commit(from, event))
    case None => Transit(cfg, s, from, event)
  }

  // ---- the calls of the in-flight states ----

  function ProvisionCall(s: Sys, reply: Reply): Sys
    requires s.process.Up?
  {
    match reply
    case Created(handle, value) =>
      Goto(Effected(s, s.world.Accept(handle, value), CredentialMade(handle, value)), AssignHandle(handle, value))
    case ErrCreated(handle, value) =>
      Goto(Effected(s, s.world.Accept(handle, value), Orphaned(handle)), Deliver(Provisioning, ProvisionFailed))
    case Err(_) => Goto(s, Deliver(Provisioning, ProvisionFailed))
    case _ => Die(s)
  }

  function VerifyCall(s: Sys, value: Secret, reply: Reply): Sys
    requires s.process.Up?
  {
    match reply
    case Ok => Goto(Effected(s, s.world, VerifyPassed(value)), Deliver(Verifying, VerifyOk))
    case Err(_) => Goto(s, Deliver(Verifying, VerifyFailed))
    case _ => Die(s)
  }

  /** Observe what is published now; the baseline is made durable before anything is written. */
  function PublishCall(s: Sys, reply: Reply): Sys
    requires s.process.Up?
  {
    match reply
    case Ok =>
      WithContext(Goto(s, Baseline(s.world.published)), s.process.ctx.(previousVersion := s.world.published))
    case Err(_) => Goto(s, Deliver(Publishing, PublishFailed))
    case _ => Die(s)
  }

  function DrainCall(
    s: Sys, handle: Handle, reply: Reply, from: RotationState, ok: RotationEvent, failed: RotationEvent): Sys
    requires s.process.Up?
  {
    match reply
    case Ok => Goto(Effected(s, s.world, DrainCompleted(handle)), Deliver(from, ok))
    case Err(_) => Goto(s, Deliver(from, failed))
    case _ => Die(s)
  }

  function RevokeCall(
    s: Sys, handle: Handle, reply: Reply, from: RotationState, ok: RotationEvent, failed: RotationEvent): Sys
    requires s.process.Up?
  {
    match reply
    case Ok => Goto(Effected(s, s.world.Revoke(handle), RevokeCalled(handle)), Deliver(from, ok))
    case Err(landed) =>
      Goto(Effected(s, if landed then s.world.Revoke(handle) else s.world, RevokeCalled(handle)), Deliver(from, failed))
    case _ => Die(s)
  }

  /** A restore of a version the backend does not have cannot report success. */
  function RestoreCall(cfg: Config, s: Sys, version: VersionId, reply: Reply): Sys
    requires s.process.Up?
  {
    var restored := s.(world := s.world.Restore(version, cfg.nativeRestore));
    match reply
    case Ok =>
      Goto(restored, Deliver(RestoringPublication, if s.world.HasVersion(version) then RestoreOk else RestoreFailed))
    case Err(landed) => Goto(if landed then restored else s, Deliver(RestoringPublication, RestoreFailed))
    case _ => Die(s)
  }

  /** The call an in-flight state is in the middle of. */
  function CallStep(cfg: Config, s: Sys, state: RotationState, reply: Reply): Sys
    requires s.process.Up? && ImmediateEvent(state, s.process.ctx) == None
  {
    var ctx := s.process.ctx;
    match state
    case Provisioning => ProvisionCall(s, reply)
    case Verifying => VerifyCall(s, ctx.newValue.value, reply)
    case Publishing => PublishCall(s, reply)
    case Draining => DrainCall(s, ctx.oldHandle.value, reply, state, DrainComplete, DrainTimeout)
    case Revoking => RevokeCall(s, ctx.oldHandle.value, reply, state, RevokeOk, RevokeFailed)
    case RestoringPublication => RestoreCall(cfg, s, ctx.previousVersion.value, reply)
    case ReverseDraining =>
      DrainCall(s, ctx.newHandle.value, reply, state, ReverseDrainComplete, ReverseDrainTimeout)
    case RevokingNew => RevokeCall(s, ctx.newHandle.value, reply, state, RevokeNewOk, RevokeNewFailed)
    case _ => Die(s)
  }

  /** Stage the new value; the backend makes it current at once unless it promotes separately. */
  function StageStep(cfg: Config, s: Sys, value: Secret, reply: Reply): Sys
    requires s.process.Up?
  {
    var ctx := s.process.ctx.(newValue := None);
    var called := s.(trace := s.trace + [StageCalled(value)]);
    var written := s.world.Write(Stored(value, New), !cfg.atomicPromote);
    var version := |s.world.history| + 1;
    match reply
    case Ok =>
      if cfg.atomicPromote then
        WithContext(Goto(called.(world := written), Promote(version)), ctx)
      else
        WithContext(Goto(Effected(called, written, MadeCurrent(value)), RecordVersion(version)), ctx)
    case Err(landed) =>
      WithContext(Goto(called.(world := if landed then written else s.world), Deliver(Publishing, PublishFailed)), ctx)
    case _ => Die(s)
  }

  function PromoteStep(s: Sys, version: VersionId, reply: Reply): Sys
    requires s.process.Up?
  {
    var promoted := s.world.(published := Some(version));
    match reply
    case Ok =>
      if !s.world.HasVersion(version) then Goto(s, Deliver(Publishing, PublishFailed)) else
      Goto(Effected(s, promoted, MadeCurrent(s.world.At(version).value)), RecordVersion(version))
    case Err(landed) =>
      Goto(s.(world := if landed && s.world.HasVersion(version) then promoted else s.world),
           Deliver(Publishing, PublishFailed))
    case _ => Die(s)
  }

  /** What `observe` concludes from liveness and version identity. */
  function Observe(world: World, ctx: RunContext): Observation {
    var side :=
      if world.published.Some? && ctx.writtenVersion == world.published then New
      else if world.published.Some? && ctx.previousVersion == world.published then Old
      else if world.published.None? && ctx.previousVersion.None? then Old
      else Unknown;
    Observation(IsLive(world, ctx.newHandle), IsLive(world, ctx.oldHandle), side)
  }

  function RecoveredContext(cfg: Config, at: Replayed): RunContext {
    RunContext(cfg.active, at.handle, None, at.previous, at.written)
  }

  /** After recovery settles on a state: abandon what needed the lost value, else drive on. */
  function Resume(cfg: Config, s: Sys, ctx: RunContext, state: RotationState): Sys {
    var arrived := Arrive(cfg, s, ctx, state);
    if state.Provisioned? || state.Verified? then Goto(arrived, Abandon(state)) else arrived
  }

  /** A new process replays the journal and, in an unknown-outcome state, asks the world. */
  function RecoverStep(cfg: Config, s: Sys, reply: Reply): Sys {
    if !reply.Ok? || s.records == [] then s else
    match Fold(s.records)
    case None => s
    case Some(at) =>
      var ctx := RecoveredContext(cfg, at);
      if at.state.IsInFlight() then
        Goto(Arrive(cfg, s, ctx, at.state), Resolve(at.state, Observe(s.world, ctx)))
      else
        Resume(cfg, s, ctx, at.state)
  }

  /** A step whose only effect is one durable journal record. */
  function DurableStep(cfg: Config, s: Sys): Sys
    requires s.process.Up?
  {
    var ctx := s.process.ctx;
    match s.process.pc
    case Begin(apply) =>
      if apply then Arrive(cfg, Log(s, RunStarted(apply)), ctx, Pending) else Die(Log(s, RunStarted(apply)))
    case AssignHandle(handle, value) =>
      WithContext(Goto(Log(s, HandleAssigned(handle)), Deliver(Provisioning, ProvisionOk)),
                  ctx.(newHandle := Some(handle), newValue := Some(value)))
    case Baseline(current) =>
      Goto(Log(s, PublicationBaseline(current)),
           if ctx.newValue.Some? then Stage(ctx.newValue.value) else Deliver(Publishing, PublishFailed))
    case RecordVersion(version) =>
      WithContext(Goto(Log(s, VersionAssigned(ctx.previousVersion, version)), Deliver(Publishing, PublishOk)),
                  ctx.(writtenVersion := Some(version)))
    case Deliver(from, event) => DeliverStep(cfg, s, from, event)
    case Commit(from, event) => Transit(cfg, s, from, event)
    case Resolve(from, observed) =>
      var to := Reconcile(from, observed);
      Resume(cfg, Log(s, Transition(from, Reconciled(observed), to)), ctx, to)
    case Abandon(from) => Transit(cfg, s, from, AbortRequested)
    case _ => Die(s)
  }

  /** The head of the loop: finish, make the next call, or take the event that needs none. */
  function HeadStep(cfg: Config, s: Sys, state: RotationState, reply: Reply): Sys
    requires s.process.Up?
  {
    var immediate := ImmediateEvent(state, s.process.ctx);
    if !state.IsTerminal() && immediate.None? then CallStep(cfg, s, state, reply)
    else if !reply.Ok? then Die(s)
    else if state.IsTerminal() then Goto(Log(s, RunFinished(state)), Done(state))
    else DeliverStep(cfg, s, state, immediate.value)
  }

  /** One step of the whole system. A reply that does not fit the call ends the process. */
  function Advance(cfg: Config, s: Sys, reply: Reply): Sys {
    if s.process.Down? then RecoverStep(cfg, s, reply)
    else if reply.Crash? then Die(s)
    else match s.process.pc
      case Head(state) => HeadStep(cfg, s, state, reply)
      case Stage(value) => StageStep(cfg, s, value, reply)
      case Promote(version) => PromoteStep(s, version, reply)
      case _ => if reply.Ok? then DurableStep(cfg, s) else Die(s)
  }

  /** The system after the environment has given these replies. */
  function Run(cfg: Config, s: Sys, replies: seq<Reply>): Sys {
    if replies == [] then s
    else Advance(cfg, Run(cfg, s, replies[..|replies| - 1]), replies[|replies| - 1])
  }

  lemma RunSnoc(cfg: Config, s: Sys, replies: seq<Reply>, reply: Reply)
    ensures Run(cfg, s, replies + [reply]) == Advance(cfg, Run(cfg, s, replies), reply)
  {
    assert (replies + [reply])[..|replies|] == replies;
  }
}
