/**
The rotation engine in its own shape: an object that drives the state machine against a
provider and a backend, journalling before and after each effect. Every method is tied to
the step machine: the durable state it leaves is the machine's, reply for reply.
*/
module Engine {
  import opened Wrappers
  import opened Protocol
  import opened JournalFile
  import opened Machine
  import opened MachineInvariant
  import opened MachineSafety
  import opened MachineProgress
  import opened MachineTheorems
  import opened MachineOutcomes

  /** Why a call into the outside did not succeed. */
  datatype CallError = CallFailed | Killed

  datatype EngineError =
    | ProcessKilled
    | IllegalTransition(from: RotationState)
    | MissingNewHandle
    | JournalUnreadable(error: ReplayError)

  datatype RotationOutcome =
    | DryRun
    | CompletedRun(newHandle: Handle, version: Option<VersionId>)
    | RolledBackRun
    | StoppedForOperator(stoppedAt: RotationState, hint: Option<RemediationHint>)

  /**
  Everything outside the process: both external systems, and the replies their calls are
  going to give. It outlives every process.
  */
  class Outside {
    const cfg: Config
    var world: World
    var script: seq<Reply>
    ghost const inc: Handle
    ghost const initial: World
    ghost const apply: bool
    ghost var trace: seq<Effect>
    ghost var consumed: seq<Reply>

    /** The assumptions: a sound starting world, and a provider that honours its contract. */
    ghost predicate Sound()
      reads this
    {
      StartingWorld(cfg, inc, initial) && AllHonest(inc, consumed) && AllHonest(inc, script)
    }

    /** Where the step machine stands after the replies given so far. */
    ghost function Now(): Sys
      reads this
    {
      Run(cfg, Start(cfg, initial, apply), consumed)
    }

    constructor (cfg: Config, world: World, script: seq<Reply>, ghost inc: Handle, ghost apply: bool)
      requires StartingWorld(cfg, inc, world) && AllHonest(inc, script)
      ensures this.cfg == cfg && this.world == world && this.script == script && this.inc == inc
      ensures initial == world && this.apply == apply
      ensures trace == [] && Sound() && Now() == Start(cfg, world, apply)
    {
      this.cfg, this.world, this.script := cfg, world, script;
      this.inc, this.initial, this.apply := inc, world, apply;
      this.trace, this.consumed := [], [];
    }

    /** The next reply; when there is none, the process dies here. */
    method Pull() returns (reply: Reply)
      requires Sound()
      modifies this`script, this`consumed
      ensures Sound() && Pulled(old(script), script, reply) && Now() == Advance(cfg, old(Now()), reply)
    {
      if script == [] {
        reply := Crash;
      } else {
        reply, script := script[0], script[1..];
      }
      RunSnoc(cfg, Start(cfg, initial, apply), consumed, reply);
      consumed := consumed + [reply];
    }

    /** The event this process is about to record is legal. */
    lemma EventsAreLegal(s: Sys, from: RotationState, event: RotationEvent)
      requires Sound() && s == Now()
      ensures ReadyToRecord(s, from, event) || DecidedAt(s, from, event) ==> Legal(s, from, event)
    {
      EveryRecordedEventIsLegal(cfg, inc, initial, apply, consumed, s, from, event);
    }

    /** The journal replays and consumers can work, wherever the replies have led. */
    lemma WorldIsSound()
      requires Sound()
      ensures Fold(Now().records).Some? && Available(Now().world)
    {
      JournalDescribesWorld(cfg, inc, initial, apply, consumed, Now());
      AlwaysAvailable(cfg, inc, initial, apply, consumed, Now());
    }

    /** What a recovery will settle on is decided by the journal and the world. */
    lemma Settles()
      requires Sound()
      ensures Fold(Now().records) == Some(Now().said)
      ensures Settled(cfg, Now()).NeedsOperator? <==> Undecidable(inc, Now().said, Now().world)
    {
      hide Run, HistoryInvariant, Claims, Resolves, Settled, Undecidable;
      RunHoldsEverything(cfg, inc, initial, apply, consumed);
      SettledResolves(cfg, inc, Now());
      StopsIffUndecidable(cfg, inc, Now().said, Now().world, Settled(cfg, Now()));
    }

    /** No process has died but by a reply it was not waiting for. */
    lemma DeathsAreInterruptions()
      requires Sound()
      ensures Now().process.Down? ==> Interrupted(cfg, initial, apply, consumed)
    {
      if Now().process.Down? {
        DownMeansInterrupted(cfg, inc, initial, apply, consumed);
      }
    }

    lemma EndIsClean()
      requires Sound()
      ensures Finished(Now()) ==> EndMeans(cfg, inc, Now())
    {
      FinishedRunsAreClean(cfg, inc, initial, apply, consumed);
    }

    method Die()
      modifies this`trace
      ensures trace == old(trace) + [ProcessEnded]
    {
      trace := trace + [ProcessEnded];
    }

    method Provision() returns (result: Result<(Handle, Secret), CallError>, ghost reply: Reply)
      requires Sound()
      modifies this
      ensures Sound() && Pulled(old(script), script, reply) && Now() == Advance(cfg, old(Now()), reply)
      ensures
        match reply
        case Created(h, v) =>
          result == Success((h, v)) && world == old(world).Accept(h, v) && trace == old(trace) + [CredentialMade(h, v)]
        case ErrCreated(h, v) =>
          result == Failure(CallFailed) && world == old(world).Accept(h, v) && trace == old(trace) + [Orphaned(h)]
        case Err(_) => result == Failure(CallFailed) && world == old(world) && trace == old(trace)
        case _ => result == Failure(Killed) && world == old(world) && trace == old(trace) + [ProcessEnded]
    {
      var r := Pull();
      reply := r;
      match r {
        case Created(h, v) =>
          world, trace := world.Accept(h, v), trace + [CredentialMade(h, v)];
          result := Success((h, v));
        case ErrCreated(h, v) =>
          world, trace := world.Accept(h, v), trace + [Orphaned(h)];
          result := Failure(CallFailed);
        case Err(_) =>
          result := Failure(CallFailed);
        case _ =>
          Die();
          result := Failure(Killed);
      }
    }

    /** A call that changes nothing outside; `mark` is what its success is remembered as. */
    method Ask(ghost mark: seq<Effect>) returns (result: Result<(), CallError>, ghost reply: Reply)
      requires Sound()
      modifies this
      ensures Sound() && Pulled(old(script), script, reply) && Now() == Advance(cfg, old(Now()), reply)
      ensures world == old(world)
      ensures
        match reply
        case Ok => result == Success(()) && trace == old(trace) + mark
        case Err(_) => result == Failure(CallFailed) && trace == old(trace)
        case _ => result == Failure(Killed) && trace == old(trace) + [ProcessEnded]
    {
      var r := Pull();
      reply := r;
      if r.Ok? {
        trace := trace + mark;
        result := Success(());
      } else if r.Err? {
        result := Failure(CallFailed);
      } else {
        Die();
        result := Failure(Killed);
      }
    }

    method Revoke(handle: Handle) returns (result: Result<(), CallError>, ghost reply: Reply)
      requires Sound()
      modifies this
      ensures Sound() && Pulled(old(script), script, reply) && Now() == Advance(cfg, old(Now()), reply)
      ensures
        match reply
        case Ok =>
          result == Success(()) && world == old(world).Revoke(handle) && trace == old(trace) + [RevokeCalled(handle)]
        case Err(landed) =>
          && result == Failure(CallFailed) && trace == old(trace) + [RevokeCalled(handle)]
          && world == if landed then old(world).Revoke(handle) else old(world)
        case _ => result == Failure(Killed) && world == old(world) && trace == old(trace) + [ProcessEnded]
    {
      var r := Pull();
      reply := r;
      if r.Ok? || r.Err? {
        trace := trace + [RevokeCalled(handle)];
        if r.Ok? || r.landed {
          world := world.Revoke(handle);
        }
        result := if r.Ok? then Success(()) else Failure(CallFailed);
      } else {
        Die();
        result := Failure(Killed);
      }
    }

    /** The commit token and, in recovery, the observations: on failure nothing at all has happened. */
    method Authorize() returns (granted: bool, ghost reply: Reply)
      requires Sound()
      modifies this`script, this`consumed
      ensures Sound() && Pulled(old(script), script, reply) && Now() == Advance(cfg, old(Now()), reply)
      ensures granted == reply.Ok?
    {
      var r := Pull();
      reply := r;
      granted := r.Ok?;
    }

    /** Write the value as a new version, current at once unless the backend promotes separately. */
    method Stage(value: Secret) returns (result: Result<VersionId, CallError>, ghost reply: Reply)
      requires Sound()
      modifies this
      ensures Sound() && Pulled(old(script), script, reply) && Now() == Advance(cfg, old(Now()), reply)
      ensures
        var written := old(world).Write(Stored(value, New), !cfg.atomicPromote);
        match reply
        case Ok =>
          && result == Success(|old(world).history| + 1) && world == written
          && trace == old(trace) + [StageCalled(value)] + if cfg.atomicPromote then [] else [MadeCurrent(value)]
        case Err(landed) =>
          && result == Failure(CallFailed) && world == (if landed then written else old(world))
          && trace == old(trace) + [StageCalled(value)]
        case _ => result == Failure(Killed) && world == old(world) && trace == old(trace) + [ProcessEnded]
    {
      var r := Pull();
      reply := r;
      var written := world.Write(Stored(value, New), !cfg.atomicPromote);
      if r.Ok? {
        result := Success(|world.history| + 1);
        world := written;
        trace := trace + [StageCalled(value)] + if cfg.atomicPromote then [] else [MadeCurrent(value)];
      } else if r.Err? {
        if r.landed {
          world := written;
        }
        trace := trace + [StageCalled(value)];
        result := Failure(CallFailed);
      } else {
        Die();
        result := Failure(Killed);
      }
    }

    method Promote(version: VersionId) returns (result: Result<(), CallError>, ghost reply: Reply)
      requires Sound() && world.HasVersion(version)
      modifies this
      ensures Sound() && Pulled(old(script), script, reply) && Now() == Advance(cfg, old(Now()), reply)
      ensures
        var promoted := old(world).(published := Some(version));
        match reply
        case Ok =>
          && result == Success(()) && world == promoted
          && trace == old(trace) + [MadeCurrent(old(world).At(version).value)]
        case Err(landed) =>
          && result == Failure(CallFailed) && world == (if landed then promoted else old(world))
          && trace == old(trace)
        case _ => result == Failure(Killed) && world == old(world) && trace == old(trace) + [ProcessEnded]
    {
      var r := Pull();
      reply := r;
      if r.Ok? {
        trace := trace + [MadeCurrent(world.At(version).value)];
        world := world.(published := Some(version));
        result := Success(());
      } else if r.Err? {
        if r.landed {
          world := world.(published := Some(version));
        }
        result := Failure(CallFailed);
      } else {
        Die();
        result := Failure(Killed);
      }
    }

    /** Put an earlier version back, in the backend's own way. */
    method Restore(version: VersionId) returns (result: Result<(), CallError>, ghost reply: Reply)
      requires Sound()
      modifies this
      ensures Sound() && Pulled(old(script), script, reply) && Now() == Advance(cfg, old(Now()), reply)
      ensures
        match reply
        case Ok =>
          && result == (if old(world).HasVersion(version) then Success(()) else Failure(CallFailed))
          && world == old(world).Restore(version, cfg.nativeRestore) && trace == old(trace)
        case Err(landed) =>
          && result == Failure(CallFailed) && trace == old(trace)
          && world == if landed then old(world).Restore(version, cfg.nativeRestore) else old(world)
        case _ => result == Failure(Killed) && world == old(world) && trace == old(trace) + [ProcessEnded]
    {
      var r := Pull();
      reply := r;
      if r.Ok? || r.Err? {
        result := if r.Ok? && world.HasVersion(version) then Success(()) else Failure(CallFailed);
        if r.Ok? || r.landed {
          world := world.Restore(version, cfg.nativeRestore);
        }
      } else {
        Die();
        result := Failure(Killed);
      }
    }
  }

  ghost predicate Pulled(before: seq<Reply>, after: seq<Reply>, reply: Reply) {
    if before == [] then reply == Crash && after == [] else reply == before[0] && after == before[1..]
  }

  lemma RestoreAdvances(cfg: Config, s: Sys, reply: Reply)
    requires s.process.Up? && s.process.pc == Head(RestoringPublication) && s.process.ctx.previousVersion.Some?
    ensures Advance(cfg, s, reply) ==
      if reply.Crash? then Die(s) else RestoreCall(cfg, s, s.process.ctx.previousVersion.value, reply)
  {}

  lemma ProvisionAdvances(cfg: Config, s: Sys, reply: Reply)
    requires s.process.Up? && s.process.pc == Head(Provisioning)
    ensures Advance(cfg, s, reply) == if reply.Crash? then Die(s) else ProvisionCall(s, reply)
  {}

  lemma PublishAdvances(cfg: Config, s: Sys, reply: Reply)
    requires s.process.Up? && s.process.pc == Head(Publishing)
    ensures Advance(cfg, s, reply) == if reply.Crash? then Die(s) else PublishCall(s, reply)
  {}

  /** The next durable record is this transition. */
  ghost predicate ReadyToRecord(s: Sys, from: RotationState, event: RotationEvent) {
    && s.process.Up?
    && var pc := s.process.pc;
       || pc == Commit(from, event)
       || (pc == Deliver(from, event) && HintFor(from, event).None?)
       || (pc == Head(from) && ImmediateEvent(from, s.process.ctx) == Some(event) && HintFor(from, event).None?)
       || (pc == Abandon(from) && event == AbortRequested)
  }

  ghost predicate DecidedAt(s: Sys, from: RotationState, event: RotationEvent) {
    && s.process.Up?
    && (s.process.pc == Deliver(from, event)
        || (s.process.pc == Head(from) && ImmediateEvent(from, s.process.ctx) == Some(event)))
  }

  ghost predicate Legal(s: Sys, from: RotationState, event: RotationEvent) {
    && from == s.said.state && !event.Reconciled?
    && Next(from, event).Some? && Rank(Next(from, event).value) < Rank(from)
  }

  /** The running process stands on claims that hold. */
  ghost predicate Standing(cfg: Config, inc: Handle, s: Sys) {
    s.process.Up? && Claims(cfg, inc, s)
  }

  lemma HeadEventIsLegal(cfg: Config, inc: Handle, s: Sys, from: RotationState, event: RotationEvent)
    requires s.process.Up? && s.process.pc == Head(from) && ImmediateEvent(from, s.process.ctx) == Some(event)
    ensures Standing(cfg, inc, s) ==> Legal(s, from, event)
  {
    if Standing(cfg, inc, s) {
      assert !from.IsTerminal();
      ImmediateHolds(cfg, inc, s, event);
    }
  }

  lemma DeliverIsLegal(cfg: Config, inc: Handle, s: Sys, from: RotationState, event: RotationEvent)
    requires s.process.Up? && (s.process.pc == Commit(from, event) || s.process.pc == Deliver(from, event))
    ensures Standing(cfg, inc, s) ==> Legal(s, from, event)
  {
    hide StateFacts, HeadFacts, ContextMatches, Next, Rank;
  }

  lemma AbandonIsLegal(cfg: Config, inc: Handle, s: Sys, from: RotationState)
    requires s.process.Up? && s.process.pc == Abandon(from)
    ensures Standing(cfg, inc, s) ==> Legal(s, from, AbortRequested)
  {}

  lemma ReachedClaims(cfg: Config, inc: Handle, world: World, apply: bool, replies: seq<Reply>, s: Sys)
    requires Reaches(cfg, inc, world, apply, replies, s)
    ensures s.process.Up? ==> Standing(cfg, inc, s)
  {
    hide HistoryInvariant, Claims, Run;
    RunHoldsEverything(cfg, inc, world, apply, replies);
  }

  lemma ClaimedEventIsLegal(cfg: Config, inc: Handle, s: Sys, from: RotationState, event: RotationEvent)
    requires ReadyToRecord(s, from, event) || DecidedAt(s, from, event)
    ensures Standing(cfg, inc, s) ==> Legal(s, from, event)
  {
    hide Legal, HintFor, ImmediateEvent, Standing, Next;
    if s.process.pc.Head? {
      HeadEventIsLegal(cfg, inc, s, from, event);
    } else if s.process.pc.Abandon? {
      AbandonIsLegal(cfg, inc, s, from);
    } else {
      DeliverIsLegal(cfg, inc, s, from, event);
    }
  }

  lemma EveryRecordedEventIsLegal(
    cfg: Config, inc: Handle, world: World, apply: bool, replies: seq<Reply>, s: Sys, from: RotationState,
    event: RotationEvent)
    requires Reaches(cfg, inc, world, apply, replies, s)
    ensures ReadyToRecord(s, from, event) || DecidedAt(s, from, event) ==> Legal(s, from, event)
  {
    hide Legal, Standing;
    ReachedClaims(cfg, inc, world, apply, replies, s);
    if ReadyToRecord(s, from, event) || DecidedAt(s, from, event) {
      ClaimedEventIsLegal(cfg, inc, s, from, event);
    }
  }

  lemma TransitAdvances(cfg: Config, s: Sys, from: RotationState, event: RotationEvent, to: RotationState, reply: Reply)
    requires ReadyToRecord(s, from, event) && Next(from, event) == Some(to)
    ensures Advance(cfg, s, reply) ==
      if reply.Ok? then Arrive(cfg, Log(s, Transition(from, event, to)), s.process.ctx, to) else Die(s)
  {
    hide Advance, Arrive, ImmediateEvent, HintFor;
    if s.process.pc.Head? {
      HeadTransits(cfg, s, from, event, to, reply);
    } else {
      DecidedTransits(cfg, s, from, event, to, reply);
    }
  }

  lemma HeadTransits(cfg: Config, s: Sys, from: RotationState, event: RotationEvent, to: RotationState, reply: Reply)
    requires s.process.Up? && s.process.pc == Head(from) && Next(from, event) == Some(to)
    requires ImmediateEvent(from, s.process.ctx) == Some(event) && HintFor(from, event).None?
    ensures Advance(cfg, s, reply) ==
      if reply.Ok? then Arrive(cfg, Log(s, Transition(from, event, to)), s.process.ctx, to) else Die(s)
  {
    hide Arrive, CallStep;
  }

  lemma DecidedTransits(cfg: Config, s: Sys, from: RotationState, event: RotationEvent, to: RotationState, reply: Reply)
    requires s.process.Up? && Next(from, event) == Some(to)
    requires s.process.pc == Commit(from, event) || (s.process.pc == Deliver(from, event) && HintFor(from, event).None?)
      || (s.process.pc == Abandon(from) && event == AbortRequested)
    ensures Advance(cfg, s, reply) ==
      if reply.Ok? then Arrive(cfg, Log(s, Transition(from, event, to)), s.process.ctx, to) else Die(s)
  {
    hide Arrive, HeadStep, HintFor;
  }

  lemma EscalationAdvances(cfg: Config, s: Sys, from: RotationState, event: RotationEvent, reply: Reply)
    requires s.process.Up? && HintFor(from, event).Some?
    requires s.process.pc == Deliver(from, event)
      || (s.process.pc == Head(from) && ImmediateEvent(from, s.process.ctx) == Some(event))
    ensures Advance(cfg, s, reply) ==
      if reply.Ok? then Goto(Log(s, Escalation(HintFor(from, event).value)), Commit(from, event)) else Die(s)
  {}

  /** What a process that is done knows. */
  ghost predicate EndMeans(cfg: Config, inc: Handle, s: Sys)
    requires Finished(s)
  {
    var ctx, state := s.process.ctx, s.process.pc.terminal;
    && state == s.said.state
    && (state.Completed? ==>
          && s.said.handle.Some? && ctx.newHandle == s.said.handle && ctx.writtenVersion == s.said.written
          && NewPublished(s.said, s.world) && (cfg.active.Some? ==> inc !in s.world.live))
    && (state.RolledBack? ==> OldPublished(inc, s.world) && !IsLive(s.world, s.said.handle))
  }

  lemma FinishedRunsAreClean(cfg: Config, inc: Handle, world: World, apply: bool, replies: seq<Reply>)
    requires StartingWorld(cfg, inc, world) && AllHonest(inc, replies)
    ensures
      var s := Run(cfg, Start(cfg, world, apply), replies);
      Finished(s) ==> EndMeans(cfg, inc, s)
  {
    RunHoldsEverything(cfg, inc, world, apply, replies);
  }

  /** Every event that stops a run for the operator carries the guidance of the call that failed, and no other does. */
  lemma StopsCarryHints(from: RotationState, event: RotationEvent)
    ensures !event.Reconciled? ==> (Next(from, event) == Some(NeedsOperator) <==> HintFor(from, event).Some?)
    ensures !event.Reconciled? && HintFor(from, event).Some? ==> HintFor(from, event) == GuidanceFor(from)
    ensures event.Reconciled? <==> HintFor(from, event) == Some(ReconciliationInconclusiveHint)
  {}

  /** A drive that stopped where it had to tells where, and with which guidance; one that began stopped has none. */
  predicate Explains(outcome: RotationOutcome, start: RotationState) {
    outcome.StoppedForOperator? ==>
      if start.NeedsOperator? then outcome == StoppedForOperator(NeedsOperator, None)
      else outcome.hint.Some? && outcome.hint == GuidanceFor(outcome.stoppedAt)
  }

  /** The outcome a drive reports is the one the machine's final state means. */
  ghost predicate OutcomeMeans(outcome: RotationOutcome, cfg: Config, inc: Handle, s: Sys) {
    match outcome
    case DryRun => false
    case CompletedRun(newHandle, version) =>
      && s.said.state.Completed? && s.said.handle == Some(newHandle) && s.said.written == version
      && NewPublished(s.said, s.world) && (cfg.active.Some? ==> inc !in s.world.live)
    case RolledBackRun => s.said.state.RolledBack? && OldPublished(inc, s.world) && !IsLive(s.world, s.said.handle)
    case StoppedForOperator(_, _) => s.said.state.NeedsOperator?
  }

  /** What a drive from `start` remembers of the escalation that stopped it. */
  predicate Remembers(start: RotationState, state: RotationState, from: RotationState, hint: Option<RemediationHint>) {
    if start.IsTerminal() then state == start && from == start && hint.None?
    else state.NeedsOperator? ==> hint.Some? && hint == GuidanceFor(from)
  }

  lemma RemembersNothing(start: RotationState)
    ensures Remembers(start, start, start, None)
  {}

  lemma RemembersStep(start: RotationState, from: RotationState, event: RotationEvent, to: RotationState,
                      lastFrom: RotationState, last: Option<RemediationHint>)
    requires Remembers(start, from, lastFrom, last) && !from.IsTerminal()
    requires !event.Reconciled? && Next(from, event) == Some(to)
    ensures
      var hint := HintFor(from, event);
      Remembers(start, to, if hint.Some? then from else lastFrom, if hint.Some? then hint else last)
  {
    StopsCarryHints(from, event);
  }

  lemma RememberedExplains(start: RotationState, state: RotationState, from: RotationState,
                           hint: Option<RemediationHint>, outcome: RotationOutcome)
    requires Remembers(start, state, from, hint)
    requires outcome.StoppedForOperator? <==> state.NeedsOperator?
    requires outcome.StoppedForOperator? ==> outcome == StoppedForOperator(from, hint)
    ensures Explains(outcome, start)
    ensures start.NeedsOperator? ==> outcome.StoppedForOperator?
  {}

  /** One process driving one run. */
  class RotationEngine {
    const outside: Outside
    const file: File
    const journal: Journal
    var ctx: RunContext
    ghost var records: seq<Record>

    /** The engine and its surroundings are exactly where the step machine is. */
    ghost predicate InStep(process: Process)
      reads this, outside, journal, file
    {
      && journal.file == file && journal.Holds(records)
      && outside.Now().records == records
      && outside.Now().world == outside.world
      && outside.Now().trace == outside.trace
      && outside.Now().process == process
      && outside.Sound()
    }

    /** The process is alive at `pc`, holding the engine's context. */
    ghost predicate AliveAt(pc: Pc)
      reads this, outside, journal, file
    {
      var process := outside.Now().process;
      InStep(process) && process.Up? && process.pc == pc && process.ctx == ctx
    }

    ghost predicate Dead()
      reads this, outside, journal, file
    {
      InStep(Down)
    }

    /** Where `Perform` leaves the process when it returns an event. */
    ghost predicate Decided(state: RotationState, event: RotationEvent)
      reads this, outside, journal, file
    {
      || AliveAt(Deliver(state, event))
      || (AliveAt(Head(state)) && ImmediateEvent(state, ctx) == Some(event))
    }

    /** Start a run on an empty journal file. */
    constructor Start(outside: Outside, file: File, run: RunId, apply: bool)
      requires file.lines == [] && file.closed && outside.trace == [] && outside.Sound()
      requires outside.Now() == Machine.Start(outside.cfg, outside.world, apply)
      ensures this.outside == outside && this.file == file
      ensures fresh(journal) && journal.run == run
      ensures AliveAt(Begin(apply)) && records == []
    {
      var created := new Journal.Create(file, run);
      this.outside, this.file, this.journal := outside, file, created;
      this.ctx := FreshContext(outside.cfg);
      this.records := [];
    }

    /** A new process on a journal that has just been reopened. */
    constructor Resume(outside: Outside, journal: Journal, ghost records: seq<Record>)
      requires journal.Holds(records) && outside.Sound()
      requires outside.Now().process.Down? && outside.Now().records == records
      requires outside.Now().world == outside.world && outside.Now().trace == outside.trace
      ensures this.outside == outside && this.journal == journal && this.file == journal.file
      ensures this.records == records && Dead()
    {
      this.outside, this.file, this.journal, this.records := outside, journal.file, journal, records;
      this.ctx := FreshContext(outside.cfg);
    }

    /** Make one record durable, or die. */
    method Append(record: Record) returns (alive: bool, ghost reply: Reply)
      requires InStep(outside.Now().process)
      modifies outside, journal, file, this`records
      ensures Pulled(old(outside.script), outside.script, reply)
      ensures outside.Now() == Advance(outside.cfg, old(outside.Now()), reply)
      ensures outside.Sound()
      ensures outside.world == old(outside.world) && journal.Holds(records)
      ensures alive == reply.Ok?
      ensures records == old(records) + if alive then [record] else []
      ensures outside.trace == old(outside.trace) + if alive then [] else [ProcessEnded]
    {
      var r := outside.Pull();
      reply := r;
      alive := r.Ok?;
      if alive {
        var _ := journal.Append(record, records);
        records := records + [record];
      } else {
        outside.Die();
      }
    }

    // ---- the effect of each in-flight state ----

    /** Journal the new handle at once: a revoke needs it even if the value is never used. */
    method JournalHandle(handle: Handle, value: Secret) returns (result: Result<RotationEvent, EngineError>)
      requires AliveAt(AssignHandle(handle, value))
      modifies this, outside, journal, file
      ensures result.Success? ==> Decided(Provisioning, result.value)
      ensures result.Failure? ==> result.error.ProcessKilled? && Dead()
      ensures Transitions(records) == Transitions(old(records))
    {
      var alive, _ := Append(HandleAssigned(handle));
      TransitionsSnoc(old(records), HandleAssigned(handle));
      if !alive {
        return Failure(ProcessKilled);
      }
      ctx := ctx.(newHandle := Some(handle), newValue := Some(value));
      return Success(ProvisionOk);
    }

    method PerformProvision() returns (result: Result<RotationEvent, EngineError>)
      requires AliveAt(Head(Provisioning))
      modifies this, outside, journal, file
      ensures result.Success? ==> Decided(Provisioning, result.value)
      ensures result.Failure? ==> result.error.ProcessKilled? && Dead()
      ensures Transitions(records) == Transitions(old(records))
    {
      ghost var before := outside.Now();
      var created, reply := outside.Provision();
      ProvisionAdvances(outside.cfg, before, reply);
      if created.Failure? {
        return if created.error.Killed? then Failure(ProcessKilled) else Success(ProvisionFailed);
      }
      var (handle, value) := created.value;
      result := JournalHandle(handle, value);
    }

    method PerformVerify() returns (result: Result<RotationEvent, EngineError>)
      requires AliveAt(Head(Verifying))
      modifies this, outside, journal, file
      ensures result.Success? ==> Decided(Verifying, result.value)
      ensures result.Failure? ==> result.error.ProcessKilled? && Dead()
      ensures Transitions(records) == Transitions(old(records))
    {
      if ctx.newValue.None? {
        return Success(VerifyFailed);
      }
      var verified, reply := outside.Ask([VerifyPassed(ctx.newValue.value)]);
      if verified.Success? {
        return Success(VerifyOk);
      }
      return if verified.error.Killed? then Failure(ProcessKilled) else Success(VerifyFailed);
    }

    method PerformDrain() returns (result: Result<RotationEvent, EngineError>)
      requires AliveAt(Head(Draining))
      modifies this, outside, journal, file
      ensures result.Success? ==> Decided(Draining, result.value)
      ensures result.Failure? ==> result.error.ProcessKilled? && Dead()
      ensures Transitions(records) == Transitions(old(records))
    {
      if ctx.oldHandle.None? {
        return Success(DrainComplete);
      }
      var drained, reply := outside.Ask([DrainCompleted(ctx.oldHandle.value)]);
      if drained.Success? {
        return Success(DrainComplete);
      }
      return if drained.error.Killed? then Failure(ProcessKilled) else Success(DrainTimeout);
    }

    method PerformRevokeOld() returns (result: Result<RotationEvent, EngineError>)
      requires AliveAt(Head(Revoking))
      modifies this, outside, journal, file
      ensures result.Success? ==> Decided(Revoking, result.value)
      ensures result.Failure? ==> result.error.ProcessKilled? && Dead()
      ensures Transitions(records) == Transitions(old(records))
    {
      if ctx.oldHandle.None? {
        return Success(RevokeOk);
      }
      var revoked, reply := outside.Revoke(ctx.oldHandle.value);
      if revoked.Success? {
        return Success(RevokeOk);
      }
      return if revoked.error.Killed? then Failure(ProcessKilled) else Success(RevokeFailed);
    }

    method PerformRestore() returns (result: Result<RotationEvent, EngineError>)
      requires AliveAt(Head(RestoringPublication))
      modifies this, outside, journal, file
      ensures result.Success? ==> Decided(RestoringPublication, result.value)
      ensures result.Failure? ==> result.error.ProcessKilled? && Dead()
      ensures Transitions(records) == Transitions(old(records))
    {
      if ctx.previousVersion.None? {
        return Success(RestoreOk);
      }
      ghost var before := outside.Now();
      var restored, reply := outside.Restore(ctx.previousVersion.value);
      RestoreAdvances(outside.cfg, before, reply);
      if restored.Success? {
        return Success(RestoreOk);
      }
      return if restored.error.Killed? then Failure(ProcessKilled) else Success(RestoreFailed);
    }

    method PerformReverseDrain() returns (result: Result<RotationEvent, EngineError>)
      requires AliveAt(Head(ReverseDraining))
      modifies this, outside, journal, file
      ensures result.Success? ==> Decided(ReverseDraining, result.value)
      ensures result.Failure? ==> result.error.ProcessKilled? && Dead()
      ensures Transitions(records) == Transitions(old(records))
    {
      if ctx.newHandle.None? {
        return Success(ReverseDrainComplete);
      }
      var drained, reply := outside.Ask([DrainCompleted(ctx.newHandle.value)]);
      if drained.Success? {
        return Success(ReverseDrainComplete);
      }
      return if drained.error.Killed? then Failure(ProcessKilled) else Success(ReverseDrainTimeout);
    }

    method PerformRevokeNew() returns (result: Result<RotationEvent, EngineError>)
      requires AliveAt(Head(RevokingNew))
      modifies this, outside, journal, file
      ensures result.Success? ==> Decided(RevokingNew, result.value)
      ensures result.Failure? ==> result.error.ProcessKilled? && Dead()
      ensures Transitions(records) == Transitions(old(records))
    {
      if ctx.newHandle.None? {
        return Success(RevokeNewOk);
      }
      var revoked, reply := outside.Revoke(ctx.newHandle.value);
      if revoked.Success? {
        return Success(RevokeNewOk);
      }
      return if revoked.error.Killed? then Failure(ProcessKilled) else Success(RevokeNewFailed);
    }

    // ---- publication, one durable effect at a time ----

    method JournalBaseline() returns (result: Result<bool, EngineError>)
      requires AliveAt(Baseline(ctx.previousVersion))
      modifies this, outside, journal, file
      ensures result == Success(false) ==> AliveAt(Deliver(Publishing, PublishFailed))
      ensures result == Success(true) ==> ctx.newValue.Some? && AliveAt(Machine.Stage(ctx.newValue.value))
      ensures result.Failure? ==> result.error.ProcessKilled? && Dead()
      ensures Transitions(records) == Transitions(old(records))
    {
      var alive, _ := Append(PublicationBaseline(ctx.previousVersion));
      TransitionsSnoc(old(records), PublicationBaseline(ctx.previousVersion));
      return if alive then Success(ctx.newValue.Some?) else Failure(ProcessKilled);
    }

    /** Observe what is published and make it the durable baseline. */
    method RecordBaseline() returns (result: Result<bool, EngineError>)
      requires AliveAt(Head(Publishing))
      modifies this, outside, journal, file
      ensures result == Success(false) ==> AliveAt(Deliver(Publishing, PublishFailed))
      ensures result == Success(true) ==> ctx.newValue.Some? && AliveAt(Machine.Stage(ctx.newValue.value))
      ensures result.Failure? ==> result.error.ProcessKilled? && Dead()
      ensures Transitions(records) == Transitions(old(records))
    {
      ghost var before := outside.Now();
      var observed, reply := outside.Ask([]);
      PublishAdvances(outside.cfg, before, reply);
      if observed.Failure? {
        return if observed.error.Killed? then Failure(ProcessKilled) else Success(false);
      }
      ctx := ctx.(previousVersion := outside.world.published);
      result := JournalBaseline();
    }

    /** Take the value out of memory and write it. */
    method StageValue(value: Secret) returns (result: Result<Option<VersionId>, EngineError>)
      requires AliveAt(Machine.Stage(value))
      modifies this, outside, journal, file
      ensures result == Success(None) ==> AliveAt(Deliver(Publishing, PublishFailed))
      ensures result.Success? && result.value.Some? ==>
        AliveAt(if outside.cfg.atomicPromote then Machine.Promote(result.value.value)
                else RecordVersion(result.value.value))
      ensures result.Failure? ==> result.error.ProcessKilled? && Dead()
      ensures Transitions(records) == Transitions(old(records))
    {
      ctx := ctx.(newValue := None);
      var staged, reply := outside.Stage(value);
      if staged.Success? {
        return Success(Some(staged.value));
      }
      return if staged.error.Killed? then Failure(ProcessKilled) else Success(None);
    }

    method PromoteVersion(version: VersionId) returns (result: Result<bool, EngineError>)
      requires AliveAt(Machine.Promote(version))
      modifies this, outside, journal, file
      ensures result == Success(false) ==> AliveAt(Deliver(Publishing, PublishFailed))
      ensures result == Success(true) ==> AliveAt(RecordVersion(version))
      ensures result.Failure? ==> result.error.ProcessKilled? && Dead()
      ensures Transitions(records) == Transitions(old(records))
    {
      var promoted, reply := outside.Promote(version);
      if promoted.Success? {
        return Success(true);
      }
      return if promoted.error.Killed? then Failure(ProcessKilled) else Success(false);
    }

    method JournalVersion(version: VersionId) returns (result: Result<RotationEvent, EngineError>)
      requires AliveAt(RecordVersion(version))
      modifies this, outside, journal, file
      ensures result.Success? ==> Decided(Publishing, result.value)
      ensures result.Failure? ==> result.error.ProcessKilled? && Dead()
      ensures Transitions(records) == Transitions(old(records))
    {
      var alive, _ := Append(VersionAssigned(ctx.previousVersion, version));
      TransitionsSnoc(old(records), VersionAssigned(ctx.previousVersion, version));
      if !alive {
        return Failure(ProcessKilled);
      }
      ctx := ctx.(writtenVersion := Some(version));
      return Success(PublishOk);
    }

    method PerformPublish() returns (result: Result<RotationEvent, EngineError>)
      requires AliveAt(Head(Publishing))
      modifies this, outside, journal, file
      ensures result.Success? ==> Decided(Publishing, result.value)
      ensures result.Failure? ==> result.error.ProcessKilled? && Dead()
      ensures Transitions(records) == Transitions(old(records))
    {
      var baseline := RecordBaseline();
      if baseline.Failure? {
        return Failure(baseline.error);
      }
      if !baseline.value {
        return Success(PublishFailed);
      }
      var staged := StageValue(ctx.newValue.value);
      if staged.Failure? {
        return Failure(staged.error);
      }
      if staged.value.None? {
        return Success(PublishFailed);
      }
      var version := staged.value.value;
      if outside.cfg.atomicPromote {
        var promoted := PromoteVersion(version);
        if promoted.Failure? {
          return Failure(promoted.error);
        }
        if !promoted.value {
          return Success(PublishFailed);
        }
      }
      result := JournalVersion(version);
    }

    /** Perform the effect an in-flight state is in the middle of, and report the event. */
    method Perform(state: RotationState) returns (result: Result<RotationEvent, EngineError>)
      requires AliveAt(Head(state)) && state.IsInFlight()
      modifies this, outside, journal, file
      ensures result.Success? ==> Decided(state, result.value)
      ensures result.Failure? ==> result.error.ProcessKilled? && Dead()
      ensures Transitions(records) == Transitions(old(records))
    {
      match state.PendingStep().value {
        case Provision => result := PerformProvision();
        case Verify => result := PerformVerify();
        case Publish => result := PerformPublish();
        case Drain => result := PerformDrain();
        case RevokeOld => result := PerformRevokeOld();
        case RestorePublication => result := PerformRestore();
        case ReverseDrain => result := PerformReverseDrain();
        case RevokeNew => result := PerformRevokeNew();
      }
    }

    // ---- the loop ----

    /** Apply one transition, making it durable before returning. */
    method Transit(from: RotationState, event: RotationEvent) returns (result: Result<RotationState, EngineError>)
      requires InStep(outside.Now().process) && ReadyToRecord(outside.Now(), from, event)
      requires outside.Now().process.ctx == ctx
      modifies outside, journal, file, this`records
      ensures result.Success? ==> Next(from, event) == Some(result.value) && AliveAt(Head(result.value))
      ensures result.Success? ==> records == old(records) + [Transition(from, event, result.value)]
      ensures result.Failure? ==> result.error.ProcessKilled? && Dead() && records == old(records)
    {
      ghost var before := outside.Now();
      outside.EventsAreLegal(outside.Now(), from, event);
      var to := Next(from, event);
      if to.None? {
        return Failure(IllegalTransition(from));
      }
      var alive, reply := Append(Transition(from, event, to.value));
      TransitAdvances(outside.cfg, before, from, event, to.value, reply);
      return if alive then Success(to.value) else Failure(ProcessKilled);
    }

    /** Journal the guidance of an escalation before the transition that stops the run. */
    method JournalEscalation(from: RotationState, event: RotationEvent, hint: RemediationHint) returns (alive: bool)
      requires Decided(from, event) && HintFor(from, event) == Some(hint)
      modifies outside, journal, file, this`records
      ensures alive ==> AliveAt(Commit(from, event)) && records == old(records) + [Escalation(hint)]
      ensures !alive ==> Dead() && records == old(records)
    {
      ghost var before := outside.Now();
      var durable, reply := Append(Escalation(hint));
      EscalationAdvances(outside.cfg, before, from, event, reply);
      alive := durable;
    }

    /** Journal an event, with its guidance if it escalates, and enter the next state. */
    method RecordEvent(from: RotationState, event: RotationEvent) returns (result: Result<RotationState, EngineError>)
      requires Decided(from, event)
      modifies outside, journal, file, this`records
      ensures result.Success? ==> Next(from, event) == Some(result.value) && AliveAt(Head(result.value))
      ensures result.Success? ==> Rank(result.value) < Rank(from) && !event.Reconciled?
      ensures result.Success? ==> Transitions(records) == Transitions(old(records)) + 1
      ensures result.Failure? ==>
        result.error.ProcessKilled? && Dead() && Transitions(records) == Transitions(old(records))
    {
      outside.EventsAreLegal(outside.Now(), from, event);
      var hint := HintFor(from, event);
      if hint.Some? {
        TransitionsSnoc(records, Escalation(hint.value));
        var alive := JournalEscalation(from, event, hint.value);
        if !alive {
          return Failure(ProcessKilled);
        }
      }
      TransitionsSnoc(records, Transition(from, event, Next(from, event).value));
      result := Transit(from, event);
    }

    /** Close the journal and report the terminal state. */
    method Finish(state: RotationState, escalatedFrom: RotationState, hint: Option<RemediationHint>)
      returns (result: Result<RotationOutcome, EngineError>)
      requires AliveAt(Head(state)) && state.IsTerminal()
      modifies outside, journal, file, this`records
      ensures result.Failure? ==> result.error.ProcessKilled? && Dead()
      ensures result.Success? ==>
        && AliveAt(Done(state))
        && OutcomeMeans(result.value, outside.cfg, outside.inc, outside.Now())
        && (result.value.StoppedForOperator? <==> state.NeedsOperator?)
        && (result.value.StoppedForOperator? ==> result.value == StoppedForOperator(escalatedFrom, hint))
      ensures Transitions(records) == Transitions(old(records))
    {
      var alive, _ := Append(RunFinished(state));
      TransitionsSnoc(old(records), RunFinished(state));
      if !alive {
        return Failure(ProcessKilled);
      }
      outside.EndIsClean();
      if state.Completed? {
        return if ctx.newHandle.None? then Failure(MissingNewHandle)
               else Success(CompletedRun(ctx.newHandle.value, ctx.writtenVersion));
      }
      return Success(if state.RolledBack? then RolledBackRun else StoppedForOperator(escalatedFrom, hint));
    }

    /** The event of one pass: the outcome of the effect in flight, or the start of the next one. */
    method NextEvent(state: RotationState) returns (result: Result<RotationEvent, EngineError>)
      requires AliveAt(Head(state)) && !state.IsTerminal()
      modifies this, outside, journal, file
      ensures result.Success? ==> Decided(state, result.value)
      ensures result.Failure? ==> result.error.ProcessKilled? && Dead()
      ensures Transitions(records) == Transitions(old(records))
    {
      if state.IsInFlight() {
        result := Perform(state);
      } else {
        var begin := StartEvent(state);
        if begin.None? {
          return Failure(IllegalTransition(state));
        }
        return Success(begin.value);
      }
    }

    /** Drive from a state to a terminal one; only the death of the process can stop it. */
    method Drive(start: RotationState) returns (result: Result<RotationOutcome, EngineError>)
      requires AliveAt(Head(start))
      modifies this, outside, journal, file
      ensures result.Failure? ==> result.error.ProcessKilled? && Dead()
      ensures result.Success? ==>
        && InStep(outside.Now().process) && Finished(outside.Now())
        && OutcomeMeans(result.value, outside.cfg, outside.inc, outside.Now())
        && Explains(result.value, start)
        && (start.NeedsOperator? ==> result.value.StoppedForOperator?)
      ensures Transitions(records) <= Transitions(old(records)) + Rank(start) <= Transitions(old(records)) + 10
    {
      hide OutcomeMeans, Next, HintFor, GuidanceFor, Remembers, Explains, Run;
      var state := start;
      var lastEscalation: Option<RemediationHint> := None;
      var escalatedFrom := start;
      RemembersNothing(start);

      while !state.IsTerminal()
        invariant AliveAt(Head(state))
        invariant Transitions(records) + Rank(state) <= Transitions(old(records)) + Rank(start)
        invariant Remembers(start, state, escalatedFrom, lastEscalation)
        decreases Rank(state)
      {
        var event := NextEvent(state);
        if event.Failure? {
          return Failure(event.error);
        }
        ghost var from, last := escalatedFrom, lastEscalation;
        var hint := HintFor(state, event.value);
        if hint.Some? {
          lastEscalation, escalatedFrom := hint, state;
        }
        var recorded := RecordEvent(state, event.value);
        if recorded.Failure? {
          return Failure(recorded.error);
        }
        RemembersStep(start, state, event.value, recorded.value, from, last);
        state := recorded.value;
      }
      result := Finish(state, escalatedFrom, lastEscalation);
      if result.Success? {
        RememberedExplains(start, state, escalatedFrom, lastEscalation, result.value);
      }
    }

    // ---- a whole process ----

    ghost predicate Ended(result: Result<RotationOutcome, EngineError>)
      reads this, outside, journal, file
    {
      if result.Failure? then result.error.ProcessKilled? && Dead()
      else
        && InStep(outside.Now().process) && Finished(outside.Now())
        && OutcomeMeans(result.value, outside.cfg, outside.inc, outside.Now())
    }

    /** Plan or perform a rotation: a dry run journals its start and touches nothing outside. */
    method Execute(apply: bool) returns (result: Result<RotationOutcome, EngineError>)
      requires AliveAt(Begin(apply)) && records == []
      modifies this, outside, journal, file
      ensures apply ==> Ended(result)
      ensures !apply ==>
        && Dead() && outside.world == old(outside.world) && outside.trace == old(outside.trace) + [ProcessEnded]
        && (result == Success(DryRun) || result == Failure(ProcessKilled))
      ensures apply && result.Success? ==> Explains(result.value, Pending)
      ensures Transitions(records) <= 10
    {
      var alive, _ := Append(RunStarted(apply));
      TransitionsSnoc([], RunStarted(apply));
      assert [] + [RunStarted(apply)] == [RunStarted(apply)];
      if !alive {
        return Failure(ProcessKilled);
      }
      if !apply {
        outside.Die();
        return Success(DryRun);
      }
      result := Drive(Pending);
    }

    /** Resolve an unknown-outcome state against the world, durably. */
    method Resolve(state: RotationState) returns (result: Result<RotationState, EngineError>)
      requires AliveAt(Machine.Resolve(state, Observe(outside.world, ctx)))
      modifies outside, journal, file, this`records
      ensures result.Success? ==> result.value == Reconcile(state, Observe(old(outside.world), ctx))
      ensures result.Success? ==>
        AliveAt(if result.value.Provisioned? || result.value.Verified? then Abandon(result.value)
                else Head(result.value))
      ensures result.Failure? ==> result.error.ProcessKilled? && Dead()
      ensures Transitions(records) <= Transitions(old(records)) + 1
    {
      var observed := Observe(outside.world, ctx);
      var resolved := Reconcile(state, observed);
      var alive, _ := Append(Transition(state, Reconciled(observed), resolved));
      TransitionsSnoc(old(records), Transition(state, Reconciled(observed), resolved));
      return if alive then Success(resolved) else Failure(ProcessKilled);
    }

    /** Where a recovering process stands once it knows the durable facts. */
    function Rejoining(state: RotationState, observed: Observation): Pc {
      if state.IsInFlight() then Machine.Resolve(state, observed)
      else if state.Provisioned? || state.Verified? then Abandon(state)
      else Head(state)
    }

    /** Acquire authority again and rebuild the context from the durable facts. */
    method Readmit(recovered: RecoveredRun) returns (granted: bool)
      requires Dead() && records != []
      requires Fold(records).Some? && recovered == Recovered(journal.run, Fold(records).value, |records|, false)
      modifies this`ctx, outside
      ensures granted ==> AliveAt(Rejoining(recovered.state, Observe(outside.world, ctx)))
      ensures granted ==> ctx == RecoveredContext(outside.cfg, Fold(records).value)
      ensures !granted ==> Dead()
      ensures records == old(records) && outside.world == old(outside.world)
    {
      var asked, _ := outside.Authorize();
      granted := asked;
      if granted {
        ctx := RunContext(
          outside.cfg.active, recovered.handle, None, recovered.previousVersion, recovered.writtenVersion);
      }
    }

    /** A credential whose value died with the process is abandoned, not published. */
    method AbandonUnpublished(state: RotationState) returns (result: Result<RotationState, EngineError>)
      requires AliveAt(if state.Provisioned? || state.Verified? then Abandon(state) else Head(state))
      modifies this, outside, journal, file
      ensures result.Success? ==> AliveAt(Head(result.value))
      ensures result.Success? ==> result.value == if state.Provisioned? || state.Verified? then RevokingNew else state
      ensures result.Failure? ==> result.error.ProcessKilled? && Dead()
      ensures Transitions(records) <= Transitions(old(records)) + 1
    {
      if !state.Provisioned? && !state.Verified? {
        return Success(state);
      }
      result := Transit(state, AbortRequested);
      if result.Success? {
        TransitionsSnoc(old(records), Transition(state, AbortRequested, result.value));
      }
    }

    function Resolved(state: RotationState, observed: Observation): RotationState {
      if state.IsInFlight() then Reconcile(state, observed) else state
    }

    /** Find the state to drive on from: resolve an unknown outcome, then abandon what cannot be published. */
    method Rejoin(state: RotationState) returns (result: Result<RotationState, EngineError>)
      requires AliveAt(Rejoining(state, Observe(outside.world, ctx)))
      modifies this, outside, journal, file
      ensures result.Success? ==> AliveAt(Head(result.value))
      ensures result.Success? ==>
        (result.value.NeedsOperator? <==> Resolved(state, Observe(old(outside.world), old(ctx))).NeedsOperator?)
      ensures result.Failure? ==> result.error.ProcessKilled? && Dead()
      ensures Transitions(records) <= Transitions(old(records)) + 2
    {
      hide Reconcile, Observe, Run;
      var settled := state;
      if state.IsInFlight() {
        var resolved := Resolve(state);
        if resolved.Failure? {
          return Failure(resolved.error);
        }
        settled := resolved.value;
      }
      result := AbandonUnpublished(settled);
    }

    /**
    Recover an interrupted run: reconcile an unknown-outcome state, abandon a credential
    whose value died with the process, and drive on. It reports a stop without guidance exactly
    where the journal and the world leave it undecided what is published.
    */
    method Recover(recovered: RecoveredRun, apply: bool) returns (result: Result<RotationOutcome, EngineError>)
      requires Dead() && records != []
      requires Fold(records).Some? && recovered == Recovered(journal.run, Fold(records).value, |records|, false)
      modifies this, outside, journal, file
      ensures apply ==> Ended(result)
      ensures apply && result.Success? ==>
        var undecidable := Undecidable(outside.inc, Fold(old(records)).value, old(outside.world));
        && (result.value == StoppedForOperator(NeedsOperator, None) <==> undecidable)
        && (!undecidable ==> Explains(result.value, Pending))
      ensures !apply ==>
        result == Success(DryRun) && Dead() && records == old(records) && outside.world == old(outside.world)
      ensures Transitions(records) <= Transitions(old(records)) + 12
    {
      if !apply {
        return Success(DryRun);
      }
      outside.Settles();
      var granted := Readmit(recovered);
      if !granted {
        return Failure(ProcessKilled);
      }
      var state := Rejoin(recovered.state);
      if state.Failure? {
        return Failure(state.error);
      }
      result := Drive(state.value);
    }
  }

  /**
  The whole life of a run: one process that executes it, and any number of further
  processes that each reopen the journal and recover. Whatever the provider and the backend
  reply, and wherever the processes die, consumers can work at the end of each of them, and
  the only obstacle to recovery is a journal whose first record never became durable.
  */
  method Lifetime(cfg: Config, world: World, script: seq<Reply>, run: RunId, recoveries: nat, ghost inc: Handle)
    returns (outside: Outside, result: Result<RotationOutcome, EngineError>)
    requires StartingWorld(cfg, inc, world) && AllHonest(inc, script)
    ensures fresh(outside) && outside.cfg == cfg
    ensures Available(outside.world)
    ensures result.Success? ==> OutcomeMeans(result.value, cfg, inc, outside.Now())
    ensures result.Failure? ==> result.error.ProcessKilled? || result.error == JournalUnreadable(EmptyJournal)
    ensures result.Failure? ==> Interrupted(cfg, world, true, outside.consumed)
  {
    var file := new File();
    outside := new Outside(cfg, world, script, inc, true);
    var engine := new RotationEngine.Start(outside, file, run, true);
    result := engine.Execute(true);
    outside.WorldIsSound();
    outside.DeathsAreInterruptions();

    for i := 0 to recoveries
      invariant fresh(outside) && fresh(file) && outside.cfg == cfg && outside.inc == inc
      invariant outside.initial == world && outside.apply
      invariant result.Failure? ==> Interrupted(cfg, world, true, outside.consumed)
      invariant outside.Sound() && Available(outside.world)
      invariant outside.Now().world == outside.world && outside.Now().trace == outside.trace
      invariant file.lines == Lines(run, outside.Now().records) && file.closed
      invariant result.Success? ==> OutcomeMeans(result.value, cfg, inc, outside.Now())
      invariant result.Failure? ==> result.error.ProcessKilled? && outside.Now().process.Down?
    {
      if result.Success? {
        return;
      }
      ghost var records := outside.Now().records;
      outside.WorldIsSound();
      var reopened := Reopen(file, run, records);
      if reopened.Failure? {
        result := Failure(JournalUnreadable(reopened.error));
        return;
      }
      var (journal, recovered) := reopened.value;
      var next := new RotationEngine.Resume(outside, journal, records);
      result := next.Recover(recovered, true);
      outside.WorldIsSound();
      outside.DeathsAreInterruptions();
    }
  }
}
