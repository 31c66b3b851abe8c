/**
The inductive invariant of the step machine: what the journal says is true of the world
at every point a crash could leave behind, and what the running process may rely on.
*/
module MachineInvariant {
  import opened Wrappers
  import opened Protocol
  import opened JournalFile
  import opened Machine

  // ---- assumptions ----

  /** The world a rotation starts from: the old credential is live and its value published. */
  ghost predicate StartingWorld(cfg: Config, incumbent: Handle, world: World) {
    && OldPublished(incumbent, world)
    && (cfg.active.Some? ==> cfg.active.value == incumbent)
  }

  /** A provision never hands out, or touches, the old credential. */
  predicate Honest(incumbent: Handle, reply: Reply) {
    && (reply.Created? ==> reply.handle != incumbent)
    && (reply.ErrCreated? ==> reply.handle != incumbent)
  }

  // ---- the world, as each journalled state claims it ----

  predicate HoldsSide(world: World, side: PublishedSide, handle: Handle) {
    && world.published.Some?
    && world.HasVersion(world.published.value)
    && world.At(world.published.value).side == side
    && handle in world.live
    && world.live[handle] == world.At(world.published.value).value
  }

  predicate OldPublished(incumbent: Handle, world: World) {
    HoldsSide(world, Old, incumbent)
  }

  predicate NewPublished(at: Replayed, world: World) {
    at.handle.Some? && HoldsSide(world, New, at.handle.value)
  }

  /** Consumers read the value of some live credential. */
  ghost predicate Available(world: World) {
    && world.published.Some?
    && world.HasVersion(world.published.value)
    && exists handle :: handle in world.live && world.live[handle] == world.At(world.published.value).value
  }

  /** The baseline, when known, is a version holding the old value. */
  predicate BaselineIsOld(incumbent: Handle, at: Replayed, world: World) {
    at.previous.Some? ==>
      && world.HasVersion(at.previous.value)
      && world.At(at.previous.value).side == Old
      && (incumbent in world.live ==> world.At(at.previous.value).value == world.live[incumbent])
  }

  predicate ClaimsOld(state: RotationState) {
    || state.Pending? || state.Provisioning? || state.Provisioned? || state.Verifying? || state.Verified?
    || state.ReverseDraining? || state.RevokingNew? || state.RolledBack?
  }

  predicate ClaimsNew(state: RotationState) {
    state.Published? || state.Draining? || state.Drained? || state.Revoking? || state.Completed?
  }

  /** States of the forward path in which nothing has been restored yet. */
  predicate BeforeRestores(state: RotationState) {
    state.Provisioned? || state.Verifying? || state.Verified? || state.Publishing?
  }

  /** The journalled state describes the world. */
  predicate StateFacts(cfg: Config, incumbent: Handle, at: Replayed, world: World) {
    var state, newLive := at.state, IsLive(world, at.handle);
    && (at.handle.Some? ==> at.handle.value != incumbent)
    && (at.written.Some? ==> at.written == world.published && NewPublished(at, world))
    && BaselineIsOld(incumbent, at, world)
    && (cfg.nativeRestore || BeforeRestores(state) ==>
          (at.previous.Some? && OldPublished(incumbent, world) ==> at.previous == world.published))
    && (cfg.active.None? ==> incumbent in world.live)
    && (ClaimsOld(state) ==> OldPublished(incumbent, world))
    && (ClaimsNew(state) ==> NewPublished(at, world) && at.written.Some?)
    && (state.Publishing? || state.RestoringPublication? ==>
          newLive && incumbent in world.live && (at.previous.None? ==> OldPublished(incumbent, world)))
    && (OldPublished(incumbent, world) || NewPublished(at, world))
    && (state.Pending? ==> at.handle.None? && at.previous.None?)
    && (state.Provisioning? ==> at.previous.None? && (at.handle.Some? ==> newLive))
    && (state.Provisioned? || state.Verifying? || state.Verified? || state.ReverseDraining? ==> newLive)
    && (state.Published? || state.Draining? || state.Drained? ==> incumbent in world.live)
    && (state.Completed? && cfg.active.Some? ==> incumbent !in world.live)
    && (state.RestoringPublication? ==> at.written.None?)
    && (state.RolledBack? ==> !newLive)
  }

  // ---- the order of effects ----

  /** The process that made effect `a` is still the one running. */
  ghost predicate AliveSince(trace: seq<Effect>, a: int) {
    forall k :: a < k < |trace| && 0 <= k ==> !trace[k].ProcessEnded?
  }

  ghost predicate ProvisionedAt(trace: seq<Effect>, a: int, handle: Handle, value: Secret) {
    0 <= a < |trace| && trace[a] == CredentialMade(handle, value) && AliveSince(trace, a)
  }

  ghost predicate PassedAt(trace: seq<Effect>, b: int, value: Secret) {
    0 <= b < |trace| && trace[b] == VerifyPassed(value)
  }

  /** In the current process, `value` was provisioned as `handle`. */
  ghost predicate ProvisionedNow(trace: seq<Effect>, handle: Handle, value: Secret) {
    exists a :: ProvisionedAt(trace, a, handle, value)
  }

  /** In the current process, `value` was provisioned as `handle` and then passed verification. */
  ghost predicate VerifiedNow(trace: seq<Effect>, handle: Handle, value: Secret) {
    exists a, b :: ProvisionedAt(trace, a, handle, value) && PassedAt(trace, b, value) && a < b
  }

  ghost predicate CurrentAt(trace: seq<Effect>, p: int) {
    0 <= p < |trace| && trace[p].MadeCurrent?
  }

  ghost predicate DrainedAt(trace: seq<Effect>, d: int, handle: Handle) {
    0 <= d < |trace| && trace[d] == DrainCompleted(handle)
  }

  ghost predicate StagedAt(trace: seq<Effect>, i: int, value: Secret) {
    0 <= i < |trace| && trace[i] == StageCalled(value)
  }

  ghost predicate Exposed(trace: seq<Effect>) {
    exists p :: CurrentAt(trace, p)
  }

  /** Some value was made current, and after that the drain of `handle` completed. */
  ghost predicate DrainedAfterPublication(trace: seq<Effect>, handle: Handle) {
    exists p, d :: CurrentAt(trace, p) && DrainedAt(trace, d, handle) && p < d
  }

  ghost predicate Staged(trace: seq<Effect>, value: Secret) {
    exists i :: StagedAt(trace, i, value)
  }

  /** An effect is allowed after this history. */
  ghost predicate Justified(before: seq<Effect>, effect: Effect, incumbent: Handle, journalled: Option<Handle>) {
    && (effect.StageCalled? ==> journalled.Some? && VerifiedNow(before, journalled.value, effect.value))
    && (effect.MadeCurrent? ==> Staged(before, effect.value))
    && (effect == RevokeCalled(incumbent) ==> DrainedAfterPublication(before, incumbent))
  }

  ghost predicate JustifiedAt(trace: seq<Effect>, i: int, incumbent: Handle, journalled: Option<Handle>)
    requires 0 <= i < |trace|
  {
    Justified(trace[..i], trace[i], incumbent, journalled)
  }

  /** Every staging, publication and revocation so far was justified when it happened. */
  ghost predicate EffectsOrdered(trace: seq<Effect>, incumbent: Handle, journalled: Option<Handle>) {
    forall i :: 0 <= i < |trace| ==> JustifiedAt(trace, i, incumbent, journalled)
  }

  ghost predicate Creates(effect: Effect, handle: Handle) {
    effect == Orphaned(handle) || (effect.CredentialMade? && effect.handle == handle)
  }

  ghost predicate CreatedAt(trace: seq<Effect>, i: int, handle: Handle) {
    0 <= i < |trace| && Creates(trace[i], handle)
  }

  ghost predicate CreatedByRun(trace: seq<Effect>, handle: Handle) {
    exists i :: CreatedAt(trace, i, handle)
  }

  /** What the journalled state says about the effects that came before it. */
  ghost predicate HistoryFacts(cfg: Config, incumbent: Handle, at: Replayed, world: World, trace: seq<Effect>) {
    && EffectsOrdered(trace, incumbent, at.handle)
    && !CreatedByRun(trace, incumbent)
    && (forall h :: CreatedByRun(trace, h) ==> h in world.live || at.handle == Some(h))
    && (at.written.Some? ==> Exposed(trace))
    && (cfg.active.Some? && (at.state.Drained? || at.state.Revoking? || at.state.Completed?) ==>
          DrainedAfterPublication(trace, incumbent))
  }

  ghost predicate RecordsFacts(records: seq<Record>, at: Replayed) {
    && Fold(records) == Some(at)
    && (forall i :: 0 <= i < |records| && records[i].HandleAssigned? ==> at.handle == Some(records[i].handle))
    && (forall i :: 0 <= i < |records| && records[i].Transition? ==>
          Next(records[i].from, records[i].event) == Some(records[i].to))
  }

  // ---- the process ----

  ghost predicate ContextMatches(cfg: Config, at: Replayed, ctx: RunContext) {
    && ctx.oldHandle == cfg.active
    && ctx.newHandle == at.handle
    && ctx.writtenVersion == at.written
    && ctx.previousVersion == at.previous
  }

  /** The plaintext is held and is the journalled credential's. */
  ghost predicate ValueHeld(at: Replayed, world: World, ctx: RunContext) {
    && ctx.newValue.Some?
    && at.handle.Some?
    && at.handle.value in world.live
    && world.live[at.handle.value] == ctx.newValue.value
  }

  /** What a process standing at the head of the loop in state `at.state` may rely on. */
  ghost predicate HeadFacts(at: Replayed, world: World, ctx: RunContext, incumbent: Handle) {
    && (at.state.Provisioning? ==> at.handle.None?)
    && (at.state.Provisioned? || at.state.Verifying? || at.state.Verified? || at.state.Publishing? ==>
          ValueHeld(at, world, ctx))
    && (at.state.Publishing? ==> OldPublished(incumbent, world) && at.written.None?)
    && (ClaimsNew(at.state) ==> ctx.newValue.None?)
  }

  /** An event about to be recorded: the target state's claims already hold. */
  ghost predicate DeliverFacts(
    cfg: Config, incumbent: Handle, s: Sys, at: Replayed, from: RotationState, event: RotationEvent)
    requires s.process.Up?
  {
    && from == at.state
    && !event.Reconciled?
    && Next(from, event).Some?
    && Rank(Next(from, event).value) < Rank(from)
    && var next := at.(state := Next(from, event).value);
       StateFacts(cfg, incumbent, next, s.world) && HeadFacts(next, s.world, s.process.ctx, incumbent)
  }

  ghost predicate PcFacts(cfg: Config, incumbent: Handle, s: Sys, at: Replayed)
    requires s.process.Up?
  {
    var pc, ctx, w := s.process.pc, s.process.ctx, s.world;
    && (pc.Begin? <==> s.records == [])
    && ContextMatches(cfg, if pc.Baseline? then at.(previous := pc.current) else at, ctx)
    && (pc.Baseline? || pc.Stage? || pc.Promote? || pc.RecordVersion? ==> at.state.Publishing? && at.written.None?)
    && match pc
       case Begin(_) => at == NOTHING
       case Head(state) => state == at.state && HeadFacts(at, w, ctx, incumbent)
       case AssignHandle(handle, value) =>
         && at.state.Provisioning? && at.handle.None? && handle != incumbent
         && handle in w.live && w.live[handle] == value
       case Baseline(current) => HeadFacts(at, w, ctx, incumbent) && current == w.published
       case Stage(value) =>
         HeadFacts(at, w, ctx, incumbent) && at.previous == w.published && ctx.newValue == Some(value)
       case Promote(version) =>
         && OldPublished(incumbent, w) && at.previous.Some? && ctx.newValue.None?
         && w.HasVersion(version) && w.At(version).side == New
         && IsLive(w, at.handle) && w.At(version).value == w.live[at.handle.value]
       case RecordVersion(version) =>
         NewPublished(at, w) && at.previous.Some? && w.published == Some(version) && ctx.newValue.None?
       case Deliver(from, event) => DeliverFacts(cfg, incumbent, s, at, from, event)
       case Commit(from, event) => DeliverFacts(cfg, incumbent, s, at, from, event)
       case Resolve(from, observed) =>
         && ctx.newValue.None? && from == at.state && from.IsInFlight() && observed == Observe(w, ctx)
       case Abandon(from) => from == at.state && (from.Provisioned? || from.Verified?)
       case Done(terminal) => terminal == at.state && terminal.IsTerminal()
  }

  /** The claims of the journal and of the running process, without the records themselves. */
  ghost predicate Claims(cfg: Config, incumbent: Handle, s: Sys) {
    && (cfg.active.Some? ==> cfg.active.value == incumbent)
    && StateFacts(cfg, incumbent, s.said, s.world)
    && (s.process.Up? ==> PcFacts(cfg, incumbent, s, s.said))
  }

  ghost predicate Invariant(cfg: Config, incumbent: Handle, s: Sys) {
    RecordsFacts(s.records, s.said) && Claims(cfg, incumbent, s)
  }

  // ---- the history the running process relies on ----

  ghost predicate HeadHistory(at: Replayed, trace: seq<Effect>, ctx: RunContext) {
    var known := at.handle.Some? && ctx.newValue.Some?;
    && (at.state.Provisioned? || at.state.Verifying? ==>
          known && ProvisionedNow(trace, at.handle.value, ctx.newValue.value))
    && (at.state.Verified? || at.state.Publishing? ==>
          known && VerifiedNow(trace, at.handle.value, ctx.newValue.value))
  }

  ghost predicate PcHistory(cfg: Config, incumbent: Handle, s: Sys, at: Replayed)
    requires s.process.Up?
  {
    var ctx, t := s.process.ctx, s.trace;
    match s.process.pc
    case Head(_) => HeadHistory(at, t, ctx)
    case AssignHandle(handle, value) => ProvisionedNow(t, handle, value)
    case Baseline(_) => HeadHistory(at, t, ctx)
    case Stage(_) => HeadHistory(at, t, ctx)
    case Promote(version) => s.world.HasVersion(version) && Staged(t, s.world.At(version).value)
    case RecordVersion(_) => Exposed(t)
    case Deliver(from, event) => DeliverHistory(cfg, incumbent, s, at, from, event)
    case Commit(from, event) => DeliverHistory(cfg, incumbent, s, at, from, event)
    case _ => true
  }

  ghost predicate DeliverHistory(
    cfg: Config, incumbent: Handle, s: Sys, at: Replayed, from: RotationState, event: RotationEvent)
    requires s.process.Up?
  {
    Next(from, event).Some? ==>
      var next := at.(state := Next(from, event).value);
      && HistoryFacts(cfg, incumbent, next, s.world, s.trace)
      && HeadHistory(next, s.trace, s.process.ctx)
  }

  ghost predicate HistoryInvariant(cfg: Config, incumbent: Handle, s: Sys) {
    && HistoryFacts(cfg, incumbent, s.said, s.world, s.trace)
    && (s.process.Up? ==> PcHistory(cfg, incumbent, s, s.said))
  }
}
