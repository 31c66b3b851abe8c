/**
What holds on every run: any replies of the provider and the backend, failures whose
effect landed or not, crashes between any two durable effects, and any number of
recoveries.
*/
module MachineTheorems {
  import opened Wrappers
  import opened Protocol
  import opened GhostModel
  import opened JournalFile
  import opened Machine
  import opened MachineInvariant
  import opened MachineSafety
  import opened MachineHistory
  import opened MachineRefinement
  import opened MachineProgress

  /** A run of one rotation from a sound starting world, against an honest provider. */
  ghost predicate Reaches(cfg: Config, inc: Handle, world: World, apply: bool, replies: seq<Reply>, s: Sys) {
    StartingWorld(cfg, inc, world) && AllHonest(inc, replies) && s == Run(cfg, Start(cfg, world, apply), replies)
  }

  lemma StartHoldsEverything(cfg: Config, inc: Handle, world: World, apply: bool)
    requires StartingWorld(cfg, inc, world)
    ensures Invariant(cfg, inc, Start(cfg, world, apply))
    ensures HistoryInvariant(cfg, inc, Start(cfg, world, apply))
    ensures GhostInvariant(cfg, Start(cfg, world, apply))
  {}

  lemma {:induction false} RunHoldsEverything(cfg: Config, inc: Handle, world: World, apply: bool, replies: seq<Reply>)
    requires StartingWorld(cfg, inc, world) && AllHonest(inc, replies)
    ensures
      var s := Run(cfg, Start(cfg, world, apply), replies);
      Invariant(cfg, inc, s) && HistoryInvariant(cfg, inc, s) && GhostInvariant(cfg, s)
  {
    if replies == [] {
      StartHoldsEverything(cfg, inc, world, apply);
    } else {
      var before, reply := replies[..|replies| - 1], replies[|replies| - 1];
      RunHoldsEverything(cfg, inc, world, apply, before);
      var s := Run(cfg, Start(cfg, world, apply), before);
      AdvanceKeepsInvariant(cfg, inc, s, reply);
      AdvanceKeepsHistory(cfg, inc, s, reply);
      StepIsProtocolEdge(cfg, inc, s, reply);
    }
  }

  /** Consumers always read the value of a live credential. */
  lemma AlwaysAvailable(cfg: Config, inc: Handle, world: World, apply: bool, replies: seq<Reply>, s: Sys)
    requires Reaches(cfg, inc, world, apply, replies, s)
    ensures Available(s.world)
  {
    RunHoldsEverything(cfg, inc, world, apply, replies);
    if OldPublished(inc, s.world) {
      assert inc in s.world.live;
    } else {
      assert s.said.handle.value in s.world.live;
    }
  }

  /** At every moment the durable journal replays, and the state it names describes the world. */
  lemma JournalDescribesWorld(cfg: Config, inc: Handle, world: World, apply: bool, replies: seq<Reply>, s: Sys)
    requires Reaches(cfg, inc, world, apply, replies, s)
    ensures Fold(s.records).Some? && StateFacts(cfg, inc, Fold(s.records).value, s.world)
  {
    RunHoldsEverything(cfg, inc, world, apply, replies);
  }

  /**
  Every crash point of every run replays: each non-empty prefix of the journal is accepted
  and reports the facts of its own last records, torn final line or not.
  */
  lemma EveryCrashPointReplays(
    cfg: Config, inc: Handle, world: World, apply: bool, replies: seq<Reply>, s: Sys, run: RunId, n: nat)
    requires Reaches(cfg, inc, world, apply, replies, s) && 0 < n <= |s.records|
    ensures Fold(s.records[..n]).Some?
    ensures
      var at := Fold(s.records[..n]).value;
      && ReplayOf(Lines(run, s.records[..n])) == Success(Recovered(run, at, n, false))
      && ReplayOf(Lines(run, s.records[..n]) + [Unparseable]) == Success(Recovered(run, at, n, true))
  {
    RunHoldsEverything(cfg, inc, world, apply, replies);
    ReplayIsExact(run, s.records, n);
  }

  /**
  Terminal states are clean: completion leaves the new credential live and published and
  the known old one dead; rollback leaves the old one live and published, and every handle
  the run ever journalled dead.
  */
  lemma TerminalsAreClean(cfg: Config, inc: Handle, world: World, apply: bool, replies: seq<Reply>, s: Sys)
    requires Reaches(cfg, inc, world, apply, replies, s)
    ensures Fold(s.records) == Some(s.said)
    ensures s.said.state.Completed? ==>
      NewPublished(s.said, s.world) && (inc !in s.world.live <==> cfg.active.Some?)
    ensures s.said.state.RolledBack? ==>
      && OldPublished(inc, s.world)
      && forall i :: 0 <= i < |s.records| && s.records[i].HandleAssigned? ==> s.records[i].handle !in s.world.live
  {
    RunHoldsEverything(cfg, inc, world, apply, replies);
  }

  /** Nothing but legal transitions is ever journalled, and at most one handle is. */
  lemma JournalIsLegal(cfg: Config, inc: Handle, world: World, apply: bool, replies: seq<Reply>, s: Sys)
    requires Reaches(cfg, inc, world, apply, replies, s)
    ensures forall i :: 0 <= i < |s.records| && s.records[i].Transition? ==>
      Next(s.records[i].from, s.records[i].event) == Some(s.records[i].to)
    ensures forall i, j | 0 <= i < |s.records| && 0 <= j < |s.records| ::
      s.records[i].HandleAssigned? && s.records[j].HandleAssigned? ==> s.records[i] == s.records[j]
  {
    RunHoldsEverything(cfg, inc, world, apply, replies);
  }

  /**
  A rotation all of whose calls succeed completes, in a bounded number of steps: the known
  old credential is dead, the new one live and published.
  */
  lemma SuccessfulRotationCompletes(cfg: Config, inc: Handle, world: World, replies: seq<Reply>) returns (k: nat)
    requires StartingWorld(cfg, inc, world) && AllHonest(inc, replies) && |replies| >= 90
    requires AllSucceed(cfg, Start(cfg, world, true), replies)
    ensures k <= 90 && k <= |replies| && CompletedCleanly(cfg, inc, Run(cfg, Start(cfg, world, true), replies[..k]))
  {
    hide Run, Advance, AllSucceed, CompletedCleanly;
    StartHoldsEverything(cfg, inc, world, true);
    k := SuccessCompletes(cfg, inc, Start(cfg, world, true), replies);
  }

  /**
  The driver's two internal errors cannot happen: on every run, every event a process is
  about to record is a legal transition of the state the journal is in, and a process that
  completed knows its new handle.
  */
  lemma InternalErrorsAreUnreachable(cfg: Config, inc: Handle, world: World, apply: bool, replies: seq<Reply>, s: Sys)
    requires Reaches(cfg, inc, world, apply, replies, s) && s.process.Up?
    ensures
      var pc := s.process.pc;
      && (pc.Deliver? || pc.Commit? ==> pc.from == s.said.state && Next(pc.from, pc.event).Some?)
      && (pc.Abandon? ==> pc.from == s.said.state && Next(pc.from, AbortRequested).Some?)
      && (pc.Head? && !pc.state.IsTerminal() && !pc.state.IsInFlight() ==>
            StartEvent(pc.state).Some? && Next(pc.state, StartEvent(pc.state).value).Some?)
      && (pc.Done? && pc.terminal.Completed? ==> s.process.ctx.newHandle.Some?)
  {
    hide Run, HistoryInvariant, GhostInvariant, RecordsFacts;
    RunHoldsEverything(cfg, inc, world, apply, replies);
  }

  // ---- the order of effects ----

  /**
  Whatever was staged had been provisioned as the journalled handle and then verified,
  both by the process that staged it.
  */
  lemma StagedValuesWereVerified(
    cfg: Config, inc: Handle, world: World, apply: bool, replies: seq<Reply>, s: Sys, i: nat)
    returns (a: nat, b: nat)
    requires Reaches(cfg, inc, world, apply, replies, s)
    requires i < |s.trace| && s.trace[i].StageCalled?
    ensures s.said.handle.Some?
    ensures a < b < i
    ensures s.trace[a] == CredentialMade(s.said.handle.value, s.trace[i].value)
    ensures s.trace[b] == VerifyPassed(s.trace[i].value)
    ensures forall k :: a < k < i ==> !s.trace[k].ProcessEnded?
  {
    RunHoldsEverything(cfg, inc, world, apply, replies);
    var t, value := s.trace, s.trace[i].value;
    assert JustifiedAt(t, i, inc, s.said.handle);
    a, b :| ProvisionedAt(t[..i], a, s.said.handle.value, value) && PassedAt(t[..i], b, value) && a < b;
    assert forall k :: a < k < i ==> t[k] == t[..i][k];
  }

  /**
  Every attempt to revoke the old credential comes after a completed drain of it, which
  comes after a publication, whose value had been staged before.
  */
  lemma RevocationFollowsDrainAndPublication(
    cfg: Config, inc: Handle, world: World, apply: bool, replies: seq<Reply>, s: Sys, i: nat)
    returns (staged: nat, current: nat, drained: nat)
    requires Reaches(cfg, inc, world, apply, replies, s)
    requires i < |s.trace| && s.trace[i] == RevokeCalled(inc)
    ensures staged < current < drained < i
    ensures s.trace[current].MadeCurrent? && s.trace[staged] == StageCalled(s.trace[current].value)
    ensures s.trace[drained] == DrainCompleted(inc)
  {
    RunHoldsEverything(cfg, inc, world, apply, replies);
    var t := s.trace;
    assert JustifiedAt(t, i, inc, s.said.handle);
    current, drained :| CurrentAt(t[..i], current) && DrainedAt(t[..i], drained, inc) && current < drained;
    assert JustifiedAt(t, current, inc, s.said.handle);
    staged :| StagedAt(t[..current], staged, t[current].value);
  }

  // ---- orphans: exactly when a finished run leaves nothing behind ----

  /**
  What a finished run leaves of the credentials it created: every one whose handle was never
  journalled is live, and the journalled one is live exactly if the run completed. So the
  only survivor is the credential that was published, and after a rollback there is none, if
  and only if the run journalled the handle of every credential it created.
  */
  lemma NothingIsLeftIffJournalled(cfg: Config, inc: Handle, world: World, apply: bool, replies: seq<Reply>, s: Sys)
    requires Reaches(cfg, inc, world, apply, replies, s) && (s.said.state.RolledBack? || s.said.state.Completed?)
    ensures forall h: Handle :: CreatedByRun(s.trace, h) ==>
      (h in s.world.live <==> s.said.handle != Some(h) || s.said.state.Completed?)
    ensures (forall h: Handle :: CreatedByRun(s.trace, h) && h in s.world.live ==>
               s.said.state.Completed? && s.said.handle == Some(h))
      <==> (forall h: Handle :: CreatedByRun(s.trace, h) ==> s.said.handle == Some(h))
  {
    RunHoldsEverything(cfg, inc, world, apply, replies);
  }

  /**
  The plaintext is given up with the write: a process that is past staging, or whose journal
  says the new value is published, holds it no more, and no process that recovered ever does.
  */
  lemma PlaintextIsGivenUp(
    cfg: Config, inc: Handle, world: World, apply: bool, replies: seq<Reply>, s: Sys)
    requires Reaches(cfg, inc, world, apply, replies, s) && s.process.Up?
    ensures
      var pc := s.process.pc;
      pc.Promote? || pc.RecordVersion? || pc.Resolve? || (pc.Head? && ClaimsNew(s.said.state)) ==>
        s.process.ctx.newValue.None?
  {
    hide Run, HistoryInvariant, GhostInvariant, RecordsFacts, StateFacts;
    RunHoldsEverything(cfg, inc, world, apply, replies);
  }

  // ---- refinement of the ghost protocol ----

  /** On every run, every surviving step of a process that has begun is a step of the ghost protocol. */
  lemma RunsRefineProtocol(
    cfg: Config, inc: Handle, world: World, apply: bool, replies: seq<Reply>, s: Sys, reply: Reply)
    requires Reaches(cfg, inc, world, apply, replies, s) && Honest(inc, reply)
    requires s.process.Up? && !s.process.pc.Begin? && Advance(cfg, s, reply).process.Up?
    ensures ProtocolStep(cfg, s, Advance(cfg, s, reply))
    ensures s.process.pc.Resolve? ==> TruthfulOrUnknown(s.process.pc.observed, GhostOf(cfg, s))
  {
    RunHoldsEverything(cfg, inc, world, apply, replies);
    StepIsProtocolEdge(cfg, inc, s, reply);
    if s.process.pc.Resolve? {
      ObservationIsTruthful(cfg, inc, s, s.process.ctx);
    }
  }

  // ---- recovery of an interrupted publication ----

  /**
  A publication that was interrupted is believed to have landed exactly if the version it
  wrote was journalled, and not to have landed exactly if the old value is published and the
  baseline was journalled; in every other case recovery stops for the operator, whatever consumers read.
  */
  lemma PublicationIsSettledIffJournalled(
    cfg: Config, inc: Handle, world: World, apply: bool, replies: seq<Reply>, s: Sys)
    requires Reaches(cfg, inc, world, apply, replies, s) && s.said.state.Publishing?
    ensures
      var settled := Settled(cfg, s);
      && (settled == Published <==> s.said.written.Some?)
      && (settled == Verified <==> OldPublished(inc, s.world) && s.said.previous.Some?)
      && (settled == NeedsOperator <==> s.said.written.None? && !(OldPublished(inc, s.world) && s.said.previous.Some?))
      && (s.said.written.Some? ==> NewPublished(s.said, s.world))
  {
    RunHoldsEverything(cfg, inc, world, apply, replies);
  }

  // ---- recovery during compensation ----

  /**
  Once compensation has begun, a recovery goes on with it exactly if the published version
  is the journalled baseline itself, and otherwise stops, whether or not consumers read the
  old value. Where the backend restores natively, a recorded baseline that consumers read
  again is always recognised; where it writes the old value forward it need not be.
  */
  lemma RecoveryContinuesMirrorIffBaselineUntouched(
    cfg: Config, inc: Handle, world: World, apply: bool, replies: seq<Reply>, s: Sys)
    requires Reaches(cfg, inc, world, apply, replies, s)
    requires s.said.state.RestoringPublication? || s.said.state.ReverseDraining?
    ensures
      var resolved := Reconcile(s.said.state, Observe(s.world, RecoveredContext(cfg, s.said)));
      && (resolved == ReverseDraining <==> s.said.previous == s.world.published)
      && (resolved == NeedsOperator <==> s.said.previous != s.world.published)
      && (resolved == ReverseDraining ==> OldPublished(inc, s.world))
      && (cfg.nativeRestore && s.said.previous.Some? ==> (resolved == ReverseDraining <==> OldPublished(inc, s.world)))
  {
    RunHoldsEverything(cfg, inc, world, apply, replies);
  }
}
