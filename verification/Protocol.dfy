/**
The rotation protocol: sixteen states, the events that move between them, and the rules
that resolve an unknown-outcome state against an observation of the world.
*/
module Protocol {
  import opened Wrappers

  datatype RotationState =
    | Pending | Provisioning | Provisioned | Verifying | Verified
    | Publishing | Published | Draining | Drained | Revoking
    | RestoringPublication | ReverseDraining | RevokingNew
    | Completed | RolledBack | NeedsOperator
  {
    predicate IsTerminal() {
      Completed? || RolledBack? || NeedsOperator?
    }

    function PendingStep(): Option<Step> {
      match this
      case Provisioning => Some(Provision)
      case Verifying => Some(Verify)
      case Publishing => Some(Publish)
      case Draining => Some(Drain)
      case Revoking => Some(RevokeOld)
      case RestoringPublication => Some(RestorePublication)
      case ReverseDraining => Some(ReverseDrain)
      case RevokingNew => Some(RevokeNew)
      case _ => None
    }

    predicate IsInFlight() {
      PendingStep().Some?
    }
  }

  datatype Step =
    | Provision | Verify | Publish | Drain | RevokeOld
    | RestorePublication | ReverseDrain | RevokeNew

  datatype PublishedSide = Old | New | Unknown

  datatype Observation = Observation(newLive: bool, oldLive: bool, published: PublishedSide)

  datatype RotationEvent =
    | StartProvision | ProvisionOk | ProvisionFailed
    | StartVerify | VerifyOk | VerifyFailed
    | StartPublish | PublishOk | PublishFailed
    | StartDrain | DrainComplete | DrainTimeout
    | AbortRequested
    | StartRevoke | RevokeOk | RevokeFailed
    | RestoreOk | RestoreFailed
    | ReverseDrainComplete | ReverseDrainTimeout
    | RevokeNewOk | RevokeNewFailed
    | Reconciled(observed: Observation)

  /** The transition function; `None` is the illegal-transition error. */
  function Next(state: RotationState, event: RotationEvent): Option<RotationState> {
    if event.Reconciled? then Some(Reconcile(state, event.observed)) else
    match state
    // the forward path, with its failures and the aborts from settled states
    case Pending =>
      if event == StartProvision then Some(Provisioning)
      else if event == AbortRequested then Some(RolledBack) else None
    case Provisioning =>
      if event == ProvisionOk then Some(Provisioned)
      else if event == ProvisionFailed then Some(RevokingNew) else None
    case Provisioned =>
      if event == StartVerify then Some(Verifying)
      else if event == AbortRequested then Some(RevokingNew) else None
    case Verifying =>
      if event == VerifyOk then Some(Verified)
      else if event == VerifyFailed then Some(RevokingNew) else None
    case Verified =>
      if event == StartPublish then Some(Publishing)
      else if event == AbortRequested then Some(RevokingNew) else None
    case Publishing =>
      if event == PublishOk then Some(Published)
      else if event == PublishFailed then Some(RestoringPublication) else None
    case Published =>
      if event == StartDrain then Some(Draining)
      else if event == AbortRequested then Some(RestoringPublication) else None
    case Draining =>
      if event == DrainComplete then Some(Drained)
      else if event == AbortRequested then Some(RestoringPublication)
      else if event == DrainTimeout then Some(NeedsOperator) else None
    case Drained =>
      if event == StartRevoke then Some(Revoking)
      else if event == AbortRequested then Some(RestoringPublication) else None
    case Revoking =>
      if event == RevokeOk then Some(Completed)
      else if event == RevokeFailed then Some(NeedsOperator) else None
    // the compensation path
    case RestoringPublication =>
      if event == RestoreOk then Some(ReverseDraining)
      else if event == RestoreFailed then Some(NeedsOperator) else None
    case ReverseDraining =>
      if event == ReverseDrainComplete then Some(RevokingNew)
      else if event == ReverseDrainTimeout then Some(NeedsOperator) else None
    case RevokingNew =>
      if event == RevokeNewOk then Some(RolledBack)
      else if event == RevokeNewFailed then Some(NeedsOperator) else None
    // terminal
    case Completed => None
    case RolledBack => None
    case NeedsOperator => None
  }

  /** Resolve an unknown-outcome state; the identity on settled and terminal states. */
  function Reconcile(state: RotationState, observed: Observation): RotationState {
    match state
    case Provisioning => if observed.newLive then Provisioned else Pending
    case Verifying => Provisioned
    case Draining => Published
    case Publishing => (
      match observed.published
      case New => Published
      case Old => Verified
      case Unknown => NeedsOperator)
    case Revoking => if observed.oldLive then Drained else Completed
    case RestoringPublication => (
      match observed.published
      case Old => ReverseDraining
      case New => RestoringPublication
      case Unknown => NeedsOperator)
    case ReverseDraining => if observed.published.Old? then ReverseDraining else NeedsOperator
    case RevokingNew => if observed.newLive then RevokingNew else RolledBack
    case _ => state
  }

  /** The event that moves a settled state into its next in-flight state. */
  function StartEvent(state: RotationState): Option<RotationEvent> {
    if state == Pending then Some(StartProvision)
    else if state == Provisioned then Some(StartVerify)
    else if state == Verified then Some(StartPublish)
    else if state == Published then Some(StartDrain)
    else if state == Drained then Some(StartRevoke)
    else None
  }

  /** The machine-readable code of the guidance attached to an escalation. */
  datatype RemediationHint =
    | DrainTimeoutHint | RevokeFailedHint | RestoreFailedHint
    | ReverseDrainTimeoutHint | RevokeNewFailedHint | ReconciliationInconclusiveHint

  function HintFor(from: RotationState, event: RotationEvent): Option<RemediationHint> {
    if event.Reconciled? then Some(ReconciliationInconclusiveHint)
    else if from == Draining && event == DrainTimeout then Some(DrainTimeoutHint)
    else if from == Revoking && event == RevokeFailed then Some(RevokeFailedHint)
    else if from == RestoringPublication && event == RestoreFailed then Some(RestoreFailedHint)
    else if from == ReverseDraining && event == ReverseDrainTimeout then Some(ReverseDrainTimeoutHint)
    else if from == RevokingNew && event == RevokeNewFailed then Some(RevokeNewFailedHint)
    else None
  }

  // ---- what the table promises ----

  /** A state is terminal exactly if it accepts nothing but a reconciliation. */
  lemma TerminalsAcceptNothing(state: RotationState)
    ensures state.IsTerminal() <==> forall event: RotationEvent :: !event.Reconciled? ==> Next(state, event).None?
  {
    assert state.Revoking? ==> Next(state, RevokeOk).Some?;
    assert state.Publishing? ==> Next(state, PublishOk).Some?;
    assert state.Provisioning? ==> Next(state, ProvisionOk).Some?;
    assert state.Verifying? ==> Next(state, VerifyOk).Some?;
    assert state.RestoringPublication? ==> Next(state, RestoreOk).Some?;
    assert state.ReverseDraining? ==> Next(state, ReverseDrainComplete).Some?;
    assert state.RevokingNew? ==> Next(state, RevokeNewOk).Some?;
    assert (!state.IsTerminal() && !state.IsInFlight()) || state.Draining? ==> Next(state, AbortRequested).Some?;
  }

  /** Every event but an abort is accepted in one state only, so an event out of place is rejected. */
  lemma EventsHaveOnePlace(a: RotationState, b: RotationState, event: RotationEvent)
    requires !event.Reconciled? && !event.AbortRequested?
    requires Next(a, event).Some? && Next(b, event).Some?
    ensures a == b
  {}

  /**
  An operator may abort where nothing is in flight, and while draining. What follows depends on
  what consumers may have seen: nothing at all, a credential to revoke, or the full mirror.
  */
  lemma AbortsCompensate(state: RotationState)
    ensures Next(state, AbortRequested) == Some(RolledBack) <==> state.Pending?
    ensures Next(state, AbortRequested) == Some(RevokingNew) <==> state.Provisioned? || state.Verified?
    ensures Next(state, AbortRequested) == Some(RestoringPublication) <==>
      state.Published? || state.Draining? || state.Drained?
    ensures Next(state, AbortRequested).Some? <==> state.Draining? || (!state.IsInFlight() && !state.IsTerminal())
  {}

  /**
  Whatever was observed, reconciliation leaves nothing to resolve but a step of compensation to
  be taken again, changes no settled or terminal state, and stops exactly where the published
  side decides and is not known, or was changed by somebody else.
  */
  lemma ReconcileSettles(state: RotationState, observed: Observation)
    ensures
      var to := Reconcile(state, observed);
      && Reconcile(to, observed) == to
      && (!state.IsInFlight() ==> to == state)
      && (to.IsInFlight() ==> state.RestoringPublication? || state.ReverseDraining? || state.RevokingNew?)
      && (to.IsInFlight() && to != state <==> state.RestoringPublication? && observed.published.Old?)
      && (to.NeedsOperator? <==>
            || state.NeedsOperator?
            || ((state.Publishing? || state.RestoringPublication?) && observed.published.Unknown?)
            || (state.ReverseDraining? && !observed.published.Old?))
  {}

  /**
  How many transitions the driver can still make from a state. Every transition the
  driver makes by itself lowers it, so a drive makes at most ten.
  */
  function Rank(state: RotationState): nat {
    match state
    case Pending => 10
    case Provisioning => 9
    case Provisioned => 8
    case Verifying => 7
    case Verified => 6
    case Publishing => 5
    case Published => 4
    case Draining => 3
    case Drained => 2
    case Revoking => 1
    case RestoringPublication => 3
    case ReverseDraining => 2
    case RevokingNew => 1
    case _ => 0
  }
}
