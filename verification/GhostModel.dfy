/**
The ghost model of the protocol: what would be true of the world if the state machine
drove a real rotation, with every failure allowed to have landed or not.
*/
module GhostModel {
  import opened Wrappers
  import opened Protocol

  datatype Ghost = Ghost(
    newExists: bool,
    newLive: bool,
    oldLive: bool,
    published: PublishedSide,
    verified: bool)
  {
    /** Consumers read a credential that works. */
    predicate Working() {
      match published
      case Old => oldLive
      case New => newLive
      case Unknown => false
    }

    function Observation(): Observation {
      Protocol.Observation(newLive, oldLive, published)
    }

    /** Every world that could result from an event. */
    function Successors(event: RotationEvent): set<Ghost> {
      match event
      case ProvisionOk => {this.(newExists := true, newLive := true)}
      case ProvisionFailed => {this, this.(newExists := true, newLive := true)}
      case VerifyOk => {this.(verified := true)}
      case PublishOk => {this.(published := New)}
      case PublishFailed => {this, this.(published := New)}
      case RevokeOk => {this.(oldLive := false)}
      case RevokeFailed => {this, this.(oldLive := false)}
      case RestoreOk => {this.(published := Old)}
      case RestoreFailed => {this, this.(published := Old)}
      case RevokeNewOk => {this.(newLive := false, newExists := false)}
      case RevokeNewFailed => {this, this.(newLive := false, newExists := false)}
      case _ => {this}
    }
  }

  const INITIAL: Ghost := Ghost(false, false, true, Old, false)

  datatype Node = Node(state: RotationState, world: Ghost)

  /** The observation is what the world would report, except that it may say `Unknown`. */
  ghost predicate TruthfulOrUnknown(observed: Observation, world: Ghost) {
    && observed.newLive == world.newLive
    && observed.oldLive == world.oldLive
    && (observed.published == world.published || observed.published == Unknown)
  }

  /** One edge of the explored graph. */
  ghost predicate Edge(from: Node, event: RotationEvent, to: Node) {
    && Next(from.state, event) == Some(to.state)
    && to.world in from.world.Successors(event)
    && (event.Reconciled? ==> TruthfulOrUnknown(event.observed, from.world))
  }

  /** Edge by edge from a given world. */
  ghost predicate PathFrom(world: Ghost, nodes: seq<Node>, events: seq<RotationEvent>) {
    && |nodes| == |events| + 1
    && nodes[0] == Node(Pending, world)
    && forall i :: 0 <= i < |events| ==> Edge(nodes[i], events[i], nodes[i + 1])
  }

  ghost predicate Path(nodes: seq<Node>, events: seq<RotationEvent>) {
    PathFrom(INITIAL, nodes, events)
  }

  predicate IsUnverified(s: RotationState) {
    s.Pending? || s.Provisioning? || s.Provisioned? || s.Verifying?
  }

  predicate ReadsNew(s: RotationState) {
    s.Published? || s.Draining? || s.Drained? || s.Revoking? || s.Completed?
  }

  /** The world with both credentials live, and the one side published. */
  function BothLive(side: PublishedSide, verified: bool): Ghost {
    Ghost(true, true, true, side, verified)
  }

  /** The worlds the protocol pairs with each state: twenty-five nodes in all. */
  predicate Visited(n: Node) {
    var g := n.world;
    match n.state
    case Pending => g == INITIAL
    case Provisioning => g == INITIAL
    case Provisioned => g == BothLive(Old, false)
    case Verifying => g == BothLive(Old, false)
    case Verified => g == BothLive(Old, true)
    case Publishing => g == BothLive(Old, true)
    case Published => g == BothLive(New, true)
    case Draining => g == BothLive(New, true)
    case Drained => g == BothLive(New, true)
    case Revoking => g == BothLive(New, true)
    case Completed => g == BothLive(New, true).(oldLive := false)
    case RestoringPublication => g == BothLive(Old, true) || g == BothLive(New, true)
    case ReverseDraining => g == BothLive(Old, true)
    case RevokingNew => OldReads(g) && (g.newLive || !g.verified)
    case RolledBack => OldReads(g) && !g.newLive
    case NeedsOperator => OldReads(g) || NewReads(g)
  }

  /** Consumers read the old credential, which works; the new one may or may not be live. */
  predicate OldReads(g: Ghost) {
    g.newExists == g.newLive && g.oldLive && g.published.Old?
  }

  /** Consumers read the new credential, which works and was verified. */
  predicate NewReads(g: Ghost) {
    g.newExists && g.newLive && g.published.New? && g.verified
  }

  /** Some path of the protocol visits the node. */
  ghost predicate OnGraph(n: Node) {
    exists nodes, events, i: nat :: VisitedAt(nodes, events, i, n)
  }

  ghost predicate VisitedAt(nodes: seq<Node>, events: seq<RotationEvent>, i: nat, n: Node) {
    Path(nodes, events) && i <= |events| && nodes[i] == n
  }

  // ---- the graph has no other node ----

  lemma EdgeStaysVisited(from: Node, event: RotationEvent, to: Node)
    requires Visited(from) && Edge(from, event, to)
    ensures Visited(to)
  {
    hide Visited, Edge;
    if event.Reconciled? {
      ReconciledStaysVisited(from, event, to);
    } else if IsUnverified(from.state) {
      UnverifiedStaysVisited(from, event, to);
    } else if ReadsNew(from.state) {
      NewSideStaysVisited(from, event, to);
    } else if from.state.Verified? || from.state.Publishing? {
      PublishingStaysVisited(from, event, to);
    } else {
      MirrorStaysVisited(from, event, to);
    }
  }

  lemma ReconciledStaysVisited(from: Node, event: RotationEvent, to: Node)
    requires Visited(from) && Edge(from, event, to) && event.Reconciled?
    ensures Visited(to)
  {
    assert to.world == from.world;
  }

  lemma UnverifiedStaysVisited(from: Node, event: RotationEvent, to: Node)
    requires Visited(from) && Edge(from, event, to) && !event.Reconciled? && IsUnverified(from.state)
    ensures Visited(to)
  {
    hide Reconcile;
  }

  lemma PublishingStaysVisited(from: Node, event: RotationEvent, to: Node)
    requires Visited(from) && Edge(from, event, to) && !event.Reconciled?
    requires from.state.Verified? || from.state.Publishing?
    ensures Visited(to)
  {
    hide Reconcile;
  }

  lemma NewSideStaysVisited(from: Node, event: RotationEvent, to: Node)
    requires Visited(from) && Edge(from, event, to) && !event.Reconciled? && ReadsNew(from.state)
    ensures Visited(to)
  {
    hide Reconcile;
  }

  lemma MirrorStaysVisited(from: Node, event: RotationEvent, to: Node)
    requires Visited(from) && Edge(from, event, to) && !event.Reconciled?
    requires !IsUnverified(from.state) && !from.state.Verified? && !from.state.Publishing? && !ReadsNew(from.state)
    ensures Visited(to)
  {
    hide Reconcile;
  }

  lemma {:induction false} PathStaysVisited(nodes: seq<Node>, events: seq<RotationEvent>, i: nat)
    requires Path(nodes, events) && i <= |events|
    ensures Visited(nodes[i])
  {
    hide Visited;
    if i > 0 {
      PathStaysVisited(nodes, events, i - 1);
      EdgeStaysVisited(nodes[i - 1], events[i - 1], nodes[i]);
    } else {
      StartIsVisited();
    }
  }

  lemma StartIsVisited()
    ensures Visited(Node(Pending, INITIAL))
  {}

  // ---- and every one of them is on it ----

  lemma StartIsOnGraph()
    ensures OnGraph(Node(Pending, INITIAL))
  {
    assert VisitedAt([Node(Pending, INITIAL)], [], 0, Node(Pending, INITIAL));
  }

  /** One more edge from a node on the graph. */
  lemma Extends(from: Node, event: RotationEvent, to: Node)
    requires OnGraph(from) && Edge(from, event, to)
    ensures OnGraph(to)
  {
    hide Edge;
    var nodes, events, i: nat :| VisitedAt(nodes, events, i, from);
    var more, longer := nodes[..i + 1] + [to], events[..i] + [event];
    forall k | 0 <= k < |longer|
      ensures Edge(more[k], longer[k], more[k + 1])
    {
      if k < i {
        assert Edge(nodes[k], events[k], nodes[k + 1]);
      }
    }
    assert VisitedAt(more, longer, i + 1, to);
  }

  lemma ForwardOnGraph()
    ensures OnGraph(Node(Provisioning, INITIAL))
    ensures OnGraph(Node(Provisioned, BothLive(Old, false))) && OnGraph(Node(Verifying, BothLive(Old, false)))
    ensures OnGraph(Node(Verified, BothLive(Old, true))) && OnGraph(Node(Publishing, BothLive(Old, true)))
  {
    hide OnGraph;
    StartIsOnGraph();
    Extends(Node(Pending, INITIAL), StartProvision, Node(Provisioning, INITIAL));
    Extends(Node(Provisioning, INITIAL), ProvisionOk, Node(Provisioned, BothLive(Old, false)));
    Extends(Node(Provisioned, BothLive(Old, false)), StartVerify, Node(Verifying, BothLive(Old, false)));
    Extends(Node(Verifying, BothLive(Old, false)), VerifyOk, Node(Verified, BothLive(Old, true)));
    Extends(Node(Verified, BothLive(Old, true)), StartPublish, Node(Publishing, BothLive(Old, true)));
  }

  lemma PublishedOnGraph()
    ensures OnGraph(Node(Published, BothLive(New, true))) && OnGraph(Node(Draining, BothLive(New, true)))
    ensures OnGraph(Node(Drained, BothLive(New, true))) && OnGraph(Node(Revoking, BothLive(New, true)))
    ensures OnGraph(Node(Completed, BothLive(New, true).(oldLive := false)))
    ensures OnGraph(Node(NeedsOperator, BothLive(New, true)))
    ensures OnGraph(Node(NeedsOperator, BothLive(New, true).(oldLive := false)))
  {
    hide OnGraph;
    var g := BothLive(New, true);
    ForwardOnGraph();
    Extends(Node(Publishing, BothLive(Old, true)), PublishOk, Node(Published, g));
    Extends(Node(Published, g), StartDrain, Node(Draining, g));
    Extends(Node(Draining, g), DrainComplete, Node(Drained, g));
    Extends(Node(Draining, g), DrainTimeout, Node(NeedsOperator, g));
    Extends(Node(Drained, g), StartRevoke, Node(Revoking, g));
    Extends(Node(Revoking, g), RevokeOk, Node(Completed, g.(oldLive := false)));
    Extends(Node(Revoking, g), RevokeFailed, Node(NeedsOperator, g.(oldLive := false)));
  }

  lemma MirrorOnGraph()
    ensures OnGraph(Node(RestoringPublication, BothLive(Old, true)))
    ensures OnGraph(Node(RestoringPublication, BothLive(New, true)))
    ensures OnGraph(Node(ReverseDraining, BothLive(Old, true)))
  {
    hide OnGraph;
    var g := BothLive(Old, true);
    ForwardOnGraph();
    Extends(Node(Publishing, g), PublishFailed, Node(RestoringPublication, g));
    Extends(Node(Publishing, g), PublishFailed, Node(RestoringPublication, BothLive(New, true)));
    Extends(Node(RestoringPublication, g), RestoreOk, Node(ReverseDraining, g));
  }

  lemma RevokingNewOnGraph(g: Ghost)
    requires OldReads(g) && (g.newLive || !g.verified)
    ensures OnGraph(Node(RevokingNew, g))
  {
    hide OnGraph;
    ForwardOnGraph();
    if g == INITIAL {
      Extends(Node(Provisioning, INITIAL), ProvisionFailed, Node(RevokingNew, g));
    } else if g.verified {
      Extends(Node(Verified, BothLive(Old, true)), AbortRequested, Node(RevokingNew, g));
    } else {
      Extends(Node(Verifying, BothLive(Old, false)), VerifyFailed, Node(RevokingNew, g));
    }
  }

  lemma RolledBackOnGraph(g: Ghost)
    requires OldReads(g) && !g.newLive
    ensures OnGraph(Node(RolledBack, g))
  {
    hide OnGraph;
    RevokingNewOnGraph(BothLive(Old, g.verified));
    Extends(Node(RevokingNew, BothLive(Old, g.verified)), RevokeNewOk, Node(RolledBack, g));
  }

  lemma StoppedOnGraph(g: Ghost)
    requires OldReads(g) || NewReads(g)
    ensures OnGraph(Node(NeedsOperator, g))
  {
    hide OnGraph;
    if OldReads(g) {
      RevokingNewOnGraph(BothLive(Old, g.verified));
      Extends(Node(RevokingNew, BothLive(Old, g.verified)), RevokeNewFailed, Node(NeedsOperator, g));
    } else {
      PublishedOnGraph();
      assert g == BothLive(New, true) || g == BothLive(New, true).(oldLive := false);
    }
  }

  lemma VisitedIsOnGraph(n: Node)
    requires Visited(n)
    ensures OnGraph(n)
  {
    hide OnGraph, OldReads, NewReads;
    StartIsOnGraph();
    ForwardOnGraph();
    PublishedOnGraph();
    MirrorOnGraph();
    if n.state.RevokingNew? {
      RevokingNewOnGraph(n.world);
    } else if n.state.RolledBack? {
      RolledBackOnGraph(n.world);
    } else if n.state.NeedsOperator? {
      StoppedOnGraph(n.world);
    }
  }

  /** The explored graph, exactly: a path of the protocol visits a node if and only if it is one of these. */
  lemma GraphIsExactly(n: Node)
    ensures OnGraph(n) <==> Visited(n)
  {
    hide Visited;
    if OnGraph(n) {
      var nodes, events, i: nat :| VisitedAt(nodes, events, i, n);
      PathStaysVisited(nodes, events, i);
    }
    if Visited(n) {
      VisitedIsOnGraph(n);
    }
  }

  /**
  Every node of every path of the protocol satisfies every safety property: completion
  implies verification; consumers always have a working credential; terminal states
  leave no credential behind; an unverified value is never published; the old credential
  is never revoked before the new one is live and published; and the new one is only
  revoked while the old value is what consumers read.
  */
  lemma ProtocolIsSafe(nodes: seq<Node>, events: seq<RotationEvent>, i: nat)
    requires Path(nodes, events) && i <= |events|
    ensures
      var n, g := nodes[i], nodes[i].world;
      && (n.state.Completed? ==> g.verified && !g.oldLive)
      && g.Working()
      && (n.state.RolledBack? ==> !g.newLive && g.oldLive && g.published.Old?)
      && (g.published.New? ==> g.verified)
      && (!g.oldLive ==> g.published.New? && g.newLive)
      && (n.state.RevokingNew? ==> g.published.Old?)
  {
    PathStaysVisited(nodes, events, i);
  }
}
