/**
Staging and restoring on a versioned store with check-and-set: what a success means when
any number of instances, and writers that check nothing, work on one path at once.
*/
module VaultCas {
  import opened Wrappers

  /** An opaque value. Version `n` of a path is the `n`th element of its history. */
  type Secret = nat

  type History = seq<Secret>

  // ---- the store's rules ----

  /** The current version; a path never written has none. */
  function Current(h: History): Option<nat> {
    if h == [] then None else Some(|h|)
  }

  function ReadAt(h: History, version: nat): Option<Secret> {
    if 1 <= version <= |h| then Some(h[version - 1]) else None
  }

  /** A write takes effect only if `cas` is the current version; no version at all counts as zero. */
  predicate Accepts(h: History, cas: Option<nat>) {
    OrZero(cas) == |h|
  }

  function OrZero(cas: Option<nat>): nat {
    match cas { case Some(version) => version case None => 0 }
  }

  // ---- instances, as steps ----

  datatype Request = Stage(value: Secret) | Restore(version: nat)

  datatype Outcome = Landed(version: nat) | Refused | Failed | ReplyLost(landed: bool)

  /** Where an instance is; `seen` is the history as it was when the current version was read. */
  datatype Phase =
    | Asked
    | Fetched(value: Secret)
    | Armed(value: Secret, seen: History)
    | Done(outcome: Outcome, value: Secret, seen: History)
    | Stopped

  datatype Instance = Instance(request: Request, phase: Phase)

  datatype Site = Site(history: History, instances: seq<Instance>)

  datatype Fault = NoFault | CallLost | AnswerLost

  datatype Step =
    | Arrive(request: Request)
    | Advance(k: nat, fault: Fault)
    | ForeignWrite(value: Secret)

  /** The check-and-set write: the new history and what the writer is told. */
  function Deliver(h: History, value: Secret, seen: History, fault: Fault): (History, Outcome) {
    if fault.CallLost? then (h, Failed)
    else if !Accepts(h, Current(seen)) then (h, if fault.AnswerLost? then ReplyLost(false) else Refused)
    else (h + [value], if fault.AnswerLost? then ReplyLost(true) else Landed(|h| + 1))
  }

  /** One request of one instance. */
  function Work(h: History, i: Instance, fault: Fault): (History, Phase) {
    match i.phase
    case Asked =>
      if fault != NoFault then (h, Stopped) else
      (match i.request
       case Stage(value) => (h, Armed(value, h))
       case Restore(version) =>
         match ReadAt(h, version)
         case None => (h, Stopped)
         case Some(value) => (h, Fetched(value)))
    case Fetched(value) => if fault != NoFault then (h, Stopped) else (h, Armed(value, h))
    case Armed(value, seen) =>
      var (after, outcome) := Deliver(h, value, seen, fault);
      (after, Done(outcome, value, seen))
    case Done(_, _, _) => (h, i.phase)
    case Stopped => (h, i.phase)
  }

  function Next(s: Site, step: Step): Site {
    match step
    case Arrive(request) => Site(s.history, s.instances + [Instance(request, Asked)])
    case ForeignWrite(value) => Site(s.history + [value], s.instances)
    case Advance(k, fault) =>
      if k >= |s.instances| then s else
      var (history, phase) := Work(s.history, s.instances[k], fault);
      Site(history, s.instances[k := Instance(s.instances[k].request, phase)])
  }

  function Run(s: Site, steps: seq<Step>): Site
    decreases |steps|
  {
    if steps == [] then s else Run(Next(s, steps[0]), steps[1..])
  }

  // ---- what holds throughout ----

  /** The value an instance writes is the one it was given, or the one the requested version holds. */
  predicate IsFor(request: Request, value: Secret, seen: History) {
    match request
    case Stage(given) => value == given
    case Restore(version) => ReadAt(seen, version) == Some(value)
  }

  predicate HasLanded(i: Instance) {
    i.phase.Done? && (i.phase.outcome.Landed? || i.phase.outcome == ReplyLost(true))
  }

  /** The version number a landed write received. */
  function LandedAt(i: Instance): nat
    requires i.phase.Done?
  {
    |i.phase.seen| + 1
  }

  /** A landed write directly follows the history its instance had read. */
  predicate Truthful(h: History, i: Instance) {
    match i.phase
    case Asked => true
    case Stopped => true
    case Fetched(value) => i.request.Restore? && ReadAt(h, i.request.version) == Some(value)
    case Armed(value, seen) => seen <= h && IsFor(i.request, value, seen)
    case Done(outcome, value, seen) =>
      && seen <= h && IsFor(i.request, value, seen)
      && (HasLanded(i) ==> seen + [value] <= h)
      && (outcome.Landed? ==> outcome.version == |seen| + 1)
  }

  predicate AllTruthful(s: Site) {
    forall k :: 0 <= k < |s.instances| ==> Truthful(s.history, s.instances[k])
  }

  /** No version was written by two instances. */
  predicate NoneShared(s: Site) {
    forall k, m :: 0 <= k < m < |s.instances| && HasLanded(s.instances[k]) && HasLanded(s.instances[m]) ==>
      LandedAt(s.instances[k]) != LandedAt(s.instances[m])
  }

  lemma GrowthKeepsTruth(h: History, more: History, i: Instance)
    requires h <= more && Truthful(h, i)
    ensures Truthful(more, i)
  {}

  lemma PrefixOfPrefix(a: History, b: History)
    requires a <= b && |a| == |b|
    ensures a == b
  {}

  /** One request keeps the instance truthful and only lets the history grow. */
  lemma WorkIsTruthful(h: History, i: Instance, fault: Fault)
    requires Truthful(h, i)
    ensures
      var (history, phase) := Work(h, i, fault);
      var after := Instance(i.request, phase);
      && h <= history
      && Truthful(history, after)
      && (HasLanded(after) && !HasLanded(i) ==> LandedAt(after) == |h| + 1 == |history|)
  {
    if i.phase.Armed? && Accepts(h, Current(i.phase.seen)) {
      PrefixOfPrefix(i.phase.seen, h);
    }
  }

  lemma NextIsTruthful(s: Site, step: Step)
    requires AllTruthful(s) && NoneShared(s)
    ensures s.history <= Next(s, step).history && AllTruthful(Next(s, step)) && NoneShared(Next(s, step))
  {
    var after := Next(s, step);
    if step.Advance? && step.k < |s.instances| {
      WorkIsTruthful(s.history, s.instances[step.k], step.fault);
      LandsAlone(s, step.k, step.fault);
    }
    forall k | 0 <= k < |s.instances| && !(step.Advance? && step.k == k)
      ensures Truthful(after.history, after.instances[k])
    {
      GrowthKeepsTruth(s.history, after.history, s.instances[k]);
    }
  }

  /** A write that lands now gets a version above every one handed out before. */
  lemma LandsAlone(s: Site, k: nat, fault: Fault)
    requires AllTruthful(s) && NoneShared(s) && k < |s.instances|
    ensures NoneShared(Next(s, Advance(k, fault)))
  {
    var after := Next(s, Advance(k, fault));
    WorkIsTruthful(s.history, s.instances[k], fault);
    forall m | 0 <= m < |s.instances| && m != k && HasLanded(s.instances[m])
      ensures LandedAt(s.instances[m]) <= |s.history|
    {
      assert Truthful(s.history, s.instances[m]);
    }
    assert forall m :: 0 <= m < |s.instances| && m != k ==> after.instances[m] == s.instances[m];
    assert HasLanded(s.instances[k]) ==> after.instances[k] == s.instances[k];
  }

  /** Whatever the interleaving: history only grows, every landed write is truthful and no two share a version. */
  lemma {:induction false} EveryRunIsTruthful(s: Site, steps: seq<Step>)
    requires AllTruthful(s) && NoneShared(s)
    ensures s.history <= Run(s, steps).history && AllTruthful(Run(s, steps)) && NoneShared(Run(s, steps))
    decreases |steps|
  {
    hide Next, AllTruthful, NoneShared;
    if steps != [] {
      NextIsTruthful(s, steps[0]);
      EveryRunIsTruthful(Next(s, steps[0]), steps[1..]);
    }
  }

  /**
  A success is where it says it is: the version is one above the one read, everything below
  it is what was read, and it holds the value staged or the value of the version restored.
  */
  lemma SuccessMeans(before: History, steps: seq<Step>, k: nat)
    requires k < |Run(Site(before, []), steps).instances|
    requires
      var i := Run(Site(before, []), steps).instances[k];
      i.phase.Done? && i.phase.outcome.Landed?
    ensures
      var s := Run(Site(before, []), steps);
      var i := s.instances[k];
      var version := i.phase.outcome.version;
      && before <= s.history
      && version == OrZero(Current(i.phase.seen)) + 1 <= |s.history|
      && s.history[..version - 1] == i.phase.seen
      && match i.request
         case Stage(value) => s.history[version - 1] == value
         case Restore(wanted) => 1 <= wanted < version && s.history[version - 1] == s.history[wanted - 1]
  {
    hide Run;
    EveryRunIsTruthful(Site(before, []), steps);
    assert Truthful(Run(Site(before, []), steps).history, Run(Site(before, []), steps).instances[k]);
  }

  /** An instance's write lands exactly if nobody wrote since it read the current version. */
  lemma LandsIffUnchanged(before: History, steps: seq<Step>, k: nat)
    requires k < |Run(Site(before, []), steps).instances| && Run(Site(before, []), steps).instances[k].phase.Armed?
    ensures
      var s := Run(Site(before, []), steps);
      var i := s.instances[k];
      var after := Next(s, Advance(k, NoFault)).instances[k].phase.outcome;
      && (after.Landed? <==> s.history == i.phase.seen)
      && (after.Refused? <==> s.history != i.phase.seen)
  {
    hide Run;
    EveryRunIsTruthful(Site(before, []), steps);
    var s := Run(Site(before, []), steps);
    assert Truthful(s.history, s.instances[k]);
    if |s.instances[k].phase.seen| == |s.history| {
      PrefixOfPrefix(s.instances[k].phase.seen, s.history);
    }
  }

  // ---- the backend's own calls ----

  /** The path on the server; `others` is what other writers add before each coming request. */
  class KvPath {
    var history: History
    var others: seq<History>

    ghost function Before(n: nat): History
      reads this`others
    {
      if n < |others| then others[n] else []
    }

    method Receive()
      modifies this
      ensures history == old(history) + old(Before(0))
      ensures forall n: nat :: Before(n) == old(Before(n + 1))
    {
      if others != [] {
        history := history + others[0];
        others := others[1..];
      }
    }

    method GetMetadata() returns (version: Option<nat>)
      modifies this
      ensures history == old(history) + old(Before(0)) && version == Current(history)
      ensures forall n: nat :: Before(n) == old(Before(n + 1))
    {
      Receive();
      version := Current(history);
    }

    method GetData(version: nat) returns (value: Option<Secret>)
      modifies this
      ensures history == old(history) + old(Before(0)) && value == ReadAt(history, version)
      ensures forall n: nat :: Before(n) == old(Before(n + 1))
    {
      Receive();
      value := ReadAt(history, version);
    }

    method PostData(value: Secret, cas: Option<nat>) returns (version: Option<nat>)
      modifies this
      ensures
        var found := old(history) + old(Before(0));
        if Accepts(found, cas) then history == found + [value] && version == Some(|history|)
        else history == found && version == None
      ensures forall n: nat :: Before(n) == old(Before(n + 1))
    {
      Receive();
      if Accepts(history, cas) {
        history := history + [value];
        return Some(|history|);
      }
      return None;
    }
  }

  /** Read the current version, then write under it. It succeeds exactly if nobody wrote in between. */
  method StageValue(path: KvPath, value: Secret) returns (version: Option<nat>)
    modifies path
    ensures version.Some? <==> old(path.Before(1)) == []
    ensures path.history ==
      old(path.history) + old(path.Before(0)) + old(path.Before(1)) + if version.Some? then [value] else []
    ensures version.Some? ==> version.value == |path.history|
  {
    var cas := path.GetMetadata();
    version := path.PostData(value, cas);
  }

  /** Read the version wanted, read the current one, then write the value forward under it. */
  method RestoreVersion(path: KvPath, wanted: nat) returns (version: Option<nat>)
    modifies path
    ensures
      var first := old(path.history) + old(path.Before(0));
      var rest := old(path.Before(1)) + old(path.Before(2));
      if ReadAt(first, wanted).None? then version.None? && path.history == first
      else
        && (version.Some? <==> old(path.Before(2)) == [])
        && path.history == first + rest + if version.Some? then [first[wanted - 1]] else []
    ensures version.Some? ==> version.value == |path.history|
  {
    var value := path.GetData(wanted);
    if value.None? {
      return None;
    }
    var cas := path.GetMetadata();
    version := path.PostData(value.value, cas);
  }
}
