/**
Scope: an allowlist per backend, with deny rules that always win.
*/
module Scope {
  import opened Wrappers
  import opened Encoding
  import opened Glob

  datatype Rules = Rules(allow: seq<Bytes>, deny: seq<Bytes>)

  datatype Scope = Scope(backends: seq<(Bytes, Rules)>)

  datatype SecretRef = SecretRef(backend: Bytes, path: Bytes)

  datatype Denial = UnknownBackend(backend: Bytes) | DeniedByRule(pattern: Bytes) | NotAllowed

  /** A reference the scope has let through. */
  datatype ScopedRef = ScopedRef(inner: SecretRef)

  /** Add an entry for a backend, after those already there. */
  function WithBackend(scope: Scope, backend: Bytes, rules: Rules): Scope {
    Scope(scope.backends + [(backend, rules)])
  }

  function FindRules(backends: seq<(Bytes, Rules)>, backend: Bytes): Option<Rules> {
    if backends == [] then None
    else if backends[0].0 == backend then Some(backends[0].1)
    else FindRules(backends[1..], backend)
  }

  function FirstMatch(patterns: seq<Bytes>, path: Bytes): Option<Bytes> {
    if patterns == [] then None
    else if GlobMatch(patterns[0], path) then Some(patterns[0])
    else FirstMatch(patterns[1..], path)
  }

  /** Whether a reference is in scope; None when it is. */
  function Decide(scope: Scope, r: SecretRef): Option<Denial> {
    match FindRules(scope.backends, r.backend)
    case None => Some(UnknownBackend(r.backend))
    case Some(rules) =>
      match FirstMatch(rules.deny, r.path)
      case Some(pattern) => Some(DeniedByRule(pattern))
      case None => if FirstMatch(rules.allow, r.path).Some? then None else Some(NotAllowed)
  }

  function Authorize(scope: Scope, r: SecretRef): Result<ScopedRef, (SecretRef, Denial)> {
    match Decide(scope, r)
    case None => Success(ScopedRef(r))
    case Some(denial) => Failure((r, denial))
  }

  function AuthorizeAll(scope: Scope, refs: seq<SecretRef>): seq<ScopedRef> {
    if refs == [] then [] else
    match Authorize(scope, refs[0])
    case Success(scoped) => [scoped] + AuthorizeAll(scope, refs[1..])
    case Failure(_) => AuthorizeAll(scope, refs[1..])
  }

  // ---- what the decision means ----

  predicate Matched(patterns: seq<Bytes>, path: Bytes) {
    exists i :: 0 <= i < |patterns| && GlobMatch(patterns[i], path)
  }

  /** Entry `i` is the one consulted for the backend: no earlier entry names it. */
  predicate Consulted(scope: Scope, backend: Bytes, i: nat) {
    && i < |scope.backends|
    && scope.backends[i].0 == backend
    && forall j :: 0 <= j < i ==> scope.backends[j].0 != backend
  }

  lemma {:induction false} FirstMatchMeans(patterns: seq<Bytes>, path: Bytes)
    ensures FirstMatch(patterns, path).Some? <==> Matched(patterns, path)
    ensures FirstMatch(patterns, path).Some? ==>
      FirstMatch(patterns, path).value in patterns && GlobMatch(FirstMatch(patterns, path).value, path)
  {
    hide GlobMatch;
    if patterns != [] {
      FirstMatchMeans(patterns[1..], path);
      if Matched(patterns[1..], path) {
        var i :| 0 <= i < |patterns| - 1 && GlobMatch(patterns[1..][i], path);
        assert patterns[i + 1] == patterns[1..][i];
      }
      if i :| 0 <= i < |patterns| && GlobMatch(patterns[i], path) {
        assert i > 0 ==> patterns[1..][i - 1] == patterns[i];
      }
    }
  }

  lemma {:induction false} FindRulesMeans(scope: Scope, backend: Bytes)
    returns (i: nat)
    ensures FindRules(scope.backends, backend).Some? <==> Consulted(scope, backend, i)
    ensures Consulted(scope, backend, i) ==> FindRules(scope.backends, backend) == Some(scope.backends[i].1)
    ensures FindRules(scope.backends, backend).None? ==>
      forall j :: 0 <= j < |scope.backends| ==> scope.backends[j].0 != backend
    decreases |scope.backends|
  {
    i := 0;
    if scope.backends != [] && scope.backends[0].0 != backend {
      i := FindRulesMeans(Scope(scope.backends[1..]), backend);
      i := i + 1;
      assert forall j :: 0 < j < |scope.backends| ==> scope.backends[j] == scope.backends[1..][j - 1];
    }
  }

  lemma ConsultedIsUnique(scope: Scope, backend: Bytes, i: nat, j: nat)
    requires Consulted(scope, backend, i) && Consulted(scope, backend, j)
    ensures i == j
  {}

  /** In scope exactly when the first entry for the backend allows the path and does not deny it. */
  lemma InScopeMeans(scope: Scope, r: SecretRef)
    ensures Decide(scope, r).None? <==>
      exists i: nat :: Consulted(scope, r.backend, i)
        && Matched(scope.backends[i].1.allow, r.path) && !Matched(scope.backends[i].1.deny, r.path)
  {
    hide Matched, Consulted, FindRules, FirstMatch;
    var k := FindRulesMeans(scope, r.backend);
    if Consulted(scope, r.backend, k) {
      InBounds(scope, r.backend, k);
      var rules := scope.backends[k].1;
      FirstMatchMeans(rules.allow, r.path);
      FirstMatchMeans(rules.deny, r.path);
    }
    forall i: nat | Consulted(scope, r.backend, i)
      ensures i == k && i < |scope.backends|
    {
      SomeEntryFound(scope, r.backend, i);
      ConsultedIsUnique(scope, r.backend, i, k);
      InBounds(scope, r.backend, i);
    }
  }

  lemma InBounds(scope: Scope, backend: Bytes, i: nat)
    requires Consulted(scope, backend, i)
    ensures i < |scope.backends|
  {}

  lemma SomeEntryFound(scope: Scope, backend: Bytes, i: nat)
    requires Consulted(scope, backend, i)
    ensures FindRules(scope.backends, backend).Some?
  {
    var k := FindRulesMeans(scope, backend);
  }

  /** A reference is refused by a rule only if that rule matches it, and for no rules only if there are none. */
  lemma RefusalsAreTrue(scope: Scope, r: SecretRef)
    ensures Decide(scope, r) == Some(UnknownBackend(r.backend)) <==>
      forall j :: 0 <= j < |scope.backends| ==> scope.backends[j].0 != r.backend
    ensures Decide(scope, r).Some? && Decide(scope, r).value.DeniedByRule? ==>
      exists i: nat :: Consulted(scope, r.backend, i)
        && Decide(scope, r).value.pattern in scope.backends[i].1.deny
        && GlobMatch(Decide(scope, r).value.pattern, r.path)
  {
    hide GlobMatch;
    var k := FindRulesMeans(scope, r.backend);
    if Consulted(scope, r.backend, k) {
      FirstMatchMeans(scope.backends[k].1.deny, r.path);
    }
  }

  /** Pattern `k` is the first that matches. */
  predicate MatchesFirst(patterns: seq<Bytes>, path: Bytes, k: nat) {
    && k < |patterns| && GlobMatch(patterns[k], path)
    && forall j :: 0 <= j < k ==> !GlobMatch(patterns[j], path)
  }

  lemma {:induction false} FirstMatchIs(patterns: seq<Bytes>, path: Bytes, k: nat)
    requires MatchesFirst(patterns, path, k)
    ensures FirstMatch(patterns, path) == Some(patterns[k])
  {
    hide GlobMatch;
    if k > 0 {
      assert !GlobMatch(patterns[0], path);
      FirstMatchIs(patterns[1..], path, k - 1);
    }
  }

  lemma {:induction false} SomeMatchesFirst(patterns: seq<Bytes>, path: Bytes) returns (k: nat)
    requires Matched(patterns, path)
    ensures MatchesFirst(patterns, path, k)
  {
    hide GlobMatch;
    var i :| 0 <= i < |patterns| && GlobMatch(patterns[i], path);
    k := i;
    for n := 0 to i
      invariant forall j :: 0 <= j < n ==> !GlobMatch(patterns[j], path)
    {
      if GlobMatch(patterns[n], path) {
        return n;
      }
    }
  }

  /**
  The answer for a backend with an entry, in full: refused under the first deny pattern that
  matches, whatever is allowed; refused as not allowed when no pattern of either kind matches;
  and let through otherwise, as the reference it was asked for.
  */
  lemma AuthorizeIs(scope: Scope, r: SecretRef, i: nat)
    requires Consulted(scope, r.backend, i)
    ensures
      var allow, deny := scope.backends[i].1.allow, scope.backends[i].1.deny;
      && (forall k: nat :: MatchesFirst(deny, r.path, k) ==> Authorize(scope, r) == Failure((r, DeniedByRule(deny[k]))))
      && (Matched(deny, r.path) ==> exists k: nat :: MatchesFirst(deny, r.path, k))
      && (!Matched(deny, r.path) && !Matched(allow, r.path) <==> Authorize(scope, r) == Failure((r, NotAllowed)))
      && (!Matched(deny, r.path) && Matched(allow, r.path) <==> Authorize(scope, r) == Success(ScopedRef(r)))
  {
    hide GlobMatch, FirstMatch;
    DecideAt(scope, r, i);
    var allow, deny := scope.backends[i].1.allow, scope.backends[i].1.deny;
    FirstMatchMeans(allow, r.path);
    FirstMatchMeans(deny, r.path);
    var k := FindRulesMeans(scope, r.backend);
    SomeEntryFound(scope, r.backend, i);
    ConsultedIsUnique(scope, r.backend, i, k);
    forall m: nat | MatchesFirst(deny, r.path, m)
      ensures FirstMatch(deny, r.path) == Some(deny[m])
    {
      FirstMatchIs(deny, r.path, m);
    }
    if Matched(deny, r.path) {
      var _ := SomeMatchesFirst(deny, r.path);
    }
  }

  /** One more deny pattern in the consulted entry removes exactly the references it matches. */
  lemma DenyOnlyRemoves(scope: Scope, r: SecretRef, i: nat, at: nat, pattern: Bytes)
    requires Consulted(scope, r.backend, i) && at <= |scope.backends[i].1.deny|
    ensures
      var rules := scope.backends[i].1;
      var deny := rules.deny[..at] + [pattern] + rules.deny[at..];
      var stricter := Scope(scope.backends[i := (r.backend, Rules(rules.allow, deny))]);
      Decide(stricter, r).None? <==> Decide(scope, r).None? && !GlobMatch(pattern, r.path)
  {
    hide GlobMatch;
    var rules := scope.backends[i].1;
    var deny := rules.deny[..at] + [pattern] + rules.deny[at..];
    var stricter := Scope(scope.backends[i := (r.backend, Rules(rules.allow, deny))]);
    DecideAt(scope, r, i);
    assert Consulted(stricter, r.backend, i);
    DecideAt(stricter, r, i);
    InsertMatched(rules.deny, at, pattern, r.path);
  }

  lemma DecideAt(scope: Scope, r: SecretRef, i: nat)
    requires Consulted(scope, r.backend, i)
    ensures Decide(scope, r).None? <==>
      Matched(scope.backends[i].1.allow, r.path) && !Matched(scope.backends[i].1.deny, r.path)
  {
    hide GlobMatch, Matched;
    var k := FindRulesMeans(scope, r.backend);
    FirstMatchMeans(scope.backends[i].1.allow, r.path);
    FirstMatchMeans(scope.backends[i].1.deny, r.path);
  }

  lemma InsertMatched(patterns: seq<Bytes>, at: nat, pattern: Bytes, path: Bytes)
    requires at <= |patterns|
    ensures Matched(patterns[..at] + [pattern] + patterns[at..], path) <==>
      Matched(patterns, path) || GlobMatch(pattern, path)
  {
    hide GlobMatch;
    var longer := patterns[..at] + [pattern] + patterns[at..];
    assert longer[at] == pattern;
    assert forall i :: 0 <= i < at ==> longer[i] == patterns[i];
    assert forall i :: at <= i < |patterns| ==> patterns[i] == longer[i + 1];
    if i :| 0 <= i < |longer| && GlobMatch(longer[i], path) {
      assert i > at ==> longer[i] == patterns[i - 1];
    }
  }

  /**
  Adding an entry changes decisions only for a backend that had none: rules given for it
  again, deny rules included, are never consulted.
  */
  lemma LaterEntriesAreIgnored(scope: Scope, backend: Bytes, rules: Rules, r: SecretRef)
    ensures
      var covered := FindRules(scope.backends, backend).Some?;
      Decide(WithBackend(scope, backend, rules), r) ==
        if covered || r.backend != backend then Decide(scope, r) else Decide(Scope([(backend, rules)]), r)
  {
    FindAppended(scope.backends, backend, rules, r.backend);
  }

  lemma {:induction false} FindAppended(backends: seq<(Bytes, Rules)>, backend: Bytes, rules: Rules, wanted: Bytes)
    ensures FindRules(backends + [(backend, rules)], wanted) ==
      if FindRules(backends, wanted).Some? then FindRules(backends, wanted)
      else if backend == wanted then Some(rules) else None
  {
    if backends != [] {
      FindAppended(backends[1..], backend, rules, wanted);
      assert (backends + [(backend, rules)])[1..] == backends[1..] + [(backend, rules)];
    } else {
      assert FindRules([(backend, rules)][1..], wanted) == None;
    }
  }

  /** So a deny rule added in a second entry denies nothing: everything stays authorized. */
  lemma SecondDenyHasNoEffect(backend: Bytes, path: Bytes)
    ensures
      var open := Scope([(backend, Rules([DOUBLE_STAR], []))]);
      var denied := WithBackend(open, backend, Rules([], [DOUBLE_STAR]));
      Decide(open, SecretRef(backend, path)).None? && Decide(denied, SecretRef(backend, path)).None?
  {
    var open := Scope([(backend, Rules([DOUBLE_STAR], []))]);
    DoubleStarMatchesAll(path);
    assert FirstMatch([DOUBLE_STAR], path).Some?;
    LaterEntriesAreIgnored(open, backend, Rules([], [DOUBLE_STAR]), SecretRef(backend, path));
  }

  lemma DoubleStarMatchesAll(path: Bytes)
    ensures GlobMatch(DOUBLE_STAR, path)
  {
    JoinInverts([DOUBLE_STAR]);
    assert Join([DOUBLE_STAR]) == DOUBLE_STAR;
    var segments := Split(path);
    assert segments[|segments|..] == [];
    assert [DOUBLE_STAR][1..] == [];
    assert Denotes(IsDoubleStar, Wild, [], segments[|segments|..]);
  }

  /** The references let through and nothing else. */
  lemma {:induction false} AuthorizeAllFilters(scope: Scope, refs: seq<SecretRef>, s: ScopedRef)
    ensures s in AuthorizeAll(scope, refs) <==> s.inner in refs && Decide(scope, s.inner).None?
  {
    hide Decide;
    if refs != [] {
      AuthorizeAllFilters(scope, refs[1..], s);
    }
  }

  /** In their order: what is let through of two lists is let through of one and then of the other. */
  lemma {:induction false} AuthorizeAllKeepsOrder(scope: Scope, refs: seq<SecretRef>, more: seq<SecretRef>)
    ensures AuthorizeAll(scope, refs + more) == AuthorizeAll(scope, refs) + AuthorizeAll(scope, more)
  {
    hide Decide;
    if refs != [] {
      AuthorizeAllKeepsOrder(scope, refs[1..], more);
      assert (refs + more)[1..] == refs[1..] + more;
    } else {
      assert refs + more == more;
    }
  }
}
