/**
 Whom an evaluation admits, stated over what it reads: a list of hurdles that a message has to clear. The list is the
 policy; the functions that decide are compared with it.
 */
module AdmissionPolicy {
  import opened Basics
  import opened AdmissionOutcomes

  datatype Hurdle =
    | NotOurOwn
    | NotFromSystem
    | SenderNamed
    | TypeKnown
    | NoMentionInPrivate
    | IdentityKnown
    | IdentityActive
    | UserAllowed
    | MentionedInGroup
    | RiskAllowed
    | ScopeMet
    | SkillsMet
    | RouteGiven

  /** The order in which the hurdles are tried. */
  function Rank(h: Hurdle): nat {
    match h
    case NotOurOwn => 0
    case NotFromSystem => 1
    case SenderNamed => 2
    case TypeKnown => 3
    case NoMentionInPrivate => 4
    case IdentityKnown => 5
    case IdentityActive => 6
    case UserAllowed => 7
    case MentionedInGroup => 8
    case RiskAllowed => 9
    case ScopeMet => 10
    case SkillsMet => 11
    case RouteGiven => 12
  }

  predicate Named(s: Option<string>) {
    s.Some? && exists k :: 0 <= k < |s.value| && !Whitespace(s.value[k])
  }

  /** Something that was asked for may be granted; asking for nothing is always met. */
  predicate Met(requested: set<string>, user: set<string>, system: set<string>) {
    requested == {} || exists x :: x in requested && x in user && x in system
  }

  predicate Clears(c: Candidate, e: Environment, h: Hurdle) {
    match h
    case NotOurOwn => !c.isSelf
    case NotFromSystem => !c.fromSystem && c.messageType != "system"
    case SenderNamed => Named(c.sender)
    case TypeKnown => c.kind.Private? || c.kind.Group?
    case NoMentionInPrivate => c.kind.Private? ==> c.isMentioned.None?
    case IdentityKnown => e.identity.resolved && Present(e.identity.id) && !e.identity.status.Unresolved?
    case IdentityActive => e.identity.status.Active?
    case UserAllowed => e.identity.userAllowed
    case MentionedInGroup => c.kind.Group? ==> c.isMentioned == Some(true)
    case RiskAllowed => c.request.risk in e.gateway.risks
    case ScopeMet => Met(c.request.scope, e.identity.scope, e.gateway.scope)
    case SkillsMet => Met(c.request.skills, e.identity.skills, e.gateway.skills)
    case RouteGiven => e.v2 ==> e.routing.Routed?
  }

  /** What a message is told that fails here: the reason, and the code of the authorization if it came that far. */
  function Refusal(h: Hurdle): (Reason, Option<ReasonCode>) {
    match h
    case NotOurOwn => (SelfMessage, None)
    case NotFromSystem => (SystemMessage, None)
    case SenderNamed => (SenderUnresolved, None)
    case TypeKnown => (AccessDenied, Some(InvalidConversationType))
    case NoMentionInPrivate => (AccessDenied, Some(InvalidConversationFacts))
    case IdentityKnown => (AccessDenied, Some(IdentityUnresolved))
    case IdentityActive => (AccessDenied, Some(IdentityDisabled))
    case UserAllowed => (AccessDenied, Some(UserNotAllowed))
    case MentionedInGroup => (AccessDenied, Some(BotNotMentioned))
    case RiskAllowed => (AccessDenied, Some(RiskNotAllowed))
    case ScopeMet => (AccessDenied, Some(PermissionScopeEmpty))
    case SkillsMet => (AccessDenied, Some(SkillNotAllowed))
    case RouteGiven => (RouteUnavailable, None)
  }

  ghost predicate ClearsAll(c: Candidate, e: Environment) {
    forall h :: Clears(c, e, h)
  }

  /** `h` is the first hurdle that the message does not clear. */
  ghost predicate FailsFirst(c: Candidate, e: Environment, h: Hurdle) {
    !Clears(c, e, h) && forall g :: Rank(g) < Rank(h) ==> Clears(c, e, g)
  }

  // ----- What is granted -----

  ghost predicate Within(granted: set<string>, requested: set<string>, user: set<string>, system: set<string>) {
    forall x :: x in granted <==> x in user && x in system && (requested == {} || x in requested)
  }

  /** An authorization that grants, for this message and this identity, exactly what user, gateway and request share. */
  ghost predicate Grants(c: Candidate, e: Environment, a: Authorization) {
    && a.allowed && a.verdict.Granted? && a.reason.AccessAllowed?
    && a.identity == e.identity.id && a.userAllowed == e.identity.userAllowed && a.isMentioned == c.isMentioned
    && a.risk == c.request.risk
    && Within(a.scope, c.request.scope, e.identity.scope, e.gateway.scope)
    && Within(a.skills, c.request.skills, e.identity.skills, e.gateway.skills)
  }

  /** An authorization that withholds everything, and says why. */
  ghost predicate Withholds(c: Candidate, e: Environment, a: Authorization, code: ReasonCode) {
    && !a.allowed && a.verdict.Withheld? && a.reason == code && a.scope == {} && a.skills == {}
    && a.identity == e.identity.id && a.userAllowed == e.identity.userAllowed && a.isMentioned == c.isMentioned
    && a.risk == c.request.risk
  }

  lemma BlankIffUnnamed(s: Option<string>)
    ensures Named(s) <==> s.Some? && !Blank(s.value)
  {
  }

  lemma NarrowIsWithin(requested: set<string>, user: set<string>, system: set<string>)
    ensures Within(Narrow(user * system, requested), requested, user, system)
    ensures Met(requested, user, system) <==> requested == {} || Narrow(user * system, requested) != {}
  {
    var granted := Narrow(user * system, requested);
    if requested != {} && granted != {} {
      var x :| x in granted;
      assert x in requested && x in user && x in system;
    }
  }

  ghost predicate ClearsEarly(c: Candidate, e: Environment) {
    Clears(c, e, NotOurOwn) && Clears(c, e, NotFromSystem) && Clears(c, e, SenderNamed)
  }

  /** The hurdles of the access evaluation, from the conversation type to the skills. */
  ghost predicate ClearsAccess(c: Candidate, e: Environment) {
    && Clears(c, e, TypeKnown) && Clears(c, e, NoMentionInPrivate) && Clears(c, e, IdentityKnown)
    && Clears(c, e, IdentityActive) && Clears(c, e, UserAllowed) && Clears(c, e, MentionedInGroup)
    && Clears(c, e, RiskAllowed) && Clears(c, e, ScopeMet) && Clears(c, e, SkillsMet)
  }

  lemma AllThree(c: Candidate, e: Environment)
    ensures ClearsAll(c, e) <==> ClearsEarly(c, e) && ClearsAccess(c, e) && Clears(c, e, RouteGiven)
  {
    if ClearsEarly(c, e) && ClearsAccess(c, e) && Clears(c, e, RouteGiven) {
      forall h ensures Clears(c, e, h) {
        match h
        case _ =>
      }
    }
  }

  lemma AccessIff(c: Candidate, e: Environment)
    ensures var a := EvaluateAccess(e.identity, c.kind, c.isMentioned, c.request, e.gateway);
      (a.allowed <==> ClearsAccess(c, e)) && (a.allowed ==> Grants(c, e, a))
  {
    NarrowIsWithin(c.request.scope, e.identity.scope, e.gateway.scope);
    NarrowIsWithin(c.request.skills, e.identity.skills, e.gateway.skills);
  }

  /** Whatever comes before a hurdle of the access evaluation is cleared. */
  lemma AccessRefused(c: Candidate, e: Environment, h: Hurdle)
    requires FailsFirst(c, e, h) && 3 <= Rank(h) < 12
    ensures var a := EvaluateAccess(e.identity, c.kind, c.isMentioned, c.request, e.gateway);
      Refusal(h).1.Some? && Withholds(c, e, a, Refusal(h).1.value)
  {
    NarrowIsWithin(c.request.scope, e.identity.scope, e.gateway.scope);
    NarrowIsWithin(c.request.skills, e.identity.skills, e.gateway.skills);
    assert 3 < Rank(h) ==> Clears(c, e, TypeKnown);
    assert 4 < Rank(h) ==> Clears(c, e, NoMentionInPrivate);
    assert 5 < Rank(h) ==> Clears(c, e, IdentityKnown);
    assert 6 < Rank(h) ==> Clears(c, e, IdentityActive);
    assert 7 < Rank(h) ==> Clears(c, e, UserAllowed);
    assert 8 < Rank(h) ==> Clears(c, e, MentionedInGroup);
    assert 9 < Rank(h) ==> Clears(c, e, RiskAllowed);
    assert 10 < Rank(h) ==> Clears(c, e, ScopeMet);
  }

  // ----- The decision -----

  /** Everything an admitted message gets: its identity's authorization, its place and its route. */
  ghost predicate Admits(c: Candidate, e: Environment, o: Outcome) {
    && o.message == c.message && o.admitted && o.shouldCreateTask && o.reason.ReasonAllowed?
    && o.identity == e.identity.id && o.workspace == Some(e.workspace) && o.thread == Some(e.thread)
    && o.authorization.Some? && Grants(c, e, o.authorization.value)
    && o.policies == e.policies.(snapshot := Some(PolicySnapshot(e.facts, None)))
    && (if e.v2 then o.routingMode == "v2" && e.routing == Routed(o.route)
        else o.routingMode == "v1" && o.route == NO_ROUTE)
  }

  /** A message that never came to an evaluation: nothing about it is known. */
  ghost predicate Unevaluated(o: Outcome) {
    o.identity.None? && o.routingMode == "none" && o.authorization.None? && o.policies == NO_POLICIES
  }

  ghost predicate AccessWithheld(c: Candidate, e: Environment, code: ReasonCode, o: Outcome) {
    && o.identity == e.identity.id && o.routingMode == "none"
    && o.authorization.Some? && Withholds(c, e, o.authorization.value, code)
    && o.policies == e.policies.(snapshot := Some(PolicySnapshot(e.facts, None)))
  }

  /** The policy document keeps the code of the refused route and the authorization it was refused for. */
  ghost predicate RouteRefused(c: Candidate, e: Environment, o: Outcome) {
    && o.identity == e.identity.id && o.routingMode == "v2" && o.authorization.None? && e.routing.Refused?
    && o.policies.snapshot.Some? && o.policies == e.policies.(snapshot := o.policies.snapshot)
    && var s := o.policies.snapshot.value;
    && s.facts == e.facts && s.refusal.Some? && s.refusal.value.0 == e.routing.code
    && FromSnapshot(s.refusal.value.1).Some? && Grants(c, e, FromSnapshot(s.refusal.value.1).value)
  }

  /** Everything a message gets that fails at hurdle `h`: no place, no route, and the reason. */
  ghost predicate Denies(c: Candidate, e: Environment, h: Hurdle, o: Outcome) {
    && o.message == c.message && !o.admitted && !o.shouldCreateTask && o.reason == Refusal(h).0
    && o.workspace.None? && o.thread.None? && o.route == NO_ROUTE
    && (if h.RouteGiven? then RouteRefused(c, e, o)
        else match Refusal(h).1 case None => Unevaluated(o) case Some(code) => AccessWithheld(c, e, code, o))
  }

  /** A message is admitted exactly when it clears every hurdle, and is then given what it may have and no more. */
  lemma AdmittedIff(c: Candidate, e: Environment)
    ensures (Admit(c, e).Some? && Admit(c, e).value.admitted) <==> ClearsAll(c, e)
    ensures ClearsAll(c, e) ==> Admits(c, e, Admit(c, e).value)
  {
    AccessIff(c, e);
    AllThree(c, e);
    BlankIffUnnamed(c.sender);
  }

  /** An evaluation raises exactly when nothing but the route is in question and the resolver fails. */
  lemma RaisesIff(c: Candidate, e: Environment)
    ensures Admit(c, e).None? <==> FailsFirst(c, e, RouteGiven) && e.routing.Fails?
  {
    AccessIff(c, e);
    BlankIffUnnamed(c.sender);
    BeforeTheRoute(c, e);
  }

  lemma BeforeTheRoute(c: Candidate, e: Environment)
    ensures FailsFirst(c, e, RouteGiven) <==> ClearsEarly(c, e) && ClearsAccess(c, e) && !Clears(c, e, RouteGiven)
  {
    if ClearsEarly(c, e) && ClearsAccess(c, e) {
      forall g | Rank(g) < Rank(RouteGiven) ensures Clears(c, e, g) {
        match g
        case _ =>
      }
    }
  }

  /** A message that is denied is told of the first hurdle it does not clear. */
  lemma DeniedAtFirst(c: Candidate, e: Environment, h: Hurdle)
    requires FailsFirst(c, e, h) && Admit(c, e).Some?
    ensures Denies(c, e, h, Admit(c, e).value)
  {
    BlankIffUnnamed(c.sender);
    if Rank(h) < 3 {
      DeniedEarly(c, e, h);
    } else if Rank(h) < 12 {
      DeniedAccess(c, e, h);
    } else {
      DeniedRoute(c, e);
    }
  }

  lemma DeniedEarly(c: Candidate, e: Environment, h: Hurdle)
    requires FailsFirst(c, e, h) && Rank(h) < 3
    ensures Admit(c, e).Some? && Denies(c, e, h, Admit(c, e).value)
  {
    BlankIffUnnamed(c.sender);
    assert 0 < Rank(h) ==> Clears(c, e, NotOurOwn);
    assert 1 < Rank(h) ==> Clears(c, e, NotFromSystem);
  }

  lemma DeniedAccess(c: Candidate, e: Environment, h: Hurdle)
    requires FailsFirst(c, e, h) && 3 <= Rank(h) < 12
    ensures Admit(c, e).Some? && Denies(c, e, h, Admit(c, e).value)
  {
    BlankIffUnnamed(c.sender);
    AccessRefused(c, e, h);
    assert Clears(c, e, NotOurOwn) && Clears(c, e, NotFromSystem) && Clears(c, e, SenderNamed);
  }

  lemma DeniedRoute(c: Candidate, e: Environment)
    requires FailsFirst(c, e, RouteGiven) && Admit(c, e).Some?
    ensures Denies(c, e, RouteGiven, Admit(c, e).value)
  {
    RouteReached(c, e);
    AccessIff(c, e);
    RefusedRouteKeepsAuthorization(c, e);
  }

  lemma RouteReached(c: Candidate, e: Environment)
    requires FailsFirst(c, e, RouteGiven) && Admit(c, e).Some?
    ensures EvaluateAccess(e.identity, c.kind, c.isMentioned, c.request, e.gateway).allowed && e.routing.Refused?
    ensures exists s ::
      Admit(c, e).value
        == Outcome(c.message, false, false, RouteUnavailable, e.identity.id, None, None, None,
                   e.policies.(snapshot := Some(PolicySnapshot(e.facts, Some((e.routing.code, s))))), "v2", NO_ROUTE)
  {
    BlankIffUnnamed(c.sender);
    BeforeTheRoute(c, e);
    AccessIff(c, e);
    var s := ToDict(EvaluateAccess(e.identity, c.kind, c.isMentioned, c.request, e.gateway));
    assert Admit(c, e).value == Outcome(c.message, false, false, RouteUnavailable, e.identity.id, None, None, None,
      e.policies.(snapshot := Some(PolicySnapshot(e.facts, Some((e.routing.code, s))))), "v2", NO_ROUTE);
  }

  /** Whoever does not clear every hurdle fails at a first one. */
  lemma SomeHurdleFails(c: Candidate, e: Environment, h: Hurdle)
    requires !Clears(c, e, h)
    ensures exists g :: FailsFirst(c, e, g)
    decreases Rank(h)
  {
    if !FailsFirst(c, e, h) {
      var g :| Rank(g) < Rank(h) && !Clears(c, e, g);
      SomeHurdleFails(c, e, g);
    }
  }
}
