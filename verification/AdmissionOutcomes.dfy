/**
 The decision about one message, the row that keeps it and the way back. Sets are stored as sorted lists and
 enumerations as their texts.
 */
module AdmissionOutcomes {
  import opened Basics
  import opened SortedStrings

  // ----- Authorization -----

  datatype RiskLevel = Low | Normal | High | Critical

  datatype ReasonCode =
    | AccessAllowed | InvalidConversationType | InvalidConversationFacts | IdentityUnresolved | IdentityDisabled
    | UserNotAllowed | BotNotMentioned | RiskNotAllowed | PermissionScopeEmpty | SkillNotAllowed

  datatype IdentityStatus = Active | Disabled | Archived | Unresolved

  datatype ConversationType = Private | Group | Unknown(text: string)

  datatype Identity = Identity(
    resolved: bool, id: Option<string>, status: IdentityStatus, userAllowed: bool, scope: set<string>,
      skills: set<string>)

  datatype RequestFacts = RequestFacts(scope: set<string>, skills: set<string>, risk: RiskLevel)

  datatype GatewayPolicy = GatewayPolicy(scope: set<string>, skills: set<string>, risks: set<RiskLevel>)

  datatype Authorization = Authorization(
    allowed: bool, verdict: Verdict, reason: ReasonCode, identity: Option<string>, userAllowed: bool,
    isMentioned: Option<bool>, scope: set<string>, skills: set<string>, risk: RiskLevel)

  datatype Verdict = Granted | Withheld

  function Denied(reason: ReasonCode, i: Identity, isMentioned: Option<bool>, r: RequestFacts): Authorization {
    Authorization(false, Withheld, reason, i.id, i.userAllowed, isMentioned, {}, {}, r.risk)
  }

  function Narrow(granted: set<string>, requested: set<string>): set<string> {
    if requested == {} then granted else granted * requested
  }

  function EvaluateAccess(
    i: Identity, kind: ConversationType, isMentioned: Option<bool>, r: RequestFacts, p: GatewayPolicy): Authorization
  {
    var scope := Narrow(i.scope * p.scope, r.scope);
    var skills := Narrow(i.skills * p.skills, r.skills);
    if kind.Unknown? then Denied(InvalidConversationType, i, isMentioned, r)
    else if kind.Private? && isMentioned.Some? then Denied(InvalidConversationFacts, i, isMentioned, r)
    else if !i.resolved || i.id.None? || i.id.value == "" || i.status.Unresolved?
      then Denied(IdentityUnresolved, i, isMentioned, r)
    else if i.status.Disabled? || i.status.Archived? then Denied(IdentityDisabled, i, isMentioned, r)
    else if !i.userAllowed then Denied(UserNotAllowed, i, isMentioned, r)
    else if kind.Group? && isMentioned != Some(true) then Denied(BotNotMentioned, i, isMentioned, r)
    else if r.risk !in p.risks then Denied(RiskNotAllowed, i, isMentioned, r)
    else if r.scope != {} && scope == {} then Denied(PermissionScopeEmpty, i, isMentioned, r)
    else if r.skills != {} && skills == {} then Denied(SkillNotAllowed, i, isMentioned, r)
    else Authorization(true, Granted, AccessAllowed, i.id, i.userAllowed, isMentioned, scope, skills, r.risk)
  }

  // ----- The authorization snapshot -----

  function RiskText(r: RiskLevel): string {
    match r case Low => "low" case Normal => "normal" case High => "high" case Critical => "critical"
  }

  function ParseRisk(s: string): Option<RiskLevel> {
    match s
    case "low" => Some(Low)
    case "normal" => Some(Normal)
    case "high" => Some(High)
    case "critical" => Some(Critical)
    case _ => None
  }

  function CodeText(c: ReasonCode): string {
    match c
    case AccessAllowed => "allowed"
    case InvalidConversationType => "invalid_conversation_type"
    case InvalidConversationFacts => "invalid_conversation_facts"
    case IdentityUnresolved => "identity_unresolved"
    case IdentityDisabled => "identity_disabled"
    case UserNotAllowed => "user_not_allowed"
    case BotNotMentioned => "bot_not_mentioned"
    case RiskNotAllowed => "risk_not_allowed"
    case PermissionScopeEmpty => "permission_scope_empty"
    case SkillNotAllowed => "skill_not_allowed"
  }

  function ParseCode(s: string): Option<ReasonCode> {
    match s
    case "allowed" => Some(AccessAllowed)
    case "invalid_conversation_type" => Some(InvalidConversationType)
    case "invalid_conversation_facts" => Some(InvalidConversationFacts)
    case "identity_unresolved" => Some(IdentityUnresolved)
    case "identity_disabled" => Some(IdentityDisabled)
    case "user_not_allowed" => Some(UserNotAllowed)
    case "bot_not_mentioned" => Some(BotNotMentioned)
    case "risk_not_allowed" => Some(RiskNotAllowed)
    case "permission_scope_empty" => Some(PermissionScopeEmpty)
    case "skill_not_allowed" => Some(SkillNotAllowed)
    case _ => None
  }

  function VerdictText(v: Verdict): string {
    match v case Granted => "allowed" case Withheld => "denied"
  }

  function ParseVerdict(s: string): Option<Verdict> {
    match s case "allowed" => Some(Granted) case "denied" => Some(Withheld) case _ => None
  }

  datatype Snapshot = Snapshot(
    allowed: bool, decision: string, reasonCode: string, identity: Option<string>, userAllowed: bool,
    isMentioned: Option<bool>, scope: seq<string>, skills: seq<string>, riskLevel: string)

  function ToDict(a: Authorization): Snapshot {
    Snapshot(a.allowed, VerdictText(a.verdict), CodeText(a.reason), a.identity, a.userAllowed, a.isMentioned,
             Sorted(a.scope), Sorted(a.skills), RiskText(a.risk))
  }

  function Rebuild(s: Snapshot, verdict: Option<Verdict>, code: Option<ReasonCode>,
                   risk: Option<RiskLevel>): Option<Authorization> {
    if verdict.None? || code.None? || risk.None? then None
    else
      Some(Authorization(s.allowed, verdict.value, code.value, s.identity, s.userAllowed, s.isMentioned,
                         ToSet(s.scope), ToSet(s.skills), risk.value))
  }

  /** Rebuilds the authorization; a text that names no member is an error. */
  function FromSnapshot(s: Snapshot): Option<Authorization> {
    Rebuild(s, ParseVerdict(s.decision), ParseCode(s.reasonCode), ParseRisk(s.riskLevel))
  }

  lemma RiskRoundTrip(r: RiskLevel)
    ensures ParseRisk(RiskText(r)) == Some(r)
  {
  }

  lemma CodeRoundTrip(c: ReasonCode)
    ensures ParseCode(CodeText(c)) == Some(c)
  {
  }

  lemma VerdictRoundTrip(v: Verdict)
    ensures ParseVerdict(VerdictText(v)) == Some(v)
  {
  }

  lemma RebuildRestores(a: Authorization, s: Snapshot)
    requires s.allowed == a.allowed && s.identity == a.identity && s.userAllowed == a.userAllowed
      && s.isMentioned == a.isMentioned
    requires s.scope == Sorted(a.scope) && s.skills == Sorted(a.skills)
    ensures Rebuild(s, Some(a.verdict), Some(a.reason), Some(a.risk)) == Some(a)
  {
    SetRoundTrip(a.scope);
    SetRoundTrip(a.skills);
  }

  /** An authorization survives its snapshot, sets through sorted lists included. */
  lemma SnapshotRoundTrip(a: Authorization)
    ensures FromSnapshot(ToDict(a)) == Some(a)
  {
    RebuildRestores(a, ToDict(a));
    VerdictRoundTrip(a.verdict);
    RiskRoundTrip(a.risk);
    CodeRoundTrip(a.reason);
  }

  // ----- The decision about a message -----

  datatype Reason = ReasonAllowed | SelfMessage | SystemMessage | SenderUnresolved | AccessDenied | RouteUnavailable
    | LegacyUnresolved

  function ReasonText(r: Reason): string {
    match r
    case ReasonAllowed => "allowed"
    case SelfMessage => "self_message"
    case SystemMessage => "system_message"
    case SenderUnresolved => "sender_unresolved"
    case AccessDenied => "access_denied"
    case RouteUnavailable => "route_unavailable"
    case LegacyUnresolved => "legacy_unresolved"
  }

  function ParseReason(s: string): Option<Reason> {
    match s
    case "allowed" => Some(ReasonAllowed)
    case "self_message" => Some(SelfMessage)
    case "system_message" => Some(SystemMessage)
    case "sender_unresolved" => Some(SenderUnresolved)
    case "access_denied" => Some(AccessDenied)
    case "route_unavailable" => Some(RouteUnavailable)
    case "legacy_unresolved" => Some(LegacyUnresolved)
    case _ => None
  }

  /**
   `facts` is the evaluated policy document; a refused route is noted in it with the authorization it was refused for.
   */
  datatype PolicySnapshot = PolicySnapshot(facts: string, refusal: Option<(string, Snapshot)>)

  datatype Policies = Policies(
    snapshot: Option<PolicySnapshot>, gatewayId: Option<string>, gatewayUpdatedAt: Option<Time>,
    userId: Option<string>, userUpdatedAt: Option<Time>)

  datatype Route = Route(
    conversation: Option<int>, profileId: Option<string>, profileKey: Option<string>, profileReference: Option<string>,
    profileRevision: Option<int>, groupTypeId: Option<string>, groupTypeKey: Option<string>,
      threadPolicy: Option<string>)

  const NO_POLICIES := Policies(None, None, None, None, None)
  const NO_ROUTE := Route(None, None, None, None, None, None, None, None)

  datatype Outcome = Outcome(
    message: nat, admitted: bool, shouldCreateTask: bool, reason: Reason, identity: Option<string>,
    workspace: Option<string>, thread: Option<string>, authorization: Option<Authorization>, policies: Policies,
    routingMode: string, route: Route)

  datatype Candidate = Candidate(
    message: nat, kind: ConversationType, fromSystem: bool, messageType: string, sender: Option<string>, isSelf: bool,
    isMentioned: Option<bool>, request: RequestFacts)

  /** What the resolver answers: a route, a refusal it reports, or an error it lets through. */
  datatype Routing = Routed(route: Route) | Refused(code: string) | Fails

  /** Everything an evaluation reads besides the candidate. */
  datatype Environment = Environment(
    identity: Identity, gateway: GatewayPolicy, policies: Policies, facts: string, v2: bool, routing: Routing,
    workspace: string, thread: string)

  predicate Whitespace(c: char) {
    var n := c as int;
    || 9 <= n <= 13 || 28 <= n <= 32 || n == 0x85 || n == 0xA0 || n == 0x1680 || 0x2000 <= n <= 0x200A
    || n == 0x2028 || n == 0x2029 || n == 0x202F || n == 0x205F || n == 0x3000
  }

  predicate Blank(s: string) {
    forall i :: 0 <= i < |s| ==> Whitespace(s[i])
  }

  function PreprocessingDenial(c: Candidate, reason: Reason): Outcome {
    Outcome(c.message, false, false, reason, None, None, None, None, NO_POLICIES, "none", NO_ROUTE)
  }

  function Bound(c: Candidate, e: Environment, a: Authorization, mode: string, route: Route): Outcome {
    Outcome(c.message, true, true, ReasonAllowed, a.identity, Some(e.workspace), Some(e.thread), Some(a),
            e.policies.(snapshot := Some(PolicySnapshot(e.facts, None))), mode, route)
  }

  /** The decision; None where an evaluation raises instead of deciding. */
  function Admit(c: Candidate, e: Environment): Option<Outcome> {
    if c.isSelf then Some(PreprocessingDenial(c, SelfMessage))
    else if c.fromSystem || c.messageType == "system" then Some(PreprocessingDenial(c, SystemMessage))
    else if c.sender.None? || Blank(c.sender.value) then Some(PreprocessingDenial(c, SenderUnresolved))
    else
      var a := EvaluateAccess(e.identity, c.kind, c.isMentioned, c.request, e.gateway);
      if !a.allowed then
        Some(Outcome(c.message, false, false, AccessDenied, a.identity, None, None, Some(a),
                     e.policies.(snapshot := Some(PolicySnapshot(e.facts, None))), "none", NO_ROUTE))
      else if a.identity.None? then None
      else if !e.v2 then Some(Bound(c, e, a, "v1", NO_ROUTE))
      else match e.routing
        case Routed(route) => Some(Bound(c, e, a, "v2", route))
        case Refused(code) =>
          Some(Outcome(c.message, false, false, RouteUnavailable, a.identity, None, None, None,
                       e.policies.(snapshot := Some(PolicySnapshot(e.facts, Some((code, ToDict(a)))))), "v2", NO_ROUTE))
        case Fails => None
  }

  // ----- The stored row -----

  datatype State = Pending | Completed
  datatype Decision = Allowed | DecisionDenied | DecisionUnresolved
  datatype Origin = Runtime | LegacyDispatch | LegacyOrigin

  datatype Row = Row(
    message: nat, state: State, decision: Option<Decision>, origin: Origin, reason: Option<string>,
      shouldCreateTask: bool,
    requestedScope: Option<seq<string>>, requestedSkills: Option<seq<string>>, risk: Option<string>,
    authorizationReason: Option<string>, authorizationSnapshot: Option<Snapshot>, policies: Policies,
    identity: Option<string>, workspace: Option<string>, thread: Option<string>, routingMode: string, route: Route,
    attempts: nat, token: Option<Token>, lease: Option<Time>, lastError: Option<string>, completedAt: Option<Time>)

  /** The table's CHECK constraints. */
  predicate OriginChecks(r: Row) {
    && (match r.origin
        case Runtime => r.state.Pending? || r.decision == Some(Allowed) || r.decision == Some(DecisionDenied)
        case LegacyDispatch => r.state.Completed? && r.decision == Some(Allowed)
        case LegacyOrigin => r.state.Completed? && r.decision == Some(DecisionUnresolved))
    && (r.origin.Runtime? ==> r.requestedScope.Some? && r.requestedSkills.Some? && r.risk.Some?)
  }

  predicate StateChecks(r: Row) {
    && (r.token.Some? <==> r.lease.Some?)
    && (if r.state.Pending?
        then r.decision.None? && r.reason.None? && r.completedAt.None? && !r.shouldCreateTask && r.origin.Runtime?
        else r.decision.Some? && r.reason.Some? && r.completedAt.Some? && r.token.None? && r.lease.None?)
    && (r.lastError.Some? ==> exists i :: 0 <= i < |r.lastError.value| && r.lastError.value[i] != ' ')
  }

  predicate DecisionChecks(r: Row) {
    && (r.decision == Some(Allowed) ==>
          r.shouldCreateTask && r.identity.Some? && r.workspace.Some? && r.thread.Some? && r.reason == Some("allowed"))
    && (r.decision == Some(DecisionDenied) ==>
          !r.shouldCreateTask && r.workspace.None? && r.thread.None?
          && r.reason.Some? && r.reason.value !in {"allowed", "legacy_unresolved"})
    && (r.decision == Some(DecisionUnresolved) ==>
          !r.shouldCreateTask && r.workspace.None? && r.thread.None? && r.reason == Some("legacy_unresolved"))
    && r.routingMode in {"none", "v1", "v2", "legacy"}
  }

  predicate RowChecks(r: Row) {
    OriginChecks(r) && StateChecks(r) && DecisionChecks(r)
  }

  /** The first claim of a message freezes its request. */
  function PendingRow(message: nat, request: RequestFacts, token: Token, lease: Time): Row {
    Row(message, Pending, None, Runtime, None, false, Some(Sorted(request.scope)), Some(Sorted(request.skills)),
        Some(RiskText(request.risk)), None, None, NO_POLICIES, None, None, None, "none", NO_ROUTE, 1, Some(token),
          Some(lease), None, None)
  }

  function RequestOf(r: Row): Option<RequestFacts> {
    if !r.origin.Runtime? || r.requestedScope.None? || r.requestedSkills.None? || r.risk.None? then None
    else match ParseRisk(r.risk.value)
      case None => None
      case Some(risk) => Some(RequestFacts(ToSet(r.requestedScope.value), ToSet(r.requestedSkills.value), risk))
  }

  /** The frozen request is read back as it was given. */
  lemma RequestRoundTrip(message: nat, request: RequestFacts, token: Token, lease: Time)
    ensures RequestOf(PendingRow(message, request, token, lease)) == Some(request)
    ensures RowChecks(PendingRow(message, request, token, lease))
  {
    RiskRoundTrip(request.risk);
    SetRoundTrip(request.scope);
    SetRoundTrip(request.skills);
  }

  predicate Present(s: Option<string>) {
    s.Some? && s.value != ""
  }

  /** The stored decision of an outcome; None for an outcome that contradicts itself. */
  function CompletedDecision(o: Outcome): Option<Decision> {
    if o.admitted then
      if !o.reason.ReasonAllowed? || !o.shouldCreateTask
        || !(Present(o.identity) && Present(o.workspace) && Present(o.thread))
      then None else Some(Allowed)
    else if o.shouldCreateTask || o.reason.ReasonAllowed? then None
    else Some(DecisionDenied)
  }

  function Filled(r: Row, d: Decision, o: Outcome, now: Time): Row {
    r.(state := Completed, decision := Some(d), reason := Some(ReasonText(o.reason)),
      shouldCreateTask := o.shouldCreateTask,
       authorizationReason := if o.authorization.Some? then Some(CodeText(o.authorization.value.reason)) else None,
       authorizationSnapshot := if o.authorization.Some? then Some(ToDict(o.authorization.value)) else None,
       policies := o.policies,
       identity := if o.identity.None? && o.authorization.Some? then o.authorization.value.identity else o.identity,
       workspace := o.workspace, thread := o.thread, routingMode := o.routingMode, route := o.route,
       token := None, lease := None, lastError := None, completedAt := Some(now))
  }

  /** The guarded update that completes a claim; None where it raises. */
  function StageCompletion(r: Row, token: Token, o: Outcome, now: Time): Option<Row> {
    match CompletedDecision(o)
    case None => None
    case Some(d) => if r.state.Pending? && r.token == Some(token) then Some(Filled(r, d, o, now)) else None
  }

  function ToAdmissionOutcome(r: Row): Option<Outcome> {
    if !r.state.Completed? || r.decision.None? || r.reason.None? then None
    else match ParseReason(r.reason.value)
      case None => None
      case Some(reason) =>
        var a := if r.authorizationSnapshot.Some? then FromSnapshot(r.authorizationSnapshot.value) else None;
        var admitted := r.decision == Some(Allowed);
        if r.authorizationSnapshot.Some? && a.None? then None
        else if admitted != r.shouldCreateTask || admitted != reason.ReasonAllowed? then None
        else if r.decision == Some(DecisionUnresolved) && !reason.LegacyUnresolved? then None
        else if a.Some? && a.value.allowed != admitted then None
        else Some(Outcome(r.message, admitted, r.shouldCreateTask, reason, r.identity, r.workspace, r.thread, a,
          r.policies,
                          r.routingMode, r.route))
  }

  // ----- The round trip -----

  lemma ReasonRoundTrip(r: Reason)
    ensures ParseReason(ReasonText(r)) == Some(r)
    ensures ReasonText(r) == "allowed" <==> r.ReasonAllowed?
    ensures ReasonText(r) == "legacy_unresolved" <==> r.LegacyUnresolved?
  {
  }

  /** The shapes an evaluation can produce. */
  predicate WellFormed(o: Outcome) {
    && o.admitted == o.shouldCreateTask == o.reason.ReasonAllowed? && !o.reason.LegacyUnresolved?
    && (o.authorization.Some? ==>
          o.authorization.value.allowed == o.admitted && o.authorization.value.identity == o.identity)
    && (o.admitted ==> Present(o.identity) && o.workspace.Some? && o.thread.Some?)
    && (!o.admitted ==> o.workspace.None? && o.thread.None?)
    && o.routingMode in {"none", "v1", "v2"}
  }

  lemma AdmitIsWellFormed(c: Candidate, e: Environment)
    ensures Admit(c, e).Some? ==> WellFormed(Admit(c, e).value) && Admit(c, e).value.message == c.message
  {
  }

  lemma FilledChecks(r: Row, d: Decision, o: Outcome, now: Time)
    requires RowChecks(r) && r.state.Pending? && WellFormed(o) && CompletedDecision(o) == Some(d)
    ensures RowChecks(Filled(r, d, o, now))
  {
    ReasonRoundTrip(o.reason);
  }

  lemma FilledReadsBack(r: Row, d: Decision, o: Outcome, now: Time)
    requires WellFormed(o) && CompletedDecision(o) == Some(d) && r.message == o.message
    ensures ToAdmissionOutcome(Filled(r, d, o, now)) == Some(o)
  {
    ReasonRoundTrip(o.reason);
    if o.authorization.Some? { SnapshotRoundTrip(o.authorization.value); }
  }

  /**
   Every decision an evaluation reaches, whatever it read, completes its own claim with a row that satisfies the table's
   constraints and reads back as the identical decision; only an empty generated identifier could stop it.
   */
  lemma AdmissionRoundTrip(c: Candidate, e: Environment, r: Row, token: Token, now: Time)
    requires Admit(c, e).Some? && RowChecks(r) && r.message == c.message && r.state.Pending? && r.token == Some(token)
    ensures var o := Admit(c, e).value;
      var staged := StageCompletion(r, token, o, now);
      && (staged.Some? <==> (o.admitted ==> e.workspace != "" && e.thread != ""))
      && (staged.Some? ==> RowChecks(staged.value) && ToAdmissionOutcome(staged.value) == Some(o))
  {
    var o := Admit(c, e).value;
    AdmitIsWellFormed(c, e);
    if o.admitted { BoundIdentifiers(c, e); }
    if CompletedDecision(o).Some? {
      FilledChecks(r, CompletedDecision(o).value, o, now);
      FilledReadsBack(r, CompletedDecision(o).value, o, now);
    }
  }

  lemma BoundIdentifiers(c: Candidate, e: Environment)
    requires Admit(c, e).Some? && Admit(c, e).value.admitted
    ensures Admit(c, e).value.workspace == Some(e.workspace) && Admit(c, e).value.thread == Some(e.thread)
  {
  }

  /** A refused route keeps the authorization it was granted, but only inside the policy snapshot. */
  lemma RefusedRouteKeepsAuthorization(c: Candidate, e: Environment)
    requires Admit(c, e).Some? && Admit(c, e).value.reason.RouteUnavailable?
    ensures var o := Admit(c, e).value;
      && !o.admitted && o.authorization.None? && o.policies.snapshot.Some? && o.policies.snapshot.value.refusal.Some?
      && FromSnapshot(o.policies.snapshot.value.refusal.value.1)
           == Some(EvaluateAccess(e.identity, c.kind, c.isMentioned, c.request, e.gateway))
  {
    SnapshotRoundTrip(EvaluateAccess(e.identity, c.kind, c.isMentioned, c.request, e.gateway));
  }
}
