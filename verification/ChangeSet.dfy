/** Change sets: risk and approval, the bound plan, and append-once approvals and receipts. */
module ChangeSet {
  import opened Text
  import opened Json
  import O = ChangeOrder

  // ------------------------------------------------------------ risk and approval

  datatype Risk =
    | ReadOnly | RecordMutation | WorkflowBusinessState | MetadataUi | ExecutableIntegration | SecurityPermission
    | Destructive

  datatype ApprovalClass = NoApproval | Policy | ExplicitScoped | DualControl

  datatype Surface =
    | Record | Doctype | CustomField | PropertySetter | FrappeWorkflow | Workspace | WorkspaceSidebar | Page | WebPage
    | WebForm
    | Dashboard | DashboardChart | NumberCard | Report | PrintFormat | ClientScript | ServerScript | Notification
    | AssignmentRule
    | Webhook | EmailTemplate | LetterHead | Role | Permission

  datatype Verb = Read | Create | Update | Delete | Submit | Cancel | ApplyWorkflow | Enable | Disable | Install
    | Uninstall

  function RiskRank(risk: Risk): nat {
    match risk
    case ReadOnly => 0
    case RecordMutation => 1
    case WorkflowBusinessState => 2
    case MetadataUi => 3
    case ExecutableIntegration => 4
    case SecurityPermission => 5
    case Destructive => 6
  }

  function ApprovalRank(approval: ApprovalClass): nat {
    match approval
    case NoApproval => 0
    case Policy => 1
    case ExplicitScoped => 2
    case DualControl => 3
  }

  function MaxRisk(left: Risk, right: Risk): Risk {
    if RiskRank(left) >= RiskRank(right) then left else right
  }

  predicate IsExecutable(s: Surface) {
    s.ClientScript? || s.ServerScript? || s.Webhook? || s.WebPage? || s.WebForm? || s.Report? || s.PrintFormat?
  }

  predicate IsMetadata(s: Surface) {
    || s.Doctype? || s.CustomField? || s.PropertySetter? || s.FrappeWorkflow? || s.Workspace? || s.WorkspaceSidebar?
    || s.Page?
    || s.Dashboard? || s.DashboardChart? || s.NumberCard? || s.Notification? || s.AssignmentRule? || s.EmailTemplate?
    || s.LetterHead?
  }

  /** `inferFrappeOperationRisk`. */
  function InferRisk(surface: Surface, verb: Verb): Risk {
    if verb.Read? then ReadOnly
    else if verb.Delete? || verb.Uninstall? then Destructive
    else if surface.Role? || surface.Permission? then SecurityPermission
    else if IsExecutable(surface) then ExecutableIntegration
    else if surface.FrappeWorkflow? || verb.Submit? || verb.Cancel? || verb.ApplyWorkflow? then WorkflowBusinessState
    else if IsMetadata(surface) then MetadataUi
    else RecordMutation
  }

  /** `requiredFrappeApproval`. */
  function RequiredApproval(risk: Risk): ApprovalClass {
    if RiskRank(risk) >= RiskRank(MetadataUi) then ExplicitScoped
    else if risk.WorkflowBusinessState? || risk.RecordMutation? then Policy
    else NoApproval
  }

  /** A greater risk never requires less approval. */
  lemma ApprovalMonotone(a: Risk, b: Risk)
    requires RiskRank(a) <= RiskRank(b)
    ensures ApprovalRank(RequiredApproval(a)) <= ApprovalRank(RequiredApproval(b))
  {
  }

  // -------------------------------------------------------------------- the data

  datatype Receipt = Receipt(
    receiptId: string, changeSetId: string, operationId: string, planHash: string, site: string, actor: string,
    permissionEpoch: string, schemaRevision: string, dataRevision: string, idempotencyKey: string,
    beforeHash: string, afterHash: string, applied: bool, executor: string, appliedAt: string, evidenceIds: seq<string>)

  datatype Strategy = Inverse | ForwardRepair | Manual

  /** An operation without its id and dependencies; `rest` holds the members no rule looks at. */
  datatype Body = Body(
    surface: Surface, verb: Verb, doctype: string, idempotencyKey: string, before: Json, after: Json,
      token: Option<string>,
    risk: Risk, postconditions: seq<Json>, strategy: Strategy, repairs: seq<Json>, rest: Json, receipt: Option<Receipt>)

  type Operation = O.Node<Body>

  datatype Rule = Rule(id: string, operationId: string, assertion: Json)

  datatype Approval = Approval(
    planHash: string, actor: string, approver: string, site: string, permissionEpoch: string, scope: seq<string>,
    approvedAt: string, expiresAt: string)

  datatype ChangeSet = ChangeSet(
    id: string, site: string, app: string, actor: string, permissionEpoch: string, schemaRevision: string,
      dataRevision: string,
    createdAt: string, risk: Risk, approvalClass: ApprovalClass, prerequisites: seq<Json>, operations: seq<Operation>,
    verification: seq<Rule>, approval: Option<Approval>, evidenceIds: seq<string>, planHash: string)

  /** `Date.parse`; None stands for NaN. */
  type Parse = string -> Option<int>

  // ----------------------------------------------------------------- the plan hash

  function Texts(s: seq<string>): seq<Json> {
    seq(|s|, i requires 0 <= i < |s| => Str(s[i]))
  }

  function SurfaceText(s: Surface): string {
    match s
    case Record => "record" case Doctype => "doctype" case CustomField => "custom_field"
    case PropertySetter => "property_setter"
    case FrappeWorkflow => "frappe_workflow" case Workspace => "workspace" case WorkspaceSidebar => "workspace_sidebar"
    case Page => "page" case WebPage => "web_page" case WebForm => "web_form" case Dashboard => "dashboard"
    case DashboardChart => "dashboard_chart" case NumberCard => "number_card" case Report => "report"
    case PrintFormat => "print_format" case ClientScript => "client_script" case ServerScript => "server_script"
    case Notification => "notification" case AssignmentRule => "assignment_rule" case Webhook => "webhook"
    case EmailTemplate => "email_template" case LetterHead => "letter_head" case Role => "role"
    case Permission => "permission"
  }

  function VerbText(v: Verb): string {
    match v
    case Read => "read" case Create => "create" case Update => "update" case Delete => "delete" case Submit => "submit"
    case Cancel => "cancel" case ApplyWorkflow => "apply_workflow" case Enable => "enable" case Disable => "disable"
    case Install => "install" case Uninstall => "uninstall"
  }

  function RiskText(r: Risk): string {
    match r
    case ReadOnly => "read_only" case RecordMutation => "record_mutation"
    case WorkflowBusinessState => "workflow_business_state"
    case MetadataUi => "metadata_ui" case ExecutableIntegration => "executable_integration"
    case SecurityPermission => "security_permission" case Destructive => "destructive"
  }

  function ApprovalText(a: ApprovalClass): string {
    match a
    case NoApproval => "none" case Policy => "policy" case ExplicitScoped => "explicit_scoped"
    case DualControl => "dual_control"
  }

  function StrategyText(s: Strategy): string {
    match s
    case Inverse => "inverse" case ForwardRepair => "forward_repair" case Manual => "manual"
  }

  /** An operation as the plan hash sees it: without its receipt. */
  function OperationIntent(op: Operation): Json {
    var b := op.value;
    Obj([
      Member("id", Str(op.id)), Member("dependsOn", Arr(Texts(op.dependsOn))),
        Member("surface", Str(SurfaceText(b.surface))),
      Member("action", Str(VerbText(b.verb))), Member("doctype", Str(b.doctype)),
        Member("idempotencyKey", Str(b.idempotencyKey)),
      Member("before", b.before), Member("after", b.after), Member("riskClass", Str(RiskText(b.risk))),
      Member("postconditions", Arr(b.postconditions)), Member("strategy", Str(StrategyText(b.strategy))),
      Member("repairs", Arr(b.repairs)), Member("rest", b.rest)
    ] + if b.token.Some? then [Member("concurrencyToken", Str(b.token.value))] else [])
  }

  function OperationIntents(ops: seq<Operation>): (r: seq<Json>)
    ensures |r| == |ops| && forall i :: 0 <= i < |ops| ==> r[i] == OperationIntent(ops[i])
  {
    if ops == [] then [] else [OperationIntent(ops[0])] + OperationIntents(ops[1..])
  }

  function RuleJson(r: Rule): Json {
    Obj([Member("id", Str(r.id)), Member("operationId", Str(r.operationId)), Member("assertion", r.assertion)])
  }

  function RuleJsons(rules: seq<Rule>): seq<Json> {
    if rules == [] then [] else [RuleJson(rules[0])] + RuleJsons(rules[1..])
  }

  function IntentMembers(cs: ChangeSet): (r: seq<Member>)
    ensures |r| == 14
  {
    [ Member("schemaVersion", Num(1)), Member("id", Str(cs.id)), Member("site", Str(cs.site)),
      Member("app", Str(cs.app)),
      Member("actor", Str(cs.actor)), Member("permissionEpoch", Str(cs.permissionEpoch)),
      Member("schemaRevision", Str(cs.schemaRevision)), Member("dataRevision", Str(cs.dataRevision)),
      Member("createdAt", Str(cs.createdAt)), Member("riskClass", Str(RiskText(cs.risk))),
      Member("approvalClass", Str(ApprovalText(cs.approvalClass))), Member("prerequisites", Arr(cs.prerequisites)),
      Member("operations", Arr(OperationIntents(cs.operations))),
        Member("verification", Arr(RuleJsons(cs.verification))) ]
  }

  /** `planIntent`. */
  function PlanIntent(cs: ChangeSet): Json {
    Obj(IntentMembers(cs))
  }

  /** `computeFrappeChangeSetPlanHash`: the canonical text, standing for its hash, or the TypeError. */
  function PlanHash(cs: ChangeSet): Result<string, string> {
    CanonicalJson(PlanIntent(cs))
  }

  /** Equal plan hashes mean equal plan intents. */
  lemma PlanHashBinds(a: ChangeSet, b: ChangeSet)
    requires PlanHash(a).Ok? && PlanHash(b).Ok?
    ensures PlanHash(a) == PlanHash(b) <==> SameValue(PlanIntent(a), PlanIntent(b))
  {
    CanonicalJsonInjective(PlanIntent(a), PlanIntent(b));
  }

  lemma IntentKeys(a: ChangeSet, b: ChangeSet, i: nat)
    requires i < 14
    ensures IntentMembers(a)[i].key == IntentMembers(b)[i].key
  {
  }

  lemma HashedIntent(cs: ChangeSet)
    requires PlanHash(cs).Ok?
    ensures DistinctKeys(IntentMembers(cs))
  {
    assert Canonicalizable(PlanIntent(cs));
  }

  lemma IntentPart(a: ChangeSet, b: ChangeSet, i: nat)
    requires PlanHash(a).Ok? && PlanHash(a) == PlanHash(b) && i < 14
    ensures SameValue(IntentMembers(a)[i].value, IntentMembers(b)[i].value)
  {
    PlanHashBinds(a, b);
    HashedIntent(b);
    IntentKeys(a, b, i);
    PlacesAgree(IntentMembers(a), IntentMembers(b), i);
  }

  /** So they bind the id, the site, the actor, the epoch and the revisions, ... */
  lemma PlanHashBindsScope(a: ChangeSet, b: ChangeSet)
    requires PlanHash(a).Ok? && PlanHash(a) == PlanHash(b)
    ensures a.id == b.id && a.site == b.site && a.app == b.app && a.actor == b.actor
      && a.permissionEpoch == b.permissionEpoch
    ensures a.schemaRevision == b.schemaRevision && a.dataRevision == b.dataRevision && a.createdAt == b.createdAt
  {
    IntentPart(a, b, 1);
    IntentPart(a, b, 2);
    IntentPart(a, b, 3);
    IntentPart(a, b, 4);
    IntentPart(a, b, 5);
    IntentPart(a, b, 6);
    IntentPart(a, b, 7);
    IntentPart(a, b, 8);
  }

  /** ... and each operation in its place. */
  lemma PlanHashBindsOperations(a: ChangeSet, b: ChangeSet)
    requires PlanHash(a).Ok? && PlanHash(a) == PlanHash(b)
    ensures |a.operations| == |b.operations|
    ensures forall i :: 0 <= i < |a.operations| ==>
      SameValue(OperationIntent(a.operations[i]), OperationIntent(b.operations[i]))
  {
    IntentPart(a, b, 12);
    assert IntentMembers(a)[12].value == Arr(OperationIntents(a.operations));
    assert IntentMembers(b)[12].value == Arr(OperationIntents(b.operations));
  }

  // ------------------------------------------------------------------- validation

  datatype OperationProblem =
    | EmptyId | EmptyDoctype | EmptyIdempotencyKey | DuplicateIdempotencyKey | ConcurrencyTokenMissing | RiskUnderstated
    | PostconditionsMissing | RepairEmpty | UnsafeInverse

  datatype Issue =
    | PlanHashMismatch
    | OrderIssue(issue: O.Issue)
    | OperationsNotOrdered
    | OperationIssue(index: nat, problem: OperationProblem)
    | UnderstatedRisk
    | WeakApproval
    | VerificationMissing
    | VerificationOperationMissing(rule: string)

  function When(condition: bool, issue: Issue): seq<Issue> {
    if condition then [issue] else []
  }

  /** The idempotency keys of the first `n` operations. */
  function Keys(ops: seq<Operation>, n: nat): set<string>
    requires n <= |ops|
  {
    set i | 0 <= i < n :: ops[i].value.idempotencyKey
  }

  predicate NeedsToken(op: Operation) {
    !op.value.verb.Create? && !op.value.verb.Read? && (op.value.token.None? || op.value.token.value == "")
  }

  predicate Destroys(verb: Verb) {
    verb.Delete? || verb.Uninstall?
  }

  datatype Check = Check(failed: bool, problem: OperationProblem)

  /** The rules for one operation, given the idempotency keys before it. */
  function Checks(op: Operation, keys: set<string>): (r: seq<Check>)
    ensures |r| == 9
  {
    var b := op.value;
    [ Check(Trim(op.id) == "", EmptyId),
      Check(Trim(b.doctype) == "", EmptyDoctype),
      Check(Trim(b.idempotencyKey) == "", EmptyIdempotencyKey),
      Check(b.idempotencyKey in keys, DuplicateIdempotencyKey),
      Check(NeedsToken(op), ConcurrencyTokenMissing),
      Check(RiskRank(b.risk) < RiskRank(InferRisk(b.surface, b.verb)), RiskUnderstated),
      Check(b.postconditions == [], PostconditionsMissing),
      Check(!b.strategy.Manual? && b.repairs == [], RepairEmpty),
      Check(b.strategy.Inverse? && Destroys(b.verb), UnsafeInverse) ]
  }

  lemma NoneOf(a: seq<Issue>, b: seq<Issue>)
    ensures a + b == [] <==> a == [] && b == []
  {
  }

  /** The issues of the failed checks among the first `n`. */
  function Raised(checks: seq<Check>, index: nat, n: nat): seq<Issue>
    requires n <= |checks|
  {
    if n == 0 then []
      else Raised(checks, index, n - 1) + When(checks[n - 1].failed, OperationIssue(index, checks[n - 1].problem))
  }

  lemma {:induction false} RaisedNone(checks: seq<Check>, index: nat, n: nat)
    requires n <= |checks|
    ensures Raised(checks, index, n) == [] <==> forall k :: 0 <= k < n ==> !checks[k].failed
    decreases n
  {
    if n > 0 {
      RaisedNone(checks, index, n - 1);
      NoneOf(Raised(checks, index, n - 1), When(checks[n - 1].failed, OperationIssue(index, checks[n - 1].problem)));
    }
  }

  function IssuesOf(ops: seq<Operation>, i: nat): seq<Issue>
    requires i < |ops|
  {
    Raised(Checks(ops[i], Keys(ops, i)), i, 9)
  }

  /** The issues found at the first `n` places. */
  function Gathered(issuesAt: nat -> seq<Issue>, n: nat): seq<Issue> {
    if n == 0 then [] else Gathered(issuesAt, n - 1) + issuesAt(n - 1)
  }

  lemma {:induction false} GatheredNone(issuesAt: nat -> seq<Issue>, n: nat)
    ensures Gathered(issuesAt, n) == [] <==> forall i: nat :: i < n ==> issuesAt(i) == []
    decreases n
  {
    if n > 0 {
      GatheredNone(issuesAt, n - 1);
      NoneOf(Gathered(issuesAt, n - 1), issuesAt(n - 1));
    }
  }

  function OperationIssuesAt(ops: seq<Operation>): nat -> seq<Issue> {
    (i: nat) => if i < |ops| then IssuesOf(ops, i) else []
  }

  function OperationIssues(ops: seq<Operation>, n: nat): seq<Issue>
    requires n <= |ops|
  {
    Gathered(OperationIssuesAt(ops), n)
  }

  function Wrap(issues: seq<O.Issue>): (r: seq<Issue>)
    ensures |r| == |issues|
  {
    if issues == [] then [] else [OrderIssue(issues[0])] + Wrap(issues[1..])
  }

  /** The sorted operations are not stored in their places. */
  predicate OutOfPlace<T>(ordered: seq<O.Node<T>>, ops: seq<O.Node<T>>) {
    exists i :: 0 <= i < |ordered| && (i >= |ops| || ordered[i].id != ops[i].id)
  }

  function OrderIssues(ops: seq<Operation>): seq<Issue> {
    var ordered := O.Order(ops);
    if ordered.Err? then Wrap(ordered.error) else When(OutOfPlace(ordered.value, ops), OperationsNotOrdered)
  }

  function GreatestRisk(ops: seq<Operation>): Risk
    decreases |ops|
  {
    if ops == [] then ReadOnly
    else
      var n := |ops| - 1;
      MaxRisk(GreatestRisk(ops[..n]), ops[n].value.risk)
  }

  predicate RuleFine(rule: Rule, ops: seq<Operation>) {
    rule.operationId != "" ==> rule.operationId in O.Ids(ops)
  }

  function RuleIssues(rules: seq<Rule>, ops: seq<Operation>, n: nat): seq<Issue>
    requires n <= |rules|
  {
    if n == 0 then []
    else
      RuleIssues(rules, ops, n - 1)
      + When(!RuleFine(rules[n - 1], ops), VerificationOperationMissing(rules[n - 1].id))
  }

  /** The issues `validateFrappeChangeSet` reports, or the TypeError of the plan hash. */
  function Issues(cs: ChangeSet): Result<seq<Issue>, string> {
    var hash := PlanHash(cs);
    if hash.Err? then Err(hash.error)
    else Ok(When(hash.value != cs.planHash, PlanHashMismatch) + ContentIssues(cs))
  }

  function ContentIssues(cs: ChangeSet): seq<Issue> {
    OrderIssues(cs.operations)
    + OperationIssues(cs.operations, |cs.operations|)
    + When(RiskRank(cs.risk) < RiskRank(GreatestRisk(cs.operations)), UnderstatedRisk)
    + When(ApprovalRank(cs.approvalClass) < ApprovalRank(RequiredApproval(cs.risk)), WeakApproval)
    + When(cs.verification == [], VerificationMissing)
    + RuleIssues(cs.verification, cs.operations, |cs.verification|)
  }

  method CheckOperation(op: Operation, index: nat, keys: set<string>) returns (issues: seq<Issue>)
    ensures issues == Raised(Checks(op, keys), index, 9)
  {
    issues := [];
    var checks := Checks(op, keys);
    for k := 0 to 9
      invariant issues == Raised(checks, index, k)
    {
      if checks[k].failed { issues := issues + [OperationIssue(index, checks[k].problem)]; }
    }
  }

  lemma NextKey(ops: seq<Operation>, i: nat)
    requires i < |ops|
    ensures Keys(ops, i + 1) == Keys(ops, i) + {ops[i].value.idempotencyKey}
  {
  }

  method CheckOperations(ops: seq<Operation>) returns (issues: seq<Issue>)
    ensures issues == OperationIssues(ops, |ops|)
  {
    issues := [];
    var keys: set<string> := {};
    for i := 0 to |ops|
      invariant keys == Keys(ops, i) && issues == OperationIssues(ops, i)
    {
      var found := CheckOperation(ops[i], i, keys);
      issues := issues + found;
      keys := keys + {ops[i].value.idempotencyKey};
      NextKey(ops, i);
    }
  }

  /** `validateFrappeChangeSet`. */
  method ValidateFrappeChangeSet(cs: ChangeSet) returns (r: Result<seq<Issue>, string>)
    ensures r == Issues(cs)
  {
    var hash := PlanHash(cs);
    if hash.Err? { return Err(hash.error); }
    var issues := When(hash.value != cs.planHash, PlanHashMismatch);
    var order := CheckOrder(cs.operations);
    var operations := CheckOperations(cs.operations);
    var rules := CheckRules(cs.verification, cs.operations);
    issues := issues + (order + operations
      + When(RiskRank(cs.risk) < RiskRank(GreatestRisk(cs.operations)), UnderstatedRisk)
      + When(ApprovalRank(cs.approvalClass) < ApprovalRank(RequiredApproval(cs.risk)), WeakApproval)
      + When(cs.verification == [], VerificationMissing) + rules);
    r := Ok(issues);
  }

  method CheckOrder(ops: seq<Operation>) returns (issues: seq<Issue>)
    ensures issues == OrderIssues(ops)
  {
    var ordered := O.OrderFrappeChangeOperations(ops);
    if ordered.Err? { return Wrap(ordered.error); }
    issues := When(OutOfPlace(ordered.value, ops), OperationsNotOrdered);
  }

  method CheckRules(rules: seq<Rule>, ops: seq<Operation>) returns (issues: seq<Issue>)
    ensures issues == RuleIssues(rules, ops, |rules|)
  {
    issues := [];
    for n := 0 to |rules|
      invariant issues == RuleIssues(rules, ops, n)
    {
      if rules[n].operationId != "" && rules[n].operationId !in O.Ids(ops) {
        issues := issues + [VerificationOperationMissing(rules[n].id)];
      }
    }
  }

  // ----------------------------------------------------- what a valid plan satisfies

  predicate OperationFine(op: Operation) {
    var b := op.value;
    && Trim(op.id) != "" && Trim(b.doctype) != "" && Trim(b.idempotencyKey) != "" && !NeedsToken(op)
    && RiskRank(InferRisk(b.surface, b.verb)) <= RiskRank(b.risk) && b.postconditions != []
    && (b.strategy.Manual? || b.repairs != []) && !(b.strategy.Inverse? && Destroys(b.verb))
  }

  lemma ChecksNone(op: Operation, keys: set<string>)
    ensures (forall k :: 0 <= k < 9 ==> !Checks(op, keys)[k].failed) <==>
      OperationFine(op) && op.value.idempotencyKey !in keys
  {
    var checks := Checks(op, keys);
    if forall k :: 0 <= k < 9 ==> !checks[k].failed {
      assert !checks[0].failed && !checks[1].failed && !checks[2].failed && !checks[3].failed && !checks[4].failed;
      assert !checks[5].failed && !checks[6].failed && !checks[7].failed && !checks[8].failed;
    }
  }

  ghost predicate FineAt(ops: seq<Operation>, i: nat)
    requires i < |ops|
  {
    OperationFine(ops[i]) && ops[i].value.idempotencyKey !in Keys(ops, i)
  }

  lemma IssuesAt(ops: seq<Operation>, i: nat)
    requires i < |ops|
    ensures IssuesOf(ops, i) == [] <==> FineAt(ops, i)
  {
    RaisedNone(Checks(ops[i], Keys(ops, i)), i, 9);
    ChecksNone(ops[i], Keys(ops, i));
  }

  ghost predicate FineUpTo(ops: seq<Operation>, n: nat)
    requires n <= |ops|
  {
    forall i :: 0 <= i < n ==> FineAt(ops, i)
  }

  lemma OperationIssuesNone(ops: seq<Operation>, n: nat)
    requires n <= |ops|
    ensures OperationIssues(ops, n) == [] <==> FineUpTo(ops, n)
  {
    GatheredNone(OperationIssuesAt(ops), n);
    forall i: nat | i < n ensures OperationIssuesAt(ops)(i) == [] <==> FineAt(ops, i) { IssuesAt(ops, i); }
  }

  lemma {:induction false} GreatestRiskBound(ops: seq<Operation>, bound: Risk)
    ensures RiskRank(GreatestRisk(ops)) <= RiskRank(bound) <==>
      forall i :: 0 <= i < |ops| ==> RiskRank(ops[i].value.risk) <= RiskRank(bound)
    decreases |ops|
  {
    if ops != [] {
      var n := |ops| - 1;
      GreatestRiskBound(ops[..n], bound);
      assert forall i :: 0 <= i < n ==> ops[..n][i] == ops[i];
    }
  }

  lemma {:induction false} RuleIssuesNone(rules: seq<Rule>, ops: seq<Operation>, n: nat)
    requires n <= |rules|
    ensures RuleIssues(rules, ops, n) == [] <==> forall i :: 0 <= i < n ==> RuleFine(rules[i], ops)
    decreases n
  {
    if n > 0 {
      RuleIssuesNone(rules, ops, n - 1);
      NoneOf(RuleIssues(rules, ops, n - 1),
        When(!RuleFine(rules[n - 1], ops), VerificationOperationMissing(rules[n - 1].id)));
    }
  }

  lemma OrderFailsLoudly(ops: seq<Operation>)
    requires O.Order(ops).Err?
    ensures O.Order(ops).error != []
  {
  }

  /** Stored order is right exactly when sorting gives back the operations as they are. */
  lemma OrderIssuesNone(ops: seq<Operation>)
    ensures OrderIssues(ops) == [] <==> O.Order(ops) == Ok(ops)
  {
    if O.Order(ops).Err? {
      OrderFailsLoudly(ops);
    } else if !OutOfPlace(O.Order(ops).value, ops) {
      SortedInPlace(ops, O.Order(ops).value);
    }
  }

  lemma SortedInPlace<T>(ops: seq<O.Node<T>>, r: seq<O.Node<T>>)
    requires O.Order(ops) == Ok(r) && !OutOfPlace(r, ops)
    ensures r == ops
  {
    assert O.DistinctIds(ops) && (forall x :: x in r <==> x in ops) by { O.OrderIsPermutation(ops); }
    SameSequence(r, ops);
  }

  /** Sequences with the same elements, distinct ids, and the same ids in the places of the first are equal. */
  lemma SameSequence<T>(r: seq<O.Node<T>>, ops: seq<O.Node<T>>)
    requires O.DistinctIds(ops) && (forall x :: x in r <==> x in ops) && !OutOfPlace(r, ops)
    ensures r == ops
  {
    forall i | 0 <= i < |r| ensures i < |ops| && r[i] == ops[i] { InPlace(r, ops, i); }
    if |ops| > 0 { IsReached(r, ops, |ops| - 1); }
    if |r| > 0 { InPlace(r, ops, |r| - 1); }
  }

  lemma InPlace<T>(r: seq<O.Node<T>>, ops: seq<O.Node<T>>, i: nat)
    requires O.DistinctIds(ops) && (forall x :: x in r <==> x in ops) && !OutOfPlace(r, ops) && i < |r|
    ensures i < |ops| && r[i] == ops[i]
  {
    assert r[i] in ops && !(i >= |ops| || r[i].id != ops[i].id);
    var j :| 0 <= j < |ops| && ops[j] == r[i];
    assert ops[j].id == ops[i].id;
  }

  lemma IsReached<T>(r: seq<O.Node<T>>, ops: seq<O.Node<T>>, k: nat)
    requires O.DistinctIds(ops) && (forall x :: x in r <==> x in ops) && !OutOfPlace(r, ops) && k < |ops|
    ensures k < |r|
  {
    assert ops[k] in r;
    var i :| 0 <= i < |r| && r[i] == ops[k];
    InPlace(r, ops, i);
    assert ops[i].id == ops[k].id;
  }

  ghost predicate DistinctKeysOf(ops: seq<Operation>) {
    forall i, j :: 0 <= i < j < |ops| ==> ops[i].value.idempotencyKey != ops[j].value.idempotencyKey
  }

  lemma FineOperations(ops: seq<Operation>)
    ensures FineUpTo(ops, |ops|) <==> DistinctKeysOf(ops) && forall i :: 0 <= i < |ops| ==> OperationFine(ops[i])
  {
    if FineUpTo(ops, |ops|) {
      forall i, j | 0 <= i < j < |ops| ensures ops[i].value.idempotencyKey != ops[j].value.idempotencyKey {
        assert FineAt(ops, j);
        assert ops[i].value.idempotencyKey in Keys(ops, j);
      }
      forall i | 0 <= i < |ops| ensures OperationFine(ops[i]) { assert FineAt(ops, i); }
    }
    if DistinctKeysOf(ops) && forall i :: 0 <= i < |ops| ==> OperationFine(ops[i]) {
      forall i | 0 <= i < |ops| ensures FineAt(ops, i) {
      }
    }
  }

  /** Content rules hold exactly when there is no content issue. */
  ghost predicate SoundContent(cs: ChangeSet) {
    && O.Order(cs.operations) == Ok(cs.operations)
    && DistinctKeysOf(cs.operations) && (forall i :: 0 <= i < |cs.operations| ==> OperationFine(cs.operations[i]))
    && RiskRank(GreatestRisk(cs.operations)) <= RiskRank(cs.risk)
    && ApprovalRank(RequiredApproval(cs.risk)) <= ApprovalRank(cs.approvalClass)
    && cs.verification != []
    && forall i :: 0 <= i < |cs.verification| ==> RuleFine(cs.verification[i], cs.operations)
  }

  lemma ContentIssuesNone(cs: ChangeSet)
    ensures ContentIssues(cs) == [] <==> SoundContent(cs)
  {
    OrderIssuesNone(cs.operations);
    OperationIssuesNone(cs.operations, |cs.operations|);
    FineOperations(cs.operations);
    RuleIssuesNone(cs.verification, cs.operations, |cs.verification|);
    SixEmpty(OrderIssues(cs.operations), OperationIssues(cs.operations, |cs.operations|),
      When(RiskRank(cs.risk) < RiskRank(GreatestRisk(cs.operations)), UnderstatedRisk),
      When(ApprovalRank(cs.approvalClass) < ApprovalRank(RequiredApproval(cs.risk)), WeakApproval),
      When(cs.verification == [], VerificationMissing), RuleIssues(cs.verification, cs.operations, |cs.verification|));
  }

  lemma SixEmpty(a: seq<Issue>, b: seq<Issue>, c: seq<Issue>, d: seq<Issue>, e: seq<Issue>, f: seq<Issue>)
    ensures a + b + c + d + e + f == [] <==> a == [] && b == [] && c == [] && d == [] && e == [] && f == []
  {
    assert |a + b + c + d + e + f| == |a| + |b| + |c| + |d| + |e| + |f|;
  }

  /** The validator is silent exactly on the sound change sets. */
  lemma ValidIff(cs: ChangeSet)
    ensures Issues(cs) == Ok([]) <==> PlanHash(cs) == Ok(cs.planHash) && SoundContent(cs)
  {
    ContentIssuesNone(cs);
    if PlanHash(cs).Ok? {
      NoneOf(When(PlanHash(cs).value != cs.planHash, PlanHashMismatch), ContentIssues(cs));
    }
  }

  /** In a valid change set the approval class is at least what every operation's inferred risk requires. */
  lemma ApprovalCoversEveryOperation(cs: ChangeSet, i: nat)
    requires Issues(cs) == Ok([]) && i < |cs.operations|
    ensures var b := cs.operations[i].value;
      ApprovalRank(RequiredApproval(InferRisk(b.surface, b.verb))) <= ApprovalRank(cs.approvalClass)
  {
    ValidIff(cs);
    var b := cs.operations[i].value;
    assert OperationFine(cs.operations[i]);
    GreatestRiskBound(cs.operations, cs.risk);
    ApprovalMonotone(InferRisk(b.surface, b.verb), cs.risk);
  }
}
