/** A change set's life: it is created, approved once, and gets one receipt for each operation. */
module ChangeSetLifecycle {
  import opened Text
  import opened Json
  import opened ChangeSet
  import O = ChangeOrder

  datatype Failure =
    | TypeError(message: string)
    | Invalid(issues: seq<Issue>)
    | EmptyOperations
    | Unordered(orderIssues: seq<O.Issue>)
    | UnderstatedPlanRisk
    | WeakPlanApproval
    | ApprovalUnexpected
    | ApprovalConflict
    | Unbound(problems: seq<BindingProblem>)
    | OperationMissing
    | ReceiptBindingInvalid
    | ReceiptConflict
    | IntentChanged

  // -------------------------------------------------------------------- creation

  /** An operation as it is given: its risk may be missing or understated. */
  datatype Draft = Draft(body: Body, declared: Option<Risk>)

  /** A change set as it is given; its class, order and hash are computed. */
  datatype Input = Input(
    id: string, site: string, app: string, actor: string, permissionEpoch: string, schemaRevision: string,
      dataRevision: string,
    createdAt: string, risk: Option<Risk>, approvalClass: Option<ApprovalClass>, prerequisites: seq<Json>,
    operations: seq<O.Node<Draft>>, verification: seq<Rule>, approval: Option<Approval>, evidenceIds: seq<string>)

  /** `normalizeOperation`: the risk is at least the inferred one, and there is no receipt. */
  function Normalized(op: O.Node<Draft>): Operation {
    var b := op.value.body;
    var inferred := InferRisk(b.surface, b.verb);
    O.Node(op.id, op.dependsOn, b.(
      risk := if op.value.declared.Some? then MaxRisk(op.value.declared.value, inferred)
        else inferred, receipt := None))
  }

  function AllNormalized(ops: seq<O.Node<Draft>>): (r: seq<Operation>)
    ensures |r| == |ops| && forall i :: 0 <= i < |ops| ==> r[i] == Normalized(ops[i])
  {
    if ops == [] then [] else [Normalized(ops[0])] + AllNormalized(ops[1..])
  }

  predicate AnyBlank(input: Input) {
    Trim(input.id) == "" || Trim(input.site) == "" || Trim(input.app) == "" || Trim(input.actor) == ""
    || Trim(input.permissionEpoch) == "" || Trim(input.schemaRevision) == "" || Trim(input.dataRevision) == ""
  }

  predicate IsTimestamp(parse: Parse, s: string) {
    s != "" && parse(s).Some?
  }

  /** The change set of an input with its operations in order, before it is validated. */
  function Assembled(input: Input, ops: seq<Operation>, risk: Risk, approvalClass: ApprovalClass,
                     planHash: string): ChangeSet {
    ChangeSet(input.id, input.site, input.app, input.actor, input.permissionEpoch, input.schemaRevision,
      input.dataRevision,
              input.createdAt, risk, approvalClass, input.prerequisites, ops, input.verification, input.approval,
                input.evidenceIds, planHash)
  }

  /** `createFrappeChangeSet`. */
  function CreateChangeSet(parse: Parse, input: Input): Result<ChangeSet, Failure> {
    if AnyBlank(input) || !IsTimestamp(parse, input.createdAt) then Err(TypeError("A field is empty or no timestamp."))
    else if input.operations == [] then Err(EmptyOperations)
    else
      var ordered := O.Order(AllNormalized(input.operations));
      if ordered.Err? then Err(Unordered(ordered.error)) else Classified(input, ordered.value)
  }

  function PlanRisk(input: Input, ops: seq<Operation>): Risk {
    if input.risk.Some? then input.risk.value else GreatestRisk(ops)
  }

  function PlanApproval(input: Input, ops: seq<Operation>): ApprovalClass {
    if input.approvalClass.Some? then input.approvalClass.value else RequiredApproval(PlanRisk(input, ops))
  }

  /** Risk and approval class are accepted only if strong enough. */
  function Classified(input: Input, ops: seq<Operation>): Result<ChangeSet, Failure> {
    if RiskRank(PlanRisk(input, ops)) < RiskRank(GreatestRisk(ops)) then Err(UnderstatedPlanRisk)
    else if ApprovalRank(PlanApproval(input, ops)) < ApprovalRank(RequiredApproval(PlanRisk(input, ops))) then
      Err(WeakPlanApproval)
    else Finished(Assembled(input, ops, PlanRisk(input, ops), PlanApproval(input, ops), ""))
  }

  /** The plan is hashed and validated. */
  function Finished(unhashed: ChangeSet): Result<ChangeSet, Failure> {
    var hash := PlanHash(unhashed);
    if hash.Err? then Err(TypeError(hash.error))
    else Checked(unhashed.(planHash := hash.value), Issues(unhashed.(planHash := hash.value)))
  }

  function Checked(cs: ChangeSet, issues: Result<seq<Issue>, string>): Result<ChangeSet, Failure> {
    if issues.Err? then Err(TypeError(issues.error)) else if issues.value != [] then Err(Invalid(issues.value))
      else Ok(cs)
  }

  /** The plan hash does not depend on itself, on the approval, on evidence or on receipts. */
  lemma {:induction false} SameIntents(a: seq<Operation>, b: seq<Operation>)
    requires |a| == |b| && forall i :: 0 <= i < |a| ==>
      a[i].(value := a[i].value.(receipt := None)) == b[i].(value := b[i].value.(receipt := None))
    ensures OperationIntents(a) == OperationIntents(b)
  {
    forall i | 0 <= i < |a| ensures OperationIntents(a)[i] == OperationIntents(b)[i] {
      SameIntent(a[i], b[i]);
    }
  }

  lemma {:induction false} SameIntent(a: Operation, b: Operation)
    requires a.(value := a.value.(receipt := None)) == b.(value := b.value.(receipt := None))
    ensures OperationIntent(a) == OperationIntent(b)
  {
    assert a.id == b.id && a.dependsOn == b.dependsOn && a.value.(receipt := None) == b.value.(receipt := None);
    assert a.value.surface == b.value.surface && a.value.verb == b.value.verb && a.value.doctype == b.value.doctype;
    assert a.value.idempotencyKey == b.value.idempotencyKey && a.value.before == b.value.before
      && a.value.after == b.value.after;
    assert a.value.token == b.value.token && a.value.risk == b.value.risk
      && a.value.postconditions == b.value.postconditions;
    assert a.value.strategy == b.value.strategy && a.value.repairs == b.value.repairs && a.value.rest == b.value.rest;
  }

  // ------------------------------------------------------------------- approval

  datatype BindingProblem =
    | ApprovalMissing | WrongPlan | WrongActor | WrongSite | StaleEpoch | EmptyScope | BadApprovalTime | BadExpiry
    | BadNow
    | PredatesPlan | InFuture | ExpiresBeforeApproval | Expired | SeparationOfDuties

  predicate AtLeast(a: Option<int>, b: Option<int>) {
    a.Some? && b.Some? && a.value >= b.value
  }

  predicate After(a: Option<int>, b: Option<int>) {
    a.Some? && b.Some? && a.value > b.value
  }

  datatype Clause = Clause(valid: bool, problem: BindingProblem)

  /** The checks of an approval against its change set, in order. */
  function Clauses(parse: Parse, cs: ChangeSet, a: Approval, now: string): (r: seq<Clause>)
    ensures |r| == 13
  {
    var approvedAt, expiresAt, current := parse(a.approvedAt), parse(a.expiresAt), parse(now);
    [ Clause(a.planHash == cs.planHash, WrongPlan),
      Clause(a.actor == cs.actor, WrongActor),
      Clause(a.site == cs.site, WrongSite),
      Clause(a.permissionEpoch == cs.permissionEpoch, StaleEpoch),
      Clause(a.scope != [], EmptyScope),
      Clause(approvedAt.Some?, BadApprovalTime),
      Clause(expiresAt.Some?, BadExpiry),
      Clause(current.Some?, BadNow),
      Clause(AtLeast(approvedAt, parse(cs.createdAt)), PredatesPlan),
      Clause(AtLeast(current, approvedAt), InFuture),
      Clause(After(expiresAt, approvedAt), ExpiresBeforeApproval),
      Clause(After(expiresAt, current), Expired),
      Clause(!(cs.approvalClass.DualControl? && a.approver == a.actor), SeparationOfDuties) ]
  }

  function Failed(clauses: seq<Clause>, n: nat): seq<BindingProblem>
    requires n <= |clauses|
  {
    if n == 0 then [] else Failed(clauses, n - 1) + if clauses[n - 1].valid then [] else [clauses[n - 1].problem]
  }

  /** `validateFrappeApprovalBinding`. */
  function BindingProblems(parse: Parse, cs: ChangeSet, now: string): seq<BindingProblem> {
    if cs.approvalClass.NoApproval? then []
    else if cs.approval.None? then [ApprovalMissing]
    else Failed(Clauses(parse, cs, cs.approval.value, now), 13)
  }

  method ValidateFrappeApprovalBinding(parse: Parse, cs: ChangeSet, now: string) returns (problems: seq<BindingProblem>)
    ensures problems == BindingProblems(parse, cs, now)
  {
    if cs.approvalClass.NoApproval? { return []; }
    if cs.approval.None? { return [ApprovalMissing]; }
    problems := [];
    var clauses := Clauses(parse, cs, cs.approval.value, now);
    for n := 0 to 13
      invariant problems == Failed(clauses, n)
    {
      if !clauses[n].valid { problems := problems + [clauses[n].problem]; }
    }
  }

  lemma {:induction false} NoneFailed(clauses: seq<Clause>, n: nat)
    requires n <= |clauses|
    ensures Failed(clauses, n) == [] <==> forall k :: 0 <= k < n ==> clauses[k].valid
    decreases n
  {
    if n > 0 { NoneFailed(clauses, n - 1); }
  }

  /** The approval is bound to this plan, actor, site and epoch, and is alive at `now`. */
  ghost predicate BoundAndAlive(parse: Parse, cs: ChangeSet, a: Approval, now: string) {
    && a.planHash == cs.planHash && a.actor == cs.actor && a.site == cs.site && a.permissionEpoch == cs.permissionEpoch
    && a.scope != []
    && parse(cs.createdAt).Some? && parse(a.approvedAt).Some? && parse(now).Some? && parse(a.expiresAt).Some?
    && parse(cs.createdAt).value <= parse(a.approvedAt).value <= parse(now).value < parse(a.expiresAt).value
    && (cs.approvalClass.DualControl? ==> a.approver != a.actor)
  }

  /** An approval has no problem exactly when it is bound and alive. */
  lemma {:induction false} BindingIff(parse: Parse, cs: ChangeSet, now: string)
    requires !cs.approvalClass.NoApproval?
    ensures BindingProblems(parse, cs, now) == [] <==>
      cs.approval.Some? && BoundAndAlive(parse, cs, cs.approval.value, now)
  {
    if cs.approval.Some? {
      var clauses := Clauses(parse, cs, cs.approval.value, now);
      NoneFailed(clauses, 13);
      ClausesAre(parse, cs, cs.approval.value, now);
    }
  }

  lemma {:induction false} ClausesAre(parse: Parse, cs: ChangeSet, a: Approval, now: string)
    ensures (forall k :: 0 <= k < 13 ==> Clauses(parse, cs, a, now)[k].valid) <==> BoundAndAlive(parse, cs, a, now)
  {
    var c := Clauses(parse, cs, a, now);
    if forall k :: 0 <= k < 13 ==> c[k].valid {
      assert c[0].valid && c[1].valid && c[2].valid && c[3].valid && c[4].valid && c[5].valid && c[6].valid;
      assert c[7].valid && c[8].valid && c[9].valid && c[10].valid && c[11].valid && c[12].valid;
    }
  }

  /** What an approver decides; the rest of the approval is bound to the plan. */
  datatype Grant = Grant(approver: string, scope: seq<string>, approvedAt: string, expiresAt: string)

  function Bind(cs: ChangeSet, g: Grant): Approval {
    Approval(cs.planHash, cs.actor, g.approver, cs.site, cs.permissionEpoch, g.scope, g.approvedAt, g.expiresAt)
  }

  /** `attachFrappeApproval`. */
  function AttachApproval(parse: Parse, cs: ChangeSet, g: Grant, now: string): Result<ChangeSet, Failure> {
    if cs.approvalClass.NoApproval? then Err(ApprovalUnexpected)
    else if cs.approval.Some? then Err(ApprovalConflict)
    else
      var updated := cs.(approval := Some(Bind(cs, g)));
      var problems := BindingProblems(parse, updated, now);
      if problems != [] then Err(Unbound(problems)) else Sealed(cs, updated)
  }

  // -------------------------------------------------------------------- receipts

  /** The index of the first operation with an id. */
  function Find(ops: seq<Operation>, id: string): Option<nat>
    decreases |ops|
  {
    if ops == [] then None
    else if ops[0].id == id then Some(0)
    else
      var rest := Find(ops[1..], id);
      if rest.Some? then Some(rest.value + 1) else None
  }

  lemma {:induction false} FindFinds(ops: seq<Operation>, id: string)
    ensures Find(ops, id).Some? ==> Find(ops, id).value < |ops| && ops[Find(ops, id).value].id == id
    ensures Find(ops, id).None? ==> forall i :: 0 <= i < |ops| ==> ops[i].id != id
    decreases |ops|
  {
    if ops != [] { FindFinds(ops[1..], id); }
  }

  /** The members of a receipt but its own id. */
  function BaseMembers(r: Receipt): (ms: seq<Member>)
    ensures |ms| == 15
  {
    [ Member("changeSetId", Str(r.changeSetId)), Member("operationId", Str(r.operationId)),
      Member("planHash", Str(r.planHash)),
      Member("site", Str(r.site)), Member("actor", Str(r.actor)), Member("permissionEpoch", Str(r.permissionEpoch)),
      Member("schemaRevision", Str(r.schemaRevision)), Member("dataRevision", Str(r.dataRevision)),
      Member("idempotencyKey", Str(r.idempotencyKey)), Member("beforeHash", Str(r.beforeHash)),
        Member("afterHash", Str(r.afterHash)),
      Member("status", Str(if r.applied then "applied" else "no_effect")), Member("executor", Str(r.executor)),
      Member("appliedAt", Str(r.appliedAt)), Member("evidenceIds", Arr(Texts(r.evidenceIds))) ]
  }

  function BaseHash(r: Receipt): Result<string, string> {
    CanonicalJson(Obj(BaseMembers(r)))
  }

  function ReceiptHash(r: Receipt): Result<string, string> {
    CanonicalJson(Obj([Member("receiptId", Str(r.receiptId))] + BaseMembers(r)))
  }

  /** `createFrappeEffectReceipt`. */
  function CreateReceipt(parse: Parse, cs: ChangeSet, operationId: string, applied: bool, executor: string,
                         appliedAt: string,
                         evidenceIds: seq<string>): Result<Receipt, Failure> {
    var found := Find(cs.operations, operationId);
    if found.None? then Err(OperationMissing)
    else if Trim(executor) == "" || !IsTimestamp(parse, appliedAt) then
      Err(TypeError("An argument is empty or no timestamp."))
    else
      FindFinds(cs.operations, operationId);
      var op := cs.operations[found.value];
      var issues := Issues(cs);
      if issues.Err? then Err(TypeError(issues.error))
      else if issues.value != [] then Err(Invalid(issues.value))
      else
        var problems := BindingProblems(parse, cs, appliedAt);
        if problems != [] then Err(Unbound(problems))
        else WithId(cs, op, applied, executor, appliedAt, evidenceIds)
  }

  /** The receipt of an operation, named by the hash of its content. */
  function WithId(cs: ChangeSet, op: Operation, applied: bool, executor: string, appliedAt: string,
                  evidenceIds: seq<string>): Result<Receipt, Failure> {
    var before, after := CanonicalJson(op.value.before), CanonicalJson(op.value.after);
    if before.Err? then Err(TypeError(before.error))
    else if after.Err? then Err(TypeError(after.error))
    else
      var base := Receipt("", cs.id, op.id, cs.planHash, cs.site, cs.actor, cs.permissionEpoch, cs.schemaRevision,
        cs.dataRevision,
                          op.value.idempotencyKey, before.value, after.value, applied, executor, appliedAt,
                            evidenceIds);
      var hash := BaseHash(base);
      if hash.Err? then Err(TypeError(hash.error)) else Ok(base.(receiptId := "frappe-effect:" + hash.value))
  }

  /** The operations with a receipt put to those with an id. */
  function WithReceipt(ops: seq<Operation>, id: string, receipt: Receipt): (r: seq<Operation>)
    ensures |r| == |ops|
    ensures forall i :: 0 <= i < |ops| ==>
      r[i] == if ops[i].id == id then ops[i].(value := ops[i].value.(receipt := Some(receipt))) else ops[i]
  {
    if ops == [] then []
    else
      [if ops[0].id == id then ops[0].(value := ops[0].value.(receipt := Some(receipt))) else ops[0]] +
        WithReceipt(ops[1..], id, receipt)
  }

  /** `attachFrappeEffectReceipt`. */
  function AttachReceipt(parse: Parse, cs: ChangeSet, receipt: Receipt): Result<ChangeSet, Failure> {
    var found := Find(cs.operations, receipt.operationId);
    if found.None? then Err(OperationMissing)
    else
      FindFinds(cs.operations, receipt.operationId);
      Attach(cs, cs.operations[found.value], receipt,
             CreateReceipt(parse, cs, receipt.operationId, receipt.applied, receipt.executor, receipt.appliedAt,
               receipt.evidenceIds))
  }

  /** The receipt is put to the operation if it is the expected one and no other is there. */
  function Attach(cs: ChangeSet, op: Operation, receipt: Receipt,
                  expected: Result<Receipt, Failure>): Result<ChangeSet, Failure> {
    if expected.Err? then Err(expected.error)
    else if ReceiptHash(receipt).Err? || ReceiptHash(receipt) != ReceiptHash(expected.value) then
      Err(ReceiptBindingInvalid)
    else if op.value.receipt.Some? && op.value.receipt.value.receiptId != receipt.receiptId then Err(ReceiptConflict)
    else Sealed(cs, cs.(operations := WithReceipt(cs.operations, op.id, receipt)))
  }

  /** The update is refused if it changed the plan intent. */
  function Sealed(cs: ChangeSet, updated: ChangeSet): Result<ChangeSet, Failure> {
    if PlanHash(updated) != Ok(cs.planHash) then Err(IntentChanged) else Ok(updated)
  }

  // ------------------------------------------------------- receipts say what they hash

  lemma {:induction false} TextsEqual(a: seq<string>, b: seq<string>)
    requires SameValue(Arr(Texts(a)), Arr(Texts(b)))
    ensures a == b
  {
    forall i | 0 <= i < |a| ensures i < |b| && a[i] == b[i] {
      assert SameValue(Texts(a)[i], Texts(b)[i]);
    }
  }

  lemma {:induction false} BaseKeys(r: Receipt, s: Receipt, i: nat)
    requires i < 15
    ensures BaseMembers(r)[i].key == BaseMembers(s)[i].key
  {
  }

  ghost predicate PlacesSame(ms: seq<Member>, ns: seq<Member>) {
    |ms| == |ns| && forall i :: 0 <= i < |ms| ==> SameValue(ms[i].value, ns[i].value)
  }

  lemma {:induction false} BaseEqual(r: Receipt, s: Receipt)
    requires PlacesSame(BaseMembers(r), BaseMembers(s))
    ensures r.(receiptId := "") == s.(receiptId := "")
  {
    var m, n := BaseMembers(r), BaseMembers(s);
    assert SameValue(m[0].value, n[0].value) && SameValue(m[1].value, n[1].value) && SameValue(m[2].value, n[2].value);
    assert SameValue(m[3].value, n[3].value) && SameValue(m[4].value, n[4].value) && SameValue(m[5].value, n[5].value);
    assert SameValue(m[6].value, n[6].value) && SameValue(m[7].value, n[7].value) && SameValue(m[8].value, n[8].value);
    assert SameValue(m[9].value, n[9].value) && SameValue(m[10].value, n[10].value)
      && SameValue(m[11].value, n[11].value);
    assert SameValue(m[12].value, n[12].value) && SameValue(m[13].value, n[13].value)
      && SameValue(m[14].value, n[14].value);
    StatusEqual(r.applied, s.applied);
    TextsEqual(r.evidenceIds, s.evidenceIds);
  }

  lemma {:induction false} StatusEqual(a: bool, b: bool)
    ensures (if a then "applied" else "no_effect") == (if b then "applied" else "no_effect") ==> a == b
  {
    assert |"applied"| != |"no_effect"|;
  }

  lemma {:induction false} BasePlaces(r: Receipt, s: Receipt)
    requires SameValue(Obj(BaseMembers(r)), Obj(BaseMembers(s))) && DistinctKeys(BaseMembers(s))
    ensures PlacesSame(BaseMembers(r), BaseMembers(s))
  {
    forall i | 0 <= i < 15 ensures SameValue(BaseMembers(r)[i].value, BaseMembers(s)[i].value) {
      BaseKeys(r, s, i);
      PlacesAgree(BaseMembers(r), BaseMembers(s), i);
    }
  }

  /** Receipts with the same base hash differ in nothing but the id. */
  lemma {:induction false} BaseHashBinds(r: Receipt, s: Receipt)
    requires BaseHash(r).Ok? && BaseHash(r) == BaseHash(s)
    ensures r.(receiptId := "") == s.(receiptId := "")
  {
    CanonicalJsonInjective(Obj(BaseMembers(r)), Obj(BaseMembers(s)));
    assert Canonicalizable(Obj(BaseMembers(s)));
    BasePlaces(r, s);
    BaseEqual(r, s);
  }

  function ReceiptMembers(r: Receipt): seq<Member> {
    [Member("receiptId", Str(r.receiptId))] + BaseMembers(r)
  }

  lemma {:induction false} ReceiptPlace(r: Receipt, s: Receipt, i: nat)
    requires SameValue(Obj(ReceiptMembers(r)), Obj(ReceiptMembers(s))) && DistinctKeys(ReceiptMembers(s)) && i < 16
    ensures SameValue(ReceiptMembers(r)[i].value, ReceiptMembers(s)[i].value)
  {
    if i > 0 { BaseKeys(r, s, i - 1); }
    PlacesAgree(ReceiptMembers(r), ReceiptMembers(s), i);
  }

  /** Receipts with the same hash are equal. */
  lemma {:induction false} ReceiptHashBinds(r: Receipt, s: Receipt)
    requires ReceiptHash(r).Ok? && ReceiptHash(r) == ReceiptHash(s)
    ensures r == s
  {
    CanonicalJsonInjective(Obj(ReceiptMembers(r)), Obj(ReceiptMembers(s)));
    assert Canonicalizable(Obj(ReceiptMembers(s)));
    forall i | 0 <= i < 15 ensures SameValue(BaseMembers(r)[i].value, BaseMembers(s)[i].value) {
      ReceiptPlace(r, s, i + 1);
      assert ReceiptMembers(r)[i + 1] == BaseMembers(r)[i] && ReceiptMembers(s)[i + 1] == BaseMembers(s)[i];
    }
    ReceiptPlace(r, s, 0);
    BaseEqual(r, s);
  }

  // --------------------------------------------------------- what a life keeps

  /** The receipt is the operation's own, and was made under a live approval where one is needed. */
  ghost predicate ReceiptFine(parse: Parse, cs: ChangeSet, op: Operation) {
    op.value.receipt.Some? ==>
      var r := op.value.receipt.value;
      && WithId(cs, op, r.applied, r.executor, r.appliedAt, r.evidenceIds) == Ok(r)
      && (!cs.approvalClass.NoApproval? ==>
           cs.approval.Some? && BoundAndAlive(parse, cs, cs.approval.value, r.appliedAt))
  }

  /** A valid change set whose receipts are all in order. */
  ghost predicate Live(parse: Parse, cs: ChangeSet) {
    Issues(cs) == Ok([]) && forall i :: 0 <= i < |cs.operations| ==> ReceiptFine(parse, cs, cs.operations[i])
  }

  function Bare(op: Operation): Operation {
    op.(value := op.value.(receipt := None))
  }

  ghost predicate OperationsGrow(a: seq<Operation>, b: seq<Operation>) {
    && |a| == |b|
    && forall i :: 0 <= i < |a| ==>
         Bare(a[i]) == Bare(b[i]) && (a[i].value.receipt.Some? ==> b[i].value.receipt == a[i].value.receipt)
  }

  /** Nothing changes but that an approval or receipts are added; none is replaced or removed. */
  ghost predicate Grows(a: ChangeSet, b: ChangeSet) {
    && b == a.(approval := b.approval, operations := b.operations)
    && (a.approval.Some? ==> b.approval == a.approval)
    && OperationsGrow(a.operations, b.operations)
  }

  lemma {:induction false} GrowsTransitive(a: ChangeSet, b: ChangeSet, c: ChangeSet)
    requires Grows(a, b) && Grows(b, c)
    ensures Grows(a, c)
  {
    forall i | 0 <= i < |a.operations|
      ensures Bare(a.operations[i]) == Bare(c.operations[i])
              && (a.operations[i].value.receipt.Some? ==>
                   c.operations[i].value.receipt == a.operations[i].value.receipt)
    {
      assert Bare(a.operations[i]) == Bare(b.operations[i]) && Bare(b.operations[i]) == Bare(c.operations[i]);
    }
  }

  /** Growing changes neither the plan intent nor its hash. */
  lemma {:induction false} GrowingKeepsIntent(a: ChangeSet, b: ChangeSet)
    requires Grows(a, b)
    ensures PlanIntent(a) == PlanIntent(b) && PlanHash(a) == PlanHash(b)
  {
    SameIntents(a.operations, b.operations);
  }

  /** Growing keeps a sound plan sound. */
  lemma {:induction false} SameLinksSameOrder<T>(a: seq<O.Node<T>>, b: seq<O.Node<T>>)
    requires O.SameLinks(a, b) && O.Order(a) == Ok(a)
    ensures O.Order(b) == Ok(b)
  {
    O.OrderIgnoresValues(a, b);
    SortedInPlace(b, O.Order(b).value);
  }

  lemma {:induction false} GrowingKeepsOrder(a: seq<Operation>, b: seq<Operation>)
    requires OperationsGrow(a, b) && O.Order(a) == Ok(a)
    ensures O.Order(b) == Ok(b)
  {
    forall i | 0 <= i < |a| ensures a[i].id == b[i].id
      && a[i].dependsOn == b[i].dependsOn { assert Bare(a[i]) == Bare(b[i]); }
    SameLinksSameOrder(a, b);
  }

  lemma {:induction false} GrowingKeepsRisk(a: seq<Operation>, b: seq<Operation>)
    requires OperationsGrow(a, b)
    ensures GreatestRisk(a) == GreatestRisk(b)
    decreases |a|
  {
    if a != [] {
      var n := |a| - 1;
      GrowingPrefix(a, b, n);
      GrowingKeepsRisk(a[..n], b[..n]);
      assert GreatestRisk(a) == MaxRisk(GreatestRisk(a[..n]), a[n].value.risk);
      assert GreatestRisk(b) == MaxRisk(GreatestRisk(b[..n]), b[n].value.risk);
    }
  }

  lemma {:induction false} GrowingPrefix(a: seq<Operation>, b: seq<Operation>, n: nat)
    requires OperationsGrow(a, b) && n < |a|
    ensures OperationsGrow(a[..n], b[..n]) && a[n].value.risk == b[n].value.risk
  {
    assert Bare(a[n]) == Bare(b[n]);
    forall i | 0 <= i < n
      ensures Bare(a[..n][i]) == Bare(b[..n][i])
        && (a[..n][i].value.receipt.Some? ==> b[..n][i].value.receipt == a[..n][i].value.receipt)
    {
      assert Bare(a[i]) == Bare(b[i]);
    }
  }

  lemma {:induction false} GrowingKeepsOperations(a: seq<Operation>, b: seq<Operation>)
    requires OperationsGrow(a, b) && DistinctKeysOf(a) && forall i :: 0 <= i < |a| ==> OperationFine(a[i])
    ensures DistinctKeysOf(b) && forall i :: 0 <= i < |b| ==> OperationFine(b[i])
  {
    forall i | 0 <= i < |a| ensures OperationFine(b[i]) && b[i].value.idempotencyKey == a[i].value.idempotencyKey {
      assert Bare(a[i]) == Bare(b[i]);
      BareFine(a[i], b[i]);
    }
  }

  lemma {:induction false} GrowingKeepsIds(a: seq<Operation>, b: seq<Operation>)
    requires OperationsGrow(a, b)
    ensures O.Ids(a) == O.Ids(b)
  {
    forall i | 0 <= i < |a| ensures a[i].id == b[i].id { assert Bare(a[i]) == Bare(b[i]); }
  }

  lemma {:induction false} GrowingKeepsContent(a: ChangeSet, b: ChangeSet)
    requires Grows(a, b) && SoundContent(a)
    ensures SoundContent(b)
  {
    GrowingKeepsOrder(a.operations, b.operations);
    GrowingKeepsRisk(a.operations, b.operations);
    GrowingKeepsOperations(a.operations, b.operations);
    GrowingKeepsIds(a.operations, b.operations);
    forall i | 0 <= i < |b.verification| ensures RuleFine(b.verification[i], b.operations) {
      assert RuleFine(a.verification[i], a.operations);
    }
  }

  lemma {:induction false} BareFine(a: Operation, b: Operation)
    requires Bare(a) == Bare(b) && OperationFine(a)
    ensures OperationFine(b)
  {
    assert a.id == b.id && a.value.(receipt := None) == b.value.(receipt := None);
    assert a.value.surface == b.value.surface && a.value.verb == b.value.verb && a.value.doctype == b.value.doctype;
    assert a.value.idempotencyKey == b.value.idempotencyKey && a.value.token == b.value.token
      && a.value.risk == b.value.risk;
    assert a.value.postconditions == b.value.postconditions && a.value.strategy == b.value.strategy
      && a.value.repairs == b.value.repairs;
  }

  lemma {:induction false} GrowingKeepsValid(a: ChangeSet, b: ChangeSet)
    requires Grows(a, b) && Issues(a) == Ok([])
    ensures Issues(b) == Ok([])
  {
    ValidIff(a);
    GrowingKeepsIntent(a, b);
    GrowingKeepsContent(a, b);
    ValidIff(b);
  }

  lemma {:induction false} GrowingKeepsReceipt(parse: Parse, a: ChangeSet, b: ChangeSet, i: nat)
    requires Grows(a, b) && i < |a.operations| && ReceiptFine(parse, a, a.operations[i])
    requires a.operations[i].value.receipt == b.operations[i].value.receipt
    ensures ReceiptFine(parse, b, b.operations[i])
  {
    assert Bare(a.operations[i]) == Bare(b.operations[i]);
    var x, y := a.operations[i], b.operations[i];
    assert x.id == y.id && x.value.(receipt := None) == y.value.(receipt := None);
    assert x.value.before == y.value.before && x.value.after == y.value.after
      && x.value.idempotencyKey == y.value.idempotencyKey;
  }

  // ------------------------------------------------------------------- the steps

  lemma {:induction false} SealedIs(cs: ChangeSet, updated: ChangeSet)
    requires Sealed(cs, updated).Ok?
    ensures Sealed(cs, updated) == Ok(updated)
  {
  }

  lemma {:induction false} FinishedValid(unhashed: ChangeSet)
    requires Finished(unhashed).Ok?
    ensures Issues(Finished(unhashed).value) == Ok([]) && Finished(unhashed).value.operations == unhashed.operations
  {
  }

  /** What creation comes down to, once the operations are in order. */
  lemma {:induction false} CreationOrders(parse: Parse, input: Input)
    requires CreateChangeSet(parse, input).Ok? || CreateChangeSet(parse, input).error.Invalid?
    ensures O.Order(AllNormalized(input.operations)).Ok?
    ensures CreateChangeSet(parse, input) == Classified(input, O.Order(AllNormalized(input.operations)).value)
  {
  }

  lemma {:induction false} ClassifiedFinishes(input: Input, ops: seq<Operation>)
    requires Classified(input, ops).Ok? || Classified(input, ops).error.Invalid?
    ensures RiskRank(GreatestRisk(ops)) <= RiskRank(PlanRisk(input, ops))
    ensures ApprovalRank(RequiredApproval(PlanRisk(input, ops))) <= ApprovalRank(PlanApproval(input, ops))
    ensures Classified(input, ops) ==
      Finished(Assembled(input, ops, PlanRisk(input, ops), PlanApproval(input, ops), ""))
  {
  }

  lemma {:induction false} NoReceipts(normalized: seq<Operation>, ops: seq<Operation>)
    requires forall i :: 0 <= i < |normalized| ==> normalized[i].value.receipt.None?
    requires forall x :: x in ops ==> x in normalized
    ensures forall i :: 0 <= i < |ops| ==> ops[i].value.receipt.None?
  {
    forall i | 0 <= i < |ops| ensures ops[i].value.receipt.None? {
      assert ops[i] in ops;
    }
  }

  lemma {:induction false} OrderedElements<T>(nodes: seq<O.Node<T>>, ordered: seq<O.Node<T>>)
    requires O.Order(nodes) == Ok(ordered)
    ensures forall x :: x in ordered ==> x in nodes
  {
    O.OrderIsPermutation(nodes);
  }

  /** A created change set is valid and has no receipt. */
  lemma {:induction false} CreatedLive(parse: Parse, input: Input, cs: ChangeSet)
    requires CreateChangeSet(parse, input) == Ok(cs)
    ensures Live(parse, cs)
  {
    var normalized := AllNormalized(input.operations);
    CreationOrders(parse, input);
    var ops := O.Order(normalized).value;
    OrderedElements(normalized, ops);
    NoReceipts(normalized, ops);
    ClassifiedLive(parse, input, ops, cs);
  }

  lemma {:induction false} ClassifiedLive(parse: Parse, input: Input, ops: seq<Operation>, cs: ChangeSet)
    requires Classified(input, ops) == Ok(cs) && forall i :: 0 <= i < |ops| ==> ops[i].value.receipt.None?
    ensures Live(parse, cs)
  {
    ClassifiedFinishes(input, ops);
    FinishedValid(Assembled(input, ops, PlanRisk(input, ops), PlanApproval(input, ops), ""));
  }

  lemma {:induction false} SameHash(unhashed: ChangeSet, planHash: string)
    ensures PlanHash(unhashed.(planHash := planHash)) == PlanHash(unhashed)
  {
    assert IntentMembers(unhashed.(planHash := planHash)) == IntentMembers(unhashed);
  }

  lemma {:induction false} HashedIssues(cs: ChangeSet)
    requires PlanHash(cs) == Ok(cs.planHash)
    ensures Issues(cs) == Ok(ContentIssues(cs))
  {
    assert [] + ContentIssues(cs) == ContentIssues(cs);
  }

  lemma {:induction false} ClassedContent(cs: ChangeSet)
    requires O.Order(cs.operations) == Ok(cs.operations) && RiskRank(GreatestRisk(cs.operations)) <= RiskRank(cs.risk)
    requires ApprovalRank(RequiredApproval(cs.risk)) <= ApprovalRank(cs.approvalClass)
    ensures ContentIssues(cs) ==
      OperationIssues(cs.operations, |cs.operations|) + When(cs.verification == [], VerificationMissing)
      + RuleIssues(cs.verification, cs.operations, |cs.verification|)
  {
    OrderIssuesNone(cs.operations);
    var issues := OperationIssues(cs.operations, |cs.operations|);
    assert [] + issues + [] + [] == issues;
  }

  lemma {:induction false} FinishedReports(unhashed: ChangeSet) returns (cs: ChangeSet)
    requires Finished(unhashed).Err? && Finished(unhashed).error.Invalid?
    ensures cs == unhashed.(planHash := cs.planHash) && Finished(unhashed).error.issues == ContentIssues(cs)
  {
    var hash := PlanHash(unhashed);
    cs := unhashed.(planHash := hash.value);
    SameHash(unhashed, hash.value);
    HashedIssues(cs);
  }

  /** Creation never fails for the order or the hash it computed, nor for its risk or approval class once
      those were accepted: what it reports is about single operations and about verification. */
  lemma {:induction false} CreationReportsContent(parse: Parse, input: Input)
    requires CreateChangeSet(parse, input).Err? && CreateChangeSet(parse, input).error.Invalid?
    ensures var ordered := O.Order(AllNormalized(input.operations));
      ordered.Ok? && CreateChangeSet(parse, input).error.issues ==
        OperationIssues(ordered.value, |ordered.value|) + When(input.verification == [], VerificationMissing)
        + RuleIssues(input.verification, ordered.value, |input.verification|)
  {
    CreationOrders(parse, input);
    var ops := O.Order(AllNormalized(input.operations)).value;
    assert O.Order(ops) == Ok(ops) by { O.OrderIdempotent(AllNormalized(input.operations)); }
    ClassifiedFinishes(input, ops);
    ClassifiedReports(input, ops);
  }

  lemma {:induction false} ClassifiedReports(input: Input, ops: seq<Operation>)
    requires O.Order(ops) == Ok(ops) && Classified(input, ops).Err? && Classified(input, ops).error.Invalid?
    ensures Classified(input, ops).error.issues ==
      OperationIssues(ops, |ops|) + When(input.verification == [], VerificationMissing) +
        RuleIssues(input.verification, ops, |input.verification|)
  {
    ClassifiedFinishes(input, ops);
    var unhashed := Assembled(input, ops, PlanRisk(input, ops), PlanApproval(input, ops), "");
    var cs := FinishedReports(unhashed);
    ClassedContent(cs);
  }

  lemma {:induction false} ApprovalAttached(parse: Parse, cs: ChangeSet, g: Grant, now: string)
    requires AttachApproval(parse, cs, g, now).Ok?
    ensures cs.approval.None? && !cs.approvalClass.NoApproval?
    ensures AttachApproval(parse, cs, g, now) == Ok(cs.(approval := Some(Bind(cs, g))))
    ensures BindingProblems(parse, cs.(approval := Some(Bind(cs, g))), now) == []
  {
    SealedIs(cs, cs.(approval := Some(Bind(cs, g))));
  }

  /** An approval that is attached is bound and alive, and the change set stays valid. */
  lemma {:induction false} ApprovedLive(parse: Parse, cs: ChangeSet, g: Grant, now: string)
    requires Live(parse, cs) && AttachApproval(parse, cs, g, now).Ok?
    ensures var after := cs.(approval := Some(Bind(cs, g)));
      AttachApproval(parse, cs, g, now) == Ok(after) && Grows(cs, after) && Live(parse, after)
        && BoundAndAlive(parse, after, Bind(cs, g), now)
  {
    ApprovalAttached(parse, cs, g, now);
    ApprovalLive(parse, cs, g, now);
  }

  lemma {:induction false} ApprovalLive(parse: Parse, cs: ChangeSet, g: Grant, now: string)
    requires Live(parse, cs) && cs.approval.None? && !cs.approvalClass.NoApproval?
    requires BindingProblems(parse, cs.(approval := Some(Bind(cs, g))), now) == []
    ensures var after := cs.(approval := Some(Bind(cs, g)));
      Grows(cs, after) && Live(parse, after) && BoundAndAlive(parse, after, Bind(cs, g), now)
  {
    var after := cs.(approval := Some(Bind(cs, g)));
    assert Grows(cs, after);
    GrowingKeepsValid(cs, after);
    BindingIff(parse, after, now);
    forall i | 0 <= i < |after.operations| ensures ReceiptFine(parse, after, after.operations[i]) {
      assert ReceiptFine(parse, cs, cs.operations[i]);
    }
  }

  lemma {:induction false} CreatedReceiptFine(parse: Parse, cs: ChangeSet, operationId: string, applied: bool,
                                              executor: string, appliedAt: string,
                           evidenceIds: seq<string>)
    requires CreateReceipt(parse, cs, operationId, applied, executor, appliedAt, evidenceIds).Ok?
    ensures Find(cs.operations, operationId).Some? && Find(cs.operations, operationId).value < |cs.operations|
    ensures var op := cs.operations[Find(cs.operations, operationId).value];
      && op.id == operationId
      && WithId(cs, op, applied, executor, appliedAt, evidenceIds) ==
           CreateReceipt(parse, cs, operationId, applied, executor, appliedAt, evidenceIds)
      && (!cs.approvalClass.NoApproval? ==> cs.approval.Some? && BoundAndAlive(parse, cs, cs.approval.value, appliedAt))
  {
    FindFinds(cs.operations, operationId);
    if !cs.approvalClass.NoApproval? { BindingIff(parse, cs, appliedAt); }
  }

  /** Of one operation, a receipt with the same id is the same receipt. */
  lemma {:induction false} SameIdSameReceipt(cs: ChangeSet, op: Operation, r: Receipt, s: Receipt)
    requires WithId(cs, op, r.applied, r.executor, r.appliedAt, r.evidenceIds) == Ok(r)
    requires WithId(cs, op, s.applied, s.executor, s.appliedAt, s.evidenceIds) == Ok(s)
    requires r.receiptId == s.receiptId
    ensures r == s
  {
    var x, y := r.(receiptId := ""), s.(receiptId := "");
    assert BaseHash(x).Ok? && r.receiptId == "frappe-effect:" + BaseHash(x).value;
    assert BaseHash(y).Ok? && s.receiptId == "frappe-effect:" + BaseHash(y).value;
    CutEqual("frappe-effect:", BaseHash(x).value, "frappe-effect:", BaseHash(y).value);
    BaseHashBinds(x, y);
  }

  lemma {:induction false} AttachMeans(cs: ChangeSet, op: Operation, receipt: Receipt,
                                       expected: Result<Receipt, Failure>)
    requires Attach(cs, op, receipt, expected).Ok?
    ensures expected == Ok(receipt)
    ensures Attach(cs, op, receipt, expected) == Ok(cs.(operations := WithReceipt(cs.operations, op.id, receipt)))
    ensures op.value.receipt.Some? ==> op.value.receipt.value.receiptId == receipt.receiptId
  {
    ReceiptHashBinds(receipt, expected.value);
    SealedIs(cs, cs.(operations := WithReceipt(cs.operations, op.id, receipt)));
  }

  /** A receipt that is attached is the one that would be created; a receipt already there has its id. */
  lemma {:induction false} AttachedWhere(parse: Parse, cs: ChangeSet, receipt: Receipt)
    requires AttachReceipt(parse, cs, receipt).Ok?
    ensures CreateReceipt(parse, cs, receipt.operationId, receipt.applied, receipt.executor, receipt.appliedAt,
      receipt.evidenceIds) == Ok(receipt)
    ensures AttachReceipt(parse, cs, receipt).value ==
      cs.(operations := WithReceipt(cs.operations, receipt.operationId, receipt))
    ensures Find(cs.operations, receipt.operationId).Some?
      && Find(cs.operations, receipt.operationId).value < |cs.operations|
    ensures var op := cs.operations[Find(cs.operations, receipt.operationId).value];
      op.value.receipt.Some? ==> op.value.receipt.value.receiptId == receipt.receiptId
  {
    FindFinds(cs.operations, receipt.operationId);
    AttachMeans(cs, cs.operations[Find(cs.operations, receipt.operationId).value], receipt,
      CreateReceipt(parse, cs, receipt.operationId, receipt.applied, receipt.executor, receipt.appliedAt,
        receipt.evidenceIds));
  }

  /** The operation whose id the receipt names is the only one it is put to. */
  lemma {:induction false} ReceiptPlaces(parse: Parse, cs: ChangeSet, receipt: Receipt, i: nat)
    requires Live(parse, cs) && AttachReceipt(parse, cs, receipt).Ok? && i < |cs.operations|
    ensures var after := AttachReceipt(parse, cs, receipt).value;
      && i < |after.operations| && Bare(cs.operations[i]) == Bare(after.operations[i])
      && (cs.operations[i].value.receipt.Some? ==> after.operations[i].value.receipt == cs.operations[i].value.receipt)
      && (after.operations[i].value.receipt == cs.operations[i].value.receipt
          || (after.operations[i].value.receipt == Some(receipt)
              && WithId(cs, cs.operations[i], receipt.applied, receipt.executor, receipt.appliedAt,
                   receipt.evidenceIds) == Ok(receipt)))
  {
    AttachedWhere(parse, cs, receipt);
    CreatedReceiptFine(parse, cs, receipt.operationId, receipt.applied, receipt.executor, receipt.appliedAt,
      receipt.evidenceIds);
    if cs.operations[i].id == receipt.operationId {
      OnlyOne(cs, i, Find(cs.operations, receipt.operationId).value);
      assert ReceiptFine(parse, cs, cs.operations[i]);
      if cs.operations[i].value.receipt.Some? {
        SameIdSameReceipt(cs, cs.operations[i], cs.operations[i].value.receipt.value, receipt);
      }
    }
  }

  lemma {:induction false} OnlyOne(cs: ChangeSet, i: nat, j: nat)
    requires Issues(cs) == Ok([]) && i < |cs.operations| && j < |cs.operations|
      && cs.operations[i].id == cs.operations[j].id
    ensures i == j
  {
    ValidIff(cs);
    O.OrderIsPermutation(cs.operations);
  }

  lemma {:induction false} AttachedLive(parse: Parse, cs: ChangeSet, receipt: Receipt)
    requires Live(parse, cs) && AttachReceipt(parse, cs, receipt).Ok?
    ensures Grows(cs, AttachReceipt(parse, cs, receipt).value) && Live(parse, AttachReceipt(parse, cs, receipt).value)
  {
    var after := AttachReceipt(parse, cs, receipt).value;
    AttachedWhere(parse, cs, receipt);
    forall i | 0 <= i < |cs.operations|
      ensures Bare(cs.operations[i]) == Bare(after.operations[i])
              && (cs.operations[i].value.receipt.Some? ==>
                   after.operations[i].value.receipt == cs.operations[i].value.receipt)
    {
      ReceiptPlaces(parse, cs, receipt, i);
    }
    assert Grows(cs, after);
    GrowingKeepsValid(cs, after);
    forall i | 0 <= i < |after.operations| ensures ReceiptFine(parse, after, after.operations[i]) {
      AttachedFine(parse, cs, receipt, i);
    }
  }

  lemma {:induction false} AttachedFine(parse: Parse, cs: ChangeSet, receipt: Receipt, i: nat)
    requires Live(parse, cs) && AttachReceipt(parse, cs, receipt).Ok? && i < |cs.operations|
    requires Grows(cs, AttachReceipt(parse, cs, receipt).value)
    ensures ReceiptFine(parse, AttachReceipt(parse, cs, receipt).value,
      AttachReceipt(parse, cs, receipt).value.operations[i])
  {
    var after := AttachReceipt(parse, cs, receipt).value;
    ReceiptPlaces(parse, cs, receipt, i);
    AttachedWhere(parse, cs, receipt);
    CreatedReceiptFine(parse, cs, receipt.operationId, receipt.applied, receipt.executor, receipt.appliedAt,
      receipt.evidenceIds);
    assert ReceiptFine(parse, cs, cs.operations[i]);
    if after.operations[i].value.receipt == cs.operations[i].value.receipt {
      GrowingKeepsReceipt(parse, cs, after, i);
    } else {
      SameWithId(cs, after, cs.operations[i], after.operations[i], receipt);
    }
  }

  lemma {:induction false} SameWithId(a: ChangeSet, b: ChangeSet, x: Operation, y: Operation, r: Receipt)
    requires Grows(a, b) && Bare(x) == Bare(y)
    ensures WithId(a, x, r.applied, r.executor, r.appliedAt, r.evidenceIds) ==
      WithId(b, y, r.applied, r.executor, r.appliedAt, r.evidenceIds)
  {
    assert x.id == y.id && x.value.(receipt := None) == y.value.(receipt := None);
    assert x.value.before == y.value.before && x.value.after == y.value.after
      && x.value.idempotencyKey == y.value.idempotencyKey;
  }

  // ------------------------------------------------------------------ whole lives

  datatype Step = Approve(grant: Grant, now: string) | Record(receipt: Receipt)

  function Take(parse: Parse, cs: ChangeSet, step: Step): Result<ChangeSet, Failure> {
    match step
    case Approve(grant, now) => AttachApproval(parse, cs, grant, now)
    case Record(receipt) => AttachReceipt(parse, cs, receipt)
  }

  /** The change set after some successful steps. */
  function AfterSteps(parse: Parse, created: ChangeSet, steps: seq<Step>): Result<ChangeSet, Failure>
    decreases |steps|
  {
    if steps == [] then Ok(created)
    else
      var n := |steps| - 1;
      var before := AfterSteps(parse, created, steps[..n]);
      if before.Err? then before else Take(parse, before.value, steps[n])
  }

  lemma {:induction false} LifeKeeps(parse: Parse, created: ChangeSet, steps: seq<Step>, cs: ChangeSet)
    requires Live(parse, created) && AfterSteps(parse, created, steps) == Ok(cs)
    ensures Live(parse, cs) && Grows(created, cs)
    decreases |steps|
  {
    if steps != [] {
      var n := |steps| - 1;
      var before := AfterSteps(parse, created, steps[..n]).value;
      LifeKeeps(parse, created, steps[..n], before);
      StepKeeps(parse, before, steps[n], cs);
      GrowsTransitive(created, before, cs);
    }
  }

  lemma {:induction false} StepKeeps(parse: Parse, cs: ChangeSet, step: Step, after: ChangeSet)
    requires Live(parse, cs) && Take(parse, cs, step) == Ok(after)
    ensures Live(parse, after) && Grows(cs, after)
  {
    match step
    case Approve(grant, now) => ApprovedLive(parse, cs, grant, now);
    case Record(receipt) => AttachedLive(parse, cs, receipt);
  }

  /** The lifecycle: every change set reached from a created one by approvals and receipts is valid, has
      the plan intent and hash it was created with, and keeps every approval and receipt it ever had. */
  lemma {:induction false} Lifecycle(parse: Parse, input: Input, created: ChangeSet, steps: seq<Step>, cs: ChangeSet)
    requires CreateChangeSet(parse, input) == Ok(created) && AfterSteps(parse, created, steps) == Ok(cs)
    ensures Issues(cs) == Ok([]) && Grows(created, cs)
    ensures PlanIntent(cs) == PlanIntent(created) && cs.planHash == created.planHash
      && PlanHash(cs) == Ok(created.planHash)
  {
    CreatedLive(parse, input, created);
    LifeKeeps(parse, created, steps, cs);
    GrowingKeepsIntent(created, cs);
    ValidIff(cs);
  }

  /** Every receipt belongs to its operation and plan and, when approval is needed, was applied while
      the one approval was alive: created <= approved <= applied < expires. */
  lemma {:induction false} ReceiptsUnderApproval(parse: Parse, input: Input, created: ChangeSet, steps: seq<Step>,
                                                 cs: ChangeSet, i: nat)
    requires CreateChangeSet(parse, input) == Ok(created) && AfterSteps(parse, created, steps) == Ok(cs)
    requires i < |cs.operations| && cs.operations[i].value.receipt.Some?
    ensures var r := cs.operations[i].value.receipt.value;
      && r.changeSetId == cs.id && r.operationId == cs.operations[i].id && r.planHash == cs.planHash
      && r.site == cs.site && r.actor == cs.actor
      && CanonicalJson(cs.operations[i].value.before) == Ok(r.beforeHash)
      && CanonicalJson(cs.operations[i].value.after) == Ok(r.afterHash)
      && (!cs.approvalClass.NoApproval? ==>
           cs.approval.Some? && BoundAndAlive(parse, cs, cs.approval.value, r.appliedAt))
  {
    CreatedLive(parse, input, created);
    LifeKeeps(parse, created, steps, cs);
    assert ReceiptFine(parse, cs, cs.operations[i]);
    ReceiptSays(cs, cs.operations[i], cs.operations[i].value.receipt.value);
  }

  lemma {:induction false} ReceiptSays(cs: ChangeSet, op: Operation, r: Receipt)
    requires WithId(cs, op, r.applied, r.executor, r.appliedAt, r.evidenceIds) == Ok(r)
    ensures r.changeSetId == cs.id && r.operationId == op.id && r.planHash == cs.planHash && r.site == cs.site
      && r.actor == cs.actor
    ensures CanonicalJson(op.value.before) == Ok(r.beforeHash) && CanonicalJson(op.value.after) == Ok(r.afterHash)
  {
  }
}
