# Governed Frappe and Jenkins packs: a model and its proofs

This project models the parts of the Frappe and Jenkins capability packs that carry guarantees, and proves
those guarantees for all inputs, runs and reachable states.

- **Coordinated reads.** `Scopes` normalises sites, principals and query signatures and keys the cache;
  `ReadModel` is the durable store; `Gate` is the bounded gate; `ReadService` is the service as a state
  machine whose steps are the code between two awaits; `FrappeReadService` is the object whose methods make
  exactly these steps. Runs start over any durable store. `ReadServiceSafety` proves the invalidation fence and
  identity isolation, `ReadServiceFlights` the gate's limits and single flight, `ReadServiceAges` the staleness
  bound and where epochs come from, `ReadServiceLifetimes` exactly when that bound holds, and
  `ReadServiceSites` why sites have to be stable under normalisation.
- **Change sets.** `Json` is canonical text and its injectivity, `ChangeOrder` the layered sort, `ChangeSet`
  risk, approval, plan hash and validator, `ChangeSetLifecycle` creation, approval and receipts.
- **Lineage.** `Lineage` validates, `LineageRemediation` proposes updates, `LineageRepair` proves when they
  repair and `LineageLoss` that some do not, `LineagePlan` resolves conflicts, `LineageLive` loads evidence from a site.
- **Graphs.** `Reach` and `BreadthFirst` carry `Hierarchy` and `CustomizationGraph`.
- **Texts.** `MandatoryDependsOn` splits and evaluates conditions, `MandatoryAtoms` reads the tests they are made
  of, `MandatoryConditions` proves what a condition evaluates to; `JenkinsPipeline` writes and reads pipeline XML.

`Text` and `Paths` hold what several of them share. Check everything with `dafny verify dfyconfig.toml`.

Some statements are false of the code, and the project says when they hold:

- The invalidation fence needs sites whose normal form is stable (`ReadServiceSites`): a site is normalised
  again on its way into the cache identity, and only one trailing slash goes each time.
- The limit on the validity of answers caps what a service stores, not what it finds in its database: the staleness
  bound holds exactly when no stored answer outlives it (`ReadServiceLifetimes.StalenessIff`).
- A repaired pair is Current unless, under a member of the target with a mismatched field, some mapped field loses
  what its comparison looks at (`LineageRepair.RepairIff`): system columns are dropped from the rows that are
  written, and so are system members inside their cells. `LineageLoss` has accepted updates that do not repair.
- A Pipeline script reads back unless it contains a dollar sign that replacement text interprets
  (`JenkinsPipeline.PipelineReadsBackIff`).
- A condition is evaluated to its meaning when each string literal ends where it is meant to and none contains what
  looks like a call (`MandatoryConditions.ConditionExactly`). A literal that contains what looks like a call makes it
  false (`CallMissed`); one that ends in a backslash swallows what follows (`BackslashMissed`); one that has an
  operator between two quotes of its own kind is taken apart there (`OperatorMissed`).
- The result cap of a neighbourhood does not bound the seeds (`CustomizationGraph.SeedsExceedCap`).

## Model

| member | source | states |
|---|---|---|
| ReadServiceSafety.InvalidationFence | capability-packs/frappe/src/read-service.ts:124-261 | after every run of the service over any sound store, under any interleaving and any clock, which may differ at each reading: a cached answer that an invalidation, event or epoch change matches was fetched by a live call begun after it; every answer given was so fetched as of the moment its flight settled; every stored epoch was loaded by a call begun after each permission change of its login |
| ReadServiceSafety.OvertakenQueryFails | capability-packs/frappe/src/read-service.ts:229-242 | a query flight whose site was invalidated after it captured its version settles with an error and leaves the store untouched: no cache write, no stale fallback |
| ReadServiceSafety.OvertakenIdentityFails | capability-packs/frappe/src/read-service.ts:189-206 | an identity flight whose site was invalidated after it captured its version stores no epoch and fails |
| ReadServiceSafety.IdentityIsolation | capability-packs/frappe/src/read-service.ts:124-146 | after every run each cached answer sits under the key of its own scope and was fetched with a credential of its own login; every answered read, whether hit, joined, live or stale, got an answer of its own login, epoch, revisions and signature |
| ReadServiceSafety.StoreStaysSound | capability-packs/frappe/src/enterprise.ts:304-379 | the store a run leaves is sound again: the statements hold of any number of services opened one after the other over one database |
| ReadServiceLifetimes.StalenessIff | capability-packs/frappe/src/read-service.ts:592-644 | over a sound store, every answer of every run is at most bound + maxStale old, current only while valid and younger than bound, temporarily stale only within maxStale of validity, exactly when no stored answer that can be asked for is valid for longer than the bound; the bound is any number from maxQueryTtl on |
| ReadServiceLifetimes.OutlivingServedLate | capability-packs/frappe/src/read-service.ts:132-134 | for every store with such an answer there is a run that serves it too late: the limit caps what is stored, not what is found |
| ReadServiceAges.StalenessBound | capability-packs/frappe/src/read-service.ts:592-644 | while no stored answer that can be asked for outlives the bound: whatever is served, by a hit, a joined flight, live or as a fallback, is at most bound + maxStale old, and its status tells how fresh it is |
| ReadServiceAges.StoreStaysShort | capability-packs/frappe/src/read-service.ts:243-258 | a run keeps the bound for the services that open the database later |
| ReadServiceAges.EpochsAreReported | capability-packs/frappe/src/read-service.ts:193-208 | every stored epoch, and the epoch of every identity known, settled or read for, was reported for its own login by an acceptable answer of a loader in this run, or stored for it at opening |
| ReadServiceAges.NextAged | capability-packs/frappe/src/read-service.ts:124-261 | each kind of step keeps the ages and the provenance of epochs |
| ReadServiceSafety.PruningIsSafe | capability-packs/frappe/src/read-service.ts:282-288 | a row that pruning removes could be served at that time or later exactly when its validity ended precisely maxStale before and the read is at that very time |
| ReadServiceSafety.EveryRunSafe | capability-packs/frappe/src/read-service.ts:96-294 | the invariant behind these statements holds in every reachable state |
| ReadServiceSafety.NextSafe | capability-packs/frappe/src/read-service.ts:124-261 | each of the ten kinds of step keeps that invariant |
| ReadServiceSafety.ReadSafe | capability-packs/frappe/src/read-service.ts:124-131 | starting a read keeps it: prune, stored epoch, joined or new identity flight |
| ReadServiceSafety.QuerySafe | capability-packs/frappe/src/read-service.ts:132-146 | a hit, a joined flight and a new flight keep it |
| ReadServiceSafety.IdentityAnsweredSafe | capability-packs/frappe/src/read-service.ts:192-208 | the loader returning keeps it, whatever it returns |
| ReadServiceSafety.LiveAnsweredSafe | capability-packs/frappe/src/read-service.ts:226-260 | the live call returning or failing keeps it |
| ReadServiceSafety.InvalidateSafe | capability-packs/frappe/src/read-service.ts:148-163 | an invalidation keeps it, also one that fails after moving the version on |
| ReadServiceSafety.ApplyEventSafe | capability-packs/frappe/src/read-service.ts:165-169 | an event keeps it, also a duplicate or refused one |
| ReadServiceSafety.JoinedScope | capability-packs/frappe/src/read-service.ts:136-138 | a flight offered under a cache key fetches exactly what that key stands for |
| ReadServiceSites.UnstableSiteBreaksFence | capability-packs/frappe/src/read-service.ts:677-682 | for every accepted site that a second normalisation changes, also to nothing, there is a run of the service that breaks the fence |
| ReadServiceSites.StableSitesKeepFence | capability-packs/frappe/src/read-service.ts:677-682 | while every site passed in normalises to a stable text, no run over a sound store breaks it |
| ReadServiceSites.TwoSlashes | capability-packs/frappe/src/read-service.ts:677-682 | every accepted site whose trimmed text ends in two slashes is such a site |
| ReadServiceFlights.GateBounds | capability-packs/frappe/src/read-service.ts:520-567 | after every run at most maxConcurrency loader and live calls are under way and at most maxQueue jobs wait, and only behind a full gate of an open service |
| ReadServiceFlights.SingleLiveCall | capability-packs/frappe/src/read-service.ts:136-145 | after every run at most one live call per cache key is waiting or under way |
| ReadServiceFlights.SingleIdentityLoad | capability-packs/frappe/src/read-service.ts:186-211 | after every run at most one identity load per site and principal is waiting or under way |
| ReadServiceFlights.EveryRunFlows | capability-packs/frappe/src/read-service.ts:124-261 | in every state of every run, over any store, the gate knows every job, waiting jobs are those queued, calls hold slots, and every unsettled job is the flight on offer for its key |
| ReadServiceFlights.NoCallAfterClose | capability-packs/frappe/src/read-service.ts:172-176 | once the service was closed no job begins to call a loader or the live site, in any run |
| Gate.EveryRun | capability-packs/frappe/src/read-service.ts:520-567 | after every run of the gate alone: limits kept, a waiting job means a full gate, each submitted job in exactly one of running, waiting, finished and rejected, starts first in first out |
| Gate.NoStartAfterClose | capability-packs/frappe/src/read-service.ts:557-566 | nothing starts once the gate was closed |
| Gate.AdmitKeeps | capability-packs/frappe/src/read-service.ts:535-555 | admitting a new job puts it, and nothing else, in one place |
| Gate.DrainKeeps | capability-packs/frappe/src/read-service.ts:540-544 | a finished job lets exactly the first waiting job start, if the gate is open |
| Gate.ShutKeeps | capability-packs/frappe/src/read-service.ts:557-561 | closing rejects the waiting jobs and moves no other |
| Gate.BoundedAsyncGate.constructor | capability-packs/frappe/src/read-service.ts:530-533 | an empty open gate with the given limits |
| Gate.BoundedAsyncGate.Run | capability-packs/frappe/src/read-service.ts:535-555 | the gate object admits, queues or refuses as the specification says |
| Gate.BoundedAsyncGate.Finish | capability-packs/frappe/src/read-service.ts:540-544 | it frees the slot and drains one job |
| Gate.BoundedAsyncGate.DrainQueue | capability-packs/frappe/src/read-service.ts:563-566 | it starts the first waiting job when open and below its limit |
| Gate.BoundedAsyncGate.Close | capability-packs/frappe/src/read-service.ts:557-561 | it returns the jobs it rejects |
| FrappeReadService.FrappeReadService.constructor | capability-packs/frappe/src/read-service.ts:110-122 | over a database just opened, whose tables are sound, the object starts with every invariant |
| FrappeReadService.FrappeReadService.Read | capability-packs/frappe/src/read-service.ts:124-131 | for a stable site: the step of the machine, in the order of its clock readings; every invariant is kept |
| FrappeReadService.FrappeReadService.Continue | capability-packs/frappe/src/read-service.ts:132-146 | what a hit answers is for the reader's own login, epoch, revisions and signature, fetched with a credential of that login, after every invalidation that matches it |
| FrappeReadService.FrappeReadService.Deliver | capability-packs/frappe/src/read-service.ts:138-146 | the same of the outcome of a flight, for the invalidations before it settled |
| FrappeReadService.FrappeReadService.IdentityReturned | capability-packs/frappe/src/read-service.ts:195-207 | if the site was invalidated meanwhile, nothing is stored and the flight fails |
| FrappeReadService.FrappeReadService.LiveReturned | capability-packs/frappe/src/read-service.ts:229-260 | if the site was invalidated meanwhile, nothing is stored, no fallback served, and the flight fails |
| FrappeReadService.FrappeReadService.Release | capability-packs/frappe/src/read-service.ts:540-544 | the slot is freed, the next job begins, and every invariant is kept |
| FrappeReadService.FrappeReadService.Invalidate | capability-packs/frappe/src/read-service.ts:148-163 | no cached answer that the invalidation matches is left, it counts for the fence from now on, and the receipt tells what went |
| FrappeReadService.FrappeReadService.ApplyEvent | capability-packs/frappe/src/read-service.ts:165-169 | the same of an event that was applied; a refused or repeated one changes no table |
| FrappeReadService.FrappeReadService.Close | capability-packs/frappe/src/read-service.ts:172-176 | no job is left waiting |
| Scopes.ScopeKeyInjective | capability-packs/frappe/src/enterprise.ts:756-765 | two scopes have the same cache key exactly when they are equal |
| Scopes.SiteTextStable | capability-packs/frappe/src/read-service.ts:677-682 | a normalised site is stable exactly when it ends in neither a slash nor a blank |
| Scopes.PrincipalStable | capability-packs/frappe/src/read-service.ts:684-689 | normalising a principal is idempotent |
| Scopes.SignatureStable | capability-packs/frappe/src/read-service.ts:691-695 | normalising a query signature is idempotent |
| Scopes.NormalizedNotBlank | capability-packs/frappe/src/enterprise.ts:1384-1388 | a site the service accepts is never refused as blank by the store |
| ReadModel.EventLogIdempotent | capability-packs/frappe/src/enterprise.ts:648-692 | a log of events with repetitions and refused events leaves the store as the first acceptable occurrences alone do |
| ReadModel.FirstsTakeEffect | capability-packs/frappe/src/enterprise.ts:648-692 | each of those occurrences takes effect where it stands |
| ReadModel.ReceiptsAfter | capability-packs/frappe/src/enterprise.ts:684-686 | receipts afterwards are those before and every acceptable event, no others |
| ReadModel.EventClears | capability-packs/frappe/src/enterprise.ts:664-674 | an event that took effect leaves no cached answer within its selectors and every other as it was |
| ReadModel.EventDropsEpochs | capability-packs/frappe/src/enterprise.ts:675-677 | a permission change drops exactly the epochs it names |
| ReadModel.PutThenGet | capability-packs/frappe/src/enterprise.ts:537-605 | what was put is found under its scope, and every other scope finds what it found before |
| ReadModel.SnapshotReplaces | capability-packs/frappe/src/enterprise.ts:381-400 | after a snapshot the index holds only its objects for the normalised site exactly when the site was given in normal form or nothing else was indexed there |
| ReadModel.DeleteAfterUpsert | capability-packs/frappe/src/enterprise.ts:439-441 | a delete event removes what an upsert event for the same site, kind and object stored exactly when the site was given in its normal form |
| ReadModel.RevisionsFollowTheLog | capability-packs/frappe/src/enterprise.ts:520-535 | after any log of events a site has a revision exactly if it had one or some event took effect for it; its data revision is that of the last such event about data, its schema revision that of the last other one |
| ReadModel.SqliteFrappeReadModel.constructor | capability-packs/frappe/src/enterprise.ts:304-379 | the tables as they were left |
| ReadModel.SqliteFrappeReadModel.UpsertIndex | capability-packs/frappe/src/enterprise.ts:402-437 | later records of a key replace earlier ones |
| ReadModel.SqliteFrappeReadModel.PutPermissionEpoch | capability-packs/frappe/src/enterprise.ts:468-480 | stores the epoch under its normalised login or refuses bad times |
| ReadModel.SqliteFrappeReadModel.GetPermissionEpochState | capability-packs/frappe/src/enterprise.ts:489-506 | finds the epoch of the normalised login |
| ReadModel.SqliteFrappeReadModel.InvalidatePermissionEpochs | capability-packs/frappe/src/enterprise.ts:512-518 | drops the epochs of one login or of a whole site and counts them |
| ReadModel.SqliteFrappeReadModel.PutCache | capability-packs/frappe/src/enterprise.ts:537-567 | upsert under the scope's key, or the refusal |
| ReadModel.SqliteFrappeReadModel.GetCache | capability-packs/frappe/src/enterprise.ts:569-605 | finds a row only if key and every scope column agree |
| ReadModel.SqliteFrappeReadModel.InvalidateCache | capability-packs/frappe/src/enterprise.ts:607-633 | deletes exactly the matching rows and counts them, or refuses and deletes none |
| ReadModel.SqliteFrappeReadModel.InvalidateSiteCache | capability-packs/frappe/src/enterprise.ts:635-637 | deletes and counts every row of a site, or refuses a blank one |
| ReadModel.SqliteFrappeReadModel.PruneCache | capability-packs/frappe/src/enterprise.ts:639-646 | deletes exactly the rows expired by the cutoff, of one site or of all |
| ReadModel.SqliteFrappeReadModel.ApplyEvent | capability-packs/frappe/src/enterprise.ts:648-692 | all or nothing: a duplicate or refused event leaves every table as it was |
| ReadModel.SqliteFrappeReadModel.ReplaceSnapshot | capability-packs/frappe/src/enterprise.ts:381-400 | the new index, revision and, if the revision changed, the cleared cache |
| ReadModel.SqliteFrappeReadModel.ConsumeApproval | capability-packs/frappe/src/enterprise.ts:694-700 | true for the first consumption only, whose signature stays |
| ChangeOrder.OrderFrappeChangeOperations | capability-packs/frappe/src/change-set.ts:335-367 | the loops over a shrinking map compute exactly the specified layered order or report exactly the specified issues |
| ChangeOrder.CollectById | capability-packs/frappe/src/change-set.ts:336-341 | every duplicate id is reported |
| ChangeOrder.DrainLayers | capability-packs/frappe/src/change-set.ts:350-366 | the loop ends and yields the layers, or the ids it is stuck on |
| ChangeOrder.TakeReady | capability-packs/frappe/src/change-set.ts:360-364 | a ready layer leaves the graph and every waiting set |
| ChangeOrder.OrderIsPermutation | capability-packs/frappe/src/change-set.ts:335-367 | the result has the same operations, each once |
| ChangeOrder.OrderSorts | capability-packs/frappe/src/change-set.ts:350-366 | the result is sorted by longest dependency chain and then id; dependencies come first |
| ChangeOrder.LayerIsLongestChain | capability-packs/frappe/src/change-set.ts:350-366 | the layer of an operation is the length of its longest dependency chain |
| ChangeOrder.OrderIgnoresInputOrder | capability-packs/frappe/src/change-set.ts:350-366 | the result does not depend on the order of the input |
| ChangeOrder.OrderIdempotent | capability-packs/frappe/src/change-set.ts:515-519 | ordering an ordered list changes nothing |
| ChangeOrder.OrderIgnoresValues | capability-packs/frappe/src/change-set.ts:515-519 | the order depends on ids and dependencies only |
| ChangeOrder.StuckIffCycle | capability-packs/frappe/src/change-set.ts:353-358 | the sort is stuck exactly when the dependencies contain a cycle |
| ChangeOrder.StuckWaits | capability-packs/frappe/src/change-set.ts:353-358 | when stuck, every remaining operation waits for a remaining one |
| ChangeOrder.OrderFails | capability-packs/frappe/src/change-set.ts:348-358 | ordering fails exactly for bad links or a cycle, and then names the stuck operations |
| Json.CanonicalJsonInjective | capability-packs/frappe/src/change-set.ts:265-285 | canonical texts are equal exactly when the values are, whatever the order of object members |
| Json.ValueTextUnique | capability-packs/frappe/src/change-set.ts:265-281 | the text of a value followed by a text that does not continue a number determines both |
| Json.QuoteUnique | capability-packs/frappe/src/change-set.ts:266-266 | a quoted string followed by anything determines the string |
| ChangeSet.ValidateFrappeChangeSet | capability-packs/frappe/src/change-set.ts:511-554 | the validator's loops report exactly the specified issues |
| ChangeSet.CheckOperations | capability-packs/frappe/src/change-set.ts:524-542 | every operation is checked against the keys of those before it |
| ChangeSet.CheckRules | capability-packs/frappe/src/change-set.ts:548-552 | every verification rule must name a known operation |
| ChangeSet.ValidIff | capability-packs/frappe/src/change-set.ts:511-554 | no issue is reported exactly for the change sets that satisfy the declarative conditions: own hash, dependency order, fine operations with distinct keys, risk, approval, verification |
| ChangeSet.OrderIssuesNone | capability-packs/frappe/src/change-set.ts:515-523 | the stored order is accepted exactly when sorting returns the operations as they are |
| ChangeSet.ApprovalCoversEveryOperation | capability-packs/frappe/src/change-set.ts:299-315 | in a valid change set the approval class is at least what each operation's inferred risk requires |
| ChangeSet.ApprovalMonotone | capability-packs/frappe/src/change-set.ts:311-315 | a greater risk never requires less approval |
| ChangeSet.PlanHashBinds | capability-packs/frappe/src/change-set.ts:369-389 | plan hashes are equal exactly when plan intents are |
| ChangeSet.PlanHashBindsScope | capability-packs/frappe/src/change-set.ts:369-389 | equal hashes mean the same id, site, app, actor, epoch, revisions and creation time |
| ChangeSet.PlanHashBindsOperations | capability-packs/frappe/src/change-set.ts:383-383 | equal hashes mean the same operations in the same places |
| ChangeSetLifecycle.Lifecycle | capability-packs/frappe/src/change-set.ts:399-642 | every change set reached from a created one by approvals and receipts is valid, has the plan intent and hash it was created with, and keeps every approval and receipt |
| ChangeSetLifecycle.ReceiptsUnderApproval | capability-packs/frappe/src/change-set.ts:583-642 | every receipt is bound to its operation and plan and, where approval is needed, createdAt <= approvedAt <= appliedAt < expiresAt under the one approval |
| ChangeSetLifecycle.CreatedLive | capability-packs/frappe/src/change-set.ts:399-449 | a created change set is valid and has no receipt |
| ChangeSetLifecycle.CreationReportsContent | capability-packs/frappe/src/change-set.ts:409-447 | validation at creation never fails for order, hash, risk or approval class, only for single operations and verification |
| ChangeSetLifecycle.ApprovedLive | capability-packs/frappe/src/change-set.ts:480-509 | an attached approval is bound and alive, replaces none, and the change set stays valid |
| ChangeSetLifecycle.AttachedLive | capability-packs/frappe/src/change-set.ts:619-642 | an attached receipt replaces none and the change set stays valid |
| ChangeSetLifecycle.AttachedWhere | capability-packs/frappe/src/change-set.ts:619-634 | an attached receipt is the one that would be created; a receipt already there has its id |
| ChangeSetLifecycle.SameIdSameReceipt | capability-packs/frappe/src/change-set.ts:631-633 | of one operation, a receipt with the same id is the same receipt |
| ChangeSetLifecycle.ReceiptHashBinds | capability-packs/frappe/src/change-set.ts:628-630 | receipts with the same hash are equal |
| ChangeSetLifecycle.BindingIff | capability-packs/frappe/src/change-set.ts:451-478 | an approval has no problem exactly when it is bound to plan, actor, site and epoch and is alive, with another approver under dual control |
| ChangeSetLifecycle.ValidateFrappeApprovalBinding | capability-packs/frappe/src/change-set.ts:451-478 | the loop over the checks reports exactly the failed ones |
| ChangeSetLifecycle.GrowingKeepsIntent | capability-packs/frappe/src/change-set.ts:505-507 | approvals, evidence and receipts change neither plan intent nor hash |
| Lineage.GetPath | capability-packs/frappe/src/lineage.ts:213-230 | the cursor loops collect the values the path leads to |
| Lineage.StatusIsStrongest | capability-packs/frappe/src/lineage.ts:152-156 | that status is the strongest of the mismatches' own, and one of them has it |
| Lineage.PairCurrentIff | capability-packs/frappe/src/lineage.ts:144-162 | a pair is Current exactly when both records are readable, the target is in use and every mapped field agrees |
| Lineage.ValidateFrappeLineage | capability-packs/frappe/src/lineage.ts:82-130 | refuses exactly empty, oversized or incomplete evidence, else yields all findings |
| Lineage.PassIff | capability-packs/frappe/src/lineage.ts:131-139 | the verdict is PASS exactly when every source record of every relationship is readable, has a match (one where one is expected), and all its matches are Current |
| LineageRepair.RepairIff | capability-packs/frappe/src/lineage-remediation.ts:211-297 | once all changes of a proposed action are made the validator finds the pair Current exactly when, of the mapped fields that share their first member of the target with a mismatched one, each agrees with what is written for it: the source's values without system columns and without system members in cells; all of this is known before the proposal |
| LineageRepair.RepairSound | capability-packs/frappe/src/lineage-remediation.ts:211-297 | without mapped system columns and with scalar cells every proposed action repairs its pair |
| LineageRepair.ProposedPaths | capability-packs/frappe/src/lineage-remediation.ts:217-270 | a proposal changes exactly the members of the target with a mismatched field |
| LineageLoss.AcceptedButNotRepaired | capability-packs/frappe/src/lineage-remediation.ts:351-353 | for every table with a plain and a system column mapped, rows that differ in the plain one only give a finding that is not refused, a proposal that is accepted, and a pair that is not Current afterwards |
| LineageLoss.RowNumberLost | capability-packs/frappe/src/lineage-remediation.ts:351-353 | for instance where idx is mapped beside another column |
| LineageRepair.ColumnRepaired | capability-packs/frappe/src/lineage-remediation.ts:234-270 | every mapped column of a refilled table reads as the source's column, without system members inside its cells |
| LineageRepair.ManagedColumnLost | capability-packs/frappe/src/lineage-remediation.ts:351-353 | a mapped system column of a changed table reads nothing afterwards |
| LineageRepair.PlainRepaired | capability-packs/frappe/src/lineage-remediation.ts:223-231 | a changed plain field reads as the source's value |
| LineageRepair.UniqueField | capability-packs/frappe/src/lineage-remediation.ts:387-395 | removing repeated changes and sorting them changes no resulting value |
| LineageRepair.PathFrame | capability-packs/frappe/src/lineage.ts:213-230 | a path reads only the member it begins with |
| LineageRemediation.ReadIsPathValue | capability-packs/frappe/src/lineage-remediation.ts:315-338 | what the planner reads is what the validator compares |
| LineageRemediation.SanitizedField | capability-packs/frappe/src/lineage-remediation.ts:351-359 | sanitising drops exactly the system members of a row |
| LineageRemediation.ParsedUnique | capability-packs/frappe/src/lineage-remediation.ts:302-308 | two paths to one column of one table are one path |
| LineagePlan.ReadPathOf | capability-packs/frappe/src/lineage-remediation.ts:315-338 | the cursor loop with its early return computes the specified reading |
| LineagePlan.ProposeAction | capability-packs/frappe/src/lineage-remediation.ts:211-297 | the loops propose exactly the specified changes or refuse with the specified code |
| LineagePlan.ConflictingActionIds | capability-packs/frappe/src/lineage-remediation.ts:397-415 | the nested maps yield exactly the actions for which another value is proposed at one of their places |
| LineagePlan.PlanFrappeLineageRemediation | capability-packs/frappe/src/lineage-remediation.ts:118-152 | every finding that is not Current is answered exactly once by an action or a refusal; an action is kept exactly when no proposed action gives another value for one of its target paths |
| LineagePlan.PlanConserves | capability-packs/frappe/src/lineage-remediation.ts:118-152 | actions and refusals together are about just the findings that are not Current |
| LineagePlan.KeptActionsCommute | capability-packs/frappe/src/lineage-remediation.ts:138-148 | applying the kept actions in any order gives documents with the same values |
| LineagePlan.TextsAreValues | capability-packs/frappe/src/lineage-remediation.ts:422-422 | equal canonical texts are equal values |
| LineageLive.LoadLiveFrappeLineageEvidence | capability-packs/frappe/src/lineage-live.ts:51-85 | if the loader returns, its records are exactly those reachable from the root by relationship queries from readable records, each once and within the cap; if it fails, the root cannot be read or some query cannot be answered in full |
| LineageLive.ReachableIsLeast | capability-packs/frappe/src/lineage-live.ts:72-85 | that set is the least one containing the root and closed under the queries |
| LineageLive.QueryTargets | capability-packs/frappe/src/lineage-live.ts:151-186 | every match or an error, never a truncated list |
| LineageLive.QueryPages | capability-packs/frappe/src/lineage-live.ts:157-184 | paging succeeds exactly when all rows fit the limit and can be read |
| LineageLive.FetchPage | capability-packs/frappe/src/lineage-live.ts:176-180 | the records of one page, or the first failure |
| LineageLive.AddRecord | capability-packs/frappe/src/lineage-live.ts:205-215 | one record per key; the cap is an error, not a truncation |
| LineageLive.FollowRelationship | capability-packs/frappe/src/lineage-live.ts:75-83 | the matches of one relationship are filed, or the query cannot be answered in full |
| LineageLive.FollowRecord | capability-packs/frappe/src/lineage-live.ts:75-84 | everything a readable record leads to is filed |
| Hierarchy.DeriveFrappeHierarchyScope | capability-packs/frappe/src/enterprise.ts:767-826 | depths are exactly the shortest manager-chain distances from a self record, within the limit, for all rows including cycles and duplicates; principals agree with them |
| Hierarchy.Descend | capability-packs/frappe/src/enterprise.ts:790-808 | the queue search computes those depths and principals |
| Hierarchy.IndexRows | capability-packs/frappe/src/enterprise.ts:777-784 | the last row of an id counts, every row adds its link |
| BreadthFirst.Search | capability-packs/frappe/src/enterprise.ts:793-808 | the queue loop ends and yields shortest distances |
| Reach.DistanceIsFirstBall | capability-packs/frappe/src/enterprise.ts:793-808 | the distance is the first ball a vertex lies in |
| CustomizationGraph.BuildFrappeCustomizationGraph | capability-packs/frappe/src/customization-graph.ts:75-111 | a graph is built exactly from consistent evidence of one scope, with all its nodes and edges in id order |
| CustomizationGraph.FrappeCustomizationNeighborhood | capability-packs/frappe/src/customization-graph.ts:113-138 | errors exactly for bad limits or nothing visible, else the induced subgraph of a selection |
| CustomizationGraph.SelectNodes | capability-packs/frappe/src/customization-graph.ts:122-133 | the depth loop selects a whole ball where it fits, else a subset in which every node reaches a seed inside the selection |
| CustomizationGraph.SelectionSize | capability-packs/frappe/src/customization-graph.ts:122-133 | the selection is the ball when that fits the cap and the seeds when they fill it |
| CustomizationGraph.SeedsExceedCap | capability-packs/frappe/src/customization-graph.ts:123-124 | more seeds than the cap are all selected: the cap bounds only what is added |
| CustomizationGraph.InducedGraph | capability-packs/frappe/src/customization-graph.ts:134-137 | rebuilding the selected nodes and edges never fails |
| MandatoryConditions.ConditionExactly | capability-packs/frappe/src/read-service.ts:403-443 | for every and/or tree of accepted tests whose string literals end where they are meant to, the last test outside parentheses possibly excepted: evaluating any of its texts, however spaced and parenthesised, with or without eval:, gives true exactly when the tree is true and no string literal contains what looks like a call; operators inside literals do not matter |
| MandatoryConditions.CompareAtomIff | capability-packs/frappe/src/read-service.ts:425-426 | the scanner passes over a comparison unharmed exactly when its literal contains no unescaped quote of its own kind and no backslash before the closing quote, or what follows its first closing quote is flat on its own |
| MandatoryConditions.TestAtom | capability-packs/frappe/src/read-service.ts:416-443 | every accepted test whose literals end where they are meant to is an atom of conditions; of a list each literal has to be closed where it ends |
| MandatoryConditions.TestForeign | capability-packs/frappe/src/read-service.ts:406-407 | a test looks like a function call exactly when the text of one of its string literals does |
| MandatoryConditions.UnclosedSwallows | capability-packs/frappe/src/read-service.ts:483-486 | a condition that begins with a test whose literal ends in a backslash is false whatever follows, as long as that kind of quote does not |
| MandatoryConditions.UnclosedInParentheses | capability-packs/frappe/src/read-service.ts:454-472 | in parentheses such a test is false |
| MandatoryConditions.UnclosedAlone | capability-packs/frappe/src/read-service.ts:403-443 | alone, a test whose literal ends in a backslash is evaluated to its meaning |
| MandatoryConditions.UnclosedMissed | capability-packs/frappe/src/read-service.ts:483-486 | every conjunction of such a test with another is false although both hold |
| MandatoryConditions.BackslashMissed | capability-packs/frappe/src/read-service.ts:483-486 | for instance doc.x == "a\" && doc.y |
| MandatoryConditions.StraddlingSplits | capability-packs/frappe/src/read-service.ts:425-426 | a test whose literal has an operator between two quotes of its own kind is accepted, but evaluated as the comparison with what stands before, joined with false |
| MandatoryConditions.OperatorMissed | capability-packs/frappe/src/read-service.ts:425-426 | so doc.x == "a" or "b", written with two bars, is one test that does not hold of a document where x is a, and is evaluated to true |
| MandatoryConditions.CallMissed | capability-packs/frappe/src/read-service.ts:406-407 | doc.x == "f(y)" is false even where it holds |
| MandatoryAtoms.TestReadsBack | capability-packs/frappe/src/read-service.ts:416-443 | the four expressions, tried in turn, read back every accepted test and decide what it means |
| MandatoryDependsOn.EvaluateExactly | capability-packs/frappe/src/read-service.ts:403-443 | for any way to decide texts without top-level operators: evaluating any text of an and/or tree of quiet texts, level but for the last one outside parentheses, gives true exactly when the tree is true and no atom looks like a function call |
| MandatoryDependsOn.EvaluateCorrect | capability-packs/frappe/src/read-service.ts:403-443 | without an atom that looks like a call the evaluation is the tree's meaning |
| MandatoryDependsOn.SplitTopLevelExpression | capability-packs/frappe/src/read-service.ts:474-500 | the quote- and bracket-aware loop computes the specified parts |
| MandatoryDependsOn.SplitWritten | capability-packs/frappe/src/read-service.ts:474-500 | splitting a written chain returns its operands' texts |
| MandatoryDependsOn.PiecesShorter | capability-packs/frappe/src/read-service.ts:474-500 | several parts are each shorter than the text, so the evaluator ends |
| MandatoryDependsOn.EnclosesWholeExpression | capability-packs/frappe/src/read-service.ts:454-472 | true exactly when the parentheses are balanced at the end and at no earlier character outside string literals |
| MandatoryDependsOn.UnwrapExpression | capability-packs/frappe/src/read-service.ts:446-452 | parentheses around the whole text are removed as often as there are any |
| JenkinsPipeline.WorkflowRoundTrip | capability-packs/jenkins/src/index.ts:162-178 | the script of a new job reads back as it was given, for every script |
| JenkinsPipeline.UnescapeInvertsEscape | capability-packs/jenkins/src/index.ts:164-174 | five global replacements in sequence undo the escaping |
| JenkinsPipeline.PipelineRoundTrip | capability-packs/jenkins/src/index.ts:180-187 | a script without special dollar pairs replaces the old one, reads back, leaves the text around it, and a second application changes nothing |
| JenkinsPipeline.PipelineReadsBackIff | capability-packs/jenkins/src/index.ts:180-187 | where there is text before and after the element and neither begins with a dollar sign, replacing reads back exactly when the script was already there or has no dollar sign followed by a character that replacement text interprets |
| JenkinsPipeline.PipelineRefusesIff | capability-packs/jenkins/src/index.ts:180-187 | writing is refused exactly for an existing job without a script element |
| JenkinsPipeline.PromptDoesNotReadBack | capability-packs/jenkins/src/index.ts:186-186 | a shell prompt in single quotes does not read back |

## Left out

- Times are integers in milliseconds and a time that does not parse is a missing value; the textual order of
  ISO timestamps that pruning uses is the order of these integers.
- Strings are sequences of characters; white space, letters and case are those of ASCII, and a query signature
  keeps ASCII letters and digits only. Numbers are integers: exponents and fractions are not printed.
- A hash is the canonical text it is computed from; a text in place of SHA-256 makes "equal hashes, equal
  values" a theorem instead of an assumption. The path inside the TypeError of `canonicalJson` is not modelled.
- Collation by `localeCompare` is the lexicographic order of the texts. Keys that the code joins with a NUL
  character are pairs.
- What a loader, the live site or a Frappe server answers, and the clock, are arbitrary parameters of the
  steps; HTTP, credentials and SQL are not modelled. Messages of errors are shortened.
- The promises of a read are the jobs and readers of `ReadService.State`; two counters per job and row (how many
  invalidations there had been when a call began) and the login of the credential that fetched a row exist for the
  proofs only; the counters start again when a database is opened.
- A reader that joins a flight which has settled but not been withdrawn gets that flight's outcome; the fence is
  stated as of the settling.
- Writing to the store behind the service's back (`replaceSnapshot`, `setRevision`) does not move site versions
  on and is not a step of the service.
- Scopes.SignatureStable: a query signature keeps ASCII letters and digits only; others, which the code keeps, become
  blanks.
- Json.CanonicalJsonInjective: numbers are integers.
- Json.ValueTextUnique: numbers are integers.
- ReadModel.SqliteFrappeReadModel.ReplaceSnapshot: the index records and the revision come with the snapshot instead of
  being built from it.
- MandatoryAtoms.TestReadsBack: how a document's value compares with a literal, whether it is true, and what a list of
  literals contains (`JSON.parse`) are parameters.
- MandatoryConditions.ConditionExactly: a literal that ends in a backslash may stand in the last test only, and one that
  is taken apart not at all; of the others `UnclosedSwallows`, `UnclosedInParentheses` and `StraddlingSplits` say what
  becomes of them.
- MandatoryConditions.TestAtom: of a list of literals it asks that each is closed where it ends; the converse is proved
  of comparisons only.
- LineageRepair.RepairIff: asks that mapped fields begin with different members of the target unless they are
  columns of one table; changes that share a path otherwise overwrite each other.
- JenkinsPipeline.PipelineReadsBackIff: a document that begins or ends with the script element, or whose text around it
  begins with a dollar sign, is not covered; a job's document begins and ends with another element.
- LineageLive.LoadLiveFrappeLineageEvidence: the site does not change during the load and a listed record answers
  under its own name; the projection of documents, cap defaults and manifest review are left out.
- Lineage.ValidateFrappeLineage: document names are taken as trimmed, all documents as of one scope, and findings as
  unsorted; summaries, evidence ids, digests and the review of a manifest are left out.
- LineagePlan.PlanFrappeLineageRemediation: the re-validation before planning, the review of the manifest and the sorting
  of the result are left out.
- LineageRemediation: the texts that show a change before and after, labels and execution requirements are left out.
- ChangeSet.ValidateFrappeChangeSet: a change set has schema version 1, as its type says.
- ChangeSet: members of an operation that no rule looks at are one value; `assertFrappeChangeSetFresh`,
  postcondition checks and repair selection are left out as single comparisons.
- CustomizationGraph.BuildFrappeCustomizationGraph: normalising a node or edge is taken as done, digests are left out.
- Hierarchy: evidence texts are left out.
- ReadModel: redaction and search text of indexed payloads and `searchIndex` are left out.
