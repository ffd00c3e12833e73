/** An answer that a durable store keeps for too long is served for too long. */
module ReadServiceLifetimes {
  import opened Text
  import opened Scopes
  import opened ReadModel
  import opened Gate
  import opened ReadService
  import opened ReadServiceSafety
  import opened ReadServiceAges

  // ------------------------------------------------------------------ texts not yet used

  lemma {:induction false} LongerThanAll(texts: set<string>) returns (n: nat)
    ensures n > 0 && forall t :: t in texts ==> |t| < n
    decreases |texts|
  {
    n := 1;
    if texts != {} {
      var t :| t in texts;
      n := LongerThanAll(texts - {t});
      if n <= |t| { n := |t| + 1; }
    }
  }

  lemma UnusedText(texts: set<string>) returns (t: string)
    ensures t !in texts && t != "" && Trim(t) == t
  {
    var n := LongerThanAll(texts);
    t := seq(n, _ => 'x');
    TrimIdempotent(t);
  }

  // ------------------------------------------------------------------ the run

  /** A stored answer under its key, the events' names, and a reference the answer does not have. */
  datatype Late = Late(key: string, row: Row, first: string, second: string, ref: string)

  function LoginOfLate(x: Late): Login {
    x.row.scope.login
  }

  function IdentityOfLate(x: Late): Identity {
    Identity(LoginOfLate(x).site, LoginOfLate(x).principal, x.row.scope.permissionEpoch, x.row.scope.schemaRevision,
      x.row.scope.dataRevision)
  }

  function AskOfLate(x: Late): Ask {
    Ask(LoginOfLate(x), x.row.scope.signature, None, NoFallback)
  }

  ghost predicate Fit(x: Late) {
    && x.key == ScopeKey(x.row.scope) && NormalLogin(LoginOfLate(x)) && FineSignature(x.row.scope.signature)
    && x.ref != "" && Trim(x.ref) == x.ref && x.ref !in x.row.refs && x.first != x.second
  }

  /** The answer is still stored. */
  predicate Kept(x: Late, s: State) {
    x.key in s.store.cache && s.store.cache[x.key] == x.row
  }

  /** Nothing but events has happened. */
  predicate Idle(s: State) {
    && !s.closed && s.gate == Empty() && s.nextJob == 0 && s.identityJobs == map[] && s.queryJobs == map[]
    && s.identityFlights == map[] && s.queryFlights == map[] && s.readers == map[] && s.prunedAt == map[]
  }

  /** Changes the schema revision, and the permissions of the login if `drop`, and no answer stored. */
  function SchemaEvent(x: Late, drop: bool): Event {
    Event(x.first, LoginOfLate(x).site, if drop then PermissionChanged
      else SchemaChanged, "", "", None, x.row.scope.schemaRevision,
          None, Unset, if drop then LoginOfLate(x).principal else "", "", [x.ref], [])
  }

  function DataEvent(x: Late): Event {
    Event(x.second, LoginOfLate(x).site, DataChanged, "", "", None, x.row.scope.dataRevision, None, Unset, "", "",
      [x.ref], [])
  }

  lemma OneRef(t: string)
    requires t != "" && Trim(t) == t
    ensures TrimmedRefs([t]) == {t}
  {
    assert Trim([t][0]) == t;
    forall r | r in TrimmedRefs([t]) ensures r == t {
      var i :| 0 <= i < |[t]| && Trim([t][i]) != "" && r == Trim([t][i]);
    }
    assert t in TrimmedRefs([t]);
  }

  lemma EventSpares(x: Late, e: Event)
    requires Fit(x) && e.site == LoginOfLate(x).site && e.objectRefs == [x.ref] && e.querySignatures == []
    requires e.operation != Upsert && e.operation != Delete
    ensures EventRefusal(e).None?
    ensures !Matches(SelectorsOf(EventInvalidation(e)).value, x.row)
  {
    NormalizedNotBlank(e.site);
    OneRef(x.ref);
  }

  lemma EventStep(x: Late, s: State, e: Event)
    requires Fit(x) && Kept(x, s) && Idle(s) && e.eventId !in s.store.receipts
    requires e.site == LoginOfLate(x).site && e.objectRefs == [x.ref] && e.querySignatures == []
    requires e.operation != Upsert && e.operation != Delete
    ensures var s' := ApplyEvent(s, e); Kept(x, s') && Idle(s') && s'.store == Applied(s.store, e)
  {
    EventSpares(x, e);
    AppliedKeeps(x, s.store, e);
  }

  lemma AppliedKeeps(x: Late, store: Store, e: Event)
    requires x.key in store.cache && store.cache[x.key] == x.row && EventRefusal(e).None?
    requires !Matches(SelectorsOf(EventInvalidation(e)).value, x.row)
    ensures x.key in Applied(store, e).cache && Applied(store, e).cache[x.key] == x.row
  {
  }

  /** The store holds the revisions of the answer's scope. */
  predicate Revised(x: Late, s: State) {
    var site := LoginOfLate(x).site;
    site in s.store.revisions && s.store.revisions[site].schemaRevision == x.row.scope.schemaRevision
    && s.store.revisions[site].dataRevision == x.row.scope.dataRevision
  }

  lemma EventsStep(x: Late, s: State, drop: bool)
    requires Fit(x) && Kept(x, s) && Idle(s) && x.first !in s.store.receipts && x.second !in s.store.receipts
    ensures var s1 := ApplyEvent(s, SchemaEvent(x, drop)); var s2 := ApplyEvent(s1, DataEvent(x));
      && Kept(x, s2) && Idle(s2) && Revised(x, s2)
      && s2.store.epochs == (if drop then EpochsWithout(s.store.epochs, LoginOfLate(x).site, LoginOfLate(x).principal)
           else s.store.epochs)
  {
    EventStep(x, s, SchemaEvent(x, drop));
    EventStep(x, ApplyEvent(s, SchemaEvent(x, drop)), DataEvent(x));
  }

  // ------------------------------------------------------------------ the read

  function RequestOfLate(x: Late): Request {
    Request(LoginOfLate(x).site, LoginOfLate(x).principal, x.row.scope.signature, None, NoFallback)
  }

  lemma LateAsked(x: Late)
    requires Fit(x)
    ensures AskOf(RequestOfLate(x)) == Ok(AskOfLate(x))
  {
    NormalLoginTexts(LoginOfLate(x));
  }

  lemma PruneKeeps(c: Config, x: Late, s: State, now: int)
    requires ValidConfig(c) && Kept(x, s) && Idle(s) && now < x.row.validUntil
    ensures var s' := MaybePrune(c, s, LoginOfLate(x).site, now);
      Kept(x, s') && Idle(s'.(prunedAt := map[])) && s' == s.(store := s'.store, prunedAt := s'.prunedAt)
      && s'.store == s.store.(cache := s'.store.cache)
  {
  }

  /** The reader knows the identity of the answer's scope. */
  ghost predicate Identified(x: Late, s: State) {
    && Kept(x, s) && 0 in s.readers && s.readers[0].Resolving? && s.readers[0].ask == AskOfLate(x)
    && IdentityFor(s, s.readers[0].source) == Some(Ok(IdentityOfLate(x)))
  }

  lemma LateIdentity(x: Late, s: State)
    requires Fit(x) && Revised(x, s)
    ensures CacheIdentity(s.store.revisions, LoginOfLate(x).site, LoginOfLate(x).principal,
      x.row.scope.permissionEpoch) == Ok(IdentityOfLate(x))
  {
    NormalLoginTexts(LoginOfLate(x));
  }

  /** With a fresh epoch in the store, the identity is known at once. */
  lemma StoredStep(c: Config, x: Late, s: State, now: int)
    requires ValidConfig(c) && Fit(x) && Kept(x, s) && Idle(s) && Revised(x, s) && now < x.row.validUntil
    requires LoginOfLate(x) in s.store.epochs && s.store.epochs[LoginOfLate(x)].login == LoginOfLate(x)
    requires s.store.epochs[LoginOfLate(x)].epoch == x.row.scope.permissionEpoch
      && now < s.store.epochs[LoginOfLate(x)].validUntil
    ensures Identified(x, Read(c, s, 0, RequestOfLate(x), Times(now, now, now)))
  {
    LateAsked(x);
    NormalLoginTexts(LoginOfLate(x));
    PruneKeeps(c, x, s, now);
    LateIdentity(x, MaybePrune(c, s, LoginOfLate(x).site, now));
  }

  /** The identity flight is calling the loader. */
  ghost predicate Loading(x: Late, s: State) {
    && Kept(x, s) && Revised(x, s)
    && (exists since :: s.identityJobs ==
         map[0 := Job(LoginOfLate(x), VersionIn(s.versions, LoginOfLate(x).site), since, Calling(since, None))])
    && s.readers == map[0 := Resolving(AskOfLate(x), Flight(0))]
  }

  lemma FirstSubmitted(c: Config, x: Late, s: State, now: int)
    requires ValidConfig(c) && s.gate == Empty()
    requires s.identityJobs ==
      map[0 := Job(LoginOfLate(x), VersionIn(s.versions, LoginOfLate(x).site), |s.log|, Waiting)]
    requires EpochOf(s.store.epochs, LoginOfLate(x).site, LoginOfLate(x).principal).None?
    ensures var s' := SubmitJob(c, s, 0, now);
      && s' == s.(gate := s'.gate, identityJobs := s'.identityJobs)
      && s'.identityJobs == map[0 :=
           Job(LoginOfLate(x), VersionIn(s.versions, LoginOfLate(x).site), |s.log|, Calling(|s.log|, None))]
  {
    assert Admit(c.limits, s.gate, 0).1 == Started;
  }

  lemma LoadStep(c: Config, x: Late, s: State, now: int)
    requires ValidConfig(c) && Fit(x) && Kept(x, s) && Idle(s) && Revised(x, s) && now < x.row.validUntil
    requires LoginOfLate(x) !in s.store.epochs
    ensures Loading(x, Read(c, s, 0, RequestOfLate(x), Times(now, now, now)))
  {
    LateAsked(x);
    NormalLoginTexts(LoginOfLate(x));
    PruneKeeps(c, x, s, now);
    var s1 := WithIdentityFlight(MaybePrune(c, s, LoginOfLate(x).site, now), 0, AskOfLate(x));
    FirstSubmitted(c, x, s1, now);
    assert Read(c, s, 0, RequestOfLate(x), Times(now, now, now)) == SubmitJob(c, s1, 0, now);
  }

  function EpochOfLate(x: Late): Epoch {
    Epoch(LoginOfLate(x).site, LoginOfLate(x).principal, x.row.scope.permissionEpoch, map[])
  }

  lemma LoadedStep(c: Config, x: Late, s: State, now: int)
    requires Fit(x) && Loading(x, s) && FineEpoch(x.row.scope.permissionEpoch)
    ensures s.identityJobs[0].phase.Calling?
    ensures Identified(x, IdentityAnswered(c, s, 0, Ok(EpochOfLate(x)), now))
  {
    NormalLoginTexts(LoginOfLate(x));
    assert EpochRefusal(EpochOfLate(x), LoginOfLate(x)).None?;
    LateIdentity(x, s);
  }

  lemma ServedStep(c: Config, x: Late, s: State)
    requires Fit(x) && Identified(x, s)
    ensures var now := x.row.validUntil - 1;
      var s' := Continue(c, s, 0, now, now);
      0 in s'.readers && s'.readers[0].Answered? && s'.readers[0].served == Resolved(x.row, now, FromCache, Hit, false)
  {
    NormalLoginTexts(LoginOfLate(x));
    assert ScopeOf(IdentityOfLate(x), x.row.scope.signature) == x.row.scope;
  }

  // ------------------------------------------------------------------ every store

  lemma StableNext(actions: seq<Action>, a: Action)
    requires Stable(actions) && StableSites(a)
    ensures Stable(actions + [a])
  {
  }

  /** One more step of a run. */
  lemma Step(c: Config, store: Store, actions: seq<Action>, s: State, a: Action)
    returns (actions': seq<Action>, s': State)
    requires Reaches(c, store, actions, s) && Stable(actions) && Enabled(s, a) && StableSites(a)
    ensures actions' == actions + [a] && s' == Next(c, s, a) && Reaches(c, store, actions', s') && Stable(actions')
  {
    ReachesNext(c, store, actions, s, a);
    StableNext(actions, a);
    actions', s' := actions + [a], Next(c, s, a);
  }

  lemma LateFrom(store: Store, k: string) returns (x: Late)
    requires Sound(store) && k in store.cache && Askable(StoredVouchers(store), store.cache[k].scope)
    ensures Fit(x) && x.key == k && x.row == Opened(store).cache[k]
    ensures x.first !in store.receipts && x.second !in store.receipts
  {
    var row := Opened(store).cache[k];
    var first := UnusedText(store.receipts.Keys);
    var second := UnusedText(store.receipts.Keys + {first});
    var ref := UnusedText(row.refs);
    x := Late(k, row, first, second, ref);
    assert k == ScopeKey(store.cache[k].scope);
  }

  lemma RunEvents(c: Config, store: Store, x: Late, drop: bool) returns (actions: seq<Action>, s: State)
    requires ValidConfig(c) && Sound(store) && Fit(x) && x.key in store.cache && x.row == Opened(store).cache[x.key]
    requires x.first !in store.receipts && x.second !in store.receipts
    ensures Reaches(c, store, actions, s) && Stable(actions) && Kept(x, s) && Idle(s) && Revised(x, s)
    ensures var epochs := Opened(store).epochs;
      s.store.epochs == if drop then EpochsWithout(epochs, LoginOfLate(x).site, LoginOfLate(x).principal) else epochs
  {
    actions, s := [], Initial(Opened(store));
    ReachesStart(c, store);
    EventsStep(x, s, drop);
    actions, s := Step(c, store, actions, s, DoEvent(SchemaEvent(x, drop)));
    actions, s := Step(c, store, actions, s, DoEvent(DataEvent(x)));
  }

  lemma LateIsStable(x: Late)
    requires Fit(x)
    ensures SiteText(SiteText(LoginOfLate(x).site)) == SiteText(LoginOfLate(x).site)
  {
    NormalLoginTexts(LoginOfLate(x));
  }

  lemma RunLoads(c: Config, store: Store, x: Late, actions: seq<Action>, s: State)
    returns (actions': seq<Action>, s': State)
    requires ValidConfig(c) && Fit(x) && Reaches(c, store, actions, s) && Stable(actions) && Kept(x, s) && Idle(s)
      && Revised(x, s)
    requires LoginOfLate(x) !in s.store.epochs && FineEpoch(x.row.scope.permissionEpoch)
    ensures Reaches(c, store, actions', s') && Stable(actions') && Identified(x, s')
  {
    var now := x.row.validUntil - 1;
    LateIsStable(x);
    LoadStep(c, x, s, now);
    actions', s' := Step(c, store, actions, s, DoRead(0, RequestOfLate(x), Times(now, now, now)));
    LoadedStep(c, x, s', now);
    actions', s' := Step(c, store, actions', s', DoIdentityAnswer(0, Ok(EpochOfLate(x)), now));
  }

  lemma RunKnows(c: Config, store: Store, x: Late, actions: seq<Action>, s: State)
    returns (actions': seq<Action>, s': State)
    requires ValidConfig(c) && Fit(x) && Reaches(c, store, actions, s) && Stable(actions) && Kept(x, s) && Idle(s)
      && Revised(x, s)
    requires LoginOfLate(x) in s.store.epochs && s.store.epochs[LoginOfLate(x)].login == LoginOfLate(x)
    requires s.store.epochs[LoginOfLate(x)].epoch == x.row.scope.permissionEpoch
    ensures Reaches(c, store, actions', s') && Stable(actions') && Identified(x, s')
  {
    var until := s.store.epochs[LoginOfLate(x)].validUntil;
    var now := if until < x.row.validUntil then until - 1 else x.row.validUntil - 1;
    LateIsStable(x);
    StoredStep(c, x, s, now);
    actions', s' := Step(c, store, actions, s, DoRead(0, RequestOfLate(x), Times(now, now, now)));
  }

  /** A stored answer that can be asked for and is valid for longer than the bound is served late by some run. */
  lemma OutlivingServedLate(c: Config, bound: int, store: Store, k: string) returns (actions: seq<Action>, s: State)
    requires ValidConfig(c) && Sound(store) && k in store.cache
      && !ShortLived(bound, StoredVouchers(store), store.cache[k])
    ensures Reaches(c, store, actions, s) && Stable(actions)
    ensures 0 in s.readers && s.readers[0].Answered? && !Timely(c, bound, s.readers[0].served)
  {
    var x := LateFrom(store, k);
    var fine := FineEpoch(x.row.scope.permissionEpoch);
    actions, s := RunEvents(c, store, x, fine);
    NormalLoginTexts(LoginOfLate(x));
    if fine {
      actions, s := RunLoads(c, store, x, actions, s);
    } else {
      StoredVoucher(store, x);
      actions, s := RunKnows(c, store, x, actions, s);
    }
    var now := x.row.validUntil - 1;
    ServedStep(c, x, s);
    actions, s := Step(c, store, actions, s, DoContinue(0, now, now));
  }

  lemma StoredVoucher(store: Store, x: Late)
    requires Sound(store) && Voucher(LoginOfLate(x), x.row.scope.permissionEpoch) in StoredVouchers(store)
    ensures var epochs := Opened(store).epochs;
      && LoginOfLate(x) in epochs && epochs[LoginOfLate(x)].login == LoginOfLate(x)
      && epochs[LoginOfLate(x)].epoch == x.row.scope.permissionEpoch
  {
  }

  /** Whatever a run from this store answers is of bounded age. */
  ghost predicate AlwaysTimely(c: Config, bound: int, store: Store) {
    forall actions, s, r ::
      Reaches(c, store, actions, s) && Stable(actions) && r in s.readers && s.readers[r].Answered? ==>
        Timely(c, bound, s.readers[r].served)
  }

  /** The staleness bound holds of every run over a store exactly when no stored answer outlives it. */
  lemma StalenessIff(c: Config, bound: int, store: Store)
    requires ValidConfig(c) && Sound(store) && c.maxQueryTtl <= bound
    ensures AlwaysTimely(c, bound, store) <==> NoneOutlives(bound, store)
  {
    if NoneOutlives(bound, store) {
      forall actions, s, r | Reaches(c, store, actions, s) && Stable(actions) && r in s.readers
        && s.readers[r].Answered?
        ensures Timely(c, bound, s.readers[r].served)
      {
        StalenessBound(c, bound, store, actions, s, r);
      }
    } else {
      var k :| k in store.cache && !ShortLived(bound, StoredVouchers(store), store.cache[k]);
      var actions, s := OutlivingServedLate(c, bound, store, k);
    }
  }
}
