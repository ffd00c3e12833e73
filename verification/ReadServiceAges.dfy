/** How old an answer can be, and where the permission epoch of an identity comes from. */
module ReadServiceAges {
  import opened Text
  import opened Scopes
  import opened ReadModel
  import opened Gate
  import opened ReadService
  import opened ReadServiceSafety

  // --------------------------------------------------------------- the statements

  /** A login and a permission epoch that was stored or reported for it. */
  datatype Voucher = Voucher(login: Login, epoch: string)

  ghost function StoredVouchers(store: Store): set<Voucher> {
    set l | l in store.epochs :: Voucher(l, store.epochs[l].epoch)
  }

  function ReportedLogin(epoch: Epoch): Login {
    Login(SiteText(epoch.site), PrincipalText(epoch.principal))
  }

  /** The loader answers with an acceptable epoch for the login. */
  predicate Reports(a: Action, v: Voucher) {
    && a.DoIdentityAnswer? && a.epoch.Ok? && a.epoch.value.epoch == v.epoch
    && EpochRefusal(a.epoch.value, v.login).None?
  }

  /** What the store held when it was opened, and what loaders have reported since. */
  ghost predicate Vouched(store: Store, actions: seq<Action>, v: Voucher) {
    v in StoredVouchers(store) || exists i :: 0 <= i < |actions| && Reports(actions[i], v)
  }

  /** What is served is of bounded age, given a bound on validity; its status tells how old it is. */
  predicate Timely(c: Config, bound: int, served: Served) {
    && served.servedAt - served.row.observedAt <= bound + c.maxStale
    && match served.status
       case Current => served.servedAt < served.row.validUntil && served.servedAt - served.row.observedAt < bound
       case Refreshed => served.servedAt == served.row.observedAt
       case TemporarilyStale => served.row.validUntil < served.servedAt <= served.row.validUntil + c.maxStale
  }

  predicate FineEpoch(epoch: string) {
    Trim(epoch) != "" && |epoch| <= MAX_EPOCH
  }

  predicate FineSignature(signature: string) {
    SignatureText(signature) == signature && signature != "" && |signature| <= MAX_SIGNATURE
  }

  /** A scope that some read can have: normal, with an epoch that a loader may report or the store held. */
  ghost predicate Askable(kept: set<Voucher>, scope: Scope) {
    && NormalLogin(scope.login) && FineSignature(scope.signature)
    && (FineEpoch(scope.permissionEpoch) || Voucher(scope.login, scope.permissionEpoch) in kept)
  }

  ghost predicate ShortLived(bound: int, kept: set<Voucher>, row: Row) {
    Askable(kept, row.scope) ==> row.validUntil - row.observedAt <= bound
  }

  /** No stored answer that can be asked for is valid for longer than the bound. */
  ghost predicate NoneOutlives(bound: int, store: Store) {
    forall k :: k in store.cache ==> ShortLived(bound, StoredVouchers(store), store.cache[k])
  }

  // ------------------------------------------------------------------ the invariant

  /** The limits, the bound on validity, and the vouchers at opening and of the whole run. */
  datatype Ages = Ages(c: Config, bound: int, kept: set<Voucher>, known: set<Voucher>)

  ghost predicate Good(g: Ages) {
    && ValidConfig(g.c) && g.c.maxQueryTtl <= g.bound && g.kept <= g.known && forall v :: v in g.known ==>
         FineEpoch(v.epoch) || v in g.kept
  }

  ghost predicate Known(g: Ages, identity: Identity) {
    Voucher(LoginOf(identity), identity.permissionEpoch) in g.known
  }

  ghost predicate CandidateAged(g: Ages, candidate: Option<Row>) {
    candidate.Some? ==> ShortLived(g.bound, g.kept, candidate.value)
  }

  ghost predicate IdentityAged(g: Ages, job: IdentityJob) {
    job.phase.Settled? && job.phase.result.Ok? ==> Known(g, job.phase.result.value)
  }

  ghost predicate QueryAged(g: Ages, job: QueryJob) {
    && Known(g, job.work.identity) && FineSignature(job.work.signature) && CandidateAged(g, job.work.stale)
    && match job.phase
       case Waiting => true
       case Calling(_, prior) => CandidateAged(g, prior)
       case Settled(result, _) => result.Ok? ==> Timely(g.c, g.bound, result.value)
  }

  ghost predicate ReaderAged(g: Ages, r: Reader) {
    match r
    case Rejected(_) => true
    case Resolving(ask, source) => FineSignature(ask.signature) && (source.Known? ==> Known(g, source.identity))
    case Fetching(_, identity, _) => Known(g, identity)
    case Answered(_, identity, served, _) => Known(g, identity) && Timely(g.c, g.bound, served)
  }

  ghost predicate RowsAged(g: Ages, cache: map<string, Row>) {
    forall k :: k in cache ==> ShortLived(g.bound, g.kept, cache[k])
  }

  ghost predicate EpochsAged(g: Ages, epochs: map<Login, EpochRow>) {
    forall l :: l in epochs ==> Voucher(l, epochs[l].epoch) in g.known
  }

  ghost predicate IdentitiesAged(g: Ages, jobs: map<nat, IdentityJob>) {
    forall id :: id in jobs ==> IdentityAged(g, jobs[id])
  }

  ghost predicate QueriesAged(g: Ages, jobs: map<nat, QueryJob>) {
    forall id :: id in jobs ==> QueryAged(g, jobs[id])
  }

  ghost predicate ReadersAged(g: Ages, readers: map<nat, Reader>) {
    forall r :: r in readers ==> ReaderAged(g, readers[r])
  }

  ghost predicate Aged(g: Ages, s: State) {
    && RowsAged(g, s.store.cache) && EpochsAged(g, s.store.epochs)
    && IdentitiesAged(g, s.identityJobs) && QueriesAged(g, s.queryJobs) && ReadersAged(g, s.readers)
  }

  // ------------------------------------------------------------------ one row served

  /** A row found for a known identity has an askable scope, so it is short-lived. */
  lemma FoundShort(g: Ages, row: Row, identity: Identity, signature: string)
    requires Good(g) && NormalLogin(LoginOf(identity)) && Known(g, identity) && FineSignature(signature)
    requires row.scope == ScopeOf(identity, signature) && ShortLived(g.bound, g.kept, row)
    ensures row.validUntil - row.observedAt <= g.bound
  {
    NormalLoginTexts(LoginOf(identity));
    assert row.scope.login == LoginOf(identity);
  }

  lemma HitTimely(g: Ages, cache: map<string, Row>, identity: Identity, signature: string, now: int)
    requires Good(g) && RowsAged(g, cache) && NormalLogin(LoginOf(identity)) && Known(g, identity)
      && FineSignature(signature)
    requires Lookup(cache, identity, signature).Some?
    ensures var row := Lookup(cache, identity, signature).value;
      && ShortLived(g.bound, g.kept, row)
      && (Fresh(row.validUntil, now) ==> Timely(g.c, g.bound, Resolved(row, now, FromCache, Hit, false)))
  {
    FoundShort(g, Lookup(cache, identity, signature).value, identity, signature);
  }

  lemma StaleTimely(g: Ages, job: QueryJob, prior: Row, failure: Failure, now: int)
    requires Good(g) && NormalLogin(LoginOf(job.work.identity)) && QueryAged(g, job)
    requires prior.scope == ScopeOfJob(job) && ShortLived(g.bound, g.kept, prior)
    requires CanServeStale(failure, Some(prior), job.work.fallback, now, g.c.maxStale).Serve?
    ensures Timely(g.c, g.bound, Resolved(prior, now, FromCache, Stale, true))
  {
    FoundShort(g, prior, job.work.identity, job.work.signature);
    StaleMeans(failure, prior, job.work.fallback, now, g.c.maxStale);
  }

  lemma StaleMeans(failure: Failure, row: Row, fallback: Fallback, now: int, maxStale: int)
    requires CanServeStale(failure, Some(row), fallback, now, maxStale).Serve?
    ensures row.validUntil < now <= row.validUntil + maxStale
  {
  }

  // ------------------------------------------------------------------ jobs and readers

  lemma IdentityAgedUpdate(g: Ages, s: State, id: nat, job: IdentityJob)
    requires Aged(g, s) && IdentityAged(g, job)
    ensures Aged(g, s.(identityJobs := s.identityJobs[id := job]))
  {
  }

  lemma QueryAgedUpdate(g: Ages, s: State, id: nat, job: QueryJob)
    requires Aged(g, s) && QueryAged(g, job)
    ensures Aged(g, s.(queryJobs := s.queryJobs[id := job]))
  {
  }

  lemma ReaderAgedUpdate(g: Ages, s: State, reader: nat, r: Reader)
    requires Aged(g, s) && ReaderAged(g, r)
    ensures Aged(g, s.(readers := s.readers[reader := r]))
  {
  }

  lemma FailAged(g: Ages, s: State, id: nat, failure: Failure)
    requires Aged(g, s)
    ensures Aged(g, Fail(s, id, failure))
  {
    if id in s.identityJobs {
      IdentityAgedUpdate(g, s, id, s.identityJobs[id].(phase := Settled(Err(failure), |s.log|)));
    } else if id in s.queryJobs {
      assert QueryAged(g, s.queryJobs[id]);
      QueryAgedUpdate(g, s, id, s.queryJobs[id].(phase := Settled(Err(failure), |s.log|)));
    }
  }

  /** An identity made from a stored or reported epoch is known. */
  lemma CachedKnown(g: Ages, revisions: map<string, Revision>, login: Login, site: string, principal: string,
                    epoch: string)
    requires NormalLogin(login) && SiteText(site) == login.site && PrincipalText(principal) == login.principal
    requires Voucher(login, epoch) in g.known
    ensures CacheIdentity(revisions, site, principal, epoch).Ok?
      && Known(g, CacheIdentity(revisions, site, principal, epoch).value)
  {
    CacheIdentityLogin(revisions, login, site, principal, epoch);
  }

  lemma StoredKnown(g: Ages, s: State, login: Login)
    requires EpochsOk(s.log, s.store.epochs) && EpochsAged(g, s.store.epochs) && NormalLogin(login)
    requires EpochOf(s.store.epochs, login.site, login.principal).Some?
    ensures var e := EpochOf(s.store.epochs, login.site, login.principal).value;
      var identity := CacheIdentity(s.store.revisions, e.login.site, e.login.principal, e.epoch);
      identity.Ok? && Known(g, identity.value)
  {
    NormalLoginTexts(login);
    assert EpochOk(s.log, login, s.store.epochs[login]);
    CachedKnown(g, s.store.revisions, login, login.site, login.principal, s.store.epochs[login].epoch);
  }

  lemma StartIdentityAged(g: Ages, s: State, id: nat, now: int)
    requires Safe(s) && Aged(g, s) && id in s.identityJobs
    ensures Aged(g, StartIdentity(s, id, now))
  {
    var job := s.identityJobs[id];
    assert IdentityOk(s.log, s.versions, job);
    if EpochOf(s.store.epochs, job.work.site, job.work.principal).Some? { StoredKnown(g, s, job.work); }
    IdentityAgedUpdate(g, s, id, job.(phase := IdentityBegins(s.store, |s.log|, job.work, now)));
  }

  lemma BegunQueryAged(g: Ages, s: State, job: QueryJob, now: int)
    requires Good(g) && RowsAged(g, s.store.cache) && QueryAged(g, job) && NormalLogin(LoginOf(job.work.identity))
    ensures QueryAged(g, job.(phase := QueryBegins(s.store, |s.log|, job.work, now)))
  {
    if Lookup(s.store.cache, job.work.identity, job.work.signature).Some? {
      HitTimely(g, s.store.cache, job.work.identity, job.work.signature, now);
    }
  }

  lemma StartQueryAged(g: Ages, s: State, id: nat, now: int)
    requires Good(g) && Safe(s) && Aged(g, s) && id in s.queryJobs
    ensures Aged(g, StartQuery(s, id, now))
  {
    var job := s.queryJobs[id];
    assert QueryOk(s.log, s.versions, job) && QueryAged(g, job);
    BegunQueryAged(g, s, job, now);
    QueryAgedUpdate(g, s, id, job.(phase := QueryBegins(s.store, |s.log|, job.work, now)));
  }

  lemma StartJobAged(g: Ages, s: State, id: nat, now: int)
    requires Good(g) && Safe(s) && Aged(g, s)
    ensures Aged(g, StartJob(s, id, now))
  {
    if id in s.identityJobs {
      StartIdentityAged(g, s, id, now);
    } else if id in s.queryJobs {
      StartQueryAged(g, s, id, now);
    }
  }

  lemma SubmitJobAged(g: Ages, s: State, id: nat, now: int)
    requires Good(g) && Safe(s) && Aged(g, s)
    ensures Aged(g, SubmitJob(g.c, s, id, now))
  {
    var (gate, admission) := Admit(g.c.limits, s.gate, id);
    var s' := s.(gate := gate);
    GateSafe(s, gate, s.closed);
    match admission
    case Started => StartJobAged(g, s', id, now);
    case Queued =>
    case Overloaded => FailAged(g, s', id, Failure.Overloaded);
    case Refused => FailAged(g, s', id, ServiceClosed);
  }

  // ------------------------------------------------------------------------ the steps

  lemma ResolveAged(g: Ages, s: State, reader: nat, ask: Ask, now: int, start: int)
    requires Good(g) && Safe(s) && Aged(g, s) && NormalLogin(ask.login) && FineSignature(ask.signature)
    ensures Aged(g, Resolve(g.c, s, reader, ask, now, start))
  {
    var stored := EpochOf(s.store.epochs, ask.login.site, ask.login.principal);
    if stored.Some? && Fresh(stored.value.validUntil, now) {
      StoredKnown(g, s, ask.login);
      var e := stored.value;
      ReaderAgedUpdate(g, s, reader,
        Resolving(ask, Source.Known(CacheIdentity(s.store.revisions, e.login.site, e.login.principal, e.epoch).value)));
    } else if ask.login in s.identityFlights {
      ReaderAgedUpdate(g, s, reader, Resolving(ask, Flight(s.identityFlights[ask.login])));
    } else {
      IdentityFlightAdded(s, reader, ask);
      IdentityFlightAged(g, s, reader, ask);
      SubmitJobAged(g, WithIdentityFlight(s, reader, ask), s.nextJob, start);
    }
  }

  lemma IdentityFlightAged(g: Ages, s: State, reader: nat, ask: Ask)
    requires Aged(g, s) && FineSignature(ask.signature)
    ensures Aged(g, WithIdentityFlight(s, reader, ask))
  {
    var s1 := WithIdentityFlight(s, reader, ask);
    IdentityAgedUpdate(g, s, s.nextJob, s1.identityJobs[s.nextJob]);
    ReaderAgedUpdate(g, s.(identityJobs := s1.identityJobs), reader, s1.readers[reader]);
  }

  lemma MaybePruneAged(g: Ages, s: State, site: string, now: int)
    requires Aged(g, s)
    ensures Aged(g, MaybePrune(g.c, s, site, now))
  {
  }

  lemma AskedFine(request: Request)
    requires AskOf(request).Ok?
    ensures FineSignature(AskOf(request).value.signature)
  {
    SignatureStable(request.signature);
  }

  lemma ReadAged(g: Ages, s: State, reader: nat, request: Request, at: Times)
    requires Good(g) && Safe(s) && Aged(g, s) && SiteText(SiteText(request.site)) == SiteText(request.site)
    ensures Aged(g, Read(g.c, s, reader, request, at))
  {
    if s.closed {
      ReaderAgedUpdate(g, s, reader, Rejected(ServiceClosed));
    } else if AskOf(request).Err? {
      ReaderAgedUpdate(g, s, reader, Rejected(AskOf(request).error));
    } else {
      var ask := AskOf(request).value;
      NormalLoginIn(request.site, request.principal);
      AskedFine(request);
      MaybePruneSafe(g.c, s, ask.login.site, at.prune);
      MaybePruneAged(g, s, ask.login.site, at.prune);
      ResolveAged(g, MaybePrune(g.c, s, ask.login.site, at.prune), reader, ask, at.epoch, at.start);
    }
  }

  lemma QueryFlightAged(g: Ages, s: State, reader: nat, ask: Ask, identity: Identity, cached: Option<Row>, key: string)
    requires Aged(g, s) && FineSignature(ask.signature) && Known(g, identity) && CandidateAged(g, cached)
    ensures Aged(g, WithQueryFlight(s, reader, ask, identity, cached, key))
  {
    var s1 := WithQueryFlight(s, reader, ask, identity, cached, key);
    QueryAgedUpdate(g, s, s.nextJob, s1.queryJobs[s.nextJob]);
    ReaderAgedUpdate(g, s.(queryJobs := s1.queryJobs), reader, s1.readers[reader]);
  }

  lemma QueryStepAged(g: Ages, s: State, reader: nat, ask: Ask, identity: Identity, now: int, start: int)
    requires Good(g) && Safe(s) && Aged(g, s) && NormalLogin(ask.login) && LoginOf(identity) == ask.login
    requires FineSignature(ask.signature) && Known(g, identity)
    ensures Aged(g, Query(g.c, s, reader, ask, identity, now, start))
  {
    var cached := Lookup(s.store.cache, identity, ask.signature);
    var key := CacheKey(identity, ask.signature);
    if cached.Some? { HitTimely(g, s.store.cache, identity, ask.signature, now); }
    if cached.Some? && Fresh(cached.value.validUntil, now) {
      ReaderAgedUpdate(g, s, reader,
        Answered(ask, identity, Resolved(cached.value, now, FromCache, Hit, false), |s.log|));
    } else if key in s.queryFlights {
      ReaderAgedUpdate(g, s, reader, Fetching(ask, identity, s.queryFlights[key]));
    } else {
      QueryFlightAdded(s, reader, ask, identity, cached, key, now);
      QueryFlightAged(g, s, reader, ask, identity, cached, key);
      SubmitJobAged(g, WithQueryFlight(s, reader, ask, identity, cached, key), s.nextJob, start);
    }
  }

  lemma ContinueAged(g: Ages, s: State, reader: nat, now: int, start: int)
    requires Good(g) && Safe(s) && Aged(g, s)
    requires reader in s.readers && s.readers[reader].Resolving? && IdentityFor(s, s.readers[reader].source).Some?
    ensures Aged(g, Continue(g.c, s, reader, now, start))
  {
    var r := s.readers[reader];
    var identity := IdentityFor(s, r.source).value;
    assert ReaderOk(s.log, s.identityJobs, s.queryJobs, r) && ReaderAged(g, r);
    if identity.Err? {
      ReaderAgedUpdate(g, s, reader, Rejected(identity.error));
    } else {
      AwaitedIdentity(s, r);
      AwaitedKnown(g, s, r);
      QueryStepAged(g, s, reader, r.ask, identity.value, now, start);
    }
  }

  lemma AwaitedKnown(g: Ages, s: State, r: Reader)
    requires Aged(g, s) && r.Resolving? && ReaderAged(g, r)
    requires IdentityFor(s, r.source).Some? && IdentityFor(s, r.source).value.Ok?
    ensures Known(g, IdentityFor(s, r.source).value.value)
  {
    if r.source.Flight? { assert IdentityAged(g, s.identityJobs[r.source.job]); }
  }

  lemma DeliverAged(g: Ages, s: State, reader: nat)
    requires Aged(g, s) && reader in s.readers && s.readers[reader].Fetching?
    requires s.readers[reader].job in s.queryJobs && s.queryJobs[s.readers[reader].job].phase.Settled?
    ensures Aged(g, Deliver(s, reader))
  {
    var r := s.readers[reader];
    var phase := s.queryJobs[r.job].phase;
    assert ReaderAged(g, r) && QueryAged(g, s.queryJobs[r.job]);
    ReaderAgedUpdate(g, s, reader,
      if phase.result.Ok? then Answered(r.ask, r.identity, phase.result.value, phase.at)
        else Rejected(phase.result.error));
  }

  /** The epoch a loader reports is the one its identity carries and the store keeps. */
  lemma IdentityAnsweredAged(g: Ages, s: State, id: nat, answer: Result<Epoch, Failure>, now: int)
    requires Safe(s) && Aged(g, s) && id in s.identityJobs && s.identityJobs[id].phase.Calling?
    requires answer.Ok? && EpochRefusal(answer.value, s.identityJobs[id].work).None? ==>
      Voucher(s.identityJobs[id].work, answer.value.epoch) in g.known
    ensures Aged(g, IdentityAnswered(g.c, s, id, answer, now))
  {
    var job := s.identityJobs[id];
    var loaded := LoadedEpoch(s.versions, job, answer);
    if loaded.Err? {
      IdentityAgedUpdate(g, s, id, job.(phase := Settled(Err(loaded.error), |s.log|)));
    } else {
      AcceptedLogin(s.versions, job, answer);
      assert IdentityOk(s.log, s.versions, job);
      EpochAcceptedAged(g, s, id, answer.value, now);
    }
  }

  lemma EpochAcceptedAged(g: Ages, s: State, id: nat, epoch: Epoch, now: int)
    requires Aged(g, s) && id in s.identityJobs && s.identityJobs[id].phase.Calling?
      && NormalLogin(s.identityJobs[id].work)
    requires ReportedLogin(epoch) == s.identityJobs[id].work && Voucher(s.identityJobs[id].work, epoch.epoch) in g.known
    ensures Aged(g, EpochAccepted(g.c, s, id, epoch, now))
  {
    var job := s.identityJobs[id];
    var s1 := WithEpoch(g.c, s, job, epoch, now);
    WithEpochAged(g, s, job, epoch, now);
    CachedKnown(g, s1.store.revisions, job.work, epoch.site, epoch.principal, epoch.epoch);
    var identity := CacheIdentity(s1.store.revisions, epoch.site, epoch.principal, epoch.epoch);
    IdentityAgedUpdate(g, s1, id, job.(phase := Settled(identity, |s1.log|)));
  }

  lemma WithEpochAged(g: Ages, s: State, job: IdentityJob, epoch: Epoch, now: int)
    requires Aged(g, s) && job.phase.Calling? && Voucher(ReportedLogin(epoch), epoch.epoch) in g.known
    ensures Aged(g, WithEpoch(g.c, s, job, epoch, now))
  {
    var s1 := if EpochChanged(job, epoch) then DropLogin(s, job.work) else s;
    assert Fewer(s, s1);
    FewerAged(g, s, s1);
    EpochStoredAged(g, s1, LoadedRow(g.c, job, epoch, now));
  }

  lemma EpochStoredAged(g: Ages, s: State, row: EpochRow)
    requires Aged(g, s) && Voucher(row.login, row.epoch) in g.known
    ensures Aged(g, StoreEpoch(s, row))
  {
  }

  lemma LiveAnsweredAged(g: Ages, s: State, id: nat, answer: Result<LiveRead, Failure>, now: int)
    requires Good(g) && Safe(s) && Aged(g, s) && id in s.queryJobs && s.queryJobs[id].phase.Calling?
    ensures Aged(g, LiveAnswered(g.c, s, id, answer, now))
  {
    var job := s.queryJobs[id];
    assert QueryOk(s.log, s.versions, job) && QueryAged(g, job);
    if answer.Err? {
      LiveFailedAged(g, s, job, answer.error, now);
      QueryAgedUpdate(g, s, id, job.(phase := Settled(LiveFailed(g.c, s.versions, job, answer.error, now), |s.log|)));
    } else {
      var ttl := LiveTtl(g.c, s.versions, job, answer.value);
      if ttl.Err? {
        QueryAgedUpdate(g, s, id, job.(phase := Settled(Err(ttl.error), |s.log|)));
      } else {
        LiveAcceptedAged(g, s, id, answer.value, now, ttl.value);
      }
    }
  }

  lemma LiveFailedAged(g: Ages, s: State, job: QueryJob, failure: Failure, now: int)
    requires Good(g) && QueryOk(s.log, s.versions, job) && QueryAged(g, job) && job.phase.Calling?
    ensures var result := LiveFailed(g.c, s.versions, job, failure, now);
      result.Ok? ==> Timely(g.c, g.bound, result.value)
  {
    if LiveFailed(g.c, s.versions, job, failure, now).Ok? { StaleTimely(g, job, job.phase.prior.value, failure, now); }
  }

  lemma LiveAcceptedAged(g: Ages, s: State, id: nat, live: LiveRead, now: int, ttl: int)
    requires Good(g) && Safe(s) && Aged(g, s) && id in s.queryJobs && s.queryJobs[id].phase.Calling?
    requires LiveTtl(g.c, s.versions, s.queryJobs[id], live) == Ok(ttl)
    ensures Aged(g, LiveAccepted(s, id, live, now, ttl))
  {
    var row := LiveRow(s.queryJobs[id], live, now, ttl);
    LiveRowStored(g.c, s, id, live, now, ttl);
    AcceptedState(s, id, live, now, ttl);
    assert QueryAged(g, s.queryJobs[id]);
    StoredAged(g, s, id, row, AcceptedAnswer(s, id, row, now));
  }

  lemma LiveTtlBounded(c: Config, versions: map<string, nat>, job: QueryJob, live: LiveRead)
    requires ValidConfig(c) && LiveTtl(c, versions, job, live).Ok?
    ensures 0 < LiveTtl(c, versions, job, live).value <= c.maxQueryTtl
  {
  }

  lemma LiveRowStored(c: Config, s: State, id: nat, live: LiveRead, now: int, ttl: int)
    requires ValidConfig(c) && Safe(s) && id in s.queryJobs && s.queryJobs[id].phase.Calling?
    requires LiveTtl(c, s.versions, s.queryJobs[id], live) == Ok(ttl)
    ensures var row := LiveRow(s.queryJobs[id], live, now, ttl);
      && row.validUntil - row.observedAt <= c.maxQueryTtl
      && StoreRow(s, row).store.cache == s.store.cache[ScopeKey(row.scope) := row]
  {
    LiveTtlBounded(c, s.versions, s.queryJobs[id], live);
    RowReplaces(s.store.cache, LiveRow(s.queryJobs[id], live, now, ttl));
  }

  /** A row replaces just the one of its own scope. */
  lemma RowReplaces(cache: map<string, Row>, row: Row)
    requires KeyedByScope(cache)
    ensures Upserted(cache, ScopeKey(row.scope), row) == cache[ScopeKey(row.scope) := row]
  {
    if ScopeKey(row.scope) in cache { ScopeKeyInjective(cache[ScopeKey(row.scope)].scope, row.scope); }
  }

  lemma StoredAged(g: Ages, s: State, id: nat, row: Row, served: Served)
    requires Aged(g, s) && id in s.queryJobs && QueryAged(g, s.queryJobs[id])
    requires row.validUntil - row.observedAt <= g.bound && Timely(g.c, g.bound, served)
    requires StoreRow(s, row).store.cache == s.store.cache[ScopeKey(row.scope) := row]
    ensures Aged(g, SettleQuery(StoreRow(s, row), id, Ok(served)))
  {
    assert Aged(g, StoreRow(s, row));
    QueryAgedUpdate(g, StoreRow(s, row), id, s.queryJobs[id].(phase := Settled(Ok(served), |s.log|)));
  }

  lemma ReleaseAged(g: Ages, s: State, id: nat, now: int)
    requires Good(g) && Safe(s) && Aged(g, s)
    ensures Aged(g, Release(g.c, s, id, now))
  {
    var (gate, next) := Drain(g.c.limits, Free(s.gate, id));
    GateSafe(s, gate, s.closed);
    if next.Some? { StartJobAged(g, s.(gate := gate), next.value, now); }
  }

  /** Rows and epochs only go. */
  ghost predicate Fewer(s: State, s': State) {
    && s'.identityJobs == s.identityJobs && s'.queryJobs == s.queryJobs && s'.readers == s.readers
    && (forall k :: k in s'.store.cache ==> k in s.store.cache && s'.store.cache[k] == s.store.cache[k])
    && forall l :: l in s'.store.epochs ==> l in s.store.epochs && s'.store.epochs[l] == s.store.epochs[l]
  }

  lemma FewerAged(g: Ages, s: State, s': State)
    requires Aged(g, s) && Fewer(s, s')
    ensures Aged(g, s')
  {
  }

  lemma InvalidatedFewer(s: State, input: Invalidation, permissionChanged: bool)
    requires SelectorsOf(input).Ok?
    ensures Fewer(s, InvalidatedBy(s, input, permissionChanged))
  {
  }

  lemma InvalidateAged(g: Ages, s: State, input: Invalidation, permissionChanged: bool)
    requires Aged(g, s)
    ensures Aged(g, Invalidate(s, input, permissionChanged))
  {
    if !s.closed && NormalizedInvalidation(input).Ok? {
      var normalized := NormalizedInvalidation(input).value;
      if SelectorsOf(normalized).Ok? {
        InvalidatedFewer(s, normalized, permissionChanged);
        FewerAged(g, s, InvalidatedBy(s, normalized, permissionChanged));
      }
    }
  }

  lemma AppliedFewer(s: State, e: Event)
    requires EventRefusal(e).None?
    ensures Fewer(s, s.(store := Applied(s.store, e)))
  {
  }

  lemma ApplyEventAged(g: Ages, s: State, e: Event)
    requires Aged(g, s)
    ensures Aged(g, ApplyEvent(s, e))
  {
    if TakesEffect(s.store, e) {
      AppliedFewer(s, e);
      FewerAged(g, s, s.(store := Applied(s.store, e)));
    }
  }

  lemma {:induction false} FailAllAged(g: Ages, s: State, ids: seq<nat>)
    requires Aged(g, s)
    ensures Aged(g, FailAll(s, ids))
    decreases |ids|
  {
    if ids != [] {
      FailAllAged(g, s, ids[..|ids| - 1]);
      FailAged(g, FailAll(s, ids[..|ids| - 1]), ids[|ids| - 1], ServiceClosed);
    }
  }

  lemma ReportedKnown(g: Ages, a: Action, login: Login)
    requires a.DoIdentityAnswer? && (forall v :: Reports(a, v) ==> v in g.known)
    ensures a.epoch.Ok? && EpochRefusal(a.epoch.value, login).None? ==> Voucher(login, a.epoch.value.epoch) in g.known
  {
    if a.epoch.Ok? && EpochRefusal(a.epoch.value, login).None? {
      assert Reports(a, Voucher(login, a.epoch.value.epoch));
    }
  }

  lemma NextAged(g: Ages, s: State, a: Action)
    requires Good(g) && Safe(s) && Aged(g, s) && Enabled(s, a) && StableSites(a)
    requires forall v :: Reports(a, v) ==> v in g.known
    ensures Aged(g, Next(g.c, s, a))
  {
    if a.DoRead? || a.DoInvalidate? || a.DoEvent? || a.DoClose? {
      NextCallAged(g, s, a);
    } else if a.DoIdentityAnswer? {
      ReportedKnown(g, a, s.identityJobs[a.job].work);
      IdentityAnsweredAged(g, s, a.job, a.epoch, a.now);
    } else if a.DoContinue? || a.DoLiveAnswer? {
      NextResumeAged(g, s, a);
    } else {
      NextSettledAged(g, s, a);
    }
  }

  lemma NextCallAged(g: Ages, s: State, a: Action)
    requires Good(g) && Safe(s) && Aged(g, s) && Enabled(s, a) && StableSites(a)
    requires a.DoRead? || a.DoInvalidate? || a.DoEvent? || a.DoClose?
    ensures Aged(g, Next(g.c, s, a))
  {
    match a
    case DoRead(reader, request, at) => ReadAged(g, s, reader, request, at);
    case DoInvalidate(input, permissionChanged) => InvalidateAged(g, s, input, permissionChanged);
    case DoEvent(e) => ApplyEventAged(g, s, e);
    case DoClose => if !s.closed { FailAllAged(g, s.(closed := true, gate := Shut(s.gate)), s.gate.queue); }
  }

  lemma ForgetAged(g: Ages, s: State, id: nat)
    requires Aged(g, s)
    ensures Aged(g, Forget(s, id))
  {
  }

  lemma NextResumeAged(g: Ages, s: State, a: Action)
    requires Good(g) && Safe(s) && Aged(g, s) && Enabled(s, a) && (a.DoContinue? || a.DoLiveAnswer?)
    ensures Aged(g, Next(g.c, s, a))
  {
    match a
    case DoContinue(reader, now, start) => ContinueAged(g, s, reader, now, start);
    case DoLiveAnswer(id, live, now) => LiveAnsweredAged(g, s, id, live, now);
  }

  lemma NextSettledAged(g: Ages, s: State, a: Action)
    requires Good(g) && Safe(s) && Aged(g, s) && Enabled(s, a) && (a.DoDeliver? || a.DoRelease? || a.DoForget?)
    ensures Aged(g, Next(g.c, s, a))
  {
    match a
    case DoDeliver(reader) => DeliverAged(g, s, reader);
    case DoRelease(id, now) => ReleaseAged(g, s, id, now);
    case DoForget(id) => ForgetAged(g, s, id);
  }

  // ------------------------------------------------------------------------ every run

  ghost function ReportedBy(a: Action): (r: set<Voucher>)
    ensures forall v :: v in r <==> Reports(a, v)
  {
    if a.DoIdentityAnswer? && a.epoch.Ok? then
      var login := ReportedLogin(a.epoch.value);
      ReportsOwnLogin(a);
      if EpochRefusal(a.epoch.value, login).None? then {Voucher(login, a.epoch.value.epoch)} else {}
    else {}
  }

  lemma ReportsOwnLogin(a: Action)
    ensures forall v :: Reports(a, v) ==> v.login == ReportedLogin(a.epoch.value)
  {
  }

  ghost function ReportedIn(actions: seq<Action>): set<Voucher> {
    set i, v | 0 <= i < |actions| && v in ReportedBy(actions[i]) :: v
  }

  ghost function AgesOf(c: Config, bound: int, store: Store, actions: seq<Action>): Ages {
    Ages(c, bound, StoredVouchers(store), StoredVouchers(store) + ReportedIn(actions))
  }

  lemma KnownIsVouched(c: Config, bound: int, store: Store, actions: seq<Action>, v: Voucher)
    ensures v in AgesOf(c, bound, store, actions).known <==> Vouched(store, actions, v)
  {
    if v in ReportedIn(actions) {
      var i :| 0 <= i < |actions| && v in ReportedBy(actions[i]);
      assert Reports(actions[i], v);
    }
    if exists i :: 0 <= i < |actions| && Reports(actions[i], v) {
      var i :| 0 <= i < |actions| && Reports(actions[i], v);
      assert v in ReportedBy(actions[i]);
    }
  }

  lemma AgesGood(c: Config, bound: int, store: Store, actions: seq<Action>)
    requires ValidConfig(c) && c.maxQueryTtl <= bound
    ensures Good(AgesOf(c, bound, store, actions))
  {
    var g := AgesOf(c, bound, store, actions);
    forall v | v in g.known ensures FineEpoch(v.epoch) || v in g.kept { KnownIsVouched(c, bound, store, actions, v); }
  }

  lemma OpenedAged(g: Ages, store: Store)
    requires g.kept == StoredVouchers(store) && g.kept <= g.known && NoneOutlives(g.bound, store)
    ensures Aged(g, Initial(Opened(store)))
  {
    var s := Initial(Opened(store));
    forall k | k in s.store.cache ensures ShortLived(g.bound, g.kept, s.store.cache[k]) {
      assert ShortLived(g.bound, g.kept, store.cache[k]);
    }
  }

  lemma {:induction false} EveryRunAged(c: Config, bound: int, store: Store, actions: seq<Action>, s: State)
    requires ValidConfig(c) && c.maxQueryTtl <= bound && NoneOutlives(bound, store)
    requires Sound(store) && Reaches(c, store, actions, s) && Stable(actions)
    ensures Aged(AgesOf(c, bound, store, actions), s)
  {
    var g := AgesOf(c, bound, store, actions);
    var states :| IsRun(c, store, actions, states) && states[|actions|] == s;
    OpenedSafe(store);
    OpenedAged(g, store);
    AgesGood(c, bound, store, actions);
    for n := 0 to |actions|
      invariant Safe(states[n]) && Aged(g, states[n])
    {
      RunStep(c, store, actions, states, n);
      NextSafe(c, states[n], actions[n]);
      forall v | Reports(actions[n], v) ensures v in g.known { KnownIsVouched(c, bound, store, actions, v); }
      NextAged(g, states[n], actions[n]);
    }
  }

  /** Staleness bound: over a store whose answers are valid for at most `bound`, at least the service's
      own limit, nothing is ever served that is older than `bound + maxStale`; what is called current
      is valid and younger than `bound`, what is called temporarily stale within `maxStale` of validity. */
  lemma StalenessBound(c: Config, bound: int, store: Store, actions: seq<Action>, s: State, r: nat)
    requires ValidConfig(c) && c.maxQueryTtl <= bound && NoneOutlives(bound, store)
    requires Sound(store) && Reaches(c, store, actions, s) && Stable(actions)
    requires r in s.readers && s.readers[r].Answered?
    ensures Timely(c, bound, s.readers[r].served)
  {
    EveryRunAged(c, bound, store, actions, s);
    assert ReaderAged(AgesOf(c, bound, store, actions), s.readers[r]);
  }

  /** Some bound holds for the answers of any store. */
  lemma {:induction false} SomeBound(cache: map<string, Row>, keys: set<string>, least: int) returns (bound: int)
    requires keys <= cache.Keys
    ensures least <= bound && forall k :: k in keys ==> cache[k].validUntil - cache[k].observedAt <= bound
    decreases |keys|
  {
    if keys == {} { return least; }
    var k :| k in keys;
    bound := SomeBound(cache, keys - {k}, least);
    if bound < cache[k].validUntil - cache[k].observedAt { bound := cache[k].validUntil - cache[k].observedAt; }
  }

  ghost predicate Carries(store: Store, actions: seq<Action>, identity: Identity) {
    Vouched(store, actions, Voucher(LoginOf(identity), identity.permissionEpoch))
  }

  /** Epochs come from loaders: after every run, every stored epoch and the epoch of every identity that
      is known, settled or was read for, was reported for its own login by a loader's acceptable answer
      in this run, or was stored for that login when the service was opened. */
  lemma EpochsAreReported(c: Config, store: Store, actions: seq<Action>, s: State)
    requires ValidConfig(c) && Sound(store) && Reaches(c, store, actions, s) && Stable(actions)
    ensures forall l :: l in s.store.epochs ==> Vouched(store, actions, Voucher(l, s.store.epochs[l].epoch))
    ensures forall id ::
      id in s.identityJobs && s.identityJobs[id].phase.Settled? && s.identityJobs[id].phase.result.Ok? ==>
        Carries(store, actions, s.identityJobs[id].phase.result.value)
    ensures forall r :: r in s.readers && (s.readers[r].Fetching? || s.readers[r].Answered?) ==>
              Carries(store, actions, s.readers[r].identity)
  {
    var bound := SomeBound(store.cache, store.cache.Keys, c.maxQueryTtl);
    EveryRunAged(c, bound, store, actions, s);
    var g := AgesOf(c, bound, store, actions);
    forall l | l in s.store.epochs ensures Vouched(store, actions, Voucher(l, s.store.epochs[l].epoch)) {
      KnownIsVouched(c, bound, store, actions, Voucher(l, s.store.epochs[l].epoch));
    }
    forall identity | Known(g, identity) ensures Carries(store, actions, identity) {
      KnownIsVouched(c, bound, store, actions, Voucher(LoginOf(identity), identity.permissionEpoch));
    }
    forall id | id in s.identityJobs && s.identityJobs[id].phase.Settled? && s.identityJobs[id].phase.result.Ok?
      ensures Carries(store, actions, s.identityJobs[id].phase.result.value)
    {
      assert IdentityAged(g, s.identityJobs[id]);
    }
    forall r | r in s.readers && (s.readers[r].Fetching? || s.readers[r].Answered?)
      ensures Carries(store, actions, s.readers[r].identity)
    {
      assert ReaderAged(g, s.readers[r]);
    }
  }

  /** The store a run leaves keeps the bound: what later services serve from it is no older. */
  lemma StoreStaysShort(c: Config, bound: int, store: Store, actions: seq<Action>, s: State)
    requires ValidConfig(c) && c.maxQueryTtl <= bound && NoneOutlives(bound, store)
    requires Sound(store) && Reaches(c, store, actions, s) && Stable(actions)
    ensures NoneOutlives(bound, s.store)
  {
    EveryRunAged(c, bound, store, actions, s);
    var g := AgesOf(c, bound, store, actions);
    AgesGood(c, bound, store, actions);
    forall k | k in s.store.cache ensures ShortLived(bound, StoredVouchers(s.store), s.store.cache[k]) {
      var scope := s.store.cache[k].scope;
      if Voucher(scope.login, scope.permissionEpoch) in StoredVouchers(s.store) {
        assert Voucher(scope.login, scope.permissionEpoch) in g.known;
      }
    }
  }
}
