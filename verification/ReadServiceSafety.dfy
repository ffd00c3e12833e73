/** What every run of the read service keeps: the invalidation fence and identity isolation. */
module ReadServiceSafety {
  import opened Text
  import opened Scopes
  import opened ReadModel
  import opened Gate
  import opened ReadService

  // --------------------------------------------------------------- the statements

  /** Of the first `n` invalidations, those that match the row came before its live call began. */
  ghost predicate Fenced(log: seq<Logged>, n: nat, row: Row) {
    n <= |log| && forall i :: 0 <= i < n && Matches(log[i].selectors, row) ==> i < row.fetched.start
  }

  /** A row is fenced and was fetched with a credential of its own login. */
  ghost predicate RowOk(log: seq<Logged>, n: nat, row: Row) {
    Fenced(log, n, row) && row.fetched.login == row.scope.login
  }

  ghost predicate ServedOk(log: seq<Logged>, n: nat, scope: Scope, served: Served) {
    served.row.scope == scope && RowOk(log, n, served.row)
  }

  /** A login whose parts normalising leaves as they are. */
  predicate NormalLogin(login: Login) {
    NormalSite(login.site) && NormalizePrincipal(login.principal) == Ok(login.principal)
  }

  /** A flight that still has its captured version has seen no invalidation of its site since. */
  ghost predicate Quiet(log: seq<Logged>, versions: map<string, nat>, site: string, version: nat, captured: nat) {
    && captured <= |log| && version <= VersionIn(versions, site)
    && (version == VersionIn(versions, site) ==> forall i :: captured <= i < |log| ==> log[i].selectors.site != site)
  }

  predicate DropsEpoch(l: Logged, login: Login) {
    l.permissionChanged && l.selectors.site == login.site
    && (l.selectors.principal.Some? ==> l.selectors.principal.value == login.principal)
  }

  /** A stored epoch was loaded by a call begun after every permission change of its login. */
  ghost predicate EpochOk(log: seq<Logged>, login: Login, row: EpochRow) {
    && row.login == login && row.loadedAt <= |log|
    && forall i :: 0 <= i < |log| && DropsEpoch(log[i], login) ==> i < row.loadedAt
  }

  ghost predicate IdentityOk(log: seq<Logged>, versions: map<string, nat>, job: IdentityJob) {
    && NormalLogin(job.work) && Quiet(log, versions, job.work.site, job.version, job.captured)
    && match job.phase
       case Waiting => true
       case Calling(since, _) => job.captured <= since <= |log|
       case Settled(result, at) => at <= |log| && (result.Ok? ==> LoginOf(result.value) == job.work)
  }

  function ScopeOfJob(job: QueryJob): Scope {
    ScopeOf(job.work.identity, job.work.signature)
  }

  ghost predicate CandidateOk(log: seq<Logged>, job: QueryJob, candidate: Option<Row>) {
    candidate.Some? ==> candidate.value.scope == ScopeOfJob(job) && RowOk(log, job.captured, candidate.value)
  }

  ghost predicate QueryOk(log: seq<Logged>, versions: map<string, nat>, job: QueryJob) {
    && NormalLogin(LoginOf(job.work.identity))
    && Quiet(log, versions, job.work.identity.site, job.version, job.captured)
    && CandidateOk(log, job, job.work.stale)
    && match job.phase
       case Waiting => true
       case Calling(since, prior) => job.captured <= since <= |log| && CandidateOk(log, job, prior)
       case Settled(result, at) => at <= |log| && (result.Ok? ==> ServedOk(log, at, ScopeOfJob(job), result.value))
  }

  ghost predicate ReaderOk(log: seq<Logged>, identityJobs: map<nat, IdentityJob>, queryJobs: map<nat, QueryJob>,
                           r: Reader) {
    match r
    case Rejected(_) => true
    case Resolving(ask, Known(identity)) => NormalLogin(ask.login) && LoginOf(identity) == ask.login
    case Resolving(ask, Flight(id)) => NormalLogin(ask.login) && id in identityJobs
      && identityJobs[id].work == ask.login
    case Fetching(ask, identity, id) =>
      LoginOf(identity) == ask.login && id in queryJobs && ScopeOfJob(queryJobs[id]) == ScopeOf(identity, ask.signature)
    case Answered(ask, identity, served, at) =>
      LoginOf(identity) == ask.login && at <= |log| && ServedOk(log, at, ScopeOf(identity, ask.signature), served)
  }

  ghost predicate RowsOk(log: seq<Logged>, cache: map<string, Row>) {
    KeyedByScope(cache) && forall k :: k in cache ==> RowOk(log, |log|, cache[k])
  }

  ghost predicate EpochsOk(log: seq<Logged>, epochs: map<Login, EpochRow>) {
    forall l :: l in epochs ==> EpochOk(log, l, epochs[l])
  }

  ghost predicate IdentitiesOk(log: seq<Logged>, versions: map<string, nat>, next: nat, jobs: map<nat, IdentityJob>) {
    forall id :: id in jobs ==> id < next && IdentityOk(log, versions, jobs[id])
  }

  ghost predicate QueriesOk(log: seq<Logged>, versions: map<string, nat>, next: nat, jobs: map<nat, QueryJob>) {
    forall id :: id in jobs ==> id < next && QueryOk(log, versions, jobs[id])
  }

  ghost predicate ReadersOk(log: seq<Logged>, identityJobs: map<nat, IdentityJob>, queryJobs: map<nat, QueryJob>,
                            readers: map<nat, Reader>) {
    forall r :: r in readers ==> ReaderOk(log, identityJobs, queryJobs, readers[r])
  }

  /** Each flight on offer is a job for the login or cache key it is offered under. */
  ghost predicate FlightsOk<K(!new), W(!new), P(!new), R(!new)>(flights: map<K, nat>, jobs: map<nat, Job<W, P, R>>,
                                                                keyOf: W -> K) {
    forall k :: k in flights ==> flights[k] in jobs && keyOf(jobs[flights[k]].work) == k
  }

  function LoginKey(login: Login): Login {
    login
  }

  function FetchKey(fetch: Fetch): string {
    CacheKey(fetch.identity, fetch.signature)
  }

  ghost predicate Safe(s: State) {
    && RowsOk(s.log, s.store.cache) && EpochsOk(s.log, s.store.epochs)
    && IdentitiesOk(s.log, s.versions, s.nextJob, s.identityJobs)
    && QueriesOk(s.log, s.versions, s.nextJob, s.queryJobs)
    && ReadersOk(s.log, s.identityJobs, s.queryJobs, s.readers)
    && FlightsOk(s.identityFlights, s.identityJobs, LoginKey) && FlightsOk(s.queryFlights, s.queryJobs, FetchKey)
  }

  // ------------------------------------------------------- invalidations come later

  /** Invalidations are only added, and each moves its site's version on. */
  ghost predicate Follows(log: seq<Logged>, versions: map<string, nat>, log': seq<Logged>, versions': map<string, nat>)
  {
    && log <= log'
    && (forall site: string :: VersionIn(versions, site) <= VersionIn(versions', site))
    && forall i :: |log| <= i < |log'| ==>
         VersionIn(versions, log'[i].selectors.site) < VersionIn(versions', log'[i].selectors.site)
  }

  lemma BumpFollows(log: seq<Logged>, versions: map<string, nat>, site: string, added: seq<Logged>)
    requires forall i :: 0 <= i < |added| ==> added[i].selectors.site == site
    ensures Follows(log, versions, log + added, Bump(versions, site))
  {
  }

  lemma QuietFollows(log: seq<Logged>, versions: map<string, nat>, log': seq<Logged>, versions': map<string, nat>,
                     site: string, version: nat, captured: nat)
    requires Quiet(log, versions, site, version, captured) && Follows(log, versions, log', versions')
    ensures Quiet(log', versions', site, version, captured)
  {
  }

  lemma FencedFollows(log: seq<Logged>, log': seq<Logged>, n: nat, row: Row)
    requires Fenced(log, n, row) && log <= log'
    ensures Fenced(log', n, row)
  {
  }

  lemma IdentitiesFollow(log: seq<Logged>, versions: map<string, nat>, log': seq<Logged>, versions': map<string, nat>,
                         next: nat, jobs: map<nat, IdentityJob>)
    requires IdentitiesOk(log, versions, next, jobs) && Follows(log, versions, log', versions')
    ensures IdentitiesOk(log', versions', next, jobs)
  {
    forall id | id in jobs ensures IdentityOk(log', versions', jobs[id]) {
      QuietFollows(log, versions, log', versions', jobs[id].work.site, jobs[id].version, jobs[id].captured);
    }
  }

  lemma QueryFollows(log: seq<Logged>, versions: map<string, nat>, log': seq<Logged>, versions': map<string, nat>,
                     job: QueryJob)
    requires QueryOk(log, versions, job) && Follows(log, versions, log', versions')
    ensures QueryOk(log', versions', job)
  {
    QuietFollows(log, versions, log', versions', job.work.identity.site, job.version, job.captured);
    if job.work.stale.Some? { FencedFollows(log, log', job.captured, job.work.stale.value); }
    if job.phase.Calling? && job.phase.prior.Some? { FencedFollows(log, log', job.captured, job.phase.prior.value); }
    if job.phase.Settled? && job.phase.result.Ok?
      { FencedFollows(log, log', job.phase.at, job.phase.result.value.row); }
  }

  lemma QueriesFollow(log: seq<Logged>, versions: map<string, nat>, log': seq<Logged>, versions': map<string, nat>,
                      next: nat, jobs: map<nat, QueryJob>)
    requires QueriesOk(log, versions, next, jobs) && Follows(log, versions, log', versions')
    ensures QueriesOk(log', versions', next, jobs)
  {
    forall id | id in jobs ensures QueryOk(log', versions', jobs[id]) {
      QueryFollows(log, versions, log', versions', jobs[id]);
    }
  }

  lemma ReadersFollow(log: seq<Logged>, log': seq<Logged>, identityJobs: map<nat, IdentityJob>,
                      queryJobs: map<nat, QueryJob>,
                      readers: map<nat, Reader>)
    requires ReadersOk(log, identityJobs, queryJobs, readers) && log <= log'
    ensures ReadersOk(log', identityJobs, queryJobs, readers)
  {
    forall r | r in readers ensures ReaderOk(log', identityJobs, queryJobs, readers[r]) {
      if readers[r].Answered? { FencedFollows(log, log', readers[r].at, readers[r].served.row); }
    }
  }

  /** Nothing but the store is affected by what comes later in the log. */
  lemma SceneFollows(s: State, store: Store, log: seq<Logged>, versions: map<string, nat>)
    requires Safe(s) && Follows(s.log, s.versions, log, versions)
    requires RowsOk(log, store.cache) && EpochsOk(log, store.epochs)
    ensures Safe(s.(store := store, log := log, versions := versions))
  {
    IdentitiesFollow(s.log, s.versions, log, versions, s.nextJob, s.identityJobs);
    QueriesFollow(s.log, s.versions, log, versions, s.nextJob, s.queryJobs);
    ReadersFollow(s.log, log, s.identityJobs, s.queryJobs, s.readers);
  }

  /** Removing the rows that an invalidation matches keeps the others fenced against it. */
  lemma ClearedRows(log: seq<Logged>, cache: map<string, Row>, l: Logged)
    requires RowsOk(log, cache)
    ensures RowsOk(log + [l], Cleared(cache, l.selectors))
  {
  }

  lemma FewerRows(log: seq<Logged>, cache: map<string, Row>, fewer: map<string, Row>)
    requires RowsOk(log, cache) && fewer.Keys <= cache.Keys && forall k :: k in fewer ==> fewer[k] == cache[k]
    ensures RowsOk(log, fewer)
  {
  }

  lemma EpochFollows(log: seq<Logged>, l: Logged, login: Login, row: EpochRow)
    requires EpochOk(log, login, row) && !DropsEpoch(l, login)
    ensures EpochOk(log + [l], login, row)
  {
  }

  /** Epochs are kept across an invalidation that drops those it names. */
  lemma EpochsFollow(log: seq<Logged>, epochs: map<Login, EpochRow>, l: Logged, kept: map<Login, EpochRow>)
    requires EpochsOk(log, epochs) && kept.Keys <= epochs.Keys && (forall k :: k in kept ==> kept[k] == epochs[k])
    requires forall k :: k in kept ==> !DropsEpoch(l, k)
    ensures EpochsOk(log + [l], kept)
  {
    forall k | k in kept ensures EpochOk(log + [l], k, kept[k]) { EpochFollows(log, l, k, epochs[k]); }
  }

  // ------------------------------------------------------------- jobs and readers

  /** Replacing a job by one for the same work leaves readers and flights as sound as before. */
  lemma ReadersKeepJobs(log: seq<Logged>, identityJobs: map<nat, IdentityJob>, queryJobs: map<nat, QueryJob>,
                        identityJobs': map<nat, IdentityJob>, queryJobs': map<nat, QueryJob>, readers: map<nat, Reader>)
    requires ReadersOk(log, identityJobs, queryJobs, readers)
    requires SameWork(identityJobs, identityJobs') && SameWork(queryJobs, queryJobs')
    ensures ReadersOk(log, identityJobs', queryJobs', readers)
  {
    forall r | r in readers ensures ReaderOk(log, identityJobs', queryJobs', readers[r]) {
      ReaderKeepsJobs(log, identityJobs, queryJobs, identityJobs', queryJobs', readers[r]);
    }
  }

  ghost predicate SameWork<W(!new), P(!new), R(!new)>(jobs: map<nat, Job<W, P, R>>, jobs': map<nat, Job<W, P, R>>) {
    forall id :: id in jobs ==> id in jobs' && jobs'[id].work == jobs[id].work
  }

  lemma ReaderKeepsJobs(log: seq<Logged>, identityJobs: map<nat, IdentityJob>, queryJobs: map<nat, QueryJob>,
                        identityJobs': map<nat, IdentityJob>, queryJobs': map<nat, QueryJob>, r: Reader)
    requires ReaderOk(log, identityJobs, queryJobs, r)
    requires SameWork(identityJobs, identityJobs') && SameWork(queryJobs, queryJobs')
    ensures ReaderOk(log, identityJobs', queryJobs', r)
  {
  }

  lemma FlightsKeepJobs<K(!new), W(!new), P(!new), R(!new)>(flights: map<K, nat>, jobs: map<nat, Job<W, P, R>>,
                                                           jobs': map<nat, Job<W, P, R>>, keyOf: W -> K)
    requires FlightsOk(flights, jobs, keyOf) && SameWork(jobs, jobs')
    ensures FlightsOk(flights, jobs', keyOf)
  {
  }

  lemma OneIdentity(log: seq<Logged>, versions: map<string, nat>, next: nat, jobs: map<nat, IdentityJob>, id: nat,
                    job: IdentityJob)
    requires IdentitiesOk(log, versions, next, jobs) && id < next && IdentityOk(log, versions, job)
    ensures IdentitiesOk(log, versions, next, jobs[id := job])
  {
  }

  lemma OneQuery(log: seq<Logged>, versions: map<string, nat>, next: nat, jobs: map<nat, QueryJob>, id: nat,
                 job: QueryJob)
    requires QueriesOk(log, versions, next, jobs) && id < next && QueryOk(log, versions, job)
    ensures QueriesOk(log, versions, next, jobs[id := job])
  {
  }

  lemma OneReader(log: seq<Logged>, identityJobs: map<nat, IdentityJob>, queryJobs: map<nat, QueryJob>,
                  readers: map<nat, Reader>, reader: nat, r: Reader)
    requires ReadersOk(log, identityJobs, queryJobs, readers) && ReaderOk(log, identityJobs, queryJobs, r)
    ensures ReadersOk(log, identityJobs, queryJobs, readers[reader := r])
  {
  }

  lemma IdentityUpdated(s: State, id: nat, job: IdentityJob)
    requires Safe(s) && id in s.identityJobs && job.work == s.identityJobs[id].work
      && IdentityOk(s.log, s.versions, job)
    ensures Safe(s.(identityJobs := s.identityJobs[id := job]))
  {
    var jobs := s.identityJobs[id := job];
    assert IdentitiesOk(s.log, s.versions, s.nextJob, jobs) by {
      OneIdentity(s.log, s.versions, s.nextJob, s.identityJobs, id, job);
    }
    assert ReadersOk(s.log, jobs, s.queryJobs, s.readers) by {
      ReadersKeepJobs(s.log, s.identityJobs, s.queryJobs, jobs, s.queryJobs, s.readers);
    }
    assert FlightsOk(s.identityFlights, jobs, LoginKey) by {
      FlightsKeepJobs(s.identityFlights, s.identityJobs, jobs, LoginKey);
    }
  }

  lemma QueryUpdated(s: State, id: nat, job: QueryJob)
    requires Safe(s) && id in s.queryJobs && job.work == s.queryJobs[id].work && QueryOk(s.log, s.versions, job)
    ensures Safe(s.(queryJobs := s.queryJobs[id := job]))
  {
    var jobs := s.queryJobs[id := job];
    assert QueriesOk(s.log, s.versions, s.nextJob, jobs) by {
      OneQuery(s.log, s.versions, s.nextJob, s.queryJobs, id, job);
    }
    assert ReadersOk(s.log, s.identityJobs, jobs, s.readers) by {
      ReadersKeepJobs(s.log, s.identityJobs, s.queryJobs, s.identityJobs, jobs, s.readers);
    }
    assert FlightsOk(s.queryFlights, jobs, FetchKey) by {
      FlightsKeepJobs(s.queryFlights, s.queryJobs, jobs, FetchKey);
    }
  }

  lemma ReaderUpdated(s: State, reader: nat, r: Reader)
    requires Safe(s) && ReaderOk(s.log, s.identityJobs, s.queryJobs, r)
    ensures Safe(s.(readers := s.readers[reader := r]))
  {
    OneReader(s.log, s.identityJobs, s.queryJobs, s.readers, reader, r);
  }

  // ------------------------------------------------------------ normalised logins

  lemma NormalLoginIn(site: string, principal: string)
    requires NormalizeSite(site).Ok? && NormalizePrincipal(principal).Ok? && SiteText(SiteText(site)) == SiteText(site)
    ensures NormalLogin(Login(NormalizeSite(site).value, NormalizePrincipal(principal).value))
  {
    PrincipalStable(principal);
  }

  lemma NormalLoginTexts(login: Login)
    requires NormalLogin(login)
    ensures SiteText(login.site) == login.site && PrincipalText(login.principal) == login.principal
  {
  }

  lemma CacheIdentityLogin(revisions: map<string, Revision>, login: Login, site: string, principal: string,
                           epoch: string)
    requires NormalLogin(login) && SiteText(site) == login.site && PrincipalText(principal) == login.principal
    ensures CacheIdentity(revisions, site, principal, epoch).Ok?
    ensures LoginOf(CacheIdentity(revisions, site, principal, epoch).value) == login
  {
  }

  lemma MatchingCredential(site: string, principal: string, login: Login)
    requires Mismatch(site, principal, login).None?
    ensures Login(SiteText(site), PrincipalText(principal)) == login
  {
  }

  // ---------------------------------------------------------- the steps of one job

  lemma IdentitySettled(s: State, id: nat, result: Result<Identity, Failure>)
    requires Safe(s) && id in s.identityJobs && (result.Ok? ==> LoginOf(result.value) == s.identityJobs[id].work)
    ensures Safe(SettleIdentity(s, id, result))
  {
    IdentityUpdated(s, id, s.identityJobs[id].(phase := Settled(result, |s.log|)));
  }

  lemma QuerySettled(s: State, id: nat, result: Result<Served, Failure>)
    requires Safe(s) && id in s.queryJobs
    requires result.Ok? ==> ServedOk(s.log, |s.log|, ScopeOfJob(s.queryJobs[id]), result.value)
    ensures Safe(SettleQuery(s, id, result))
  {
    QueryUpdated(s, id, s.queryJobs[id].(phase := Settled(result, |s.log|)));
  }

  lemma FailSafe(s: State, id: nat, failure: Failure)
    requires Safe(s)
    ensures Safe(Fail(s, id, failure))
  {
    if id in s.identityJobs {
      IdentitySettled(s, id, Err(failure));
    } else if id in s.queryJobs {
      QuerySettled(s, id, Err(failure));
    }
  }

  lemma BegunIdentityOk(s: State, job: IdentityJob, now: int)
    requires EpochsOk(s.log, s.store.epochs) && IdentityOk(s.log, s.versions, job)
    ensures IdentityOk(s.log, s.versions, job.(phase := IdentityBegins(s.store, |s.log|, job.work, now)))
  {
    NormalLoginTexts(job.work);
    var current := EpochOf(s.store.epochs, job.work.site, job.work.principal);
    if current.Some? {
      var login := current.value.login;
      assert EpochOk(s.log, job.work, current.value);
      CacheIdentityLogin(s.store.revisions, login, login.site, login.principal, current.value.epoch);
    }
  }

  lemma StartIdentitySafe(s: State, id: nat, now: int)
    requires Safe(s) && id in s.identityJobs
    ensures Safe(StartIdentity(s, id, now))
  {
    var job := s.identityJobs[id];
    assert IdentityOk(s.log, s.versions, job);
    BegunIdentityOk(s, job, now);
    IdentityUpdated(s, id, job.(phase := IdentityBegins(s.store, |s.log|, job.work, now)));
  }

  /** A fresh row found in the cache may be served. */
  lemma HitOk(s: State, identity: Identity, signature: string, now: int)
    requires RowsOk(s.log, s.store.cache)
    requires Lookup(s.store.cache, identity, signature).Some?
    ensures var row := Lookup(s.store.cache, identity, signature).value;
      && row.scope == ScopeOf(identity, signature) && RowOk(s.log, |s.log|, row)
      && (Fresh(row.validUntil, now) ==>
           ServedOk(s.log, |s.log|, ScopeOf(identity, signature), Resolved(row, now, FromCache, Hit, false)))
  {
  }

  lemma FencedEarlier(log: seq<Logged>, m: nat, n: nat, row: Row)
    requires Fenced(log, n, row) && m <= n
    ensures Fenced(log, m, row)
  {
  }

  lemma BegunQueryOk(s: State, job: QueryJob, now: int)
    requires RowsOk(s.log, s.store.cache) && QueryOk(s.log, s.versions, job)
    ensures QueryOk(s.log, s.versions, job.(phase := QueryBegins(s.store, |s.log|, job.work, now)))
  {
    var current := Lookup(s.store.cache, job.work.identity, job.work.signature);
    if current.Some? {
      HitOk(s, job.work.identity, job.work.signature, now);
      FencedEarlier(s.log, job.captured, |s.log|, current.value);
    }
  }

  lemma StartQuerySafe(s: State, id: nat, now: int)
    requires Safe(s) && id in s.queryJobs
    ensures Safe(StartQuery(s, id, now))
  {
    var job := s.queryJobs[id];
    assert QueryOk(s.log, s.versions, job);
    BegunQueryOk(s, job, now);
    QueryUpdated(s, id, job.(phase := QueryBegins(s.store, |s.log|, job.work, now)));
  }

  lemma StartJobSafe(s: State, id: nat, now: int)
    requires Safe(s)
    ensures Safe(StartJob(s, id, now))
  {
    if id in s.identityJobs {
      StartIdentitySafe(s, id, now);
    } else if id in s.queryJobs {
      StartQuerySafe(s, id, now);
    }
  }

  lemma GateSafe(s: State, gate: Gate<nat>, closed: bool)
    requires Safe(s)
    ensures Safe(s.(gate := gate, closed := closed)) && Safe(s.(gate := gate))
  {
  }

  lemma SubmitJobSafe(c: Config, s: State, id: nat, now: int)
    requires Safe(s)
    ensures Safe(SubmitJob(c, s, id, now))
  {
    var (gate, admission) := Admit(c.limits, s.gate, id);
    var s' := s.(gate := gate);
    GateSafe(s, gate, s.closed);
    match admission
    case Started => StartJobSafe(s', id, now);
    case Queued =>
    case Overloaded => FailSafe(s', id, Failure.Overloaded);
    case Refused => FailSafe(s', id, ServiceClosed);
  }

  // ------------------------------------------------------------------ the steps

  lemma ResolveSafe(c: Config, s: State, reader: nat, ask: Ask, now: int, start: int)
    requires Safe(s) && NormalLogin(ask.login)
    ensures Safe(Resolve(c, s, reader, ask, now, start))
  {
    NormalLoginTexts(ask.login);
    var stored := EpochOf(s.store.epochs, ask.login.site, ask.login.principal);
    if stored.Some? && Fresh(stored.value.validUntil, now) {
      var login := stored.value.login;
      assert login == ask.login;
      var identity := CacheIdentity(s.store.revisions, login.site, login.principal, stored.value.epoch);
      CacheIdentityLogin(s.store.revisions, login, login.site, login.principal, stored.value.epoch);
      ReaderUpdated(s, reader, Resolving(ask, Known(identity.value)));
    } else if ask.login in s.identityFlights {
      ReaderUpdated(s, reader, Resolving(ask, Flight(s.identityFlights[ask.login])));
    } else {
      IdentityFlightAdded(s, reader, ask);
      SubmitJobSafe(c, WithIdentityFlight(s, reader, ask), s.nextJob, start);
    }
  }

  lemma FlightAdded<K(!new), W(!new), P(!new), R(!new)>(flights: map<K, nat>, jobs: map<nat, Job<W, P, R>>,
                                                        keyOf: W -> K, id: nat, job: Job<W, P, R>)
    requires FlightsOk(flights, jobs, keyOf) && id !in jobs
    ensures FlightsOk(flights[keyOf(job.work) := id], jobs[id := job], keyOf)
  {
  }

  lemma IdentityFlightAdded(s: State, reader: nat, ask: Ask)
    requires Safe(s) && NormalLogin(ask.login)
    ensures Safe(WithIdentityFlight(s, reader, ask))
  {
    var job := WithIdentityFlight(s, reader, ask).identityJobs[s.nextJob];
    AddIdentityParts(s, job, reader, Resolving(ask, Flight(s.nextJob)));
    FlightAdded(s.identityFlights, s.identityJobs, LoginKey, s.nextJob, job);
  }

  lemma AddIdentityParts(s: State, job: IdentityJob, reader: nat, r: Reader)
    requires QueriesOk(s.log, s.versions, s.nextJob, s.queryJobs)
      && IdentitiesOk(s.log, s.versions, s.nextJob, s.identityJobs)
    requires ReadersOk(s.log, s.identityJobs, s.queryJobs, s.readers) && IdentityOk(s.log, s.versions, job)
    requires ReaderOk(s.log, s.identityJobs[s.nextJob := job], s.queryJobs, r)
    ensures s.nextJob !in s.identityJobs
    ensures IdentitiesOk(s.log, s.versions, s.nextJob + 1, s.identityJobs[s.nextJob := job])
    ensures QueriesOk(s.log, s.versions, s.nextJob + 1, s.queryJobs)
    ensures ReadersOk(s.log, s.identityJobs[s.nextJob := job], s.queryJobs, s.readers[reader := r])
  {
    var jobs := s.identityJobs[s.nextJob := job];
    IdentitiesBelow(s.log, s.versions, s.nextJob, s.identityJobs);
    OneIdentity(s.log, s.versions, s.nextJob + 1, s.identityJobs, s.nextJob, job);
    QueriesBelow(s.log, s.versions, s.nextJob, s.queryJobs);
    assert s.nextJob !in s.identityJobs;
    ReadersKeepJobs(s.log, s.identityJobs, s.queryJobs, jobs, s.queryJobs, s.readers);
    OneReader(s.log, jobs, s.queryJobs, s.readers, reader, r);
  }

  lemma MaybePruneSafe(c: Config, s: State, site: string, now: int)
    requires Safe(s)
    ensures Safe(MaybePrune(c, s, site, now))
  {
    FewerRows(s.log, s.store.cache, MaybePrune(c, s, site, now).store.cache);
  }

  lemma ReadSafe(c: Config, s: State, reader: nat, request: Request, at: Times)
    requires Safe(s) && SiteText(SiteText(request.site)) == SiteText(request.site)
    ensures Safe(Read(c, s, reader, request, at))
  {
    if s.closed {
      ReaderUpdated(s, reader, Rejected(ServiceClosed));
    } else if AskOf(request).Err? {
      ReaderUpdated(s, reader, Rejected(AskOf(request).error));
    } else {
      var ask := AskOf(request).value;
      NormalLoginIn(request.site, request.principal);
      MaybePruneSafe(c, s, ask.login.site, at.prune);
      ResolveSafe(c, MaybePrune(c, s, ask.login.site, at.prune), reader, ask, at.epoch, at.start);
    }
  }

  lemma NewQueryOk(s: State, ask: Ask, identity: Identity, cached: Option<Row>, now: int)
    requires Safe(s) && NormalLogin(ask.login) && LoginOf(identity) == ask.login
    requires cached == Lookup(s.store.cache, identity, ask.signature)
    ensures QueryOk(s.log, s.versions, Job(Fetch(identity, ask.signature, ask.ttl, ask.fallback, cached),
                                              VersionIn(s.versions, ask.login.site), |s.log|, Waiting))
  {
    if cached.Some? { HitOk(s, identity, ask.signature, now); }
  }

  lemma QueryJobAdded(s: State, key: string, job: QueryJob, reader: nat, r: Reader)
    requires Safe(s) && QueryOk(s.log, s.versions, job) && FetchKey(job.work) == key
    requires ReaderOk(s.log, s.identityJobs, s.queryJobs[s.nextJob := job], r)
    ensures Safe(s.(queryJobs := s.queryJobs[s.nextJob := job], queryFlights := s.queryFlights[key := s.nextJob],
                       readers := s.readers[reader := r], nextJob := s.nextJob + 1))
  {
    AddQueryParts(s, job, reader, r);
    FlightAdded(s.queryFlights, s.queryJobs, FetchKey, s.nextJob, job);
  }

  lemma AddQueryParts(s: State, job: QueryJob, reader: nat, r: Reader)
    requires QueriesOk(s.log, s.versions, s.nextJob, s.queryJobs)
      && IdentitiesOk(s.log, s.versions, s.nextJob, s.identityJobs)
    requires ReadersOk(s.log, s.identityJobs, s.queryJobs, s.readers) && QueryOk(s.log, s.versions, job)
    requires ReaderOk(s.log, s.identityJobs, s.queryJobs[s.nextJob := job], r)
    ensures s.nextJob !in s.queryJobs
    ensures QueriesOk(s.log, s.versions, s.nextJob + 1, s.queryJobs[s.nextJob := job])
    ensures IdentitiesOk(s.log, s.versions, s.nextJob + 1, s.identityJobs)
    ensures ReadersOk(s.log, s.identityJobs, s.queryJobs[s.nextJob := job], s.readers[reader := r])
  {
    var jobs := s.queryJobs[s.nextJob := job];
    QueriesBelow(s.log, s.versions, s.nextJob, s.queryJobs);
    OneQuery(s.log, s.versions, s.nextJob + 1, s.queryJobs, s.nextJob, job);
    IdentitiesBelow(s.log, s.versions, s.nextJob, s.identityJobs);
    assert s.nextJob !in s.queryJobs;
    ReadersKeepJobs(s.log, s.identityJobs, s.queryJobs, s.identityJobs, jobs, s.readers);
    OneReader(s.log, s.identityJobs, jobs, s.readers, reader, r);
  }

  lemma QueryFlightAdded(s: State, reader: nat, ask: Ask, identity: Identity, cached: Option<Row>, key: string,
                         now: int)
    requires Safe(s) && NormalLogin(ask.login) && LoginOf(identity) == ask.login
    requires cached == Lookup(s.store.cache, identity, ask.signature) && key == CacheKey(identity, ask.signature)
    ensures Safe(WithQueryFlight(s, reader, ask, identity, cached, key))
  {
    NewQueryOk(s, ask, identity, cached, now);
    QueryJobAdded(s, key, WithQueryFlight(s, reader, ask, identity, cached, key).queryJobs[s.nextJob],
                  reader, Fetching(ask, identity, s.nextJob));
  }

  lemma QueriesBelow(log: seq<Logged>, versions: map<string, nat>, next: nat, jobs: map<nat, QueryJob>)
    requires QueriesOk(log, versions, next, jobs)
    ensures QueriesOk(log, versions, next + 1, jobs)
  {
  }

  lemma IdentitiesBelow(log: seq<Logged>, versions: map<string, nat>, next: nat, jobs: map<nat, IdentityJob>)
    requires IdentitiesOk(log, versions, next, jobs)
    ensures IdentitiesOk(log, versions, next + 1, jobs)
  {
  }

  /** A flight on offer under a cache key fetches just what that key stands for. */
  lemma JoinedScope(s: State, identity: Identity, signature: string)
    requires Safe(s) && CacheKey(identity, signature) in s.queryFlights
    ensures var id := s.queryFlights[CacheKey(identity, signature)];
      id in s.queryJobs && ScopeOfJob(s.queryJobs[id]) == ScopeOf(identity, signature)
  {
    var id := s.queryFlights[CacheKey(identity, signature)];
    assert FetchKey(s.queryJobs[id].work) == CacheKey(identity, signature);
    ScopeKeyInjective(ScopeOfJob(s.queryJobs[id]), ScopeOf(identity, signature));
  }

  lemma QuerySafe(c: Config, s: State, reader: nat, ask: Ask, identity: Identity, now: int, start: int)
    requires Safe(s) && NormalLogin(ask.login) && LoginOf(identity) == ask.login
    ensures Safe(Query(c, s, reader, ask, identity, now, start))
  {
    var cached := Lookup(s.store.cache, identity, ask.signature);
    var key := CacheKey(identity, ask.signature);
    if cached.Some? && Fresh(cached.value.validUntil, now) {
      HitOk(s, identity, ask.signature, now);
      ReaderUpdated(s, reader, Answered(ask, identity, Resolved(cached.value, now, FromCache, Hit, false), |s.log|));
    } else if key in s.queryFlights {
      JoinedScope(s, identity, ask.signature);
      ReaderUpdated(s, reader, Fetching(ask, identity, s.queryFlights[key]));
    } else {
      QueryFlightAdded(s, reader, ask, identity, cached, key, now);
      SubmitJobSafe(c, WithQueryFlight(s, reader, ask, identity, cached, key), s.nextJob, start);
    }
  }

  lemma ContinueSafe(c: Config, s: State, reader: nat, now: int, start: int)
    requires Safe(s)
    requires reader in s.readers && s.readers[reader].Resolving? && IdentityFor(s, s.readers[reader].source).Some?
    ensures Safe(Continue(c, s, reader, now, start))
  {
    var r := s.readers[reader];
    var identity := IdentityFor(s, r.source).value;
    assert ReaderOk(s.log, s.identityJobs, s.queryJobs, r);
    if identity.Err? {
      ReaderUpdated(s, reader, Rejected(identity.error));
    } else {
      AwaitedIdentity(s, r);
      QuerySafe(c, s, reader, r.ask, identity.value, now, start);
    }
  }

  lemma AwaitedIdentity(s: State, r: Reader)
    requires Safe(s) && r.Resolving? && ReaderOk(s.log, s.identityJobs, s.queryJobs, r)
    requires IdentityFor(s, r.source).Some? && IdentityFor(s, r.source).value.Ok?
    ensures NormalLogin(r.ask.login) && LoginOf(IdentityFor(s, r.source).value.value) == r.ask.login
  {
  }

  lemma DeliverSafe(s: State, reader: nat)
    requires Safe(s) && reader in s.readers && s.readers[reader].Fetching?
    requires s.readers[reader].job in s.queryJobs && s.queryJobs[s.readers[reader].job].phase.Settled?
    ensures Safe(Deliver(s, reader))
  {
    var r := s.readers[reader];
    var phase := s.queryJobs[r.job].phase;
    assert ReaderOk(s.log, s.identityJobs, s.queryJobs, r);
    assert QueryOk(s.log, s.versions, s.queryJobs[r.job]);
    ReaderUpdated(s, reader,
      if phase.result.Ok? then Answered(r.ask, r.identity, phase.result.value, phase.at)
        else Rejected(phase.result.error));
  }

  /** A login's own invalidation. */
  lemma DropLoginSafe(s: State, login: Login)
    requires Safe(s) && NormalLogin(login)
    ensures Safe(DropLogin(s, login))
  {
    NormalLoginTexts(login);
    var l := Logged(LoginSelectors(login), false);
    var s' := DropLogin(s, login);
    BumpFollows(s.log, s.versions, login.site, [l]);
    ClearedRows(s.log, s.store.cache, l);
    EpochsFollow(s.log, s.store.epochs, l, s.store.epochs);
    SceneFollows(s, s'.store, s'.log, s'.versions);
  }

  lemma EpochStored(s: State, row: EpochRow)
    requires Safe(s) && EpochOk(s.log, row.login, row)
    ensures Safe(StoreEpoch(s, row))
  {
  }

  /** An epoch that is stored was loaded by a call begun after every permission change of its login. */
  lemma IdentityAnsweredSafe(c: Config, s: State, id: nat, answer: Result<Epoch, Failure>, now: int)
    requires Safe(s) && id in s.identityJobs && s.identityJobs[id].phase.Calling?
    ensures Safe(IdentityAnswered(c, s, id, answer, now))
  {
    var job := s.identityJobs[id];
    var loaded := LoadedEpoch(s.versions, job, answer);
    if loaded.Err? {
      IdentitySettled(s, id, Err(loaded.error));
    } else {
      AcceptedLogin(s.versions, job, answer);
      EpochAcceptedSafe(c, s, id, loaded.value, now);
    }
  }

  lemma AcceptedLogin(versions: map<string, nat>, job: IdentityJob, answer: Result<Epoch, Failure>)
    requires LoadedEpoch(versions, job, answer).Ok?
    ensures answer.Ok? && LoadedEpoch(versions, job, answer) == answer
      && VersionIn(versions, job.work.site) == job.version
    ensures Login(SiteText(answer.value.site), PrincipalText(answer.value.principal)) == job.work
  {
    MatchingCredential(answer.value.site, answer.value.principal, job.work);
  }

  lemma LoadedEpochOk(s: State, job: IdentityJob, row: EpochRow, log: seq<Logged>)
    requires IdentityOk(s.log, s.versions, job) && job.phase.Calling?
      && VersionIn(s.versions, job.work.site) == job.version
    requires row.login == job.work && row.loadedAt == job.phase.since
    requires log == s.log || log == s.log + [Logged(LoginSelectors(job.work), false)]
    ensures EpochOk(log, row.login, row)
  {
  }

  lemma EpochAcceptedSafe(c: Config, s: State, id: nat, epoch: Epoch, now: int)
    requires Safe(s) && id in s.identityJobs && s.identityJobs[id].phase.Calling?
    requires Login(SiteText(epoch.site), PrincipalText(epoch.principal)) == s.identityJobs[id].work
    requires VersionIn(s.versions, s.identityJobs[id].work.site) == s.identityJobs[id].version
    ensures Safe(EpochAccepted(c, s, id, epoch, now))
  {
    var job := s.identityJobs[id];
    EpochKept(s, id, LoadedRow(c, job, epoch, now), EpochChanged(job, epoch));
    EpochServed(WithEpoch(c, s, job, epoch, now), id, epoch);
  }

  lemma EpochServed(s: State, id: nat, epoch: Epoch)
    requires Safe(s) && id in s.identityJobs && NormalLogin(s.identityJobs[id].work)
    requires Login(SiteText(epoch.site), PrincipalText(epoch.principal)) == s.identityJobs[id].work
    ensures Safe(SettleIdentity(s, id, CacheIdentity(s.store.revisions, epoch.site, epoch.principal, epoch.epoch)))
  {
    CacheIdentityLogin(s.store.revisions, s.identityJobs[id].work, epoch.site, epoch.principal, epoch.epoch);
    IdentitySettled(s, id, CacheIdentity(s.store.revisions, epoch.site, epoch.principal, epoch.epoch));
  }

  lemma EpochKept(s: State, id: nat, row: EpochRow, changed: bool)
    requires Safe(s) && id in s.identityJobs && s.identityJobs[id].phase.Calling?
    requires row.login == s.identityJobs[id].work && row.loadedAt == s.identityJobs[id].phase.since
    requires VersionIn(s.versions, s.identityJobs[id].work.site) == s.identityJobs[id].version
    ensures Safe(StoreEpoch(if changed then DropLogin(s, row.login) else s, row)) && NormalLogin(row.login)
  {
    var job := s.identityJobs[id];
    assert IdentityOk(s.log, s.versions, job);
    var s1 := if changed then DropLogin(s, row.login) else s;
    assert Safe(s1) by { if changed { DropLoginSafe(s, row.login); } }
    LoadedEpochOk(s, job, row, s1.log);
    EpochStored(s1, row);
  }

  /** While a flight has its captured version, a row of its site fetched since is fenced. */
  lemma FencedByVersion(log: seq<Logged>, versions: map<string, nat>, version: nat, captured: nat, row: Row)
    requires Quiet(log, versions, row.scope.login.site, version, captured)
      && version == VersionIn(versions, row.scope.login.site)
    requires captured <= row.fetched.start || Fenced(log, captured, row)
    ensures Fenced(log, |log|, row)
  {
  }

  lemma StaleOk(c: Config, s: State, job: QueryJob, failure: Failure, now: int)
    requires QueryOk(s.log, s.versions, job) && job.phase.Calling?
    requires VersionIn(s.versions, job.work.identity.site) == job.version
    requires CanServeStale(failure, job.phase.prior, job.work.fallback, now, c.maxStale).Serve?
    ensures ServedOk(s.log, |s.log|, ScopeOfJob(job), Resolved(job.phase.prior.value, now, FromCache, Stale, true))
  {
    NormalLoginTexts(LoginOf(job.work.identity));
    FencedByVersion(s.log, s.versions, job.version, job.captured, job.phase.prior.value);
  }

  lemma LiveTtlOk(c: Config, versions: map<string, nat>, job: QueryJob, live: LiveRead)
    requires LiveTtl(c, versions, job, live).Ok?
    ensures VersionIn(versions, job.work.identity.site) == job.version
    ensures Mismatch(live.site, live.principal, LoginOf(job.work.identity)).None?
  {
  }

  lemma LiveRowOk(c: Config, s: State, job: QueryJob, live: LiveRead, now: int)
    requires QueryOk(s.log, s.versions, job) && job.phase.Calling?
    requires LiveTtl(c, s.versions, job, live).Ok?
    ensures var row := LiveRow(job, live, now, LiveTtl(c, s.versions, job, live).value);
      RowOk(s.log, |s.log|, row) && row.scope == ScopeOfJob(job)
  {
    var login := LoginOf(job.work.identity);
    LiveTtlOk(c, s.versions, job, live);
    MatchingCredential(live.site, live.principal, login);
    NormalLoginTexts(login);
    var row := LiveRow(job, live, now, LiveTtl(c, s.versions, job, live).value);
    assert row.scope.login == login && row.fetched == Fetched(job.phase.since, login);
    FencedByVersion(s.log, s.versions, job.version, job.captured, row);
  }

  lemma RowStored(s: State, row: Row)
    requires Safe(s) && RowOk(s.log, |s.log|, row)
    ensures Safe(StoreRow(s, row))
    ensures var cache := StoreRow(s, row).store.cache; ScopeKey(row.scope) in cache && cache[ScopeKey(row.scope)] == row
  {
    if ScopeKey(row.scope) in s.store.cache {
      ScopeKeyInjective(s.store.cache[ScopeKey(row.scope)].scope, row.scope);
    }
  }

  lemma LiveFailedOk(c: Config, s: State, job: QueryJob, failure: Failure, now: int)
    requires QueryOk(s.log, s.versions, job) && job.phase.Calling?
    ensures var result := LiveFailed(c, s.versions, job, failure, now);
      result.Ok? ==> ServedOk(s.log, |s.log|, ScopeOfJob(job), result.value)
  {
    if LiveFailed(c, s.versions, job, failure, now).Ok? { StaleOk(c, s, job, failure, now); }
  }

  lemma LiveAcceptedSafe(s: State, id: nat, live: LiveRead, now: int, ttl: int)
    requires Safe(s) && id in s.queryJobs && s.queryJobs[id].phase.Calling?
    requires var row := LiveRow(s.queryJobs[id], live, now, ttl);
      RowOk(s.log, |s.log|, row) && row.scope == ScopeOfJob(s.queryJobs[id])
    ensures Safe(LiveAccepted(s, id, live, now, ttl))
  {
    var row := LiveRow(s.queryJobs[id], live, now, ttl);
    StoredAndServed(s, id, row, AcceptedAnswer(s, id, row, now));
    AcceptedState(s, id, live, now, ttl);
  }

  function AcceptedAnswer(s: State, id: nat, row: Row, now: int): Served
    requires id in s.queryJobs && s.queryJobs[id].phase.Calling?
  {
    Resolved(row, now, FromFrappe, if s.queryJobs[id].phase.prior.Some? then Stale else Miss, false)
  }

  lemma AcceptedState(s: State, id: nat, live: LiveRead, now: int, ttl: int)
    requires id in s.queryJobs && s.queryJobs[id].phase.Calling?
    requires var row := LiveRow(s.queryJobs[id], live, now, ttl);
      var cache := StoreRow(s, row).store.cache;
      ScopeKey(row.scope) in cache && cache[ScopeKey(row.scope)] == row
    ensures var row := LiveRow(s.queryJobs[id], live, now, ttl);
      LiveAccepted(s, id, live, now, ttl) == SettleQuery(StoreRow(s, row), id, Ok(AcceptedAnswer(s, id, row, now)))
  {
  }

  lemma StoredAndServed(s: State, id: nat, row: Row, served: Served)
    requires Safe(s) && id in s.queryJobs && RowOk(s.log, |s.log|, row) && row.scope == ScopeOfJob(s.queryJobs[id])
    requires served.row == row
    ensures Safe(SettleQuery(StoreRow(s, row), id, Ok(served)))
    ensures var cache := StoreRow(s, row).store.cache; ScopeKey(row.scope) in cache && cache[ScopeKey(row.scope)] == row
  {
    RowStored(s, row);
    QuerySettled(StoreRow(s, row), id, Ok(served));
  }

  /** A row that is stored was fetched by a live call begun after every invalidation that matches it. */
  lemma LiveAnsweredSafe(c: Config, s: State, id: nat, answer: Result<LiveRead, Failure>, now: int)
    requires Safe(s) && id in s.queryJobs && s.queryJobs[id].phase.Calling?
    ensures Safe(LiveAnswered(c, s, id, answer, now))
  {
    var job := s.queryJobs[id];
    if answer.Err? {
      assert QueryOk(s.log, s.versions, job);
      LiveFailedOk(c, s, job, answer.error, now);
      QuerySettled(s, id, LiveFailed(c, s.versions, job, answer.error, now));
    } else {
      var ttl := LiveTtl(c, s.versions, job, answer.value);
      if ttl.Err? {
        QuerySettled(s, id, Err(ttl.error));
      } else {
        assert QueryOk(s.log, s.versions, job);
        LiveRowOk(c, s, job, answer.value, now);
        LiveAcceptedSafe(s, id, answer.value, now, ttl.value);
      }
    }
  }

  lemma ReleaseSafe(c: Config, s: State, id: nat, now: int)
    requires Safe(s)
    ensures Safe(Release(c, s, id, now))
  {
    var (gate, next) := Drain(c.limits, Free(s.gate, id));
    GateSafe(s, gate, s.closed);
    if next.Some? { StartJobSafe(s.(gate := gate), next.value, now); }
  }

  lemma ForgetSafe(s: State, id: nat)
    requires Safe(s)
    ensures Safe(Forget(s, id))
  {
  }

  /** An invalidation that is carried out: the rows and epochs it names go. */
  lemma LoggedSafe(s: State, store: Store, l: Logged)
    requires Safe(s) && store.cache == Cleared(s.store.cache, l.selectors)
    requires store.epochs.Keys <= s.store.epochs.Keys && forall k :: k in store.epochs ==>
      store.epochs[k] == s.store.epochs[k] && !DropsEpoch(l, k)
    ensures Safe(s.(store := store, log := s.log + [l], versions := Bump(s.versions, l.selectors.site)))
  {
    BumpFollows(s.log, s.versions, l.selectors.site, [l]);
    ClearedRows(s.log, s.store.cache, l);
    EpochsFollow(s.log, s.store.epochs, l, store.epochs);
    SceneFollows(s, store, s.log + [l], Bump(s.versions, l.selectors.site));
  }

  lemma BumpedSafe(s: State, site: string)
    requires Safe(s)
    ensures Safe(s.(versions := Bump(s.versions, site)))
  {
    BumpFollows(s.log, s.versions, site, []);
    assert s.log + [] == s.log;
    SceneFollows(s, s.store, s.log, Bump(s.versions, site));
  }

  /** Which epochs a permission change drops. */
  lemma DroppedEpochs(epochs: map<Login, EpochRow>, input: Invalidation, l: Logged)
    requires SelectorsOf(input) == Ok(l.selectors)
    ensures forall k :: k in EpochsWithout(epochs, input.site, input.principal) ==> !DropsEpoch(l, k)
  {
  }

  lemma InvalidatedSafe(s: State, input: Invalidation, permissionChanged: bool)
    requires Safe(s) && SelectorsOf(input).Ok? && SiteText(input.site) == input.site
    ensures Safe(InvalidatedBy(s, input, permissionChanged))
  {
    var l := Logged(SelectorsOf(input).value, permissionChanged);
    DroppedEpochs(s.store.epochs, input, l);
    LoggedSafe(s, InvalidatedBy(s, input, permissionChanged).store, l);
  }

  lemma InvalidateSafe(s: State, input: Invalidation, permissionChanged: bool)
    requires Safe(s) && SiteText(SiteText(input.site)) == SiteText(input.site)
    ensures Safe(Invalidate(s, input, permissionChanged))
  {
    if !s.closed && NormalizedInvalidation(input).Ok? {
      var normalized := NormalizedInvalidation(input).value;
      assert SiteText(normalized.site) == normalized.site;
      if SelectorsOf(normalized).Err? {
        BumpedSafe(s, normalized.site);
      } else {
        InvalidatedSafe(s, normalized, permissionChanged);
      }
    }
  }

  lemma ApplyEventSafe(s: State, e: Event)
    requires Safe(s)
    ensures Safe(ApplyEvent(s, e))
  {
    if !s.closed && NormalizeSite(e.site).Ok? {
      if TakesEffect(s.store, e) {
        var l := Logged(SelectorsOf(EventInvalidation(e)).value, e.operation == PermissionChanged);
        assert l.selectors.site == NormalizeSite(e.site).value;
        DroppedEpochs(s.store.epochs, EventInvalidation(e), l);
        LoggedSafe(s, AfterEvent(s.store, e), l);
      } else {
        BumpedSafe(s, NormalizeSite(e.site).value);
      }
    }
  }

  lemma {:induction false} FailAllSafe(s: State, ids: seq<nat>)
    requires Safe(s)
    ensures Safe(FailAll(s, ids))
    decreases |ids|
  {
    if ids != [] {
      FailAllSafe(s, ids[..|ids| - 1]);
      FailSafe(FailAll(s, ids[..|ids| - 1]), ids[|ids| - 1], ServiceClosed);
    }
  }

  lemma CloseSafe(s: State)
    requires Safe(s)
    ensures Safe(Close(s))
  {
    GateSafe(s, Shut(s.gate), true);
    FailAllSafe(s.(closed := true, gate := Shut(s.gate)), s.gate.queue);
  }

  // ------------------------------------------------------------------- every run

  /** Sites that callers pass in normalise to a text that normalises to itself. */
  predicate StableSites(a: Action) {
    match a
    case DoRead(_, request, _) => SiteText(SiteText(request.site)) == SiteText(request.site)
    case DoInvalidate(input, _) => SiteText(SiteText(input.site)) == SiteText(input.site)
    case _ => true
  }

  lemma NextSafe(c: Config, s: State, a: Action)
    requires Safe(s) && Enabled(s, a) && StableSites(a)
    ensures Safe(Next(c, s, a))
  {
    if a.DoIdentityAnswer? || a.DoLiveAnswer? {
      NextAnswerSafe(c, s, a);
    } else if a.DoContinue? || a.DoDeliver? || a.DoRelease? || a.DoForget? {
      NextResumeSafe(c, s, a);
    } else {
      NextCallSafe(c, s, a);
    }
  }

  lemma NextCallSafe(c: Config, s: State, a: Action)
    requires Safe(s) && Enabled(s, a) && StableSites(a)
    requires a.DoRead? || a.DoInvalidate? || a.DoEvent? || a.DoClose?
    ensures Safe(Next(c, s, a))
  {
    match a
    case DoRead(reader, request, at) => ReadSafe(c, s, reader, request, at);
    case DoInvalidate(input, permissionChanged) => InvalidateSafe(s, input, permissionChanged);
    case DoEvent(e) => ApplyEventSafe(s, e);
    case DoClose => CloseSafe(s);
  }

  lemma NextAnswerSafe(c: Config, s: State, a: Action)
    requires Safe(s) && Enabled(s, a) && (a.DoIdentityAnswer? || a.DoLiveAnswer?)
    ensures Safe(Next(c, s, a))
  {
    match a
    case DoIdentityAnswer(id, epoch, now) => IdentityAnsweredSafe(c, s, id, epoch, now);
    case DoLiveAnswer(id, live, now) => LiveAnsweredSafe(c, s, id, live, now);
  }

  lemma NextResumeSafe(c: Config, s: State, a: Action)
    requires Safe(s) && Enabled(s, a) && (a.DoContinue? || a.DoDeliver? || a.DoRelease? || a.DoForget?)
    ensures Safe(Next(c, s, a))
  {
    match a
    case DoContinue(reader, now, start) => ContinueSafe(c, s, reader, now, start);
    case DoDeliver(reader) => DeliverSafe(s, reader);
    case DoRelease(id, now) => ReleaseSafe(c, s, id, now);
    case DoForget(id) => ForgetSafe(s, id);
  }

  /** What a durable store has to be when the service is opened over it: answers under the keys of
      their scopes, fetched with credentials of their own logins, and epochs under their logins. */
  ghost predicate Sound(store: Store) {
    && KeyedByScope(store.cache)
    && (forall k :: k in store.cache ==> store.cache[k].fetched.login == store.cache[k].scope.login)
    && forall l :: l in store.epochs ==> store.epochs[l].login == l
  }

  lemma OpenedSafe(store: Store)
    requires Sound(store)
    ensures Safe(Initial(Opened(store)))
  {
    var rows := Opened(store).cache;
    forall k | k in rows ensures k == ScopeKey(rows[k].scope) && RowOk([], 0, rows[k]) {
      assert rows[k].scope == store.cache[k].scope && k == ScopeKey(store.cache[k].scope);
    }
  }

  ghost predicate Stable(actions: seq<Action>) {
    forall i :: 0 <= i < |actions| ==> StableSites(actions[i])
  }

  lemma {:induction false} EveryRunSafe(c: Config, store: Store, actions: seq<Action>, s: State)
    requires Sound(store) && Reaches(c, store, actions, s) && Stable(actions)
    ensures Safe(s)
  {
    var states :| IsRun(c, store, actions, states) && states[|actions|] == s;
    OpenedSafe(store);
    for n := 0 to |actions|
      invariant Safe(states[n])
    {
      RunStep(c, store, actions, states, n);
      NextSafe(c, states[n], actions[n]);
    }
  }

  /** The store a run leaves is fit for the next service to be opened over it. */
  lemma StoreStaysSound(c: Config, store: Store, actions: seq<Action>, s: State)
    requires Sound(store) && Reaches(c, store, actions, s) && Stable(actions)
    ensures Sound(s.store)
  {
    EveryRunSafe(c, store, actions, s);
  }

  /** Invalidation fence: after every run, a cached answer that an invalidation matches was fetched
      by a live call begun after that invalidation; so was every answer given, as of its settling. */
  lemma InvalidationFence(c: Config, store: Store, actions: seq<Action>, s: State, i: nat)
    requires Sound(store) && Reaches(c, store, actions, s) && Stable(actions)
    requires i < |s.log|
    ensures forall k :: k in s.store.cache && Matches(s.log[i].selectors, s.store.cache[k]) ==>
      i < s.store.cache[k].fetched.start
    ensures forall r ::
      && r in s.readers && s.readers[r].Answered? && i < s.readers[r].at
      && Matches(s.log[i].selectors, s.readers[r].served.row)
      ==> i < s.readers[r].served.row.fetched.start
    ensures forall l :: l in s.store.epochs && DropsEpoch(s.log[i], l) ==> i < s.store.epochs[l].loadedAt
  {
    EveryRunSafe(c, store, actions, s);
    forall k | k in s.store.cache && Matches(s.log[i].selectors, s.store.cache[k])
      ensures i < s.store.cache[k].fetched.start {
      assert RowOk(s.log, |s.log|, s.store.cache[k]);
    }
    forall r | r in s.readers && s.readers[r].Answered? && i < s.readers[r].at
      && Matches(s.log[i].selectors, s.readers[r].served.row)
      ensures i < s.readers[r].served.row.fetched.start
    {
      assert ReaderOk(s.log, s.identityJobs, s.queryJobs, s.readers[r]);
    }
    forall l | l in s.store.epochs && DropsEpoch(s.log[i], l) ensures i < s.store.epochs[l].loadedAt {
      assert EpochOk(s.log, l, s.store.epochs[l]);
    }
  }

  lemma Overtaken(log: seq<Logged>, versions: map<string, nat>, site: string, version: nat, captured: nat, i: nat)
    requires Quiet(log, versions, site, version, captured) && captured <= i < |log| && log[i].selectors.site == site
    ensures VersionIn(versions, site) != version
  {
  }

  /** A query flight whose site was invalidated after it captured the version fails, and neither
      writes the cache nor serves a fallback. */
  lemma OvertakenQueryFails(c: Config, s: State, id: nat, i: nat, answer: Result<LiveRead, Failure>, now: int)
    requires id in s.queryJobs && s.queryJobs[id].phase.Calling? && QueryOk(s.log, s.versions, s.queryJobs[id])
    requires s.queryJobs[id].captured <= i < |s.log| && s.log[i].selectors.site == s.queryJobs[id].work.identity.site
    ensures exists failure :: LiveAnswered(c, s, id, answer, now) == SettleQuery(s, id, Err(failure))
  {
    var job := s.queryJobs[id];
    Overtaken(s.log, s.versions, job.work.identity.site, job.version, job.captured, i);
    if answer.Err? {
      assert LiveAnswered(c, s, id, answer, now) == SettleQuery(s, id, Err(Invalidated));
    } else {
      var ttl := LiveTtl(c, s.versions, job, answer.value);
      assert LiveAnswered(c, s, id, answer, now) == SettleQuery(s, id, Err(ttl.error));
    }
  }

  /** An identity flight whose site was invalidated after it captured the version stores no epoch. */
  lemma OvertakenIdentityFails(c: Config, s: State, id: nat, i: nat, answer: Result<Epoch, Failure>, now: int)
    requires id in s.identityJobs && s.identityJobs[id].phase.Calling?
      && IdentityOk(s.log, s.versions, s.identityJobs[id])
    requires s.identityJobs[id].captured <= i < |s.log| && s.log[i].selectors.site == s.identityJobs[id].work.site
    ensures exists failure :: IdentityAnswered(c, s, id, answer, now) == SettleIdentity(s, id, Err(failure))
  {
    var job := s.identityJobs[id];
    Overtaken(s.log, s.versions, job.work.site, job.version, job.captured, i);
    var loaded := LoadedEpoch(s.versions, job, answer);
    assert IdentityAnswered(c, s, id, answer, now) == SettleIdentity(s, id, Err(loaded.error));
  }

  /** Identity isolation: after every run, a cached answer belongs to the login that the live credential
      reported and sits under the key of its own scope; an answered read got an answer of its own
      login, epoch, revisions and signature, fetched with a credential of its own login. */
  lemma IdentityIsolation(c: Config, store: Store, actions: seq<Action>, s: State)
    requires Sound(store) && Reaches(c, store, actions, s) && Stable(actions)
    ensures forall k :: k in s.store.cache ==>
              k == ScopeKey(s.store.cache[k].scope) && s.store.cache[k].fetched.login == s.store.cache[k].scope.login
    ensures forall r :: r in s.readers && s.readers[r].Answered? ==>
              var answered := s.readers[r];
              && LoginOf(answered.identity) == answered.ask.login
              && answered.served.row.scope == ScopeOf(answered.identity, answered.ask.signature)
              && answered.served.row.fetched.login == answered.served.row.scope.login
  {
    EveryRunSafe(c, store, actions, s);
    forall k | k in s.store.cache
      ensures k == ScopeKey(s.store.cache[k].scope) && s.store.cache[k].fetched.login == s.store.cache[k].scope.login
    {
      assert RowOk(s.log, |s.log|, s.store.cache[k]);
      assert KeyedByScope(s.store.cache);
    }
    forall r | r in s.readers && s.readers[r].Answered?
      ensures var answered := s.readers[r];
              && LoginOf(answered.identity) == answered.ask.login
              && answered.served.row.scope == ScopeOf(answered.identity, answered.ask.signature)
              && answered.served.row.fetched.login == answered.served.row.scope.login
    {
      assert ReaderOk(s.log, s.identityJobs, s.queryJobs, s.readers[r]);
    }
  }

  /** A row could be served at `now`: fresh, or as a fallback under the most generous request. */
  predicate Servable(c: Config, row: Row, now: int) {
    Fresh(row.validUntil, now)
      || CanServeStale(Unavailable, Some(row), StaleIfUnavailable(None), now, c.maxStale).Serve?
  }

  /** Pruning at `now` removes only rows no read at `now` or later could serve, except one whose
      validity ended exactly `maxStale` before, which could be served at `now` itself. */
  lemma PruningIsSafe(c: Config, s: State, site: string, now: int, k: string, later: int)
    requires ValidConfig(c) && k in s.store.cache && k !in MaybePrune(c, s, site, now).store.cache && now <= later
    ensures Servable(c, s.store.cache[k], later) <==>
      c.maxStale > 0 && later == now && s.store.cache[k].validUntil == now - c.maxStale
  {
  }
}
