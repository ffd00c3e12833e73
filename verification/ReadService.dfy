/** The coordinated read service: its state, and each piece of its code between two awaits as one step. */
module ReadService {
  import opened Text
  import opened Scopes
  import opened ReadModel
  import opened Gate

  const MAX_IDENTITY_TTL := 300000
  const MAX_QUERY_TTL := 3600000
  const MAX_STALE := 300000
  const MAX_CONCURRENCY := 64
  const MAX_QUEUE := 4096
  const MAX_OBJECT_REFS := 500
  const CACHE_PRUNE_INTERVAL := 60000
  const MAX_EPOCH := 512
  const MAX_SAFE_INTEGER := 9007199254740991

  datatype Config = Config(identityTtl: int, queryTtl: int, maxQueryTtl: int, maxStale: int, limits: Limits)

  /** What the constructor accepts. */
  predicate ValidConfig(c: Config) {
    && 0 < c.identityTtl <= MAX_IDENTITY_TTL && 0 < c.queryTtl <= c.maxQueryTtl <= MAX_QUERY_TTL
    && 0 <= c.maxStale <= MAX_STALE && 0 < c.limits.concurrency <= MAX_CONCURRENCY && c.limits.queue <= MAX_QUEUE
  }

  datatype Fallback = NoFallback | StaleIfUnavailable(maxStale: Option<int>)

  datatype Request = Request(site: string, principal: string, signature: string, ttl: Option<int>, fallback: Fallback)

  /** A permission epoch as the loader returns it. */
  datatype Epoch = Epoch(site: string, principal: string, epoch: string, components: map<string, string>)

  /** A live read with the site and principal of the credential that made it. */
  datatype LiveRead = LiveRead(site: string, principal: string, value: string, refs: seq<string>)

  datatype Route = FromCache | FromFrappe
  datatype CacheState = Hit | Miss | Stale
  datatype Status = Current | Refreshed | TemporarilyStale
  datatype Served = Served(row: Row, servedAt: int, route: Route, cacheState: CacheState, status: Status)

  /** `log` counts at which a call began and at which a job settled are kept for the proofs. */
  datatype Phase<P, R> = Waiting | Calling(since: nat, prior: P) | Settled(result: Result<R, Failure>, at: nat)

  /** One flight: what it is for, the site version it captured, and the invalidations made until then. */
  datatype Job<W, P, R> = Job(work: W, version: nat, captured: nat, phase: Phase<P, R>)

  datatype Fetch = Fetch(identity: Identity, signature: string, ttl: Option<int>, fallback: Fallback,
                         stale: Option<Row>)

  type IdentityJob = Job<Login, Option<EpochRow>, Identity>
  type QueryJob = Job<Fetch, Option<Row>, Served>

  /** A read after normalisation. */
  datatype Ask = Ask(login: Login, signature: string, ttl: Option<int>, fallback: Fallback)

  datatype Source = Known(identity: Identity) | Flight(job: nat)

  /** Where a call of `read` stands. */
  datatype Reader =
    | Rejected(failure: Failure)
    | Resolving(ask: Ask, source: Source)
    | Fetching(ask: Ask, identity: Identity, job: nat)
    | Answered(ask: Ask, identity: Identity, served: Served, at: nat)

  /** An invalidation that was carried out. */
  datatype Logged = Logged(selectors: Selectors, permissionChanged: bool)

  /** The service, its store, the suspended jobs and readers, and the invalidations so far. */
  datatype State = State(
    store: Store, gate: Gate<nat>, identityFlights: map<Login, nat>, queryFlights: map<string, nat>,
    versions: map<string, nat>, prunedAt: map<string, int>, closed: bool,
    nextJob: nat, identityJobs: map<nat, IdentityJob>, queryJobs: map<nat, QueryJob>, readers: map<nat, Reader>,
    log: seq<Logged>)

  /** A new service over a store. */
  function Initial(store: Store): State {
    State(store, Empty(), map[], map[], map[], map[], false, 0, map[], map[], map[], [])
  }

  /** The readings of the clock in the first part of `read`: for pruning, for the stored epoch, and
      by a job that begins at once. */
  datatype Times = Times(prune: int, epoch: int, start: int)

  // ------------------------------------------------------------------- small parts

  function VersionIn(versions: map<string, nat>, site: string): nat {
    if site in versions then versions[site] else 0
  }

  function Bump(versions: map<string, nat>, site: string): map<string, nat> {
    versions[site := VersionIn(versions, site) + 1]
  }

  predicate Fresh(validUntil: int, now: int) {
    validUntil > now
  }

  /** `resolved`. */
  function Resolved(row: Row, now: int, route: Route, cacheState: CacheState, fallback: bool): Served {
    Served(row, now, route, cacheState, if fallback then TemporarilyStale else if route == FromCache then Current
      else Refreshed)
  }

  datatype Verdict = Serve | Refuse | Throw(failure: Failure)

  /** `canServeStale`. */
  function CanServeStale(failure: Failure, cached: Option<Row>, fallback: Fallback, now: int, maxStale: int): Verdict {
    if failure != Unavailable || cached.None? || fallback.NoFallback? || maxStale == 0 then Refuse
    else if cached.value.validUntil >= now then Refuse
    else if fallback.maxStale.None? then (if now - cached.value.validUntil <= maxStale then Serve else Refuse)
    else if fallback.maxStale.value < 0 || fallback.maxStale.value > MAX_SAFE_INTEGER
    then Throw(Other("Frappe fallback maxStaleMs must be a non-negative safe integer."))
    else
      var requested := if fallback.maxStale.value < maxStale then fallback.maxStale.value else maxStale;
      if now - cached.value.validUntil <= requested then Serve else Refuse
  }

  /** `#cacheIdentity`: revisions are looked up under the site as given. */
  function CacheIdentity(revisions: map<string, Revision>, site: string, principal: string,
                         epoch: string): Result<Identity, Failure> {
    var s := NormalizeSite(site);
    var p := NormalizePrincipal(principal);
    if s.Err? then Err(s.error) else if p.Err? then Err(p.error)
    else Ok(Identity(s.value, p.value, epoch,
      if site in revisions then revisions[site].schemaRevision else "live",
      if site in revisions then revisions[site].dataRevision else "live"))
  }

  /** The refusal when a credential's site and principal are not the expected ones. */
  function Mismatch(site: string, principal: string, login: Login): Option<Failure> {
    var s := NormalizeSite(site);
    if s.Err? then Some(s.error)
    else if s.value != login.site then Some(IdentityMismatch)
    else
      var p := NormalizePrincipal(principal);
      if p.Err? then Some(p.error) else if p.value != login.principal then Some(IdentityMismatch) else None
  }

  /** `validatePermissionEpoch`. */
  function EpochRefusal(epoch: Epoch, login: Login): Option<Failure> {
    if Mismatch(epoch.site, epoch.principal, login).Some? then Mismatch(epoch.site, epoch.principal, login)
    else if Trim(epoch.epoch) == "" || |epoch.epoch| > MAX_EPOCH then Some(AuthenticationFailed)
    else if exists k :: k in epoch.components && (Trim(epoch.components[k]) == "" || |epoch.components[k]| > MAX_EPOCH)
    then Some(AuthenticationFailed)
    else None
  }

  function LoginOf(identity: Identity): Login {
    Login(identity.site, identity.principal)
  }

  /** A read's normalised arguments, or what `read` throws. */
  function AskOf(request: Request): Result<Ask, Failure> {
    var site := NormalizeSite(request.site);
    var principal := NormalizePrincipal(request.principal);
    var signature := SignatureText(request.signature);
    if site.Err? then Err(site.error)
    else if principal.Err? then Err(principal.error)
    else if |signature| > MAX_SIGNATURE then Err(Other("Frappe read querySignature is too long."))
    else if signature == "" then Err(Other("Frappe read querySignature is required."))
    else Ok(Ask(Login(site.value, principal.value), signature, request.ttl, request.fallback))
  }

  // --------------------------------------------------------------- a job's own steps

  function SettleIdentity(s: State, id: nat, result: Result<Identity, Failure>): State
    requires id in s.identityJobs
  {
    s.(identityJobs := s.identityJobs[id := s.identityJobs[id].(phase := Settled(result, |s.log|))])
  }

  function SettleQuery(s: State, id: nat, result: Result<Served, Failure>): State
    requires id in s.queryJobs
  {
    s.(queryJobs := s.queryJobs[id := s.queryJobs[id].(phase := Settled(result, |s.log|))])
  }

  function Fail(s: State, id: nat, failure: Failure): State {
    if id in s.identityJobs then SettleIdentity(s, id, Err(failure))
    else if id in s.queryJobs then SettleQuery(s, id, Err(failure))
    else s
  }

  /** The beginning of an identity job, up to calling the loader. */
  function StartIdentity(s: State, id: nat, now: int): State
    requires id in s.identityJobs
  {
    var job := s.identityJobs[id];
    s.(identityJobs := s.identityJobs[id := job.(phase := IdentityBegins(s.store, |s.log|, job.work, now))])
  }

  function IdentityBegins(store: Store, at: nat, login: Login, now: int): (phase: Phase<Option<EpochRow>, Identity>)
    ensures !phase.Waiting?
  {
    var current := EpochOf(store.epochs, login.site, login.principal);
    if current.Some? && Fresh(current.value.validUntil, now)
    then Settled(CacheIdentity(store.revisions, current.value.login.site, current.value.login.principal,
      current.value.epoch), at)
    else Calling(at, current)
  }

  /** The beginning of a query job, up to calling the live site. */
  function StartQuery(s: State, id: nat, now: int): State
    requires id in s.queryJobs
  {
    var job := s.queryJobs[id];
    s.(queryJobs := s.queryJobs[id := job.(phase := QueryBegins(s.store, |s.log|, job.work, now))])
  }

  function QueryBegins(store: Store, at: nat, fetch: Fetch, now: int): (phase: Phase<Option<Row>, Served>)
    ensures !phase.Waiting?
  {
    var current := Lookup(store.cache, fetch.identity, fetch.signature);
    if current.Some? && Fresh(current.value.validUntil, now)
    then Settled(Ok(Resolved(current.value, now, FromCache, Hit, false)), at)
    else Calling(at, if current.Some? then current else fetch.stale)
  }

  function StartJob(s: State, id: nat, now: int): State {
    if id in s.identityJobs then StartIdentity(s, id, now) else if id in s.queryJobs then StartQuery(s, id, now) else s
  }

  /** `gate.run` of a job. */
  function SubmitJob(c: Config, s: State, id: nat, now: int): State {
    var (gate, admission) := Admit(c.limits, s.gate, id);
    var s' := s.(gate := gate);
    match admission
    case Started => StartJob(s', id, now)
    case Queued => s'
    case Overloaded => Fail(s', id, Failure.Overloaded)
    case Refused => Fail(s', id, ServiceClosed)
  }

  /** The rest of an identity job once the loader has answered. */
  function IdentityAnswered(c: Config, s: State, id: nat, answer: Result<Epoch, Failure>, now: int): State
    requires id in s.identityJobs && s.identityJobs[id].phase.Calling?
  {
    var loaded := LoadedEpoch(s.versions, s.identityJobs[id], answer);
    if loaded.Err? then SettleIdentity(s, id, Err(loaded.error)) else EpochAccepted(c, s, id, loaded.value, now)
  }

  /** The loader's answer, or why it is not accepted. */
  function LoadedEpoch(versions: map<string, nat>, job: IdentityJob,
                       answer: Result<Epoch, Failure>): Result<Epoch, Failure> {
    if answer.Err? then answer
    else if EpochRefusal(answer.value, job.work).Some? then Err(EpochRefusal(answer.value, job.work).value)
    else if VersionIn(versions, job.work.site) != job.version then Err(Invalidated)
    else answer
  }

  function EpochAccepted(c: Config, s: State, id: nat, epoch: Epoch, now: int): State
    requires id in s.identityJobs && s.identityJobs[id].phase.Calling?
  {
    var s' := WithEpoch(c, s, s.identityJobs[id], epoch, now);
    SettleIdentity(s', id, CacheIdentity(s'.store.revisions, epoch.site, epoch.principal, epoch.epoch))
  }

  predicate EpochChanged(job: IdentityJob, epoch: Epoch)
    requires job.phase.Calling?
  {
    job.phase.prior.Some? && job.phase.prior.value.epoch != epoch.epoch
  }

  /** A loaded epoch is stored; when it differs from the one before, the login's cached answers go. */
  function WithEpoch(c: Config, s: State, job: IdentityJob, epoch: Epoch, now: int): (s': State)
    requires job.phase.Calling?
    ensures s'.identityJobs == s.identityJobs
  {
    StoreEpoch(if EpochChanged(job, epoch) then DropLogin(s, job.work) else s, LoadedRow(c, job, epoch, now))
  }

  function LoadedRow(c: Config, job: IdentityJob, epoch: Epoch, now: int): EpochRow
    requires job.phase.Calling?
  {
    EpochRow(Login(SiteText(epoch.site), PrincipalText(epoch.principal)), epoch.epoch, epoch.components,
             now, now + c.identityTtl, job.phase.since)
  }

  function StoreEpoch(s: State, row: EpochRow): State {
    s.(store := s.store.(epochs := s.store.epochs[row.login := row]))
  }

  function StoreRow(s: State, row: Row): State {
    s.(store := s.store.(cache := Upserted(s.store.cache, ScopeKey(row.scope), row)))
  }

  function LoginSelectors(login: Login): Selectors {
    Selectors(SiteText(login.site), Some(PrincipalText(login.principal)), None, {}, {})
  }

  /** The login's permissions changed: its cached answers go and its site's version moves on. */
  function DropLogin(s: State, login: Login): State {
    s.(store := s.store.(cache := Cleared(s.store.cache, LoginSelectors(login))),
       versions := Bump(s.versions, login.site),
       log := s.log + [Logged(LoginSelectors(login), false)])
  }

  /** The time an answer stays valid, or what the check of the request's own limit throws. */
  function TtlOf(c: Config, ttl: Option<int>): Result<int, Failure> {
    if ttl.None? then Ok(if c.queryTtl < c.maxQueryTtl then c.queryTtl else c.maxQueryTtl)
    else if ttl.value <= 0 || ttl.value > MAX_SAFE_INTEGER then
      Err(Other("Frappe read ttlMs must be a positive safe integer."))
    else Ok(if ttl.value < c.maxQueryTtl then ttl.value else c.maxQueryTtl)
  }

  /** The rest of a query job once the live site has answered or failed. */
  function LiveAnswered(c: Config, s: State, id: nat, answer: Result<LiveRead, Failure>, now: int): State
    requires id in s.queryJobs && s.queryJobs[id].phase.Calling?
  {
    if answer.Err? then SettleQuery(s, id, LiveFailed(c, s.versions, s.queryJobs[id], answer.error, now))
    else
      var ttl := LiveTtl(c, s.versions, s.queryJobs[id], answer.value);
      if ttl.Err? then SettleQuery(s, id, Err(ttl.error)) else LiveAccepted(s, id, answer.value, now, ttl.value)
  }

  /** After a failed live call: the fallback, or the failure. */
  function LiveFailed(c: Config, versions: map<string, nat>, job: QueryJob, failure: Failure,
                      now: int): Result<Served, Failure>
    requires job.phase.Calling?
  {
    if VersionIn(versions, job.work.identity.site) != job.version then Err(Invalidated)
    else
      match CanServeStale(failure, job.phase.prior, job.work.fallback, now, c.maxStale)
      case Serve => Ok(Resolved(job.phase.prior.value, now, FromCache, Stale, true))
      case Refuse => Err(failure)
      case Throw(thrown) => Err(thrown)
  }

  /** For how long a live answer is stored, or why it is not. */
  function LiveTtl(c: Config, versions: map<string, nat>, job: QueryJob, live: LiveRead): Result<int, Failure> {
    var mismatch := Mismatch(live.site, live.principal, LoginOf(job.work.identity));
    if mismatch.Some? then Err(mismatch.value)
    else if VersionIn(versions, job.work.identity.site) != job.version then Err(Invalidated)
    else if TtlOf(c, job.work.ttl).Err? then TtlOf(c, job.work.ttl)
    else if |live.refs| > MAX_OBJECT_REFS then Err(Other("Frappe live read returned too many object references."))
    else TtlOf(c, job.work.ttl)
  }

  /** A live answer is stored, read back and served. */
  function LiveAccepted(s: State, id: nat, live: LiveRead, now: int, ttl: int): State
    requires id in s.queryJobs && s.queryJobs[id].phase.Calling?
  {
    var job := s.queryJobs[id];
    var row := LiveRow(job, live, now, ttl);
    var s1 := StoreRow(s, row);
    var persisted := Lookup(s1.store.cache, job.work.identity, job.work.signature);
    SettleQuery(s1, id, Ok(Resolved(if persisted.Some? then persisted.value else row, now, FromFrappe,
                                    if job.phase.prior.Some? then Stale else Miss, false)))
  }

  /** The row stored for a live answer. */
  function LiveRow(job: QueryJob, live: LiveRead, now: int, ttl: int): Row
    requires job.phase.Calling?
  {
    Row(ScopeOf(job.work.identity, job.work.signature), live.value, now, now + ttl, TrimmedRefs(live.refs),
        Fetched(job.phase.since, Login(SiteText(live.site), PrincipalText(live.principal))))
  }

  // ------------------------------------------------------------------------ reads

  /** `#maybePrune`. */
  function MaybePrune(c: Config, s: State, site: string, now: int): State {
    if site in s.prunedAt && now >= s.prunedAt[site] && now - s.prunedAt[site] < CACHE_PRUNE_INTERVAL then s
    else s.(store := s.store.(cache := Pruned(s.store.cache, now - c.maxStale, Some(SiteText(site)))),
            prunedAt := s.prunedAt[site := now])
  }

  /** The first part of `#resolveIdentity`. */
  function Resolve(c: Config, s: State, reader: nat, ask: Ask, now: int, start: int): State {
    var stored := EpochOf(s.store.epochs, ask.login.site, ask.login.principal);
    if stored.Some? && Fresh(stored.value.validUntil, now) then
      var identity := CacheIdentity(s.store.revisions, stored.value.login.site, stored.value.login.principal,
        stored.value.epoch);
      s.(readers := s.readers[reader := if identity.Ok? then Resolving(ask, Known(identity.value))
        else Rejected(identity.error)])
    else if ask.login in s.identityFlights then
      s.(readers := s.readers[reader := Resolving(ask, Flight(s.identityFlights[ask.login]))])
    else
      SubmitJob(c, WithIdentityFlight(s, reader, ask), s.nextJob, start)
  }

  /** A new identity flight, awaited by the reader. */
  function WithIdentityFlight(s: State, reader: nat, ask: Ask): State {
    var job := Job(ask.login, VersionIn(s.versions, ask.login.site), |s.log|, Waiting);
    s.(identityJobs := s.identityJobs[s.nextJob := job],
       identityFlights := s.identityFlights[ask.login := s.nextJob],
       readers := s.readers[reader := Resolving(ask, Flight(s.nextJob))],
       nextJob := s.nextJob + 1)
  }

  /** `read`, up to awaiting the identity. */
  function Read(c: Config, s: State, reader: nat, request: Request, at: Times): State {
    if s.closed then s.(readers := s.readers[reader := Rejected(ServiceClosed)])
    else if AskOf(request).Err? then s.(readers := s.readers[reader := Rejected(AskOf(request).error)])
    else
      var ask := AskOf(request).value;
      Resolve(c, MaybePrune(c, s, ask.login.site, at.prune), reader, ask, at.epoch, at.start)
  }

  /** What the awaited identity has turned out to be. */
  function IdentityFor(s: State, source: Source): Option<Result<Identity, Failure>> {
    match source
    case Known(identity) => Some(Ok(identity))
    case Flight(id) =>
      if id in s.identityJobs && s.identityJobs[id].phase.Settled? then Some(s.identityJobs[id].phase.result) else None
  }

  /** `read` once the identity is known: a hit, a flight joined, or a new flight. */
  function Query(c: Config, s: State, reader: nat, ask: Ask, identity: Identity, now: int, start: int): State {
    var cached := Lookup(s.store.cache, identity, ask.signature);
    var key := CacheKey(identity, ask.signature);
    if cached.Some? && Fresh(cached.value.validUntil, now) then
      s.(readers := s.readers[reader :=
        Answered(ask, identity, Resolved(cached.value, now, FromCache, Hit, false), |s.log|)])
    else if key in s.queryFlights then
      s.(readers := s.readers[reader := Fetching(ask, identity, s.queryFlights[key])])
    else
      SubmitJob(c, WithQueryFlight(s, reader, ask, identity, cached, key), s.nextJob, start)
  }

  /** A new query flight, awaited by the reader; it captures the site's version. */
  function WithQueryFlight(s: State, reader: nat, ask: Ask, identity: Identity, cached: Option<Row>, key: string): State
  {
    var work := Fetch(identity, ask.signature, ask.ttl, ask.fallback, cached);
    s.(queryJobs := s.queryJobs[s.nextJob := Job(work, VersionIn(s.versions, ask.login.site), |s.log|, Waiting)],
       queryFlights := s.queryFlights[key := s.nextJob],
       readers := s.readers[reader := Fetching(ask, identity, s.nextJob)],
       nextJob := s.nextJob + 1)
  }

  /** `read` after its first await. */
  function Continue(c: Config, s: State, reader: nat, now: int, start: int): State
    requires reader in s.readers && s.readers[reader].Resolving? && IdentityFor(s, s.readers[reader].source).Some?
  {
    var r := s.readers[reader];
    var identity := IdentityFor(s, r.source).value;
    if identity.Err? then s.(readers := s.readers[reader := Rejected(identity.error)])
    else Query(c, s, reader, r.ask, identity.value, now, start)
  }

  /** The awaited flight's outcome reaches the reader. */
  function Deliver(s: State, reader: nat): State
    requires reader in s.readers && s.readers[reader].Fetching?
    requires s.readers[reader].job in s.queryJobs && s.queryJobs[s.readers[reader].job].phase.Settled?
  {
    var r := s.readers[reader];
    var phase := s.queryJobs[r.job].phase;
    s.(readers := s.readers[reader :=
      if phase.result.Ok? then Answered(r.ask, r.identity, phase.result.value, phase.at)
        else Rejected(phase.result.error)])
  }

  // --------------------------------------------------------------- after a job settled

  predicate IsSettled(s: State, id: nat) {
    (id in s.identityJobs && s.identityJobs[id].phase.Settled?) || (id in s.queryJobs && s.queryJobs[id].phase.Settled?)
  }

  /** The slot of a settled job is freed and the next waiting job begins. */
  function Release(c: Config, s: State, id: nat, now: int): State {
    var (gate, next) := Drain(c.limits, Free(s.gate, id));
    var s' := s.(gate := gate);
    if next.Some? then StartJob(s', next.value, now) else s'
  }

  /** `finally`: the flight is no longer offered to readers. */
  function Forget(s: State, id: nat): State {
    s.(identityFlights := map l | l in s.identityFlights && s.identityFlights[l] != id :: s.identityFlights[l],
       queryFlights := map k | k in s.queryFlights && s.queryFlights[k] != id :: s.queryFlights[k])
  }

  // ------------------------------------------------------- invalidation, events, closing

  datatype InvalidationReceipt = InvalidationReceipt(cacheEntries: nat, permissionIdentities: nat)

  /** The invalidation with site and principal normalised, or what `invalidate` throws. */
  function NormalizedInvalidation(input: Invalidation): Result<Invalidation, Failure> {
    var site := NormalizeSite(input.site);
    var principal := if input.principal == "" then Ok("") else NormalizePrincipal(input.principal);
    if site.Err? then Err(site.error) else if principal.Err? then Err(principal.error)
    else Ok(input.(site := site.value, principal := principal.value))
  }

  /** `invalidate`. */
  function Invalidate(s: State, input: Invalidation, permissionChanged: bool): State {
    if s.closed || NormalizedInvalidation(input).Err? then s
    else
      var normalized := NormalizedInvalidation(input).value;
      if SelectorsOf(normalized).Err? then s.(versions := Bump(s.versions, normalized.site))
      else InvalidatedBy(s, normalized, permissionChanged)
  }

  /** An invalidation that is carried out: the site's version moves on, what it names goes. */
  function InvalidatedBy(s: State, input: Invalidation, permissionChanged: bool): State
    requires SelectorsOf(input).Ok?
  {
    var sel := SelectorsOf(input).value;
    s.(versions := Bump(s.versions, input.site),
       store := s.store.(cache := Cleared(s.store.cache, sel),
                         epochs := if permissionChanged then EpochsWithout(s.store.epochs, input.site, input.principal)
                           else s.store.epochs),
       log := s.log + [Logged(sel, permissionChanged)])
  }

  /** `invalidate`'s answer. */
  function InvalidateAnswer(s: State, input: Invalidation,
                            permissionChanged: bool): Result<InvalidationReceipt, Failure> {
    if s.closed then Err(ServiceClosed)
    else if NormalizedInvalidation(input).Err? then Err(NormalizedInvalidation(input).error)
    else
      var normalized := NormalizedInvalidation(input).value;
      var sel := SelectorsOf(normalized);
      if sel.Err? then Err(sel.error)
      else Ok(InvalidationReceipt(
        MatchCount(s.store.cache, sel.value),
        if permissionChanged then
          |s.store.epochs.Keys - EpochsWithout(s.store.epochs, normalized.site, normalized.principal).Keys| else 0))
  }

  /** `applyEvent`. */
  function ApplyEvent(s: State, e: Event): State {
    if s.closed || NormalizeSite(e.site).Err? then s
    else
      s.(versions := Bump(s.versions, NormalizeSite(e.site).value),
         store := AfterEvent(s.store, e),
         log := if TakesEffect(s.store, e) then
           s.log + [Logged(SelectorsOf(EventInvalidation(e)).value, e.operation == PermissionChanged)]
                else s.log)
  }

  /** `applyEvent`'s answer. */
  function ApplyEventAnswer(s: State, e: Event): Result<EventReceipt, Failure> {
    if s.closed then Err(ServiceClosed)
    else if NormalizeSite(e.site).Err? then Err(NormalizeSite(e.site).error)
    else EventAnswer(s.store, e)
  }

  function FailAll(s: State, ids: seq<nat>): State
    decreases |ids|
  {
    if ids == [] then s else Fail(FailAll(s, ids[..|ids| - 1]), ids[|ids| - 1], ServiceClosed)
  }

  /** `close`: waiting jobs are rejected. */
  function Close(s: State): State {
    if s.closed then s else FailAll(s.(closed := true, gate := Shut(s.gate)), s.gate.queue)
  }

  // ------------------------------------------------------------------------- runs

  datatype Action =
    | DoRead(reader: nat, request: Request, at: Times)
    | DoIdentityAnswer(job: nat, epoch: Result<Epoch, Failure>, now: int)
    | DoContinue(reader: nat, now: int, start: int)
    | DoLiveAnswer(job: nat, live: Result<LiveRead, Failure>, now: int)
    | DoDeliver(reader: nat)
    | DoRelease(job: nat, now: int)
    | DoForget(job: nat)
    | DoInvalidate(input: Invalidation, permissionChanged: bool)
    | DoEvent(event: Event)
    | DoClose

  /** The steps that can come next. Answers may be any, and so may the clock. */
  predicate Enabled(s: State, a: Action) {
    match a
    case DoRead(reader, _, _) => reader !in s.readers
    case DoIdentityAnswer(id, _, _) => id in s.identityJobs && s.identityJobs[id].phase.Calling?
    case DoContinue(reader, _, _) => reader in s.readers && s.readers[reader].Resolving?
      && IdentityFor(s, s.readers[reader].source).Some?
    case DoLiveAnswer(id, _, _) => id in s.queryJobs && s.queryJobs[id].phase.Calling?
    case DoDeliver(reader) =>
      reader in s.readers && s.readers[reader].Fetching? && s.readers[reader].job in s.queryJobs
      && s.queryJobs[s.readers[reader].job].phase.Settled?
    case DoRelease(id, _) => id in s.gate.running && IsSettled(s, id)
    case DoForget(id) => IsSettled(s, id)
    case _ => true
  }

  function Next(c: Config, s: State, a: Action): State
    requires Enabled(s, a)
  {
    match a
    case DoRead(reader, request, at) => Read(c, s, reader, request, at)
    case DoIdentityAnswer(id, epoch, now) => IdentityAnswered(c, s, id, epoch, now)
    case DoContinue(reader, now, start) => Continue(c, s, reader, now, start)
    case DoLiveAnswer(id, live, now) => LiveAnswered(c, s, id, live, now)
    case DoDeliver(reader) => Deliver(s, reader)
    case DoRelease(id, now) => Release(c, s, id, now)
    case DoForget(id) => Forget(s, id)
    case DoInvalidate(input, permissionChanged) => Invalidate(s, input, permissionChanged)
    case DoEvent(e) => ApplyEvent(s, e)
    case DoClose => Close(s)
  }

  /** Each state follows from the one before by the step. */
  ghost predicate Chain<S(!new), A(!new)>(step: (S, A, S) -> bool, actions: seq<A>, states: seq<S>) {
    && |states| == |actions| + 1
    && forall i :: 0 <= i < |actions| ==> step(states[i], actions[i], states[i + 1])
  }

  lemma ChainNext<S(!new), A(!new)>(step: (S, A, S) -> bool, actions: seq<A>, states: seq<S>, a: A, s: S)
    requires Chain(step, actions, states) && step(states[|actions|], a, s)
    ensures Chain(step, actions + [a], states + [s])
  {
    var longer, passed := actions + [a], states + [s];
    forall i | 0 <= i < |longer| ensures step(passed[i], longer[i], passed[i + 1]) {
      if i < |actions| { assert step(states[i], actions[i], states[i + 1]); }
    }
  }

  ghost function StepOf(c: Config): (State, Action, State) -> bool {
    (s: State, a: Action, s': State) => Enabled(s, a) && s' == Next(c, s, a)
  }

  /** A run of a service opened over a durable store, with the states it passes. */
  ghost predicate IsRun(c: Config, store: Store, actions: seq<Action>, states: seq<State>) {
    Chain(StepOf(c), actions, states) && states[0] == Initial(Opened(store))
  }

  /** Such a run leads to `s`. */
  ghost predicate Reaches(c: Config, store: Store, actions: seq<Action>, s: State) {
    exists states :: IsRun(c, store, actions, states) && states[|actions|] == s
  }

  lemma RunStep(c: Config, store: Store, actions: seq<Action>, states: seq<State>, n: nat)
    requires IsRun(c, store, actions, states) && n < |actions|
    ensures Enabled(states[n], actions[n]) && states[n + 1] == Next(c, states[n], actions[n])
  {
    assert StepOf(c)(states[n], actions[n], states[n + 1]);
  }

  lemma ReachesStart(c: Config, store: Store)
    ensures Reaches(c, store, [], Initial(Opened(store)))
  {
    assert IsRun(c, store, [], [Initial(Opened(store))]);
  }

  lemma ReachesNext(c: Config, store: Store, actions: seq<Action>, s: State, a: Action)
    requires Reaches(c, store, actions, s) && Enabled(s, a)
    ensures Reaches(c, store, actions + [a], Next(c, s, a))
  {
    var states :| IsRun(c, store, actions, states) && states[|actions|] == s;
    ChainNext(StepOf(c), actions, states, a, Next(c, s, a));
    assert IsRun(c, store, actions + [a], states + [Next(c, s, a)]);
  }
}
