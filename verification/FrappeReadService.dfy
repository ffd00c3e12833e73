/** The read service as an object: the code between two awaits as methods, each one step of the state machine. */
module FrappeReadService {
  import opened Text
  import opened Scopes
  import opened ReadModel
  import opened Gate
  import opened ReadService
  import opened ReadServiceSafety
  import opened ReadServiceFlights

  lemma NextIsFree(c: Config, s: State)
    requires Flow(c, s)
    ensures s.nextJob !in s.gate.running
  {
    assert !Knows(s.gate, s.nextJob);
  }

  lemma QueuedAreIdle(c: Config, s: State)
    requires Flow(c, s)
    ensures forall id :: id in s.gate.queue ==> id !in s.gate.running
  {
  }

  // --------------------------------------------------- what each step keeps and achieves

  /** Single flight and the gate's limits, the fence and identity isolation. */
  ghost predicate Sane(c: Config, s: State) {
    ValidConfig(c) && Flow(c, s) && Safe(s)
  }

  /** What the reader was answered is for its own login, epoch, revisions and signature, was fetched
      with a credential of that login, and after every invalidation that matches it and was made
      before its flight settled. */
  ghost predicate Fair(s: State, reader: nat) {
    reader in s.readers && s.readers[reader].Answered? ==> FairAnswer(s.log, s.readers[reader])
  }

  ghost predicate FairAnswer(log: seq<Logged>, r: Reader)
    requires r.Answered?
  {
    && LoginOf(r.identity) == r.ask.login && r.served.row.scope == ScopeOf(r.identity, r.ask.signature)
    && r.served.row.fetched.login == r.served.row.scope.login && r.at <= |log|
    && forall i :: 0 <= i < r.at && Matches(log[i].selectors, r.served.row) ==> i < r.served.row.fetched.start
  }

  lemma SaneFair(c: Config, s: State, reader: nat)
    requires Sane(c, s)
    ensures Fair(s, reader)
  {
    if reader in s.readers { assert ReaderOk(s.log, s.identityJobs, s.queryJobs, s.readers[reader]); }
  }

  lemma ReadSane(c: Config, s: State, reader: nat, request: Request, at: Times)
    requires Sane(c, s) && SiteText(SiteText(request.site)) == SiteText(request.site)
    ensures Sane(c, Read(c, s, reader, request, at)) && s.nextJob !in s.gate.running
  {
    ReadFlow(c, s, reader, request, at);
    ReadSafe(c, s, reader, request, at);
    NextIsFree(c, s);
  }

  lemma ContinueSane(c: Config, s: State, reader: nat, now: int, start: int)
    requires Sane(c, s) && reader in s.readers && s.readers[reader].Resolving?
    requires IdentityFor(s, s.readers[reader].source).Some?
    ensures Sane(c, Continue(c, s, reader, now, start)) && s.nextJob !in s.gate.running
    ensures Fair(Continue(c, s, reader, now, start), reader)
  {
    ContinueFlow(c, s, reader, now, start);
    ContinueSafe(c, s, reader, now, start);
    NextIsFree(c, s);
    SaneFair(c, Continue(c, s, reader, now, start), reader);
  }

  lemma DeliverSane(c: Config, s: State, reader: nat)
    requires Sane(c, s) && reader in s.readers && s.readers[reader].Fetching?
    requires s.readers[reader].job in s.queryJobs && s.queryJobs[s.readers[reader].job].phase.Settled?
    ensures Sane(c, Deliver(s, reader)) && Fair(Deliver(s, reader), reader)
  {
    FlowFrame(c, s, Deliver(s, reader));
    DeliverSafe(s, reader);
    SaneFair(c, Deliver(s, reader), reader);
  }

  /** If its site was invalidated meanwhile, the identity flight fails and stores nothing. */
  predicate IdentityFenced(s: State, s': State, id: nat)
    requires id in s.identityJobs
  {
    VersionIn(s.versions, s.identityJobs[id].work.site) != s.identityJobs[id].version ==>
    && s'.store == s.store && id in s'.identityJobs && s'.identityJobs[id].phase.Settled?
    && s'.identityJobs[id].phase.result.Err?
  }

  lemma IdentityReturnedSane(c: Config, s: State, id: nat, answer: Result<Epoch, Failure>, now: int)
    requires Sane(c, s) && id in s.identityJobs && s.identityJobs[id].phase.Calling?
    ensures Sane(c, IdentityAnswered(c, s, id, answer, now))
    ensures IdentityFenced(s, IdentityAnswered(c, s, id, answer, now), id)
  {
    IdentityAnsweredFlow(c, s, id, answer, now);
    IdentityAnsweredSafe(c, s, id, answer, now);
    OutdatedIdentity(c, s, id, answer, now);
  }

  lemma OutdatedIdentity(c: Config, s: State, id: nat, answer: Result<Epoch, Failure>, now: int)
    requires id in s.identityJobs && s.identityJobs[id].phase.Calling?
    ensures IdentityFenced(s, IdentityAnswered(c, s, id, answer, now), id)
  {
  }

  /** If its site was invalidated meanwhile, the query flight fails: nothing is stored and no fallback served. */
  predicate QueryFenced(s: State, s': State, id: nat)
    requires id in s.queryJobs
  {
    VersionIn(s.versions, s.queryJobs[id].work.identity.site) != s.queryJobs[id].version ==>
    && s'.store == s.store && id in s'.queryJobs && s'.queryJobs[id].phase.Settled?
    && s'.queryJobs[id].phase.result.Err?
  }

  lemma LiveReturnedSane(c: Config, s: State, id: nat, answer: Result<LiveRead, Failure>, now: int)
    requires Sane(c, s) && id in s.queryJobs && s.queryJobs[id].phase.Calling?
    ensures Sane(c, LiveAnswered(c, s, id, answer, now))
    ensures QueryFenced(s, LiveAnswered(c, s, id, answer, now), id)
  {
    LiveAnsweredFlow(c, s, id, answer, now);
    LiveAnsweredSafe(c, s, id, answer, now);
    OutdatedQuery(c, s, id, answer, now);
  }

  lemma OutdatedQuery(c: Config, s: State, id: nat, answer: Result<LiveRead, Failure>, now: int)
    requires id in s.queryJobs && s.queryJobs[id].phase.Calling?
    ensures QueryFenced(s, LiveAnswered(c, s, id, answer, now), id)
  {
    var job := s.queryJobs[id];
    if VersionIn(s.versions, job.work.identity.site) != job.version {
      if answer.Err? {
        QueryRefused(s, id, Invalidated);
        assert LiveAnswered(c, s, id, answer, now) == SettleQuery(s, id, Err(Invalidated));
      } else {
        var ttl := LiveTtl(c, s.versions, job, answer.value);
        QueryRefused(s, id, ttl.error);
        assert LiveAnswered(c, s, id, answer, now) == SettleQuery(s, id, Err(ttl.error));
      }
    }
  }

  lemma QueryRefused(s: State, id: nat, failure: Failure)
    requires id in s.queryJobs
    ensures QueryFenced(s, SettleQuery(s, id, Err(failure)), id)
  {
  }

  lemma ReleaseSane(c: Config, s: State, id: nat, now: int)
    requires Sane(c, s) && id in s.gate.running && IsSettled(s, id)
    ensures Sane(c, Release(c, s, id, now)) && forall x :: x in s.gate.queue ==> x !in s.gate.running
  {
    ReleaseFlow(c, s, id, now);
    ReleaseSafe(c, s, id, now);
    QueuedAreIdle(c, s);
  }

  lemma ForgetSane(c: Config, s: State, id: nat)
    requires Sane(c, s) && IsSettled(s, id)
    ensures Sane(c, Forget(s, id))
  {
    ForgetFlow(c, s, id);
    ForgetSafe(s, id);
  }

  /** One more invalidation was made, and no cached answer that it matches is left. */
  ghost predicate InvalidationMade(s: State, s': State) {
    && |s'.log| == |s.log| + 1 && s'.log[..|s.log|] == s.log
    && forall k :: k in s'.store.cache ==> !Matches(s'.log[|s.log|].selectors, s'.store.cache[k])
  }

  lemma InvalidateSane(c: Config, s: State, input: Invalidation, permissionChanged: bool)
    requires Sane(c, s) && SiteText(SiteText(input.site)) == SiteText(input.site)
    ensures Sane(c, Invalidate(s, input, permissionChanged))
    ensures InvalidateAnswer(s, input, permissionChanged).Ok? ==>
      InvalidationMade(s, Invalidate(s, input, permissionChanged))
  {
    InvalidateFrame(s, input, permissionChanged);
    FlowFrame(c, s, Invalidate(s, input, permissionChanged));
    InvalidateSafe(s, input, permissionChanged);
    InvalidateClears(s, input, permissionChanged);
  }

  lemma InvalidateClears(s: State, input: Invalidation, permissionChanged: bool)
    ensures InvalidateAnswer(s, input, permissionChanged).Ok? ==>
      InvalidationMade(s, Invalidate(s, input, permissionChanged))
  {
    if InvalidateAnswer(s, input, permissionChanged).Ok? {
      CarriedOutClears(s, NormalizedInvalidation(input).value, permissionChanged);
    }
  }

  lemma CarriedOutClears(s: State, input: Invalidation, permissionChanged: bool)
    requires SelectorsOf(input).Ok?
    ensures InvalidationMade(s, InvalidatedBy(s, input, permissionChanged))
  {
  }

  lemma ApplyEventSane(c: Config, s: State, e: Event)
    requires Sane(c, s)
    ensures Sane(c, ApplyEvent(s, e))
    ensures ApplyEventAnswer(s, e).Ok? && ApplyEventAnswer(s, e).value.applied ==> InvalidationMade(s, ApplyEvent(s, e))
  {
    ApplyEventFrame(s, e);
    StoreFrame(s, ApplyEvent(s, e));
    FlowFrame(c, s, ApplyEvent(s, e));
    ApplyEventSafe(s, e);
    EventInvalidates(s, e);
  }

  lemma EventInvalidates(s: State, e: Event)
    ensures ApplyEventAnswer(s, e).Ok? && ApplyEventAnswer(s, e).value.applied ==> InvalidationMade(s, ApplyEvent(s, e))
  {
    if TakesEffect(s.store, e) { StoreCleared(s.store, e); }
  }

  lemma StoreCleared(store: Store, e: Event)
    requires TakesEffect(store, e)
    ensures var cache := AfterEvent(store, e).cache;
      forall k :: k in cache ==> !Matches(SelectorsOf(EventInvalidation(e)).value, cache[k])
  {
  }

  lemma CloseSane(c: Config, s: State)
    requires Sane(c, s)
    ensures Sane(c, Close(s)) && NothingWaits(Close(s))
  {
    CloseFlow(c, s);
    CloseSafe(s);
    assert Close(s).closed by { CloseCalls(c, s); }
    ClosedQueue(c, Close(s));
  }

  /** Closed, and no job is left waiting. */
  ghost predicate NothingWaits(s: State) {
    s.closed && Having(s, Waits) == {}
  }

  lemma ClosedQueue(c: Config, s: State)
    requires Flow(c, s) && s.closed
    ensures NothingWaits(s)
  {
  }

  class FrappeReadService {
    const config: Config
    const store: SqliteFrappeReadModel
    const gate: BoundedAsyncGate<nat>
    var identityFlights: map<Login, nat>
    var queryFlights: map<string, nat>
    var siteInvalidationVersions: map<string, nat>
    var lastPrunedAt: map<string, int>
    var closed: bool
    /** The suspended jobs and readers: what their promises will go on with. */
    var nextJob: nat
    var identityJobs: map<nat, IdentityJob>
    var queryJobs: map<nat, QueryJob>
    var readers: map<nat, Reader>
    var log: seq<Logged>

    ghost function View(): State
      reads this, store, gate
    {
      State(store.View(), gate.history, identityFlights, queryFlights, siteInvalidationVersions, lastPrunedAt, closed,
            nextJob, identityJobs, queryJobs, readers, log)
    }

    ghost predicate Wired()
      reads this, gate
    {
      gate.Valid() && gate.Bounds() == config.limits
    }

    /** The object's state is sane. */
    ghost predicate Valid()
      reads this, store, gate
    {
      Wired() && Sane(config, View())
    }

    constructor (config: Config, store: SqliteFrappeReadModel)
      requires ValidConfig(config) && Sound(store.View()) && store.View() == Opened(store.View())
      ensures Valid() && fresh(gate) && this.store == store && this.config == config
      ensures View() == Initial(store.View())
    {
      this.config := config;
      this.store := store;
      this.gate := new BoundedAsyncGate(config.limits.concurrency, config.limits.queue);
      identityFlights, queryFlights, siteInvalidationVersions, lastPrunedAt, closed :=
        map[], map[], map[], map[], false;
      nextJob, identityJobs, queryJobs, readers, log := 0, map[], map[], map[], [];
      new;
      OpenedSafe(store.View());
      InitialFlow(config, store.View());
    }

    // ------------------------------------------------------------------- reads

    method MaybePrune(site: string, now: int)
      requires site != "" && StoreSite(site).Ok?
      modifies this`lastPrunedAt, store`cache
      ensures View() == ReadService.MaybePrune(config, old(View()), site, now)
    {
      if site in lastPrunedAt && now >= lastPrunedAt[site]
        && now - lastPrunedAt[site] < CACHE_PRUNE_INTERVAL { return; }
      Prune(site, now);
      lastPrunedAt := lastPrunedAt[site := now];
    }

    method Prune(site: string, now: int)
      requires site != "" && StoreSite(site).Ok?
      modifies store`cache
      ensures store.cache == Pruned(old(store.cache), now - config.maxStale, Some(SiteText(site)))
    {
      var _ := store.PruneCache(Some(now - config.maxStale), site);
    }

    method BeginIdentity(id: nat, now: int)
      requires id in identityJobs
      modifies this`identityJobs
      ensures View() == StartIdentity(old(View()), id, now)
    {
      var job := identityJobs[id];
      identityJobs := identityJobs[id := job.(phase := IdentityBegins(store.View(), |log|, job.work, now))];
    }

    method BeginQuery(id: nat, now: int)
      requires id in queryJobs
      modifies this`queryJobs
      ensures View() == StartQuery(old(View()), id, now)
    {
      var job := queryJobs[id];
      queryJobs := queryJobs[id := job.(phase := QueryBegins(store.View(), |log|, job.work, now))];
    }

    method Begin(id: nat, now: int)
      modifies this`identityJobs, this`queryJobs
      ensures View() == StartJob(old(View()), id, now)
    {
      if id in identityJobs { BeginIdentity(id, now); } else if id in queryJobs { BeginQuery(id, now); }
    }

    method Reject(id: nat, failure: Failure)
      modifies this`identityJobs, this`queryJobs
      ensures View() == Fail(old(View()), id, failure)
    {
      if id in identityJobs {
        identityJobs := identityJobs[id := identityJobs[id].(phase := Settled(Err(failure), |log|))];
      } else if id in queryJobs {
        queryJobs := queryJobs[id := queryJobs[id].(phase := Settled(Err(failure), |log|))];
      }
    }

    /** `this.#gate.run(...)`. */
    method Submit(id: nat, now: int)
      requires Wired() && id !in gate.history.running
      modifies gate, this`identityJobs, this`queryJobs
      ensures Wired() && View() == SubmitJob(config, old(View()), id, now)
    {
      var admission := gate.Run(id);
      match admission {
        case Started => Begin(id, now);
        case Queued =>
        case Overloaded => Reject(id, Failure.Overloaded);
        case Refused => Reject(id, ServiceClosed);
      }
    }

    /** The first part of `#resolveIdentity`. */
    method ResolveIdentity(reader: nat, ask: Ask, now: int, start: int)
      requires Ready() && StoreSite(ask.login.site).Ok?
      modifies this, gate
      ensures Wired() && View() == Resolve(config, old(View()), reader, ask, now, start)
    {
      var stored := store.GetPermissionEpochState(ask.login.site, ask.login.principal);
      if stored.value.Some? && Fresh(stored.value.value.validUntil, now) {
        var epoch := stored.value.value;
        var identity := CacheIdentity(store.revisions, epoch.login.site, epoch.login.principal, epoch.epoch);
        readers := readers[reader := if identity.Ok? then Resolving(ask, Known(identity.value))
          else Rejected(identity.error)];
        return;
      }
      if ask.login in identityFlights {
        readers := readers[reader := Resolving(ask, Flight(identityFlights[ask.login]))];
        return;
      }
      NewIdentityFlight(reader, ask, start);
    }

    method OfferIdentityFlight(reader: nat, ask: Ask)
      modifies this
      ensures View() == WithIdentityFlight(old(View()), reader, ask)
    {
      identityJobs := identityJobs[nextJob :=
        Job(ask.login, VersionIn(siteInvalidationVersions, ask.login.site), |log|, Waiting)];
      identityFlights := identityFlights[ask.login := nextJob];
      readers := readers[reader := Resolving(ask, Flight(nextJob))];
      nextJob := nextJob + 1;
    }

    method OfferQueryFlight(reader: nat, ask: Ask, identity: Identity, cached: Option<Row>, flightKey: string)
      modifies this
      ensures View() == WithQueryFlight(old(View()), reader, ask, identity, cached, flightKey)
    {
      var work := Fetch(identity, ask.signature, ask.ttl, ask.fallback, cached);
      queryJobs := queryJobs[nextJob := Job(work, VersionIn(siteInvalidationVersions, ask.login.site), |log|, Waiting)];
      queryFlights := queryFlights[flightKey := nextJob];
      readers := readers[reader := Fetching(ask, identity, nextJob)];
      nextJob := nextJob + 1;
    }

    method NewIdentityFlight(reader: nat, ask: Ask, now: int)
      requires Ready()
      modifies this, gate
      ensures Wired() && View() == SubmitJob(config, WithIdentityFlight(old(View()), reader, ask), old(nextJob), now)
    {
      OfferIdentityFlight(reader, ask);
      Submit(nextJob - 1, now);
    }

    method NewQueryFlight(reader: nat, ask: Ask, identity: Identity, cached: Option<Row>, flightKey: string, now: int)
      requires Ready()
      modifies this, gate
      ensures Wired()
      ensures View() == SubmitJob(config, WithQueryFlight(old(View()), reader, ask, identity, cached, flightKey),
        old(nextJob), now)
    {
      OfferQueryFlight(reader, ask, identity, cached, flightKey);
      Submit(nextJob - 1, now);
    }

    /** The next job is new to the gate. */
    ghost predicate Ready()
      reads this, gate
    {
      Wired() && nextJob !in gate.history.running
    }

    /** `read`, up to awaiting the identity. */
    method Read(reader: nat, request: Request, at: Times)
      requires Valid() && SiteText(SiteText(request.site)) == SiteText(request.site)
      modifies this, store`cache, gate
      ensures Valid() && View() == ReadService.Read(config, old(View()), reader, request, at)
    {
      ReadSane(config, View(), reader, request, at);
      ReadNormalized(reader, request, at);
    }

    method ReadNormalized(reader: nat, request: Request, at: Times)
      requires Ready()
      modifies this, store`cache, gate
      ensures Wired() && View() == ReadService.Read(config, old(View()), reader, request, at)
    {
      var ask := AskOf(request);
      if closed {
        readers := readers[reader := Rejected(ServiceClosed)];
      } else if ask.Err? {
        readers := readers[reader := Rejected(ask.error)];
      } else {
        NormalizedNotBlank(request.site);
        MaybePrune(ask.value.login.site, at.prune);
        ResolveIdentity(reader, ask.value, at.epoch, at.start);
      }
    }

    /** `read` after its first await. */
    method Continue(reader: nat, now: int, start: int)
      requires Valid() && reader in readers && readers[reader].Resolving?
        && IdentityFor(View(), readers[reader].source).Some?
      modifies this, gate
      ensures Valid() && View() == ReadService.Continue(config, old(View()), reader, now, start)
      ensures Fair(View(), reader)
    {
      ContinueSane(config, View(), reader, now, start);
      Continues(reader, now, start);
    }

    method Continues(reader: nat, now: int, start: int)
      requires Ready() && reader in readers && readers[reader].Resolving?
        && IdentityFor(View(), readers[reader].source).Some?
      modifies this, gate
      ensures Wired() && View() == ReadService.Continue(config, old(View()), reader, now, start)
    {
      var r := readers[reader];
      var identity := match r.source
        case Known(known) => Ok(known)
        case Flight(id) => identityJobs[id].phase.result;
      if identity.Err? {
        readers := readers[reader := Rejected(identity.error)];
      } else {
        Query(reader, r.ask, identity.value, now, start);
      }
    }

    method Query(reader: nat, ask: Ask, identity: Identity, now: int, start: int)
      requires Ready()
      modifies this, gate
      ensures Wired() && View() == ReadService.Query(config, old(View()), reader, ask, identity, now, start)
    {
      var cached := Lookup(store.cache, identity, ask.signature);
      var flightKey := CacheKey(identity, ask.signature);
      if cached.Some? && Fresh(cached.value.validUntil, now) {
        readers := readers[reader :=
          Answered(ask, identity, Resolved(cached.value, now, FromCache, Hit, false), |log|)];
      } else if flightKey in queryFlights {
        readers := readers[reader := Fetching(ask, identity, queryFlights[flightKey])];
      } else {
        NewQueryFlight(reader, ask, identity, cached, flightKey, start);
      }
    }

    /** The awaited flight's outcome reaches the reader. */
    method Deliver(reader: nat)
      requires Valid() && reader in readers && readers[reader].Fetching?
      requires readers[reader].job in queryJobs && queryJobs[readers[reader].job].phase.Settled?
      modifies this`readers
      ensures Valid() && View() == ReadService.Deliver(old(View()), reader)
      ensures Fair(View(), reader)
    {
      DeliverSane(config, View(), reader);
      TakeOutcome(reader);
    }

    method TakeOutcome(reader: nat)
      requires reader in readers && readers[reader].Fetching?
      requires readers[reader].job in queryJobs && queryJobs[readers[reader].job].phase.Settled?
      modifies this`readers
      ensures View() == ReadService.Deliver(old(View()), reader)
    {
      var r := readers[reader];
      var phase := queryJobs[r.job].phase;
      readers := readers[reader :=
        if phase.result.Ok? then Answered(r.ask, r.identity, phase.result.value, phase.at)
          else Rejected(phase.result.error)];
    }

    // --------------------------------------------------------------------- jobs

    /** `#siteInvalidationVersions` of a site moves on. */
    method BumpSiteVersion(site: string)
      modifies this`siteInvalidationVersions
      ensures siteInvalidationVersions == Bump(old(siteInvalidationVersions), site)
    {
      siteInvalidationVersions := siteInvalidationVersions[site := VersionIn(siteInvalidationVersions, site) + 1];
    }

    /** The rest of an identity job once the loader has answered. */
    method IdentityReturned(id: nat, answer: Result<Epoch, Failure>, now: int)
      requires Valid() && id in identityJobs && identityJobs[id].phase.Calling?
      modifies this, store`cache, store`epochs
      ensures Valid() && View() == IdentityAnswered(config, old(View()), id, answer, now)
      ensures IdentityFenced(old(View()), View(), id)
    {
      IdentityReturnedSane(config, View(), id, answer, now);
      IdentitySettles(id, answer, now);
    }

    method IdentitySettles(id: nat, answer: Result<Epoch, Failure>, now: int)
      requires Wired() && id in identityJobs && identityJobs[id].phase.Calling?
      modifies this, store`cache, store`epochs
      ensures Wired() && View() == IdentityAnswered(config, old(View()), id, answer, now)
    {
      var job := identityJobs[id];
      var loaded := LoadedEpoch(siteInvalidationVersions, job, answer);
      if loaded.Err? {
        identityJobs := identityJobs[id := job.(phase := Settled(Err(loaded.error), |log|))];
      } else {
        AcceptEpoch(id, loaded.value, now);
      }
    }

    method AcceptEpoch(id: nat, epoch: Epoch, now: int)
      requires id in identityJobs && identityJobs[id].phase.Calling?
      modifies this, store`cache, store`epochs
      ensures Wired() == old(Wired()) && View() == EpochAccepted(config, old(View()), id, epoch, now)
    {
      var job := identityJobs[id];
      if EpochChanged(job, epoch) { DropAnswers(job.work); }
      var row := LoadedRow(config, job, epoch, now);
      store.UpsertEpoch(row);
      var identity := CacheIdentity(store.revisions, epoch.site, epoch.principal, epoch.epoch);
      identityJobs := identityJobs[id := job.(phase := Settled(identity, |log|))];
    }

    method DropAnswers(login: Login)
      modifies this`siteInvalidationVersions, this`log, store`cache
      ensures View() == DropLogin(old(View()), login)
    {
      var _ := store.DeleteMatching(LoginSelectors(login));
      BumpSiteVersion(login.site);
      log := log + [Logged(LoginSelectors(login), false)];
    }

    /** The rest of a query job once the live site has answered or failed. */
    method LiveReturned(id: nat, answer: Result<LiveRead, Failure>, now: int)
      requires Valid() && id in queryJobs && queryJobs[id].phase.Calling?
      modifies this`queryJobs, store`cache
      ensures Valid() && View() == LiveAnswered(config, old(View()), id, answer, now)
      ensures QueryFenced(old(View()), View(), id)
    {
      LiveReturnedSane(config, View(), id, answer, now);
      LiveSettles(id, answer, now);
    }

    method LiveSettles(id: nat, answer: Result<LiveRead, Failure>, now: int)
      requires Wired() && id in queryJobs && queryJobs[id].phase.Calling?
      modifies this`queryJobs, store`cache
      ensures Wired() && View() == LiveAnswered(config, old(View()), id, answer, now)
    {
      var job := queryJobs[id];
      if answer.Err? {
        var fallback := LiveFailed(config, siteInvalidationVersions, job, answer.error, now);
        queryJobs := queryJobs[id := job.(phase := Settled(fallback, |log|))];
        return;
      }
      var ttl := LiveTtl(config, siteInvalidationVersions, job, answer.value);
      if ttl.Err? {
        queryJobs := queryJobs[id := job.(phase := Settled(Err(ttl.error), |log|))];
        return;
      }
      StoreAnswer(id, answer.value, now, ttl.value);
    }

    method StoreAnswer(id: nat, live: LiveRead, now: int, ttl: int)
      requires id in queryJobs && queryJobs[id].phase.Calling?
      modifies this`queryJobs, store`cache
      ensures View() == LiveAccepted(old(View()), id, live, now, ttl)
    {
      var job := queryJobs[id];
      var row := LiveRow(job, live, now, ttl);
      store.UpsertRow(ScopeKey(row.scope), row);
      var persisted := Lookup(store.cache, job.work.identity, job.work.signature);
      var served := Resolved(if persisted.Some? then persisted.value
        else row, now, FromFrappe, if job.phase.prior.Some? then Stale else Miss, false);
      queryJobs := queryJobs[id := job.(phase := Settled(Ok(served), |log|))];
    }

    /** The slot of a settled job is freed and the next waiting job begins. */
    method Release(id: nat, now: int)
      requires Valid() && id in gate.history.running && IsSettled(View(), id)
      modifies gate, this`identityJobs, this`queryJobs
      ensures Valid() && View() == ReadService.Release(config, old(View()), id, now)
    {
      ReleaseSane(config, View(), id, now);
      FreeSlot(id, now);
    }

    method FreeSlot(id: nat, now: int)
      requires Wired() && id in gate.history.running && forall x :: x in gate.queue ==> x !in gate.history.running
      modifies gate, this`identityJobs, this`queryJobs
      ensures Wired() && View() == ReadService.Release(config, old(View()), id, now)
    {
      var next := gate.Finish(id);
      if next.Some? { Begin(next.value, now); }
    }

    /** `finally`: the flight is no longer offered to readers. */
    method Forget(id: nat)
      requires Valid() && IsSettled(View(), id)
      modifies this`identityFlights, this`queryFlights
      ensures Valid() && View() == ReadService.Forget(old(View()), id)
    {
      ForgetSane(config, View(), id);
      WithdrawFlight(id);
    }

    method WithdrawFlight(id: nat)
      modifies this`identityFlights, this`queryFlights
      ensures View() == ReadService.Forget(old(View()), id)
    {
      identityFlights := map l | l in identityFlights && identityFlights[l] != id :: identityFlights[l];
      queryFlights := map k | k in queryFlights && queryFlights[k] != id :: queryFlights[k];
    }

    // ---------------------------------------------- invalidation, events, closing

    method Invalidate(input: Invalidation, permissionChanged: bool) returns (r: Result<InvalidationReceipt, Failure>)
      requires Valid() && SiteText(SiteText(input.site)) == SiteText(input.site)
      modifies this`siteInvalidationVersions, this`log, store`cache, store`epochs
      ensures Valid() && View() == ReadService.Invalidate(old(View()), input, permissionChanged)
      ensures r == InvalidateAnswer(old(View()), input, permissionChanged)
      ensures r.Ok? ==> InvalidationMade(old(View()), View())
    {
      InvalidateSane(config, View(), input, permissionChanged);
      r := CarryOut(input, permissionChanged);
    }

    method CarryOut(input: Invalidation, permissionChanged: bool) returns (r: Result<InvalidationReceipt, Failure>)
      modifies this`siteInvalidationVersions, this`log, store`cache, store`epochs
      ensures View() == ReadService.Invalidate(old(View()), input, permissionChanged)
      ensures r == InvalidateAnswer(old(View()), input, permissionChanged)
    {
      if closed { return Err(ServiceClosed); }
      var normalized := NormalizedInvalidation(input);
      if normalized.Err? { return Err(normalized.error); }
      NormalizedNotBlank(input.site);
      var selectors := SelectorsOf(normalized.value);
      if selectors.Err? {
        BumpSiteVersion(normalized.value.site);
        return Err(selectors.error);
      }
      r := DropSelected(normalized.value, selectors.value, permissionChanged);
    }

    method DropSelected(input: Invalidation, selectors: Selectors, permissionChanged: bool)
      returns (r: Result<InvalidationReceipt, Failure>)
      requires SelectorsOf(input) == Ok(selectors) && StoreSite(input.site).Ok?
      modifies this`siteInvalidationVersions, this`log, store`cache, store`epochs
      ensures View() == InvalidatedBy(old(View()), input, permissionChanged)
      ensures r == Ok(InvalidationReceipt(
        MatchCount(old(store.cache), selectors),
        if permissionChanged then
          |old(store.epochs).Keys - EpochsWithout(old(store.epochs), input.site, input.principal).Keys| else 0))
    {
      BumpSiteVersion(input.site);
      var entries := store.InvalidateCache(input);
      var identities := DropEpochs(input, permissionChanged);
      log := log + [Logged(selectors, permissionChanged)];
      r := Ok(InvalidationReceipt(entries.value, identities));
    }

    method DropEpochs(input: Invalidation, permissionChanged: bool) returns (count: nat)
      requires StoreSite(input.site).Ok?
      modifies store`epochs
      ensures store.epochs == if permissionChanged then EpochsWithout(old(store.epochs), input.site, input.principal)
        else old(store.epochs)
      ensures count == if permissionChanged then |old(store.epochs).Keys - store.epochs.Keys| else 0
    {
      if !permissionChanged { return 0; }
      var dropped := store.InvalidatePermissionEpochs(input.site, input.principal);
      count := dropped.value;
    }

    method ApplyEvent(e: Event) returns (r: Result<EventReceipt, Failure>)
      requires Valid()
      modifies this`siteInvalidationVersions, this`log, store
      ensures Valid() && View() == ReadService.ApplyEvent(old(View()), e)
      ensures r == ApplyEventAnswer(old(View()), e)
      ensures r.Ok? && r.value.applied ==> InvalidationMade(old(View()), View())
    {
      ApplyEventSane(config, View(), e);
      r := TakeEvent(e);
    }

    method TakeEvent(e: Event) returns (r: Result<EventReceipt, Failure>)
      modifies this`siteInvalidationVersions, this`log, store
      ensures View() == ReadService.ApplyEvent(old(View()), e)
      ensures r == ApplyEventAnswer(old(View()), e)
    {
      if closed { return Err(ServiceClosed); }
      var site := NormalizeSite(e.site);
      if site.Err? { return Err(site.error); }
      BumpSiteVersion(site.value);
      if TakesEffect(store.View(), e) {
        log := log + [Logged(SelectorsOf(EventInvalidation(e)).value, e.operation == PermissionChanged)];
      }
      r := store.ApplyEvent(e);
    }

    /** `close`: waiting jobs are rejected. */
    method Close()
      requires Valid()
      modifies gate, this`closed, this`identityJobs, this`queryJobs
      ensures Valid() && View() == ReadService.Close(old(View()))
      ensures NothingWaits(View())
    {
      CloseSane(config, View());
      if !closed { RejectWaiting(); }
    }

    method RejectWaiting()
      requires Wired() && !closed
      modifies gate, this`closed, this`identityJobs, this`queryJobs
      ensures Wired() && View() == ReadService.Close(old(View()))
    {
      closed := true;
      var rejected := gate.Close();
      ghost var shut := View();
      for n := 0 to |rejected|
        invariant Wired() && View() == FailAll(shut, rejected[..n])
      {
        Reject(rejected[n], ServiceClosed);
        assert rejected[..n + 1][..n] == rejected[..n];
      }
      assert rejected[..|rejected|] == rejected;
    }
  }
}
