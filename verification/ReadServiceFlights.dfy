/** What every run of the read service keeps about its gate and its flights. */
module ReadServiceFlights {
  import opened Text
  import opened Scopes
  import opened ReadModel
  import opened Gate
  import opened ReadService
  import opened ReadServiceSafety

  datatype Tag = Waits | Calls | Over

  function TagOf<P, R>(phase: Phase<P, R>): Tag {
    match phase
    case Waiting => Waits
    case Calling(_, _) => Calls
    case Settled(_, _) => Over
  }

  /** How far each job is. */
  function Tags(s: State): map<nat, Tag> {
    map id | id in s.identityJobs.Keys + s.queryJobs.Keys ::
      if id in s.identityJobs then TagOf(s.identityJobs[id].phase) else TagOf(s.queryJobs[id].phase)
  }

  /** The gate knows every job; the waiting ones are those in its queue, and a call holds a slot. */
  ghost predicate GateOk(limits: Limits, gate: Gate<nat>, next: nat, tags: map<nat, Tag>) {
    && Orderly(limits, gate)
    && (forall id: nat :: id in tags <==> id < next)
    && (forall id: nat :: Knows(gate, id) <==> id < next)
    && (forall id :: id in tags && tags[id] == Waits <==> id in gate.queue)
    && (forall id :: id in tags && tags[id] == Calls ==> id in gate.running)
  }

  /** A job that has not settled is the flight on offer for its key. */
  ghost predicate Registered<K(!new), W(!new), P(!new), R(!new)>(flights: map<K, nat>, jobs: map<nat, Job<W, P, R>>,
                                                                 keyOf: W -> K) {
    forall id :: id in jobs && !jobs[id].phase.Settled? ==>
      keyOf(jobs[id].work) in flights && flights[keyOf(jobs[id].work)] == id
  }

  ghost predicate Flow(c: Config, s: State) {
    && GateOk(c.limits, s.gate, s.nextJob, Tags(s)) && s.closed == s.gate.closed
    && s.identityJobs.Keys !! s.queryJobs.Keys
    && Registered(s.identityFlights, s.identityJobs, LoginKey) && Registered(s.queryFlights, s.queryJobs, FetchKey)
  }

  // ------------------------------------------------------------ the gate's own steps

  lemma AdmitOk(limits: Limits, gate: Gate<nat>, next: nat, tags: map<nat, Tag>, tag: Tag)
    requires GateOk(limits, gate, next, tags)
    requires var admission := Admit(limits, gate, next).1;
      match admission case Started => tag != Waits case Queued => tag == Waits case _ => tag == Over
    ensures GateOk(limits, Admit(limits, gate, next).0, next + 1, tags[next := tag])
  {
    AdmitKeeps(limits, gate, next);
  }

  lemma SettleOk(limits: Limits, gate: Gate<nat>, next: nat, tags: map<nat, Tag>, id: nat)
    requires GateOk(limits, gate, next, tags) && id in tags && tags[id] == Calls
    ensures GateOk(limits, gate, next, tags[id := Over])
  {
  }

  lemma QueueHead(queue: seq<nat>)
    requires queue != [] && Distinct(queue)
    ensures forall id :: id in queue <==> id == queue[0] || id in queue[1..]
    ensures queue[0] !in queue[1..]
  {
    assert queue == [queue[0]] + queue[1..];
  }

  lemma TagsFollow(limits: Limits, gate: Gate<nat>, gate': Gate<nat>, next: nat, tags: map<nat, Tag>, id: nat,
                   started: nat, tag: Tag)
    requires GateOk(limits, gate, next, tags) && Orderly(limits, gate')
      && (forall x: nat :: Knows(gate', x) <==> Knows(gate, x))
    requires id in tags && tags[id] == Over && tag != Waits && started in gate.queue
    requires gate'.running == gate.running - {id} + {started}
    requires forall x :: x in gate.queue <==> x == started || x in gate'.queue
    requires started !in gate'.queue
    ensures GateOk(limits, gate', next, tags[started := tag]) && started in tags && tags[started] == Waits
  {
    var tags' := tags[started := tag];
    assert started in tags;
    forall x | x in tags' && tags'[x] == Calls ensures x in gate'.running { assert x in tags; }
  }

  lemma DrainOk(limits: Limits, gate: Gate<nat>, next: nat, tags: map<nat, Tag>, id: nat, tag: Tag)
    requires GateOk(limits, gate, next, tags) && id in gate.running && id in tags && tags[id] == Over && tag != Waits
    ensures var (gate', started) := Drain(limits, Free(gate, id));
      && GateOk(limits, gate', next, if started.Some? then tags[started.value := tag] else tags)
      && (started.Some? ==> started.value in tags && tags[started.value] == Waits)
  {
    DrainKeeps(limits, gate, id);
    var (gate', started) := Drain(limits, Free(gate, id));
    if started.Some? {
      QueueHead(gate.queue);
      TagsFollow(limits, gate, gate', next, tags, id, started.value, tag);
    }
  }

  lemma ShutOk(limits: Limits, gate: Gate<nat>, next: nat, tags: map<nat, Tag>, after: map<nat, Tag>)
    requires GateOk(limits, gate, next, tags) && after.Keys == tags.Keys
    requires forall id :: id in tags ==> after[id] == if id in gate.queue then Over else tags[id]
    ensures GateOk(limits, Shut(gate), next, after)
  {
    ShutKeeps(limits, gate);
  }

  // ------------------------------------------------------------------ flights and jobs

  /** A job moves on without waiting again; its registration, if it still needs one, stays. */
  lemma RegisteredKept<K(!new), W(!new), P(!new), R(!new)>(flights: map<K, nat>, jobs: map<nat, Job<W, P, R>>,
                                                           keyOf: W -> K, id: nat, job: Job<W, P, R>)
    requires Registered(flights, jobs, keyOf) && id in jobs && job.work == jobs[id].work
    requires !jobs[id].phase.Settled? || job.phase.Settled?
    ensures Registered(flights, jobs[id := job], keyOf)
  {
  }

  lemma RegisteredAdded<K(!new), W(!new), P(!new), R(!new)>(flights: map<K, nat>, jobs: map<nat, Job<W, P, R>>,
                                                            keyOf: W -> K, id: nat, job: Job<W, P, R>)
    requires Registered(flights, jobs, keyOf) && id !in jobs && keyOf(job.work) !in flights
    ensures Registered(flights[keyOf(job.work) := id], jobs[id := job], keyOf)
  {
  }

  lemma RegisteredForgotten<K(!new), W(!new), P(!new), R(!new)>(flights: map<K, nat>, jobs: map<nat, Job<W, P, R>>,
                                                                keyOf: W -> K, id: nat)
    requires Registered(flights, jobs, keyOf) && (id in jobs ==> jobs[id].phase.Settled?)
    ensures Registered(map k | k in flights && flights[k] != id :: flights[k], jobs, keyOf)
  {
  }

  /** A step that leaves the gate, jobs and flights alone. */
  lemma FlowFrame(c: Config, s: State, s': State)
    requires Flow(c, s) && SameFlights(s, s')
    ensures Flow(c, s')
  {
    assert Tags(s') == Tags(s);
  }

  /** The parts of the flow that do not concern the gate. */
  ghost predicate JobsOk(s: State) {
    && s.identityJobs.Keys !! s.queryJobs.Keys
    && Registered(s.identityFlights, s.identityJobs, LoginKey) && Registered(s.queryFlights, s.queryJobs, FetchKey)
  }

  lemma IdentityTags(s: State, id: nat, job: IdentityJob)
    requires id in s.identityJobs
    ensures Tags(s.(identityJobs := s.identityJobs[id := job])) == Tags(s)[id := TagOf(job.phase)]
  {
  }

  lemma QueryTags(s: State, id: nat, job: QueryJob)
    requires id in s.queryJobs && s.identityJobs.Keys !! s.queryJobs.Keys
    ensures Tags(s.(queryJobs := s.queryJobs[id := job])) == Tags(s)[id := TagOf(job.phase)]
  {
  }

  lemma IdentityMoves(s: State, id: nat, job: IdentityJob)
    requires JobsOk(s) && id in s.identityJobs && job.work == s.identityJobs[id].work
    requires !s.identityJobs[id].phase.Settled? || job.phase.Settled?
    ensures JobsOk(s.(identityJobs := s.identityJobs[id := job]))
    ensures Tags(s.(identityJobs := s.identityJobs[id := job])) == Tags(s)[id := TagOf(job.phase)]
  {
    IdentityTags(s, id, job);
    RegisteredKept(s.identityFlights, s.identityJobs, LoginKey, id, job);
  }

  lemma QueryMoves(s: State, id: nat, job: QueryJob)
    requires JobsOk(s) && id in s.queryJobs && job.work == s.queryJobs[id].work
    requires !s.queryJobs[id].phase.Settled? || job.phase.Settled?
    ensures JobsOk(s.(queryJobs := s.queryJobs[id := job]))
    ensures Tags(s.(queryJobs := s.queryJobs[id := job])) == Tags(s)[id := TagOf(job.phase)]
  {
    QueryTags(s, id, job);
    RegisteredKept(s.queryFlights, s.queryJobs, FetchKey, id, job);
  }

  lemma FailJobs(s: State, id: nat, failure: Failure)
    requires JobsOk(s) && id in Tags(s)
    ensures JobsOk(Fail(s, id, failure)) && Tags(Fail(s, id, failure)) == Tags(s)[id := Over]
    ensures Fail(s, id, failure).gate == s.gate && Fail(s, id, failure).closed == s.closed
      && Fail(s, id, failure).nextJob == s.nextJob
  {
    if id in s.identityJobs {
      IdentityMoves(s, id, s.identityJobs[id].(phase := Settled(Err(failure), |s.log|)));
    } else {
      QueryMoves(s, id, s.queryJobs[id].(phase := Settled(Err(failure), |s.log|)));
    }
  }

  /** Starting a waiting job: it calls, or has settled at once. */
  lemma StartJobs(s: State, id: nat, now: int)
    requires JobsOk(s) && id in Tags(s) && Tags(s)[id] == Waits
    ensures var s' := StartJob(s, id, now);
      && JobsOk(s') && s'.gate == s.gate && s'.closed == s.closed && s'.nextJob == s.nextJob
      && id in Tags(s') && Tags(s')[id] != Waits && Tags(s') == Tags(s)[id := Tags(s')[id]]
  {
    if id in s.identityJobs {
      var job := s.identityJobs[id];
      IdentityMoves(s, id, job.(phase := IdentityBegins(s.store, |s.log|, job.work, now)));
    } else {
      var job := s.queryJobs[id];
      QueryMoves(s, id, job.(phase := QueryBegins(s.store, |s.log|, job.work, now)));
    }
  }

  /** A new job passes through the gate. */
  lemma SubmitJobs(c: Config, s: State, tags: map<nat, Tag>, id: nat, now: int)
    requires JobsOk(s) && id !in tags && Tags(s) == tags[id := Waits]
    ensures var s' := SubmitJob(c, s, id, now);
      && JobsOk(s') && s'.gate == Admit(c.limits, s.gate, id).0 && s'.closed == s.closed && s'.nextJob == s.nextJob
      && id in Tags(s') && Tags(s') == tags[id := Tags(s')[id]]
      && match Admit(c.limits, s.gate, id).1
         case Started => Tags(s')[id] != Waits
         case Queued => Tags(s')[id] == Waits
         case _ => Tags(s')[id] == Over
  {
    var (gate, admission) := Admit(c.limits, s.gate, id);
    var s1 := s.(gate := gate);
    assert Tags(s1) == Tags(s) && JobsOk(s1);
    match admission {
      case Started => StartJobs(s1, id, now);
      case Queued =>
      case Overloaded => FailJobs(s1, id, Failure.Overloaded);
      case Refused => FailJobs(s1, id, ServiceClosed);
    }
    Overwrite(tags, id, Tags(SubmitJob(c, s, id, now))[id]);
  }

  lemma Overwrite(tags: map<nat, Tag>, id: nat, tag: Tag)
    ensures tags[id := Waits][id := tag] == tags[id := tag]
  {
  }

  lemma SubmitFlow(c: Config, s: State, tags: map<nat, Tag>, id: nat, now: int)
    requires JobsOk(s) && s.nextJob == id + 1 && Tags(s) == tags[id := Waits] && s.closed == s.gate.closed
    requires GateOk(c.limits, s.gate, id, tags)
    ensures Flow(c, SubmitJob(c, s, id, now))
  {
    assert id !in tags;
    var s' := SubmitJob(c, s, id, now);
    SubmitJobs(c, s, tags, id, now);
    AdmitOk(c.limits, s.gate, id, tags, Tags(s')[id]);
    assert s'.gate.closed == s.gate.closed;
  }

  // ------------------------------------------------------------------ the steps

  /** Everything that the gate and the flights depend on is the same. */
  ghost predicate SameFlights(s: State, s': State) {
    && s'.gate == s.gate && s'.nextJob == s.nextJob && s'.closed == s.closed
    && s'.identityJobs == s.identityJobs && s'.queryJobs == s.queryJobs
    && s'.identityFlights == s.identityFlights && s'.queryFlights == s.queryFlights
  }

  lemma ReadersFrame(s: State, s': State)
    requires s' == s.(readers := s'.readers)
    ensures SameFlights(s, s')
  {
  }

  lemma StoreFrame(s: State, s': State)
    requires s' == s.(store := s'.store, versions := s'.versions, log := s'.log)
    ensures SameFlights(s, s')
  {
  }

  predicate NeedsIdentityFlight(s: State, ask: Ask, now: int) {
    var stored := EpochOf(s.store.epochs, ask.login.site, ask.login.principal);
    !(stored.Some? && Fresh(stored.value.validUntil, now)) && ask.login !in s.identityFlights
  }

  lemma ResolveNew(c: Config, s: State, reader: nat, ask: Ask, now: int, start: int)
    requires NeedsIdentityFlight(s, ask, now)
    ensures Resolve(c, s, reader, ask, now, start) == SubmitJob(c, WithIdentityFlight(s, reader, ask), s.nextJob, start)
  {
  }

  lemma ResolveOld(c: Config, s: State, reader: nat, ask: Ask, now: int, start: int)
    requires !NeedsIdentityFlight(s, ask, now)
    ensures var s' := Resolve(c, s, reader, ask, now, start);
      reader in s'.readers && s' == s.(readers := s.readers[reader := s'.readers[reader]])
  {
    var stored := EpochOf(s.store.epochs, ask.login.site, ask.login.principal);
    if !(stored.Some? && Fresh(stored.value.validUntil, now)) {
      assert Resolve(c, s, reader, ask, now, start)
          == s.(readers := s.readers[reader := Resolving(ask, Flight(s.identityFlights[ask.login]))]);
    }
  }

  lemma ResolveFlow(c: Config, s: State, reader: nat, ask: Ask, now: int, start: int)
    requires Flow(c, s)
    ensures Flow(c, Resolve(c, s, reader, ask, now, start))
  {
    if NeedsIdentityFlight(s, ask, now) {
      IdentityFlightFlow(c, s, reader, ask, start);
      ResolveNew(c, s, reader, ask, now, start);
    } else {
      ResolveOld(c, s, reader, ask, now, start);
      ReadersFrame(s, Resolve(c, s, reader, ask, now, start));
      FlowFrame(c, s, Resolve(c, s, reader, ask, now, start));
    }
  }

  lemma IdentityFlightFlow(c: Config, s: State, reader: nat, ask: Ask, now: int)
    requires Flow(c, s) && ask.login !in s.identityFlights
    ensures Flow(c, SubmitJob(c, WithIdentityFlight(s, reader, ask), s.nextJob, now))
  {
    var s1 := WithIdentityFlight(s, reader, ask);
    assert s.nextJob !in Tags(s);
    RegisteredAdded(s.identityFlights, s.identityJobs, LoginKey, s.nextJob, s1.identityJobs[s.nextJob]);
    assert Tags(s1) == Tags(s)[s.nextJob := Waits];
    SubmitFlow(c, s1, Tags(s), s.nextJob, now);
  }

  lemma QueryFlightFlow(c: Config, s: State, reader: nat, ask: Ask, identity: Identity, cached: Option<Row>,
                        key: string, now: int)
    requires Flow(c, s) && key !in s.queryFlights
      && FetchKey(Fetch(identity, ask.signature, ask.ttl, ask.fallback, cached)) == key
    ensures Flow(c, SubmitJob(c, WithQueryFlight(s, reader, ask, identity, cached, key), s.nextJob, now))
  {
    var s1 := WithQueryFlight(s, reader, ask, identity, cached, key);
    assert s.nextJob !in Tags(s);
    assert JobsOk(s1) by {
      RegisteredAdded(s.queryFlights, s.queryJobs, FetchKey, s.nextJob, s1.queryJobs[s.nextJob]);
    }
    QueryFlightTags(s, reader, ask, identity, cached, key);
    SubmitFlow(c, s1, Tags(s), s.nextJob, now);
  }

  lemma QueryFlightTags(s: State, reader: nat, ask: Ask, identity: Identity, cached: Option<Row>, key: string)
    requires s.nextJob !in Tags(s)
    ensures var s1 := WithQueryFlight(s, reader, ask, identity, cached, key);
      Tags(s1) == Tags(s)[s.nextJob := Waits] && s1.gate == s.gate && s1.closed == s.closed
        && s1.nextJob == s.nextJob + 1
  {
  }

  lemma ReadFlow(c: Config, s: State, reader: nat, request: Request, at: Times)
    requires Flow(c, s)
    ensures Flow(c, Read(c, s, reader, request, at))
  {
    if s.closed || AskOf(request).Err? {
      FlowFrame(c, s, Read(c, s, reader, request, at));
    } else {
      var ask := AskOf(request).value;
      FlowFrame(c, s, MaybePrune(c, s, ask.login.site, at.prune));
      ResolveFlow(c, MaybePrune(c, s, ask.login.site, at.prune), reader, ask, at.epoch, at.start);
    }
  }

  predicate NeedsQueryFlight(s: State, ask: Ask, identity: Identity, now: int) {
    var cached := Lookup(s.store.cache, identity, ask.signature);
    !(cached.Some? && Fresh(cached.value.validUntil, now)) && CacheKey(identity, ask.signature) !in s.queryFlights
  }

  lemma QueryNew(c: Config, s: State, reader: nat, ask: Ask, identity: Identity, now: int, start: int)
    requires NeedsQueryFlight(s, ask, identity, now)
    ensures Query(c, s, reader, ask, identity, now, start) ==
      SubmitJob(c, WithQueryFlight(s, reader, ask, identity, Lookup(s.store.cache, identity, ask.signature),
        CacheKey(identity, ask.signature)),
                s.nextJob, start)
  {
  }

  lemma QueryOld(c: Config, s: State, reader: nat, ask: Ask, identity: Identity, now: int, start: int)
    requires !NeedsQueryFlight(s, ask, identity, now)
    ensures var s' := Query(c, s, reader, ask, identity, now, start);
      reader in s'.readers && s' == s.(readers := s.readers[reader := s'.readers[reader]])
  {
  }

  lemma QueryFlow(c: Config, s: State, reader: nat, ask: Ask, identity: Identity, now: int, start: int)
    requires Flow(c, s)
    ensures Flow(c, Query(c, s, reader, ask, identity, now, start))
  {
    if NeedsQueryFlight(s, ask, identity, now) {
      QueryFlightFlow(c, s, reader, ask, identity, Lookup(s.store.cache, identity, ask.signature),
        CacheKey(identity, ask.signature), start);
      QueryNew(c, s, reader, ask, identity, now, start);
    } else {
      QueryOld(c, s, reader, ask, identity, now, start);
      ReadersFrame(s, Query(c, s, reader, ask, identity, now, start));
      FlowFrame(c, s, Query(c, s, reader, ask, identity, now, start));
    }
  }

  lemma ContinueFlow(c: Config, s: State, reader: nat, now: int, start: int)
    requires Flow(c, s) && reader in s.readers && s.readers[reader].Resolving?
      && IdentityFor(s, s.readers[reader].source).Some?
    ensures Flow(c, Continue(c, s, reader, now, start))
  {
    var identity := IdentityFor(s, s.readers[reader].source).value;
    if identity.Err? {
      FlowFrame(c, s, Continue(c, s, reader, now, start));
    } else {
      QueryFlow(c, s, reader, s.readers[reader].ask, identity.value, now, start);
    }
  }

  /** Two states that differ in neither gate nor flights nor closing, and whose jobs differ in one that is over in the
      second. */
  lemma OneOver(c: Config, s: State, s': State, id: nat)
    requires Flow(c, s) && id in Tags(s) && Tags(s)[id] == Calls
    requires JobsOk(s') && Tags(s') == Tags(s)[id := Over]
    requires s'.gate == s.gate && s'.closed == s.closed && s'.nextJob == s.nextJob
    ensures Flow(c, s')
  {
    SettleOk(c.limits, s.gate, s.nextJob, Tags(s), id);
  }

  /** The job `id` has settled, and no other job, flight or slot has changed. */
  ghost predicate IdentityEnded(s: State, s': State, id: nat)
    requires id in s.identityJobs
  {
    && id in s'.identityJobs && s'.identityJobs[id].phase.Settled?
    && s'.identityJobs[id].work == s.identityJobs[id].work
    && SameFlights(s.(identityJobs := s.identityJobs[id := s'.identityJobs[id]]), s')
  }

  lemma SettledFrame(s: State, s1: State, id: nat, result: Result<Identity, Failure>)
    requires SameFlights(s, s1) && id in s.identityJobs
    ensures IdentityEnded(s, SettleIdentity(s1, id, result), id)
  {
  }

  lemma DropLoginFrame(s: State, login: Login)
    ensures SameFlights(s, DropLogin(s, login))
  {
  }

  lemma StoreEpochFrame(s: State, row: EpochRow)
    ensures SameFlights(s, StoreEpoch(s, row))
  {
  }

  lemma WithEpochFrame(c: Config, s: State, job: IdentityJob, epoch: Epoch, now: int)
    requires job.phase.Calling?
    ensures SameFlights(s, WithEpoch(c, s, job, epoch, now))
  {
    var s1 := if EpochChanged(job, epoch) then DropLogin(s, job.work) else s;
    DropLoginFrame(s, job.work);
    StoreEpochFrame(s1, LoadedRow(c, job, epoch, now));
  }

  lemma EpochAcceptedFrame(c: Config, s: State, id: nat, epoch: Epoch, now: int)
    requires id in s.identityJobs && s.identityJobs[id].phase.Calling?
    ensures IdentityEnded(s, EpochAccepted(c, s, id, epoch, now), id)
  {
    var s' := WithEpoch(c, s, s.identityJobs[id], epoch, now);
    WithEpochFrame(c, s, s.identityJobs[id], epoch, now);
    SettledFrame(s, s', id, CacheIdentity(s'.store.revisions, epoch.site, epoch.principal, epoch.epoch));
  }

  lemma IdentityAnsweredFrame(c: Config, s: State, id: nat, answer: Result<Epoch, Failure>, now: int)
    requires id in s.identityJobs && s.identityJobs[id].phase.Calling?
    ensures IdentityEnded(s, IdentityAnswered(c, s, id, answer, now), id)
  {
    var loaded := LoadedEpoch(s.versions, s.identityJobs[id], answer);
    if loaded.Ok? { EpochAcceptedFrame(c, s, id, loaded.value, now); }
  }

  lemma IdentityAnsweredFlow(c: Config, s: State, id: nat, answer: Result<Epoch, Failure>, now: int)
    requires Flow(c, s) && id in s.identityJobs && s.identityJobs[id].phase.Calling?
    ensures Flow(c, IdentityAnswered(c, s, id, answer, now))
  {
    var s' := IdentityAnswered(c, s, id, answer, now);
    IdentityAnsweredFrame(c, s, id, answer, now);
    IdentityOver(c, s, id, s'.identityJobs[id]);
    FlowFrame(c, s.(identityJobs := s.identityJobs[id := s'.identityJobs[id]]), s');
  }

  lemma IdentityOver(c: Config, s: State, id: nat, job: IdentityJob)
    requires Flow(c, s) && id in s.identityJobs && s.identityJobs[id].phase.Calling?
    requires job.phase.Settled? && job.work == s.identityJobs[id].work
    ensures Flow(c, s.(identityJobs := s.identityJobs[id := job]))
  {
    IdentityMoves(s, id, job);
    OneOver(c, s, s.(identityJobs := s.identityJobs[id := job]), id);
  }

  ghost predicate QueryEnded(s: State, s': State, id: nat)
    requires id in s.queryJobs
  {
    && id in s'.queryJobs && s'.queryJobs[id].phase.Settled? && s'.queryJobs[id].work == s.queryJobs[id].work
    && SameFlights(s.(queryJobs := s.queryJobs[id := s'.queryJobs[id]]), s')
  }

  lemma LiveAcceptedFrame(s: State, id: nat, live: LiveRead, now: int, ttl: int)
    requires id in s.queryJobs && s.queryJobs[id].phase.Calling?
    ensures QueryEnded(s, LiveAccepted(s, id, live, now, ttl), id)
  {
  }

  lemma LiveAnsweredFrame(c: Config, s: State, id: nat, answer: Result<LiveRead, Failure>, now: int)
    requires id in s.queryJobs && s.queryJobs[id].phase.Calling?
    ensures QueryEnded(s, LiveAnswered(c, s, id, answer, now), id)
  {
    if answer.Ok? && LiveTtl(c, s.versions, s.queryJobs[id], answer.value).Ok? {
      LiveAcceptedFrame(s, id, answer.value, now, LiveTtl(c, s.versions, s.queryJobs[id], answer.value).value);
    }
  }

  lemma LiveAnsweredFlow(c: Config, s: State, id: nat, answer: Result<LiveRead, Failure>, now: int)
    requires Flow(c, s) && id in s.queryJobs && s.queryJobs[id].phase.Calling?
    ensures Flow(c, LiveAnswered(c, s, id, answer, now))
  {
    var s' := LiveAnswered(c, s, id, answer, now);
    LiveAnsweredFrame(c, s, id, answer, now);
    QueryOver(c, s, id, s'.queryJobs[id]);
    FlowFrame(c, s.(queryJobs := s.queryJobs[id := s'.queryJobs[id]]), s');
  }

  lemma QueryOver(c: Config, s: State, id: nat, job: QueryJob)
    requires Flow(c, s) && id in s.queryJobs && s.queryJobs[id].phase.Calling?
    requires job.phase.Settled? && job.work == s.queryJobs[id].work
    ensures Flow(c, s.(queryJobs := s.queryJobs[id := job]))
  {
    QueryMoves(s, id, job);
    OneOver(c, s, s.(queryJobs := s.queryJobs[id := job]), id);
  }

  lemma ReleaseFlow(c: Config, s: State, id: nat, now: int)
    requires Flow(c, s) && id in s.gate.running && id in Tags(s) && Tags(s)[id] == Over
    ensures Flow(c, Release(c, s, id, now))
  {
    var (gate, next) := Drain(c.limits, Free(s.gate, id));
    var s1 := s.(gate := gate);
    assert Tags(s1) == Tags(s);
    DrainOk(c.limits, s.gate, s.nextJob, Tags(s), id, Calls);
    if next.Some? {
      StartJobs(s1, next.value, now);
      DrainOk(c.limits, s.gate, s.nextJob, Tags(s), id, Tags(StartJob(s1, next.value, now))[next.value]);
    }
  }

  lemma ForgetFlow(c: Config, s: State, id: nat)
    requires Flow(c, s) && id in Tags(s) && Tags(s)[id] == Over
    ensures Flow(c, Forget(s, id))
  {
    assert Tags(Forget(s, id)) == Tags(s);
    RegisteredForgotten(s.identityFlights, s.identityJobs, LoginKey, id);
    RegisteredForgotten(s.queryFlights, s.queryJobs, FetchKey, id);
  }

  lemma {:induction false} FailAllJobs(s: State, ids: seq<nat>)
    requires JobsOk(s) && forall id :: id in ids ==> id in Tags(s)
    ensures var s' := FailAll(s, ids);
      && JobsOk(s') && s'.gate == s.gate && s'.closed == s.closed && s'.nextJob == s.nextJob
      && Tags(s').Keys == Tags(s).Keys && forall id :: id in Tags(s) ==>
           Tags(s')[id] == if id in ids then Over else Tags(s)[id]
    decreases |ids|
  {
    if ids != [] {
      var n := |ids| - 1;
      assert ids == ids[..n] + [ids[n]];
      FailAllJobs(s, ids[..n]);
      FailJobs(FailAll(s, ids[..n]), ids[n], ServiceClosed);
    }
  }

  lemma CloseFlow(c: Config, s: State)
    requires Flow(c, s)
    ensures Flow(c, Close(s))
  {
    if !s.closed {
      var s1 := s.(closed := true, gate := Shut(s.gate));
      assert Tags(s1) == Tags(s);
      FailAllJobs(s1, s.gate.queue);
      ShutOk(c.limits, s.gate, s.nextJob, Tags(s), Tags(Close(s)));
    }
  }

  lemma InvalidatedByFrame(s: State, input: Invalidation, permissionChanged: bool)
    requires SelectorsOf(input).Ok?
    ensures SameFlights(s, InvalidatedBy(s, input, permissionChanged))
  {
    StoreFrame(s, InvalidatedBy(s, input, permissionChanged));
  }

  lemma InvalidateFrame(s: State, input: Invalidation, permissionChanged: bool)
    ensures SameFlights(s, Invalidate(s, input, permissionChanged))
  {
    if !s.closed && NormalizedInvalidation(input).Ok? && SelectorsOf(NormalizedInvalidation(input).value).Ok? {
      InvalidatedByFrame(s, NormalizedInvalidation(input).value, permissionChanged);
    } else {
      StoreFrame(s, Invalidate(s, input, permissionChanged));
    }
  }

  lemma ApplyEventFrame(s: State, e: Event)
    ensures var s' := ApplyEvent(s, e); s' == s.(store := s'.store, versions := s'.versions, log := s'.log)
  {
  }

  lemma NextFlow(c: Config, s: State, a: Action)
    requires Flow(c, s) && Enabled(s, a)
    ensures Flow(c, Next(c, s, a))
  {
    match a
    case DoRead(reader, request, at) => ReadFlow(c, s, reader, request, at);
    case DoContinue(reader, now, start) => ContinueFlow(c, s, reader, now, start);
    case DoDeliver(reader) => FlowFrame(c, s, Deliver(s, reader));
    case DoInvalidate(input, permissionChanged) =>
      InvalidateFrame(s, input, permissionChanged);
      FlowFrame(c, s, Invalidate(s, input, permissionChanged));
    case DoEvent(e) =>
      ApplyEventFrame(s, e);
      StoreFrame(s, ApplyEvent(s, e));
      FlowFrame(c, s, ApplyEvent(s, e));
    case _ => NextJobFlow(c, s, a);
  }

  lemma NextJobFlow(c: Config, s: State, a: Action)
    requires Flow(c, s) && Enabled(s, a)
    requires a.DoIdentityAnswer? || a.DoLiveAnswer? || a.DoRelease? || a.DoForget? || a.DoClose?
    ensures Flow(c, Next(c, s, a))
  {
    match a
    case DoIdentityAnswer(id, epoch, now) => IdentityAnsweredFlow(c, s, id, epoch, now);
    case DoLiveAnswer(id, live, now) => LiveAnsweredFlow(c, s, id, live, now);
    case DoRelease(id, now) => ReleaseFlow(c, s, id, now);
    case DoForget(id) => ForgetFlow(c, s, id);
    case DoClose => CloseFlow(c, s);
  }

  /** Whatever store the service is opened over. */
  lemma InitialFlow(c: Config, store: Store)
    ensures Flow(c, Initial(store))
  {
  }

  lemma {:induction false} EveryRunFlows(c: Config, store: Store, actions: seq<Action>, states: seq<State>, n: nat)
    requires IsRun(c, store, actions, states) && n <= |actions|
    ensures Flow(c, states[n])
  {
    InitialFlow(c, Opened(store));
    for m := 0 to n
      invariant Flow(c, states[m])
    {
      RunStep(c, store, actions, states, m);
      NextFlow(c, states[m], actions[m]);
    }
  }

  lemma ReachedFlow(c: Config, store: Store, actions: seq<Action>, s: State)
    requires Reaches(c, store, actions, s)
    ensures Flow(c, s)
  {
    var states :| IsRun(c, store, actions, states) && states[|actions|] == s;
    EveryRunFlows(c, store, actions, states, |actions|);
  }

  ghost function Having(s: State, tag: Tag): set<nat> {
    set id | id in Tags(s) && Tags(s)[id] == tag
  }

  /** After every run, at most `maxConcurrency` calls to loaders and the live site are under way, and
      at most `maxQueue` jobs wait, only behind a full gate and only while the service is open. */
  lemma GateBounds(c: Config, store: Store, actions: seq<Action>, s: State)
    requires Reaches(c, store, actions, s)
    ensures |Having(s, Calls)| <= c.limits.concurrency && |Having(s, Waits)| <= c.limits.queue
    ensures Having(s, Waits) != {} ==> !s.closed && |s.gate.running| == c.limits.concurrency
  {
    ReachedFlow(c, store, actions, s);
    FlowBounds(c.limits, s.gate, s.nextJob, Tags(s), Having(s, Calls), Having(s, Waits));
  }

  lemma FlowBounds(limits: Limits, gate: Gate<nat>, next: nat, tags: map<nat, Tag>, calls: set<nat>, waits: set<nat>)
    requires GateOk(limits, gate, next, tags)
    requires forall id :: id in calls ==> id in tags && tags[id] == Calls
    requires forall id :: id in waits ==> id in tags && tags[id] == Waits
    ensures |calls| <= limits.concurrency && |waits| <= limits.queue
    ensures waits != {} ==> !gate.closed && |gate.running| == limits.concurrency
  {
    SubsetSize(calls, gate.running);
    AmongElements(waits, gate.queue);
  }

  lemma {:induction false} SubsetSize(a: set<nat>, b: set<nat>)
    requires a <= b
    ensures |a| <= |b|
    decreases a
  {
    if a != {} {
      var x :| x in a;
      SubsetSize(a - {x}, b - {x});
    }
  }

  lemma {:induction false} AmongElements(a: set<nat>, s: seq<nat>)
    requires forall x :: x in a ==> x in s
    ensures |a| <= |s|
    decreases |s|
  {
    if s != [] {
      AmongElements(a - {s[0]}, s[1..]);
      if s[0] in a { assert a == (a - {s[0]}) + {s[0]}; } else { assert a == a - {s[0]}; }
    } else {
      assert a == {};
    }
  }

  /** After every run, at most one live call per cache key is under way or waiting. */
  lemma SingleLiveCall(c: Config, store: Store, actions: seq<Action>, s: State, a: nat, b: nat)
    requires Reaches(c, store, actions, s)
    requires a in s.queryJobs && b in s.queryJobs && !s.queryJobs[a].phase.Settled? && !s.queryJobs[b].phase.Settled?
    requires FetchKey(s.queryJobs[a].work) == FetchKey(s.queryJobs[b].work)
    ensures a == b
  {
    ReachedFlow(c, store, actions, s);
    OnlyOne(s.queryFlights, s.queryJobs, FetchKey, a, b);
  }

  /** After every run, at most one identity load per site and principal is under way or waiting. */
  lemma SingleIdentityLoad(c: Config, store: Store, actions: seq<Action>, s: State, a: nat, b: nat)
    requires Reaches(c, store, actions, s)
    requires a in s.identityJobs && b in s.identityJobs && !s.identityJobs[a].phase.Settled?
      && !s.identityJobs[b].phase.Settled?
    requires s.identityJobs[a].work == s.identityJobs[b].work
    ensures a == b
  {
    ReachedFlow(c, store, actions, s);
    OnlyOne(s.identityFlights, s.identityJobs, LoginKey, a, b);
  }

  lemma OnlyOne<K(!new), W(!new), P(!new), R(!new)>(flights: map<K, nat>, jobs: map<nat, Job<W, P, R>>, keyOf: W -> K,
                                                    a: nat, b: nat)
    requires Registered(flights, jobs, keyOf) && a in jobs && b in jobs
    requires !jobs[a].phase.Settled? && !jobs[b].phase.Settled? && keyOf(jobs[a].work) == keyOf(jobs[b].work)
    ensures a == b
  {
  }

  // --------------------------------------------------------------------- after closing

  /** Closed, and no call that was not under way before. */
  ghost predicate NoNewCalls(s: State, s': State) {
    s'.closed && forall id :: id in Tags(s') && Tags(s')[id] == Calls ==> id in Tags(s) && Tags(s)[id] == Calls
  }

  lemma SameFlightsNoCalls(s: State, s': State)
    requires s.closed && SameFlights(s, s')
    ensures NoNewCalls(s, s')
  {
    assert Tags(s') == Tags(s);
  }

  lemma ClosedSubmit(c: Config, s: State, tags: map<nat, Tag>, id: nat, now: int)
    requires JobsOk(s) && id !in tags && Tags(s) == tags[id := Waits] && s.closed && s.gate.closed
    ensures SubmitJob(c, s, id, now).closed && Tags(SubmitJob(c, s, id, now)) == tags[id := Over]
  {
    SubmitJobs(c, s, tags, id, now);
  }

  lemma ClosedContinue(c: Config, s: State, reader: nat, now: int, start: int)
    requires Flow(c, s) && s.closed
    requires reader in s.readers && s.readers[reader].Resolving? && IdentityFor(s, s.readers[reader].source).Some?
    ensures NoNewCalls(s, Continue(c, s, reader, now, start))
  {
    var identity := IdentityFor(s, s.readers[reader].source).value;
    if identity.Err? {
      SameFlightsNoCalls(s, Continue(c, s, reader, now, start));
    } else {
      ClosedQuery(c, s, reader, s.readers[reader].ask, identity.value, now, start);
    }
  }

  lemma ClosedQuery(c: Config, s: State, reader: nat, ask: Ask, identity: Identity, now: int, start: int)
    requires Flow(c, s) && s.closed
    ensures NoNewCalls(s, Query(c, s, reader, ask, identity, now, start))
  {
    if NeedsQueryFlight(s, ask, identity, now) {
      QueryNew(c, s, reader, ask, identity, now, start);
      ClosedFlight(c, s, reader, ask, identity, Lookup(s.store.cache, identity, ask.signature),
        CacheKey(identity, ask.signature), start);
    } else {
      QueryOld(c, s, reader, ask, identity, now, start);
      ReadersFrame(s, Query(c, s, reader, ask, identity, now, start));
      SameFlightsNoCalls(s, Query(c, s, reader, ask, identity, now, start));
    }
  }

  lemma ClosedFlight(c: Config, s: State, reader: nat, ask: Ask, identity: Identity, cached: Option<Row>, key: string,
                     now: int)
    requires Flow(c, s) && s.closed && key !in s.queryFlights
    requires FetchKey(Fetch(identity, ask.signature, ask.ttl, ask.fallback, cached)) == key
    ensures NoNewCalls(s, SubmitJob(c, WithQueryFlight(s, reader, ask, identity, cached, key), s.nextJob, now))
  {
    var s1 := WithQueryFlight(s, reader, ask, identity, cached, key);
    assert s.nextJob !in Tags(s);
    assert JobsOk(s1) by {
      RegisteredAdded(s.queryFlights, s.queryJobs, FetchKey, s.nextJob, s1.queryJobs[s.nextJob]);
    }
    QueryFlightTags(s, reader, ask, identity, cached, key);
    ClosedSubmit(c, s1, Tags(s), s.nextJob, now);
  }

  lemma ClosedRelease(c: Config, s: State, id: nat, now: int)
    requires s.closed && s.gate.closed
    ensures NoNewCalls(s, Release(c, s, id, now))
  {
    assert Tags(Release(c, s, id, now)) == Tags(s);
  }

  lemma ClosedIdentity(c: Config, s: State, id: nat, answer: Result<Epoch, Failure>, now: int)
    requires s.closed && id in s.identityJobs && s.identityJobs[id].phase.Calling?
    ensures NoNewCalls(s, IdentityAnswered(c, s, id, answer, now))
  {
    var s' := IdentityAnswered(c, s, id, answer, now);
    IdentityAnsweredFrame(c, s, id, answer, now);
    IdentityTags(s, id, s'.identityJobs[id]);
    assert Tags(s') == Tags(s)[id := Over];
  }

  lemma ClosedLive(c: Config, s: State, id: nat, answer: Result<LiveRead, Failure>, now: int)
    requires s.closed && s.identityJobs.Keys !! s.queryJobs.Keys && id in s.queryJobs && s.queryJobs[id].phase.Calling?
    ensures NoNewCalls(s, LiveAnswered(c, s, id, answer, now))
  {
    var s' := LiveAnswered(c, s, id, answer, now);
    LiveAnsweredFrame(c, s, id, answer, now);
    QueryTags(s, id, s'.queryJobs[id]);
    assert Tags(s') == Tags(s)[id := Over];
  }

  /** A step of a closed service lets no job begin to call. */
  lemma ClosedStep(c: Config, s: State, a: Action)
    requires Flow(c, s) && s.closed && Enabled(s, a)
    ensures NoNewCalls(s, Next(c, s, a))
  {
    match a
    case DoContinue(reader, now, start) => ClosedContinue(c, s, reader, now, start);
    case DoRelease(id, now) => ClosedRelease(c, s, id, now);
    case DoIdentityAnswer(id, epoch, now) => ClosedIdentity(c, s, id, epoch, now);
    case DoLiveAnswer(id, live, now) => ClosedLive(c, s, id, live, now);
    case DoForget(id) => assert Tags(Forget(s, id)) == Tags(s);
    case DoInvalidate(input, permissionChanged) =>
    case _ => SameFlightsNoCalls(s, Next(c, s, a));
  }

  /** Once the service was closed, no job begins to call a loader or the live site. */
  lemma {:induction false} NoCallAfterClose(c: Config, store: Store, actions: seq<Action>, states: seq<State>,
                                            closedAt: nat)
    requires IsRun(c, store, actions, states) && closedAt < |actions| && actions[closedAt].DoClose?
    ensures states[|actions|].closed && Having(states[|actions|], Calls) <= Having(states[closedAt], Calls)
  {
    var first := closedAt + 1;
    RunStep(c, store, actions, states, closedAt);
    EveryRunFlows(c, store, actions, states, closedAt);
    CloseCalls(c, states[closedAt]);
    for m := first to |actions|
      invariant states[m].closed && Having(states[m], Calls) <= Having(states[closedAt], Calls)
    {
      RunStep(c, store, actions, states, m);
      EveryRunFlows(c, store, actions, states, m);
      ClosedStep(c, states[m], actions[m]);
    }
  }

  lemma CloseCalls(c: Config, s: State)
    requires Flow(c, s)
    ensures Close(s).closed && Having(Close(s), Calls) <= Having(s, Calls)
  {
    if !s.closed {
      var s1 := s.(closed := true, gate := Shut(s.gate));
      assert Tags(s1) == Tags(s);
      FailAllJobs(s1, s.gate.queue);
    }
  }
}
