/** Why the invalidation fence needs sites that normalising once makes stable. */
module ReadServiceSites {
  import opened Text
  import opened Scopes
  import opened ReadModel
  import opened Gate
  import opened ReadService
  import opened ReadServiceSafety

  /** Some cached answer was fetched by a call begun before an invalidation that matches it. */
  ghost predicate Breached(s: State) {
    exists k, i :: k in s.store.cache && 0 <= i < |s.log| && Matches(s.log[i].selectors, s.store.cache[k])
      && s.store.cache[k].fetched.start <= i
  }

  /** A read of one site, and its parts. */
  datatype Example = Example(raw: string, site: string, again: string, principal: string, signature: string)

  /** The site `raw` normalises to `site`, which normalises to `again`. */
  ghost predicate Unstable(x: Example) {
    && NormalizeSite(x.raw) == Ok(x.site) && x.again == SiteText(x.site) && x.again != x.site
    && NormalizePrincipal(x.principal) == Ok(x.principal)
    && SignatureText(x.signature) == x.signature && x.signature != "" && |x.signature| <= MAX_SIGNATURE
  }

  /** Every site that ends in two slashes is unstable. */
  lemma TwoSlashes(raw: string)
    requires NormalizeSite(raw).Ok? && |Trim(raw)| >= 2 && Trim(raw)[|Trim(raw)| - 2..] == "//"
    ensures SiteText(SiteText(raw)) != SiteText(raw)
  {
    var t := Trim(raw);
    var u := StripSlash(t);
    assert t[|t| - 1] == t[|t| - 2..][1] && u[|u| - 1] == t[|t| - 2..][0];
    assert SiteText(raw)[|u| - 1] == LowerChar('/');
    SiteTextStable(raw);
  }

  /** A site that vanishes: another name of it, which normalises otherwise the first time. */
  function OtherName(site: string): string {
    if site == "/" then "/ /" else "//"
  }

  lemma OtherNameVanishes(site: string)
    ensures NormalizeSite(OtherName(site)).Ok? && SiteText(OtherName(site)) != site
    ensures SiteText(SiteText(OtherName(site))) == ""
  {
    TrimIdempotent("/ /");
    TrimIdempotent("//");
    TrimIdempotent("/");
    TrimPadded("", "/", " ");
    assert "/ /"[..2] == "/ " && "//"[..1] == "/" && "/"[..0] == "";
    assert "" + "/" + " " == "/ ";
    assert Lower("/ ") == "/ " && Lower("/") == "/";
  }

  function ExampleAsk(x: Example): Ask {
    Ask(Login(x.site, x.principal), x.signature, None, NoFallback)
  }

  function ExampleIdentity(x: Example): Identity {
    Identity(x.site, x.principal, "e", "live", "live")
  }

  function ExampleEvent(x: Example): Event {
    Event("1", x.site, DataChanged, "", "", None, "r", None, Unset, "", "", [], [])
  }

  /** The identity flight is calling the loader. */
  ghost predicate AfterRead(x: Example, s: State) {
    && s.store == EMPTY && s.gate.running == {0} && s.gate.queue == [] && !s.gate.closed && !s.closed
    && s.identityJobs == map[0 := Job(Login(x.site, x.principal), 0, 0, Calling(0, None))]
    && s.queryFlights == map[] && s.queryJobs == map[] && s.versions == map[] && s.log == [] && s.nextJob == 1
    && s.readers == map[0 := Resolving(ExampleAsk(x), Flight(0))]
  }

  function ExampleRequest(x: Example): Request {
    Request(x.raw, x.principal, x.signature, None, NoFallback)
  }

  lemma ExampleAsked(x: Example)
    requires Unstable(x)
    ensures AskOf(ExampleRequest(x)) == Ok(ExampleAsk(x))
  {
  }

  lemma NothingPruned(c: Config, site: string)
    ensures MaybePrune(c, Initial(EMPTY), site, 0) == Initial(EMPTY).(prunedAt := map[site := 0])
  {
    assert Pruned(map[], 0 - c.maxStale, Some(SiteText(site))) == map[];
  }

  lemma FirstFlight(c: Config, x: Example, s: State)
    requires ValidConfig(c) && s == Initial(EMPTY).(prunedAt := s.prunedAt)
    ensures AfterRead(x, Resolve(c, s, 0, ExampleAsk(x), 0, 0))
  {
    var s1 := WithIdentityFlight(s, 0, ExampleAsk(x));
    assert Resolve(c, s, 0, ExampleAsk(x), 0, 0) == SubmitJob(c, s1, 0, 0);
    assert IdentityBegins(EMPTY, 0, Login(x.site, x.principal), 0) == Calling(0, None);
  }

  lemma ReadStep(c: Config, x: Example)
    requires ValidConfig(c) && Unstable(x)
    ensures AfterRead(x, Read(c, Initial(EMPTY), 0, ExampleRequest(x), Times(0, 0, 0)))
  {
    ExampleAsked(x);
    NothingPruned(c, x.site);
    FirstFlight(c, x, Initial(EMPTY).(prunedAt := map[x.site := 0]));
  }

  /** The identity is known; its job still holds its slot. */
  ghost predicate AfterIdentity(x: Example, s: State) {
    && s.store.cache == map[] && s.store.receipts == map[] && s.gate.running == {0} && s.gate.queue == []
    && !s.gate.closed && !s.closed
    && 0 in s.identityJobs && s.identityJobs[0].phase.Settled?
    && s.identityJobs[0].phase.result == Ok(ExampleIdentity(x))
    && s.identityJobs.Keys == {0}
    && s.queryFlights == map[] && s.queryJobs == map[] && s.versions == map[] && s.log == [] && s.nextJob == 1
    && s.readers == map[0 := Resolving(ExampleAsk(x), Flight(0))]
  }

  function ExampleEpoch(x: Example): Epoch {
    Epoch(x.raw, x.principal, "e", map[])
  }

  lemma ExampleLoaded(x: Example)
    requires Unstable(x)
    ensures EpochRefusal(ExampleEpoch(x), Login(x.site, x.principal)).None?
    ensures CacheIdentity(map[], x.raw, x.principal, "e") == Ok(ExampleIdentity(x))
  {
    TrimIdempotent("e");
  }

  lemma ExampleAccepted(c: Config, x: Example, s: State)
    requires AfterRead(x, s) && CacheIdentity(map[], x.raw, x.principal, "e") == Ok(ExampleIdentity(x))
    ensures AfterIdentity(x, EpochAccepted(c, s, 0, ExampleEpoch(x), 0))
  {
  }

  lemma IdentityStep(c: Config, x: Example, s: State)
    requires Unstable(x) && AfterRead(x, s)
    ensures AfterIdentity(x, IdentityAnswered(c, s, 0, Ok(ExampleEpoch(x)), 0))
  {
    ExampleLoaded(x);
    assert LoadedEpoch(s.versions, s.identityJobs[0], Ok(ExampleEpoch(x))) == Ok(ExampleEpoch(x));
    ExampleAccepted(c, x, s);
  }

  lemma ReleaseStep(c: Config, x: Example, s: State)
    requires AfterIdentity(x, s)
    ensures var s' := Release(c, s, 0, 0);
      AfterIdentity(x, s'.(gate := s.gate)) && s'.gate.running == {} && !s'.gate.closed
  {
  }

  /** The query flight is calling the live site; it captured the version of `site`. */
  ghost predicate AfterQuery(x: Example, s: State) {
    && s.store.cache == map[] && s.store.receipts == map[] && !s.closed && s.versions == map[] && s.log == []
    && 1 in s.queryJobs
    && s.queryJobs[1] == Job(Fetch(ExampleIdentity(x), x.signature, None, NoFallback, None), 0, 0, Calling(0, None))
  }

  lemma FirstQuery(c: Config, s1: State, work: Fetch)
    requires ValidConfig(c) && s1.gate.running == {} && !s1.gate.closed && s1.store.cache == map[]
      && 1 !in s1.identityJobs
    requires s1.queryJobs == map[1 := Job(work, 0, 0, Waiting)] && work.stale == None && s1.log == []
    ensures var s := SubmitJob(c, s1, 1, 0);
      && s.store == s1.store && s.closed == s1.closed && s.versions == s1.versions && s.log == s1.log
      && s.queryJobs == map[1 := Job(work, 0, 0, Calling(0, None))]
  {
    assert Admit(c.limits, s1.gate, 1).1 == Started;
    assert s1.queryJobs[1 := Job(work, 0, 0, Calling(0, None))] == map[1 := Job(work, 0, 0, Calling(0, None))];
    FirstStart(s1.(gate := Admit(c.limits, s1.gate, 1).0), work);
  }

  lemma {:induction false} FirstStart(s: State, work: Fetch)
    requires s.store.cache == map[] && 1 !in s.identityJobs && s.log == [] && 1 in s.queryJobs
    requires s.queryJobs[1] == Job(work, 0, 0, Waiting) && work.stale == None
    ensures StartJob(s, 1, 0) == s.(queryJobs := s.queryJobs[1 := Job(work, 0, 0, Calling(0, None))])
  {
    FirstBegins(s.store, work);
  }

  lemma FirstBegins(store: Store, work: Fetch)
    requires store.cache == map[] && work.stale == None
    ensures QueryBegins(store, 0, work, 0) == Calling(0, None)
  {
  }

  lemma QueryStep(c: Config, x: Example, s: State, gate: Gate<nat>)
    requires ValidConfig(c) && AfterIdentity(x, s.(gate := gate)) && s.gate.running == {} && !s.gate.closed
    ensures AfterQuery(x, Continue(c, s, 0, 0, 0))
  {
    var key := CacheKey(ExampleIdentity(x), x.signature);
    assert Lookup(s.store.cache, ExampleIdentity(x), x.signature) == None;
    var s1 := WithQueryFlight(s, 0, ExampleAsk(x), ExampleIdentity(x), None, key);
    FirstQuery(c, s1, Fetch(ExampleIdentity(x), x.signature, None, NoFallback, None));
    assert Query(c, s, 0, ExampleAsk(x), ExampleIdentity(x), 0, 0) == SubmitJob(c, s1, 1, 0);
  }

  /** The change moved on the version of another site than `site`, and selected the rows of `again`. */
  ghost predicate AfterChange(x: Example, s: State) {
    && s.store.cache == map[] && VersionIn(s.versions, x.site) == 0
    && s.log == [Logged(Selectors(x.again, None, None, {}, {}), false)]
    && 1 in s.queryJobs
    && s.queryJobs[1] == Job(Fetch(ExampleIdentity(x), x.signature, None, NoFallback, None), 0, 0, Calling(0, None))
  }

  lemma ExampleSelectors(x: Example)
    requires Unstable(x) && x.again != ""
    ensures SelectorsOf(EventInvalidation(ExampleEvent(x))) == Ok(Selectors(x.again, None, None, {}, {}))
  {
    NormalizedNotBlank(x.raw);
    assert SignatureSet([]) == {} && TrimmedRefs([]) == {};
  }

  lemma ExampleNotRefused(x: Example)
    requires SelectorsOf(EventInvalidation(ExampleEvent(x))).Ok?
    ensures EventRefusal(ExampleEvent(x)).None?
  {
  }

  /** An event for `site` moves on the version of `again` only. */
  lemma EventStep(x: Example, s: State)
    requires Unstable(x) && x.again != "" && AfterQuery(x, s)
    ensures AfterChange(x, ApplyEvent(s, ExampleEvent(x)))
  {
    ExampleSelectors(x);
    ExampleNotRefused(x);
    ExampleApplied(x, s);
  }

  lemma ExampleApplied(x: Example, s: State)
    requires AfterQuery(x, s) && NormalizeSite(x.site) == Ok(x.again) && x.again != x.site
    requires SelectorsOf(EventInvalidation(ExampleEvent(x))) == Ok(Selectors(x.again, None, None, {}, {}))
    requires EventRefusal(ExampleEvent(x)).None?
    ensures AfterChange(x, ApplyEvent(s, ExampleEvent(x)))
  {
    assert TakesEffect(s.store, ExampleEvent(x));
    assert Cleared(map[], Selectors(x.again, None, None, {}, {})) == map[];
  }

  function ExampleInvalidation(name: string): Invalidation {
    Invalidation(name, "", "", [], [])
  }

  lemma OtherNameSelectors(site: string)
    ensures NormalizedInvalidation(ExampleInvalidation(OtherName(site))) ==
      Ok(ExampleInvalidation(SiteText(OtherName(site))))
    ensures SelectorsOf(ExampleInvalidation(SiteText(OtherName(site)))) == Ok(Selectors("", None, None, {}, {}))
  {
    OtherNameVanishes(site);
    NormalizedNotBlank(OtherName(site));
    assert SignatureSet([]) == {} && TrimmedRefs([]) == {};
  }

  /** When nothing is left of the site, an invalidation of its other name moves on that name's version only. */
  lemma InvalidateStep(x: Example, s: State)
    requires Unstable(x) && x.again == "" && AfterQuery(x, s)
    ensures AfterChange(x, Invalidate(s, ExampleInvalidation(OtherName(x.site)), false))
  {
    OtherNameVanishes(x.site);
    OtherNameSelectors(x.site);
    assert Cleared(map[], Selectors("", None, None, {}, {})) == map[];
  }

  lemma LiveStep(c: Config, x: Example, s: State)
    requires ValidConfig(c) && Unstable(x) && AfterChange(x, s)
    ensures Breached(LiveAnswered(c, s, 1, Ok(LiveRead(x.raw, x.principal, "v", [])), 0))
  {
    var live := LiveRead(x.raw, x.principal, "v", []);
    assert LiveTtl(c, s.versions, s.queryJobs[1], live).Ok?;
    var ttl := LiveTtl(c, s.versions, s.queryJobs[1], live).value;
    var row := LiveRow(s.queryJobs[1], live, 0, ttl);
    var s' := LiveAnswered(c, s, 1, Ok(live), 0);
    assert s'.store.cache == Upserted(map[], ScopeKey(row.scope), row);
    assert row.scope.login.site == x.again && s'.log == s.log;
    assert Matches(s.log[0].selectors, s'.store.cache[ScopeKey(row.scope)]);
  }

  lemma NothingOpened()
    ensures Opened(EMPTY) == EMPTY
  {
  }

  lemma RunReads(c: Config, x: Example) returns (actions: seq<Action>, s: State)
    requires ValidConfig(c) && Unstable(x)
    ensures Reaches(c, EMPTY, actions, s) && AfterRead(x, s)
  {
    var a := DoRead(0, ExampleRequest(x), Times(0, 0, 0));
    NothingOpened();
    ReachesStart(c, EMPTY);
    ReachesNext(c, EMPTY, [], Initial(EMPTY), a);
    ReadStep(c, x);
    actions, s := [] + [a], Next(c, Initial(EMPTY), a);
  }

  lemma RunIdentifies(c: Config, x: Example, actions: seq<Action>, s: State) returns (actions': seq<Action>, s': State)
    requires ValidConfig(c) && Unstable(x) && Reaches(c, EMPTY, actions, s) && AfterRead(x, s)
    ensures Reaches(c, EMPTY, actions', s') && AfterIdentity(x, s')
  {
    var a := DoIdentityAnswer(0, Ok(ExampleEpoch(x)), 0);
    ReachesNext(c, EMPTY, actions, s, a);
    IdentityStep(c, x, s);
    actions', s' := actions + [a], Next(c, s, a);
  }

  lemma RunReleases(c: Config, x: Example, actions: seq<Action>, s: State) returns (actions': seq<Action>, s': State)
    requires Reaches(c, EMPTY, actions, s) && AfterIdentity(x, s)
    ensures Reaches(c, EMPTY, actions', s') && AfterIdentity(x, s'.(gate := s.gate)) && s'.gate.running == {}
      && !s'.gate.closed
  {
    ReachesNext(c, EMPTY, actions, s, DoRelease(0, 0));
    ReleaseStep(c, x, s);
    actions', s' := actions + [DoRelease(0, 0)], Next(c, s, DoRelease(0, 0));
  }

  lemma RunQueries(c: Config, x: Example, actions: seq<Action>, s: State, gate: Gate<nat>)
    returns (actions': seq<Action>, s': State)
    requires ValidConfig(c) && Reaches(c, EMPTY, actions, s) && AfterIdentity(x, s.(gate := gate))
      && s.gate.running == {} && !s.gate.closed
    ensures Reaches(c, EMPTY, actions', s') && AfterQuery(x, s')
  {
    ReachesNext(c, EMPTY, actions, s, DoContinue(0, 0, 0));
    QueryStep(c, x, s, gate);
    actions', s' := actions + [DoContinue(0, 0, 0)], Next(c, s, DoContinue(0, 0, 0));
  }

  lemma RunChanges(c: Config, x: Example, actions: seq<Action>, s: State) returns (actions': seq<Action>, s': State)
    requires Unstable(x) && Reaches(c, EMPTY, actions, s) && AfterQuery(x, s)
    ensures Reaches(c, EMPTY, actions', s') && AfterChange(x, s')
  {
    var a := if x.again == "" then DoInvalidate(ExampleInvalidation(OtherName(x.site)), false)
      else DoEvent(ExampleEvent(x));
    ReachesNext(c, EMPTY, actions, s, a);
    if x.again == "" { InvalidateStep(x, s); } else { EventStep(x, s); }
    actions', s' := actions + [a], Next(c, s, a);
  }

  lemma RunStores(c: Config, x: Example, actions: seq<Action>, s: State) returns (actions': seq<Action>, s': State)
    requires ValidConfig(c) && Unstable(x) && Reaches(c, EMPTY, actions, s) && AfterChange(x, s)
    ensures Reaches(c, EMPTY, actions', s') && Breached(s')
  {
    var a := DoLiveAnswer(1, Ok(LiveRead(x.raw, x.principal, "v", [])), 0);
    ReachesNext(c, EMPTY, actions, s, a);
    LiveStep(c, x, s);
    actions', s' := actions + [a], Next(c, s, a);
  }

  /** For every site that a second normalisation changes, some run breaks the fence: the flight
      watches the version of the site normalised once, the cache files its answer under the site
      normalised twice. */
  lemma UnstableSiteBreaksFence(c: Config, x: Example) returns (actions: seq<Action>, s: State)
    requires ValidConfig(c) && Unstable(x)
    ensures Reaches(c, EMPTY, actions, s) && Breached(s)
  {
    actions, s := RunReads(c, x);
    actions, s := RunIdentifies(c, x, actions, s);
    var gate := s.gate;
    actions, s := RunReleases(c, x, actions, s);
    actions, s := RunQueries(c, x, actions, s, gate);
    actions, s := RunChanges(c, x, actions, s);
    actions, s := RunStores(c, x, actions, s);
  }

  /** While sites are stable, no run over any sound store breaks it. */
  lemma StableSitesKeepFence(c: Config, store: Store, actions: seq<Action>, s: State)
    requires Sound(store) && Reaches(c, store, actions, s) && Stable(actions)
    ensures !Breached(s)
  {
    forall k, i | k in s.store.cache && 0 <= i < |s.log| && Matches(s.log[i].selectors, s.store.cache[k])
      ensures i < s.store.cache[k].fetched.start
    {
      InvalidationFence(c, store, actions, s, i);
    }
  }
}
