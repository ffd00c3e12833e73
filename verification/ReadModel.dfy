/** The durable read model: cached answers, permission epochs, revisions, the object index, event
    receipts and consumed approvals. */
module ReadModel {
  import opened Text
  import opened Scopes

  /** Kept for the proofs only: how many invalidations had been made when the live call began,
      and the login that the live credential reported. */
  datatype Fetched = Fetched(start: nat, login: Login)

  datatype Row = Row(scope: Scope, value: string, observedAt: int, validUntil: int, refs: set<string>, fetched: Fetched)

  /** An entry offered to the cache; a time that is no ISO timestamp is None. */
  datatype Entry = Entry(
    cacheKey: string, identity: Identity, signature: string, value: string,
    observedAt: Option<int>, validUntil: Option<int>, refs: seq<string>, fetched: Fetched)

  /** `loadedAt` is kept for the proofs: the number of invalidations made when loading began. */
  datatype EpochRow = EpochRow(
    login: Login, epoch: string, components: map<string, string>, observedAt: int, validUntil: int, loadedAt: nat)

  datatype Revision = Revision(schemaRevision: string, dataRevision: string, observedAt: Option<int>)

  datatype ObjectKey = ObjectKey(site: string, kind: string, objectId: string)

  datatype IndexRecord = IndexRecord(
    key: ObjectKey, payload: string, revision: string, observedAt: Option<int>, validUntil: Option<int>, source: string)

  datatype EventMark = EventMark(site: string, revision: string, observedAt: Option<int>)

  datatype Approval = Approval(signature: string, consumedAt: string)

  datatype Store = Store(
    cache: map<string, Row>, epochs: map<Login, EpochRow>, revisions: map<string, Revision>,
    index: map<ObjectKey, IndexRecord>, receipts: map<string, EventMark>, approvals: map<string, Approval>)

  const EMPTY := Store(map[], map[], map[], map[], map[], map[])

  /** A durable store as a new service finds it: the counters kept for the proofs count the
      invalidations of that service's own run. */
  function Opened(store: Store): Store {
    store.(cache := map k | k in store.cache :: store.cache[k].(fetched := store.cache[k].fetched.(start := 0)),
           epochs := map l | l in store.epochs :: store.epochs[l].(loadedAt := 0))
  }

  // ---------------------------------------------------------- selecting cached answers

  const MAX_SELECTORS := 100

  /** An invalidation as it is asked for; an absent field is empty. */
  datatype Invalidation = Invalidation(
    site: string, principal: string, permissionEpoch: string, objectRefs: seq<string>, querySignatures: seq<string>)

  /** What an invalidation selects; None and the empty set select everything. */
  datatype Selectors = Selectors(
    site: string, principal: Option<string>, permissionEpoch: Option<string>, signatures: set<string>,
      refs: set<string>)

  /** Trimmed, without blanks, without repetitions. */
  function TrimmedRefs(refs: seq<string>): set<string> {
    set i | 0 <= i < |refs| && Trim(refs[i]) != "" :: Trim(refs[i])
  }

  function SignatureSet(signatures: seq<string>): set<string> {
    set i | 0 <= i < |signatures| && SignatureText(signatures[i]) != "" :: SignatureText(signatures[i])
  }

  /** The clauses of `invalidateCache`, or what it throws. */
  function SelectorsOf(input: Invalidation): Result<Selectors, Failure> {
    var site := StoreSite(input.site);
    if site.Err? then Err(site.error)
    else if |input.querySignatures| > MAX_SELECTORS then
      Err(Other("Frappe cache invalidation accepts at most 100 query signatures."))
    else if |input.objectRefs| > MAX_SELECTORS then
      Err(Other("Frappe cache invalidation accepts at most 100 object references."))
    else Ok(Selectors(
      site.value,
      if input.principal == "" then None else Some(PrincipalText(input.principal)),
      if input.permissionEpoch == "" then None else Some(input.permissionEpoch),
      SignatureSet(input.querySignatures), TrimmedRefs(input.objectRefs)))
  }

  predicate Matches(sel: Selectors, row: Row) {
    && row.scope.login.site == sel.site
    && (sel.principal.Some? ==> row.scope.login.principal == sel.principal.value)
    && (sel.permissionEpoch.Some? ==> row.scope.permissionEpoch == sel.permissionEpoch.value)
    && (sel.signatures != {} ==> row.scope.signature in sel.signatures)
    && (sel.refs != {} ==> !(row.refs !! sel.refs))
  }

  function Cleared(cache: map<string, Row>, sel: Selectors): map<string, Row> {
    map k | k in cache && !Matches(sel, cache[k]) :: cache[k]
  }

  function MatchCount(cache: map<string, Row>, sel: Selectors): nat {
    |set k | k in cache && Matches(sel, cache[k])|
  }

  // ------------------------------------------------------------------ the cache

  /** Every row is stored under the key of its own scope. */
  ghost predicate KeyedByScope(cache: map<string, Row>) {
    forall k {:trigger ScopeKey(cache[k].scope)} :: k in cache ==> k == ScopeKey(cache[k].scope)
  }

  /** `getCache`, for an identity whose site is not blank. */
  function Lookup(cache: map<string, Row>, identity: Identity, signature: string): Option<Row> {
    var key := CacheKey(identity, signature);
    if key in cache && cache[key].scope == ScopeOf(identity, signature) then Some(cache[key]) else None
  }

  function RowOf(entry: Entry): Row
    requires entry.observedAt.Some? && entry.validUntil.Some?
  {
    Row(ScopeOf(entry.identity, entry.signature), entry.value, entry.observedAt.value, entry.validUntil.value,
        TrimmedRefs(entry.refs), entry.fetched)
  }

  /** The upsert of `putCache`: a row already there keeps its scope columns. */
  function Upserted(cache: map<string, Row>, key: string, row: Row): map<string, Row> {
    cache[key := if key in cache then row.(scope := cache[key].scope) else row]
  }

  /** What `putCache` throws. */
  function PutRefusal(entry: Entry): Option<Failure> {
    if StoreSite(entry.identity.site).Err? then Some(StoreSite(entry.identity.site).error)
    else if entry.cacheKey != CacheKey(entry.identity, entry.signature)
    then Some(Other("Frappe cache entry key does not match its permission and revision scope."))
    else if entry.observedAt.None? then Some(Other("Frappe cache observedAt must be an ISO timestamp."))
    else if entry.validUntil.None? then Some(Other("Frappe cache validUntil must be an ISO timestamp."))
    else None
  }

  function Put(cache: map<string, Row>, entry: Entry): map<string, Row>
    requires PutRefusal(entry).None?
  {
    Upserted(cache, entry.cacheKey, RowOf(entry))
  }

  /** What was put is found under its scope, and every other scope finds what it found before. */
  lemma PutThenGet(cache: map<string, Row>, entry: Entry, identity: Identity, signature: string)
    requires KeyedByScope(cache) && PutRefusal(entry).None?
    ensures KeyedByScope(Put(cache, entry))
    ensures Lookup(Put(cache, entry), identity, signature) ==
            if ScopeOf(identity, signature) == ScopeOf(entry.identity, entry.signature) then Some(RowOf(entry))
            else Lookup(cache, identity, signature)
  {
    var scope := ScopeOf(entry.identity, entry.signature);
    assert Put(cache, entry)[entry.cacheKey] == RowOf(entry) by { PutStoresRow(cache, entry); }
    ScopeKeyInjective(ScopeOf(identity, signature), scope);
  }

  lemma PutStoresRow(cache: map<string, Row>, entry: Entry)
    requires KeyedByScope(cache) && PutRefusal(entry).None?
    ensures Put(cache, entry) == cache[ScopeKey(ScopeOf(entry.identity, entry.signature)) := RowOf(entry)]
  {
    if entry.cacheKey in cache {
      ScopeKeyInjective(cache[entry.cacheKey].scope, ScopeOf(entry.identity, entry.signature));
    }
  }

  /** `pruneCache`: rows whose validity ended at the cutoff or before go, of one site or of all. */
  function Pruned(cache: map<string, Row>, cutoff: int, site: Option<string>): map<string, Row> {
    map k | k in cache && !(cache[k].validUntil <= cutoff
      && (site.Some? ==> cache[k].scope.login.site == site.value)) :: cache[k]
  }

  // ------------------------------------------------------- epochs and revisions

  /** `getPermissionEpochState`, for a site that is not blank. */
  function EpochOf(epochs: map<Login, EpochRow>, site: string, principal: string): Option<EpochRow> {
    var login := Login(SiteText(site), PrincipalText(principal));
    if login in epochs then Some(epochs[login]) else None
  }

  /** `invalidatePermissionEpochs`; an empty principal selects every principal. */
  function EpochsWithout(epochs: map<Login, EpochRow>, site: string, principal: string): map<Login, EpochRow> {
    map l | l in epochs && !(l.site == SiteText(site)
      && (principal == "" || l.principal == PrincipalText(principal))) :: epochs[l]
  }

  // ------------------------------------------------------------------- events

  datatype Operation = Upsert | Delete | PermissionChanged | SchemaChanged | DataChanged

  datatype Expiry = Unset | Until(time: Option<int>)

  /** An absent kind, object or selector is empty. */
  datatype Event = Event(
    eventId: string, site: string, operation: Operation, kind: string, objectId: string, payload: Option<string>,
    revision: string, observedAt: Option<int>, validUntil: Expiry, principal: string, permissionEpoch: string,
    objectRefs: seq<string>, querySignatures: seq<string>)

  datatype EventReceipt = EventReceipt(eventId: string, applied: bool, duplicate: bool, invalidated: nat)

  /** The cache entries an event invalidates: all of its site unless it names selectors. */
  function EventInvalidation(e: Event): Invalidation {
    Invalidation(e.site, e.principal, e.permissionEpoch, e.objectRefs, e.querySignatures)
  }

  /** Milliseconds an indexed object from an event stays valid by default. */
  const EVENT_VALIDITY := 300000

  /** `indexRecordFromEvent`, or what it throws. */
  function RecordFromEvent(e: Event): Result<IndexRecord, Failure>
    requires e.payload.Some?
  {
    var site := StoreSite(e.site);
    if site.Err? then Err(site.error)
    else if e.validUntil.Unset? && e.observedAt.None? then Err(Other("Invalid time value"))
    else Ok(IndexRecord(
      ObjectKey(site.value, e.kind, e.objectId), e.payload.value, e.revision, e.observedAt,
      if e.validUntil.Unset? then Some(e.observedAt.value + EVENT_VALIDITY) else e.validUntil.time, "frappe_event"))
  }

  /** The index after an event's own object is stored or removed. */
  function IndexAfter(index: map<ObjectKey, IndexRecord>, e: Event): Result<map<ObjectKey, IndexRecord>, Failure> {
    match e.operation
    case Upsert =>
      if e.kind == "" || e.objectId == "" || e.payload.None? then
        Err(Other("Frappe upsert events require kind, objectId, and payload."))
      else
        var record := RecordFromEvent(e);
        if record.Err? then Err(record.error) else Ok(index[record.value.key := record.value])
    case Delete =>
      if e.kind == "" || e.objectId == "" then Err(Other("Frappe delete events require kind and objectId."))
      else Ok(index - {ObjectKey(e.site, e.kind, e.objectId)})
    case _ => Ok(index)
  }

  function RevisionAfter(revisions: map<string, Revision>, e: Event): Revision {
    var current := if e.site in revisions then revisions[e.site] else Revision("unindexed", "unindexed", e.observedAt);
    Revision(
      if e.operation != DataChanged then e.revision else current.schemaRevision,
      if e.operation == DataChanged then e.revision else current.dataRevision,
      e.observedAt)
  }

  /** Why an event that is no duplicate is refused. */
  function EventRefusal(e: Event): Option<Failure> {
    var index := IndexAfter(map[], e);
    if index.Err? then Some(index.error)
    else if SelectorsOf(EventInvalidation(e)).Err? then Some(SelectorsOf(EventInvalidation(e)).error)
    else None
  }

  lemma EventSite(e: Event)
    requires SelectorsOf(EventInvalidation(e)).Ok?
    ensures StoreSite(e.site).Ok?
  {
  }

  /** Whether an event is refused does not depend on the index. */
  lemma IndexRefusal(index: map<ObjectKey, IndexRecord>, e: Event)
    ensures IndexAfter(index, e).Err? ==> EventRefusal(e) == Some(IndexAfter(index, e).error)
    ensures IndexAfter(index, e).Ok? && SelectorsOf(EventInvalidation(e)).Err? ==>
      EventRefusal(e) == Some(SelectorsOf(EventInvalidation(e)).error)
    ensures IndexAfter(index, e).Ok? && SelectorsOf(EventInvalidation(e)).Ok? ==> EventRefusal(e).None?
  {
  }

  /** The store after an event that is neither refused nor a duplicate. */
  function Applied(s: Store, e: Event): Store
    requires EventRefusal(e).None?
  {
    Store(
      Cleared(s.cache, SelectorsOf(EventInvalidation(e)).value),
      if e.operation == PermissionChanged then EpochsWithout(s.epochs, e.site, e.principal) else s.epochs,
      s.revisions[e.site := RevisionAfter(s.revisions, e)],
      IndexAfter(s.index, e).value,
      s.receipts[e.eventId := EventMark(e.site, e.revision, e.observedAt)],
      s.approvals)
  }

  predicate TakesEffect(s: Store, e: Event) {
    e.eventId !in s.receipts && EventRefusal(e).None?
  }

  /** The store after `applyEvent`, whatever it answers. */
  function AfterEvent(s: Store, e: Event): Store {
    if TakesEffect(s, e) then Applied(s, e) else s
  }

  /** `applyEvent`'s answer. */
  function EventAnswer(s: Store, e: Event): Result<EventReceipt, Failure> {
    if e.eventId in s.receipts then Ok(EventReceipt(e.eventId, false, true, 0))
    else if EventRefusal(e).Some? then Err(EventRefusal(e).value)
    else Ok(EventReceipt(e.eventId, true, false, MatchCount(s.cache, SelectorsOf(EventInvalidation(e)).value)))
  }

  function AfterEvents(s: Store, events: seq<Event>): Store
    decreases |events|
  {
    if events == [] then s else AfterEvents(AfterEvent(s, events[0]), events[1..])
  }

  /** The first acceptable occurrence of each event that was not seen before. */
  function Firsts(seen: set<string>, events: seq<Event>): seq<Event>
    decreases |events|
  {
    if events == [] then []
    else if events[0].eventId in seen || EventRefusal(events[0]).Some? then Firsts(seen, events[1..])
    else [events[0]] + Firsts(seen + {events[0].eventId}, events[1..])
  }

  /** A log with repeated and refused events has the effect of its first acceptable occurrences. */
  lemma {:induction false} EventLogIdempotent(s: Store, events: seq<Event>)
    ensures AfterEvents(s, events) == AfterEvents(s, Firsts(s.receipts.Keys, events))
    decreases |events|
  {
    if events != [] {
      var s' := AfterEvent(s, events[0]);
      EventLogIdempotent(s', events[1..]);
      FirstsUnfold(s, events);
      AfterFirstOf(s, events[0], Firsts(s'.receipts.Keys, events[1..]));
    }
  }

  lemma AfterFirstOf(s: Store, e: Event, rest: seq<Event>)
    ensures AfterEvents(s, [e] + rest) == AfterEvents(AfterEvent(s, e), rest)
  {
    assert ([e] + rest)[1..] == rest;
  }

  lemma FirstsUnfold(s: Store, events: seq<Event>)
    requires events != []
    ensures var rest := Firsts(AfterEvent(s, events[0]).receipts.Keys, events[1..]);
      Firsts(s.receipts.Keys, events) == if TakesEffect(s, events[0]) then [events[0]] + rest else rest
  {
    if TakesEffect(s, events[0]) {
      assert Applied(s, events[0]).receipts.Keys == s.receipts.Keys + {events[0].eventId};
    }
  }

  /** Each of those occurrences takes effect where it stands. */
  lemma {:induction false} FirstsTakeEffect(s: Store, events: seq<Event>, n: nat)
    requires n < |Firsts(s.receipts.Keys, events)|
    ensures var firsts := Firsts(s.receipts.Keys, events);
      TakesEffect(AfterEvents(s, firsts[..n]), firsts[n])
    decreases |events|
  {
    var s' := AfterEvent(s, events[0]);
    FirstsUnfold(s, events);
    var rest := Firsts(s'.receipts.Keys, events[1..]);
    if !TakesEffect(s, events[0]) {
      FirstsTakeEffect(s', events[1..], n);
    } else if n > 0 {
      FirstsTakeEffect(s', events[1..], n - 1);
      AfterFirstOf(s, events[0], rest[..n - 1]);
      assert ([events[0]] + rest)[..n] == [events[0]] + rest[..n - 1];
    }
  }

  predicate Acceptable(e: Event, id: string) {
    e.eventId == id && EventRefusal(e).None?
  }

  lemma ReceiptAfter(s: Store, e: Event, id: string)
    ensures id in AfterEvent(s, e).receipts <==> id in s.receipts || Acceptable(e, id)
  {
  }

  /** The receipts afterwards: those before and every acceptable event. */
  lemma {:induction false} ReceiptsAfter(s: Store, events: seq<Event>, id: string)
    ensures id in AfterEvents(s, events).receipts <==>
      id in s.receipts || exists i :: 0 <= i < |events| && Acceptable(events[i], id)
    decreases |events|
  {
    if events != [] {
      ReceiptAfter(s, events[0], id);
      ReceiptsAfter(AfterEvent(s, events[0]), events[1..], id);
      SomeAcceptable(events, id);
    }
  }

  lemma SomeAcceptable(events: seq<Event>, id: string)
    requires events != []
    ensures (exists i :: 0 <= i < |events| && Acceptable(events[i], id))
      <==> Acceptable(events[0], id) || exists i :: 0 <= i < |events[1..]| && Acceptable(events[1..][i], id)
  {
    if i :| 0 <= i < |events| && Acceptable(events[i], id) {
      if i > 0 { assert events[1..][i - 1] == events[i]; }
    }
    if i :| 0 <= i < |events[1..]| && Acceptable(events[1..][i], id) { assert events[i + 1] == events[1..][i]; }
  }

  /** An event that took effect leaves no cached answer within its selectors, and all others as they were. */
  lemma EventClears(s: Store, e: Event, k: string)
    requires TakesEffect(s, e)
    ensures k in AfterEvent(s, e).cache <==>
      k in s.cache && !Matches(SelectorsOf(EventInvalidation(e)).value, s.cache[k])
    ensures k in AfterEvent(s, e).cache ==> AfterEvent(s, e).cache[k] == s.cache[k]
  {
  }

  /** After a permission change no epoch it names is left, and all others are as they were. */
  lemma EventDropsEpochs(s: Store, e: Event, l: Login)
    requires TakesEffect(s, e) && e.operation == PermissionChanged
    ensures l in AfterEvent(s, e).epochs <==>
      l in s.epochs && (l.site != SiteText(e.site) || (e.principal != "" && l.principal != PrincipalText(e.principal)))
    ensures l in AfterEvent(s, e).epochs ==> AfterEvent(s, e).epochs[l] == s.epochs[l]
  {
  }

  /** Deleting an object that an upsert for the same site, kind and object stored removes it exactly when
      the site was given in its normal form: an upsert files under the normal form, a delete does not. */
  lemma DeleteAfterUpsert(index: map<ObjectKey, IndexRecord>, up: Event, del: Event)
    requires up.operation == Upsert && del.operation == Delete && IndexAfter(index, up).Ok?
    requires del.site == up.site && del.kind == up.kind && del.objectId == up.objectId
    ensures IndexAfter(IndexAfter(index, up).value, del).Ok?
    ensures ObjectKey(SiteText(up.site), up.kind, up.objectId) !in IndexAfter(IndexAfter(index, up).value, del).value
      <==> up.site == SiteText(up.site)
  {
    assert ObjectKey(SiteText(up.site), up.kind, up.objectId) in IndexAfter(index, up).value;
  }

  /** The revision that the last of the events for the site gives it, of its data or of its schema. */
  function LastRevision(events: seq<Event>, site: string, data: bool, before: string): string {
    if events == [] then before
    else
      var e := events[|events| - 1];
      if e.site == site && (e.operation == DataChanged) == data then e.revision
      else LastRevision(events[..|events| - 1], site, data, before)
  }

  function RevisionBefore(s: Store, site: string): Revision {
    if site in s.revisions then s.revisions[site] else Revision("unindexed", "unindexed", None)
  }

  lemma {:induction false} AfterLast(s: Store, events: seq<Event>, e: Event)
    ensures AfterEvents(s, events + [e]) == AfterEvent(AfterEvents(s, events), e)
    decreases |events|
  {
    if events == [] {
      assert [] + [e] == [e];
    } else {
      assert (events + [e])[1..] == events[1..] + [e];
      AfterLast(AfterEvent(s, events[0]), events[1..], e);
    }
  }

  /** The revisions of a site follow its events. */
  ghost predicate RevisionsFollow(s: Store, events: seq<Event>, site: string, after: Store) {
    && (site in after.revisions <==> site in s.revisions || exists e :: e in events && e.site == site)
    && (site in after.revisions ==>
        && after.revisions[site].schemaRevision ==
             LastRevision(events, site, false, RevisionBefore(s, site).schemaRevision)
        && after.revisions[site].dataRevision == LastRevision(events, site, true, RevisionBefore(s, site).dataRevision))
  }

  /** What `getRevision` finds after any log of events: the revisions of the last ones that took effect for
      the site, of the data and of the schema apart; repeated and refused events do not count. */
  lemma RevisionsFollowTheLog(s: Store, events: seq<Event>, site: string)
    ensures RevisionsFollow(s, Firsts(s.receipts.Keys, events), site, AfterEvents(s, events))
  {
    var firsts := Firsts(s.receipts.Keys, events);
    EventLogIdempotent(s, events);
    forall n | 0 <= n < |firsts| ensures EffectiveAt(s, firsts, n) {
      FirstsTakeEffect(s, events, n);
    }
    EffectiveRevisions(s, firsts, site);
  }

  /** Each event takes effect where it stands. */
  ghost predicate Effective(s: Store, events: seq<Event>) {
    forall n :: 0 <= n < |events| ==> EffectiveAt(s, events, n)
  }

  ghost predicate EffectiveAt(s: Store, events: seq<Event>, n: nat)
    requires n < |events|
  {
    TakesEffect(AfterEvents(s, events[..n]), events[n])
  }

  lemma EffectivePrefix(s: Store, before: seq<Event>, e: Event)
    requires Effective(s, before + [e])
    ensures Effective(s, before) && TakesEffect(AfterEvents(s, before), e)
  {
    var events := before + [e];
    forall n | 0 <= n < |before| ensures EffectiveAt(s, before, n) {
      assert EffectiveAt(s, events, n) && before[..n] == events[..n];
    }
    assert EffectiveAt(s, events, |before|) && events[..|before|] == before;
  }

  lemma {:induction false} EffectiveRevisions(s: Store, events: seq<Event>, site: string)
    requires Effective(s, events)
    ensures RevisionsFollow(s, events, site, AfterEvents(s, events))
    decreases |events|
  {
    if events != [] {
      var before, e := events[..|events| - 1], events[|events| - 1];
      assert events == before + [e];
      EffectivePrefix(s, before, e);
      EffectiveRevisions(s, before, site);
      AfterLast(s, before, e);
      RevisionsNext(s, before, e, site, AfterEvents(s, before));
    }
  }

  lemma RevisionsNext(s: Store, before: seq<Event>, e: Event, site: string, reached: Store)
    requires RevisionsFollow(s, before, site, reached) && TakesEffect(reached, e)
    ensures RevisionsFollow(s, before + [e], site, AfterEvent(reached, e))
  {
    LastRevisionNext(before, e, site, false, RevisionBefore(s, site).schemaRevision);
    LastRevisionNext(before, e, site, true, RevisionBefore(s, site).dataRevision);
    assert e in before + [e] && forall x :: x in before + [e] ==> x in before || x == e;
    if site !in reached.revisions {
      NoneLast(before, site, false, "unindexed");
      NoneLast(before, site, true, "unindexed");
    }
  }

  lemma LastRevisionNext(before: seq<Event>, e: Event, site: string, data: bool, was: string)
    ensures LastRevision(before + [e], site, data, was)
         == if e.site == site && (e.operation == DataChanged) == data then e.revision
           else LastRevision(before, site, data, was)
  {
    assert (before + [e])[..|before|] == before;
  }

  lemma {:induction false} NoneLast(events: seq<Event>, site: string, data: bool, was: string)
    requires forall e :: e in events ==> e.site != site
    ensures LastRevision(events, site, data, was) == was
    decreases |events|
  {
    if events != [] { NoneLast(events[..|events| - 1], site, data, was); }
  }

  lemma AppliedTables(s: Store, e: Event, cache: map<string, Row>, epochs: map<Login, EpochRow>,
                      revisions: map<string, Revision>, index: map<ObjectKey, IndexRecord>,
                      receipts: map<string, EventMark>)
    requires EventRefusal(e).None? && IndexAfter(s.index, e) == Ok(index)
    requires cache == Cleared(s.cache, SelectorsOf(EventInvalidation(e)).value)
    requires epochs == if e.operation == PermissionChanged then EpochsWithout(s.epochs, e.site, e.principal)
      else s.epochs
    requires revisions == s.revisions[e.site := RevisionAfter(s.revisions, e)]
    requires receipts == s.receipts[e.eventId := EventMark(e.site, e.revision, e.observedAt)]
    ensures Applied(s, e) == Store(cache, epochs, revisions, index, receipts, s.approvals)
  {
  }

  // ------------------------------------------------------------------ snapshots

  function Indexed(index: map<ObjectKey, IndexRecord>, records: seq<IndexRecord>): map<ObjectKey, IndexRecord> {
    if records == [] then index
    else
      var r := records[|records| - 1];
      Indexed(index, records[..|records| - 1])[r.key := r]
  }

  /** A snapshot's records and revision, filed under its normalised site. */
  datatype Snapshot = Snapshot(site: string, records: seq<IndexRecord>, revision: Revision)

  function RevisionChanged(s: Store, snap: Snapshot): bool {
    var site := SiteText(snap.site);
    !(site in s.revisions && s.revisions[site].schemaRevision == snap.revision.schemaRevision
      && s.revisions[site].dataRevision == snap.revision.dataRevision)
  }

  function AfterSnapshot(s: Store, snap: Snapshot): Store {
    var kept := map k | k in s.index && k.site != snap.site :: s.index[k];
    s.(index := Indexed(kept, snap.records),
       revisions := s.revisions[SiteText(snap.site) := snap.revision],
       cache := if RevisionChanged(s, snap) then Cleared(s.cache, Selectors(SiteText(snap.site), None, None, {}, {}))
         else s.cache)
  }

  lemma {:induction false} IndexedKeys(index: map<ObjectKey, IndexRecord>, records: seq<IndexRecord>, key: ObjectKey)
    ensures key in Indexed(index, records) <==> key in index || exists i :: 0 <= i < |records| && records[i].key == key
    decreases |records|
  {
    if records != [] {
      IndexedKeys(index, records[..|records| - 1], key);
      assert records == records[..|records| - 1] + [records[|records| - 1]];
    }
  }

  /** After a snapshot the index holds just the snapshot's objects for its site, provided the site
      was given in its normal form or nothing else was indexed under the normal form. */
  lemma SnapshotReplaces(s: Store, snap: Snapshot)
    requires forall i :: 0 <= i < |snap.records| ==> snap.records[i].key.site == SiteText(snap.site)
    ensures (forall key :: key in AfterSnapshot(s, snap).index && key.site == SiteText(snap.site) ==>
               exists i :: 0 <= i < |snap.records| && snap.records[i].key == key)
      <==> snap.site == SiteText(snap.site)
           || forall key :: key in s.index && key.site == SiteText(snap.site) ==>
                exists i :: 0 <= i < |snap.records| && snap.records[i].key == key
  {
    var kept := map k | k in s.index && k.site != snap.site :: s.index[k];
    forall key ensures key in AfterSnapshot(s, snap).index <==>
      key in kept || exists i :: 0 <= i < |snap.records| && snap.records[i].key == key
    {
      IndexedKeys(kept, snap.records, key);
    }
  }

  // ------------------------------------------------------------------- the store

  /** The tables, with every operation as one all-or-nothing change. */
  class SqliteFrappeReadModel {
    var cache: map<string, Row>
    var epochs: map<Login, EpochRow>
    var revisions: map<string, Revision>
    var index: map<ObjectKey, IndexRecord>
    var receipts: map<string, EventMark>
    var approvals: map<string, Approval>

    function View(): Store
      reads this
    {
      Store(cache, epochs, revisions, index, receipts, approvals)
    }

    /** Opens a database: its tables are as they were left, and empty when it is new. */
    constructor (saved: Store)
      ensures View() == Opened(saved)
    {
      var tables := Opened(saved);
      cache, epochs, revisions, index, receipts, approvals :=
        tables.cache, tables.epochs, tables.revisions, tables.index, tables.receipts, tables.approvals;
    }

    method UpsertIndex(records: seq<IndexRecord>)
      modifies this`index
      ensures index == Indexed(old(index), records)
    {
      for n := 0 to |records|
        invariant index == Indexed(old(index), records[..n])
      {
        index := index[records[n].key := records[n]];
        assert records[..n + 1][..n] == records[..n];
      }
      assert records[..|records|] == records;
    }

    method DeleteIndex(site: string, kind: string, objectId: string)
      modifies this`index
      ensures index == old(index) - {ObjectKey(site, kind, objectId)}
    {
      index := index - {ObjectKey(site, kind, objectId)};
    }

    method PutPermissionEpoch(site: string, principal: string, epoch: string, components: map<string, string>,
                              observedAt: Option<int>, validUntil: Option<int>, loadedAt: nat)
      returns (r: Result<EpochRow, Failure>)
      modifies this`epochs
      ensures observedAt.Some? && validUntil.Some? && StoreSite(site).Ok? ==>
        && r == Ok(EpochRow(Login(SiteText(site), PrincipalText(principal)), epoch, components, observedAt.value,
             validUntil.value, loadedAt))
        && epochs == old(epochs)[r.value.login := r.value]
      ensures !(observedAt.Some? && validUntil.Some? && StoreSite(site).Ok?) ==> r.Err? && epochs == old(epochs)
    {
      if observedAt.None? { return Err(Other("Frappe permission epoch observedAt must be an ISO timestamp.")); }
      if validUntil.None? { return Err(Other("Frappe permission epoch validUntil must be an ISO timestamp.")); }
      var normalized := StoreSite(site);
      if normalized.Err? { return Err(normalized.error); }
      var row := EpochRow(Login(normalized.value, PrincipalText(principal)), epoch, components, observedAt.value,
        validUntil.value, loadedAt);
      UpsertEpoch(row);
      r := Ok(row);
    }

    method UpsertEpoch(row: EpochRow)
      modifies this`epochs
      ensures epochs == old(epochs)[row.login := row]
    {
      epochs := epochs[row.login := row];
    }

    method GetPermissionEpochState(site: string, principal: string) returns (r: Result<Option<EpochRow>, Failure>)
      ensures r == if StoreSite(site).Err? then Err(StoreSite(site).error) else Ok(EpochOf(epochs, site, principal))
    {
      var normalized := StoreSite(site);
      if normalized.Err? { return Err(normalized.error); }
      var login := Login(normalized.value, PrincipalText(principal));
      r := Ok(if login in epochs then Some(epochs[login]) else None);
    }

    method InvalidatePermissionEpochs(site: string, principal: string) returns (r: Result<nat, Failure>)
      modifies this`epochs
      ensures r.Ok? <==> StoreSite(site).Ok?
      ensures r.Ok? ==>
        && epochs == EpochsWithout(old(epochs), site, principal)
        && r.value == |old(epochs).Keys - epochs.Keys|
      ensures r.Err? ==> epochs == old(epochs)
    {
      var normalized := StoreSite(site);
      if normalized.Err? { return Err(normalized.error); }
      var kept := EpochsWithout(epochs, site, principal);
      r := Ok(|epochs.Keys - kept.Keys|);
      epochs := kept;
    }

    method GetRevision(site: string) returns (r: Option<Revision>)
      ensures r == if site in revisions then Some(revisions[site]) else None
    {
      r := if site in revisions then Some(revisions[site]) else None;
    }

    method SetRevision(site: string, revision: Revision)
      modifies this`revisions
      ensures revisions == old(revisions)[site := revision]
    {
      revisions := revisions[site := revision];
    }

    method PutCache(entry: Entry) returns (r: Result<Row, Failure>)
      modifies this`cache
      ensures PutRefusal(entry).None? ==> cache == Put(old(cache), entry) && r.Ok?
      ensures PutRefusal(entry).Some? ==> cache == old(cache) && r == Err(PutRefusal(entry).value)
    {
      var site := StoreSite(entry.identity.site);
      if site.Err? { return Err(site.error); }
      if entry.cacheKey != CacheKey(entry.identity, entry.signature) {
        return Err(Other("Frappe cache entry key does not match its permission and revision scope."));
      }
      if entry.observedAt.None? { return Err(Other("Frappe cache observedAt must be an ISO timestamp.")); }
      if entry.validUntil.None? { return Err(Other("Frappe cache validUntil must be an ISO timestamp.")); }
      UpsertRow(entry.cacheKey, RowOf(entry));
      r := Ok(cache[entry.cacheKey]);
    }

    /** The INSERT statement of `putCache`; on a conflict the scope columns stay. */
    method UpsertRow(key: string, row: Row)
      modifies this`cache
      ensures cache == Upserted(old(cache), key, row)
    {
      if key in cache {
        cache := cache[key := row.(scope := cache[key].scope)];
      } else {
        cache := cache[key := row];
      }
    }

    method GetCache(identity: Identity, signature: string) returns (r: Result<Option<Row>, Failure>)
      ensures r == if StoreSite(identity.site).Err? then Err(StoreSite(identity.site).error)
        else Ok(Lookup(cache, identity, signature))
    {
      var site := StoreSite(identity.site);
      if site.Err? { return Err(site.error); }
      var key := CacheKey(identity, signature);
      r := Ok(if key in cache && cache[key].scope == ScopeOf(identity, signature) then Some(cache[key]) else None);
    }

    method InvalidateCache(input: Invalidation) returns (r: Result<nat, Failure>)
      modifies this`cache
      ensures var sel := SelectorsOf(input);
        && (sel.Ok? ==> cache == Cleared(old(cache), sel.value) && r == Ok(MatchCount(old(cache), sel.value)))
        && (sel.Err? ==> cache == old(cache) && r == Err(sel.error))
    {
      var sel := SelectorsOf(input);
      if sel.Err? { return Err(sel.error); }
      var count := DeleteMatching(sel.value);
      r := Ok(count);
    }

    /** The DELETE statement of an invalidation. */
    method DeleteMatching(sel: Selectors) returns (count: nat)
      modifies this`cache
      ensures cache == Cleared(old(cache), sel) && count == MatchCount(old(cache), sel)
    {
      count := MatchCount(cache, sel);
      cache := Cleared(cache, sel);
    }

    method InvalidateSiteCache(site: string) returns (r: Result<nat, Failure>)
      modifies this`cache
      ensures var sel := Selectors(SiteText(site), None, None, {}, {});
        StoreSite(site).Ok? ==> cache == Cleared(old(cache), sel) && r == Ok(MatchCount(old(cache), sel))
      ensures StoreSite(site).Err? ==> cache == old(cache) && r == Err(StoreSite(site).error)
    {
      assert SignatureSet([]) == {} && TrimmedRefs([]) == {};
      r := InvalidateCache(Invalidation(site, "", "", [], []));
    }

    method PruneCache(expiredBefore: Option<int>, site: string) returns (r: Result<nat, Failure>)
      modifies this`cache
      ensures expiredBefore.Some? && (site == "" || StoreSite(site).Ok?) ==>
        && cache == Pruned(old(cache), expiredBefore.value, if site == "" then None else Some(SiteText(site)))
        && r == Ok(|old(cache).Keys - cache.Keys|)
      ensures !(expiredBefore.Some? && (site == "" || StoreSite(site).Ok?)) ==> r.Err? && cache == old(cache)
    {
      if expiredBefore.None? { return Err(Other("Frappe cache prune cutoff must be an ISO timestamp.")); }
      var normalized := if site == "" then Ok("") else StoreSite(site);
      if normalized.Err? { return Err(normalized.error); }
      var kept := Pruned(cache, expiredBefore.value, if site == "" then None else Some(normalized.value));
      r := Ok(|cache.Keys - kept.Keys|);
      cache := kept;
    }

    method Rollback(saved: Store)
      modifies this
      ensures View() == saved
    {
      cache, epochs, revisions, index, receipts, approvals :=
        saved.cache, saved.epochs, saved.revisions, saved.index, saved.receipts, saved.approvals;
    }

    /** One transaction: a duplicate or refused event leaves every table as it was. */
    method ApplyEvent(e: Event) returns (r: Result<EventReceipt, Failure>)
      modifies this
      ensures View() == AfterEvent(old(View()), e) && r == EventAnswer(old(View()), e)
    {
      var saved := View();
      if e.eventId in receipts { return Ok(EventReceipt(e.eventId, false, true, 0)); }
      var count := ApplyNewEvent(e);
      if count.Err? {
        Rollback(saved);
        return Err(count.error);
      }
      r := Ok(EventReceipt(e.eventId, true, false, count.value));
    }

    /** The statements of the transaction; after a refusal some may have been made. */
    method ApplyNewEvent(e: Event) returns (r: Result<nat, Failure>)
      modifies this
      ensures r.Err? ==> EventRefusal(e) == Some(r.error)
      ensures r.Ok? ==> EventRefusal(e).None? && View() == Applied(old(View()), e)
      ensures r.Ok? ==> r.value == MatchCount(old(cache), SelectorsOf(EventInvalidation(e)).value)
    {
      ghost var before := View();
      r := ChangeIndexAndCache(e);
      if r.Err? { return; }
      RecordEvent(e);
      AppliedTables(before, e, cache, epochs, revisions, index, receipts);
    }

    /** The event's object and the cached answers it invalidates. */
    method ChangeIndexAndCache(e: Event) returns (r: Result<nat, Failure>)
      modifies this`index, this`cache
      ensures r.Err? ==> EventRefusal(e) == Some(r.error)
      ensures r.Ok? ==> EventRefusal(e).None? && StoreSite(e.site).Ok? && SelectorsOf(EventInvalidation(e)).Ok?
      ensures r.Ok? ==> IndexAfter(old(index), e) == Ok(index)
      ensures r.Ok? ==> cache == Cleared(old(cache), SelectorsOf(EventInvalidation(e)).value)
      ensures r.Ok? ==> r.value == MatchCount(old(cache), SelectorsOf(EventInvalidation(e)).value)
    {
      IndexRefusal(index, e);
      var changed := ChangeIndex(e);
      if changed.Err? { return Err(changed.error); }
      r := InvalidateCache(EventInvalidation(e));
      if r.Ok? { EventSite(e); }
    }

    /** Epochs, revision and receipt. */
    method RecordEvent(e: Event)
      requires StoreSite(e.site).Ok?
      modifies this`epochs, this`revisions, this`receipts
      ensures epochs == if e.operation == PermissionChanged then EpochsWithout(old(epochs), e.site, e.principal)
        else old(epochs)
      ensures revisions == old(revisions)[e.site := RevisionAfter(old(revisions), e)]
      ensures receipts == old(receipts)[e.eventId := EventMark(e.site, e.revision, e.observedAt)]
    {
      if e.operation == PermissionChanged {
        var _ := InvalidatePermissionEpochs(e.site, e.principal);
      }
      SetRevision(e.site, RevisionAfter(revisions, e));
      receipts := receipts[e.eventId := EventMark(e.site, e.revision, e.observedAt)];
    }

    /** The event's own object. */
    method ChangeIndex(e: Event) returns (r: Result<(), Failure>)
      modifies this`index
      ensures var after := IndexAfter(old(index), e);
        && (after.Ok? ==> r.Ok? && index == after.value)
        && (after.Err? ==> r == Err(after.error) && index == old(index))
    {
      r := Ok(());
      match e.operation {
        case Upsert =>
          if e.kind == "" || e.objectId == "" || e.payload.None? {
            return Err(Other("Frappe upsert events require kind, objectId, and payload."));
          }
          var record := RecordFromEvent(e);
          if record.Err? { return Err(record.error); }
          UpsertIndex([record.value]);
        case Delete =>
          if e.kind == "" || e.objectId == "" { return Err(Other("Frappe delete events require kind and objectId.")); }
          DeleteIndex(e.site, e.kind, e.objectId);
        case _ =>
      }
    }

    method ReplaceSnapshot(snap: Snapshot) returns (r: Result<Revision, Failure>)
      modifies this
      ensures StoreSite(snap.site).Ok? ==> View() == AfterSnapshot(old(View()), snap) && r == Ok(snap.revision)
      ensures StoreSite(snap.site).Err? ==> View() == old(View()) && r.Err?
    {
      if StoreSite(snap.site).Err? { return Err(StoreSite(snap.site).error); }
      var previous := GetRevision(SiteText(snap.site));
      var changed := previous.None? || previous.value.schemaRevision != snap.revision.schemaRevision
        || previous.value.dataRevision != snap.revision.dataRevision;
      index := map k | k in index && k.site != snap.site :: index[k];
      UpsertIndex(snap.records);
      SetRevision(SiteText(snap.site), snap.revision);
      if changed { var _ := InvalidateSiteCache(snap.site); }
      r := Ok(snap.revision);
    }

    /** True for the first consumption of a proposal only; the first signature stays. */
    method ConsumeApproval(proposalId: string, signature: string, consumedAt: string) returns (first: bool)
      modifies this`approvals
      ensures first <==> proposalId !in old(approvals)
      ensures approvals == if first then old(approvals)[proposalId := Approval(signature, consumedAt)]
        else old(approvals)
    {
      first := proposalId !in approvals;
      if first { approvals := approvals[proposalId := Approval(signature, consumedAt)]; }
    }
  }
}
