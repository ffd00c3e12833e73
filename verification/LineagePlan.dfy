/** The remediation plan: every finding is answered once, and the updates that are kept do not interfere. */
module LineagePlan {
  import opened Text
  import opened Json
  import opened Paths
  import opened LineageRemediation
  import opened LineageRepair
  import L = Lineage

  // ------------------------------------------------------------ reading and proposing

  lemma {:induction false} ReadAppend(cursors: seq<Json>, segments: seq<string>, last: string)
    ensures var before := ReadSegments(cursors, segments);
      ReadSegments(cursors, segments + [last]) ==
      if before.None? || (exists i :: 0 <= i < |before.value| && NotAList(before.value[i], last)) then None
      else Some(ExpandAll(before.value, last))
    decreases |segments|
  {
    if segments == [] {
      assert ([] + [last])[1..] == [];
    } else {
      assert (segments + [last])[1..] == segments[1..] + [last];
      ReadAppend(ExpandAll(cursors, segments[0]), segments[1..], last);
    }
  }

  lemma {:induction false} ReadPrefixFails(cursors: seq<Json>, segments: seq<string>, n: nat)
    requires n <= |segments| && ReadSegments(cursors, segments[..n]).None?
    ensures ReadSegments(cursors, segments).None?
    decreases |segments|
  {
    if n > 0 && !(exists i :: 0 <= i < |cursors| && NotAList(cursors[i], segments[0])) {
      assert segments[..n][1..] == segments[1..][..n - 1];
      ReadPrefixFails(ExpandAll(cursors, segments[0]), segments[1..], n - 1);
    }
  }

  /** `readPath`. */
  method ReadPathOf(values: seq<Member>, path: string) returns (r: Reading)
    ensures r == ReadPath(values, path)
  {
    var cursors := [Obj(values)];
    var many := false;
    var segments := SplitDots(path);
    for n := 0 to |segments|
      invariant many <==> exists i :: 0 <= i < n && IsMany(segments[i])
      invariant ReadSegments([Obj(values)], segments[..n]) == Some(cursors)
    {
      ReadAppend([Obj(values)], segments[..n], segments[n]);
      assert segments[..n + 1] == segments[..n] + [segments[n]];
      many := many || IsMany(segments[n]);
      if exists i :: 0 <= i < |cursors| && NotAList(cursors[i], segments[n]) {
        ReadPrefixFails([Obj(values)], segments, n + 1);
        return Reading(true, Undefined);
      }
      cursors := ExpandAll(cursors, segments[n]);
    }
    assert segments[..|segments|] == segments;
    r := if many then Reading(true, Arr(cursors)) else Reading(false, if |cursors| == 1 then cursors[0] else Undefined);
  }

  lemma {:induction false} PlainPrefixFails(fields: seq<L.FieldMap>, source: L.Document, n: nat)
    requires n <= |fields| && PlainChanges(fields[..n], source).None?
    ensures PlainChanges(fields, source).None?
    decreases |fields|
  {
    if n == |fields| {
      assert fields[..n] == fields;
    } else {
      assert fields[..|fields| - 1][..n] == fields[..n];
      PlainPrefixFails(fields[..|fields| - 1], source, n);
    }
  }

  lemma {:induction false} CollectedPrefixFails(roots: seq<string>, changeOf: string -> Option<Change>, n: nat)
    requires n <= |roots| && Collected(roots[..n], changeOf).None?
    ensures Collected(roots, changeOf).None?
    decreases |roots|
  {
    if n == |roots| {
      assert roots[..n] == roots;
    } else {
      assert roots[..|roots| - 1][..n] == roots[..n];
      CollectedPrefixFails(roots[..|roots| - 1], changeOf, n);
    }
  }

  method CollectPlain(fields: seq<L.FieldMap>, source: L.Document) returns (r: Option<seq<Change>>)
    ensures r == PlainChanges(fields, source)
  {
    var changes: seq<Change> := [];
    for n := 0 to |fields|
      invariant PlainChanges(fields[..n], source) == Some(changes)
    {
      assert fields[..n + 1][..n] == fields[..n];
      if !IsPlain(fields[n].to) { continue; }
      var expected := ReadPathOf(source.values, fields[n].from);
      if expected.many || !IsScalar(expected.value) {
        PlainPrefixFails(fields, source, n + 1);
        return None;
      }
      changes := changes + [Change(fields[n].to, expected.value)];
    }
    assert fields[..|fields|] == fields;
    r := Some(changes);
  }

  method CollectTables(roots: seq<string>, changeOf: string -> Option<Change>) returns (r: Option<seq<Change>>)
    ensures r == Collected(roots, changeOf)
  {
    var changes: seq<Change> := [];
    for n := 0 to |roots|
      invariant Collected(roots[..n], changeOf) == Some(changes)
    {
      assert roots[..n + 1][..n] == roots[..n];
      var change := changeOf(roots[n]);
      if change.None? {
        CollectedPrefixFails(roots, changeOf, n + 1);
        return None;
      }
      changes := changes + [change.value];
    }
    assert roots[..|roots|] == roots;
    r := Some(changes);
  }

  /** `proposeAction`. */
  method ProposeAction(managed: set<string>, r: L.Relationship, finding: L.Finding, source: L.Document,
                       target: L.Document)
    returns (result: Result<seq<Change>, Code>)
    ensures result == Propose(managed, r, finding, source, target)
  {
    var fields := r.revision + r.content;
    var eligible := Eligible(finding, fields);
    if exists i :: 0 <= i < |eligible| && ParseTarget(eligible[i].to).None? { return Err(UnsupportedPath); }
    if exists i :: 0 <= i < |eligible| && IsManaged(managed, eligible[i].to) { return Err(UnsafeSystemField); }
    var plain := CollectPlain(eligible, source);
    if plain.None? { return Err(UnsupportedPath); }
    var tables := CollectTables(SortedKeys(ChildRoots(eligible)),
      root => TableChange(managed, fields, source, target, root));
    if tables.None? { return Err(AmbiguousChildRows); }
    var changes := plain.value + tables.value;
    if Clash(changes) { return Err(Thrown); }
    result := if changes == [] then Err(NoSafeChange) else Ok(Unique(changes));
  }

  // ------------------------------------------------------------- answering findings

  datatype Action = Action(relationshipId: string, source: L.Ref, target: L.Ref, modified: string, changes: seq<Change>)

  datatype Refusal = Refusal(relationshipId: string, source: L.Ref, target: Option<L.Ref>, code: Code)

  datatype Answer = Proposed(action: Action) | Refused(refusal: Refusal) | Throws

  type Documents = map<L.Ref, L.Document>

  /** What a finding is answered with. */
  function AnswerOf(managed: set<string>, relationships: map<string, L.Relationship>, docs: Documents,
                    f: L.Finding): Answer {
    if f.relationshipId !in relationships then Throws
    else
      var r := relationships[f.relationshipId];
      var source := if f.from in docs then Some(docs[f.from]) else None;
      var target := if f.to.Some? && f.to.value in docs then Some(docs[f.to.value]) else None;
      var refused := RefuseUnsafe(f, source, target, r);
      if refused.Some? || source.None? || target.None? then
        Refused(Refusal(f.relationshipId, f.from, f.to, if refused.Some? then refused.value else MissingRecord))
      else
        match Propose(managed, r, f, source.value, target.value)
        case Ok(changes) => Proposed(Action(f.relationshipId, f.from, f.to.value, target.value.modified, changes))
        case Err(code) => if code == Thrown then Throws else Refused(Refusal(f.relationshipId, f.from, f.to, code))
  }

  type Answerer = L.Finding -> Answer

  function ProposedBy(answer: Answerer, findings: seq<L.Finding>): seq<Action>
    decreases |findings|
  {
    if findings == [] then []
    else
      var n := |findings| - 1;
      var before := ProposedBy(answer, findings[..n]);
      if findings[n].status != L.Current && answer(findings[n]).Proposed? then before + [answer(findings[n]).action]
        else before
  }

  function RefusedBy(answer: Answerer, findings: seq<L.Finding>): seq<Refusal>
    decreases |findings|
  {
    if findings == [] then []
    else
      var n := |findings| - 1;
      var before := RefusedBy(answer, findings[..n]);
      if findings[n].status != L.Current && answer(findings[n]).Refused? then before + [answer(findings[n]).refusal]
        else before
  }

  predicate ThrowsOn(answer: Answerer, findings: seq<L.Finding>) {
    exists i :: 0 <= i < |findings| && findings[i].status != L.Current && answer(findings[i]).Throws?
  }

  // ---------------------------------------------------------------- conflicts

  /** Another value is proposed for one of the action's target paths. */
  predicate Conflicting(actions: seq<Action>, a: Action) {
    exists i, j, k ::
      0 <= i < |actions| && 0 <= j < |a.changes| && 0 <= k < |actions[i].changes|
      && actions[i].target == a.target && actions[i].changes[k].path == a.changes[j].path
      && CanonicalText(actions[i].changes[k].value) != CanonicalText(a.changes[j].value)
  }

  datatype Place = Place(target: L.Ref, path: string)

  /** One proposed value: where, its text, and the action. */
  datatype Entry<P, T, A> = Entry(place: P, text: T, action: A)

  /** The nested maps hold exactly the entries, and no empty set. */
  ghost predicate Files<P(!new), T(!new), A(!new)>(byPlace: map<P, map<T, set<A>>>, entries: set<Entry<P, T, A>>) {
    && (forall e :: e in entries ==>
         e.place in byPlace && e.text in byPlace[e.place] && e.action in byPlace[e.place][e.text])
    && (forall p, t, a :: p in byPlace && t in byPlace[p] && a in byPlace[p][t] ==> Entry(p, t, a) in entries)
    && (forall p, t :: p in byPlace && t in byPlace[p] ==> byPlace[p][t] != {})
  }

  method FileEntry<P(==,!new), T(==,!new), A(==,!new)>(byPlace: map<P, map<T, set<A>>>,
                                                       ghost entries: set<Entry<P, T, A>>, p: P, t: T, a: A)
    returns (byPlace': map<P, map<T, set<A>>>)
    requires Files(byPlace, entries)
    ensures Files(byPlace', entries + {Entry(p, t, a)})
  {
    var values := if p in byPlace then byPlace[p] else map[];
    var ids := if t in values then values[t] else {};
    byPlace' := byPlace[p := values[t := ids + {a}]];
  }

  /** The actions at places with more than one value. */
  function Disputed<P, T, A>(byPlace: map<P, map<T, set<A>>>): set<A> {
    set p, t, a | p in byPlace && |byPlace[p]| > 1 && t in byPlace[p] && a in byPlace[p][t] :: a
  }

  lemma AnotherKey<T, V>(m: map<T, V>, t: T)
    requires t in m
    ensures |m| > 1 <==> exists u :: u in m && u != t
  {
    var others := m.Keys - {t};
    assert |others| == |m| - 1;
    if |m| > 1 {
      var u :| u in others;
    }
    if u :| u in m && u != t {
      assert u in others;
    }
  }

  lemma DisputedIff<P(!new), T(!new), A(!new)>(byPlace: map<P, map<T, set<A>>>, entries: set<Entry<P, T, A>>, a: A)
    requires Files(byPlace, entries)
    ensures a in Disputed(byPlace) <==>
      exists e, f :: e in entries && f in entries && e.action == a && e.place == f.place && e.text != f.text
  {
    if a in Disputed(byPlace) {
      var p, t :| p in byPlace && |byPlace[p]| > 1 && t in byPlace[p] && a in byPlace[p][t];
      AnotherKey(byPlace[p], t);
      var u :| u in byPlace[p] && u != t;
      var b :| b in byPlace[p][u];
      assert Entry(p, t, a) in entries && Entry(p, u, b) in entries;
    }
    if e, f :| e in entries && f in entries && e.action == a && e.place == f.place && e.text != f.text {
      AnotherKey(byPlace[e.place], e.text);
    }
  }

  type ActionEntry = Entry<Place, string, Action>

  function EntryOf(a: Action, j: nat): ActionEntry
    requires j < |a.changes|
  {
    Entry(Place(a.target, a.changes[j].path), CanonicalText(a.changes[j].value), a)
  }

  ghost function EntriesUpTo(a: Action, m: nat): set<ActionEntry>
    requires m <= |a.changes|
  {
    if m == 0 then {} else EntriesUpTo(a, m - 1) + {EntryOf(a, m - 1)}
  }

  ghost function Entries(actions: seq<Action>): set<ActionEntry>
    decreases |actions|
  {
    if actions == [] then {}
    else
      var a := actions[|actions| - 1];
      Entries(actions[..|actions| - 1]) + EntriesUpTo(a, |a.changes|)
  }

  lemma {:induction false} EntriesUpToAre(a: Action, m: nat, e: ActionEntry)
    requires m <= |a.changes|
    ensures e in EntriesUpTo(a, m) <==> exists j :: 0 <= j < m && e == EntryOf(a, j)
    decreases m
  {
    if m > 0 { EntriesUpToAre(a, m - 1, e); }
  }

  lemma {:induction false} EntriesAre(actions: seq<Action>, e: ActionEntry)
    ensures e in Entries(actions) <==>
      e.action in actions && exists j :: 0 <= j < |e.action.changes| && e == EntryOf(e.action, j)
    decreases |actions|
  {
    if actions != [] {
      var n := |actions| - 1;
      EntriesAre(actions[..n], e);
      EntriesUpToAre(actions[n], |actions[n].changes|, e);
      assert actions == actions[..n] + [actions[n]];
    }
  }

  lemma DisputedEntries(actions: seq<Action>, a: Action)
    ensures (exists e, f ::
               e in Entries(actions) && f in Entries(actions) && e.action == a && e.place == f.place
               && e.text != f.text)
      <==> a in actions && Conflicting(actions, a)
  {
    if e, f :|
      e in Entries(actions) && f in Entries(actions) && e.action == a && e.place == f.place && e.text != f.text {
      EntriesAre(actions, e);
      EntriesAre(actions, f);
      var j :| 0 <= j < |a.changes| && e == EntryOf(a, j);
      var k :| 0 <= k < |f.action.changes| && f == EntryOf(f.action, k);
      var i :| 0 <= i < |actions| && actions[i] == f.action;
      assert actions[i].changes[k].path == a.changes[j].path;
    }
    if a in actions && Conflicting(actions, a) {
      var i, j, k :| 0 <= i < |actions| && 0 <= j < |a.changes| && 0 <= k < |actions[i].changes|
        && actions[i].target == a.target && actions[i].changes[k].path == a.changes[j].path
        && CanonicalText(actions[i].changes[k].value) != CanonicalText(a.changes[j].value);
      EntriesAre(actions, EntryOf(a, j));
      EntriesAre(actions, EntryOf(actions[i], k));
    }
  }

  /** `conflictingActionIds`: an action is in conflict exactly when another value is proposed for one of its places. */
  method ConflictingActionIds(actions: seq<Action>) returns (conflicts: set<Action>)
    ensures forall a :: a in conflicts <==> a in actions && Conflicting(actions, a)
  {
    var byPlace: map<Place, map<string, set<Action>>> := map[];
    for n := 0 to |actions|
      invariant Files(byPlace, Entries(actions[..n]))
    {
      byPlace := FileAction(byPlace, Entries(actions[..n]), actions[n]);
      assert actions[..n + 1][..n] == actions[..n];
    }
    assert actions[..|actions|] == actions;
    conflicts := Disputed(byPlace);
    forall a ensures a in conflicts <==> a in actions && Conflicting(actions, a) {
      DisputedIff(byPlace, Entries(actions), a);
      DisputedEntries(actions, a);
    }
  }

  method FileAction(byPlace: map<Place, map<string, set<Action>>>, ghost entries: set<ActionEntry>, a: Action)
    returns (byPlace': map<Place, map<string, set<Action>>>)
    requires Files(byPlace, entries)
    ensures Files(byPlace', entries + EntriesUpTo(a, |a.changes|))
  {
    byPlace' := byPlace;
    assert entries + EntriesUpTo(a, 0) == entries;
    for m := 0 to |a.changes|
      invariant Files(byPlace', entries + EntriesUpTo(a, m))
    {
      var e := EntryOf(a, m);
      byPlace' := FileEntry(byPlace', entries + EntriesUpTo(a, m), e.place, e.text, e.action);
      NextEntry(entries, a, m);
    }
  }

  lemma NextEntry(entries: set<ActionEntry>, a: Action, m: nat)
    requires m < |a.changes|
    ensures entries + EntriesUpTo(a, m) + {EntryOf(a, m)} == entries + EntriesUpTo(a, m + 1)
  {
  }

  // ------------------------------------------------------------------- the plan

  function Kept(proposed: seq<Action>, conflicts: set<Action>): seq<Action>
    decreases |proposed|
  {
    if proposed == [] then []
    else
      var n := |proposed| - 1;
      var before := Kept(proposed[..n], conflicts);
      if proposed[n] in conflicts then before else before + [proposed[n]]
  }

  function Dropped(proposed: seq<Action>, conflicts: set<Action>): seq<Refusal>
    decreases |proposed|
  {
    if proposed == [] then []
    else
      var n := |proposed| - 1;
      var before := Dropped(proposed[..n], conflicts);
      var a := proposed[n];
      if a in conflicts then before + [Refusal(a.relationshipId, a.source, Some(a.target), ConflictingActions)]
        else before
  }

  datatype Plan = Plan(actions: seq<Action>, refusals: seq<Refusal>)

  /** The loop of `planFrappeLineageRemediation` and its conflict resolution, before sorting. */
  method PlanRemediation(answer: Answerer, findings: seq<L.Finding>)
    returns (r: Option<Plan>, ghost conflicts: set<Action>)
    ensures r.None? <==> ThrowsOn(answer, findings)
    ensures r.Some? ==> forall a :: a in conflicts <==>
      a in ProposedBy(answer, findings) && Conflicting(ProposedBy(answer, findings), a)
    ensures r.Some? ==>
      && r.value.actions == Kept(ProposedBy(answer, findings), conflicts)
      && r.value.refusals == RefusedBy(answer, findings) + Dropped(ProposedBy(answer, findings), conflicts)
  {
    conflicts := {};
    var actions: seq<Action> := [];
    var refusals: seq<Refusal> := [];
    for n := 0 to |findings|
      invariant actions == ProposedBy(answer, findings[..n]) && refusals == RefusedBy(answer, findings[..n])
      invariant !ThrowsOn(answer, findings[..n])
    {
      assert findings[..n + 1][..n] == findings[..n];
      if findings[n].status == L.Current { continue; }
      match answer(findings[n]) {
        case Throws => return None, {};
        case Proposed(action) => actions := actions + [action];
        case Refused(refusal) => refusals := refusals + [refusal];
      }
    }
    assert findings[..|findings|] == findings;
    var found := ConflictingActionIds(actions);
    conflicts := found;
    r := Some(Plan(Kept(actions, found), refusals + Dropped(actions, found)));
  }

  // ---------------------------------------------------------------- conservation

  /** What a finding, action or refusal is about. */
  datatype Subject = Subject(relationshipId: string, from: L.Ref, to: Option<L.Ref>)

  function FindingSubject(f: L.Finding): Subject {
    Subject(f.relationshipId, f.from, f.to)
  }

  function ActionSubject(a: Action): Subject {
    Subject(a.relationshipId, a.source, Some(a.target))
  }

  function RefusalSubject(x: Refusal): Subject {
    Subject(x.relationshipId, x.source, x.target)
  }

  function Subjects<T>(items: seq<T>, subjectOf: T -> Subject): multiset<Subject>
    decreases |items|
  {
    if items == [] then multiset{}
    else Subjects(items[..|items| - 1], subjectOf) + multiset{subjectOf(items[|items| - 1])}
  }

  lemma {:induction false} SubjectsJoin<T>(a: seq<T>, b: seq<T>, subjectOf: T -> Subject)
    ensures Subjects(a + b, subjectOf) == Subjects(a, subjectOf) + Subjects(b, subjectOf)
    decreases |b|
  {
    if b == [] {
      assert a + b == a;
    } else {
      var n := |b| - 1;
      assert (a + b)[..|a + b| - 1] == a + b[..n];
      SubjectsJoin(a, b[..n], subjectOf);
    }
  }

  function NotCurrent(findings: seq<L.Finding>): seq<L.Finding>
    decreases |findings|
  {
    if findings == [] then []
    else
      var n := |findings| - 1;
      if findings[n].status == L.Current then NotCurrent(findings[..n]) else NotCurrent(findings[..n]) + [findings[n]]
  }

  /** An answer is about its finding. */
  ghost predicate Faithful(answer: Answerer) {
    forall f :: match answer(f)
      case Proposed(a) => ActionSubject(a) == FindingSubject(f)
      case Refused(x) => RefusalSubject(x) == FindingSubject(f)
      case Throws => true
  }

  lemma AnswersAreFaithful(managed: set<string>, relationships: map<string, L.Relationship>, docs: Documents)
    ensures Faithful(f => AnswerOf(managed, relationships, docs, f))
  {
    forall f: L.Finding ensures match AnswerOf(managed, relationships, docs, f)
      case Proposed(a) => ActionSubject(a) == FindingSubject(f)
      case Refused(x) => RefusalSubject(x) == FindingSubject(f)
      case Throws => true
    {
    }
  }

  lemma AppendSubject<T>(items: seq<T>, item: T, subjectOf: T -> Subject)
    ensures Subjects(items + [item], subjectOf) == Subjects(items, subjectOf) + multiset{subjectOf(item)}
  {
    assert (items + [item])[..|items|] == items;
  }

  /** The subjects of everything answered. */
  ghost function Answered(answer: Answerer, findings: seq<L.Finding>): multiset<Subject> {
    Subjects(ProposedBy(answer, findings), ActionSubject) + Subjects(RefusedBy(answer, findings), RefusalSubject)
  }

  lemma LastAnswer(answer: Answerer, findings: seq<L.Finding>)
    requires Faithful(answer) && findings != [] && findings[|findings| - 1].status != L.Current
      && !answer(findings[|findings| - 1]).Throws?
    ensures Answered(answer, findings) ==
            Answered(answer, findings[..|findings| - 1]) + multiset{FindingSubject(findings[|findings| - 1])}
  {
    var n := |findings| - 1;
    match answer(findings[n]) {
      case Proposed(a) => AppendSubject(ProposedBy(answer, findings[..n]), a, ActionSubject);
      case Refused(x) => AppendSubject(RefusedBy(answer, findings[..n]), x, RefusalSubject);
    }
  }

  lemma {:induction false} AnsweredOnce(answer: Answerer, findings: seq<L.Finding>)
    requires Faithful(answer) && !ThrowsOn(answer, findings)
    ensures Answered(answer, findings) == Subjects(NotCurrent(findings), FindingSubject)
    decreases |findings|
  {
    if findings != [] {
      var n := |findings| - 1;
      assert !ThrowsOn(answer, findings[..n]);
      AnsweredOnce(answer, findings[..n]);
      if findings[n].status != L.Current {
        LastAnswer(answer, findings);
        AppendSubject(NotCurrent(findings[..n]), findings[n], FindingSubject);
      }
    }
  }

  lemma {:induction false} KeptOrDropped(proposed: seq<Action>, conflicts: set<Action>)
    ensures Subjects(Kept(proposed, conflicts), ActionSubject) + Subjects(Dropped(proposed, conflicts), RefusalSubject)
            == Subjects(proposed, ActionSubject)
    decreases |proposed|
  {
    if proposed != [] {
      var n := |proposed| - 1;
      var a := proposed[n];
      KeptOrDropped(proposed[..n], conflicts);
      if a in conflicts {
        AppendSubject(Dropped(proposed[..n], conflicts),
          Refusal(a.relationshipId, a.source, Some(a.target), ConflictingActions), RefusalSubject);
      } else {
        AppendSubject(Kept(proposed[..n], conflicts), a, ActionSubject);
      }
    }
  }

  /** Conservation: actions and refusals together are about just the findings that are not Current, each once. */
  lemma PlanConserves(answer: Answerer, findings: seq<L.Finding>, conflicts: set<Action>)
    requires Faithful(answer) && !ThrowsOn(answer, findings)
    ensures Subjects(Kept(ProposedBy(answer, findings), conflicts), ActionSubject)
            + Subjects(RefusedBy(answer, findings) + Dropped(ProposedBy(answer, findings), conflicts), RefusalSubject)
            == Subjects(NotCurrent(findings), FindingSubject)
  {
    AnsweredOnce(answer, findings);
    KeptOrDropped(ProposedBy(answer, findings), conflicts);
    SubjectsJoin(RefusedBy(answer, findings), Dropped(ProposedBy(answer, findings), conflicts), RefusalSubject);
  }

  /** An action is kept exactly when it was proposed and no action gives another value for one of its places. */
  lemma {:induction false} KeptIff(proposed: seq<Action>, conflicts: set<Action>, a: Action)
    ensures a in Kept(proposed, conflicts) <==> a in proposed && a !in conflicts
    decreases |proposed|
  {
    if proposed != [] {
      KeptIff(proposed[..|proposed| - 1], conflicts, a);
      assert proposed == proposed[..|proposed| - 1] + [proposed[|proposed| - 1]];
    }
  }

  /** `planFrappeLineageRemediation` on validated findings: each finding that is not Current is answered
      once, and an action is kept exactly when no proposed action gives one of its places another value. */
  method PlanFrappeLineageRemediation(relationships: map<string, L.Relationship>, docs: Documents,
                                      findings: seq<L.Finding>)
    returns (r: Option<Plan>, ghost proposed: seq<Action>)
    ensures proposed == ProposedBy(f => AnswerOf(SYSTEM_FIELDS, relationships, docs, f), findings)
    ensures r.None? <==> ThrowsOn(f => AnswerOf(SYSTEM_FIELDS, relationships, docs, f), findings)
    ensures r.Some? ==>
      Subjects(r.value.actions, ActionSubject) + Subjects(r.value.refusals, RefusalSubject) ==
        Subjects(NotCurrent(findings), FindingSubject)
    ensures r.Some? ==> forall a :: a in r.value.actions <==> a in proposed && !Conflicting(proposed, a)
  {
    var answer := f => AnswerOf(SYSTEM_FIELDS, relationships, docs, f);
    proposed := ProposedBy(answer, findings);
    ghost var conflicts;
    r, conflicts := PlanRemediation(answer, findings);
    if r.Some? {
      AnswersAreFaithful(SYSTEM_FIELDS, relationships, docs);
      PlanConserves(answer, findings, conflicts);
      forall a ensures a in r.value.actions <==>
        a in proposed && !Conflicting(proposed, a) { KeptIff(proposed, conflicts, a); }
    }
  }

  // ---------------------------------------------------------------- commutation

  function ApplyAction(docs: Documents, a: Action): Documents {
    if a.target in docs then docs[a.target := Apply(docs[a.target], a.changes)] else docs
  }

  function ApplyActions(docs: Documents, actions: seq<Action>): Documents
    decreases |actions|
  {
    if actions == [] then docs
    else ApplyAction(ApplyActions(docs, actions[..|actions| - 1]), actions[|actions| - 1])
  }

  /** The text of a document's member after some updates. */
  function TextAt(docs: Documents, ref: L.Ref, key: string): string
    requires ref in docs
  {
    CanonicalText(Field(docs[ref].values, key))
  }

  predicate Sets(a: Action, ref: L.Ref, key: string) {
    a.target == ref && key in ByPath(a.changes)
  }

  /** The text an action gives a member. */
  function SetText(a: Action, key: string): string
    requires key in ByPath(a.changes)
  {
    CanonicalText(ByPath(a.changes)[key].value)
  }

  /** All actions that set a member give it the same text. */
  ghost predicate Harmonious(actions: seq<Action>) {
    forall a, b, key ::
      && a in actions && b in actions && a.target == b.target && key in ByPath(a.changes)
      && key in ByPath(b.changes)
      ==> SetText(a, key) == SetText(b, key)
  }

  lemma ApplyOne(docs: Documents, a: Action, ref: L.Ref, key: string)
    requires ref in docs
    ensures ref in ApplyAction(docs, a)
    ensures TextAt(ApplyAction(docs, a), ref, key) == if Sets(a, ref, key) then SetText(a, key)
      else TextAt(docs, ref, key)
  {
    if a.target == ref { SetAllField(docs[ref].values, a.changes, key); }
  }

  lemma {:induction false} ApplyHarmonious(docs: Documents, actions: seq<Action>, ref: L.Ref, key: string)
    requires Harmonious(actions) && ref in docs
    ensures ref in ApplyActions(docs, actions)
    ensures forall a :: a in actions && Sets(a, ref, key) ==>
      TextAt(ApplyActions(docs, actions), ref, key) == SetText(a, key)
    ensures (forall a :: a in actions ==> !Sets(a, ref, key)) ==>
      TextAt(ApplyActions(docs, actions), ref, key) == TextAt(docs, ref, key)
    decreases |actions|
  {
    if actions != [] {
      var n := |actions| - 1;
      assert actions == actions[..n] + [actions[n]];
      ApplyHarmonious(docs, actions[..n], ref, key);
      ApplyOne(ApplyActions(docs, actions[..n]), actions[n], ref, key);
    }
  }

  /** Kept actions agree wherever they meet. */
  lemma KeptHarmonious(proposed: seq<Action>, conflicts: set<Action>, some: seq<Action>)
    requires forall a :: a in conflicts <==> a in proposed && Conflicting(proposed, a)
    requires forall a :: a in some ==> a in Kept(proposed, conflicts)
    ensures Harmonious(some)
  {
    forall a, b, key | a in some && b in some && a.target == b.target && key in ByPath(a.changes)
      && key in ByPath(b.changes)
      ensures SetText(a, key) == SetText(b, key)
    {
      KeptIff(proposed, conflicts, a);
      KeptIff(proposed, conflicts, b);
      NoConflict(proposed, a, b, key);
    }
  }

  lemma NoConflict(proposed: seq<Action>, a: Action, b: Action, key: string)
    requires b in proposed && !Conflicting(proposed, a) && a.target == b.target
    requires key in ByPath(a.changes) && key in ByPath(b.changes)
    ensures SetText(a, key) == SetText(b, key)
  {
    ByPathIn(a.changes);
    ByPathIn(b.changes);
    var i :| 0 <= i < |proposed| && proposed[i] == b;
    var j :| 0 <= j < |a.changes| && a.changes[j] == ByPath(a.changes)[key];
    var k :| 0 <= k < |b.changes| && b.changes[k] == ByPath(b.changes)[key];
    assert proposed[i].changes[k].path == a.changes[j].path;
  }

  /** Commutation: applying the kept actions in any order gives documents with the same values. */
  lemma KeptActionsCommute(docs: Documents, proposed: seq<Action>, conflicts: set<Action>, one: seq<Action>,
                           other: seq<Action>,
                           ref: L.Ref, key: string)
    requires forall a :: a in conflicts <==> a in proposed && Conflicting(proposed, a)
    requires forall a :: a in one <==> a in Kept(proposed, conflicts)
    requires forall a :: a in other <==> a in Kept(proposed, conflicts)
    requires ref in docs
    ensures ref in ApplyActions(docs, one) && ref in ApplyActions(docs, other)
    ensures TextAt(ApplyActions(docs, one), ref, key) == TextAt(ApplyActions(docs, other), ref, key)
  {
    KeptHarmonious(proposed, conflicts, one);
    KeptHarmonious(proposed, conflicts, other);
    ApplyHarmonious(docs, one, ref, key);
    ApplyHarmonious(docs, other, ref, key);
  }

  /** Equal texts are equal values, up to the order of members. */
  lemma TextsAreValues(a: Json, b: Json)
    requires Canonicalizable(a) && Canonicalizable(b)
    ensures CanonicalText(a) == CanonicalText(b) <==> SameValue(a, b)
  {
    CanonicalJsonInjective(a, b);
  }
}
