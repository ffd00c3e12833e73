/** The bounded gate in front of live calls: at most so many jobs at once, a bounded queue behind. */
module Gate {
  import opened Text

  datatype Limits = Limits(concurrency: nat, queue: nat)

  datatype Admission = Started | Queued | Overloaded | Refused

  /** The gate and its history. `accepted` and `started` are in order of time. */
  datatype Gate<!J> = Gate(
    running: set<J>, queue: seq<J>, closed: bool,
    accepted: seq<J>, started: seq<J>, finished: set<J>, rejected: set<J>)

  function Empty<J>(): Gate<J> {
    Gate({}, [], false, [], [], {}, {})
  }

  /** The job was submitted: it is in one of these places. */
  predicate Knows<J>(g: Gate<J>, job: J) {
    job in g.running || job in g.queue || job in g.finished || job in g.rejected
  }

  function Start<J>(g: Gate<J>, job: J): Gate<J> {
    g.(running := g.running + {job}, started := g.started + [job])
  }

  /** `run`. */
  function Admit<J>(limits: Limits, g: Gate<J>, job: J): (Gate<J>, Admission) {
    if g.closed then (g.(rejected := g.rejected + {job}), Refused)
    else if |g.running| < limits.concurrency then (Start(g.(accepted := g.accepted + [job]), job), Started)
    else if |g.queue| >= limits.queue then (g.(rejected := g.rejected + {job}), Overloaded)
    else (g.(accepted := g.accepted + [job], queue := g.queue + [job]), Queued)
  }

  /** A job's work has settled: its slot is free. */
  function Free<J>(g: Gate<J>, job: J): Gate<J> {
    g.(running := g.running - {job}, finished := g.finished + {job})
  }

  /** `#drain`: the job to start, if any. */
  function Drain<J>(limits: Limits, g: Gate<J>): (Gate<J>, Option<J>) {
    if g.closed || |g.running| >= limits.concurrency || g.queue == [] then (g, None)
    else (Start(g.(queue := g.queue[1..]), g.queue[0]), Some(g.queue[0]))
  }

  /** `close`: waiting jobs are rejected. */
  function Shut<J>(g: Gate<J>): Gate<J> {
    g.(closed := true, queue := [], rejected := g.rejected + set job | job in g.queue)
  }

  // ------------------------------------------------------------- what every run keeps

  ghost predicate Distinct<J>(s: seq<J>) {
    forall i, j :: 0 <= i < j < |s| ==> s[i] != s[j]
  }

  /** Limits are kept, and a queue only stands behind a full gate. */
  ghost predicate Bounded<J>(limits: Limits, g: Gate<J>) {
    && |g.running| <= limits.concurrency && |g.queue| <= limits.queue
    && (g.queue != [] ==> !g.closed && |g.running| == limits.concurrency)
  }

  /** Each job is in one place only. */
  ghost predicate Apart<J(!new)>(g: Gate<J>) {
    && Distinct(g.queue) && g.running !! g.finished && g.running !! g.rejected && g.finished !! g.rejected
    && forall job :: job in g.queue ==> job !in g.running && job !in g.finished && job !in g.rejected
  }

  /** Jobs start in the order in which they were accepted, and each only once. */
  ghost predicate Fifo<J(!new)>(g: Gate<J>) {
    && Distinct(g.accepted) && (forall job :: job in g.accepted ==> Knows(g, job))
    && (forall job :: job in g.started <==> job in g.running || job in g.finished)
    && (!g.closed ==> g.accepted == g.started + g.queue)
    && g.started <= g.accepted
  }

  ghost predicate Orderly<J(!new)>(limits: Limits, g: Gate<J>) {
    Bounded(limits, g) && Apart(g) && Fifo(g)
  }

  /** `run` with a new job: it is somewhere afterwards, and nothing else is submitted. */
  lemma AdmitKeeps<J(!new)>(limits: Limits, g: Gate<J>, job: J)
    requires Orderly(limits, g) && !Knows(g, job)
    ensures Orderly(limits, Admit(limits, g, job).0)
    ensures forall x :: Knows(Admit(limits, g, job).0, x) <==> Knows(g, x) || x == job
  {
    AdmitFifo(limits, g, job);
  }

  lemma AdmitFifo<J(!new)>(limits: Limits, g: Gate<J>, job: J)
    requires Bounded(limits, g) && Fifo(g) && !Knows(g, job)
    ensures Fifo(Admit(limits, g, job).0)
  {
    assert (g.started + g.queue) + [job] == g.started + (g.queue + [job]);
  }

  lemma FreeKeeps<J(!new)>(limits: Limits, g: Gate<J>, job: J)
    requires Orderly(limits, g) && job in g.running
    ensures var f := Free(g, job);
      && Apart(f) && Fifo(f) && |f.running| == |g.running| - 1 && (forall x :: Knows(f, x) <==> Knows(g, x))
  {
  }

  lemma StartNextApart<J(!new)>(g: Gate<J>)
    requires g.queue != [] && Apart(g)
    ensures Apart(Start(g.(queue := g.queue[1..]), g.queue[0]))
  {
    assert g.queue == [g.queue[0]] + g.queue[1..];
  }

  lemma StartNextFifo<J(!new)>(g: Gate<J>)
    requires g.queue != [] && Fifo(g) && !g.closed
    ensures var s := Start(g.(queue := g.queue[1..]), g.queue[0]);
      Fifo(s) && forall x :: Knows(s, x) <==> Knows(g, x)
  {
    assert g.queue == [g.queue[0]] + g.queue[1..];
    assert g.started + g.queue == (g.started + [g.queue[0]]) + g.queue[1..];
  }

  /** A job that finishes lets at most the first waiting job start. */
  lemma DrainKeeps<J(!new)>(limits: Limits, g: Gate<J>, job: J)
    requires Orderly(limits, g) && job in g.running
    ensures var (g', next) := Drain(limits, Free(g, job));
      && Orderly(limits, g') && (forall x :: Knows(g', x) <==> Knows(g, x))
      && g'.started == (if next.Some? then g.started + [next.value] else g.started)
      && (next.Some? <==> !g.closed && g.queue != [])
      && (next.Some? ==> next.value == g.queue[0])
  {
    FreeKeeps(limits, g, job);
    if g.queue != [] {
      StartNextApart(Free(g, job));
      StartNextFifo(Free(g, job));
    }
  }

  lemma ShutKeeps<J(!new)>(limits: Limits, g: Gate<J>)
    requires Orderly(limits, g)
    ensures Orderly(limits, Shut(g)) && (forall x :: Knows(Shut(g), x) <==> Knows(g, x))
  {
  }

  // ------------------------------------------------------------------ whole runs

  datatype GateEvent<J> = Submit(job: J) | Done(job: J) | Stop

  predicate Possible<J>(g: Gate<J>, e: GateEvent<J>) {
    match e
    case Submit(job) => !Knows(g, job)
    case Done(job) => job in g.running
    case Stop => true
  }

  function After<J>(limits: Limits, g: Gate<J>, e: GateEvent<J>): Gate<J> {
    match e
    case Submit(job) => Admit(limits, g, job).0
    case Done(job) => Drain(limits, Free(g, job)).0
    case Stop => Shut(g)
  }

  /** The gate after a run of events. */
  function AfterAll<J>(limits: Limits, events: seq<GateEvent<J>>): Gate<J> {
    if events == [] then Empty() else After(limits, AfterAll(limits, events[..|events| - 1]), events[|events| - 1])
  }

  ghost predicate Legal<J(!new)>(limits: Limits, events: seq<GateEvent<J>>) {
    forall n :: 0 <= n < |events| ==> Possible(AfterAll(limits, events[..n]), events[n])
  }

  lemma LegalPrefix<J(!new)>(limits: Limits, events: seq<GateEvent<J>>)
    requires Legal(limits, events) && events != []
    ensures Legal(limits, events[..|events| - 1])
    ensures Possible(AfterAll(limits, events[..|events| - 1]), events[|events| - 1])
  {
    var before := events[..|events| - 1];
    forall m | 0 <= m < |before| ensures Possible(AfterAll(limits, before[..m]), before[m]) {
      assert before[..m] == events[..m];
    }
  }

  /** After every run: the limits hold, a waiting job means a full gate, the submitted jobs are
      each in exactly one of running, waiting, finished and rejected, and starts are first in, first out. */
  lemma {:induction false} EveryRun<J(!new)>(limits: Limits, events: seq<GateEvent<J>>)
    requires Legal(limits, events)
    ensures Orderly(limits, AfterAll(limits, events))
    ensures Tracks(AfterAll(limits, events), events)
    decreases |events|
  {
    if events != [] {
      var before, e := events[..|events| - 1], events[|events| - 1];
      LegalPrefix(limits, events);
      EveryRun(limits, before);
      EventKeeps(limits, AfterAll(limits, before), e);
      TracksNext(AfterAll(limits, before), After(limits, AfterAll(limits, before), e), events);
    }
  }

  /** The known jobs are the submitted ones. */
  ghost predicate Tracks<J(!new)>(g: Gate<J>, events: seq<GateEvent<J>>) {
    forall job :: Knows(g, job) <==> Submit(job) in events
  }

  lemma TracksNext<J(!new)>(g: Gate<J>, g': Gate<J>, events: seq<GateEvent<J>>)
    requires events != [] && Tracks(g, events[..|events| - 1])
    requires forall job :: Knows(g', job) <==> Knows(g, job) || events[|events| - 1] == Submit(job)
    ensures Tracks(g', events)
  {
    assert events == events[..|events| - 1] + [events[|events| - 1]];
  }

  lemma EventKeeps<J(!new)>(limits: Limits, g: Gate<J>, e: GateEvent<J>)
    requires Orderly(limits, g) && Possible(g, e)
    ensures Orderly(limits, After(limits, g, e))
    ensures forall job :: Knows(After(limits, g, e), job) <==> Knows(g, job) || e == Submit(job)
  {
    match e {
      case Submit(job) => AdmitKeeps(limits, g, job);
      case Done(job) => DrainKeeps(limits, g, job);
      case Stop => ShutKeeps(limits, g);
    }
  }

  /** Nothing starts in a gate that was closed. */
  lemma {:induction false} NoStartAfterClose<J(!new)>(limits: Limits, events: seq<GateEvent<J>>, closedAt: nat)
    requires closedAt < |events| && events[closedAt].Stop?
    ensures AfterAll(limits, events).closed
    ensures AfterAll(limits, events).started == AfterAll(limits, events[..closedAt]).started
    decreases |events|
  {
    var n := |events| - 1;
    if closedAt < n {
      assert events[..n][..closedAt] == events[..closedAt];
      NoStartAfterClose(limits, events[..n], closedAt);
    }
  }

  // -------------------------------------------------------------------- the gate

  class BoundedAsyncGate<J(==,!new)> {
    const maxConcurrency: nat
    const maxQueue: nat
    var active: nat
    var queue: seq<J>
    var closed: bool
    ghost var history: Gate<J>

    ghost predicate Valid()
      reads this
    {
      active == |history.running| && queue == history.queue && closed == history.closed
    }

    function Bounds(): Limits {
      Limits(maxConcurrency, maxQueue)
    }

    constructor (maxConcurrency: nat, maxQueue: nat)
      ensures Valid() && history == Empty() && Bounds() == Limits(maxConcurrency, maxQueue)
    {
      this.maxConcurrency := maxConcurrency;
      this.maxQueue := maxQueue;
      active, queue, closed := 0, [], false;
      history := Empty();
    }

    /** A started job's work begins in the caller's step. */
    method Run(job: J) returns (admission: Admission)
      requires Valid() && job !in history.running
      modifies this
      ensures Valid() && (history, admission) == Admit(Bounds(), old(history), job)
    {
      history := Admit(Bounds(), history, job).0;
      if closed { return Refused; }
      if active < maxConcurrency {
        active := active + 1;
        return Started;
      }
      if |queue| >= maxQueue { return Overloaded; }
      queue := queue + [job];
      admission := Queued;
    }

    /** A job's work has settled; the job to start next, if any. */
    method Finish(ghost job: J) returns (next: Option<J>)
      requires Valid() && job in history.running && (forall x :: x in queue ==> x !in history.running)
      modifies this
      ensures Valid() && (history, next) == Drain(Bounds(), Free(old(history), job))
    {
      active := active - 1;
      history := Free(history, job);
      next := DrainQueue();
    }

    /** `#drain`. */
    method DrainQueue() returns (next: Option<J>)
      requires Valid() && (forall x :: x in queue ==> x !in history.running)
      modifies this
      ensures Valid() && (history, next) == Drain(Bounds(), old(history))
    {
      history := Drain(Bounds(), history).0;
      if closed || active >= maxConcurrency || queue == [] { return None; }
      next := Some(queue[0]);
      queue := queue[1..];
      active := active + 1;
    }

    /** The jobs that are rejected. */
    method Close() returns (rejected: seq<J>)
      requires Valid()
      modifies this
      ensures Valid() && history == Shut(old(history)) && rejected == old(queue)
    {
      history := Shut(history);
      closed := true;
      rejected, queue := queue, [];
    }
  }
}
