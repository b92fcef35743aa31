/** Bounded observations of workers and runs: MonitorStore of scrapy_cffi/monitoring/store.py. */
module Monitor {
  import opened Common

  type Id = string
  type WorkerKey = (string, string)

  datatype RunState = ACCEPTED | STARTING | RUNNING | COMPLETED | FAILED | CANCELLED | KILLED

  datatype WorkerState = REGISTERED | ACTIVE | DRAINING | STOPPED | OTHER

  datatype Kind = EngineStarted | EngineStopped | SpiderOpened | Anything

  /** An event; `payload` stands for what a snapshot copies from its last event as it is. */
  datatype Event = Event(
    id: Id, worker: WorkerKey, run: Option<Id>, kind: Kind, runState: Option<RunState>, workerState: Option<WorkerState>,
    sequence: nat, spider: Option<string>, payload: nat)

  predicate Terminal(s: RunState) {
    s in {COMPLETED, FAILED, CANCELLED, KILLED}
  }

  datatype Run = Run(worker: WorkerKey, state: RunState, sequence: nat, spiders: set<string>, payload: nat, observedAt: real)

  datatype Worker = Worker(status: WorkerState, spiders: set<string>, payload: nat, observedAt: real)

  // ------------------------------------------------------------ one run

  /** What the store keeps about one run: its snapshot, its active engines, its last event's id. */
  datatype Tracked = Tracked(run: Run, engines: nat, lastId: Id)

  predicate Accepts(t: Option<Tracked>, e: Event) {
    t.None? || (t.value.lastId != e.id && (e.sequence == 0 || e.sequence > t.value.run.sequence))
  }

  function Counted(engines: nat, kind: Kind): nat {
    match kind
    case EngineStarted => engines + 1
    case EngineStopped => if engines > 0 then engines - 1 else 0
    case _ => engines
  }

  function Merged(spiders: set<string>, spider: Option<string>): set<string> {
    if spider.Some? && spider.value != "" then spiders + {spider.value} else spiders
  }

  /** Engines still counted for a run when it ends are forgotten. */
  predicate Releases(e: Event) {
    e.runState.Some? && Terminal(e.runState.value)
  }

  function RunStateAfter(previous: RunState, engines: nat, e: Event): RunState {
    if e.runState.Some? then e.runState.value
    else if e.kind.EngineStarted? || e.kind.SpiderOpened? then RUNNING
    else if e.kind.EngineStopped? && engines == 0 then COMPLETED
    else previous
  }

  function RunAfter(previous: Option<Run>, engines: nat, e: Event, now: real): Run {
    Run(e.worker, RunStateAfter(if previous.Some? then previous.value.state else ACCEPTED, engines, e),
        if previous.Some? && previous.value.sequence > e.sequence then previous.value.sequence else e.sequence,
        Merged(if previous.Some? then previous.value.spiders else {}, e.spider), e.payload, now)
  }

  function Applied(t: Option<Tracked>, e: Event, now: real): Tracked {
    var engines := Counted(if t.None? || Releases(e) then 0 else t.value.engines, e.kind);
    Tracked(RunAfter(if t.Some? then Some(t.value.run) else None, engines, e, now), engines, e.id)
  }

  // ------------------------------------------------------------ one worker

  function WorkerAfter(previous: Option<Worker>, engines: nat, e: Event, now: real): Worker {
    var status := if previous.Some? then previous.value.status else REGISTERED;
    Worker(
      if e.workerState.Some? then e.workerState.value
      else if e.kind.EngineStarted? || e.kind.SpiderOpened? then ACTIVE
      else if e.kind.EngineStopped? then if engines > 0 then ACTIVE else STOPPED
      else status,
      Merged(if previous.Some? then previous.value.spiders else {}, e.spider), e.payload, now)
  }

  function Minus(a: nat, b: nat): nat {
    if a >= b then a - b else 0
  }

  /** A worker's engine count once the engines of a run that ends are released, `remaining` of them, and the
      event is counted. */
  function WorkerCount(before: nat, remaining: nat, e: Event): nat {
    Counted(if Releases(e) then Minus(before, remaining) else before, e.kind)
  }

  // ------------------------------------------------------------ eviction

  /** The order of eviction: terminal runs first, then the oldest. */
  predicate RunBefore(a: Run, b: Run) {
    if Terminal(a.state) != Terminal(b.state) then Terminal(a.state) else a.observedAt <= b.observedAt
  }

  predicate WorkerBefore(a: Worker, b: Worker) {
    if (a.status == STOPPED) != (b.status == STOPPED) then a.status == STOPPED else a.observedAt <= b.observedAt
  }

  /** What eviction leaves of `before`: no more than the limit, no fewer than it must, every snapshot
      kept as it was, and nothing kept that should have gone before something that went. */
  ghost predicate Evicted(before: map<Id, Run>, after: map<Id, Run>, max: nat) {
    && after.Keys <= before.Keys && (forall k :: k in after ==> after[k] == before[k])
    && |after| == (if |before| <= max then |before| else max)
    && forall gone, kept :: gone in before && gone !in after && kept in after ==> RunBefore(before[gone], before[kept])
  }

  ghost predicate WorkersEvicted(before: map<WorkerKey, Worker>, after: map<WorkerKey, Worker>, max: nat) {
    && after.Keys <= before.Keys && (forall k :: k in after ==> after[k] == before[k])
    && |after| == (if |before| <= max then |before| else max)
    && forall gone, kept :: gone in before && gone !in after && kept in after ==> WorkerBefore(before[gone], before[kept])
  }

  method OldestRun(runs: map<Id, Run>) returns (victim: Id)
    requires runs != map[]
    ensures victim in runs && forall k :: k in runs ==> RunBefore(runs[victim], runs[k])
  {
    var rest := runs.Keys;
    victim :| victim in rest;
    rest := rest - {victim};
    while rest != {}
      invariant victim in runs && rest <= runs.Keys
      invariant forall k :: k in runs && k !in rest ==> RunBefore(runs[victim], runs[k])
      decreases |rest|
    {
      var k :| k in rest;
      if !RunBefore(runs[victim], runs[k]) {
        victim := k;
      }
      rest := rest - {k};
    }
  }

  method OldestWorker(workers: map<WorkerKey, Worker>) returns (victim: WorkerKey)
    requires workers != map[]
    ensures victim in workers && forall k :: k in workers ==> WorkerBefore(workers[victim], workers[k])
  {
    var rest := workers.Keys;
    victim :| victim in rest;
    rest := rest - {victim};
    while rest != {}
      invariant victim in workers && rest <= workers.Keys
      invariant forall k :: k in workers && k !in rest ==> WorkerBefore(workers[victim], workers[k])
      decreases |rest|
    {
      var k :| k in rest;
      if !WorkerBefore(workers[victim], workers[k]) {
        victim := k;
      }
      rest := rest - {k};
    }
  }

  lemma SubsetsAreSmaller<T>(a: set<T>, b: set<T>)
    requires a <= b
    ensures |a| <= |b|
  {
    assert b == a + (b - a);
  }

  lemma EvictOneMore(before: map<Id, Run>, after: map<Id, Run>, max: nat, victim: Id)
    requires Evicted(before, after, |after|) && |after| > max && victim in after
    requires forall k :: k in after ==> RunBefore(after[victim], after[k])
    ensures |after - {victim}| == |after| - 1 && Evicted(before, after - {victim}, |after| - 1)
  {
    var less := after - {victim};
    assert less.Keys == after.Keys - {victim};
    SubsetsAreSmaller(after.Keys, before.Keys);
  }

  lemma EvictOneMoreWorker(before: map<WorkerKey, Worker>, after: map<WorkerKey, Worker>, max: nat, victim: WorkerKey)
    requires WorkersEvicted(before, after, |after|) && |after| > max && victim in after
    requires forall k :: k in after ==> WorkerBefore(after[victim], after[k])
    ensures |after - {victim}| == |after| - 1 && WorkersEvicted(before, after - {victim}, |after| - 1)
  {
    var less := after - {victim};
    assert less.Keys == after.Keys - {victim};
    SubsetsAreSmaller(after.Keys, before.Keys);
  }

  lemma SameSizeIsAll<T>(a: set<T>, b: set<T>)
    requires a <= b && |a| == |b|
    ensures a == b
  {
    assert b == a + (b - a);
  }

  ghost predicate Restricts<V>(after: map<Id, V>, before: map<Id, V>) {
    after.Keys <= before.Keys && forall k :: k in after ==> after[k] == before[k]
  }

  ghost predicate KeptCounts(before: map<WorkerKey, nat>, after: map<WorkerKey, nat>) {
    forall k :: k in after ==> k in before && after[k] == before[k]
  }

  lemma Dropped<V>(m: map<Id, V>, k: Id)
    ensures (m - {k}).Keys == m.Keys - {k} && Restricts(m - {k}, m)
  {
  }

  lemma Added<K, V>(m: map<K, V>, k: K, v: V)
    ensures m[k := v].Keys == m.Keys + {k}
  {
  }

  // ------------------------------------------------------------ the store

  class MonitorStore {
    const maxRuns: nat
    const maxWorkers: nat
    var runs: map<Id, Run>
    var runEngines: map<Id, nat>
    var eventIds: map<Id, Id>
    var workers: map<WorkerKey, Worker>
    var engines: map<WorkerKey, nat>

    ghost predicate Valid()
      reads this
    {
      && maxRuns > 0 && maxWorkers > 0
      && runs.Keys == runEngines.Keys == eventIds.Keys && workers.Keys == engines.Keys
      && |runs| <= maxRuns && |workers| <= maxWorkers
    }

    ghost function TrackedAt(id: Id): Option<Tracked>
      requires runs.Keys == runEngines.Keys == eventIds.Keys
      reads this
    {
      if id in runs then Some(Tracked(runs[id], runEngines[id], eventIds[id])) else None
    }

    constructor (maxRuns: nat, maxWorkers: nat)
      requires maxRuns > 0 && maxWorkers > 0
      ensures Valid() && runs == map[] && workers == map[] && this.maxRuns == maxRuns && this.maxWorkers == maxWorkers
    {
      this.maxRuns, this.maxWorkers := maxRuns, maxWorkers;
      runs, runEngines, eventIds, workers, engines := map[], map[], map[], map[], map[];
    }

    /** The two tests of _accept_run_event. */
    method IsStale(e: Event, id: Id) returns (stale: bool)
      requires Valid()
      ensures stale <==> !Accepts(TrackedAt(id), e)
    {
      if id in eventIds && eventIds[id] == e.id {
        return true;
      }
      stale := id in runs && e.sequence > 0 && e.sequence <= runs[id].sequence;
    }

    ghost function EnginesOf(worker: WorkerKey): nat
      reads this
    {
      if worker in engines then engines[worker] else 0
    }

    ghost function WorkerAt(worker: WorkerKey): Option<Worker>
      reads this
    {
      if worker in workers then Some(workers[worker]) else None
    }

    ghost function RemainingOf(run: Option<Id>): nat
      reads this
    {
      if run.Some? && run.value in runEngines then runEngines[run.value] else 0
    }

    /** The engines that a worker still had for a run that ends. */
    method ReleaseTerminalEngines(e: Event, id: Id)
      modifies this`runEngines, this`engines
      ensures runEngines == if Releases(e) && id in old(runEngines) then old(runEngines)[id := 0] else old(runEngines)
      ensures runEngines.Keys == old(runEngines).Keys
      ensures engines.Keys <= old(engines).Keys + {e.worker} && old(engines).Keys <= engines.Keys
      ensures forall k :: k in engines && k != e.worker ==> k in old(engines) && engines[k] == old(engines)[k]
      ensures EnginesOf(e.worker)
           == if Releases(e) then Minus(old(EnginesOf(e.worker)), old(RemainingOf(Some(id)))) else old(EnginesOf(e.worker))
    {
      if e.runState.None? || !Terminal(e.runState.value) {
        return;
      }
      var remaining := if id in runEngines then runEngines[id] else 0;
      if remaining == 0 {
        assert id in runEngines ==> runEngines[id := 0] == runEngines;
        return;
      }
      engines := engines[e.worker := Minus(if e.worker in engines then engines[e.worker] else 0, remaining)];
      Added(runEngines, id, 0);
      runEngines := runEngines[id := 0];
    }

    method RecordWorker(e: Event, now: real) returns (worker: Worker)
      modifies this`workers, this`engines
      ensures var before := if e.worker in old(engines) then old(engines)[e.worker] else 0;
              && engines == old(engines)[e.worker := Counted(before, e.kind)]
              && worker == WorkerAfter(if e.worker in old(workers) then Some(old(workers)[e.worker]) else None,
                                       Counted(before, e.kind), e, now)
      ensures workers == old(workers)[e.worker := worker]
      ensures workers.Keys == old(workers).Keys + {e.worker} && engines.Keys == old(engines).Keys + {e.worker}
    {
      var active := if e.worker in engines then engines[e.worker] else 0;
      if e.kind.EngineStarted? {
        active := active + 1;
      } else if e.kind.EngineStopped? {
        active := Minus(active, 1);
      }
      Added(engines, e.worker, active);
      engines := engines[e.worker := active];
      worker := WorkerAfter(if e.worker in workers then Some(workers[e.worker]) else None, active, e, now);
      Added(workers, e.worker, worker);
      workers := workers[e.worker := worker];
    }

    /** `t` is what was known about the run, before its engines were released. */
    method RecordRun(e: Event, id: Id, now: real, ghost t: Option<Tracked>)
      requires (t.Some? <==> id in runs) && runs.Keys == runEngines.Keys
      requires t.Some? ==> t.value.run == runs[id] && runEngines[id] == if Releases(e) then 0 else t.value.engines
      modifies this`runs, this`runEngines
      ensures runEngines == old(runEngines)[id := Applied(t, e, now).engines]
      ensures runs == old(runs)[id := Applied(t, e, now).run]
      ensures runs.Keys == runEngines.Keys == old(runs).Keys + {id}
    {
      var active := if id in runEngines then runEngines[id] else 0;
      if e.kind.EngineStarted? {
        active := active + 1;
      } else if e.kind.EngineStopped? {
        active := Minus(active, 1);
      }
      var run := RunAfter(if id in runs then Some(runs[id]) else None, active, e, now);
      Added(runEngines, id, active);
      Added(runs, id, run);
      runEngines, runs := runEngines[id := active], runs[id := run];
    }

    method EvictRuns()
      requires runs.Keys == runEngines.Keys == eventIds.Keys
      modifies this`runs, this`runEngines, this`eventIds
      ensures Evicted(old(runs), runs, maxRuns) && (|old(runs)| <= maxRuns ==> runs == old(runs))
      ensures runs.Keys == runEngines.Keys == eventIds.Keys
      ensures Restricts(runEngines, old(runEngines)) && Restricts(eventIds, old(eventIds))
    {
      while |runs| > maxRuns
        invariant Evicted(old(runs), runs, |runs|) && (|runs| >= maxRuns || runs == old(runs))
        invariant |old(runs)| <= maxRuns ==> runs == old(runs)
        invariant runs.Keys == runEngines.Keys == eventIds.Keys
        invariant Restricts(runEngines, old(runEngines)) && Restricts(eventIds, old(eventIds))
        decreases |runs|
      {
        var victim := OldestRun(runs);
        EvictOneMore(old(runs), runs, maxRuns, victim);
        Dropped(runs, victim);
        Dropped(runEngines, victim);
        Dropped(eventIds, victim);
        runs := runs - {victim};
        runEngines := runEngines - {victim};
        eventIds := eventIds - {victim};
      }
    }

    method EvictWorkers()
      requires workers.Keys == engines.Keys
      modifies this`workers, this`engines
      ensures WorkersEvicted(old(workers), workers, maxWorkers) && workers.Keys == engines.Keys
      ensures KeptCounts(old(engines), engines)
    {
      while |workers| > maxWorkers
        invariant WorkersEvicted(old(workers), workers, |workers|) && (|workers| >= maxWorkers || workers == old(workers))
        invariant workers.Keys == engines.Keys && KeptCounts(old(engines), engines)
        decreases |workers|
      {
        var victim := OldestWorker(workers);
        EvictOneMoreWorker(old(workers), workers, maxWorkers, victim);
        workers, engines := workers - {victim}, engines - {victim};
      }
    }

    /** _enforce_limits */
    method EnforceLimits()
      requires runs.Keys == runEngines.Keys == eventIds.Keys && workers.Keys == engines.Keys && maxRuns > 0 && maxWorkers > 0
      modifies this
      ensures Valid() && Evicted(old(runs), runs, maxRuns) && WorkersEvicted(old(workers), workers, maxWorkers)
      ensures |old(runs)| <= maxRuns ==> runs == old(runs)
      ensures forall k :: k in runs ==> TrackedAt(k) == old(TrackedAt(k))
      ensures KeptCounts(old(engines), engines)
    {
      EvictRuns();
      EvictWorkers();
    }

    /** The worker's half of an accepted run event. */
    method MergeWorker(e: Event, id: Id, now: real) returns (worker: Worker)
      requires workers.Keys == engines.Keys
      modifies this`runEngines, this`engines, this`workers
      ensures workers.Keys == engines.Keys && runEngines.Keys == old(runEngines).Keys
      ensures runEngines == if Releases(e) && id in old(runEngines) then old(runEngines)[id := 0] else old(runEngines)
      ensures var count := WorkerCount(old(EnginesOf(e.worker)), old(RemainingOf(Some(id))), e);
              && engines == old(engines)[e.worker := count]
              && worker == WorkerAfter(old(WorkerAt(e.worker)), count, e, now)
      ensures workers == old(workers)[e.worker := worker]
    {
      ReleaseTerminalEngines(e, id);
      assert engines.Keys + {e.worker} == workers.Keys + {e.worker};
      ghost var released := engines;
      worker := RecordWorker(e, now);
      assert released[e.worker := engines[e.worker]] == old(engines)[e.worker := engines[e.worker]];
    }

    /** The run's half; `before` are the engine counts before the release. */
    method MergeRun(e: Event, id: Id, now: real, ghost t: Option<Tracked>, ghost before: map<Id, nat>)
      requires (t.Some? <==> id in runs) && runs.Keys == runEngines.Keys == eventIds.Keys == before.Keys
      requires t.Some? ==> t.value.run == runs[id] && t.value.engines == before[id]
      requires runEngines == if Releases(e) && id in before then before[id := 0] else before
      modifies this`runs, this`runEngines, this`eventIds
      ensures runs.Keys == runEngines.Keys == eventIds.Keys
      ensures runs == old(runs)[id := Applied(t, e, now).run]
      ensures runEngines == before[id := Applied(t, e, now).engines]
      ensures eventIds == old(eventIds)[id := e.id]
    {
      RecordRun(e, id, now, t);
      Added(eventIds, id, e.id);
      eventIds := eventIds[id := e.id];
    }

    /** What record() does with an accepted event of a run, before the limits. */
    method Merge(e: Event, id: Id, now: real, ghost t: Option<Tracked>) returns (worker: Worker)
      requires Valid() && t == TrackedAt(id)
      modifies this
      ensures runs.Keys == runEngines.Keys == eventIds.Keys && workers.Keys == engines.Keys
      ensures runs == old(runs)[id := Applied(t, e, now).run]
      ensures runEngines == old(runEngines)[id := Applied(t, e, now).engines]
      ensures eventIds == old(eventIds)[id := e.id]
      ensures var count := WorkerCount(old(EnginesOf(e.worker)), old(RemainingOf(Some(id))), e);
              && engines == old(engines)[e.worker := count]
              && worker == WorkerAfter(old(WorkerAt(e.worker)), count, e, now)
      ensures workers == old(workers)[e.worker := worker]
      ensures TrackedAt(id) == Some(Applied(t, e, now)) && forall k :: k in runs && k != id ==> TrackedAt(k) == old(TrackedAt(k))
    {
      worker := MergeWorker(e, id, now);
      MergeRun(e, id, now, t, old(runEngines));
    }

    /** _enforce_limits after a merge; the ghosts are what was merged into. */
    method EnforceMerged(id: Id, ghost known: map<Id, Run>, ghost t: Tracked, ghost key: WorkerKey, ghost worker: Worker,
                         ghost known': map<WorkerKey, Worker>, ghost counts: map<WorkerKey, nat>, ghost count: nat)
      requires runs.Keys == runEngines.Keys == eventIds.Keys && workers.Keys == engines.Keys && maxRuns > 0 && maxWorkers > 0
      requires runs == known[id := t.run] && TrackedAt(id) == Some(t)
      requires workers == known'[key := worker] && engines == counts[key := count] && known'.Keys == counts.Keys
      modifies this
      ensures Valid() && Evicted(known[id := t.run], runs, maxRuns) && (id in runs ==> TrackedAt(id) == Some(t))
      ensures forall k :: k in runs ==> TrackedAt(k) == old(TrackedAt(k))
      ensures WorkersEvicted(known'[key := worker], workers, maxWorkers)
      ensures forall k :: k in workers ==> engines[k] == if k == key then count else if k in counts then counts[k] else 0
    {
      EnforceLimits();
    }

    /** record() for an event that is not stale. */
    method RecordRunEvent(e: Event, id: Id, now: real) returns (worker: Worker)
      requires Valid()
      modifies this
      ensures Valid()
      ensures Evicted(old(runs)[id := Applied(old(TrackedAt(id)), e, now).run], runs, maxRuns)
      ensures id in runs ==> TrackedAt(id) == Some(Applied(old(TrackedAt(id)), e, now))
      ensures forall k :: k in runs && k != id ==> TrackedAt(k) == old(TrackedAt(k))
      ensures worker == WorkerAfter(old(WorkerAt(e.worker)), WorkerCount(old(EnginesOf(e.worker)), old(RemainingOf(Some(id))), e), e, now)
      ensures WorkersEvicted(old(workers)[e.worker := worker], workers, maxWorkers)
      ensures forall k :: k in workers ==>
                engines[k] == if k == e.worker then WorkerCount(old(EnginesOf(k)), old(RemainingOf(Some(id))), e) else old(EnginesOf(k))
    {
      ghost var before, count := TrackedAt(id), WorkerCount(EnginesOf(e.worker), RemainingOf(Some(id)), e);
      worker := Merge(e, id, now, before);
      EnforceMerged(id, old(runs), Applied(before, e, now), e.worker, worker, old(workers), old(engines), count);
    }

    /** record() for an event of no run. */
    method RecordWorkerEvent(e: Event, now: real) returns (worker: Worker)
      requires Valid()
      modifies this
      ensures Valid()
      ensures runs == old(runs) && forall k :: k in runs ==> TrackedAt(k) == old(TrackedAt(k))
      ensures worker == WorkerAfter(old(WorkerAt(e.worker)), WorkerCount(old(EnginesOf(e.worker)), 0, e), e, now)
      ensures WorkersEvicted(old(workers)[e.worker := worker], workers, maxWorkers)
      ensures forall k :: k in workers ==>
                engines[k] == if k == e.worker then WorkerCount(old(EnginesOf(k)), 0, e) else old(EnginesOf(k))
    {
      ghost var count := WorkerCount(EnginesOf(e.worker), 0, e);
      assert count == Counted(EnginesOf(e.worker), e.kind);
      worker := RecordWorker(e, now);
      assert engines == old(engines)[e.worker := count] && workers == old(workers)[e.worker := worker];
      EnforceLimits();
    }

    /** record(): a stale event changes nothing, and is an error when its worker is not known. */
    method Record(e: Event, now: real) returns (worker: Option<Worker>)
      requires Valid()
      modifies this
      ensures Valid()
      ensures e.run.Some? && !Accepts(old(TrackedAt(e.run.value)), e) ==>
                && runs == old(runs) && runEngines == old(runEngines) && eventIds == old(eventIds)
                && workers == old(workers) && engines == old(engines)
                && (worker.None? <==> e.worker !in workers)
      ensures e.run.None? ==> runs == old(runs) && forall k :: k in runs ==> TrackedAt(k) == old(TrackedAt(k))
      ensures e.run.Some? && Accepts(old(TrackedAt(e.run.value)), e) ==>
                var id := e.run.value;
                && Evicted(old(runs)[id := Applied(old(TrackedAt(id)), e, now).run], runs, maxRuns)
                && (id in runs ==> TrackedAt(id) == Some(Applied(old(TrackedAt(id)), e, now)))
                && (forall k :: k in runs && k != id ==> TrackedAt(k) == old(TrackedAt(k)))
      ensures e.run.None? || Accepts(old(TrackedAt(e.run.value)), e) ==>
                var count := WorkerCount(old(EnginesOf(e.worker)), old(RemainingOf(e.run)), e);
                && worker == Some(WorkerAfter(old(WorkerAt(e.worker)), count, e, now))
                && WorkersEvicted(old(workers)[e.worker := worker.value], workers, maxWorkers)
                && forall k :: k in workers ==> engines[k] == if k == e.worker then count else old(EnginesOf(k))
    {
      var recorded;
      if e.run.Some? {
        var stale := IsStale(e, e.run.value);
        if stale {
          return if e.worker in workers then Some(workers[e.worker]) else None;
        }
        recorded := RecordRunEvent(e, e.run.value, now);
      } else {
        recorded := RecordWorkerEvent(e, now);
      }
      worker := Some(recorded);
    }
  }

  // ------------------------------------------------------------ streams of one run's events

  /** An event and the clock when it is recorded. */
  type Arrival = (Event, real)

  /** The run after a stream of its events, nothing being evicted meanwhile. */
  function Fed(t: Option<Tracked>, arrivals: seq<Arrival>): Option<Tracked>
    decreases |arrivals|
  {
    if arrivals == [] then t
    else
      var (e, now) := arrivals[0];
      Fed(if Accepts(t, e) then Some(Applied(t, e, now)) else t, arrivals[1..])
  }

  /** Every event counts. */
  function Folded(t: Option<Tracked>, arrivals: seq<Arrival>): Option<Tracked>
    decreases |arrivals|
  {
    if arrivals == [] then t else Folded(Some(Applied(t, arrivals[0].0, arrivals[0].1)), arrivals[1..])
  }

  /** The arrivals whose sequence exceeds `floor` and all earlier ones. */
  function Rising(arrivals: seq<Arrival>, floor: nat): (r: seq<Arrival>)
    ensures forall k :: 0 <= k < |r| ==> r[k].0.sequence > floor
    ensures forall j, k :: 0 <= j < k < |r| ==> r[j].0.sequence < r[k].0.sequence
    decreases |arrivals|
  {
    if arrivals == [] then []
    else if arrivals[0].0.sequence > floor then [arrivals[0]] + Rising(arrivals[1..], arrivals[0].0.sequence)
    else Rising(arrivals[1..], floor)
  }

  /** Identifiers are not used for two different positions of the sequence, also not by the last event. */
  ghost predicate IdsAreUnique(lastId: Option<(Id, nat)>, arrivals: seq<Arrival>) {
    && (forall j, k :: 0 <= j < |arrivals| && 0 <= k < |arrivals| && arrivals[j].0.id == arrivals[k].0.id ==>
          arrivals[j].0.sequence == arrivals[k].0.sequence)
    && (lastId.Some? ==>
          forall k :: 0 <= k < |arrivals| && arrivals[k].0.id == lastId.value.0 ==> arrivals[k].0.sequence == lastId.value.1)
  }

  lemma {:induction false} StreamFrom(t: Tracked, arrivals: seq<Arrival>)
    requires forall k :: 0 <= k < |arrivals| ==> arrivals[k].0.sequence > 0
    requires IdsAreUnique(Some((t.lastId, t.run.sequence)), arrivals)
    ensures Fed(Some(t), arrivals) == Folded(Some(t), Rising(arrivals, t.run.sequence))
    decreases |arrivals|
  {
    if arrivals != [] {
      var (e, now) := arrivals[0];
      var rest := arrivals[1..];
      assert forall k :: 0 <= k < |rest| ==> rest[k] == arrivals[k + 1];
      if e.sequence > t.run.sequence {
        StreamFrom(Applied(Some(t), e, now), rest);
        assert ([arrivals[0]] + Rising(rest, e.sequence))[1..] == Rising(rest, e.sequence);
      } else {
        StreamFrom(t, rest);
      }
    }
  }

  /** For positive sequence numbers and unambiguous event ids, duplicates and stale arrivals make no
      difference: the run is what its strictly rising arrivals alone make of it. */
  lemma StreamIsItsRisingPart(arrivals: seq<Arrival>)
    requires forall k :: 0 <= k < |arrivals| ==> arrivals[k].0.sequence > 0
    requires IdsAreUnique(None, arrivals)
    ensures Fed(None, arrivals) == Folded(None, Rising(arrivals, 0))
  {
    if arrivals != [] {
      var (e, now) := arrivals[0];
      var rest := arrivals[1..];
      assert forall k :: 0 <= k < |rest| ==> rest[k] == arrivals[k + 1];
      StreamFrom(Applied(None, e, now), rest);
      assert ([arrivals[0]] + Rising(rest, e.sequence))[1..] == Rising(rest, e.sequence);
    }
  }

  // ------------------------------------------------------------ what a run shows

  /** The arrivals that are accepted. */
  function Accepted(t: Option<Tracked>, arrivals: seq<Arrival>): seq<Arrival>
    decreases |arrivals|
  {
    if arrivals == [] then []
    else
      var (e, now) := arrivals[0];
      if Accepts(t, e) then [arrivals[0]] + Accepted(Some(Applied(t, e, now)), arrivals[1..]) else Accepted(t, arrivals[1..])
  }

  lemma {:induction false} OnlyAcceptedCount(t: Option<Tracked>, arrivals: seq<Arrival>)
    ensures Fed(t, arrivals) == Folded(t, Accepted(t, arrivals))
    decreases |arrivals|
  {
    if arrivals != [] {
      var (e, now) := arrivals[0];
      OnlyAcceptedCount(if Accepts(t, e) then Some(Applied(t, e, now)) else t, arrivals[1..]);
      assert Accepts(t, e) ==> Accepted(t, arrivals)[1..] == Accepted(Some(Applied(t, e, now)), arrivals[1..]);
    }
  }

  lemma {:induction false} FoldedLast(t: Option<Tracked>, arrivals: seq<Arrival>)
    requires arrivals != []
    ensures var n := |arrivals| - 1;
            Folded(t, arrivals) == Some(Applied(Folded(t, arrivals[..n]), arrivals[n].0, arrivals[n].1))
    decreases |arrivals|
  {
    var n := |arrivals| - 1;
    if n > 0 {
      FoldedLast(Some(Applied(t, arrivals[0].0, arrivals[0].1)), arrivals[1..]);
      assert arrivals[1..][..n - 1] == arrivals[..n][1..];
    }
  }

  predicate NamesAnEnd(e: Event) {
    e.runState in {Some(COMPLETED), Some(FAILED), Some(CANCELLED), Some(KILLED)}
  }

  /** How many engines run after these events: one more or less for each start and stop, never below
      none, and none are left of those before an event that names an end. */
  function EnginesAfter(engines: nat, arrivals: seq<Arrival>): nat
    decreases |arrivals|
  {
    if arrivals == [] then engines
    else
      var e := arrivals[|arrivals| - 1].0;
      var before := if NamesAnEnd(e) then 0 else EnginesAfter(engines, arrivals[..|arrivals| - 1]);
      if e.kind.EngineStarted? then before + 1 else if e.kind.EngineStopped? && before > 0 then before - 1 else before
  }

  function EnginesOfRun(t: Option<Tracked>): nat {
    if t.Some? then t.value.engines else 0
  }

  lemma {:induction false} EnginesAfterStream(t: Option<Tracked>, arrivals: seq<Arrival>)
    ensures EnginesOfRun(Folded(t, arrivals)) == EnginesAfter(EnginesOfRun(t), arrivals)
    decreases |arrivals|
  {
    if arrivals != [] {
      EnginesAfterStream(t, arrivals[..|arrivals| - 1]);
      FoldedLast(t, arrivals);
    }
  }

  /** News about the state: an event that names one, a start, or the stop of the last engine. */
  predicate IsNews(engines: nat, arrivals: seq<Arrival>, k: nat)
    requires k < |arrivals|
  {
    var e := arrivals[k].0;
    e.runState.Some? || e.kind.EngineStarted? || e.kind.SpiderOpened?
    || (e.kind.EngineStopped? && EnginesAfter(engines, arrivals[..k + 1]) == 0)
  }

  ghost predicate LastNews(engines: nat, arrivals: seq<Arrival>, k: nat) {
    k < |arrivals| && IsNews(engines, arrivals, k) && forall j :: k < j < |arrivals| ==> !IsNews(engines, arrivals, j)
  }

  ghost predicate NoNews(engines: nat, arrivals: seq<Arrival>) {
    forall j :: 0 <= j < |arrivals| ==> !IsNews(engines, arrivals, j)
  }

  /** What the news is. */
  function Told(e: Event): RunState {
    if e.runState.Some? then e.runState.value else if e.kind.EngineStopped? then COMPLETED else RUNNING
  }

  function StateOf(t: Option<Tracked>): RunState {
    if t.Some? then t.value.run.state else ACCEPTED
  }

  lemma NewsOfFront(engines: nat, arrivals: seq<Arrival>, n: nat, k: nat)
    requires k < n <= |arrivals|
    ensures IsNews(engines, arrivals[..n], k) == IsNews(engines, arrivals, k)
  {
    assert arrivals[..n][..k + 1] == arrivals[..k + 1];
  }

  lemma LastEventDecides(t: Option<Tracked>, arrivals: seq<Arrival>)
    requires arrivals != []
    ensures var n, engines := |arrivals| - 1, EnginesOfRun(t);
            StateOf(Folded(t, arrivals))
            == if IsNews(engines, arrivals, n) then Told(arrivals[n].0) else StateOf(Folded(t, arrivals[..n]))
  {
    FoldedLast(t, arrivals);
    EnginesAfterStream(t, arrivals);
    assert arrivals[..|arrivals| - 1 + 1] == arrivals;
  }

  lemma {:induction false} FoldedShowsLastNews(t: Option<Tracked>, arrivals: seq<Arrival>, k: nat)
    ensures LastNews(EnginesOfRun(t), arrivals, k) ==> StateOf(Folded(t, arrivals)) == Told(arrivals[k].0)
    ensures NoNews(EnginesOfRun(t), arrivals) ==> StateOf(Folded(t, arrivals)) == StateOf(t)
    decreases |arrivals|
  {
    if arrivals != [] {
      var n, engines := |arrivals| - 1, EnginesOfRun(t);
      FoldedShowsLastNews(t, arrivals[..n], k);
      LastEventDecides(t, arrivals);
      forall j: nat | j < n ensures IsNews(engines, arrivals[..n], j) == IsNews(engines, arrivals, j) {
        NewsOfFront(engines, arrivals, n, j);
      }
    }
  }

  /** Over any stream, for a known run or an unknown one, and whatever states its events name: the run
      shows what the last news among the accepted events says, and without any what it showed before. */
  lemma RunShowsLastNews(t: Option<Tracked>, arrivals: seq<Arrival>, k: nat)
    ensures var taken := Accepted(t, arrivals);
            && (LastNews(EnginesOfRun(t), taken, k) ==> StateOf(Fed(t, arrivals)) == Told(taken[k].0))
            && (NoNews(EnginesOfRun(t), taken) ==> StateOf(Fed(t, arrivals)) == StateOf(t))
            && EnginesOfRun(Fed(t, arrivals)) == EnginesAfter(EnginesOfRun(t), taken)
  {
    var taken := Accepted(t, arrivals);
    OnlyAcceptedCount(t, arrivals);
    FoldedShowsLastNews(t, taken, k);
    EnginesAfterStream(t, taken);
  }

  function SpidersIn(arrivals: seq<Arrival>): set<string> {
    set k | 0 <= k < |arrivals| && arrivals[k].0.spider.Some? && arrivals[k].0.spider != Some("") :: arrivals[k].0.spider.value
  }

  lemma SpidersGrow(arrivals: seq<Arrival>)
    requires arrivals != []
    ensures var n := |arrivals| - 1; SpidersIn(arrivals) == Merged(SpidersIn(arrivals[..n]), arrivals[n].0.spider)
  {
    var n := |arrivals| - 1;
    forall s ensures s in SpidersIn(arrivals) <==> s in Merged(SpidersIn(arrivals[..n]), arrivals[n].0.spider) {
      if s in SpidersIn(arrivals[..n]) {
        var k :| 0 <= k < n && arrivals[..n][k].0.spider == Some(s) && s != "";
        assert arrivals[k].0.spider == Some(s);
      }
      if s in SpidersIn(arrivals) {
        var k :| 0 <= k < |arrivals| && arrivals[k].0.spider == Some(s) && s != "";
        assert k < n ==> arrivals[..n][k].0.spider == Some(s);
      }
    }
  }

  lemma {:induction false} FoldedSpiders(t: Option<Tracked>, arrivals: seq<Arrival>)
    requires arrivals != []
    ensures Folded(t, arrivals).Some?
    ensures Folded(t, arrivals).value.run.spiders == (if t.Some? then t.value.run.spiders else {}) + SpidersIn(arrivals)
    decreases |arrivals|
  {
    var n := |arrivals| - 1;
    FoldedLast(t, arrivals);
    SpidersGrow(arrivals);
    if n > 0 {
      FoldedSpiders(t, arrivals[..n]);
    } else {
      assert SpidersIn(arrivals[..n]) == {} && arrivals[..n] == [];
    }
  }

  /** The rest of a run's snapshot: worker, time and details of its last accepted event, and the spiders
      that any of them named. */
  lemma SnapshotIsLatest(t: Option<Tracked>, arrivals: seq<Arrival>)
    requires Accepted(t, arrivals) != []
    ensures Fed(t, arrivals).Some?
    ensures var taken := Accepted(t, arrivals);
            var (last, run) := (taken[|taken| - 1], Fed(t, arrivals).value.run);
            && Fed(t, arrivals).value.lastId == last.0.id
            && run.worker == last.0.worker && run.payload == last.0.payload && run.observedAt == last.1
            && run.spiders == (if t.Some? then t.value.run.spiders else {}) + SpidersIn(taken)
  {
    var taken := Accepted(t, arrivals);
    OnlyAcceptedCount(t, arrivals);
    FoldedLast(t, taken);
    FoldedSpiders(t, taken);
  }

  /** Engines started minus engines stopped. */
  function Net(arrivals: seq<Arrival>): int
    decreases |arrivals|
  {
    if arrivals == [] then 0
    else Net(arrivals[1..]) + (match arrivals[0].0.kind case EngineStarted => 1 case EngineStopped => -1 case _ => 0)
  }

  /** No engine stops that had not started. */
  predicate NeverBelow(engines: int, arrivals: seq<Arrival>)
    decreases |arrivals|
  {
    engines >= 0 && (arrivals != [] ==> NeverBelow(engines + Net(arrivals[..1]), arrivals[1..]))
  }

  /** While a run reports no state of its own, its engine count is the number of engines running, and the
      run completes with its last engine and not before. */
  lemma {:induction false} EnginesAreCounted(t: Tracked, arrivals: seq<Arrival>)
    requires NeverBelow(t.engines, arrivals) && forall k :: 0 <= k < |arrivals| ==> arrivals[k].0.runState.None?
    ensures Folded(Some(t), arrivals).Some? && Folded(Some(t), arrivals).value.engines == t.engines + Net(arrivals)
    ensures arrivals != [] && arrivals[|arrivals| - 1].0.kind.EngineStopped? && t.engines + Net(arrivals) == 0 ==>
              Folded(Some(t), arrivals).value.run.state == COMPLETED
    ensures arrivals != [] && arrivals[|arrivals| - 1].0.kind.EngineStarted? ==>
              Folded(Some(t), arrivals).value.run.state == RUNNING
    ensures (t.run.state == COMPLETED ==> t.engines == 0) ==>
              (Folded(Some(t), arrivals).value.run.state == COMPLETED ==> t.engines + Net(arrivals) == 0)
    decreases |arrivals|
  {
    if arrivals != [] {
      var (e, now) := arrivals[0];
      assert arrivals[..1][0] == arrivals[0] && arrivals[..1][1..] == [];
      EnginesAreCounted(Applied(Some(t), e, now), arrivals[1..]);
    }
  }

  /** A worker and its engine count after a stream of its events that end no run. */
  function WorkerFed(previous: Option<Worker>, engines: nat, arrivals: seq<Arrival>): (Option<Worker>, nat)
    decreases |arrivals|
  {
    if arrivals == [] then (previous, engines)
    else
      var (e, now) := arrivals[0];
      var counted := Counted(engines, e.kind);
      WorkerFed(Some(WorkerAfter(previous, counted, e, now)), counted, arrivals[1..])
  }

  /** The last event that is about an engine or a spider. */
  function LastDeciding(arrivals: seq<Arrival>): Kind
    decreases |arrivals|
  {
    if arrivals == [] then Anything
    else if arrivals[|arrivals| - 1].0.kind.Anything? then LastDeciding(arrivals[..|arrivals| - 1])
    else arrivals[|arrivals| - 1].0.kind
  }

  lemma {:induction false} LastDecidingOfRest(arrivals: seq<Arrival>)
    requires arrivals != []
    ensures LastDeciding(arrivals)
         == if LastDeciding(arrivals[1..]).Anything? then arrivals[0].0.kind else LastDeciding(arrivals[1..])
    decreases |arrivals|
  {
    var n := |arrivals| - 1;
    if n > 0 {
      assert arrivals[1..][n - 1] == arrivals[n] && arrivals[1..][..n - 1] == arrivals[..n][1..];
      LastDecidingOfRest(arrivals[..n]);
    }
  }

  lemma {:induction false} NoEngineNews(arrivals: seq<Arrival>)
    requires LastDeciding(arrivals).Anything?
    ensures Net(arrivals) == 0
    decreases |arrivals|
  {
    if arrivals != [] {
      LastDecidingOfRest(arrivals);
      NoEngineNews(arrivals[1..]);
    }
  }

  /** For any stream in which the worker names no state: its engine count is the number of engines
      running, it shows as stopped exactly when none is and the last news was that one stopped (or there
      was no such news, and it was stopped before), and as active while one runs. */
  lemma {:induction false} WorkerStopsWithItsEngines(previous: Worker, engines: nat, arrivals: seq<Arrival>)
    requires NeverBelow(engines, arrivals) && forall k :: 0 <= k < |arrivals| ==> arrivals[k].0.workerState.None?
    ensures var (worker, running) := WorkerFed(Some(previous), engines, arrivals);
            && worker.Some? && running == engines + Net(arrivals)
            && (worker.value.status == STOPPED <==>
                  match LastDeciding(arrivals)
                  case Anything => previous.status == STOPPED
                  case last => last.EngineStopped? && running == 0)
            && ((engines > 0 ==> previous.status == ACTIVE) && running > 0 ==> worker.value.status == ACTIVE)
    decreases |arrivals|
  {
    if arrivals != [] {
      var (e, now) := arrivals[0];
      var counted := Counted(engines, e.kind);
      assert arrivals[..1][0] == arrivals[0] && arrivals[..1][1..] == [];
      LastDecidingOfRest(arrivals);
      assert Net(arrivals) == Net(arrivals[..1]) + Net(arrivals[1..]);
      WorkerStopsWithItsEngines(WorkerAfter(Some(previous), counted, e, now), counted, arrivals[1..]);
      if LastDeciding(arrivals[1..]).Anything? {
        NoEngineNews(arrivals[1..]);
      }
    }
  }

  /** An event of a worker, its engine count by then, and the clock. */
  type News = (Event, nat, real)

  function WorkerOver(previous: Option<Worker>, news: seq<News>): Option<Worker>
    decreases |news|
  {
    if news == [] then previous
    else
      var n := |news| - 1;
      Some(WorkerAfter(WorkerOver(previous, news[..n]), news[n].1, news[n].0, news[n].2))
  }

  /** Whatever its events name and count, a worker shows what the last event says that says anything: the
      state it names; active for a start; after a stop active or stopped, depending on the count. */
  lemma {:induction false} WorkerShowsLastNews(previous: Option<Worker>, news: seq<News>, k: nat)
    requires k < |news| && forall j :: k < j < |news| ==> news[j].0.workerState.None? && news[j].0.kind.Anything?
    ensures var (e, count, _) := news[k];
            var worker := WorkerOver(previous, news).value;
            && (e.workerState.Some? ==> worker.status == e.workerState.value)
            && (e.workerState.None? && (e.kind.EngineStarted? || e.kind.SpiderOpened?) ==> worker.status == ACTIVE)
            && (e.workerState.None? && e.kind.EngineStopped? ==> worker.status == if count > 0 then ACTIVE else STOPPED)
            && worker.payload == news[|news| - 1].0.payload && worker.observedAt == news[|news| - 1].2
    ensures (forall j :: 0 <= j < |news| ==> news[j].0.workerState.None? && news[j].0.kind.Anything?) ==>
              WorkerOver(previous, news).value.status == (if previous.Some? then previous.value.status else REGISTERED)
    decreases |news|
  {
    var n := |news| - 1;
    if k < n {
      WorkerShowsLastNews(previous, news[..n], k);
    } else if n > 0 && forall j :: 0 <= j < |news| ==> news[j].0.workerState.None? && news[j].0.kind.Anything? {
      WorkerShowsLastNews(previous, news[..n], n - 1);
    }
  }

  /** A worker's count stays the sum over its runs, `mine` in the event's own run and `others` elsewhere,
      exactly unless an engine stops while other runs have some and the event names an end of its run as
      well, or its run had no engine: such a stop takes an engine from another run. */
  lemma WorkerCountStaysTheSum(e: Event, mine: nat, others: nat)
    ensures WorkerCount(mine + others, mine, e) == EnginesAfter(mine, [(e, 0.0)]) + others
            <==> !(e.kind.EngineStopped? && others > 0 && (NamesAnEnd(e) || mine == 0))
  {
    var stream: seq<Arrival> := [(e, 0.0)];
    assert stream[..0] == [] && EnginesAfter(mine, stream[..0]) == mine;
  }

  /** One of two running runs of a worker ends as its only engine stops: the worker shows as stopped. */
  lemma StoppedWhileRunning(worker: Worker, e: Event, now: real)
    requires e.kind.EngineStopped? && e.runState == Some(COMPLETED) && e.workerState.None?
    ensures WorkerAfter(Some(worker), WorkerCount(2, 1, e), e, now).status == STOPPED
    ensures EnginesAfter(1, [(e, now)]) == 0
  {
  }

  /** The sequence a run shows never decreases, whatever arrives. */
  lemma {:induction false} SequenceNeverDecreases(t: Tracked, arrivals: seq<Arrival>)
    ensures Fed(Some(t), arrivals).Some? && Fed(Some(t), arrivals).value.run.sequence >= t.run.sequence
    decreases |arrivals|
  {
    if arrivals != [] {
      var (e, now) := arrivals[0];
      SequenceNeverDecreases(if Accepts(Some(t), e) then Applied(Some(t), e, now) else t, arrivals[1..]);
    }
  }

  /** A newer event is turned away exactly when it reuses the identifier of the last accepted one, and
      then the run is not what its rising arrivals make of it. */
  lemma {:induction false} NewerEventIsRejected(t: Tracked, newer: Arrival)
    requires newer.0.sequence > t.run.sequence
    ensures Rising([newer], t.run.sequence) == [newer]
    ensures Fed(Some(t), [newer]) == Folded(Some(t), [newer]) <==> newer.0.id != t.lastId
  {
    assert Applied(Some(t), newer.0, newer.1).run.sequence == newer.0.sequence;
  }

  function RunningOf(runs: map<Id, Run>): set<Id> {
    set k | k in runs && !Terminal(runs[k].state)
  }

  lemma Remaining<K>(all: set<K>, kept: set<K>)
    requires kept <= all
    ensures |all - kept| == |all| - |kept|
  {
    assert all == (all - kept) + kept;
  }

  /** When those of `late` go only after all others have gone, exactly those go that exceed the limit by
      themselves. */
  lemma LateOnesStay<K>(before: set<K>, after: set<K>, late: set<K>, max: nat)
    requires after <= before && late <= before && |after| == (if |before| <= max then |before| else max)
    requires forall gone, kept :: gone in before && gone !in after && gone in late && kept in after ==> kept in late
    ensures |late - after| == Minus(|late|, max)
  {
    if gone :| gone in late && gone !in after {
      if |before| <= max {
        SameSizeIsAll(after, before);
      }
      Remaining(late, after);
    } else {
      assert late - after == {};
      SubsetsAreSmaller(late, after);
    }
  }

  /** Eviction takes exactly as many runs that are still going as exceed the limit by themselves, so none
      while ended runs can make room; and of two alike it takes the older. */
  lemma RunningRunsStay(before: map<Id, Run>, after: map<Id, Run>, max: nat, gone: Id, kept: Id)
    requires Evicted(before, after, max)
    ensures |RunningOf(before) - after.Keys| == Minus(|RunningOf(before)|, max)
    ensures gone in before && gone !in after && kept in after && Terminal(before[gone].state) == Terminal(after[kept].state)
      ==> before[gone].observedAt <= after[kept].observedAt
  {
    forall g, k | g in before && g !in after && g in RunningOf(before) && k in after ensures k in RunningOf(before) {
      assert RunBefore(before[g], before[k]);
    }
    LateOnesStay(before.Keys, after.Keys, RunningOf(before), max);
    if gone in before && gone !in after && kept in after {
      assert RunBefore(before[gone], before[kept]);
    }
  }

  function WorkersUp(workers: map<WorkerKey, Worker>): set<WorkerKey> {
    set k | k in workers && workers[k].status != STOPPED
  }

  /** The same for workers: stopped ones make room first. */
  lemma WorkersUpStay(before: map<WorkerKey, Worker>, after: map<WorkerKey, Worker>, max: nat, gone: WorkerKey, kept: WorkerKey)
    requires WorkersEvicted(before, after, max)
    ensures |WorkersUp(before) - after.Keys| == Minus(|WorkersUp(before)|, max)
    ensures gone in before && gone !in after && kept in after && (before[gone].status == STOPPED) == (after[kept].status == STOPPED)
      ==> before[gone].observedAt <= after[kept].observedAt
  {
    forall g, k | g in before && g !in after && g in WorkersUp(before) && k in after ensures k in WorkersUp(before) {
      assert WorkerBefore(before[g], before[k]);
    }
    LateOnesStay(before.Keys, after.Keys, WorkersUp(before), max);
    if gone in before && gone !in after && kept in after {
      assert WorkerBefore(before[gone], before[kept]);
    }
  }
}
