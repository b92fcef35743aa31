/** Completion detection: the engine's request ledger, its tasks and the completion watcher of
    scrapy_cffi/core/engine.py, as one transition system whose steps are the code between two awaits. */
module Completion {
  import opened Common
  import Executions
  import opened TaskManagement

  /** A work id, as handed out by _track_request: 1, 2, 3, ... */
  type Id = nat

  // ------------------------------------------------------------ the ledger

  /** _work_sequence, _pending_work_ids and the flag of _work_idle_event. */
  datatype Ledger = Ledger(sequence: nat, pending: set<Id>, idle: bool)

  const EMPTY_LEDGER := Ledger(0, {}, true)

  /** The id a request has once tracked: the one in its meta, or the next fresh one. */
  function TrackedId(l: Ledger, meta: Option<Id>): Id {
    if meta.Some? then meta.value else l.sequence + 1
  }

  function Track(l: Ledger, meta: Option<Id>): Ledger {
    var id := TrackedId(l, meta);
    Ledger(if meta.Some? then l.sequence else l.sequence + 1, l.pending + {id},
           if id in l.pending then l.idle else false)
  }

  function Release(l: Ledger, id: Id): Ledger {
    var rest := l.pending - {id};
    Ledger(l.sequence, rest, if rest == {} then true else l.idle)
  }

  /** The engine's own fields, changed in place by _track_request and _release_request. */
  class RequestLedger {
    var workSequence: nat
    var pendingWorkIds: set<Id>
    var workIdle: bool

    ghost function View(): Ledger
      reads this
    {
      Ledger(workSequence, pendingWorkIds, workIdle)
    }

    constructor ()
      ensures View() == EMPTY_LEDGER
    {
      workSequence, pendingWorkIds, workIdle := 0, {}, true;
    }

    method TrackRequest(meta: Option<Id>) returns (id: Id)
      modifies this
      ensures View() == Track(old(View()), meta) && id == TrackedId(old(View()), meta)
    {
      if meta.Some? {
        id := meta.value;
      } else {
        workSequence := workSequence + 1;
        id := workSequence;
      }
      if id !in pendingWorkIds {
        pendingWorkIds := pendingWorkIds + {id};
        workIdle := false;
      } else {
        assert pendingWorkIds + {id} == pendingWorkIds;
      }
    }

    method ReleaseRequest(id: Id)
      modifies this
      ensures View() == Release(old(View()), id)
    {
      pendingWorkIds := pendingWorkIds - {id};
      if pendingWorkIds == {} {
        workIdle := true;
      }
    }
  }

  // ------------------------------------------------------------ the tasks

  /** The engine methods that run as managed tasks. */
  datatype Role = LOOP | PRODUCER | OUTPUT | RESULT | ENQUEUE | CHAIN | DOWNLOADER | SOCKET

  /** Where a managed task stands. A stage that mentions an id holds that request. */
  datatype Stage =
    | LoopWaiting
    | LoopHolding(id: Id)
    | Producing
    | StartOutput                                    // get_spider_output of a start result
    | Managing(child: Option<Id>)                    // a result task about to create enqueue_request
    | Enqueueing(child: Option<Id>)                  // enqueue_request before _track_request
    | Putting(id: Id)                                // awaiting scheduler.put
    | Chaining(id: Id)
    | Downloading(id: Id)
    | SocketOpen(id: Id)                             // the request's WebSocket is connected
    | SourceOutput(source: Id, fromSocket: bool)     // get_spider_output of a response
    | SourcePutting(source: Id, fromSocket: bool, id: Id)
    | Gone                                           // over and no longer counted

  datatype Task = Task(role: Role, at: Stage)

  datatype Watcher = AwaitProducer | AwaitIdle | AwaitQuiet | Returned

  datatype State = State(
    ledger: Ledger,
    tasks: seq<Task>,
    queue: seq<Id>,
    watcher: Watcher,
    shared: set<Id>)   // history: ids that ever had two holders who may both release them

  /** How many times a stage holds `id`: it will release it, drop it or pass it on. */
  function Holds(at: Stage, id: Id): nat {
    match at
    case LoopHolding(held) => if held == id then 1 else 0
    case Managing(child) => if child == Some(id) then 1 else 0
    case Enqueueing(child) => if child == Some(id) then 1 else 0
    case Putting(held) => if held == id then 1 else 0
    case Chaining(held) => if held == id then 1 else 0
    case Downloading(held) => if held == id then 1 else 0
    case SocketOpen(held) => if held == id then 1 else 0
    case SourceOutput(source, fromSocket) => if source == id && !fromSocket then 1 else 0
    case SourcePutting(source, fromSocket, held) =>
      (if source == id && !fromSocket then 1 else 0) + (if held == id then 1 else 0)
    case _ => 0
  }

  ghost function TaskHolds(tasks: seq<Task>, id: Id): nat {
    if tasks == [] then 0 else TaskHolds(tasks[..|tasks| - 1], id) + Holds(tasks[|tasks| - 1].at, id)
  }

  ghost function QueueHolds(queue: seq<Id>, id: Id): nat {
    multiset(queue)[id]
  }

  ghost function Holders(s: State, id: Id): nat {
    QueueHolds(s.queue, id) + TaskHolds(s.tasks, id)
  }

  /** A task that counts as work: the loops and the producer are excluded by name. */
  predicate Working(t: Task) {
    t.at != Gone && t.role != LOOP && t.role != PRODUCER
  }

  predicate NoWork(s: State) {
    forall i :: 0 <= i < |s.tasks| ==> !Working(s.tasks[i])
  }

  predicate ProducerDone(s: State) {
    forall i :: 0 <= i < |s.tasks| ==> s.tasks[i].at != Producing
  }

  // ------------------------------------------------------------ the steps

  datatype Step =
    | ProducerYields(i: nat) | ProducerEnds(i: nat)
    | StartEmits(i: nat, child: Option<Id>) | StartEnds(i: nat)
    | ResultReschedules(i: nat) | ResultEnds(i: nat)
    | EnqueueTracks(i: nat) | PutAccepts(i: nat) | PutRejects(i: nat)
    | LoopGets(i: nat) | LoopDispatches(i: nat)
    | ChainReschedules(i: nat, child: Option<Id>) | ChainDownloads(i: nat) | ChainRepeats(i: nat)
    | ChainCallsBack(i: nat) | ChainCompletes(i: nat) | ChainDrops(i: nat)
    | DownloadAnswers(i: nat) | DownloadOpensSocket(i: nat) | DownloadDrops(i: nat)
    | SocketAnswers(i: nat) | SocketMessage(i: nat) | SocketHandsOver(i: nat, next: Stage)
    | SocketReschedules(i: nat, child: Option<Id>)
    | SocketReleases(i: nat) | SocketCloses(i: nat)
    | SourceEmits(i: nat, child: Option<Id>) | SourcePutAccepts(i: nat) | SourcePutRejects(i: nat)
    | SourceSpawns(i: nat, child: Option<Id>) | SourceEnds(i: nat) | SourceFails(i: nat)
    | WatcherSeesProducer | WatcherWakes | WatcherChecks

  datatype LedgerOp = Keep | TrackMeta(meta: Option<Id>) | ReleaseId(id: Id)
  datatype QueueOp = Same | Take | Append(id: Id)

  /** What one task step does: the task's next stage, a task it creates, its ledger and queue
      operations, and an id that from now on has a second holder. */
  datatype Effect = Effect(at: Stage, created: Option<Task>, ledger: LedgerOp, queue: QueueOp, share: Option<Id>)

  function To(at: Stage): Option<Effect> {
    Some(Effect(at, None, Keep, Same, None))
  }

  function Creating(at: Stage, role: Role, created: Stage, share: Option<Id>): Option<Effect> {
    Some(Effect(at, Some(Task(role, created)), Keep, Same, share))
  }

  /** A request's meta can only carry an id that was handed out before. */
  predicate Known(l: Ledger, child: Option<Id>) {
    child.Some? ==> child.value <= l.sequence
  }

  function RoleOf(next: Stage): Role {
    match next
    case Chaining(_) => CHAIN
    case _ => OUTPUT
  }

  /** A task leaves the counts in the step in which its body ends. The source's wrapped() decrements
      them a moment later, which can only delay the watcher: every order it allows is a run here. */
  function Ending(ledger: LedgerOp): Option<Effect> {
    Some(Effect(Gone, None, ledger, Same, None))
  }

  /** The effect of `step` on a task at stage `at`; None when the step is not enabled. */
  function TaskEffect(l: Ledger, head: Option<Id>, step: Step, at: Stage): Option<Effect> {
    match (step, at)
    case (ProducerYields(_), Producing) => Creating(at, OUTPUT, StartOutput, None)
    case (ProducerEnds(_), Producing) => To(Gone)
    case (StartEmits(_, child), StartOutput) =>
      if Known(l, child) then Creating(at, RESULT, Managing(child), child) else None
    case (StartEnds(_), StartOutput) => To(Gone)
    case (ResultReschedules(_), Managing(child)) => Creating(Gone, ENQUEUE, Enqueueing(child), None)
    case (ResultEnds(_), Managing(_)) => To(Gone)
    case (EnqueueTracks(_), Enqueueing(child)) =>
      Some(Effect(Putting(TrackedId(l, child)), None, TrackMeta(child), Same, None))
    case (PutAccepts(_), Putting(id)) => Some(Effect(Gone, None, Keep, Append(id), None))
    case (PutRejects(_), Putting(id)) => Ending(ReleaseId(id))
    case (LoopGets(_), LoopWaiting) =>
      if head.Some? then Some(Effect(LoopHolding(head.value), None, Keep, Take, None)) else None
    case (LoopDispatches(_), LoopHolding(id)) => Creating(LoopWaiting, CHAIN, Chaining(id), None)
    case (ChainReschedules(_, child), Chaining(id)) =>
      if Known(l, child) then
        Creating(Gone, ENQUEUE, Enqueueing(child), if child == Some(id) then None else child)
      else None
    case (ChainDownloads(_), Chaining(id)) => Creating(Gone, DOWNLOADER, Downloading(id), None)
    case (ChainRepeats(_), Chaining(id)) => Creating(Gone, CHAIN, Chaining(id), None)
    case (ChainCallsBack(_), Chaining(id)) => Creating(Gone, OUTPUT, SourceOutput(id, false), None)
    case (ChainCompletes(_), Chaining(id)) => Ending(ReleaseId(id))
    case (ChainDrops(_), Chaining(_)) => To(Gone)
    case (DownloadAnswers(_), Downloading(id)) => To(Chaining(id))
    case (DownloadOpensSocket(_), Downloading(id)) => Creating(Gone, SOCKET, SocketOpen(id), None)
    case (DownloadDrops(_), Downloading(_)) => To(Gone)
    case (SocketAnswers(_), SocketOpen(id)) => To(Chaining(id))
    case (SocketMessage(_), SocketOpen(id)) => Creating(at, OUTPUT, SourceOutput(id, true), None)
    case (SocketHandsOver(_, next), SocketOpen(id)) =>
      if next in {Chaining(id), SourceOutput(id, false)} then Creating(at, RoleOf(next), next, Some(id)) else None
    case (SocketReschedules(_, child), SocketOpen(_)) =>
      if Known(l, child) then Creating(at, ENQUEUE, Enqueueing(child), child) else None
    case (SocketReleases(_), SocketOpen(id)) => Some(Effect(at, None, ReleaseId(id), Same, Some(id)))
    case (SocketCloses(_), SocketOpen(id)) => Ending(ReleaseId(id))
    case (SourceEmits(_, child), SourceOutput(source, fromSocket)) =>
      if Known(l, child) then
        Some(Effect(SourcePutting(source, fromSocket, TrackedId(l, child)), None, TrackMeta(child), Same, child))
      else None
    case (SourcePutAccepts(_), SourcePutting(source, fromSocket, id)) =>
      Some(Effect(SourceOutput(source, fromSocket), None, Keep, Append(id), None))
    case (SourcePutRejects(_), SourcePutting(source, fromSocket, id)) =>
      Some(Effect(SourceOutput(source, fromSocket), None, ReleaseId(id), Same, None))
    case (SourceSpawns(_, child), SourceOutput(_, _)) =>
      if Known(l, child) then Creating(at, ENQUEUE, Enqueueing(child), child) else None
    case (SourceEnds(_), SourceOutput(source, fromSocket)) => Ending(if fromSocket then Keep else ReleaseId(source))
    case (SourceFails(_), SourceOutput(_, _)) => To(Gone)
    case _ => None
  }

  function ApplyLedger(l: Ledger, op: LedgerOp): Ledger {
    match op
    case Keep => l
    case TrackMeta(meta) => Track(l, meta)
    case ReleaseId(id) => Release(l, id)
  }

  function Apply(s: State, i: nat, e: Effect): State
    requires i < |s.tasks| && (e.queue.Take? ==> s.queue != [])
  {
    var moved := s.tasks[i := s.tasks[i].(at := e.at)];
    State(ApplyLedger(s.ledger, e.ledger),
          if e.created.Some? then moved + [e.created.value] else moved,
          match e.queue case Same => s.queue case Take => s.queue[1..] case Append(id) => s.queue + [id],
          s.watcher,
          if e.share.Some? then s.shared + {e.share.value} else s.shared)
  }

  function Head(queue: seq<Id>): Option<Id> {
    if queue == [] then None else Some(queue[0])
  }

  /** _wait_for_explicit_completion. Its last two tests share one step: leaving the TaskManager's
      lock does not suspend, so nothing can run between the scan and the look at the idle event. */
  function WatcherStep(s: State, step: Step): Option<State> {
    match step
    case WatcherSeesProducer =>
      if s.watcher == AwaitProducer && ProducerDone(s) then Some(s.(watcher := AwaitIdle)) else None
    case WatcherWakes =>
      if s.watcher == AwaitIdle && s.ledger.idle then Some(s.(watcher := AwaitQuiet)) else None
    case WatcherChecks =>
      if s.watcher == AwaitQuiet && NoWork(s) then
        Some(s.(watcher := if s.ledger.idle then Returned else AwaitIdle))
      else None
    case _ => None
  }

  function Next(s: State, step: Step): Option<State> {
    if step.WatcherSeesProducer? || step.WatcherWakes? || step.WatcherChecks? then WatcherStep(s, step)
    else if step.i >= |s.tasks| then None
    else
      match TaskEffect(s.ledger, Head(s.queue), step, s.tasks[step.i].at)
      case None => None
      case Some(e) => Some(Apply(s, step.i, e))
  }

  /** Engine.start: the producer and the scheduler loops exist before the watcher does. */
  function Initial(loops: nat): State {
    State(EMPTY_LEDGER, [Task(PRODUCER, Producing)] + seq(loops, _ => Task(LOOP, LoopWaiting)), [], AwaitProducer, {})
  }

  ghost predicate CanStep(s: State, s': State) {
    exists step :: Next(s, step) == Some(s')
  }

  ghost predicate IsInitial(s: State) {
    exists loops: nat :: s == Initial(loops)
  }

  /** Reached by some interleaving of the steps of all tasks and of the watcher. */
  ghost predicate Reachable(s: State) {
    Executions.Reaches(IsInitial, CanStep, s)
  }
}
