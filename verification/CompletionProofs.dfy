/** What completion detection guarantees: an ownership invariant over every interleaving, and from it
    the soundness and the finality of the watcher's return. */
module CompletionProofs {
  import opened Common
  import Executions
  import opened TaskManagement
  import opened Completion

  predicate Fits(t: Task) {
    && (t.at.LoopWaiting? || t.at.LoopHolding? <==> t.role == LOOP)
    && (t.at.Producing? ==> t.role == PRODUCER)
    && (t.role == PRODUCER ==> t.at.Producing? || t.at.Gone?)
  }

  /** Ownership: only an id with a sharing history can be held twice or be held but not pending. */
  predicate OwnedId(holders: nat, l: Ledger, shared: set<Id>, id: Id) {
    && (holders > 0 || id in l.pending || id in shared ==> id <= l.sequence)
    && (holders > 0 && id !in shared ==> holders == 1 && id in l.pending)
  }

  ghost predicate Shaped(s: State) {
    && (forall i :: 0 <= i < |s.tasks| ==> Fits(s.tasks[i]))
    && (s.watcher != AwaitProducer ==> ProducerDone(s))
  }

  ghost predicate Invariant(s: State) {
    && Shaped(s)
    && (s.ledger.idle <==> s.ledger.pending == {})
    && forall id :: OwnedId(Holders(s, id), s.ledger, s.shared, id)
  }

  // ------------------------------------------------------------ bookkeeping lemmas

  lemma {:induction false} HoldsAfterMove(tasks: seq<Task>, i: nat, t: Task, id: Id)
    requires i < |tasks|
    ensures TaskHolds(tasks[i := t], id) == TaskHolds(tasks, id) - Holds(tasks[i].at, id) + Holds(t.at, id)
  {
    var last := |tasks| - 1;
    if i == last {
      assert tasks[i := t][..last] == tasks[..last];
    } else {
      assert tasks[i := t][..last] == tasks[..last][i := t];
      HoldsAfterMove(tasks[..last], i, t, id);
    }
  }

  lemma {:induction false} HeldByOne(tasks: seq<Task>, i: nat, id: Id)
    requires i < |tasks|
    ensures TaskHolds(tasks, id) >= Holds(tasks[i].at, id)
  {
    if i < |tasks| - 1 {
      HeldByOne(tasks[..|tasks| - 1], i, id);
    }
  }

  lemma HoldsAfterCreate(tasks: seq<Task>, t: Task, id: Id)
    ensures TaskHolds(tasks + [t], id) == TaskHolds(tasks, id) + Holds(t.at, id)
  {
    assert (tasks + [t])[..|tasks|] == tasks;
  }

  lemma {:induction false} LoopsHoldNothing(loops: nat, id: Id)
    ensures TaskHolds(Initial(loops).tasks, id) == 0
  {
    var tasks := Initial(loops).tasks;
    if loops == 0 {
      assert tasks == [Task(PRODUCER, Producing)];
    } else {
      assert tasks[..|tasks| - 1] == Initial(loops - 1).tasks;
      LoopsHoldNothing(loops - 1, id);
    }
  }

  predicate TaskAt(s: State, step: Step) {
    !step.WatcherSeesProducer? && !step.WatcherWakes? && !step.WatcherChecks? && step.i < |s.tasks|
  }

  /** How often a step takes `id` from the holders, and how often it gives it back to them. */
  function Given(e: Effect, id: Id): nat {
    Holds(e.at, id) + (if e.created.Some? then Holds(e.created.value.at, id) else 0)
    + (if e.queue == Append(id) then 1 else 0)
  }

  function Taken(at: Stage, head: Option<Id>, e: Effect, id: Id): nat {
    Holds(at, id) + (if e.queue.Take? && head == Some(id) then 1 else 0)
  }

  /** Nothing is given beyond what was taken, except a shared id and a freshly tracked one, and an
      unshared id that is released is really given up. */
  predicate Balanced(l: Ledger, at: Stage, head: Option<Id>, e: Effect, id: Id) {
    var given, taken := Given(e, id), Taken(at, head, e, id);
    && (e.share == Some(id) ==> id <= l.sequence)
    && (e.ledger == TrackMeta(Some(id)) ==> id <= l.sequence)
    && (given <= taken || e.share == Some(id)
        || (e.ledger == TrackMeta(None) && id == l.sequence + 1 && given == 1))
    && (e.ledger == ReleaseId(id) && e.share != Some(id) ==> given < taken)
  }

  lemma SourceEffectsBalance(l: Ledger, head: Option<Id>, step: Step, at: Stage, id: Id)
    requires TaskEffect(l, head, step, at).Some? && (at.SourceOutput? || at.SourcePutting?)
    requires Holds(at, id) > 0 ==> id <= l.sequence
    ensures Balanced(l, at, head, TaskEffect(l, head, step, at).value, id)
  {
  }

  lemma RequestEffectsBalance(l: Ledger, head: Option<Id>, step: Step, at: Stage, id: Id)
    requires TaskEffect(l, head, step, at).Some? && (at.Chaining? || at.Downloading? || at.SocketOpen?)
    requires Holds(at, id) > 0 ==> id <= l.sequence
    ensures Balanced(l, at, head, TaskEffect(l, head, step, at).value, id)
  {
  }

  lemma EffectsBalance(l: Ledger, head: Option<Id>, step: Step, at: Stage, id: Id)
    requires TaskEffect(l, head, step, at).Some?
    requires Holds(at, id) > 0 ==> id <= l.sequence
    ensures Balanced(l, at, head, TaskEffect(l, head, step, at).value, id)
  {
    if at.SourceOutput? || at.SourcePutting? {
      SourceEffectsBalance(l, head, step, at, id);
    } else if at.Chaining? || at.Downloading? || at.SocketOpen? {
      RequestEffectsBalance(l, head, step, at, id);
    }
  }

  lemma EffectsFit(l: Ledger, head: Option<Id>, step: Step, t: Task)
    requires Fits(t) && TaskEffect(l, head, step, t.at).Some?
    ensures var e := TaskEffect(l, head, step, t.at).value;
            && Fits(Task(t.role, e.at)) && (e.at.Producing? ==> t.at.Producing?)
            && (e.created.Some? ==> Fits(e.created.value) && !e.created.value.at.Producing?)
            && (e.queue.Take? ==> head.Some?)
  {
  }

  lemma BalanceKeepsOwnership(holders: nat, l: Ledger, shared: set<Id>, at: Stage, head: Option<Id>, e: Effect, id: Id)
    requires OwnedId(holders, l, shared, id)
    requires OwnedId(0, l, shared, l.sequence + 1)
    requires Taken(at, head, e, id) <= holders && Balanced(l, at, head, e, id)
    ensures OwnedId(holders - Taken(at, head, e, id) + Given(e, id), ApplyLedger(l, e.ledger),
                    if e.share.Some? then shared + {e.share.value} else shared, id)
  {
  }

  lemma TasksAfterApply(s: State, i: nat, e: Effect, id: Id)
    requires i < |s.tasks| && (e.queue.Take? ==> s.queue != [])
    ensures Holds(s.tasks[i].at, id) <= TaskHolds(s.tasks, id)
    ensures TaskHolds(Apply(s, i, e).tasks, id)
         == TaskHolds(s.tasks, id) - Holds(s.tasks[i].at, id) + Holds(e.at, id)
            + (if e.created.Some? then Holds(e.created.value.at, id) else 0)
  {
    var t := s.tasks[i].(at := e.at);
    HoldsAfterMove(s.tasks, i, t, id);
    HeldByOne(s.tasks, i, id);
    if e.created.Some? {
      HoldsAfterCreate(s.tasks[i := t], e.created.value, id);
    }
  }

  lemma QueueAfterApply(s: State, i: nat, e: Effect, id: Id)
    requires i < |s.tasks| && (e.queue.Take? ==> s.queue != [])
    ensures QueueHolds(Apply(s, i, e).queue, id)
         == QueueHolds(s.queue, id) - (if e.queue.Take? && Head(s.queue) == Some(id) then 1 else 0)
            + (if e.queue == Append(id) then 1 else 0)
  {
    if e.queue.Take? {
      assert s.queue == [s.queue[0]] + s.queue[1..];
    }
  }

  lemma HoldersAfterApply(s: State, i: nat, e: Effect, id: Id)
    requires i < |s.tasks| && (e.queue.Take? ==> s.queue != [])
    ensures Taken(s.tasks[i].at, Head(s.queue), e, id) <= Holders(s, id)
    ensures Holders(Apply(s, i, e), id) == Holders(s, id) - Taken(s.tasks[i].at, Head(s.queue), e, id) + Given(e, id)
  {
    TasksAfterApply(s, i, e, id);
    QueueAfterApply(s, i, e, id);
  }

  lemma ApplyKeepsShape(s: State, i: nat, e: Effect)
    requires Shaped(s) && i < |s.tasks| && (e.queue.Take? ==> s.queue != [])
    requires Fits(Task(s.tasks[i].role, e.at)) && (e.at.Producing? ==> s.tasks[i].at.Producing?)
    requires e.created.Some? ==> Fits(e.created.value) && !e.created.value.at.Producing?
    ensures Shaped(Apply(s, i, e))
  {
  }

  lemma ApplyKeepsIdle(l: Ledger, op: LedgerOp)
    requires l.idle <==> l.pending == {}
    ensures ApplyLedger(l, op).idle <==> ApplyLedger(l, op).pending == {}
  {
    if op.TrackMeta? {
      assert TrackedId(l, op.meta) in ApplyLedger(l, op).pending;
    }
  }

  lemma OwnedIn(s: State, id: Id)
    requires Invariant(s)
    ensures OwnedId(Holders(s, id), s.ledger, s.shared, id) && OwnedId(0, s.ledger, s.shared, s.ledger.sequence + 1)
  {
    var next := s.ledger.sequence + 1;
    assert OwnedId(Holders(s, next), s.ledger, s.shared, next);
  }

  lemma TaskStepBalances(s: State, step: Step, e: Effect, id: Id)
    requires OwnedId(Holders(s, id), s.ledger, s.shared, id) && TaskAt(s, step)
    requires TaskEffect(s.ledger, Head(s.queue), step, s.tasks[step.i].at) == Some(e)
    ensures Balanced(s.ledger, s.tasks[step.i].at, Head(s.queue), e, id)
  {
    HeldByOne(s.tasks, step.i, id);
    EffectsBalance(s.ledger, Head(s.queue), step, s.tasks[step.i].at, id);
  }

  /** One task step, seen from one id. */
  lemma TaskStepOwns(s: State, i: nat, e: Effect, id: Id)
    requires OwnedId(Holders(s, id), s.ledger, s.shared, id) && OwnedId(0, s.ledger, s.shared, s.ledger.sequence + 1)
    requires i < |s.tasks| && (e.queue.Take? ==> s.queue != [])
    requires Balanced(s.ledger, s.tasks[i].at, Head(s.queue), e, id)
    ensures var s' := Apply(s, i, e); OwnedId(Holders(s', id), s'.ledger, s'.shared, id)
  {
    HoldersAfterApply(s, i, e, id);
    BalanceKeepsOwnership(Holders(s, id), s.ledger, s.shared, s.tasks[i].at, Head(s.queue), e, id);
  }

  lemma TaskStepKeepsInvariant(s: State, step: Step, e: Effect)
    requires Invariant(s) && TaskAt(s, step)
    requires TaskEffect(s.ledger, Head(s.queue), step, s.tasks[step.i].at) == Some(e)
    ensures e.queue.Take? ==> s.queue != []
    ensures Invariant(Apply(s, step.i, e))
  {
    EffectsFit(s.ledger, Head(s.queue), step, s.tasks[step.i]);
    ApplyKeepsShape(s, step.i, e);
    ApplyKeepsIdle(s.ledger, e.ledger);
    forall id
      ensures OwnedId(Holders(Apply(s, step.i, e), id), Apply(s, step.i, e).ledger, Apply(s, step.i, e).shared, id)
    {
      OwnedIn(s, id);
      TaskStepBalances(s, step, e, id);
      TaskStepOwns(s, step.i, e, id);
    }
  }

  /** Every step of every task, loop, producer and watcher keeps the invariant. */
  lemma StepKeepsInvariant(s: State, step: Step)
    requires Invariant(s) && Next(s, step).Some?
    ensures Invariant(Next(s, step).value)
  {
    if TaskAt(s, step) {
      TaskStepKeepsInvariant(s, step, TaskEffect(s.ledger, Head(s.queue), step, s.tasks[step.i].at).value);
    } else {
      var s' := Next(s, step).value;
      forall id ensures OwnedId(Holders(s', id), s'.ledger, s'.shared, id) {
        assert OwnedId(Holders(s, id), s.ledger, s.shared, id);
      }
    }
  }

  lemma InitiallyInvariant(loops: nat)
    ensures Invariant(Initial(loops))
  {
    forall id ensures OwnedId(Holders(Initial(loops), id), Initial(loops).ledger, Initial(loops).shared, id) {
      LoopsHoldNothing(loops, id);
    }
  }

  // ------------------------------------------------------------ sharing

  /** The only ways an id gets a second holder: a result or an interceptor hands back a request whose
      meta already carries an id (itself, a copy of its meta), or an open WebSocket passes its
      request on, or completes it, while it keeps holding it. */
  function SharedId(step: Step, at: Stage): Option<Id> {
    match step
    case StartEmits(_, child) => child
    case SourceEmits(_, child) => child
    case SourceSpawns(_, child) => child
    case SocketReschedules(_, child) => child
    case ChainReschedules(_, child) => if child.Some? && at == Chaining(child.value) then None else child
    case SocketHandsOver(_, _) => if at.SocketOpen? then Some(at.id) else None
    case SocketReleases(_) => if at.SocketOpen? then Some(at.id) else None
    case _ => None
  }

  lemma EffectsShare(l: Ledger, head: Option<Id>, step: Step, at: Stage)
    requires TaskEffect(l, head, step, at).Some?
    ensures TaskEffect(l, head, step, at).value.share == SharedId(step, at)
  {
  }

  lemma SharedAfter(s: State, i: nat, e: Effect, id: Id)
    requires i < |s.tasks| && (e.queue.Take? ==> s.queue != [])
    ensures id in Apply(s, i, e).shared <==> id in s.shared || e.share == Some(id)
  {
  }

  /** No other step shares an id, and these share no other id. */
  lemma SharingIsExactlyThese(s: State, step: Step, id: Id)
    requires Next(s, step).Some?
    ensures id in Next(s, step).value.shared
       <==> id in s.shared || (TaskAt(s, step) && SharedId(step, s.tasks[step.i].at) == Some(id))
  {
    if TaskAt(s, step) {
      var at := s.tasks[step.i].at;
      EffectsShare(s.ledger, Head(s.queue), step, at);
      SharedAfter(s, step.i, TaskEffect(s.ledger, Head(s.queue), step, at).value, id);
    }
  }

  // ------------------------------------------------------------ soundness of completion

  /** A request that nobody has finished: queued, or taken from the queue by a scheduler loop. */
  ghost predicate Outstanding(s: State, id: Id) {
    id in s.queue || exists i :: 0 <= i < |s.tasks| && s.tasks[i].at == LoopHolding(id)
  }

  /** Nothing is left that could ever produce a request. */
  predicate Quiescent(s: State) {
    && s.queue == []
    && forall i :: 0 <= i < |s.tasks| ==> s.tasks[i].at.Gone? || s.tasks[i].at.LoopWaiting?
  }

  lemma NothingToDo(l: Ledger, step: Step, at: Stage)
    requires at.Gone? || at.LoopWaiting?
    ensures TaskEffect(l, None, step, at).None?
  {
  }

  lemma QuiescentForever(s: State, step: Step)
    requires Quiescent(s) && Next(s, step).Some?
    ensures Quiescent(Next(s, step).value) && Next(s, step).value.tasks == s.tasks
    ensures s.watcher != Returned
  {
    if TaskAt(s, step) {
      NothingToDo(s.ledger, step, s.tasks[step.i].at);
    }
  }

  lemma QuiescentOnReturn(s: State)
    requires Invariant(s) && s.shared == {} && s.ledger.idle && NoWork(s) && s.watcher == AwaitQuiet
    ensures Quiescent(s)
  {
    assert s.queue != [] ==> s.queue[0] in s.queue;
    forall id ensures Holders(s, id) == 0 && id !in s.queue {
      assert OwnedId(Holders(s, id), s.ledger, s.shared, id);
    }
    forall i | 0 <= i < |s.tasks| ensures s.tasks[i].at.Gone? || s.tasks[i].at.LoopWaiting? {
      assert Fits(s.tasks[i]) && !Working(s.tasks[i]);
      var id := if s.tasks[i].at.LoopHolding? then s.tasks[i].at.id else 0;
      assert Holders(s, id) == 0;
      HeldByOne(s.tasks, i, id);
    }
  }

  lemma StepKeepsQuiescence(s: State, step: Step)
    requires Invariant(s) && Next(s, step).Some?
    requires s.watcher == Returned ==> Quiescent(s) || s.shared != {}
    ensures var s' := Next(s, step).value; s'.watcher == Returned ==> Quiescent(s') || s'.shared != {}
  {
    var s' := Next(s, step).value;
    if s.watcher == Returned {
      if Quiescent(s) {
        QuiescentForever(s, step);
      } else {
        var id :| id in s.shared;
        SharingIsExactlyThese(s, step, id);
      }
    } else if s'.watcher == Returned && s.shared == {} {
      QuiescentOnReturn(s);
    }
  }

  /** The invariant, and what the watcher's return is worth. */
  ghost predicate Tracked(s: State) {
    Invariant(s) && (s.watcher == Returned ==> Quiescent(s) || s.shared != {})
  }

  lemma StepKeepsTracked(s: State, t: State)
    requires Tracked(s) && CanStep(s, t)
    ensures Tracked(t)
  {
    var step :| Next(s, step) == Some(t);
    StepKeepsInvariant(s, step);
    StepKeepsQuiescence(s, step);
  }

  lemma ReachableIsInvariant(s: State)
    requires Reachable(s)
    ensures Invariant(s)
    ensures s.watcher == Returned ==> Quiescent(s) || s.shared != {}
  {
    forall u | IsInitial(u) ensures Tracked(u) {
      var loops: nat :| u == Initial(loops);
      InitiallyInvariant(loops);
    }
    forall u, v | Tracked(u) && CanStep(u, v) ensures Tracked(v) {
      StepKeepsTracked(u, v);
    }
    Executions.Induction(IsInitial, CanStep, Tracked, s);
  }

  /** What each phase of the watcher waits for, and that it returns only from a scan after which still no
      id is pending; otherwise it waits for idleness again. */
  lemma WatcherWaits(s: State)
    requires Reachable(s)
    ensures Next(s, WatcherSeesProducer).Some? <==> s.watcher == AwaitProducer && ProducerDone(s)
    ensures Next(s, WatcherWakes).Some? <==> s.watcher == AwaitIdle && s.ledger.pending == {}
    ensures Next(s, WatcherChecks).Some? <==> s.watcher == AwaitQuiet && NoWork(s)
    ensures Next(s, WatcherChecks).Some? ==>
              Next(s, WatcherChecks).value == s.(watcher := if s.ledger.pending == {} then Returned else AwaitIdle)
  {
    ReachableIsInvariant(s);
  }

  /** At the moment the watcher returns, the producer is done, no work task is counted, no id is
      pending, and a request can only have been overlooked if its id was shared. */
  lemma CompletionLosesOnlySharedRequests(s: State, id: Id)
    requires Reachable(s) && Next(s, WatcherChecks).Some? && Next(s, WatcherChecks).value.watcher == Returned
    ensures ProducerDone(s) && NoWork(s) && s.ledger.pending == {}
    ensures Outstanding(s, id) ==> id in s.shared
  {
    ReachableIsInvariant(s);
    assert OwnedId(Holders(s, id), s.ledger, s.shared, id);
    if i :| 0 <= i < |s.tasks| && s.tasks[i].at == LoopHolding(id) {
      HeldByOne(s.tasks, i, id);
    }
  }

  /** In every interleaving in which no id is ever shared: once the watcher has returned, the queue
      is empty, no loop holds a request, no task is left, and no step can change that any more. */
  lemma CompletionIsFinal(s: State, step: Step)
    requires Reachable(s) && s.watcher == Returned && s.shared == {}
    ensures Quiescent(s) && Next(s, step).None?
  {
    ReachableIsInvariant(s);
    if Next(s, step).Some? {
      QuiescentForever(s, step);
    }
  }

  /** A child accepted while its source is still owned outlives the source's release exactly when its
      meta does not carry the source's own id. */
  lemma ChildOutlivesItsSource(l: Ledger, source: Id, meta: Option<Id>)
    requires source in l.pending && source <= l.sequence
    ensures TrackedId(l, meta) in Release(Track(l, meta), source).pending <==> meta != Some(source)
  {
    assert meta.Some? || TrackedId(l, meta) > source;
  }

  lemma InitiallyReachable(loops: nat)
    ensures Reachable(Initial(loops))
  {
    assert IsInitial(Initial(loops));
    Executions.Starts(IsInitial, CanStep, Initial(loops));
  }

  lemma Extend(s: State, step: Step) returns (t: State)
    requires Reachable(s) && Next(s, step).Some?
    ensures Reachable(t) && t == Next(s, step).value
  {
    t := Next(s, step).value;
    assert CanStep(s, t);
    Executions.Continues(IsInitial, CanStep, s, t);
  }

  ghost predicate ReachableFrom(s: State, t: State) {
    Executions.Reaches(u => u == s, CanStep, t)
  }

  lemma Watch(start: State, s: State, step: Step) returns (t: State)
    requires ReachableFrom(start, s) && (step.WatcherSeesProducer? || step.WatcherWakes? || step.WatcherChecks?)
    requires WatcherStep(s, step).Some?
    ensures ReachableFrom(start, t) && t == WatcherStep(s, step).value
  {
    t := Next(s, step).value;
    assert CanStep(s, t);
    Executions.Continues(u => u == start, CanStep, s, t);
  }

  lemma IdleWhenNothingPends(s: State)
    requires Reachable(s) && s.ledger.pending == {}
    ensures s.ledger.idle
  {
    ReachableIsInvariant(s);
  }

  lemma DetectedWhenQuiet(start: State, s: State)
    requires ReachableFrom(start, s) && NoWork(s) && s.ledger.idle && s.watcher == AwaitQuiet
    ensures ReachableFrom(start, s.(watcher := Returned))
  {
    var t := Watch(start, s, WatcherChecks);
  }

  lemma DetectedWhenIdle(start: State, s: State)
    requires ReachableFrom(start, s) && NoWork(s) && s.ledger.idle && s.watcher == AwaitIdle
    ensures ReachableFrom(start, s.(watcher := Returned))
  {
    var t := Watch(start, s, WatcherWakes);
    DetectedWhenQuiet(start, t);
  }

  /** The watcher is never stuck: once everything is really over, its own steps lead from there to the
      return, and change nothing else. */
  lemma CompletionIsDetected(s: State)
    requires Reachable(s) && ProducerDone(s) && NoWork(s) && s.ledger.pending == {}
    ensures ReachableFrom(s, s.(watcher := Returned))
  {
    IdleWhenNothingPends(s);
    Executions.Starts(u => u == s, CanStep, s);
    match s.watcher
    case AwaitProducer =>
      var t := Watch(s, s, WatcherSeesProducer);
      DetectedWhenIdle(s, t);
    case AwaitIdle => DetectedWhenIdle(s, s);
    case AwaitQuiet => DetectedWhenQuiet(s, s);
    case Returned => assert s == s.(watcher := Returned);
  }

  // ------------------------------------------------------------ requests that nobody finishes

  /** Still pending, with nobody left who could release it. */
  ghost predicate Abandoned(s: State, id: Id) {
    id in s.ledger.pending && Holders(s, id) == 0
  }

  lemma ReleasesOnlyTheirOwn(l: Ledger, op: LedgerOp, id: Id)
    requires id in l.pending && op != ReleaseId(id)
    ensures id in ApplyLedger(l, op).pending
  {
  }

  /** An abandoned id stays abandoned, unless a later request comes to share it. */
  lemma AbandonedForGood(s: State, step: Step, id: Id)
    requires Invariant(s) && Abandoned(s, id) && Next(s, step).Some? && id !in Next(s, step).value.shared
    ensures Abandoned(Next(s, step).value, id)
  {
    assert OwnedId(Holders(s, id), s.ledger, s.shared, id);
    if TaskAt(s, step) {
      var at, head := s.tasks[step.i].at, Head(s.queue);
      var e := TaskEffect(s.ledger, head, step, at).value;
      TaskStepKeepsInvariant(s, step, e);
      HoldersAfterApply(s, step.i, e, id);
      EffectsBalance(s.ledger, head, step, at, id);
      assert e.share != Some(id) && e.ledger != ReleaseId(id);
      ReleasesOnlyTheirOwn(s.ledger, e.ledger, id);
    }
  }

  lemma AbandonedStep(u: State, v: State, id: Id)
    requires Invariant(u) && CanStep(u, v) && (id in u.shared || (Abandoned(u, id) && u.watcher != Returned))
    ensures Invariant(v) && (id in v.shared || (Abandoned(v, id) && v.watcher != Returned))
  {
    var step :| Next(u, step) == Some(v);
    StepKeepsInvariant(u, step);
    if id !in v.shared {
      AbandonedForGood(u, step, id);
    }
  }

  /** So once a request is abandoned, completion is never declared in any continuation that does not
      share its id. */
  lemma AbandonedNeverCompletes(s: State, t: State, id: Id)
    requires Reachable(s) && s.watcher != Returned && Abandoned(s, id)
    requires ReachableFrom(s, t)
    ensures id in t.shared || (Abandoned(t, id) && t.watcher != Returned)
  {
    ReachableIsInvariant(s);
    ghost var waits := (u: State) => Invariant(u) && (id in u.shared || (Abandoned(u, id) && u.watcher != Returned));
    forall u, v | waits(u) && CanStep(u, v) ensures waits(v) {
      AbandonedStep(u, v, id);
    }
    Executions.Induction(u => u == s, CanStep, waits, t);
  }

  /** The steps that leave the request they hold without completing it: an interceptor that puts another
      request in its place, a chain or a download that drops it, a callback that raises, and a result that
      is a request and is not rescheduled. */
  predicate Drops(step: Step, at: Stage, id: Id) {
    match (step, at)
    case (ChainReschedules(_, child), Chaining(held)) => held == id && child != Some(id)
    case (ChainDrops(_), Chaining(held)) => held == id
    case (DownloadDrops(_), Downloading(held)) => held == id
    case (SourceFails(_), SourceOutput(source, fromSocket)) => source == id && !fromSocket
    case (ResultEnds(_), Managing(child)) => child == Some(id)
    case _ => false
  }

  /** A step that does not share the id passes it on, releases it, or drops it. */
  lemma DropsExactly(l: Ledger, head: Option<Id>, step: Step, at: Stage, id: Id)
    requires TaskEffect(l, head, step, at).Some? && TaskEffect(l, head, step, at).value.share != Some(id)
    requires Taken(at, head, TaskEffect(l, head, step, at).value, id) == 1
    ensures var e := TaskEffect(l, head, step, at).value;
            Given(e, id) == 0 && e.ledger != ReleaseId(id) <==> Drops(step, at, id)
  {
  }

  lemma DropsHold(l: Ledger, head: Option<Id>, step: Step, at: Stage, id: Id)
    requires TaskEffect(l, head, step, at).Some? && Drops(step, at, id)
    ensures Taken(at, head, TaskEffect(l, head, step, at).value, id) > 0
  {
  }

  lemma PendingAfter(l: Ledger, op: LedgerOp, id: Id)
    requires id in l.pending
    ensures id in ApplyLedger(l, op).pending <==> op != ReleaseId(id)
  {
  }

  lemma AbandonedByStep(s: State, step: Step, e: Effect, id: Id)
    requires Invariant(s) && TaskAt(s, step) && Holders(s, id) > 0
    requires TaskEffect(s.ledger, Head(s.queue), step, s.tasks[step.i].at) == Some(e)
    requires e.queue.Take? ==> s.queue != []
    requires e.share != Some(id) && id !in s.shared
    ensures Abandoned(Apply(s, step.i, e), id) <==> Drops(step, s.tasks[step.i].at, id)
  {
    var at, head := s.tasks[step.i].at, Head(s.queue);
    assert OwnedId(Holders(s, id), s.ledger, s.shared, id);
    HoldersAfterApply(s, step.i, e, id);
    if Taken(at, head, e, id) == 1 {
      DropsExactly(s.ledger, head, step, at, id);
      PendingAfter(s.ledger, e.ledger, id);
    } else if Drops(step, at, id) {
      DropsHold(s.ledger, head, step, at, id);
    }
  }

  lemma TrackedIsGiven(l: Ledger, head: Option<Id>, step: Step, at: Stage, id: Id)
    requires TaskEffect(l, head, step, at).Some? && id !in l.pending
    ensures var e := TaskEffect(l, head, step, at).value;
            id in ApplyLedger(l, e.ledger).pending ==> Given(e, id) > 0
  {
  }

  lemma UnheldStaysUnabandoned(s: State, step: Step, e: Effect, id: Id)
    requires Invariant(s) && TaskAt(s, step) && Holders(s, id) == 0 && id !in s.ledger.pending
    requires TaskEffect(s.ledger, Head(s.queue), step, s.tasks[step.i].at) == Some(e)
    requires e.queue.Take? ==> s.queue != []
    requires e.share != Some(id)
    ensures !Abandoned(Apply(s, step.i, e), id) && !Drops(step, s.tasks[step.i].at, id)
  {
    var at, head := s.tasks[step.i].at, Head(s.queue);
    HoldersAfterApply(s, step.i, e, id);
    TrackedIsGiven(s.ledger, head, step, at, id);
    if Drops(step, at, id) {
      DropsHold(s.ledger, head, step, at, id);
    }
  }

  lemma WatcherHoldsNothing(s: State, step: Step, id: Id)
    requires Next(s, step).Some? && !TaskAt(s, step)
    ensures Holders(Next(s, step).value, id) == Holders(s, id)
  {
  }

  /** A request whose id is not shared is abandoned after a step exactly when it was before, or when
      that step is such a drop of it. */
  lemma OnlyDropsAbandon(s: State, step: Step, id: Id)
    requires Invariant(s) && Next(s, step).Some? && id !in Next(s, step).value.shared
    ensures Abandoned(Next(s, step).value, id)
       <==> Abandoned(s, id) || (TaskAt(s, step) && Drops(step, s.tasks[step.i].at, id))
  {
    SharingIsExactlyThese(s, step, id);
    if Abandoned(s, id) {
      AbandonedForGood(s, step, id);
    } else if TaskAt(s, step) {
      var e := TaskEffect(s.ledger, Head(s.queue), step, s.tasks[step.i].at).value;
      EffectsFit(s.ledger, Head(s.queue), step, s.tasks[step.i]);
      if Holders(s, id) > 0 {
        AbandonedByStep(s, step, e, id);
      } else {
        UnheldStaysUnabandoned(s, step, e, id);
      }
    } else {
      WatcherHoldsNothing(s, step, id);
    }
  }

  // ------------------------------------------------------------ the scan of the TaskManager

  function NameOf(role: Role): string {
    match role
    case LOOP => "_local_scheduler_loop"
    case PRODUCER => "run_spider_start"
    case OUTPUT => "get_spider_output"
    case RESULT => "manager_spiderinterceptors_result"
    case ENQUEUE => "enqueue_request"
    case CHAIN => "process_downloadInterceptor_chain"
    case DOWNLOADER => "process_downloader"
    case SOCKET => "process_websocket_request"
  }

  const EXCLUDED: seq<string> := ["_local_scheduler_loop", "_distributed_scheduler_loop", "run_spider_start"]

  /** The labels under which the TaskManager counts this engine's living tasks. */
  ghost function Labels(tasks: seq<Task>, engine: nat): seq<Label> {
    if tasks == [] then []
    else (if tasks[0].at.Gone? then [] else [Label(NameOf(tasks[0].role), Some(engine))]) + Labels(tasks[1..], engine)
  }

  lemma WorkByName(role: Role, engine: nat)
    ensures IsWork(Label(NameOf(role), Some(engine)), engine, EXCLUDED) <==> role != LOOP && role != PRODUCER
  {
    var name := NameOf(role);
    match role {
      case LOOP => assert EXCLUDED[0] <= name;
      case PRODUCER => assert EXCLUDED[2] <= name;
      case _ => assert name[0] != '_' && name[0] != 'r';
    }
    assert EXCLUDED[0][0] == '_' && EXCLUDED[1][0] == '_' && EXCLUDED[2][0] == 'r';
  }

  ghost predicate SomeTaskWorks(tasks: seq<Task>) {
    exists i :: 0 <= i < |tasks| && Working(tasks[i])
  }

  ghost predicate SomeLabelWorks(labels: seq<Label>, engine: nat) {
    exists k :: 0 <= k < |labels| && IsWork(labels[k], engine, EXCLUDED)
  }

  lemma WorksCons(t: Task, rest: seq<Task>)
    ensures SomeTaskWorks([t] + rest) <==> Working(t) || SomeTaskWorks(rest)
  {
    assert ([t] + rest)[0] == t;
    assert forall i :: 0 <= i < |rest| ==> ([t] + rest)[i + 1] == rest[i];
  }

  lemma LabelWorksCons(name: Label, rest: seq<Label>, engine: nat)
    ensures SomeLabelWorks([name] + rest, engine) <==> IsWork(name, engine, EXCLUDED) || SomeLabelWorks(rest, engine)
  {
    assert ([name] + rest)[0] == name;
    assert forall i :: 0 <= i < |rest| ==> ([name] + rest)[i + 1] == rest[i];
  }

  /** The model's NoWork is what wait_for_object_quiescent computes from the task names. */
  lemma {:induction false} NoWorkIsTheScan(tasks: seq<Task>, engine: nat)
    ensures SomeTaskWorks(tasks) <==> SomeLabelWorks(Labels(tasks, engine), engine)
  {
    if tasks != [] {
      NoWorkIsTheScan(tasks[1..], engine);
      WorkByName(tasks[0].role, engine);
      assert tasks == [tasks[0]] + tasks[1..];
      WorksCons(tasks[0], tasks[1..]);
      if tasks[0].at.Gone? {
        assert Labels(tasks, engine) == Labels(tasks[1..], engine);
      } else {
        LabelWorksCons(Label(NameOf(tasks[0].role), Some(engine)), Labels(tasks[1..], engine), engine);
      }
    }
  }
}
