/** At-least-once delivery of scrapy_cffi/core/scheduler/kafka.py and scrapy_cffi/spiders/kafka.py:
    start records and work records across crashes, client replacements and failing commits. */
module KafkaDelivery {
  import opened Common
  import Executions
  import opened KafkaOffsets

  /** A topic partition: of the start topic or of the work topic. */
  datatype Partition = Partition(start: bool, index: nat)

  datatype Record = Record(at: Partition, offset: nat)

  /** A request object; _inflight_messages and _start_messages are keyed by its identity. */
  type Object = nat

  datatype State = State(
    records: set<Record>,                // what the brokers hold; offsets may have gaps
    ends: map<Partition, nat>,           // log end offsets
    committed: map<Partition, nat>,      // committed offsets, kept by the brokers
    positions: map<Partition, nat>,      // this client generation's fetch positions
    leases: map<Partition, Lease>,       // this client generation's pending deques, by their account
    inHand: set<Record>,                 // start records popped and not yet turned into anything
    inflight: map<Object, Record>,       // _inflight_messages
    starts: map<Object, Record>,         // _start_messages
    due: set<Record>,                    // acknowledgements called for and not yet carried out
    objects: nat,
    completed: set<Record>,              // history: work records whose request completed
    pushed: set<Record>,                 // history: start records whose work request was pushed
    dismissed: set<Record>)              // history: start records that yielded no request

  function Initial(): State {
    State({}, map[], map[], map[], map[], {}, map[], map[], {}, 0, {}, {}, {})
  }

  predicate Finished(s: State, r: Record) {
    if r.at.start then r in s.pushed || r in s.dismissed else r in s.completed
  }

  function EndOf(s: State, at: Partition): nat {
    if at in s.ends then s.ends[at] else 0
  }

  /** Where a consumer starts that has no position yet; auto_offset_reset is "earliest". */
  function StartOf(s: State, at: Partition): nat {
    if at in s.committed then s.committed[at] else 0
  }

  function PositionOf(s: State, at: Partition): nat {
    if at in s.positions then s.positions[at] else StartOf(s, at)
  }

  function LeaseOf(s: State, at: Partition): Lease {
    if at in s.leases then s.leases[at] else EMPTY
  }

  datatype Step =
    | Produce(r: Record)                              // anybody appends a record
    | PopWork(r: Record, decodes: bool)               // get(): lease a record, register its request
    | PopStart(r: Record)                             // get_start_req()
    | AttachStart(r: Record)                          // attach_start_req(), then the request is yielded
    | DismissStart(r: Record)                         // no request: ack_start_req() is called
    | PushWork(source: Option<Object>, accepted: bool, r: Record)   // put(): the push, then the pop of the start message
    | Complete(request: Object)                       // complete_request(): the lease is popped
    | CarryOutAck(r: Record, commitOk: bool)          // the awaited ack reaches the client
    | GiveUpAck(r: Record)                            // the retries of an ack are used up
    | ReplaceClient                                   // the resource slot installs a new client
    | Restart                                         // the process dies and comes back

  /** The consumer returns the oldest record at or after its position. */
  ghost predicate NextRecord(s: State, r: Record) {
    && r in s.records && PositionOf(s, r.at) <= r.offset
    && forall other :: other in s.records && other.at == r.at && PositionOf(s, r.at) <= other.offset ==> r.offset <= other.offset
  }

  function Delivered(s: State, r: Record): State {
    s.(positions := s.positions[r.at := r.offset + 1],
       leases := s.leases[r.at := Deliver(LeaseOf(s, r.at), r.offset)])
  }

  function Append(s: State, r: Record): State {
    s.(records := s.records + {r}, ends := s.ends[r.at := r.offset + 1])
  }

  /** A commit was sent and refused: the retry policy will acknowledge again. */
  predicate Refused(l: Lease, offset: nat, commitOk: bool) {
    !commitOk && offset in Outstanding(l) && Settled(l.delivered, l.acked + {offset}) > Settled(l.delivered, l.acked)
  }

  function AckedState(s: State, r: Record, commitOk: bool): State {
    var l := Ack(LeaseOf(s, r.at), r.offset, commitOk);
    s.(due := if Refused(LeaseOf(s, r.at), r.offset, commitOk) then s.due else s.due - {r},
       leases := if r.at in s.leases then s.leases[r.at := l] else s.leases,
       committed := if l.committed.Some? then s.committed[r.at := l.committed.value] else s.committed)
  }

  ghost function Next(s: State, step: Step): Option<State> {
    match step
    case Produce(r) => if EndOf(s, r.at) <= r.offset then Some(Append(s, r)) else None
    case PopWork(r, decodes) =>
      if !NextRecord(s, r) || r.at.start then None
      else if decodes then
        Some(Delivered(s, r).(inflight := s.inflight[s.objects := r], objects := s.objects + 1))
      else Some(Delivered(s, r))
    case PopStart(r) =>
      if NextRecord(s, r) && r.at.start then Some(Delivered(s, r).(inHand := s.inHand + {r})) else None
    case AttachStart(r) =>
      if r in s.inHand then
        Some(s.(inHand := s.inHand - {r}, starts := s.starts[s.objects := r], objects := s.objects + 1))
      else None
    case DismissStart(r) =>
      if r in s.inHand then
        Some(s.(inHand := s.inHand - {r}, dismissed := s.dismissed + {r}, due := s.due + {r}))
      else None
    case PushWork(source, accepted, r) =>
      if r.at.start || r.offset < EndOf(s, r.at) then None
      else if !accepted then Some(s)
      else if source.Some? && source.value in s.starts then
        var start := s.starts[source.value];
        Some(Append(s, r).(starts := s.starts - {source.value}, pushed := s.pushed + {start}, due := s.due + {start}))
      else Some(Append(s, r))
    case Complete(request) =>
      if request in s.inflight then
        var r := s.inflight[request];
        Some(s.(inflight := s.inflight - {request}, completed := s.completed + {r}, due := s.due + {r}))
      else Some(s)
    case CarryOutAck(r, commitOk) => if r in s.due then Some(AckedState(s, r, commitOk)) else None
    case GiveUpAck(r) => Some(s.(due := s.due - {r}))
    case ReplaceClient => Some(s.(positions := map[], leases := map[]))
    case Restart =>
      Some(s.(positions := map[], leases := map[], inHand := {}, inflight := map[], starts := map[], due := {}))
  }

  // ------------------------------------------------------------ the scheduler's dictionaries

  /** KafkaScheduler; `world` is the state its dictionaries are a part of. */
  class KafkaScheduler {
    var inflightMessages: map<Object, Record>
    var startMessages: map<Object, Record>
    ghost var world: State

    ghost predicate Valid()
      reads this
    {
      inflightMessages == world.inflight && startMessages == world.starts
    }

    constructor ()
      ensures Valid() && world == Initial()
    {
      inflightMessages, startMessages, world := map[], map[], Initial();
    }

    /** The end of get(): the popped record is kept under its request. */
    method Lease(request: Object, r: Record)
      requires Valid() && NextRecord(world, r) && !r.at.start && request == world.objects
      modifies this
      ensures Valid() && Some(world) == Next(old(world), PopWork(r, true))
    {
      inflightMessages := inflightMessages[request := r];
      world := Next(world, PopWork(r, true)).value;
    }

    method AttachStartReq(request: Object, r: Record)
      requires Valid() && r in world.inHand && request == world.objects
      modifies this
      ensures Valid() && Some(world) == Next(old(world), AttachStart(r))
    {
      startMessages := startMessages[request := r];
      world := Next(world, AttachStart(r)).value;
    }

    /** The end of put(), once the push has been answered; `ack` is the start message to acknowledge. */
    method FinishPut(source: Object, accepted: bool, r: Record) returns (ack: Option<Record>)
      requires Valid() && !r.at.start && r.offset >= EndOf(world, r.at)
      modifies this
      ensures Valid() && Some(world) == Next(old(world), PushWork(Some(source), accepted, r))
      ensures ack.Some? <==> accepted && source in old(startMessages)
      ensures ack.Some? ==> ack.value in world.due && ack.value in world.pushed
    {
      ack := None;
      if accepted && source in startMessages {
        ack := Some(startMessages[source]);
        startMessages := startMessages - {source};
      }
      world := Next(world, PushWork(Some(source), accepted, r)).value;
    }

    /** complete_request; `ack` is the record to acknowledge. */
    method CompleteRequest(request: Object) returns (ack: Option<Record>)
      requires Valid()
      modifies this
      ensures Valid() && Some(world) == Next(old(world), Complete(request))
      ensures ack.Some? <==> request in old(inflightMessages)
      ensures ack.Some? ==> ack.value in world.due && ack.value in world.completed
    {
      ack := None;
      if request in inflightMessages {
        ack := Some(inflightMessages[request]);
        inflightMessages := inflightMessages - {request};
      }
      world := Next(world, Complete(request)).value;
    }
  }

  ghost predicate CanStep(s: State, s': State) {
    exists step :: Next(s, step) == Some(s')
  }

  ghost predicate Reachable(s: State) {
    Executions.Reaches(u => u == Initial(), CanStep, s)
  }

  // ------------------------------------------------------------ the invariant

  /** Every record before the fetch position is finished or leased; every acknowledgement in a lease,
      and every record below the committed offset, is that of a finished record; until its first commit
      a client generation has been delivered nothing below the offset it started from. */
  ghost predicate PartitionSafe(s: State, at: Partition) {
    var l := LeaseOf(s, at);
    && Sound(l)
    && StartOf(s, at) <= PositionOf(s, at) <= EndOf(s, at)
    && (l.committed.None? ==> forall o :: o in l.delivered ==> StartOf(s, at) <= o)
    && (l.committed.Some? ==> at in s.committed && l.committed.value == s.committed[at])
    && (forall o :: o in l.delivered ==> o < PositionOf(s, at))
    && (forall o :: o in l.acked ==> Finished(s, Record(at, o)))
    && (forall r :: r in s.records && r.at == at && r.offset < PositionOf(s, at) ==>
          Finished(s, r) || r.offset in l.delivered)
    && (forall r :: r in s.records && r.at == at && r.offset < StartOf(s, at) ==> Finished(s, r))
    && (at in s.leases ==> at in s.positions)
  }

  /** What the scheduler's dictionaries hold. */
  ghost predicate Tables(s: State) {
    && (forall r :: r in s.due ==> Finished(s, r))
    && (forall r :: r in s.records ==> r.offset < EndOf(s, r.at))
    && (forall r :: r in s.inHand ==> r.at.start)
    && (forall o :: o in s.inflight ==> !s.inflight[o].at.start)
    && (forall o :: o in s.starts ==> s.starts[o].at.start)
  }

  ghost predicate Safe(s: State) {
    Tables(s) && forall at :: PartitionSafe(s, at)
  }

  /** What an acknowledgement can do to a lease, without its deque. */
  lemma AckEffect(l: Lease, offset: nat, commitOk: bool)
    requires Sound(l)
    ensures var l' := Ack(l, offset, commitOk);
            && Sound(l') && l'.delivered == l.delivered
            && (forall o :: o in l'.acked ==> o in l.acked || o == offset)
            && (l'.committed != l.committed ==>
                  && l'.committed.Some?
                  && (exists d :: d in l.delivered && l'.committed.value == d + 1)
                  && (forall d :: d in l.delivered && d < l'.committed.value ==> d in l'.acked))
  {
    var l' := Ack(l, offset, commitOk);
    AckKeepsSound(l, offset, commitOk);
    if l'.committed != l.committed {
      var n := Settled(l'.delivered, l'.acked);
      assert l'.delivered[n - 1] in l.delivered;
      forall d | d in l.delivered && d < l'.committed.value ensures d in l'.acked {
        var k :| 0 <= k < |l.delivered| && l.delivered[k] == d;
        FrontierSeparates(l', k);
      }
    }
  }

  /** A commit passes only deliveries whose acknowledgements are in, and those are of finished records. */
  lemma CommittedAreFinished(s: State, r: Record, commitOk: bool, other: Record)
    requires PartitionSafe(s, r.at) && Finished(s, r) && r.at in s.leases
    requires other in s.records && other.at == r.at && other.offset < StartOf(AckedState(s, r, commitOk), r.at)
    ensures Finished(s, other)
  {
    var s' := AckedState(s, r, commitOk);
    var l := LeaseOf(s, r.at);
    AckEffect(l, r.offset, commitOk);
    if LeaseOf(s', r.at).committed != l.committed && other.offset in l.delivered {
      assert other == Record(r.at, other.offset);
    }
  }

  /** What an acknowledgement leaves as it was, and where the committed offset ends up. */
  lemma AckedParts(s: State, r: Record, commitOk: bool)
    requires PartitionSafe(s, r.at) && r.at in s.leases
    ensures var s', l' := AckedState(s, r, commitOk), Ack(LeaseOf(s, r.at), r.offset, commitOk);
            && LeaseOf(s', r.at) == l' && r.at in s'.positions && s'.records == s.records
            && PositionOf(s', r.at) == PositionOf(s, r.at) && EndOf(s', r.at) == EndOf(s, r.at)
            && (l'.committed.Some? ==> r.at in s'.committed && s'.committed[r.at] == l'.committed.value)
            && StartOf(s', r.at) <= PositionOf(s, r.at)
            && (l'.committed.None? ==> StartOf(s', r.at) == StartOf(s, r.at) && LeaseOf(s, r.at).committed.None?)
  {
    AckEffect(LeaseOf(s, r.at), r.offset, commitOk);
  }

  lemma AckedLease(s: State, r: Record, commitOk: bool)
    requires PartitionSafe(s, r.at) && Finished(s, r)
    ensures var l, l' := LeaseOf(s, r.at), Ack(LeaseOf(s, r.at), r.offset, commitOk);
            && Sound(l') && l'.delivered == l.delivered
            && forall o :: o in l'.acked ==> Finished(s, Record(r.at, o))
  {
    AckEffect(LeaseOf(s, r.at), r.offset, commitOk);
    assert r == Record(r.at, r.offset);
  }

  lemma AckedIsSafe(s: State, s': State, at: Partition)
    requires PartitionSafe(s, at) && at in s'.positions
    requires s'.records == s.records && s'.completed == s.completed && s'.pushed == s.pushed && s'.dismissed == s.dismissed
    requires Sound(LeaseOf(s', at)) && LeaseOf(s', at).delivered == LeaseOf(s, at).delivered
    requires forall o :: o in LeaseOf(s', at).acked ==> Finished(s, Record(at, o))
    requires PositionOf(s', at) == PositionOf(s, at) && EndOf(s', at) == EndOf(s, at) && StartOf(s', at) <= PositionOf(s, at)
    requires LeaseOf(s', at).committed.None? ==> StartOf(s', at) == StartOf(s, at) && LeaseOf(s, at).committed.None?
    requires LeaseOf(s', at).committed.Some? ==> at in s'.committed && s'.committed[at] == LeaseOf(s', at).committed.value
    requires forall r: Record :: r in s.records && r.at == at && r.offset < StartOf(s', at) ==> Finished(s, r)
    ensures PartitionSafe(s', at)
  {
  }

  lemma AckKeepsPartition(s: State, r: Record, commitOk: bool)
    requires PartitionSafe(s, r.at) && Finished(s, r) && r.at in s.leases
    ensures PartitionSafe(AckedState(s, r, commitOk), r.at)
  {
    var s' := AckedState(s, r, commitOk);
    AckedParts(s, r, commitOk);
    AckedLease(s, r, commitOk);
    forall other | other in s.records && other.at == r.at && other.offset < StartOf(s', r.at) ensures Finished(s, other) {
      CommittedAreFinished(s, r, commitOk, other);
    }
    AckedIsSafe(s, s', r.at);
  }

  /** Nothing about the partition changed, except that more records may be finished. */
  ghost predicate Framed(s: State, s': State, at: Partition) {
    && LeaseOf(s', at) == LeaseOf(s, at) && PositionOf(s', at) == PositionOf(s, at)
    && EndOf(s', at) == EndOf(s, at) && StartOf(s', at) == StartOf(s, at)
    && (at in s.committed ==> at in s'.committed)
    && (at in s'.leases ==> at in s.leases) && (at in s.positions ==> at in s'.positions)
    && (forall r: Record :: r.at == at && r in s'.records ==> r in s.records)
    && (forall r :: Finished(s, r) ==> Finished(s', r))
  }

  lemma FramePartition(s: State, s': State, at: Partition)
    requires PartitionSafe(s, at) && Framed(s, s', at)
    ensures PartitionSafe(s', at)
  {
  }

  lemma DeliveredParts(s: State, r: Record)
    ensures var s', l := Delivered(s, r), LeaseOf(s, r.at);
            && LeaseOf(s', r.at) == Lease(l.delivered + [r.offset], l.acked, l.committed)
            && PositionOf(s', r.at) == r.offset + 1 && r.at in s'.positions
            && s'.committed == s.committed && s'.ends == s.ends && s'.records == s.records
            && s'.completed == s.completed && s'.pushed == s.pushed && s'.dismissed == s.dismissed
  {
  }

  lemma PassedIsAccounted(s: State, r: Record, other: Record)
    requires PartitionSafe(s, r.at) && NextRecord(s, r) && other in s.records && other.at == r.at && other.offset <= r.offset
    ensures Finished(s, other) || other.offset in LeaseOf(s, r.at).delivered || other.offset == r.offset
  {
  }

  lemma DeliveredIsSound(s: State, r: Record)
    requires PartitionSafe(s, r.at) && PositionOf(s, r.at) <= r.offset
    ensures Sound(Deliver(LeaseOf(s, r.at), r.offset))
  {
    DeliverKeepsSound(LeaseOf(s, r.at), r.offset);
  }

  lemma DeliverIsSafe(s: State, r: Record)
    requires PartitionSafe(s, r.at) && NextRecord(s, r) && r.offset < EndOf(s, r.at)
    ensures PartitionSafe(Delivered(s, r), r.at)
  {
    var s' := Delivered(s, r);
    DeliveredIsSound(s, r);
    DeliveredParts(s, r);
    forall other | other in s.records && other.at == r.at && other.offset < PositionOf(s', r.at)
      ensures Finished(s', other) || other.offset in LeaseOf(s', r.at).delivered
    {
      PassedIsAccounted(s, r, other);
    }
  }

  lemma DeliverFrames(s: State, r: Record, at: Partition)
    requires at != r.at
    ensures Framed(s, Delivered(s, r), at)
  {
  }

  lemma DeliverKeepsPartition(s: State, r: Record, at: Partition)
    requires PartitionSafe(s, at) && NextRecord(s, r) && r.offset < EndOf(s, r.at)
    ensures PartitionSafe(Delivered(s, r), at)
  {
    if at == r.at {
      DeliverIsSafe(s, r);
    } else {
      DeliverFrames(s, r, at);
      FramePartition(s, Delivered(s, r), at);
    }
  }

  lemma AppendIsSafe(s: State, r: Record)
    requires PartitionSafe(s, r.at) && EndOf(s, r.at) <= r.offset
    ensures PartitionSafe(Append(s, r), r.at)
  {
  }

  lemma AppendFrames(s: State, r: Record, at: Partition)
    requires at != r.at
    ensures Framed(s, Append(s, r), at)
  {
  }

  lemma AppendKeepsPartition(s: State, r: Record, at: Partition)
    requires PartitionSafe(s, at) && EndOf(s, r.at) <= r.offset
    ensures PartitionSafe(Append(s, r), at)
  {
    if at == r.at {
      AppendIsSafe(s, r);
    } else {
      AppendFrames(s, r, at);
      FramePartition(s, Append(s, r), at);
    }
  }

  lemma FreshClientIsSafe(s: State, s': State, at: Partition)
    requires PartitionSafe(s, at)
    requires s'.records == s.records && s'.ends == s.ends && s'.committed == s.committed
    requires s'.positions == map[] && s'.leases == map[]
    requires forall r :: Finished(s, r) ==> Finished(s', r)
    ensures PartitionSafe(s', at)
  {
    assert Sound(EMPTY);
  }

  lemma HandOverKeepsPartition(s: State, s': State, at: Partition)
    requires PartitionSafe(s, at)
    requires s' == s.(inHand := s'.inHand, inflight := s'.inflight, objects := s'.objects)
    ensures PartitionSafe(s', at)
  {
  }

  lemma PopKeepsPartition(s: State, step: Step, at: Partition)
    requires PartitionSafe(s, at) && Tables(s) && Next(s, step).Some? && (step.PopWork? || step.PopStart?)
    ensures PartitionSafe(Next(s, step).value, at)
  {
    DeliverKeepsPartition(s, step.r, at);
    HandOverKeepsPartition(Delivered(s, step.r), Next(s, step).value, at);
  }

  lemma PushedIsAppended(s: State, step: Step, at: Partition)
    requires Next(s, step).Some? && ((step.PushWork? && step.accepted) || step.Produce?)
    ensures Framed(Append(s, step.r), Next(s, step).value, at)
  {
  }

  lemma PushKeepsPartition(s: State, step: Step, at: Partition)
    requires PartitionSafe(s, at) && Next(s, step).Some? && (step.PushWork? || step.Produce?)
    ensures PartitionSafe(Next(s, step).value, at)
  {
    if step.PushWork? && !step.accepted {
    } else {
      AppendKeepsPartition(s, step.r, at);
      PushedIsAppended(s, step, at);
      FramePartition(Append(s, step.r), Next(s, step).value, at);
    }
  }

  lemma AckKeepsPartitions(s: State, r: Record, commitOk: bool, at: Partition)
    requires PartitionSafe(s, at) && Finished(s, r)
    ensures PartitionSafe(AckedState(s, r, commitOk), at)
  {
    if at == r.at && at in s.leases {
      AckKeepsPartition(s, r, commitOk);
    } else {
      FramePartition(s, AckedState(s, r, commitOk), at);
    }
  }

  lemma TableKeepsPartition(s: State, step: Step, at: Partition)
    requires PartitionSafe(s, at) && Next(s, step).Some?
    requires step.AttachStart? || step.DismissStart? || step.Complete? || step.GiveUpAck?
    ensures PartitionSafe(Next(s, step).value, at)
  {
    FramePartition(s, Next(s, step).value, at);
  }

  lemma StepKeepsPartition(s: State, step: Step, at: Partition)
    requires Safe(s) && Next(s, step).Some?
    ensures PartitionSafe(Next(s, step).value, at)
  {
    match step
    case PopWork(_, _) => PopKeepsPartition(s, step, at);
    case PopStart(_) => PopKeepsPartition(s, step, at);
    case Produce(_) => PushKeepsPartition(s, step, at);
    case PushWork(_, _, _) => PushKeepsPartition(s, step, at);
    case CarryOutAck(r, commitOk) => AckKeepsPartitions(s, r, commitOk, at);
    case ReplaceClient => FreshClientIsSafe(s, Next(s, step).value, at);
    case Restart => FreshClientIsSafe(s, Next(s, step).value, at);
    case _ => TableKeepsPartition(s, step, at);
  }

  lemma InflightKeepsTables(s: State, request: Object, r: Record, objects: nat)
    requires Tables(s) && !r.at.start
    ensures Tables(s.(inflight := s.inflight[request := r], objects := objects))
  {
  }

  lemma InHandKeepsTables(s: State, r: Record)
    requires Tables(s) && r.at.start
    ensures Tables(s.(inHand := s.inHand + {r}))
  {
  }

  lemma PopKeepsTables(s: State, step: Step)
    requires Tables(s) && Next(s, step).Some? && (step.PopWork? || step.PopStart?)
    ensures Tables(Next(s, step).value)
  {
    var t := Delivered(s, step.r);
    assert Tables(t);
    if step.PopStart? {
      InHandKeepsTables(t, step.r);
    } else {
      InflightKeepsTables(t, s.objects, step.r, s.objects + 1);
    }
  }

  lemma AppendKeepsTables(s: State, r: Record)
    requires Tables(s) && EndOf(s, r.at) <= r.offset
    ensures Tables(Append(s, r))
  {
    forall other | other in s.records ensures other.offset < EndOf(Append(s, r), other.at) {
      assert other.offset < EndOf(s, other.at);
    }
  }

  lemma PushKeepsTables(s: State, step: Step)
    requires Tables(s) && Next(s, step).Some? && (step.PushWork? || step.Produce?)
    ensures Tables(Next(s, step).value)
  {
    AppendKeepsTables(s, step.r);
    var t, s' := Append(s, step.r), Next(s, step).value;
    assert s' == s || (s'.records == t.records && s'.ends == t.ends);
  }

  lemma AckKeepsTables(s: State, r: Record, commitOk: bool)
    requires Tables(s)
    ensures Tables(AckedState(s, r, commitOk))
  {
  }

  lemma OtherKeepsTables(s: State, step: Step)
    requires Tables(s) && Next(s, step).Some?
    requires step.AttachStart? || step.DismissStart? || step.Complete? || step.GiveUpAck? || step.ReplaceClient? || step.Restart?
    ensures Tables(Next(s, step).value)
  {
  }

  lemma StepKeepsTables(s: State, step: Step)
    requires Tables(s) && Next(s, step).Some?
    ensures Tables(Next(s, step).value)
  {
    match step
    case PopWork(_, _) => PopKeepsTables(s, step);
    case PopStart(_) => PopKeepsTables(s, step);
    case Produce(_) => PushKeepsTables(s, step);
    case PushWork(_, _, _) => PushKeepsTables(s, step);
    case CarryOutAck(r, commitOk) => AckKeepsTables(s, r, commitOk);
    case _ => OtherKeepsTables(s, step);
  }

  lemma StepKeepsSafety(s: State, step: Step)
    requires Safe(s) && Next(s, step).Some?
    ensures Safe(Next(s, step).value)
  {
    StepKeepsTables(s, step);
    forall at ensures PartitionSafe(Next(s, step).value, at) {
      StepKeepsPartition(s, step, at);
    }
  }

  lemma InitiallySafe()
    ensures Safe(Initial())
  {
    assert Sound(EMPTY);
  }

  lemma ReachableIsSafe(s: State)
    requires Reachable(s)
    ensures Safe(s)
  {
    forall u, v | Safe(u) && CanStep(u, v) ensures Safe(v) {
      var step :| Next(u, step) == Some(v);
      StepKeepsSafety(u, step);
    }
    InitiallySafe();
    Executions.Induction(u => u == Initial(), CanStep, Safe, s);
  }

  // ------------------------------------------------------------ at least once

  /** In every reachable state, whatever crashed, was replaced or failed to commit: a work record
      whose request is not completed, and a start record that has neither been pushed on nor been
      dismissed, lies at or above its partition's committed offset. */
  lemma UnfinishedRecordsAreUncommitted(s: State, r: Record)
    requires Reachable(s) && r in s.records && !Finished(s, r)
    ensures r.at in s.committed ==> s.committed[r.at] <= r.offset
  {
    ReachableIsSafe(s);
    assert PartitionSafe(s, r.at);
  }

  lemma Extend(s: State, step: Step) returns (t: State)
    requires Reachable(s) && Next(s, step).Some?
    ensures Reachable(t) && t == Next(s, step).value
  {
    t := Next(s, step).value;
    assert CanStep(s, t);
    Executions.Continues(u => u == Initial(), CanStep, s, t);
  }

  lemma {:induction false} MinOffset(candidates: set<Record>) returns (first: Record)
    requires candidates != {}
    ensures first in candidates && forall c :: c in candidates ==> first.offset <= c.offset
    decreases |candidates|
  {
    var c :| c in candidates;
    first := c;
    if candidates != {c} {
      var rest := candidates - {c};
      assert rest != {};
      var other := MinOffset(rest);
      first := if other.offset < c.offset then other else c;
    }
  }

  /** The first record of a partition at or after the fetch position, when some record is there. */
  lemma {:induction false} OldestWaiting(s: State, r: Record, candidates: set<Record>) returns (first: Record)
    requires r in candidates && candidates <= s.records
    requires forall c :: c in candidates <==> c in s.records && c.at == r.at && PositionOf(s, r.at) <= c.offset
    ensures NextRecord(s, first) && first.at == r.at && first.offset <= r.offset
  {
    first := MinOffset(candidates);
  }

  function PopOf(r: Record): Step {
    if r.at.start then PopStart(r) else PopWork(r, true)
  }

  /** The request of a record is at work, or its start message is being turned into one. */
  ghost predicate HandedOut(s: State, r: Record) {
    if r.at.start then r in s.inHand else exists o :: o in s.inflight && s.inflight[o] == r
  }

  /** A step that does nothing but consume. */
  ghost predicate Popping(s: State, t: State) {
    exists r :: NextRecord(s, r) && Next(s, PopOf(r)) == Some(t)
  }

  lemma PopEffect(s: State, r: Record)
    requires NextRecord(s, r)
    ensures var t := Next(s, PopOf(r));
            && t.Some? && t.value.records == s.records && t.value.committed == s.committed
            && t.value.positions == s.positions[r.at := r.offset + 1]
            && t.value.leases == s.leases[r.at := Deliver(LeaseOf(s, r.at), r.offset)]
            && HandedOut(t.value, r)
  {
    var after := Delivered(s, r);
    if r.at.start {
      assert Next(s, PopStart(r)) == Some(after.(inHand := s.inHand + {r}));
    } else {
      var inflight := s.inflight[s.objects := r];
      assert Next(s, PopWork(r, true)) == Some(after.(inflight := inflight, objects := s.objects + 1));
      assert s.objects in inflight && inflight[s.objects] == r;
    }
  }

  lemma PopOne(s: State, r: Record) returns (t: State)
    requires NextRecord(s, r)
    ensures Popping(s, t) && CanStep(s, t) && t.records == s.records && t.committed == s.committed
    ensures PositionOf(t, r.at) == r.offset + 1
    ensures LeaseOf(t, r.at).delivered == LeaseOf(s, r.at).delivered + [r.offset] && HandedOut(t, r)
  {
    PopEffect(s, r);
    t := Next(s, PopOf(r)).value;
  }

  /** A record at or after the fetch position is reached from `s` by popping alone; `start` is where the
      popping began. */
  lemma {:induction false} PoppingReaches(start: State, s: State, r: Record) returns (t: State)
    requires Executions.Reaches(u => u == start, Popping, s)
    requires r in s.records && PositionOf(s, r.at) <= r.offset
    ensures Executions.Reaches(u => u == start, Popping, t)
    ensures r.offset in LeaseOf(t, r.at).delivered && HandedOut(t, r) && t.committed == s.committed
    decreases r.offset - PositionOf(s, r.at)
  {
    var candidates := set c | c in s.records && c.at == r.at && PositionOf(s, r.at) <= c.offset;
    var first := OldestWaiting(s, r, candidates);
    t := PopOne(s, first);
    Executions.Continues(u => u == start, Popping, s, t);
    if first.offset < r.offset {
      t := PoppingReaches(start, t, r);
    } else {
      assert first == r;
    }
  }

  /** After a crash in any reachable state, consuming alone, from the very state the crash leaves behind,
      delivers every record again that was not finished. */
  lemma RestartRedelivers(s: State, r: Record) returns (t: State)
    requires Reachable(s) && r in s.records && !Finished(s, r)
    ensures Next(s, Restart).Some?
    ensures Executions.Reaches(u => u == Next(s, Restart).value, Popping, t)
    ensures r.offset in LeaseOf(t, r.at).delivered && HandedOut(t, r) && t.committed == s.committed
  {
    UnfinishedRecordsAreUncommitted(s, r);
    ghost var crashed := Next(s, Restart).value;
    Executions.Starts(u => u == crashed, Popping, crashed);
    t := PoppingReaches(crashed, crashed, r);
  }

  // ------------------------------------------------------------ no more often than needed

  lemma OldestAckCommits(l: Lease, offset: nat)
    requires Sound(l) && Outstanding(l) != [] && Outstanding(l)[0] == offset
    ensures Ack(l, offset, true).committed.Some? && Ack(l, offset, true).committed.value > offset
  {
    var n := Settled(l.delivered, l.acked);
    assert l.delivered[n] == offset;
    forall j | 0 <= j < n + 1 ensures l.delivered[j] in l.acked + {offset} {
    }
    SettledFromAtLeast(l.delivered, l.acked + {offset}, 0, n + 1);
    var m := Settled(l.delivered, l.acked + {offset});
    assert l.delivered[m - 1] >= l.delivered[n];
  }

  lemma OldestAckMovesTheStart(s: State, r: Record)
    requires Sound(LeaseOf(s, r.at)) && Outstanding(LeaseOf(s, r.at)) != [] && Outstanding(LeaseOf(s, r.at))[0] == r.offset
    ensures StartOf(AckedState(s, r, true), r.at) > r.offset
  {
    OldestAckCommits(LeaseOf(s, r.at), r.offset);
  }

  /** complete_request pops the lease and touches nothing that the client keeps. */
  lemma CompleteEffect(s: State, request: Object)
    requires request in s.inflight
    ensures var r, done := s.inflight[request], Next(s, Complete(request));
            && done.Some? && r in done.value.due && r in done.value.completed
            && done.value.leases == s.leases && done.value.committed == s.committed
  {
  }

  lemma AckStep(s: State, r: Record)
    requires r in s.due
    ensures Next(s, CarryOutAck(r, true)) == Some(AckedState(s, r, true))
    ensures r !in AckedState(s, r, true).due && AckedState(s, r, true).completed == s.completed
  {
  }

  lemma LeaseIsSound(s: State, at: Partition)
    requires Reachable(s)
    ensures Sound(LeaseOf(s, at))
  {
    ReachableIsSafe(s);
    assert PartitionSafe(s, at);
  }

  /** When the request of the oldest outstanding record completes and the broker takes the commit, those
      two steps leave the record below the committed offset, and no client starts with it again. */
  lemma CompletedRecordIsCommitted(s: State, request: Object) returns (t: State)
    requires Reachable(s) && request in s.inflight
    requires Outstanding(LeaseOf(s, s.inflight[request].at)) != []
    requires Outstanding(LeaseOf(s, s.inflight[request].at))[0] == s.inflight[request].offset
    ensures var r, done := s.inflight[request], Next(s, Complete(request));
            && done.Some? && Some(t) == Next(done.value, CarryOutAck(r, true))
            && r in t.completed && r !in t.due && StartOf(t, r.at) > r.offset
  {
    var r := s.inflight[request];
    var done := Next(s, Complete(request)).value;
    LeaseIsSound(s, r.at);
    CompleteEffect(s, request);
    OldestAckMovesTheStart(done, r);
    AckStep(done, r);
    t := AckedState(done, r, true);
  }

  /** A start record whose acknowledgement is due, and which is the oldest outstanding one, is below the
      committed offset once the broker takes the commit. */
  lemma DueStartIsCommitted(s: State, r: Record)
    requires Sound(LeaseOf(s, r.at)) && r in s.due
    requires Outstanding(LeaseOf(s, r.at)) != [] && Outstanding(LeaseOf(s, r.at))[0] == r.offset
    ensures var t := Next(s, CarryOutAck(r, true));
            && t.Some? && r !in t.value.due && StartOf(t.value, r.at) > r.offset
            && t.value.dismissed == s.dismissed && t.value.pushed == s.pushed
  {
    OldestAckMovesTheStart(s, r);
    AckStep(s, r);
  }

  lemma DismissEffect(s: State, r: Record)
    requires r in s.inHand
    ensures var done := Next(s, DismissStart(r));
            && done.Some? && r in done.value.due && r in done.value.dismissed && r !in done.value.inHand
            && done.value.leases == s.leases
  {
  }

  /** When the oldest outstanding start record yields no request, its acknowledgement with an accepted
      commit leaves it below the committed offset. */
  lemma DismissedRecordIsCommitted(s: State, r: Record) returns (t: State)
    requires Reachable(s) && r in s.inHand
    requires Outstanding(LeaseOf(s, r.at)) != [] && Outstanding(LeaseOf(s, r.at))[0] == r.offset
    ensures var done := Next(s, DismissStart(r));
            && done.Some? && Some(t) == Next(done.value, CarryOutAck(r, true))
            && r in t.dismissed && r !in t.due && StartOf(t, r.at) > r.offset
  {
    LeaseIsSound(s, r.at);
    DismissEffect(s, r);
    var done := Next(s, DismissStart(r)).value;
    DueStartIsCommitted(done, r);
    t := Next(done, CarryOutAck(r, true)).value;
  }

  lemma PushEffect(s: State, source: Object, r: Record, work: Record)
    requires source in s.starts && s.starts[source] == r && !work.at.start && EndOf(s, work.at) <= work.offset
    ensures var done := Next(s, PushWork(Some(source), true, work));
            && done.Some? && r in done.value.due && r in done.value.pushed && source !in done.value.starts
            && work in done.value.records && done.value.leases == s.leases
  {
  }

  /** When its request is pushed, the work record is there before the start record can be committed, and
      the acknowledgement with an accepted commit leaves that one below the committed offset. */
  lemma PushedRecordIsCommitted(s: State, source: Object, work: Record) returns (t: State)
    requires Reachable(s) && source in s.starts && !work.at.start && EndOf(s, work.at) <= work.offset
    requires var r := s.starts[source]; Outstanding(LeaseOf(s, r.at)) != [] && Outstanding(LeaseOf(s, r.at))[0] == r.offset
    ensures var r, done := s.starts[source], Next(s, PushWork(Some(source), true, work));
            && done.Some? && work in done.value.records && Some(t) == Next(done.value, CarryOutAck(r, true))
            && r in t.pushed && r !in t.due && StartOf(t, r.at) > r.offset
  {
    var r := s.starts[source];
    LeaseIsSound(s, r.at);
    PushEffect(s, source, r, work);
    var done := Next(s, PushWork(Some(source), true, work)).value;
    DueStartIsCommitted(done, r);
    t := Next(done, CarryOutAck(r, true)).value;
  }

  // ------------------------------------------------------------ nothing is dropped on the way

  ghost predicate Fresh(s: State) {
    (forall o :: o in s.inflight ==> o < s.objects) && (forall o :: o in s.starts ==> o < s.objects)
  }

  lemma StepKeepsFresh(s: State, step: Step)
    requires Fresh(s) && Next(s, step).Some?
    ensures Fresh(Next(s, step).value)
  {
  }

  lemma ReachableIsFresh(s: State)
    requires Reachable(s)
    ensures Fresh(s)
  {
    forall u, v | Fresh(u) && CanStep(u, v) ensures Fresh(v) {
      var step :| Next(u, step) == Some(v);
      StepKeepsFresh(u, step);
    }
    Executions.Induction(u => u == Initial(), CanStep, Fresh, s);
  }

  /** A popped record stays leased to its request until that request completes, or the process dies. */
  lemma LeasedUntilCompleted(s: State, step: Step, o: Object)
    requires Reachable(s) && o in s.inflight && Next(s, step).Some?
    ensures var t := Next(s, step).value;
            && (o in t.inflight <==> step != Complete(o) && step != Restart)
            && (o in t.inflight ==> t.inflight[o] == s.inflight[o])
            && (step == Complete(o) ==> s.inflight[o] in t.completed && s.inflight[o] in t.due)
  {
    ReachableIsFresh(s);
  }

  predicate Pushes(step: Step, o: Object) {
    step.PushWork? && step.accepted && step.source == Some(o)
  }

  /** A start message stays attached to its request until that is pushed, or the process dies; and it is
      attached in the first place. */
  lemma AttachedUntilPushed(s: State, step: Step, o: Object)
    requires Reachable(s) && Next(s, step).Some?
    ensures var t := Next(s, step).value;
            && (o in s.starts ==>
                  && (o in t.starts <==> !Pushes(step, o) && step != Restart)
                  && (o in t.starts ==> t.starts[o] == s.starts[o])
                  && (Pushes(step, o) ==> s.starts[o] in t.pushed && s.starts[o] in t.due))
            && (step.AttachStart? ==> s.objects in t.starts && t.starts[s.objects] == step.r && step.r !in t.inHand)
  {
    ReachableIsFresh(s);
  }

  lemma CommitIsSent(l: Lease, offset: nat)
    requires Sound(l) && offset in Outstanding(l)
    ensures Settled(l.delivered, l.acked + {offset}) > Settled(l.delivered, l.acked) <==> Outstanding(l)[0] == offset
  {
    PopCount(l, offset);
  }

  lemma RefusedWhenOldest(l: Lease, offset: nat, commitOk: bool)
    requires Sound(l)
    ensures Refused(l, offset, commitOk) <==> !commitOk && Outstanding(l) != [] && Outstanding(l)[0] == offset
  {
    if offset in Outstanding(l) {
      CommitIsSent(l, offset);
    }
  }

  lemma AckLeavesDue(s: State, acked: Record, commitOk: bool, r: Record)
    requires acked in s.due && r in s.due
    ensures var t := Next(s, CarryOutAck(acked, commitOk));
            t.Some? && (r in t.value.due <==> r != acked || Refused(LeaseOf(s, r.at), r.offset, commitOk))
  {
  }

  lemma OtherStepsKeepDue(s: State, step: Step, r: Record)
    requires r in s.due && Next(s, step).Some? && !step.CarryOutAck?
    ensures r in Next(s, step).value.due <==> step != GiveUpAck(r) && step != Restart
  {
  }

  /** An acknowledgement that is called for stays so until it reaches the client, unless its retries are
      used up or the process dies; and if it is that of the oldest outstanding delivery, and the broker
      refuses the commit, it is made again. */
  lemma DueUntilCarriedOut(s: State, step: Step, r: Record)
    requires Reachable(s) && r in s.due && Next(s, step).Some?
    ensures var t := Next(s, step).value;
            var rest := Outstanding(LeaseOf(s, r.at));
            r !in t.due <==>
              || step == GiveUpAck(r) || step == Restart || step == CarryOutAck(r, true)
              || (step == CarryOutAck(r, false) && !(rest != [] && rest[0] == r.offset))
  {
    if step.CarryOutAck? {
      LeaseIsSound(s, r.at);
      RefusedWhenOldest(LeaseOf(s, r.at), r.offset, step.commitOk);
      AckLeavesDue(s, step.r, step.commitOk, r);
    } else {
      OtherStepsKeepDue(s, step, r);
    }
  }

  // ------------------------------------------------------------ committed offsets across generations

  lemma AckRaises(l: Lease, offset: nat, commitOk: bool)
    requires Sound(l)
    ensures var l' := Ack(l, offset, commitOk);
            l.committed.Some? ==> l'.committed.Some? && l.committed.value <= l'.committed.value
  {
    SettledGrows(l.delivered, l.acked, l.acked + {offset});
  }

  lemma AckNeverLowers(s: State, r: Record, commitOk: bool)
    requires PartitionSafe(s, r.at)
    ensures StartOf(s, r.at) <= StartOf(AckedState(s, r, commitOk), r.at)
  {
    AckRaises(LeaseOf(s, r.at), r.offset, commitOk);
    AckEffect(LeaseOf(s, r.at), r.offset, commitOk);
  }

  lemma PopsKeepCommitted(s: State, step: Step)
    requires Next(s, step).Some? && (step.PopWork? || step.PopStart? || step.AttachStart? || step.DismissStart?)
    ensures Next(s, step).value.committed == s.committed
  {
  }

  lemma PushesKeepCommitted(s: State, step: Step)
    requires Next(s, step).Some? && (step.Produce? || step.PushWork? || step.Complete? || step.GiveUpAck? || step.ReplaceClient? || step.Restart?)
    ensures Next(s, step).value.committed == s.committed
  {
  }

  lemma OtherStepsKeepCommitted(s: State, step: Step)
    requires Next(s, step).Some? && !step.CarryOutAck?
    ensures Next(s, step).value.committed == s.committed
  {
    if step.PopWork? || step.PopStart? || step.AttachStart? || step.DismissStart? {
      PopsKeepCommitted(s, step);
    } else {
      PushesKeepCommitted(s, step);
    }
  }

  lemma AckElsewhere(s: State, r: Record, commitOk: bool, at: Partition)
    ensures at != r.at ==> StartOf(AckedState(s, r, commitOk), at) == StartOf(s, at)
    ensures at in s.committed ==> at in AckedState(s, r, commitOk).committed
  {
  }

  /** No step of any reachable state, be it a late or repeated acknowledgement, a replaced client or a
      crash, moves a committed offset back. */
  lemma CommittedNeverDecreases(s: State, step: Step, at: Partition)
    requires Reachable(s) && Next(s, step).Some?
    ensures StartOf(s, at) <= StartOf(Next(s, step).value, at)
    ensures at in s.committed ==> at in Next(s, step).value.committed
  {
    if step.CarryOutAck? {
      ReachableIsSafe(s);
      assert PartitionSafe(s, step.r.at);
      AckNeverLowers(s, step.r, step.commitOk);
      AckElsewhere(s, step.r, step.commitOk, at);
    } else {
      OtherStepsKeepCommitted(s, step);
    }
  }
}
