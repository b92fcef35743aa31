/** Leased Kafka records and contiguous commits: the per-partition deques of
    scrapy_cffi/infra/kafka/client.py against the plain account of what was delivered and acked. */
module KafkaOffsets {
  import opened Common

  // ------------------------------------------------------------ the plain account

  /** One partition within one client generation: the offsets delivered, in order, the ones
      acknowledged, and the last offset the broker accepted as committed. */
  datatype Lease = Lease(delivered: seq<nat>, acked: set<nat>, committed: Option<nat>)

  const EMPTY := Lease([], {}, None)

  ghost predicate Increasing(offsets: seq<nat>) {
    forall i, j :: 0 <= i < j < |offsets| ==> offsets[i] < offsets[j]
  }

  function SettledFrom(delivered: seq<nat>, acked: set<nat>, i: nat): (n: nat)
    requires i <= |delivered|
    ensures i <= n <= |delivered|
    ensures forall j :: i <= j < n ==> delivered[j] in acked
    ensures n < |delivered| ==> delivered[n] !in acked
    decreases |delivered| - i
  {
    if i < |delivered| && delivered[i] in acked then SettledFrom(delivered, acked, i + 1) else i
  }

  /** How many of the oldest delivered offsets are all acknowledged. */
  function Settled(delivered: seq<nat>, acked: set<nat>): nat {
    SettledFrom(delivered, acked, 0)
  }

  /** One past the last offset of the longest fully acknowledged prefix. */
  function Frontier(delivered: seq<nat>, acked: set<nat>): Option<nat> {
    var n := Settled(delivered, acked);
    if n == 0 then None else Some(delivered[n - 1] + 1)
  }

  /** What is delivered and not yet settled, oldest first. */
  function Outstanding(l: Lease): seq<nat> {
    l.delivered[Settled(l.delivered, l.acked)..]
  }

  function Deliver(l: Lease, offset: nat): Lease {
    l.(delivered := l.delivered + [offset])
  }

  /** An acknowledgement counts while its offset is still outstanding; the broker is asked to commit
      when the settled prefix grows, and may refuse. */
  function Ack(l: Lease, offset: nat, commitOk: bool): Lease {
    var before := Settled(l.delivered, l.acked);
    if offset !in Outstanding(l) then l
    else
      var acked := l.acked + {offset};
      var grew := Settled(l.delivered, acked) > before;
      Lease(l.delivered, acked, if grew && commitOk then Frontier(l.delivered, acked) else l.committed)
  }

  ghost predicate Sound(l: Lease) {
    && Increasing(l.delivered)
    && (forall offset :: offset in l.acked ==> offset in l.delivered)
    && (l.committed.Some? ==>
          Frontier(l.delivered, l.acked).Some? && l.committed.value <= Frontier(l.delivered, l.acked).value)
  }

  // ------------------------------------------------------------ the client

  type Key = (string, string, nat)

  datatype Entry = Entry(offset: nat, done: bool)

  datatype AckResult = Acked | NotLeased | CommitFailed

  function Entries(offsets: seq<nat>, acked: set<nat>): seq<Entry> {
    seq(|offsets|, i requires 0 <= i < |offsets| => Entry(offsets[i], offsets[i] in acked))
  }

  function FirstAt(pending: seq<Entry>, offset: nat, i: nat): (k: nat)
    requires i <= |pending|
    ensures i <= k <= |pending|
    ensures k < |pending| ==> pending[k].offset == offset
    ensures forall j :: i <= j < k ==> pending[j].offset != offset
    decreases |pending| - i
  {
    if i < |pending| && pending[i].offset != offset then FirstAt(pending, offset, i + 1) else i
  }

  /** The search loop of ack_request: marks the first entry with this offset. */
  method MarkDone(pending: seq<Entry>, offset: nat) returns (found: bool, marked: seq<Entry>)
    ensures found <==> exists e :: e in pending && e.offset == offset
    ensures !found ==> marked == pending
    ensures found ==> FirstAt(pending, offset, 0) < |pending|
    ensures found ==> marked == pending[FirstAt(pending, offset, 0) := Entry(offset, true)]
  {
    var i := 0;
    while i < |pending| && pending[i].offset != offset
      invariant 0 <= i <= |pending|
      invariant forall j :: 0 <= j < i ==> pending[j].offset != offset
      invariant FirstAt(pending, offset, 0) == FirstAt(pending, offset, i)
    {
      i := i + 1;
    }
    found := i < |pending|;
    marked := pending;
    if found {
      assert pending[i] in pending;
      marked := pending[i := Entry(offset, true)];
    }
  }

  function LeadingDone(pending: seq<Entry>, i: nat): (n: nat)
    requires i <= |pending|
    ensures i <= n <= |pending|
    ensures forall j :: i <= j < n ==> pending[j].done
    ensures n < |pending| ==> !pending[n].done
    decreases |pending| - i
  {
    if i < |pending| && pending[i].done then LeadingDone(pending, i + 1) else i
  }

  /** The popping loop of ack_request: removes every completed entry at the front and reports the
      offset to commit, if any entry was removed. */
  method PopDone(pending: seq<Entry>) returns (rest: seq<Entry>, commitOffset: Option<nat>)
    ensures var n := LeadingDone(pending, 0);
            rest == pending[n..] && commitOffset == if n == 0 then None else Some(pending[n - 1].offset + 1)
  {
    ghost var n := 0;
    rest, commitOffset := pending, None;
    while rest != [] && rest[0].done
      invariant n <= |pending| && rest == pending[n..]
      invariant LeadingDone(pending, 0) == LeadingDone(pending, n)
      invariant commitOffset == if n == 0 then None else Some(pending[n - 1].offset + 1)
      decreases |rest|
    {
      commitOffset := Some(rest[0].offset + 1);
      rest := rest[1..];
      n := n + 1;
    }
  }

  // ------------------------------------------------------------ the deque and the account

  lemma {:induction false} SettledFromIs(delivered: seq<nat>, acked: set<nat>, i: nat, n: nat)
    requires i <= n <= |delivered|
    requires forall j :: i <= j < n ==> delivered[j] in acked
    requires n < |delivered| ==> delivered[n] !in acked
    ensures SettledFrom(delivered, acked, i) == n
    decreases n - i
  {
    if i < n {
      SettledFromIs(delivered, acked, i + 1, n);
    }
  }

  lemma {:induction false} SettledFromAtLeast(delivered: seq<nat>, acked: set<nat>, i: nat, n: nat)
    requires i <= n <= |delivered|
    requires forall j :: i <= j < n ==> delivered[j] in acked
    ensures SettledFrom(delivered, acked, i) >= n
    decreases n - i
  {
    if i < n {
      SettledFromAtLeast(delivered, acked, i + 1, n);
    }
  }

  lemma DeliverKeepsSettled(l: Lease, offset: nat)
    requires Sound(l) && forall earlier :: earlier in l.delivered ==> earlier < offset
    ensures offset !in l.acked
    ensures Settled(l.delivered + [offset], l.acked) == Settled(l.delivered, l.acked)
    ensures Outstanding(Deliver(l, offset)) == Outstanding(l) + [offset]
    ensures Frontier(l.delivered + [offset], l.acked) == Frontier(l.delivered, l.acked)
  {
    SettledFromIs(l.delivered + [offset], l.acked, 0, Settled(l.delivered, l.acked));
  }

  lemma DeliverKeepsSound(l: Lease, offset: nat)
    requires Sound(l) && forall earlier :: earlier in l.delivered ==> earlier < offset
    ensures Sound(Deliver(l, offset))
  {
    DeliverKeepsSettled(l, offset);
    var delivered := l.delivered + [offset];
    forall i, j | 0 <= i < j < |delivered| ensures delivered[i] < delivered[j] {
      if j == |delivered| - 1 {
        assert l.delivered[i] in l.delivered;
      }
    }
    forall o | o in l.acked ensures o in delivered {
      assert o in l.delivered;
    }
  }

  lemma EntriesAppend(rest: seq<nat>, acked: set<nat>, offset: nat)
    requires offset !in acked
    ensures Entries(rest + [offset], acked) == Entries(rest, acked) + [Entry(offset, false)]
  {
  }

  lemma DeliverEntries(l: Lease, offset: nat)
    requires Sound(l) && forall earlier :: earlier in l.delivered ==> earlier < offset
    ensures Sound(Deliver(l, offset))
    ensures Entries(Outstanding(Deliver(l, offset)), l.acked) == Entries(Outstanding(l), l.acked) + [Entry(offset, false)]
  {
    DeliverKeepsSettled(l, offset);
    DeliverKeepsSound(l, offset);
    EntriesAppend(Outstanding(l), l.acked, offset);
  }

  lemma OutstandingIncreases(l: Lease)
    requires Sound(l)
    ensures Increasing(Outstanding(l))
  {
  }

  /** The deque after marking, and whether anything was marked. */
  lemma MarkedEntries(l: Lease, offset: nat)
    requires Sound(l)
    ensures var pending := Entries(Outstanding(l), l.acked);
            && (offset in Outstanding(l) <==> exists e :: e in pending && e.offset == offset)
            && (offset in Outstanding(l) ==>
                  && FirstAt(pending, offset, 0) < |pending|
                  && pending[FirstAt(pending, offset, 0) := Entry(offset, true)] == Entries(Outstanding(l), l.acked + {offset}))
  {
    var rest := Outstanding(l);
    var pending := Entries(rest, l.acked);
    assert forall j :: 0 <= j < |rest| ==> pending[j].offset == rest[j];
    if offset in rest {
      var j :| 0 <= j < |rest| && rest[j] == offset;
      assert pending[j] in pending;
      var k := FirstAt(pending, offset, 0);
      assert k <= j;
      OutstandingIncreases(l);
      assert pending[k := Entry(offset, true)] == Entries(rest, l.acked + {offset});
    }
  }

  /** Popping the completed front settles exactly as many deliveries. */
  lemma PopCount(l: Lease, offset: nat)
    requires Sound(l) && offset in Outstanding(l)
    ensures var marked := Entries(Outstanding(l), l.acked + {offset});
            Settled(l.delivered, l.acked + {offset}) == Settled(l.delivered, l.acked) + LeadingDone(marked, 0)
  {
    var s, acked := Settled(l.delivered, l.acked), l.acked + {offset};
    var marked := Entries(Outstanding(l), acked);
    var n := LeadingDone(marked, 0);
    forall j | s <= j < s + n ensures l.delivered[j] in acked {
      assert marked[j - s].done;
    }
    SettledFromIs(l.delivered, acked, 0, s + n);
  }

  /** The deque after popping is that of the acknowledged lease; it shrinks only at its front. */
  lemma PoppedEntries(l: Lease, offset: nat, commitOk: bool)
    requires Sound(l) && offset in Outstanding(l)
    ensures var l' := Ack(l, offset, commitOk);
            var marked := Entries(Outstanding(l), l'.acked);
            var n := LeadingDone(marked, 0);
            && marked[n..] == Entries(Outstanding(l'), l'.acked)
            && (n == 0 <==> offset != Outstanding(l)[0])
  {
    PopCount(l, offset);
    var l' := Ack(l, offset, commitOk);
    var n := LeadingDone(Entries(Outstanding(l), l'.acked), 0);
    assert Outstanding(l)[n..] == Outstanding(l');
  }

  lemma AckWithCommit(l: Lease, offset: nat, commitOk: bool, commitOffset: Option<nat>)
    requires Sound(l) && offset in Outstanding(l)
    requires commitOffset.Some? <==> Settled(l.delivered, l.acked + {offset}) > Settled(l.delivered, l.acked)
    requires commitOffset.Some? ==> commitOffset == Frontier(l.delivered, l.acked + {offset})
    ensures Ack(l, offset, commitOk)
         == Lease(l.delivered, l.acked + {offset}, if commitOffset.Some? && commitOk then commitOffset else l.committed)
    ensures Outstanding(Ack(l, offset, commitOk)) == Outstanding(Ack(l, offset, true))
  {
  }

  lemma SettledGrows(delivered: seq<nat>, acked: set<nat>, more: set<nat>)
    requires Increasing(delivered) && acked <= more
    ensures Settled(delivered, acked) <= Settled(delivered, more)
    ensures Frontier(delivered, acked).Some? ==>
              Frontier(delivered, more).Some? && Frontier(delivered, acked).value <= Frontier(delivered, more).value
  {
    SettledFromAtLeast(delivered, more, 0, Settled(delivered, acked));
  }

  lemma AckKeepsSound(l: Lease, offset: nat, commitOk: bool)
    requires Sound(l)
    ensures Sound(Ack(l, offset, commitOk))
  {
    var n := Settled(l.delivered, l.acked);
    assert offset in Outstanding(l) ==> offset in l.delivered;
    SettledGrows(l.delivered, l.acked, l.acked + {offset});
  }

  /** Both loops of ack_request on the deque of lease `l`: the new deque is that of the acknowledged
      lease, and a commit is due exactly when the oldest outstanding delivery was acknowledged. */
  method Settle(pending: seq<Entry>, offset: nat, ghost l: Lease) returns (found: bool, rest: seq<Entry>, commitOffset: Option<nat>)
    requires Sound(l) && pending == Entries(Outstanding(l), l.acked)
    ensures found <==> offset in Outstanding(l)
    ensures found ==>
              && rest == Entries(Outstanding(Ack(l, offset, true)), l.acked + {offset})
              && commitOffset == (if offset == Outstanding(l)[0] then Frontier(l.delivered, l.acked + {offset}) else None)
              && (commitOffset.Some? <==> Settled(l.delivered, l.acked + {offset}) > Settled(l.delivered, l.acked))
  {
    var marked;
    found, marked := MarkDone(pending, offset);
    MarkedEntries(l, offset);
    if found {
      rest, commitOffset := PopDone(marked);
      PopCount(l, offset);
      PoppedEntries(l, offset, true);
    } else {
      rest, commitOffset := pending, None;
    }
  }

  // ------------------------------------------------------------ the client's dictionary of deques

  function DequeOf(pendingOffsets: map<Key, seq<Entry>>, key: Key): Option<seq<Entry>> {
    if key in pendingOffsets then Some(pendingOffsets[key]) else None
  }

  /** A deque holds exactly the unsettled deliveries, and is absent when there are none. */
  ghost predicate Agrees(l: Lease, deque: Option<seq<Entry>>) {
    var rest := Entries(Outstanding(l), l.acked);
    deque == if rest == [] then None else Some(rest)
  }

  ghost predicate Consistent(consumers: set<(string, string)>, pending: map<Key, seq<Entry>>, leases: map<Key, Lease>) {
    && (forall key :: key in pending ==> key in leases && (key.0, key.1) in consumers)
    && (forall key :: key in leases ==> Sound(leases[key]) && Agrees(leases[key], DequeOf(pending, key)))
  }

  function Stored(pending: map<Key, seq<Entry>>, key: Key, deque: seq<Entry>): map<Key, seq<Entry>> {
    if deque == [] then pending - {key} else pending[key := deque]
  }

  lemma Updated(consumers: set<(string, string)>, pending: map<Key, seq<Entry>>, leases: map<Key, Lease>,
                key: Key, l: Lease, deque: seq<Entry>)
    requires Consistent(consumers, pending, leases) && (key.0, key.1) in consumers
    requires Sound(l) && deque == Entries(Outstanding(l), l.acked)
    ensures Consistent(consumers, Stored(pending, key, deque), leases[key := l])
  {
    var pending', leases' := Stored(pending, key, deque), leases[key := l];
    forall other | other in leases'
      ensures Sound(leases'[other]) && Agrees(leases'[other], DequeOf(pending', other))
    {
      if other != key {
        assert other in leases && leases'[other] == leases[other] && DequeOf(pending', other) == DequeOf(pending, other);
      }
    }
  }

  /** The dictionary of deques, one deque per (topic, group, partition). */
  class KafkaClient {
    var consumers: set<(string, string)>
    var pendingOffsets: map<Key, seq<Entry>>
    ghost var leases: map<Key, Lease>

    ghost function LeaseOf(key: Key): Lease
      reads this
    {
      if key in leases then leases[key] else EMPTY
    }

    ghost predicate Valid()
      reads this
    {
      Consistent(consumers, pendingOffsets, leases)
    }

    constructor ()
      ensures Valid() && leases == map[] && consumers == {}
    {
      consumers, pendingOffsets, leases := {}, map[], map[];
    }

    /** _get_request_consumer: the consumer of a topic and group exists from its first use on. */
    method RequestConsumer(topic: string, group: string)
      requires Valid()
      modifies this`consumers
      ensures Valid() && consumers == old(consumers) + {(topic, group)}
    {
      consumers := consumers + {(topic, group)};
    }

    /** dequeue_request, when the consumer returns a record of this partition. */
    method DequeueRequest(key: Key, offset: nat)
      requires Valid()
      requires forall earlier :: earlier in LeaseOf(key).delivered ==> earlier < offset
      modifies this
      ensures Valid() && consumers == old(consumers) + {(key.0, key.1)}
      ensures leases == old(leases)[key := Deliver(old(LeaseOf(key)), offset)]
    {
      RequestConsumer(key.0, key.1);
      var pending := if key in pendingOffsets then pendingOffsets[key] else [];
      pendingOffsets := pendingOffsets[key := pending + [Entry(offset, false)]];
      DeliverEntries(LeaseOf(key), offset);
      Updated(consumers, old(pendingOffsets), leases, key, Deliver(LeaseOf(key), offset), pending + [Entry(offset, false)]);
      leases := leases[key := Deliver(LeaseOf(key), offset)];
    }

    /** The deque of a key once its completed front is popped; an empty one is dropped. */
    method Replace(key: Key, ghost l: Lease, rest: seq<Entry>)
      requires Valid() && (key.0, key.1) in consumers
      requires Sound(l) && rest == Entries(Outstanding(l), l.acked)
      modifies this`pendingOffsets, this`leases
      ensures Valid() && leases == old(leases)[key := l]
    {
      Updated(consumers, pendingOffsets, leases, key, l, rest);
      if rest == [] {
        pendingOffsets := pendingOffsets - {key};
      } else {
        pendingOffsets := pendingOffsets[key := rest];
      }
      leases := leases[key := l];
    }

    /** ack_request; `commitOk` is whether the broker accepts the commit this call may send. */
    method AckRequest(key: Key, offset: nat, commitOk: bool) returns (result: AckResult)
      requires Valid()
      modifies this`pendingOffsets, this`leases
      ensures Valid()
      ensures leases == if key in old(leases) then old(leases)[key := Ack(old(leases)[key], offset, commitOk)] else old(leases)
      ensures result.NotLeased? <==> offset !in old(Outstanding(LeaseOf(key)))
      ensures result.CommitFailed? <==>
                !commitOk && old(Outstanding(LeaseOf(key))) != [] && offset == old(Outstanding(LeaseOf(key)))[0]
    {
      if (key.0, key.1) !in consumers || key !in pendingOffsets {
        return NotLeased;
      }
      ghost var before := leases[key];
      var found, rest, commitOffset := Settle(pendingOffsets[key], offset, before);
      if !found {
        return NotLeased;
      }
      // The broker's account: what was committed is the offset the popping loop computed.
      ghost var after := Lease(before.delivered, before.acked + {offset},
                               if commitOffset.Some? && commitOk then commitOffset else before.committed);
      assert after == Ack(before, offset, commitOk) by {
        AckWithCommit(before, offset, commitOk, commitOffset);
      }
      AckKeepsSound(before, offset, commitOk);
      Replace(key, after, rest);
      if commitOffset.None? {
        return Acked;
      }
      return if commitOk then Acked else CommitFailed;
    }

    /** _close_transport: a replaced client generation forgets every lease. */
    method CloseTransport()
      requires Valid()
      modifies this
      ensures Valid() && leases == map[] && consumers == {}
    {
      consumers, pendingOffsets, leases := {}, map[], map[];
    }
  }

  // ------------------------------------------------------------ what the frontier means

  /** The frontier separates: below it every delivery is acknowledged, and the oldest unacknowledged
      delivery, if there is one, comes right after the deliveries below it. */
  lemma FrontierSeparates(l: Lease, k: nat)
    requires Sound(l) && k < |l.delivered|
    ensures var f := Frontier(l.delivered, l.acked);
            && (f.Some? && l.delivered[k] < f.value ==> l.delivered[k] in l.acked)
            && (l.delivered[k] !in l.acked && (forall j :: 0 <= j < k ==> l.delivered[j] in l.acked) ==>
                  f == if k == 0 then None else Some(l.delivered[k - 1] + 1))
  {
    var n := Settled(l.delivered, l.acked);
    if n > 0 && k >= n {
      assert l.delivered[n - 1] < l.delivered[k];
    }
    if l.delivered[k] !in l.acked && forall j :: 0 <= j < k ==> l.delivered[j] in l.acked {
      SettledFromIs(l.delivered, l.acked, 0, k);
    }
  }

  function Elements(offsets: seq<nat>): set<nat> {
    set o | o in offsets
  }

  lemma OutstandingOrAcked(l: Lease, offset: nat)
    requires Sound(l) && offset in l.delivered
    ensures offset in Outstanding(l) || offset in l.acked
  {
    var k :| 0 <= k < |l.delivered| && l.delivered[k] == offset;
    var n := Settled(l.delivered, l.acked);
    assert k >= n ==> Outstanding(l)[k - n] == offset;
  }

  lemma CommitIsCurrent(l: Lease, offset: nat)
    requires Sound(l) && l.committed == Frontier(l.delivered, l.acked) && offset in Outstanding(l)
    ensures Ack(l, offset, true).committed == Frontier(l.delivered, l.acked + {offset})
  {
    SettledGrows(l.delivered, l.acked, l.acked + {offset});
  }

  /** What one acknowledgement with a successful commit amounts to on a lease whose commit is current. */
  lemma AckAddsUp(l: Lease, offset: nat)
    requires Sound(l) && l.committed == Frontier(l.delivered, l.acked)
    ensures var acked := l.acked + ({offset} * Elements(l.delivered));
            Sound(Ack(l, offset, true)) && Ack(l, offset, true) == Lease(l.delivered, acked, Frontier(l.delivered, acked))
  {
    AckKeepsSound(l, offset, true);
    if offset in Outstanding(l) {
      assert {offset} * Elements(l.delivered) == {offset};
      CommitIsCurrent(l, offset);
    } else {
      assert l.acked + ({offset} * Elements(l.delivered)) == l.acked by {
        if offset in l.delivered {
          OutstandingOrAcked(l, offset);
        }
      }
    }
  }

  datatype Event = Delivered(offset: nat) | AckSent(offset: nat, commitOk: bool)

  function Apply(l: Lease, e: Event): Lease {
    match e
    case Delivered(offset) => Deliver(l, offset)
    case AckSent(offset, commitOk) => Ack(l, offset, commitOk)
  }

  function Replay(l: Lease, events: seq<Event>): Lease
    decreases |events|
  {
    if events == [] then l else Apply(Replay(l, events[..|events| - 1]), events[|events| - 1])
  }

  /** Within one client generation a partition's offsets arrive in strictly increasing order. */
  ghost predicate InOrder(events: seq<Event>) {
    forall i, j :: 0 <= i < j < |events| && events[i].Delivered? && events[j].Delivered? ==>
                     events[i].offset < events[j].offset
  }

  predicate CommitsSucceed(events: seq<Event>) {
    forall i :: 0 <= i < |events| && events[i].AckSent? ==> events[i].commitOk
  }

  lemma {:induction false} ReplayIsSound(events: seq<Event>)
    requires InOrder(events)
    ensures Sound(Replay(EMPTY, events))
    ensures forall o :: o in Replay(EMPTY, events).delivered ==> Delivered(o) in events
    decreases |events|
  {
    if events != [] {
      var last := |events| - 1;
      var before, l := events[..last], Replay(EMPTY, events[..last]);
      assert events == before + [events[last]];
      ReplayIsSound(before);
      if events[last].Delivered? {
        DeliverKeepsSound(l, events[last].offset);
      } else {
        AckKeepsSound(l, events[last].offset, events[last].commitOk);
      }
    }
  }

  /** As long as no commit fails, the committed offset is exactly the frontier. */
  lemma {:induction false} CommittedIsTheFrontier(events: seq<Event>)
    requires InOrder(events) && CommitsSucceed(events)
    ensures var l := Replay(EMPTY, events); l.committed == Frontier(l.delivered, l.acked)
    decreases |events|
  {
    if events != [] {
      var last := |events| - 1;
      var before, l := events[..last], Replay(EMPTY, events[..last]);
      assert events == before + [events[last]];
      ReplayIsSound(before);
      CommittedIsTheFrontier(before);
      if events[last].Delivered? {
        DeliverKeepsSettled(l, events[last].offset);
      } else {
        AckAddsUp(l, events[last].offset);
      }
    }
  }

  /** Whatever the order of deliveries and acknowledgements and whatever commits fail, the committed
      offset never moves back and never passes an unacknowledged delivery. */
  lemma CommittedNeverRetreatsNorOvertakes(events: seq<Event>, next: Event, k: nat)
    requires InOrder(events + [next])
    ensures var l, l' := Replay(EMPTY, events), Replay(EMPTY, events + [next]);
            && (l.committed.Some? ==> l'.committed.Some? && l.committed.value <= l'.committed.value)
            && (k < |l'.delivered| && l'.committed.Some? && l'.delivered[k] < l'.committed.value ==>
                  l'.delivered[k] in l'.acked)
  {
    var all := events + [next];
    assert all[..|events|] == events;
    assert forall i :: 0 <= i < |events| ==> all[i] == events[i];
    ReplayIsSound(events);
    ReplayIsSound(all);
    var l, l' := Replay(EMPTY, events), Replay(EMPTY, all);
    if next.AckSent? {
      SettledGrows(l.delivered, l.acked, l'.acked);
    }
    if k < |l'.delivered| {
      FrontierSeparates(l', k);
    }
  }

  function Acks(order: seq<nat>): seq<Event> {
    seq(|order|, i requires 0 <= i < |order| => AckSent(order[i], true))
  }

  lemma ElementsSnoc(order: seq<nat>, last: nat, acked: set<nat>, delivered: set<nat>)
    requires order != [] && last == |order| - 1
    ensures acked + (Elements(order[..last]) * delivered) + ({order[last]} * delivered) == acked + (Elements(order) * delivered)
  {
    assert order == order[..last] + [order[last]];
  }

  lemma {:induction false} AcksAddUp(l: Lease, order: seq<nat>)
    requires Sound(l) && l.committed == Frontier(l.delivered, l.acked)
    ensures var acked := l.acked + (Elements(order) * Elements(l.delivered));
            Sound(Replay(l, Acks(order))) && Replay(l, Acks(order)) == Lease(l.delivered, acked, Frontier(l.delivered, acked))
    decreases |order|
  {
    if order == [] {
      assert l.acked + (Elements(order) * Elements(l.delivered)) == l.acked;
    } else {
      var last := |order| - 1;
      AcksAddUp(l, order[..last]);
      AckAddsUp(Replay(l, Acks(order[..last])), order[last]);
      assert Acks(order)[..last] == Acks(order[..last]);
      ElementsSnoc(order, last, l.acked, Elements(l.delivered));
    }
  }

  /** The order in which a given set of deliveries is acknowledged does not matter. */
  lemma AckOrderIsIrrelevant(l: Lease, order1: seq<nat>, order2: seq<nat>)
    requires Sound(l) && l.committed == Frontier(l.delivered, l.acked)
    requires Elements(order1) == Elements(order2)
    ensures Replay(l, Acks(order1)) == Replay(l, Acks(order2))
  {
    AcksAddUp(l, order1);
    AcksAddUp(l, order2);
  }
}
