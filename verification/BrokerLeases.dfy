/** Popped requests under lease and their return to the broker: scrapy_cffi/core/scheduler/redis.py
    and scrapy_cffi/core/scheduler/rabbitmq.py. */
module BrokerLeases {
  import opened Common
  import Executions

  /** A serialized request; and the identity of a request object, which lives as long as its lease. */
  type Payload = nat
  type Object = nat

  datatype Lease = Lease(request: Object, payload: Payload)

  function PayloadsOf(leases: seq<Lease>): seq<Payload> {
    seq(|leases|, i requires 0 <= i < |leases| => leases[i].payload)
  }

  function Count(items: seq<Payload>, p: Payload): nat {
    if items == [] then 0 else Count(items[..|items| - 1], p) + (if items[|items| - 1] == p then 1 else 0)
  }

  ghost predicate Distinct(leases: seq<Lease>) {
    forall i, j :: 0 <= i < j < |leases| ==> leases[i].request != leases[j].request
  }

  function IndexOf(leases: seq<Lease>, request: Object): (k: nat)
    ensures k <= |leases|
    ensures k < |leases| ==> leases[k].request == request
    ensures k == |leases| ==> forall i :: 0 <= i < |leases| ==> leases[i].request != request
  {
    if leases == [] || leases[0].request == request then 0 else 1 + IndexOf(leases[1..], request)
  }

  predicate Has(leases: seq<Lease>, request: Object) {
    IndexOf(leases, request) < |leases|
  }

  /** dict.pop(id(request), None); the dictionary keeps its order. */
  function Without(leases: seq<Lease>, request: Object): seq<Lease> {
    var k := IndexOf(leases, request);
    if k < |leases| then leases[..k] + leases[k + 1..] else leases
  }

  /** The leases whose push failed, and the payloads whose push succeeded, in order. */
  function Kept(leases: seq<Lease>, oks: seq<bool>): seq<Lease>
    requires |leases| == |oks|
  {
    if leases == [] then []
    else Kept(leases[..|leases| - 1], oks[..|oks| - 1]) + (if oks[|oks| - 1] then [] else [leases[|leases| - 1]])
  }

  function Returned(leases: seq<Lease>, oks: seq<bool>): (r: seq<Payload>)
    requires |leases| == |oks|
  {
    if leases == [] then []
    else Returned(leases[..|leases| - 1], oks[..|oks| - 1]) + (if oks[|oks| - 1] then [leases[|leases| - 1].payload] else [])
  }

  // ------------------------------------------------------------ the scheduler, undisturbed

  lemma WithoutStaysDistinct(leases: seq<Lease>, request: Object)
    requires Distinct(leases)
    ensures Distinct(Without(leases, request)) && !Has(Without(leases, request), request)
  {
    var k := IndexOf(leases, request);
    var rest := Without(leases, request);
    forall i | 0 <= i < |rest| ensures rest[i].request != request {
      assert rest[i] == if i < k || k == |leases| then leases[i] else leases[i + 1];
    }
  }

  lemma {:induction false} KeptAreOld(leases: seq<Lease>, oks: seq<bool>)
    requires |leases| == |oks|
    ensures forall l :: l in Kept(leases, oks) ==> l in leases
    decreases |leases|
  {
    if leases != [] {
      KeptAreOld(leases[..|leases| - 1], oks[..|oks| - 1]);
    }
  }

  lemma {:induction false} IndexIs(leases: seq<Lease>, request: Object, k: nat)
    requires k <= |leases| && (k < |leases| ==> leases[k].request == request)
    requires forall i :: 0 <= i < k ==> leases[i].request != request
    ensures IndexOf(leases, request) == k
    decreases |leases|
  {
    if leases != [] && k > 0 {
      IndexIs(leases[1..], request, k - 1);
    }
  }

  /** Popping the i-th lease of the snapshot removes it from behind the kept ones. */
  lemma PopOne(snapshot: seq<Lease>, oks: seq<bool>, i: nat)
    requires i < |snapshot| == |oks| && Distinct(snapshot)
    ensures var kept := Kept(snapshot[..i], oks[..i]);
            Without(kept + snapshot[i..], snapshot[i].request) == kept + snapshot[i + 1..]
  {
    var kept := Kept(snapshot[..i], oks[..i]);
    var all := kept + snapshot[i..];
    KeptAreOld(snapshot[..i], oks[..i]);
    forall j | 0 <= j < |kept| ensures all[j].request != snapshot[i].request {
      assert kept[j] in snapshot[..i];
    }
    IndexIs(all, snapshot[i].request, |kept|);
    assert all[..|kept|] == kept && all[|kept| + 1..] == snapshot[i + 1..];
  }

  /** One round of the loop, on the values it has reached. */
  lemma OneMore(leases: seq<Lease>, oks: seq<bool>, i: nat, inflight: seq<Lease>, queue: seq<Payload>, start: seq<Payload>)
    requires i < |leases| == |oks| && Distinct(leases)
    requires inflight == Kept(leases[..i], oks[..i]) + leases[i..]
    requires queue == start + Returned(leases[..i], oks[..i])
    ensures (if oks[i] then Without(inflight, leases[i].request) else inflight)
         == Kept(leases[..i + 1], oks[..i + 1]) + leases[i + 1..]
    ensures queue + (if oks[i] then [leases[i].payload] else []) == start + Returned(leases[..i + 1], oks[..i + 1])
    ensures |Returned(leases[..i + 1], oks[..i + 1])| == |Returned(leases[..i], oks[..i])| + (if oks[i] then 1 else 0)
  {
    assert leases[..i + 1][..i] == leases[..i] && oks[..i + 1][..i] == oks[..i];
    assert leases[i..] == [leases[i]] + leases[i + 1..];
    if oks[i] {
      PopOne(leases, oks, i);
    }
  }

  lemma {:induction false} KeptStaysDistinct(leases: seq<Lease>, oks: seq<bool>)
    requires |leases| == |oks| && Distinct(leases)
    ensures Distinct(Kept(leases, oks))
    decreases |leases|
  {
    if leases != [] {
      var n := |leases| - 1;
      KeptStaysDistinct(leases[..n], oks[..n]);
      KeptAreOld(leases[..n], oks[..n]);
      var kept := Kept(leases[..n], oks[..n]);
      forall i | 0 <= i < |kept| ensures kept[i].request != leases[n].request {
        assert kept[i] in leases[..n];
      }
    }
  }

  class WorkScheduler {
    var queue: seq<Payload>
    var inflight: seq<Lease>

    ghost predicate Valid()
      reads this
    {
      Distinct(inflight)
    }

    constructor ()
      ensures Valid() && queue == [] && inflight == []
    {
      queue, inflight := [], [];
    }

    /** put(), once the filter let the request through; `ok` is the broker's answer. */
    method Put(p: Payload, ok: bool)
      modifies this`queue
      ensures queue == if ok then old(queue) + [p] else old(queue)
    {
      if ok {
        queue := queue + [p];
      }
    }

    /** get(): pop and lease. */
    method Get(request: Object) returns (p: Option<Payload>)
      requires Valid() && !Has(inflight, request)
      modifies this
      ensures Valid()
      ensures old(queue) == [] ==> p == None && queue == old(queue) && inflight == old(inflight)
      ensures old(queue) != [] ==>
                p == Some(old(queue)[0]) && queue == old(queue)[1..] && inflight == old(inflight) + [Lease(request, old(queue)[0])]
    {
      if queue == [] {
        return None;
      }
      p := Some(queue[0]);
      inflight, queue := inflight + [Lease(request, queue[0])], queue[1..];
    }

    method CompleteRequest(request: Object)
      requires Valid()
      modifies this`inflight
      ensures Valid() && inflight == Without(old(inflight), request)
    {
      WithoutStaysDistinct(inflight, request);
      inflight := Without(inflight, request);
    }

    /** One round of requeue_inflight: only a push that the broker accepted ends the lease. */
    method ReturnOne(l: Lease, ok: bool)
      modifies this
      ensures queue == old(queue) + (if ok then [l.payload] else [])
      ensures inflight == if ok then Without(old(inflight), l.request) else old(inflight)
    {
      if ok {
        queue := queue + [l.payload];
        inflight := Without(inflight, l.request);
      } else {
        assert queue + [] == queue;
      }
    }

    /** requeue_inflight for work requests, when nothing else runs meanwhile: `oks` are the broker's
        answers. */
    method RequeueInflight(oks: seq<bool>) returns (requeued: nat)
      requires Valid() && |oks| == |inflight|
      modifies this
      ensures Valid()
      ensures inflight == Kept(old(inflight), oks)
      ensures queue == old(queue) + Returned(old(inflight), oks)
      ensures requeued == |Returned(old(inflight), oks)|
    {
      var snapshot := inflight;
      requeued := 0;
      for i := 0 to |snapshot|
        invariant inflight == Kept(snapshot[..i], oks[..i]) + snapshot[i..]
        invariant queue == old(queue) + Returned(snapshot[..i], oks[..i])
        invariant requeued == |Returned(snapshot[..i], oks[..i])|
      {
        OneMore(snapshot, oks, i, inflight, queue, old(queue));
        ReturnOne(snapshot[i], oks[i]);
        requeued := if oks[i] then requeued + 1 else requeued;
      }
      assert snapshot[..|snapshot|] == snapshot && oks[..|snapshot|] == oks;
      KeptStaysDistinct(snapshot, oks);
    }
  }

  /** With every push accepted, the leases are empty and each unfinished request is back once. */
  lemma {:induction false} AllReturned(leases: seq<Lease>, oks: seq<bool>)
    requires |leases| == |oks| && forall i :: 0 <= i < |oks| ==> oks[i]
    ensures Kept(leases, oks) == [] && Returned(leases, oks) == PayloadsOf(leases)
    decreases |leases|
  {
    if leases != [] {
      AllReturned(leases[..|leases| - 1], oks[..|oks| - 1]);
      assert PayloadsOf(leases) == PayloadsOf(leases[..|leases| - 1]) + [leases[|leases| - 1].payload];
    }
  }

  // ------------------------------------------------------------ counting

  lemma {:induction false} CountAdds(a: seq<Payload>, b: seq<Payload>, p: Payload)
    ensures Count(a + b, p) == Count(a, p) + Count(b, p)
    decreases |b|
  {
    if b == [] {
      assert a + b == a;
    } else {
      assert (a + b)[..|a + b| - 1] == a + b[..|b| - 1];
      CountAdds(a, b[..|b| - 1], p);
    }
  }

  lemma CountOne(x: Payload, p: Payload)
    ensures Count([x], p) == if x == p then 1 else 0
  {
    assert [x][..0] == [];
  }

  /** Whatever the broker answers, leases kept and payloads returned are together what was leased. */
  lemma {:induction false} RequeueConserves(leases: seq<Lease>, oks: seq<bool>, p: Payload)
    requires |leases| == |oks|
    ensures Count(PayloadsOf(Kept(leases, oks)), p) + Count(Returned(leases, oks), p) == Count(PayloadsOf(leases), p)
    decreases |leases|
  {
    if leases != [] {
      var n := |leases| - 1;
      RequeueConserves(leases[..n], oks[..n], p);
      var last := leases[n].payload;
      assert PayloadsOf(leases) == PayloadsOf(leases[..n]) + [last];
      CountAdds(PayloadsOf(leases[..n]), [last], p);
      if oks[n] {
        assert Kept(leases[..n], oks[..n]) + [] == Kept(leases[..n], oks[..n]);
        CountAdds(Returned(leases[..n], oks[..n]), [last], p);
      } else {
        assert Returned(leases[..n], oks[..n]) + [] == Returned(leases[..n], oks[..n]);
        assert PayloadsOf(Kept(leases[..n], oks[..n]) + [leases[n]]) == PayloadsOf(Kept(leases[..n], oks[..n])) + [last];
        CountAdds(PayloadsOf(Kept(leases[..n], oks[..n])), [last], p);
      }
    }
  }

  lemma WithoutCounts(leases: seq<Lease>, request: Object, p: Payload)
    requires Has(leases, request)
    ensures Count(PayloadsOf(leases), p)
         == Count(PayloadsOf(Without(leases, request)), p) + (if leases[IndexOf(leases, request)].payload == p then 1 else 0)
  {
    var k := IndexOf(leases, request);
    var a, x, b := PayloadsOf(leases[..k]), leases[k].payload, PayloadsOf(leases[k + 1..]);
    assert PayloadsOf(leases) == a + [x] + b;
    assert PayloadsOf(Without(leases, request)) == a + b;
    CountAdds(a + [x], b, p);
    CountAdds(a, [x], p);
    CountAdds(a, b, p);
    CountOne(x, p);
  }

  // ------------------------------------------------------------ the scheduler, interleaved

  datatype State = State(
    queue: seq<Payload>, inflight: seq<Lease>,
    waiting: seq<Lease>,            // what is left of the snapshot that requeue_inflight took
    moved: nat,
    next: Object,
    accepted: seq<Payload>,         // history: pushes of put() that the broker accepted
    completed: seq<Payload>,        // history: leased requests that completed
    repeated: seq<Payload>)         // history: requeued although completed meanwhile

  datatype Step =
    | Push(p: Payload) | Pop | Complete(request: Object)
    | TakeSnapshot | Requeue(ok: bool)

  function Initial(): State {
    State([], [], [], 0, 0, [], [], [])
  }

  function Requeued(s: State): State
    requires s.waiting != []
  {
    var l := s.waiting[0];
    s.(queue := s.queue + [l.payload], waiting := s.waiting[1..], moved := s.moved + 1,
       inflight := Without(s.inflight, l.request),
       repeated := if Has(s.inflight, l.request) then s.repeated else s.repeated + [l.payload])
  }

  function Next(s: State, step: Step): Option<State> {
    match step
    case Push(p) => Some(s.(queue := s.queue + [p], accepted := s.accepted + [p]))
    case Pop =>
      if s.queue == [] then None
      else Some(s.(queue := s.queue[1..], inflight := s.inflight + [Lease(s.next, s.queue[0])], next := s.next + 1))
    case Complete(request) =>
      if !Has(s.inflight, request) then Some(s)
      else
        Some(s.(inflight := Without(s.inflight, request),
                completed := s.completed + [s.inflight[IndexOf(s.inflight, request)].payload]))
    case TakeSnapshot => if s.waiting == [] then Some(s.(waiting := s.inflight, moved := 0)) else None
    case Requeue(ok) =>
      if s.waiting == [] then None
      else if ok then Some(Requeued(s))
      else Some(s.(waiting := s.waiting[1..]))
  }

  ghost predicate CanStep(s: State, t: State) {
    exists step :: Next(s, step) == Some(t)
  }

  ghost predicate Reachable(s: State) {
    Executions.Reaches(u => u == Initial(), CanStep, s)
  }

  /** A waiting lease that is still there is there unchanged, and ids are not used again. */
  ghost predicate Orderly(s: State) {
    && Distinct(s.inflight)
    && (forall l :: l in s.inflight ==> l.request < s.next)
    && (forall l :: l in s.waiting ==> l.request < s.next)
    && (forall w, l :: w in s.waiting && l in s.inflight && l.request == w.request ==> l == w)
  }

  ghost predicate Balanced(s: State, p: Payload) {
    Count(s.queue, p) + Count(PayloadsOf(s.inflight), p) + Count(s.completed, p) == Count(s.accepted, p) + Count(s.repeated, p)
  }

  lemma {:induction false} WithoutIsWithin(leases: seq<Lease>, request: Object)
    ensures forall l :: l in Without(leases, request) ==> l in leases
  {
  }

  lemma StepKeepsOrder(s: State, step: Step)
    requires Orderly(s) && Next(s, step).Some?
    ensures Orderly(Next(s, step).value)
  {
    match step
    case Complete(request) =>
      WithoutStaysDistinct(s.inflight, request);
      WithoutIsWithin(s.inflight, request);
    case Requeue(ok) =>
      WithoutStaysDistinct(s.inflight, s.waiting[0].request);
      WithoutIsWithin(s.inflight, s.waiting[0].request);
    case _ =>
  }

  lemma PopBalances(s: State, p: Payload)
    requires Balanced(s, p) && s.queue != []
    ensures Balanced(Next(s, Pop).value, p)
  {
    var t, x := Next(s, Pop).value, s.queue[0];
    assert s.queue == [x] + s.queue[1..];
    CountAdds([x], s.queue[1..], p);
    assert PayloadsOf(t.inflight) == PayloadsOf(s.inflight) + [x];
    CountAdds(PayloadsOf(s.inflight), [x], p);
  }

  lemma CompleteBalances(s: State, request: Object, p: Payload)
    requires Balanced(s, p) && Has(s.inflight, request)
    ensures Balanced(Next(s, Complete(request)).value, p)
  {
    var x := s.inflight[IndexOf(s.inflight, request)].payload;
    WithoutCounts(s.inflight, request, p);
    CountAdds(s.completed, [x], p);
    CountOne(x, p);
  }

  lemma RequeueBalances(s: State, p: Payload)
    requires Balanced(s, p) && Orderly(s) && s.waiting != []
    ensures Balanced(Requeued(s), p)
  {
    var l := s.waiting[0];
    CountAdds(s.queue, [l.payload], p);
    CountAdds(s.repeated, [l.payload], p);
    CountOne(l.payload, p);
    if Has(s.inflight, l.request) {
      var held := s.inflight[IndexOf(s.inflight, l.request)];
      assert held in s.inflight && l in s.waiting;
      WithoutCounts(s.inflight, l.request, p);
    }
  }

  lemma StepBalances(s: State, step: Step, p: Payload)
    requires Orderly(s) && Balanced(s, p) && Next(s, step).Some?
    ensures Balanced(Next(s, step).value, p)
  {
    match step
    case Push(x) =>
      CountAdds(s.queue, [x], p);
      CountAdds(s.accepted, [x], p);
    case Pop => PopBalances(s, p);
    case Complete(request) =>
      if Has(s.inflight, request) {
        CompleteBalances(s, request, p);
      }
    case Requeue(ok) =>
      if ok {
        RequeueBalances(s, p);
      }
    case TakeSnapshot =>
  }

  lemma StepKeepsBoth(s: State, t: State, p: Payload)
    requires Orderly(s) && Balanced(s, p) && CanStep(s, t)
    ensures Orderly(t) && Balanced(t, p)
  {
    var step :| Next(s, step) == Some(t);
    StepKeepsOrder(s, step);
    StepBalances(s, step, p);
  }

  /** Over every run: what is queued, leased and completed is, payload by payload, what put() pushed,
      plus one for each request that requeue_inflight returned after it had completed. */
  lemma WorkIsConserved(s: State, p: Payload)
    requires Reachable(s)
    ensures Count(s.queue, p) + Count(PayloadsOf(s.inflight), p) + Count(s.completed, p) == Count(s.accepted, p) + Count(s.repeated, p)
  {
    forall u, v | Orderly(u) && Balanced(u, p) && CanStep(u, v) ensures Orderly(v) && Balanced(v, p) {
      StepKeepsBoth(u, v, p);
    }
    Executions.Induction(u => u == Initial(), CanStep, u => Orderly(u) && Balanced(u, p), s);
  }

  // ------------------------------------------------------------ what comes back too often

  /** The waiting leases of a payload that have ended since the snapshot. */
  function GoneCount(waiting: seq<Lease>, inflight: seq<Lease>, p: Payload): nat {
    if waiting == [] then 0
    else (if waiting[0].payload == p && !Has(inflight, waiting[0].request) then 1 else 0) + GoneCount(waiting[1..], inflight, p)
  }

  lemma {:induction false} SameLeasesGone(waiting: seq<Lease>, a: seq<Lease>, b: seq<Lease>, p: Payload)
    requires forall i :: 0 <= i < |waiting| ==> Has(a, waiting[i].request) == Has(b, waiting[i].request)
    ensures GoneCount(waiting, a, p) == GoneCount(waiting, b, p)
  {
    if waiting != [] {
      SameLeasesGone(waiting[1..], a, b, p);
    }
  }

  lemma HasOther(leases: seq<Lease>, request: Object, other: Object)
    requires other != request
    ensures Has(Without(leases, request), other) == Has(leases, other)
  {
    var k, rest := IndexOf(leases, request), Without(leases, request);
    if k < |leases| {
      if Has(leases, other) {
        var j := IndexOf(leases, other);
        assert rest[if j < k then j else j - 1] == leases[j];
      }
      if Has(rest, other) {
        var j := IndexOf(rest, other);
        assert rest[j] == leases[if j < k then j else j + 1];
      }
    }
  }

  lemma OthersGone(waiting: seq<Lease>, inflight: seq<Lease>, request: Object, p: Payload)
    requires forall i :: 0 <= i < |waiting| ==> waiting[i].request != request
    ensures GoneCount(waiting, Without(inflight, request), p) == GoneCount(waiting, inflight, p)
  {
    forall i | 0 <= i < |waiting| ensures Has(inflight, waiting[i].request) == Has(Without(inflight, request), waiting[i].request) {
      HasOther(inflight, request, waiting[i].request);
    }
    SameLeasesGone(waiting, inflight, Without(inflight, request), p);
  }

  /** Ending one lease makes at most one waiting lease a gone one, and that of the same payload. */
  lemma {:induction false} OneMoreGone(waiting: seq<Lease>, inflight: seq<Lease>, request: Object, payload: Payload, p: Payload)
    requires Distinct(waiting)
    requires forall i :: 0 <= i < |waiting| && waiting[i].request == request ==> waiting[i].payload == payload
    ensures GoneCount(waiting, Without(inflight, request), p) <= GoneCount(waiting, inflight, p) + (if payload == p then 1 else 0)
  {
    if waiting != [] {
      if waiting[0].request == request {
        OthersGone(waiting[1..], inflight, request, p);
      } else {
        HasOther(inflight, request, waiting[0].request);
        OneMoreGone(waiting[1..], inflight, request, payload, p);
      }
    }
  }

  lemma {:induction false} NoneGone(waiting: seq<Lease>, inflight: seq<Lease>, p: Payload)
    requires forall l :: l in waiting ==> l in inflight
    ensures GoneCount(waiting, inflight, p) == 0
  {
    if waiting != [] {
      assert waiting[0] in inflight;
      NoneGone(waiting[1..], inflight, p);
    }
  }

  /** Each payload returned too often, or about to be, is charged to a completion of its own. */
  ghost predicate Charged(s: State, p: Payload) {
    Distinct(s.waiting) && Count(s.repeated, p) + GoneCount(s.waiting, s.inflight, p) <= Count(s.completed, p)
  }

  lemma PopCharges(s: State, p: Payload)
    requires Orderly(s) && Charged(s, p) && s.queue != []
    ensures Charged(Next(s, Pop).value, p)
  {
    var added := s.inflight + [Lease(s.next, s.queue[0])];
    forall i | 0 <= i < |s.waiting| ensures Has(s.inflight, s.waiting[i].request) == Has(added, s.waiting[i].request) {
      assert s.waiting[i] in s.waiting;
      if Has(s.inflight, s.waiting[i].request) {
        assert added[IndexOf(s.inflight, s.waiting[i].request)].request == s.waiting[i].request;
      }
    }
    SameLeasesGone(s.waiting, s.inflight, added, p);
  }

  lemma CompleteCharges(s: State, request: Object, p: Payload)
    requires Orderly(s) && Charged(s, p) && Has(s.inflight, request)
    ensures Charged(Next(s, Complete(request)).value, p)
  {
    var held := s.inflight[IndexOf(s.inflight, request)];
    forall i | 0 <= i < |s.waiting| && s.waiting[i].request == request ensures s.waiting[i].payload == held.payload {
      assert s.waiting[i] in s.waiting && held in s.inflight;
    }
    OneMoreGone(s.waiting, s.inflight, request, held.payload, p);
    CountAdds(s.completed, [held.payload], p);
    CountOne(held.payload, p);
  }

  lemma RequeueCharges(s: State, p: Payload)
    requires Orderly(s) && Charged(s, p) && s.waiting != []
    ensures Charged(Requeued(s), p)
  {
    var l := s.waiting[0];
    OthersGone(s.waiting[1..], s.inflight, l.request, p);
    CountAdds(s.repeated, [l.payload], p);
    CountOne(l.payload, p);
  }

  lemma StepCharges(s: State, step: Step, p: Payload)
    requires Orderly(s) && Charged(s, p) && Next(s, step).Some?
    ensures Charged(Next(s, step).value, p)
  {
    match step
    case Push(_) =>
    case Pop => PopCharges(s, p);
    case Complete(request) =>
      if Has(s.inflight, request) {
        CompleteCharges(s, request, p);
      }
    case TakeSnapshot => NoneGone(s.inflight, s.inflight, p);
    case Requeue(ok) =>
      if ok {
        RequeueCharges(s, p);
      }
  }

  /** Over every run: a payload is returned too often at most once for each time it completed, so there
      are never more copies of it outstanding than put() pushed. */
  lemma RepeatsAreCompletions(s: State, p: Payload)
    requires Reachable(s)
    ensures Count(s.repeated, p) <= Count(s.completed, p)
    ensures Count(s.queue, p) + Count(PayloadsOf(s.inflight), p) <= Count(s.accepted, p)
  {
    forall u, v | Orderly(u) && Charged(u, p) && CanStep(u, v) ensures Orderly(v) && Charged(v, p) {
      var step :| Next(u, step) == Some(v);
      StepKeepsOrder(u, step);
      StepCharges(u, step, p);
    }
    Executions.Induction(u => u == Initial(), CanStep, u => Orderly(u) && Charged(u, p), s);
    WorkIsConserved(s, p);
  }

  ghost predicate Exact(s: State, p: Payload) {
    Count(s.queue, p) + Count(PayloadsOf(s.inflight), p) + Count(s.completed, p) == Count(s.accepted, p)
  }

  /** Nothing came back after it had completed exactly when every payload that put() pushed is queued,
      leased or completed once and for all. */
  lemma NothingRepeatedWhenExact(s: State)
    requires Reachable(s)
    ensures s.repeated == [] <==> forall p :: Exact(s, p)
  {
    forall p ensures Exact(s, p) <==> Count(s.repeated, p) == 0 {
      WorkIsConserved(s, p);
    }
    if s.repeated != [] {
      var p := s.repeated[|s.repeated| - 1];
      assert Count(s.repeated, p) > 0;
      assert !Exact(s, p);
    }
  }

  lemma Extend(s: State, step: Step) returns (t: State)
    requires Reachable(s) && Next(s, step).Some?
    ensures Reachable(t) && t == Next(s, step).value
  {
    t := Next(s, step).value;
    assert CanStep(s, t);
    Executions.Continues(u => u == Initial(), CanStep, s, t);
  }

  /** It does happen: a request completes while the snapshot that still names it is being pushed. */
  lemma CompletedAndReturned() returns (s: State)
    ensures Reachable(s) && s.accepted == [7] && s.completed == [7] && s.queue == [7] && s.moved == 1
  {
    Executions.Starts(u => u == Initial(), CanStep, Initial());
    s := Extend(Initial(), Push(7));
    s := Extend(s, Pop);
    s := Extend(s, TakeSnapshot);
    s := Extend(s, Complete(0));
    s := Extend(s, Requeue(true));
  }
}
