/** Start messages between their arrival and their hand-over as work requests, on the Redis paths of
    scrapy_cffi/core/scheduler/redis.py. */
module StartMessages {
  import opened Common
  import opened BrokerLeases
  import Executions

  // ------------------------------------------------------------ streams

  /** A task somebody put into the stream; an entry that carries it. */
  type Task = nat
  type Entry = nat

  datatype State = State(
    live: map<Entry, Task>,        // entries of the stream that are not acknowledged
    next: Entry,
    inHand: set<Entry>,            // delivered to get_start_req() and not yet turned into anything
    starts: map<Object, Entry>,    // _start_requests
    due: set<Entry>,               // acknowledgements called for and not yet carried out
    arrived: multiset<Task>,       // history: the tasks that arrived
    handed: multiset<Task>,        // history: a work request for it was pushed
    dismissed: multiset<Task>,     // history: acknowledged because it yields no request
    repeated: multiset<Task>)      // history: its entry's acknowledgement was lost in a crash

  datatype Step =
    | Arrive(task: Task)
    | Deliver(e: Entry)
    | Attach(request: Object, e: Entry)     // attach_start_req()
    | Dismiss(e: Entry)                     // ack_start_req() without a request
    | Put(request: Object, ok: bool)        // put(): push, then _complete_start_request()
    | Readd(request: Object)                // requeue_inflight(): xadd, then the acknowledgement
    | CarryOutAck(e: Entry)
    | Crash

  function Initial(): State {
    State.State(map[], 0, {}, map[], {}, multiset{}, multiset{}, multiset{}, multiset{})
  }

  predicate Held(s: State, e: Entry) {
    e in s.inHand || e in s.starts.Values
  }

  ghost function SomeEntry(entries: set<Entry>): (e: Entry)
    requires entries != {}
    ensures e in entries
  {
    var e :| e in entries;
    e
  }

  /** The tasks that these entries carry. */
  ghost function TasksOf(live: map<Entry, Task>, entries: set<Entry>): multiset<Task>
    requires entries <= live.Keys
    decreases |entries|
  {
    if entries == {} then multiset{}
    else
      var e := SomeEntry(entries);
      TasksOf(live, entries - {e}) + multiset{live[e]}
  }

  ghost function Next(s: State, step: Step): Option<State> {
    match step
    case Arrive(task) => Some(s.(live := s.live[s.next := task], next := s.next + 1, arrived := s.arrived + multiset{task}))
    case Deliver(e) =>
      if e in s.live && !Held(s, e) && e !in s.due then Some(s.(inHand := s.inHand + {e})) else None
    case Attach(request, e) =>
      if e in s.inHand && request !in s.starts then Some(s.(inHand := s.inHand - {e}, starts := s.starts[request := e])) else None
    case Dismiss(e) =>
      if e in s.inHand && e in s.live then
        Some(s.(inHand := s.inHand - {e}, due := s.due + {e}, dismissed := s.dismissed + multiset{s.live[e]}))
      else None
    case Put(request, ok) =>
      if !ok || request !in s.starts || s.starts[request] !in s.live then Some(s)
      else
        var e := s.starts[request];
        Some(s.(starts := s.starts - {request}, due := s.due + {e}, handed := s.handed + multiset{s.live[e]}))
    case Readd(request) =>
      if request !in s.starts || s.starts[request] !in s.live then None
      else
        var e := s.starts[request];
        Some(s.(starts := s.starts - {request}, due := s.due + {e}, live := s.live[s.next := s.live[e]], next := s.next + 1))
    case CarryOutAck(e) => if e in s.due then Some(s.(due := s.due - {e}, live := s.live - {e})) else None
    case Crash =>
      Some(s.(inHand := {}, starts := map[], due := {}, repeated := s.repeated + TasksOf(s.live, s.due * s.live.Keys)))
  }

  ghost predicate CanStep(s: State, t: State) {
    exists step :: Next(s, step) == Some(t)
  }

  ghost predicate Reachable(s: State) {
    Executions.Reaches(t => t == Initial(), CanStep, s)
  }

  /** The entries that carry something nobody is about to acknowledge. */
  function Carriers(s: State): set<Entry> {
    s.live.Keys - s.due
  }

  /** Each entry is held at most once, while it is there and its acknowledgement is not called for. */
  ghost predicate HeldOnce(s: State) {
    && (forall e :: e in s.live || e in s.due ==> e < s.next)
    && (forall e :: e in s.inHand ==> e in Carriers(s) && e !in s.starts.Values)
    && (forall o :: o in s.starts ==> s.starts[o] in Carriers(s))
    && (forall o, p :: o in s.starts && p in s.starts && s.starts[o] == s.starts[p] ==> o == p)
  }

  /** Every arrival, and every repetition, is handed over, dismissed or carried. */
  ghost predicate Conserved(s: State) {
    s.arrived + s.repeated == s.handed + s.dismissed + TasksOf(s.live, Carriers(s))
  }

  ghost predicate Invariant(s: State) {
    HeldOnce(s) && Conserved(s)
  }

  lemma {:induction false} TakeOut(live: map<Entry, Task>, entries: set<Entry>, e: Entry)
    requires entries <= live.Keys && e in entries
    ensures TasksOf(live, entries) == TasksOf(live, entries - {e}) + multiset{live[e]}
    decreases |entries|
  {
    var f := SomeEntry(entries);
    if f != e {
      TakeOut(live, entries - {f}, e);
      TakeOut(live, entries - {e}, f);
      assert entries - {f} - {e} == entries - {e} - {f};
    }
  }

  lemma {:induction false} SameTasks(live: map<Entry, Task>, other: map<Entry, Task>, entries: set<Entry>)
    requires entries <= live.Keys && entries <= other.Keys && forall e :: e in entries ==> live[e] == other[e]
    ensures TasksOf(live, entries) == TasksOf(other, entries)
    decreases |entries|
  {
    if entries != {} {
      SameTasks(live, other, entries - {SomeEntry(entries)});
    }
  }

  lemma {:induction false} TasksAdd(live: map<Entry, Task>, a: set<Entry>, b: set<Entry>)
    requires a + b <= live.Keys && a !! b
    ensures TasksOf(live, a + b) == TasksOf(live, a) + TasksOf(live, b)
    decreases |b|
  {
    if b == {} {
      assert a + b == a;
    } else {
      var e := SomeEntry(b);
      TakeOut(live, a + b, e);
      assert a + b - {e} == a + (b - {e});
      TasksAdd(live, a, b - {e});
    }
  }

  /** A new entry carries its task. */
  lemma NewEntryCarries(s: State, t: State, task: Task)
    requires HeldOnce(s) && t.live == s.live[s.next := task] && t.due == s.due
    ensures TasksOf(t.live, Carriers(t)) == TasksOf(s.live, Carriers(s)) + multiset{task}
  {
    assert Carriers(t) == Carriers(s) + {s.next};
    TakeOut(t.live, Carriers(t), s.next);
    assert Carriers(t) - {s.next} == Carriers(s);
    SameTasks(t.live, s.live, Carriers(s));
  }

  /** Calling for an acknowledgement ends the carrying. */
  lemma DueCarriesNoMore(s: State, t: State, e: Entry)
    requires e in Carriers(s) && t.live == s.live && t.due == s.due + {e}
    ensures TasksOf(s.live, Carriers(s)) == TasksOf(t.live, Carriers(t)) + multiset{s.live[e]}
  {
    TakeOut(s.live, Carriers(s), e);
    assert Carriers(t) == Carriers(s) - {e};
  }

  lemma NewCarrier(s: State, t: State, task: Task)
    requires (forall e :: e in s.live || e in s.due ==> e < s.next) && t.live == s.live[s.next := task] && t.due == s.due
    ensures TasksOf(t.live, Carriers(t)) == TasksOf(s.live, Carriers(s)) + multiset{task}
  {
    NewEntryCarries(s.(inHand := {}, starts := map[]), t, task);
  }

  lemma ReaddConserves(s: State, request: Object)
    requires Invariant(s) && request in s.starts
    ensures Next(s, Readd(request)).Some? && Conserved(Next(s, Readd(request)).value)
  {
    var e := s.starts[request];
    var marked := s.(due := s.due + {e});
    assert e in Carriers(s);
    DueCarriesNoMore(s, marked, e);
    NewCarrier(marked, Next(s, Readd(request)).value, s.live[e]);
  }

  lemma MoreOnBothSides(a: multiset<Task>, r: multiset<Task>, h: multiset<Task>, d: multiset<Task>, c: multiset<Task>, x: multiset<Task>)
    requires a + r == h + d + c
    ensures a + (r + x) == h + d + (c + x) && (a + x) + r == h + d + (c + x)
  {
    assert a + (r + x) == (a + r) + x && (a + x) + r == (a + r) + x;
    assert h + d + (c + x) == (h + d + c) + x;
  }

  lemma FromCarriedToDone(h: multiset<Task>, d: multiset<Task>, c: multiset<Task>, x: multiset<Task>)
    ensures h + d + (c + x) == (h + x) + d + c == h + (d + x) + c
  {
  }

  lemma CrashConserves(s: State)
    requires Invariant(s)
    ensures Conserved(Next(s, Crash).value)
  {
    TasksAdd(s.live, Carriers(s), s.due * s.live.Keys);
    assert Carriers(s) + s.due * s.live.Keys == s.live.Keys == Carriers(Next(s, Crash).value);
    MoreOnBothSides(s.arrived, s.repeated, s.handed, s.dismissed, TasksOf(s.live, Carriers(s)), TasksOf(s.live, s.due * s.live.Keys));
  }

  lemma AckConserves(s: State, e: Entry)
    requires Invariant(s) && e in s.due
    ensures Conserved(Next(s, CarryOutAck(e)).value)
  {
    var t := Next(s, CarryOutAck(e)).value;
    assert Carriers(t) == Carriers(s);
    SameTasks(s.live, t.live, Carriers(s));
  }

  lemma ArriveConserves(s: State, task: Task)
    requires Invariant(s)
    ensures Conserved(Next(s, Arrive(task)).value)
  {
    NewCarrier(s, Next(s, Arrive(task)).value, task);
    MoreOnBothSides(s.arrived, s.repeated, s.handed, s.dismissed, TasksOf(s.live, Carriers(s)), multiset{task});
  }

  lemma DoneConserves(s: State, t: State, e: Entry)
    requires Conserved(s) && e in Carriers(s) && t.live == s.live && t.due == s.due + {e}
    requires t.arrived == s.arrived && t.repeated == s.repeated
    requires || (t.handed == s.handed + multiset{s.live[e]} && t.dismissed == s.dismissed)
             || (t.dismissed == s.dismissed + multiset{s.live[e]} && t.handed == s.handed)
    ensures Conserved(t)
  {
    DueCarriesNoMore(s, t, e);
    FromCarriedToDone(s.handed, s.dismissed, TasksOf(t.live, Carriers(t)), multiset{s.live[e]});
  }

  lemma StepConserves(s: State, step: Step)
    requires Invariant(s) && Next(s, step).Some?
    ensures Conserved(Next(s, step).value)
  {
    var t := Next(s, step).value;
    match step
    case Arrive(task) => ArriveConserves(s, task);
    case Deliver(_) => assert Carriers(t) == Carriers(s);
    case Attach(_, _) => assert Carriers(t) == Carriers(s);
    case Dismiss(e) => DoneConserves(s, t, e);
    case Put(request, ok) =>
      if ok && request in s.starts {
        DoneConserves(s, t, s.starts[request]);
      }
    case Readd(request) => ReaddConserves(s, request);
    case CarryOutAck(e) => AckConserves(s, e);
    case Crash => CrashConserves(s);
  }

  lemma StepHoldsOnce(s: State, step: Step)
    requires HeldOnce(s) && Next(s, step).Some?
    ensures HeldOnce(Next(s, step).value)
  {
  }

  lemma InitiallyInvariant()
    ensures Invariant(Initial())
  {
    assert Carriers(Initial()) == {};
  }

  lemma ReachableIsInvariant(s: State)
    requires Reachable(s)
    ensures Invariant(s)
  {
    forall u, v | Invariant(u) && CanStep(u, v) ensures Invariant(v) {
      var step :| Next(u, step) == Some(v);
      StepHoldsOnce(u, step);
      StepConserves(u, step);
    }
    InitiallyInvariant();
    Executions.Induction(u => u == Initial(), CanStep, Invariant, s);
  }

  /** At every moment, also around crashes and while a graceful stop is re-adding messages: what arrived is,
      task by task, handed over, dismissed, or carried by an entry that is not about to be acknowledged;
      and what is done with or carried beyond that was repeated because a crash lost an acknowledgement. */
  lemma StreamTasksAreConserved(s: State)
    requires Reachable(s)
    ensures s.arrived + s.repeated == s.handed + s.dismissed + TasksOf(s.live, s.live.Keys - s.due)
  {
    ReachableIsInvariant(s);
  }

  lemma {:induction false} CarriedBySome(live: map<Entry, Task>, entries: set<Entry>, task: Task)
    requires entries <= live.Keys && task in TasksOf(live, entries)
    ensures exists e :: e in entries && live[e] == task
    decreases |entries|
  {
    var e := SomeEntry(entries);
    if live[e] != task {
      CarriedBySome(live, entries - {e}, task);
    }
  }

  /** So no task is lost. */
  lemma NoStreamTaskIsLost(s: State, task: Task)
    requires Reachable(s) && task in s.arrived
    ensures task in s.handed || task in s.dismissed || exists e :: e in s.live && s.live[e] == task && e !in s.due
  {
    StreamTasksAreConserved(s);
    assert task in s.arrived + s.repeated;
    if task !in s.handed && task !in s.dismissed {
      CarriedBySome(s.live, Carriers(s), task);
    }
  }

  /** Every entry that carries a task is waiting to be delivered, in hand, or attached to one request;
      after a crash all of them wait to be delivered, and those whose acknowledgement was lost as well. */
  lemma CarriersGoOn(s: State, e: Entry)
    requires Reachable(s) && e in s.live
    ensures e !in s.due && e !in s.inHand && e !in s.starts.Values ==> Next(s, Deliver(e)) == Some(s.(inHand := s.inHand + {e}))
    ensures e in s.inHand || e in s.starts.Values ==> Next(s, Deliver(e)).None?
    ensures e in s.due ==> Next(s, Deliver(e)).None? && Next(s, CarryOutAck(e)).Some? && e !in Next(s, CarryOutAck(e)).value.live
    ensures e in s.inHand ==> e !in s.starts.Values && Next(s, Dismiss(e)).Some?
    ensures Next(Next(s, Crash).value, Deliver(e)).Some? && Next(s, Crash).value.live == s.live
  {
    ReachableIsInvariant(s);
  }

  /** What becomes of a message that is attached to a request: only a push that is refused, and what other
      requests do, leaves it there; and a pushed or re-added one is acknowledged. */
  lemma AttachedUntilPushed(s: State, step: Step, request: Object)
    requires Reachable(s) && request in s.starts && Next(s, step).Some?
    ensures var e, t := s.starts[request], Next(s, step).value;
            && (request in t.starts <==> step != Put(request, true) && step != Readd(request) && step != Crash)
            && (request in t.starts ==> t.starts[request] == e)
            && (step == Put(request, true) ==> e in t.due && t.handed == s.handed + multiset{s.live[e]})
            && (step == Readd(request) ==> e in t.due && s.next in t.live && t.live[s.next] == s.live[e] && s.next !in t.due)
  {
    ReachableIsInvariant(s);
  }

  // ------------------------------------------------------------ lists

  /** requeue_inflight for messages popped from a list: the broker's answer is not looked at. */
  method RequeueListStarts(startQueue: seq<Payload>, starts: seq<Lease>, oks: seq<bool>)
    returns (after: seq<Payload>, rest: seq<Lease>, requeued: nat)
    requires |starts| == |oks|
    ensures after == startQueue + Returned(starts, oks)
    ensures rest == [] && requeued == |starts|
  {
    after, rest, requeued := startQueue, starts, 0;
    for i := 0 to |starts|
      invariant after == startQueue + Returned(starts[..i], oks[..i])
      invariant rest == starts[i..] && requeued == i
    {
      assert starts[..i + 1][..i] == starts[..i] && oks[..i + 1][..i] == oks[..i];
      if oks[i] {
        after := after + [starts[i].payload];
      }
      rest := rest[1..];
      requeued := requeued + 1;
    }
    assert starts[..|starts|] == starts && oks[..|starts|] == oks;
  }

  lemma {:induction false} ReturnedIsShorter(starts: seq<Lease>, oks: seq<bool>)
    requires |starts| == |oks|
    ensures |Returned(starts, oks)| <= |starts|
    ensures |Returned(starts, oks)| == |starts| <==> forall i :: 0 <= i < |oks| ==> oks[i]
    decreases |starts|
  {
    if starts != [] {
      ReturnedIsShorter(starts[..|starts| - 1], oks[..|oks| - 1]);
    }
  }

  /** So the messages all come back exactly when the broker accepts every push; the count that
      requeue_inflight reports does not tell. */
  lemma ListStartsComeBack(starts: seq<Lease>, oks: seq<bool>)
    requires |starts| == |oks|
    ensures Returned(starts, oks) == PayloadsOf(starts) <==> forall i :: 0 <= i < |oks| ==> oks[i]
  {
    ReturnedIsShorter(starts, oks);
    if forall i :: 0 <= i < |oks| ==> oks[i] {
      AllReturned(starts, oks);
    }
  }
}
