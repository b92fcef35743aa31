/** scrapy_cffi/service/resilience.py: bounded retry with recovery, and the replaceable resource. */
module Resilience {
  import opened Common

  // ------------------------------------------------------------ RetryPolicy

  /** How an awaited operation or recovery ends. Retryable errors are those of retry_exceptions that
      the predicate accepts; Cancelled also stands for a cancellation in the delay that follows. */
  datatype Outcome = Succeeds | Retryable | Fatal | Cancelled

  datatype Result = Returned | RaisedLast | RaisedFatal | RaisedCancelled | Stopping

  /** Where a run of the policy is between two awaited calls. */
  datatype Policy =
    | Ready(attempt: nat)                        // at the head of the attempts loop
    | Operating(attempt: nat)
    | Recovering(attempt: nat, failures: nat)    // at the head of the recovery loop
    | Done(result: Result)

  function Begin(p: Policy, stopped: bool, allowed: bool): Policy
    requires p.Ready?
  {
    if stopped && !allowed then Done(Stopping) else Operating(p.attempt)
  }

  function AfterOperation(max: nat, p: Policy, outcome: Outcome): Policy
    requires p.Operating?
  {
    match outcome
    case Succeeds => Done(Returned)
    case Cancelled => Done(RaisedCancelled)
    case Fatal => Done(RaisedFatal)
    case Retryable => if p.attempt >= max then Done(RaisedLast) else Recovering(p.attempt, 0)
  }

  function AfterRecovery(max: nat, p: Policy, outcome: Outcome): Policy
    requires p.Recovering?
  {
    match outcome
    case Succeeds => Ready(p.attempt + 1)
    case Cancelled => Done(RaisedCancelled)
    case Fatal => Done(RaisedFatal)
    case Retryable =>
      if p.attempt + p.failures + 1 >= max then Done(RaisedLast) else Recovering(p.attempt, p.failures + 1)
  }

  /** What the environment does at the next call: whether the stop event is set just before, and how
      the call ends. */
  datatype Event = Event(stopped: bool, outcome: Outcome)

  datatype Call =
    | Operation(attempt: nat, stopped: bool, outcome: Outcome)
    | Recovery(attempt: nat, outcome: Outcome)

  /** One event at a resting point, and the call it led to. */
  function React(max: nat, allowed: bool, p: Policy, e: Event): (Policy, seq<Call>)
  {
    match p
    case Ready(attempt) =>
      var begun := Begin(p, e.stopped, allowed);
      if begun.Operating? then
        (AfterOperation(max, begun, e.outcome), [Operation(attempt, e.stopped, e.outcome)])
      else (begun, [])
    case Recovering(attempt, _) => (AfterRecovery(max, p, e.outcome), [Recovery(attempt, e.outcome)])
    case _ => (p, [])
  }

  function Ends(max: nat, allowed: bool, p: Policy, events: seq<Event>): Policy
    decreases |events|
  {
    if events == [] then p else Ends(max, allowed, React(max, allowed, p, events[0]).0, events[1..])
  }

  function Calls(max: nat, allowed: bool, p: Policy, events: seq<Event>): seq<Call>
    decreases |events|
  {
    if events == [] then []
    else
      var (next, made) := React(max, allowed, p, events[0]);
      made + Calls(max, allowed, next, events[1..])
  }

  lemma {:induction false} DoneStays(max: nat, allowed: bool, p: Policy, events: seq<Event>)
    requires p.Done?
    ensures Ends(max, allowed, p, events) == p && Calls(max, allowed, p, events) == []
    decreases |events|
  {
    if events != [] {
      DoneStays(max, allowed, p, events[1..]);
    }
  }

  /** A run from Ready(1) has come to `p` with `made` behind it and `rest` to come. */
  ghost predicate Reaches(max: nat, allowed: bool, events: seq<Event>, made: seq<Call>, p: Policy, rest: seq<Event>) {
    && Ends(max, allowed, Ready(1), events) == Ends(max, allowed, p, rest)
    && Calls(max, allowed, Ready(1), events) == made + Calls(max, allowed, p, rest)
  }

  lemma Advance(max: nat, allowed: bool, events: seq<Event>, made: seq<Call>, p: Policy, rest: seq<Event>)
    requires Reaches(max, allowed, events, made, p, rest) && rest != []
    ensures var (next, more) := React(max, allowed, p, rest[0]);
            Reaches(max, allowed, events, made + more, next, rest[1..])
  {
  }

  /** The `while True` loop around recover(). */
  method Recover(max: nat, allowed: bool, attempt: nat, ghost events: seq<Event>, made: seq<Call>, waiting: seq<Event>)
    returns (p: Policy, calls: seq<Call>, rest: seq<Event>)
    requires Reaches(max, allowed, events, made, Recovering(attempt, 0), waiting)
    ensures Reaches(max, allowed, events, calls, p, rest) && |rest| <= |waiting|
    ensures p.Recovering? ==> rest == []
    ensures p.Ready? ==> p.attempt == attempt + 1
    ensures !p.Operating?
  {
    var failures := 0;
    calls, rest := made, waiting;
    while rest != []
      invariant Reaches(max, allowed, events, calls, Recovering(attempt, failures), rest) && |rest| <= |waiting|
      decreases |rest|
    {
      var outcome := rest[0].outcome;
      Advance(max, allowed, events, calls, Recovering(attempt, failures), rest);
      calls, rest := calls + [Recovery(attempt, outcome)], rest[1..];
      match outcome {
        case Succeeds => return Ready(attempt + 1), calls, rest;
        case Cancelled => return Done(RaisedCancelled), calls, rest;
        case Fatal => return Done(RaisedFatal), calls, rest;
        case Retryable =>
          failures := failures + 1;
          if attempt + failures >= max {
            return Done(RaisedLast), calls, rest;
          }
      }
    }
    p := Recovering(attempt, failures);
  }

  /** run(): what it comes to and every call it makes, for any behaviour of its environment. The
      RuntimeError after the loop cannot happen. */
  method Run(max: nat, allowed: bool, events: seq<Event>) returns (p: Policy, calls: seq<Call>)
    requires max >= 1
    ensures p == Ends(max, allowed, Ready(1), events)
    ensures calls == Calls(max, allowed, Ready(1), events)
  {
    var attempt, rest := 1, events;
    calls := [];
    while true
      invariant 1 <= attempt <= max && Reaches(max, allowed, events, calls, Ready(attempt), rest)
      decreases |rest|
    {
      if rest == [] {
        return Ready(attempt), calls;
      }
      var stopped, outcome := rest[0].stopped, rest[0].outcome;
      Advance(max, allowed, events, calls, Ready(attempt), rest);
      rest := rest[1..];
      if stopped && !allowed {
        p := Done(Stopping);
        break;
      }
      calls := calls + [Operation(attempt, stopped, outcome)];
      if outcome.Succeeds? {
        p := Done(Returned);
        break;
      }
      if outcome.Cancelled? || outcome.Fatal? || attempt >= max {
        p := Done(if outcome.Cancelled? then RaisedCancelled else if outcome.Fatal? then RaisedFatal else RaisedLast);
        break;
      }
      p, calls, rest := Recover(max, allowed, attempt, events, calls, rest);
      if !p.Ready? {
        break;
      }
      attempt := attempt + 1;
    }
    if p.Done? {
      DoneStays(max, allowed, p, rest);
    }
  }

  // ------------------------------------------------------------ how often

  function OperationsIn(calls: seq<Call>): nat {
    if calls == [] then 0 else (if calls[0].Operation? then 1 else 0) + OperationsIn(calls[1..])
  }

  function RecoveriesIn(calls: seq<Call>): nat {
    if calls == [] then 0 else (if calls[0].Recovery? then 1 else 0) + RecoveriesIn(calls[1..])
  }

  function Triangle(n: nat): nat {
    if n == 0 then 0 else n + Triangle(n - 1)
  }

  lemma {:induction false} TriangleIs(n: nat)
    ensures 2 * Triangle(n) == n * (n + 1)
  {
    if n > 0 {
      TriangleIs(n - 1);
    }
  }

  /** A resting point of a run with `max` attempts. */
  predicate Resting(max: nat, p: Policy) {
    match p
    case Ready(attempt) => 1 <= attempt <= max
    case Operating(_) => false
    case Recovering(attempt, failures) => 1 <= attempt < max && attempt + failures < max
    case Done(_) => true
  }

  /** The most calls that can still come. */
  function OperationsLeft(max: nat, p: Policy): nat
    requires Resting(max, p)
  {
    match p
    case Ready(attempt) => max - attempt + 1
    case Recovering(attempt, _) => max - attempt
    case _ => 0
  }

  function RecoveriesLeft(max: nat, p: Policy): nat
    requires Resting(max, p)
  {
    match p
    case Ready(attempt) => Triangle(max - attempt)
    case Recovering(attempt, failures) => max - attempt - failures + Triangle(max - attempt - 1)
    case _ => 0
  }

  lemma ReactSpends(max: nat, allowed: bool, p: Policy, e: Event)
    requires Resting(max, p)
    ensures var (next, made) := React(max, allowed, p, e);
            && Resting(max, next) && |made| <= 1
            && OperationsIn(made) + OperationsLeft(max, next) <= OperationsLeft(max, p)
            && RecoveriesIn(made) + RecoveriesLeft(max, next) <= RecoveriesLeft(max, p)
  {
  }

  lemma CountsAddUp(made: seq<Call>, more: seq<Call>)
    requires |made| <= 1
    ensures OperationsIn(made + more) == OperationsIn(made) + OperationsIn(more)
    ensures RecoveriesIn(made + more) == RecoveriesIn(made) + RecoveriesIn(more)
  {
    if made == [] {
      assert made + more == more;
    } else {
      assert (made + more)[1..] == more;
    }
  }

  lemma {:induction false} CallsStayWithin(max: nat, allowed: bool, p: Policy, events: seq<Event>)
    requires Resting(max, p)
    ensures OperationsIn(Calls(max, allowed, p, events)) <= OperationsLeft(max, p)
    ensures RecoveriesIn(Calls(max, allowed, p, events)) <= RecoveriesLeft(max, p)
    ensures Resting(max, Ends(max, allowed, p, events))
    decreases |events|
  {
    if events != [] {
      var (next, made) := React(max, allowed, p, events[0]);
      ReactSpends(max, allowed, p, events[0]);
      CallsStayWithin(max, allowed, next, events[1..]);
      CountsAddUp(made, Calls(max, allowed, next, events[1..]));
    }
  }

  lemma HalfProduct(n: nat, max: nat)
    requires max >= 1 && n <= Triangle(max - 1) && 2 * Triangle(max - 1) == (max - 1) * (max - 1 + 1)
    ensures 2 * n <= max * (max - 1)
  {
    assert (max - 1) * (max - 1 + 1) == max * (max - 1);
  }

  /** At most max operations and max * (max - 1) / 2 recoveries, whatever fails. */
  lemma RetriesAreBounded(max: nat, allowed: bool, events: seq<Event>)
    requires max >= 1
    ensures OperationsIn(Calls(max, allowed, Ready(1), events)) <= max
    ensures 2 * RecoveriesIn(Calls(max, allowed, Ready(1), events)) <= max * (max - 1)
  {
    CallsStayWithin(max, allowed, Ready(1), events);
    TriangleIs(max - 1);
    HalfProduct(RecoveriesIn(Calls(max, allowed, Ready(1), events)), max);
  }

  /** Every event leads to a call or ends the run, so a run is over after as many events. */
  lemma {:induction false} RunsEnd(max: nat, allowed: bool, p: Policy, events: seq<Event>)
    requires Resting(max, p) && |events| >= OperationsLeft(max, p) + RecoveriesLeft(max, p)
    ensures Ends(max, allowed, p, events).Done?
    decreases |events|
  {
    if p.Done? {
      DoneStays(max, allowed, p, events);
    } else {
      ReactSpends(max, allowed, p, events[0]);
      RunsEnd(max, allowed, React(max, allowed, p, events[0]).0, events[1..]);
    }
  }

  /** The bounds are reached: the last possible recovery succeeds every time and every operation fails. */
  lemma {:induction false} WorstRun(max: nat, allowed: bool, p: Policy) returns (events: seq<Event>)
    requires Resting(max, p)
    ensures OperationsIn(Calls(max, allowed, p, events)) == OperationsLeft(max, p)
    ensures RecoveriesIn(Calls(max, allowed, p, events)) == RecoveriesLeft(max, p)
    decreases OperationsLeft(max, p) + RecoveriesLeft(max, p)
  {
    if p.Done? {
      events := [];
    } else {
      var first := Event(false, if p.Recovering? && p.attempt + p.failures + 1 == max then Succeeds else Retryable);
      var (next, made) := React(max, allowed, p, first);
      ReactSpends(max, allowed, p, first);
      var rest := WorstRun(max, allowed, next);
      events := [first] + rest;
      assert events[1..] == rest;
      CountsAddUp(made, Calls(max, allowed, next, rest));
    }
  }

  // ------------------------------------------------------------ in which order

  /** What may directly precede a call; None before the first one. */
  predicate Follows(max: nat, before: Option<Call>, call: Call) {
    match call
    case Operation(attempt, _, _) =>
      if before.None? then attempt == 1
      else before.value.Recovery? && before.value.outcome == Succeeds && before.value.attempt + 1 == attempt
    case Recovery(attempt, _) =>
      && before.Some? && before.value.outcome == Retryable && before.value.attempt == attempt && attempt < max
  }

  /** The resting point that a last call leads to. */
  predicate LedTo(max: nat, before: Option<Call>, p: Policy) {
    match p
    case Ready(attempt) => Follows(max, before, Operation(attempt, false, Succeeds))
    case Recovering(attempt, _) => Follows(max, before, Recovery(attempt, Succeeds))
    case Operating(_) => false
    case Done(Returned) => before.Some? && before.value.Operation? && before.value.outcome == Succeeds
    case _ => before.Some? ==> !(before.value.Operation? && before.value.outcome == Succeeds)
  }

  function LastOf(before: Option<Call>, calls: seq<Call>): Option<Call> {
    if calls == [] then before else Some(calls[|calls| - 1])
  }

  function Before(before: Option<Call>, calls: seq<Call>, k: nat): Option<Call>
    requires k < |calls|
  {
    if k == 0 then before else Some(calls[k - 1])
  }

  ghost predicate Ordered(max: nat, before: Option<Call>, calls: seq<Call>) {
    forall k :: 0 <= k < |calls| ==> Follows(max, Before(before, calls, k), calls[k])
  }

  ghost predicate StartedFreely(allowed: bool, calls: seq<Call>) {
    forall k :: 0 <= k < |calls| && calls[k].Operation? && calls[k].stopped ==> allowed
  }

  lemma LastOfJoined(before: Option<Call>, made: seq<Call>, more: seq<Call>)
    ensures LastOf(before, made + more) == LastOf(LastOf(before, made), more)
  {
  }

  lemma OrderJoins(max: nat, before: Option<Call>, made: seq<Call>, more: seq<Call>)
    requires |made| <= 1 && Ordered(max, before, made) && Ordered(max, LastOf(before, made), more)
    ensures Ordered(max, before, made + more)
  {
    var all := made + more;
    forall k | 0 <= k < |all| ensures Follows(max, Before(before, all, k), all[k]) {
      if k < |made| {
        assert Follows(max, Before(before, made, k), made[k]);
      } else {
        assert Follows(max, Before(LastOf(before, made), more, k - |made|), more[k - |made|]);
      }
    }
  }

  lemma ReactFollows(max: nat, allowed: bool, p: Policy, e: Event, before: Option<Call>)
    requires LedTo(max, before, p) && Resting(max, p)
    ensures var (next, made) := React(max, allowed, p, e);
            && LedTo(max, LastOf(before, made), next)
            && Ordered(max, before, made) && StartedFreely(allowed, made)
  {
  }

  /** Every operation but the first directly follows a successful recovery of the attempt before it,
      every recovery directly follows a retryable failure, no operation starts once the stop event
      is set (unless shutdown use is allowed), and the run returns exactly when an operation does. */
  lemma {:induction false} CallsAreOrdered(max: nat, allowed: bool, p: Policy, events: seq<Event>, before: Option<Call>)
    requires LedTo(max, before, p) && Resting(max, p)
    ensures var calls := Calls(max, allowed, p, events);
            && Ordered(max, before, calls) && StartedFreely(allowed, calls)
            && LedTo(max, LastOf(before, calls), Ends(max, allowed, p, events))
    decreases |events|
  {
    if events != [] {
      var (next, made) := React(max, allowed, p, events[0]);
      ReactSpends(max, allowed, p, events[0]);
      ReactFollows(max, allowed, p, events[0], before);
      CallsAreOrdered(max, allowed, next, events[1..], LastOf(before, made));
      var more := Calls(max, allowed, next, events[1..]);
      OrderJoins(max, before, made, more);
      LastOfJoined(before, made, more);
      assert Calls(max, allowed, p, events) == made + more;
    }
  }

  lemma RetryFollowsRecovery(max: nat, allowed: bool, events: seq<Event>, k: nat)
    requires max >= 1 && k < |Calls(max, allowed, Ready(1), events)|
    ensures var calls := Calls(max, allowed, Ready(1), events);
            && (calls[k].Operation? && k > 0 ==>
                  calls[k - 1].Recovery? && calls[k - 1].outcome == Succeeds && calls[k - 1].attempt + 1 == calls[k].attempt)
            && (calls[k].Recovery? ==> k > 0 && calls[k - 1].outcome == Retryable && calls[k - 1].attempt == calls[k].attempt)
            && (calls[k].Operation? && calls[k].stopped ==> allowed)
            && (Ends(max, allowed, Ready(1), events) == Done(Returned) <==>
                  calls[|calls| - 1].Operation? && calls[|calls| - 1].outcome == Succeeds)
  {
    CallsAreOrdered(max, allowed, Ready(1), events, None);
    var calls := Calls(max, allowed, Ready(1), events);
    assert Follows(max, Before(None, calls, k), calls[k]);
    assert Follows(max, Before(None, calls, |calls| - 1), calls[|calls| - 1]);
  }

  // ------------------------------------------------------------ how it ends

  /** How often the recovery of an attempt failed. */
  function FailuresIn(calls: seq<Call>, attempt: nat): nat {
    if calls == [] then 0
    else
      var last := calls[|calls| - 1];
      FailuresIn(calls[..|calls| - 1], attempt) + (if last == Recovery(attempt, Retryable) then 1 else 0)
  }

  /** Nothing was called yet, or the last call was a recovery that succeeded. */
  predicate AtHead(calls: seq<Call>) {
    calls == [] || (calls[|calls| - 1].Recovery? && calls[|calls| - 1].outcome == Succeeds)
  }

  /** The last call failed for good: no attempt is left for what it would need. */
  predicate Exhausted(max: nat, calls: seq<Call>) {
    && calls != [] && calls[|calls| - 1].outcome == Retryable
    && calls[|calls| - 1].attempt + FailuresIn(calls, calls[|calls| - 1].attempt) >= max
  }

  ghost predicate AttemptsBelow(calls: seq<Call>, bound: nat) {
    forall c :: c in calls ==> c.attempt < bound
  }

  /** What the calls behind a resting point tell about it. */
  ghost predicate Tells(max: nat, allowed: bool, calls: seq<Call>, p: Policy) {
    match p
    case Ready(attempt) =>
      && AtHead(calls) && AttemptsBelow(calls, attempt)
    case Operating(_) => false
    case Recovering(attempt, failures) =>
      && calls != [] && calls[|calls| - 1].outcome == Retryable && calls[|calls| - 1].attempt == attempt
      && FailuresIn(calls, attempt) == failures && attempt + failures < max && AttemptsBelow(calls, attempt + 1)
    case Done(Returned) => calls != [] && calls[|calls| - 1].outcome == Succeeds && calls[|calls| - 1].Operation?
    case Done(RaisedCancelled) => calls != [] && calls[|calls| - 1].outcome == Cancelled
    case Done(RaisedFatal) => calls != [] && calls[|calls| - 1].outcome == Fatal
    case Done(RaisedLast) => Exhausted(max, calls)
    case Done(Stopping) => AtHead(calls) && !allowed
  }

  lemma {:induction false} NoFailuresYet(calls: seq<Call>, attempt: nat)
    requires AttemptsBelow(calls, attempt)
    ensures FailuresIn(calls, attempt) == 0
  {
    if calls != [] {
      assert calls[|calls| - 1] in calls;
      NoFailuresYet(calls[..|calls| - 1], attempt);
    }
  }

  lemma OneMoreCall(calls: seq<Call>, call: Call, attempt: nat)
    ensures FailuresIn(calls + [call], attempt)
         == FailuresIn(calls, attempt) + (if call == Recovery(attempt, Retryable) then 1 else 0)
    ensures forall bound :: AttemptsBelow(calls, bound) && call.attempt < bound ==> AttemptsBelow(calls + [call], bound)
  {
    assert (calls + [call])[..|calls|] == calls;
  }

  lemma OperationTells(max: nat, allowed: bool, attempt: nat, e: Event, calls: seq<Call>)
    requires Tells(max, allowed, calls, Ready(attempt)) && !(e.stopped && !allowed)
    ensures var (next, made) := React(max, allowed, Ready(attempt), e);
            |made| == 1 && made[0].outcome == e.outcome && Tells(max, allowed, calls + made, next)
  {
    var call := Operation(attempt, e.stopped, e.outcome);
    OneMoreCall(calls, call, attempt);
    NoFailuresYet(calls, attempt);
    assert AttemptsBelow(calls, attempt + 1);
  }

  lemma RecoveryTells(max: nat, allowed: bool, attempt: nat, failures: nat, e: Event, calls: seq<Call>)
    requires Tells(max, allowed, calls, Recovering(attempt, failures))
    ensures var (next, made) := React(max, allowed, Recovering(attempt, failures), e);
            |made| == 1 && made[0].outcome == e.outcome && Tells(max, allowed, calls + made, next)
  {
    OneMoreCall(calls, Recovery(attempt, e.outcome), attempt);
  }

  /** Each event before the end is the outcome of one call, in order; only a stop consumes one more. */
  ghost predicate Answers(allowed: bool, calls: seq<Call>, events: seq<Event>, end: Policy) {
    && |calls| <= |events|
    && (forall k :: 0 <= k < |calls| ==> calls[k].outcome == events[k].outcome)
    && (!end.Done? ==> |calls| == |events|)
    && (end == Done(Stopping) ==> |calls| < |events| && events[|calls|].stopped)
  }

  lemma ReactTells(max: nat, allowed: bool, p: Policy, e: Event, before: seq<Call>)
    requires Tells(max, allowed, before, p)
    ensures var (next, made) := React(max, allowed, p, e); Tells(max, allowed, before + made, next)
  {
    assert before + [] == before;
    match p
    case Ready(attempt) =>
      if !(e.stopped && !allowed) {
        OperationTells(max, allowed, attempt, e, before);
      }
    case Recovering(attempt, failures) => RecoveryTells(max, allowed, attempt, failures, e, before);
    case Done(_) =>
  }

  lemma {:induction false} RunTells(max: nat, allowed: bool, p: Policy, events: seq<Event>, before: seq<Call>)
    requires Tells(max, allowed, before, p)
    ensures Tells(max, allowed, before + Calls(max, allowed, p, events), Ends(max, allowed, p, events))
    decreases |events|
  {
    if events == [] {
      assert before + [] == before;
    } else {
      var (next, made) := React(max, allowed, p, events[0]);
      ReactTells(max, allowed, p, events[0], before);
      RunTells(max, allowed, next, events[1..], before + made);
      var more := Calls(max, allowed, next, events[1..]);
      assert before + (made + more) == before + made + more;
    }
  }

  lemma AnswersOneMore(allowed: bool, call: Call, calls: seq<Call>, events: seq<Event>, end: Policy)
    requires events != [] && call.outcome == events[0].outcome && Answers(allowed, calls, events[1..], end)
    ensures Answers(allowed, [call] + calls, events, end)
  {
    forall k | 0 <= k < |calls| + 1 ensures ([call] + calls)[k].outcome == events[k].outcome {
      assert k > 0 ==> ([call] + calls)[k] == calls[k - 1] && events[k] == events[1..][k - 1];
    }
  }

  lemma {:induction false} RunAnswers(max: nat, allowed: bool, p: Policy, events: seq<Event>)
    requires p.Ready? || p.Recovering?
    ensures Answers(allowed, Calls(max, allowed, p, events), events, Ends(max, allowed, p, events))
    decreases |events|
  {
    if events != [] {
      var (next, made) := React(max, allowed, p, events[0]);
      if next.Done? {
        DoneStays(max, allowed, next, events[1..]);
      } else {
        RunAnswers(max, allowed, next, events[1..]);
      }
      if made != [] {
        AnswersOneMore(allowed, made[0], Calls(max, allowed, next, events[1..]), events, Ends(max, allowed, next, events[1..]));
        assert made == [made[0]];
      }
    }
  }

  /** Every way a run can end, read off its calls: a cancellation or an error that is not retried is
      raised exactly when the last call ended so; the last retryable one exactly when the attempt and the
      failed recoveries of that attempt come to max; and the run stops exactly when the stop event was set
      as an attempt was about to begin. Each call has the outcome of its event. */
  lemma RunEndsAsItsLastCall(max: nat, allowed: bool, events: seq<Event>)
    requires max >= 1
    ensures var calls, end := Calls(max, allowed, Ready(1), events), Ends(max, allowed, Ready(1), events);
            && |calls| <= |events|
            && (forall k :: 0 <= k < |calls| ==> calls[k].outcome == events[k].outcome)
            && (end == Done(RaisedCancelled) <==> calls != [] && calls[|calls| - 1].outcome == Cancelled)
            && (end == Done(RaisedFatal) <==> calls != [] && calls[|calls| - 1].outcome == Fatal)
            && (end == Done(RaisedLast) <==> Exhausted(max, calls))
            && (end == Done(Stopping) <==> AtHead(calls) && !allowed && |calls| < |events| && events[|calls|].stopped)
  {
    RunTells(max, allowed, Ready(1), events, []);
    RunAnswers(max, allowed, Ready(1), events);
    assert [] + Calls(max, allowed, Ready(1), events) == Calls(max, allowed, Ready(1), events);
  }
}
