/** Sequential ranged downloads: SessionWrapper.media_req of scrapy_cffi/core/sessions.py against a
    server that may answer anything, then against servers of one fixed resource. */
module MediaDownload {
  import opened Common

  type Body = seq<bv8>

  /** The Content-Range field of a reply, as the two regular expressions read it. */
  datatype ContentRange =
    | Absent
    | Malformed
    | Satisfied(first: nat, last: nat, complete: Option<nat>)
    | Unsatisfied(length: nat)

  /** What one request brings: a reply, or the error left when its retries are used up. */
  datatype Answer =
    | Failure
    | Reply(status: nat, range: ContentRange, body: Body)

  datatype Reason =
    | UnsatisfiedMismatch | TotalChanged | EmptyMismatch | SizeMismatch | TooLarge
    | UnexpectedStatus | InvalidRange | WrongRange | WrongLength | InvalidTotal

  datatype Phase =
    | Fetching(data: Body, total: Option<nat>)    // at the head of the loop
    | Confirming                                  // fetching an empty resource without a Range
    | Assembled(content: Body)                    // parts joined into the last response
    | Whole(content: Body)                        // a 200 reply, returned as it is
    | Refused(reason: Reason)
    | Broken

  datatype Config = Config(part: nat, max: Option<nat>)

  /** A download and the request's media_size. */
  datatype State = State(at: Phase, size: nat)

  // ------------------------------------------------------------ one exchange

  function Start(declared: nat): State {
    State(Fetching([], if declared == 0 then None else Some(declared)), declared)
  }

  function Min(a: nat, b: nat): nat {
    if a <= b then a else b
  }

  function Max(a: nat, b: nat): nat {
    if a <= b then b else a
  }

  function FirstOf(data: Body): nat {
    |data|
  }

  function LastOf(cfg: Config, data: Body, total: Option<nat>): nat
    requires cfg.part > 0 && (total.Some? ==> |data| < total.value)
  {
    var last := |data| + cfg.part - 1;
    if total.Some? then Min(last, total.value - 1) else last
  }

  predicate Exceeds(cfg: Config, size: nat) {
    cfg.max.Some? && size > cfg.max.value
  }

  /** What a 206 reply claims to carry: its Content-Range, or what was asked for when the field is
      missing and the total is known. */
  function Claim(cfg: Config, data: Body, total: Option<nat>, range: ContentRange): ContentRange
    requires cfg.part > 0 && (total.Some? ==> |data| < total.value)
  {
    if range.Absent? && total.Some? then Satisfied(FirstOf(data), LastOf(cfg, data, total), total) else range
  }

  function PartFault(cfg: Config, data: Body, total: Option<nat>, range: ContentRange, body: Body): Option<Reason>
    requires cfg.part > 0 && (total.Some? ==> |data| < total.value)
  {
    var claim := Claim(cfg, data, total, range);
    if !claim.Satisfied? then Some(InvalidRange)
    else if claim.first != FirstOf(data) || claim.last < claim.first || claim.last > LastOf(cfg, data, total) then Some(WrongRange)
    else if |body| != claim.last - claim.first + 1 then Some(WrongLength)
    else if claim.complete.Some? && claim.complete.value <= claim.last then Some(InvalidTotal)
    else if claim.complete.Some? && data != [] && total.Some? && claim.complete != total then Some(TotalChanged)
    else if Exceeds(cfg, Max(if claim.complete.Some? then claim.complete.value else if total.Some? then total.value else 0,
                             claim.last + 1)) then Some(TooLarge)
    else None
  }

  /** The loop ends when the total is known and reached. */
  function Closed(at: Phase): Phase {
    if at.Fetching? && at.total.Some? && |at.data| >= at.total.value then Assembled(at.data) else at
  }

  /** The loop is entered only while the total is unknown or not reached. */
  predicate InLoop(s: State) {
    s.at.Fetching? && (s.at.total.Some? ==> |s.at.data| < s.at.total.value)
  }

  function AfterPart(cfg: Config, s: State, range: ContentRange, body: Body): State
    requires cfg.part > 0 && InLoop(s)
  {
    var Fetching(data, total) := s.at;
    var fault := PartFault(cfg, data, total, range, body);
    if fault.Some? then s.(at := Refused(fault.value))
    else
      var claim := Claim(cfg, data, total, range);
      var total' := if claim.complete.Some? then claim.complete else total;
      State(Closed(Fetching(data + body, total')), if total'.Some? then total'.value else s.size)
  }

  function AfterUnsatisfied(s: State, range: ContentRange): State
    requires s.at.Fetching?
  {
    if !range.Unsatisfied? || range.length != |s.at.data| then s.(at := Refused(UnsatisfiedMismatch))
    else if s.at.total.Some? && s.at.total.value != range.length then s.(at := Refused(TotalChanged))
    else State(if s.at.data == [] then Confirming else Assembled(s.at.data), range.length)
  }

  function AfterWhole(cfg: Config, s: State, body: Body): State
    requires s.at.Fetching?
  {
    if s.at.total.Some? && |body| != s.at.total.value then s.(at := Refused(SizeMismatch))
    else if Exceeds(cfg, |body|) then s.(at := Refused(TooLarge))
    else State(Whole(body), |body|)
  }

  predicate Proper(cfg: Config, s: State) {
    cfg.part > 0 && (s.at.Fetching? ==> InLoop(s))
  }

  function Exchange(cfg: Config, s: State, answer: Answer): (s': State)
    requires Proper(cfg, s)
    ensures Proper(cfg, s')
  {
    if !s.at.Fetching? && !s.at.Confirming? then s
    else if answer.Failure? then s.(at := Broken)
    else if s.at.Confirming? then
      s.(at := if answer.status != 200 || answer.body != [] then Refused(EmptyMismatch) else Whole([]))
    else if answer.status == 416 then AfterUnsatisfied(s, answer.range)
    else if answer.status == 200 then AfterWhole(cfg, s, answer.body)
    else if answer.status != 206 then s.(at := Refused(UnexpectedStatus))
    else AfterPart(cfg, s, answer.range, answer.body)
  }

  function Run(cfg: Config, s: State, answers: seq<Answer>): (s': State)
    requires Proper(cfg, s)
    ensures Proper(cfg, s')
    decreases |answers|
  {
    if answers == [] then s else Run(cfg, Exchange(cfg, s, answers[0]), answers[1..])
  }

  predicate Over(s: State) {
    !s.at.Fetching? && !s.at.Confirming?
  }

  /** The Range a request carries; the confirming one carries none. */
  function AskOf(cfg: Config, s: State): Option<(nat, nat)>
    requires Proper(cfg, s)
  {
    if s.at.Fetching? then Some((FirstOf(s.at.data), LastOf(cfg, s.at.data, s.at.total))) else None
  }

  /** The Range of every answered request, in order. */
  function Asked(cfg: Config, s: State, answers: seq<Answer>): seq<Option<(nat, nat)>>
    requires Proper(cfg, s)
    decreases |answers|
  {
    if answers == [] || Over(s) then []
    else [AskOf(cfg, s)] + Asked(cfg, Exchange(cfg, s, answers[0]), answers[1..])
  }

  lemma {:induction false} OverStays(cfg: Config, s: State, answers: seq<Answer>)
    requires Proper(cfg, s) && Over(s)
    ensures Run(cfg, s, answers) == s && Asked(cfg, s, answers) == []
    decreases |answers|
  {
    if answers != [] {
      OverStays(cfg, s, answers[1..]);
    }
  }

  // ------------------------------------------------------------ the loop

  /** A request as its constructor accepts it. */
  class MediaRequest {
    const part: nat
    const max: Option<nat>
    var mediaSize: nat

    ghost predicate Valid()
      reads this
    {
      part > 0 && (max.Some? ==> 0 < max.value && mediaSize <= max.value)
    }

    ghost function Limits(): Config {
      Config(part, max)
    }
  }

  /** The 416 branch; an empty resource is confirmed by a request without a Range. */
  method Unsatisfiable(request: MediaRequest, data: Body, total: Option<nat>, range: ContentRange) returns (next: Phase)
    requires request.Valid() && !Exceeds(request.Limits(), |data|)
    modifies request
    ensures request.Valid()
    ensures State(next, request.mediaSize) == AfterUnsatisfied(State(Fetching(data, total), old(request.mediaSize)), range)
  {
    if !range.Unsatisfied? || range.length != |data| {
      return Refused(UnsatisfiedMismatch);
    }
    if total.Some? && total.value != range.length {
      return Refused(TotalChanged);
    }
    request.mediaSize := range.length;
    return if data == [] then Confirming else Assembled(data);
  }

  method WholeReply(request: MediaRequest, total: Option<nat>, body: Body, ghost data: Body) returns (next: Phase)
    requires request.Valid()
    modifies request
    ensures request.Valid()
    ensures State(next, request.mediaSize)
         == AfterWhole(request.Limits(), State(Fetching(data, total), old(request.mediaSize)), body)
  {
    if total.Some? && |body| != total.value {
      return Refused(SizeMismatch);
    }
    if request.max.Some? && |body| > request.max.value {
      return Refused(TooLarge);
    }
    request.mediaSize := |body|;
    return Whole(body);
  }

  /** The 206 branch up to the point where the body is appended. */
  method PartReply(request: MediaRequest, data: Body, total: Option<nat>, first: nat, last: nat, range: ContentRange, body: Body)
    returns (fault: Option<Reason>, newTotal: Option<nat>)
    requires request.Valid() && (total.Some? ==> |data| < total.value)
    requires first == FirstOf(data) && last == LastOf(request.Limits(), data, total)
    modifies request
    ensures request.Valid()
    ensures fault == PartFault(request.Limits(), data, total, range, body)
    ensures fault.Some? ==> request.mediaSize == old(request.mediaSize)
    ensures fault.None? ==>
              var claim := Claim(request.Limits(), data, total, range);
              newTotal == (if claim.complete.Some? then claim.complete else total)
    ensures fault.None? ==> request.mediaSize == (if newTotal.Some? then newTotal.value else old(request.mediaSize))
    ensures fault.None? ==> !Exceeds(request.Limits(), |data + body|) && body != []
    ensures fault.None? && newTotal.Some? ==> |data + body| <= newTotal.value
  {
    newTotal := total;
    var start, end, reported: Option<nat>;
    if range.Absent? && total.Some? {
      start, end, reported := first, last, total;
    } else if range.Satisfied? {
      start, end, reported := range.first, range.last, range.complete;
    } else {
      return Some(InvalidRange), total;
    }
    if start != first || end < start || end > last {
      return Some(WrongRange), total;
    }
    if |body| != end - start + 1 {
      return Some(WrongLength), total;
    }
    if reported.Some? {
      if reported.value <= end {
        return Some(InvalidTotal), total;
      }
      if data != [] && total.Some? && reported.value != total.value {
        return Some(TotalChanged), total;
      }
      newTotal := reported;
    }
    if request.max.Some? && Max(if newTotal.Some? then newTotal.value else 0, end + 1) > request.max.value {
      return Some(TooLarge), newTotal;
    }
    if newTotal.Some? {
      request.mediaSize := newTotal.value;
    }
    fault := None;
  }

  /** One round of the loop, given the reply to its request. */
  method Turn(request: MediaRequest, data: Body, total: Option<nat>, first: nat, last: nat, answer: Answer) returns (next: Phase)
    requires request.Valid() && !Exceeds(request.Limits(), |data|) && (total.Some? ==> |data| < total.value)
    requires first == FirstOf(data) && last == LastOf(request.Limits(), data, total)
    modifies request
    ensures request.Valid() && (next.Fetching? ==> !Exceeds(request.Limits(), |next.data|))
    ensures State(Closed(next), request.mediaSize)
         == Exchange(request.Limits(), State(Fetching(data, total), old(request.mediaSize)), answer)
  {
    if answer.Failure? {
      return Broken;
    }
    if answer.status == 416 {
      next := Unsatisfiable(request, data, total, answer.range);
    } else if answer.status == 200 {
      next := WholeReply(request, total, answer.body, data);
    } else if answer.status != 206 {
      next := Refused(UnexpectedStatus);
    } else {
      var fault, newTotal := PartReply(request, data, total, first, last, answer.range, answer.body);
      next := if fault.Some? then Refused(fault.value) else Fetching(data + answer.body, newTotal);
    }
  }

  /** The second request for an empty resource. */
  method Confirm(answers: seq<Answer>, ghost cfg: Config, ghost size: nat) returns (next: Phase, asked: seq<Option<(nat, nat)>>)
    requires cfg.part > 0
    ensures State(next, size) == Run(cfg, State(Confirming, size), answers)
    ensures asked == Asked(cfg, State(Confirming, size), answers)
  {
    if answers == [] {
      return Confirming, [];
    }
    if answers[0].Failure? {
      next := Broken;
    } else if answers[0].status != 200 || answers[0].body != [] {
      next := Refused(EmptyMismatch);
    } else {
      next := Whole([]);
    }
    asked := [None];
    OverStays(cfg, State(next, size), answers[1..]);
  }

  /** A run from `start` has come to `s`, with the requests `asked` behind it and `rest` to come. */
  ghost predicate Reaches(cfg: Config, start: State, answers: seq<Answer>, asked: seq<Option<(nat, nat)>>, s: State, rest: seq<Answer>)
    requires Proper(cfg, start) && Proper(cfg, s)
  {
    Run(cfg, start, answers) == Run(cfg, s, rest) && Asked(cfg, start, answers) == asked + Asked(cfg, s, rest)
  }

  lemma Advance(cfg: Config, start: State, answers: seq<Answer>, asked: seq<Option<(nat, nat)>>, s: State, rest: seq<Answer>)
    requires Proper(cfg, start) && Proper(cfg, s) && Reaches(cfg, start, answers, asked, s, rest)
    requires rest != [] && !Over(s)
    ensures Reaches(cfg, start, answers, asked + [AskOf(cfg, s)], Exchange(cfg, s, rest[0]), rest[1..])
  {
  }

  /** media_req; `answers` are the replies in the order they arrive. A run for which they do not
      suffice is still waiting when this returns. */
  method MediaReq(request: MediaRequest, answers: seq<Answer>) returns (result: Phase, asked: seq<Option<(nat, nat)>>)
    requires request.Valid()
    modifies request
    ensures request.Valid()
    ensures State(result, request.mediaSize) == Run(request.Limits(), Start(old(request.mediaSize)), answers)
    ensures asked == Asked(request.Limits(), Start(old(request.mediaSize)), answers)
  {
    ghost var cfg, start := request.Limits(), Start(request.mediaSize);
    var data: Body, rest := [], answers;
    var total := if request.mediaSize == 0 then None else Some(request.mediaSize);
    asked := [];
    while total.None? || |data| < total.value
      invariant request.Valid() && !Exceeds(cfg, |data|)
      invariant Reaches(cfg, start, answers, asked, State(Closed(Fetching(data, total)), request.mediaSize), rest)
      decreases |rest|
    {
      if rest == [] {
        return Fetching(data, total), asked;
      }
      var first, last := |data|, |data| + request.part - 1;
      if total.Some? {
        last := Min(last, total.value - 1);
      }
      Advance(cfg, start, answers, asked, State(Fetching(data, total), request.mediaSize), rest);
      result := Turn(request, data, total, first, last, rest[0]);
      asked, rest := asked + [Some((first, last))], rest[1..];
      if result.Confirming? {
        var more;
        result, more := Confirm(rest, cfg, request.mediaSize);
        return result, asked + more;
      }
      if !result.Fetching? {
        OverStays(cfg, State(result, request.mediaSize), rest);
        return;
      }
      data, total := result.data, result.total;
    }
    OverStays(cfg, State(Assembled(data), request.mediaSize), rest);
    return Assembled(data), asked;
  }
}
