/** What ranged downloads guarantee: against any server, against a truthful one, and against one that
    serves ranges as RFC 9110 describes. */
module MediaProofs {
  import opened Common
  import opened Arithmetic
  import opened MediaDownload

  // ------------------------------------------------------------ any server

  /** Sizes agree with the request's media_size and stay within the limit. */
  predicate Bounded(cfg: Config, s: State) {
    && Proper(cfg, s)
    && match s.at {
      case Fetching(data, total) =>
        && (cfg.max.Some? ==> |data| <= cfg.max.value && s.size <= cfg.max.value)
        && (total.Some? ==> total.value == s.size)
      case Confirming => s.size == 0
      case Assembled(c) => c != [] && |c| == s.size && !Exceeds(cfg, |c|)
      case Whole(c) => |c| == s.size && !Exceeds(cfg, |c|)
      case _ => true
    }
  }

  lemma PartEffect(cfg: Config, s: State, range: ContentRange, body: Body)
    requires Proper(cfg, s) && s.at.Fetching?
    ensures PartFault(cfg, s.at.data, s.at.total, range, body).None? ==>
              var claim := Claim(cfg, s.at.data, s.at.total, range);
              && claim.Satisfied? && body != [] && |s.at.data + body| == claim.last + 1
              && (claim.complete.Some? ==> |s.at.data + body| <= claim.complete.value)
              && (s.at.total.Some? ==> |s.at.data + body| <= s.at.total.value)
              && !Exceeds(cfg, |s.at.data + body|)
              && (claim.complete.Some? ==> !Exceeds(cfg, claim.complete.value))
  {
  }

  lemma ExchangeKeepsBounds(cfg: Config, s: State, answer: Answer)
    requires Bounded(cfg, s)
    ensures Bounded(cfg, Exchange(cfg, s, answer))
  {
    if s.at.Fetching? && answer.Reply? && answer.status == 206 {
      PartEffect(cfg, s, answer.range, answer.body);
    }
  }

  lemma {:induction false} RunKeepsBounds(cfg: Config, s: State, answers: seq<Answer>)
    requires Bounded(cfg, s)
    ensures Bounded(cfg, Run(cfg, s, answers))
    decreases |answers|
  {
    if answers != [] {
      ExchangeKeepsBounds(cfg, s, answers[0]);
      RunKeepsBounds(cfg, Exchange(cfg, s, answers[0]), answers[1..]);
    }
  }

  /** Whatever the server does: received bytes stay below a known total, delivered content has the
      length that media_size ends up with, and neither exceeds max_media_size. */
  lemma ContentIsBounded(cfg: Config, declared: nat, answers: seq<Answer>)
    requires cfg.part > 0 && (cfg.max.Some? ==> declared <= cfg.max.value)
    ensures var s := Run(cfg, Start(declared), answers);
            && (s.at.Fetching? && s.at.total.Some? ==> |s.at.data| < s.at.total.value == s.size)
            && (s.at.Assembled? || s.at.Whole? ==> |s.at.content| == s.size)
            && (s.at.Assembled? || s.at.Whole? ==> !Exceeds(cfg, |s.at.content|))
  {
    RunKeepsBounds(cfg, Start(declared), answers);
  }

  /** A reply that keeps the loop going brought at least one byte, after the bytes already there, and
      cannot change a total that was known when some data had arrived. */
  lemma RoundGrows(cfg: Config, s: State, answer: Answer)
    requires Proper(cfg, s) && Exchange(cfg, s, answer).at.Fetching?
    ensures var at' := Exchange(cfg, s, answer).at;
            && s.at.Fetching? && |s.at.data| < |at'.data| && s.at.data <= at'.data
            && (s.at.data != [] && s.at.total.Some? ==> at'.total == s.at.total)
  {
  }

  lemma {:induction false} RunGrows(cfg: Config, s: State, answers: seq<Answer>)
    requires Proper(cfg, s) && Run(cfg, s, answers).at.Fetching?
    ensures var at' := Run(cfg, s, answers).at;
            && s.at.Fetching? && |s.at.data| + |answers| <= |at'.data| && s.at.data <= at'.data
            && (s.at.data != [] && s.at.total.Some? ==> at'.total == s.at.total)
    decreases |answers|
  {
    if answers != [] {
      RunGrows(cfg, Exchange(cfg, s, answers[0]), answers[1..]);
      RoundGrows(cfg, s, answers[0]);
    }
  }

  lemma {:induction false} RunJoins(cfg: Config, s: State, first: seq<Answer>, rest: seq<Answer>)
    requires Proper(cfg, s)
    ensures Run(cfg, s, first + rest) == Run(cfg, Run(cfg, s, first), rest)
    decreases |first|
  {
    if first == [] {
      assert first + rest == rest;
    } else {
      assert (first + rest)[1..] == first[1..] + rest;
      RunJoins(cfg, Exchange(cfg, s, first[0]), first[1..], rest);
    }
  }

  lemma ConfirmingEnds(cfg: Config, s: State, answers: seq<Answer>)
    requires Proper(cfg, s) && !s.at.Fetching? && answers != []
    ensures Over(Run(cfg, s, answers))
  {
    OverStays(cfg, Exchange(cfg, s, answers[0]), answers[1..]);
  }

  lemma {:induction false} EndsOnceNotFetching(cfg: Config, s: State, answers: seq<Answer>)
    requires Proper(cfg, s) && answers != []
    requires !Run(cfg, s, answers[..|answers| - 1]).at.Fetching?
    ensures Over(Run(cfg, s, answers))
  {
    var before, last := answers[..|answers| - 1], answers[|answers| - 1..];
    assert answers == before + last;
    RunJoins(cfg, s, before, last);
    ConfirmingEnds(cfg, Run(cfg, s, before), last);
  }

  /** With max_media_size set, no server can keep a download going for more than max + 2 replies. */
  lemma LimitedDownloadEnds(cfg: Config, declared: nat, answers: seq<Answer>)
    requires cfg.part > 0 && cfg.max.Some? && declared <= cfg.max.value
    requires |answers| >= cfg.max.value + 2
    ensures Over(Run(cfg, Start(declared), answers))
  {
    var before := answers[..|answers| - 1];
    RunKeepsBounds(cfg, Start(declared), before);
    if Run(cfg, Start(declared), before).at.Fetching? {
      RunGrows(cfg, Start(declared), before);
    }
    EndsOnceNotFetching(cfg, Start(declared), answers);
  }

  /** Once the total is known and data has arrived, what is missing bounds the replies to come. */
  lemma KnownTotalEnds(cfg: Config, s: State, answers: seq<Answer>)
    requires Proper(cfg, s) && s.at.Fetching? && s.at.total.Some? && s.at.data != []
    requires |answers| >= s.at.total.value - |s.at.data|
    ensures !Run(cfg, s, answers).at.Fetching?
  {
    if Run(cfg, s, answers).at.Fetching? {
      RunGrows(cfg, s, answers);
    }
  }

  /** Without a limit and without a total, a server can keep the loop going for ever. */
  lemma {:induction false} EndlessServer(cfg: Config, n: nat) returns (answers: seq<Answer>)
    requires cfg.part > 0 && cfg.max.None?
    ensures |answers| == n
    ensures Run(cfg, Start(0), answers).at.Fetching? && Run(cfg, Start(0), answers).at.total.None?
  {
    answers := [];
    if n > 0 {
      var before := EndlessServer(cfg, n - 1);
      var s := Run(cfg, Start(0), before);
      var more := Reply(206, Satisfied(|s.at.data|, |s.at.data|, None), [0]);
      answers := before + [more];
      RunJoins(cfg, Start(0), before, [more]);
    }
  }

  // ------------------------------------------------------------ a truthful server

  predicate IsSlice(body: Body, resource: Body, first: nat) {
    first + |body| <= |resource| && body == resource[first..first + |body|]
  }

  /** Nothing in this reply contradicts the resource: complete replies carry it, parts are slices of
      it at the place they name (or were asked for), and every length named is its length. */
  ghost predicate Truthful(cfg: Config, s: State, answer: Answer, resource: Body)
    requires Proper(cfg, s)
  {
    answer.Reply? ==>
      && (answer.status == 200 ==> answer.body == resource)
      && (answer.status == 416 && answer.range.Unsatisfied? ==> answer.range.length == |resource|)
      && (answer.status == 206 && answer.range.Satisfied? ==>
            && IsSlice(answer.body, resource, answer.range.first)
            && (answer.range.complete.Some? ==> answer.range.complete.value == |resource|))
      && (answer.status == 206 && answer.range.Absent? && s.at.Fetching? ==> IsSlice(answer.body, resource, |s.at.data|))
  }

  ghost predicate AllTruthful(cfg: Config, s: State, answers: seq<Answer>, resource: Body)
    requires Proper(cfg, s)
    decreases |answers|
  {
    answers != [] ==> Truthful(cfg, s, answers[0], resource) && AllTruthful(cfg, Exchange(cfg, s, answers[0]), answers[1..], resource)
  }

  /** What has been received is the front of the resource; `hoped` is the only other total that a
      truthful server can leave in place. */
  predicate Faithful(s: State, resource: Body, hoped: nat) {
    match s.at
    case Fetching(data, total) =>
      data <= resource && (total.Some? ==> total.value == |resource| || total.value == hoped)
    case Confirming => resource == []
    case Assembled(c) => c <= resource && (|c| == |resource| || |c| == hoped)
    case Whole(c) => c == resource
    case _ => true
  }

  lemma SliceExtends(data: Body, body: Body, resource: Body)
    requires data <= resource && IsSlice(body, resource, |data|)
    ensures data + body <= resource
  {
    assert resource[..|data|] + resource[|data|..|data| + |body|] == resource[..|data| + |body|];
  }

  lemma ExchangeKeepsFaith(cfg: Config, s: State, answer: Answer, resource: Body, hoped: nat)
    requires Proper(cfg, s) && Faithful(s, resource, hoped) && Truthful(cfg, s, answer, resource)
    ensures Faithful(Exchange(cfg, s, answer), resource, hoped)
  {
    if s.at.Fetching? && answer.Reply? && answer.status == 206 {
      PartEffect(cfg, s, answer.range, answer.body);
      if PartFault(cfg, s.at.data, s.at.total, answer.range, answer.body).None? {
        SliceExtends(s.at.data, answer.body, resource);
      }
    }
  }

  lemma {:induction false} RunKeepsFaith(cfg: Config, s: State, answers: seq<Answer>, resource: Body, hoped: nat)
    requires Proper(cfg, s) && Faithful(s, resource, hoped) && AllTruthful(cfg, s, answers, resource)
    ensures Faithful(Run(cfg, s, answers), resource, hoped)
    decreases |answers|
  {
    if answers != [] {
      ExchangeKeepsFaith(cfg, s, answers[0], resource, hoped);
      RunKeepsFaith(cfg, Exchange(cfg, s, answers[0]), answers[1..], resource, hoped);
    }
  }

  /** A truthful server is never misrepresented: what is delivered is a front of the resource, and it
      is all of the resource unless it stops exactly at the size the caller declared. */
  lemma ContentIsTheResource(cfg: Config, declared: nat, answers: seq<Answer>, resource: Body)
    requires cfg.part > 0 && AllTruthful(cfg, Start(declared), answers, resource)
    ensures var s := Run(cfg, Start(declared), answers);
            && (s.at.Fetching? ==> s.at.data <= resource)
            && (s.at.Whole? ==> s.at.content == resource)
            && (s.at.Assembled? ==> s.at.content <= resource)
            && (s.at.Assembled? && s.at.content != resource ==> 0 < declared == |s.at.content| < |resource|)
  {
    // With nothing declared, the resource's own length is all there is to hope for.
    RunKeepsFaith(cfg, Start(declared), answers, resource, if declared == 0 then |resource| else declared);
  }

  /** A wrong declared size is harmless as soon as the first reply names the real one. */
  lemma FirstReplySettlesTheTotal(cfg: Config, declared: nat, answers: seq<Answer>, resource: Body)
    requires cfg.part > 0 && AllTruthful(cfg, Start(declared), answers, resource)
    requires answers != [] && answers[0].Reply? && answers[0].range.Satisfied? && answers[0].range.complete.Some?
    ensures var s := Run(cfg, Start(declared), answers); s.at.Assembled? ==> s.at.content == resource
  {
    var s := Exchange(cfg, Start(declared), answers[0]);
    ExchangeKeepsFaith(cfg, Start(declared), answers[0], resource, if declared == 0 then |resource| else declared);
    RunKeepsFaith(cfg, s, answers[1..], resource, |resource|);
  }

  // ------------------------------------------------------------ the complete reply

  /** A complete reply at any moment ends the download: it is returned as it is exactly when it has the
      known total, if one is known, and is within the limit; otherwise it is refused for the first of
      these that fails, and media_size stays. What its Content-Range says does not matter. */
  lemma CompleteReplyEnds(cfg: Config, s: State, range: ContentRange, body: Body, rest: seq<Answer>)
    requires Proper(cfg, s) && s.at.Fetching?
    ensures var fits := s.at.total.None? || s.at.total.value == |body|;
            var within := cfg.max.None? || |body| <= cfg.max.value;
            Run(cfg, s, [Reply(200, range, body)] + rest) ==
            if fits && within then State(Whole(body), |body|)
            else State(Refused(if fits then TooLarge else SizeMismatch), s.size)
  {
    var answers := [Reply(200, range, body)] + rest;
    assert answers[1..] == rest;
    OverStays(cfg, Exchange(cfg, s, answers[0]), rest);
  }

  /** The request that confirms an empty resource is satisfied by an empty complete reply alone. */
  lemma ConfirmingReplyEnds(cfg: Config, s: State, status: nat, range: ContentRange, body: Body, rest: seq<Answer>)
    requires Proper(cfg, s) && s.at.Confirming?
    ensures Run(cfg, s, [Reply(status, range, body)] + rest)
         == s.(at := if status == 200 && |body| == 0 then Whole([]) else Refused(EmptyMismatch))
    ensures Run(cfg, s, [Failure] + rest) == s.(at := Broken)
  {
    assert ([Reply(status, range, body)] + rest)[1..] == rest && ([Failure] + rest)[1..] == rest;
    OverStays(cfg, Exchange(cfg, s, Reply(status, range, body)), rest);
    OverStays(cfg, Exchange(cfg, s, Failure), rest);
  }

  /** Any status but 200, 206 and 416, or a final error, ends the download at once. */
  lemma OtherRepliesEnd(cfg: Config, s: State, status: nat, range: ContentRange, body: Body, rest: seq<Answer>)
    requires Proper(cfg, s) && s.at.Fetching?
    ensures status !in {200, 206, 416} ==> Run(cfg, s, [Reply(status, range, body)] + rest) == s.(at := Refused(UnexpectedStatus))
    ensures Run(cfg, s, [Failure] + rest) == s.(at := Broken)
  {
    assert ([Reply(status, range, body)] + rest)[1..] == rest && ([Failure] + rest)[1..] == rest;
    if status !in {200, 206, 416} {
      OverStays(cfg, Exchange(cfg, s, Reply(status, range, body)), rest);
    }
    OverStays(cfg, Exchange(cfg, s, Failure), rest);
  }

  /** Which part is accepted, for any server: one that says, or with a known total lets one assume, that it
      starts where the data ends, stops at or before the end asked for, and is as long as that; that
      names no total it does not reach, nor another one once data has come; and that stays within the
      limit. Then, and only then, the data grows by it. */
  lemma PartIsAccepted(cfg: Config, s: State, range: ContentRange, body: Body)
    requires Proper(cfg, s) && s.at.Fetching?
    ensures var Fetching(data, total) := s.at;
            var asked := AskOf(cfg, s).value;
            var t := Exchange(cfg, s, Reply(206, range, body));
            var placed := range.Satisfied? || (range.Absent? && total.Some?);
            var first := if range.Satisfied? then range.first else asked.0;
            var last := if range.Satisfied? then range.last else asked.1;
            var complete := if range.Satisfied? then range.complete else total;
            var fits := placed && first == |data| && first <= last <= asked.1 && |body| == last - first + 1;
            var total' := if complete.Some? then complete else total;
            && asked.0 == |data| && asked.1 < |data| + cfg.part && (total.None? ==> asked.1 == |data| + cfg.part - 1)
            && (total.Some? ==> asked.1 < total.value && (asked.1 == total.value - 1 || asked.1 == |data| + cfg.part - 1))
            && (!t.at.Refused? <==>
                  && fits && (complete.Some? ==> last < complete.value)
                  && (data != [] && total.Some? && complete.Some? ==> complete == total)
                  && (cfg.max.Some? ==> last + 1 <= cfg.max.value && (total'.Some? ==> total'.value <= cfg.max.value)))
            && (!t.at.Refused? ==>
                  && t.size == (if total'.Some? then total'.value else s.size)
                  && t.at == if total'.Some? && |data + body| == total'.value then Assembled(data + body) else Fetching(data + body, total'))
            && (t.at.Refused? ==>
                  && t.size == s.size
                  && (t.at.reason == InvalidRange <==> !placed)
                  && (t.at.reason == WrongRange <==> placed && !(first == |data| && first <= last <= asked.1))
                  && (t.at.reason == WrongLength <==> placed && first == |data| && first <= last <= asked.1 && !fits)
                  && (t.at.reason == InvalidTotal <==> fits && complete.Some? && complete.value <= last)
                  && (t.at.reason == TotalChanged <==>
                        fits && complete.Some? && last < complete.value && data != [] && total.Some? && complete != total)
                  && t.at.reason in {InvalidRange, WrongRange, WrongLength, InvalidTotal, TotalChanged, TooLarge})
  {
  }

  // ------------------------------------------------------------ servers of one resource

  /** What a server does with a Range: it serves it as RFC 9110, sections 14.2, 14.4, 15.3.7 and
      15.5.17, describes, naming the complete length or withholding it; it leaves out Content-Range on
      206; or it ignores Range and always answers with all of the resource. */
  datatype Manner = Telling | Withholding | Omitting | Ignoring

  function Serve(resource: Body, manner: Manner, ask: Option<(nat, nat)>): Answer
    requires ask.Some? ==> ask.value.0 <= ask.value.1
  {
    if ask.None? || manner == Ignoring then Reply(200, Absent, resource)
    else if ask.value.0 >= |resource| then Reply(416, Unsatisfied(|resource|), [])
    else
      var last := Min(ask.value.1, |resource| - 1);
      var range := match manner
        case Telling => Satisfied(ask.value.0, last, Some(|resource|))
        case Withholding => Satisfied(ask.value.0, last, None)
        case _ => Absent;
      Reply(206, range, resource[ask.value.0..last + 1])
  }

  ghost predicate Served(cfg: Config, s: State, answers: seq<Answer>, resource: Body, manner: Manner)
    requires Proper(cfg, s)
    decreases |answers|
  {
    answers != [] ==>
      && answers[0] == Serve(resource, manner, AskOf(cfg, s))
      && Served(cfg, Exchange(cfg, s, answers[0]), answers[1..], resource, manner)
  }

  /** All of the resource, if the limit admits it. */
  function Delivered(cfg: Config, resource: Body, phase: Phase): Phase {
    if cfg.max.Some? && |resource| > cfg.max.value then Refused(TooLarge) else phase
  }

  /** What becomes of a download from such a server. */
  function ExpectedPhase(cfg: Config, declared: nat, resource: Body, manner: Manner): Phase
    requires cfg.part > 0
  {
    if manner == Ignoring then
      if declared != 0 && declared != |resource| then Refused(SizeMismatch) else Delivered(cfg, resource, Whole(resource))
    else if resource == [] then if declared == 0 then Whole([]) else Refused(TotalChanged)
    else if manner == Telling then Delivered(cfg, resource, Assembled(resource))
    else if declared == 0 then
      if manner == Omitting then Refused(InvalidRange) else Delivered(cfg, resource, Assembled(resource))
    else if declared <= |resource| then Assembled(resource[..declared])
    else if manner == Withholding || |resource| % cfg.part == 0 then Refused(TotalChanged)
    else Refused(WrongLength)     // the last part is shorter than asked for, and nothing says so
  }

  /** ... and what media_size is afterwards: that of the content, or what was declared. */
  function Expected(cfg: Config, declared: nat, resource: Body, manner: Manner): State
    requires cfg.part > 0
  {
    var phase := ExpectedPhase(cfg, declared, resource, manner);
    State(phase, if phase.Assembled? || phase.Whole? then |phase.content| else declared)
  }

  lemma ServeIsTruthful(cfg: Config, s: State, resource: Body, manner: Manner)
    requires Proper(cfg, s)
    ensures Truthful(cfg, s, Serve(resource, manner, AskOf(cfg, s)), resource)
  {
  }

  /** Such a server can keep answering for as long as it is asked. */
  lemma {:induction false} ServeForAsLong(cfg: Config, s: State, resource: Body, manner: Manner, n: nat) returns (answers: seq<Answer>)
    requires Proper(cfg, s)
    ensures |answers| == n && Served(cfg, s, answers, resource, manner) && AllTruthful(cfg, s, answers, resource)
    decreases n
  {
    answers := [];
    if n > 0 {
      var first := Serve(resource, manner, AskOf(cfg, s));
      ServeIsTruthful(cfg, s, resource, manner);
      var rest := ServeForAsLong(cfg, Exchange(cfg, s, first), resource, manner, n - 1);
      answers := [first] + rest;
    }
  }

  lemma ServedPart(cfg: Config, s: State, resource: Body, manner: Manner)
    requires Proper(cfg, s) && s.at.Fetching? && s.at.data <= resource && |s.at.data| < |resource| && manner != Ignoring
    ensures var k, last := |s.at.data|, Min(LastOf(cfg, s.at.data, s.at.total), |resource| - 1);
            && k <= last < |resource|
            && Serve(resource, manner, AskOf(cfg, s)).body == resource[k..last + 1]
            && s.at.data + resource[k..last + 1] == resource[..last + 1]
  {
  }

  /** Once the total is settled, the parts arrive one after another and fill it exactly. */
  lemma {:induction false} ServedToTheTotal(cfg: Config, s: State, answers: seq<Answer>, resource: Body, manner: Manner)
    requires Proper(cfg, s) && s.at.Fetching? && s.at.data <= resource && Served(cfg, s, answers, resource, manner)
    requires s.at.total.Some? && s.at.total.value <= |resource| && !Exceeds(cfg, s.at.total.value) && manner != Ignoring
    requires manner == Telling ==> s.at.total.value == |resource|
    requires |answers| >= s.at.total.value - |s.at.data|
    ensures Run(cfg, s, answers).at == Assembled(resource[..s.at.total.value])
    decreases |answers|
  {
    ServedPart(cfg, s, resource, manner);
    var s' := Exchange(cfg, s, answers[0]);
    if s'.at.Fetching? {
      ServedToTheTotal(cfg, s', answers[1..], resource, manner);
    } else {
      OverStays(cfg, s', answers[1..]);
    }
  }

  /** A server that never tells the length and a caller who never declared one. */
  lemma {:induction false} ServedBlindly(cfg: Config, s: State, answers: seq<Answer>, resource: Body)
    requires Proper(cfg, s) && s.at.Fetching? && s.at.data <= resource && Served(cfg, s, answers, resource, Withholding)
    requires s.at.total.None? && !Exceeds(cfg, |s.at.data|) && resource != []
    requires |answers| > |resource| - |s.at.data|
    ensures Run(cfg, s, answers).at == Delivered(cfg, resource, Assembled(resource))
    ensures Run(cfg, s, answers).at.Refused? ==> Run(cfg, s, answers).size == s.size
    decreases |answers|
  {
    var s' := Exchange(cfg, s, answers[0]);
    if |s.at.data| < |resource| {
      ServedPart(cfg, s, resource, Withholding);
    }
    if s'.at.Fetching? {
      ServedBlindly(cfg, s', answers[1..], resource);
    } else {
      OverStays(cfg, s', answers[1..]);
    }
  }

  /** A declared size beyond the end is noticed when the server has nothing more to give. */
  lemma {:induction false} ServedTooLittle(cfg: Config, s: State, answers: seq<Answer>, resource: Body)
    requires Proper(cfg, s) && s.at.Fetching? && s.at.data <= resource && Served(cfg, s, answers, resource, Withholding)
    requires s.at.total.Some? && s.at.total.value > |resource| && !Exceeds(cfg, s.at.total.value) && s.size == s.at.total.value
    requires |answers| > |resource| - |s.at.data|
    ensures Run(cfg, s, answers) == State(Refused(TotalChanged), s.size)
    decreases |answers|
  {
    var s' := Exchange(cfg, s, answers[0]);
    if |s.at.data| < |resource| {
      ServedPart(cfg, s, resource, Withholding);
      ServedTooLittle(cfg, s', answers[1..], resource);
    } else {
      OverStays(cfg, s', answers[1..]);
    }
  }

  lemma OneMorePart(n: nat, part: nat)
    requires part > 0
    ensures (n + part) % part == n % part
  {
    assert (n / part + 1) * part == n / part * part + part;
    QuotientIs(n + part, part, n / part + 1, n % part);
  }

  lemma ShortPart(n: nat, part: nat, k: nat)
    requires part > 0 && n % part == 0 && n < k < n + part
    ensures k % part != 0
  {
    assert k == n + (k - n) && n == n / part * part;
    QuotientIs(k, part, n / part, k - n);
  }

  /** Without Content-Range, a part that ends early is noticed by its length; only when the resource ends
      where a part does, the next request finds nothing more. */
  lemma {:induction false} ServedShort(cfg: Config, s: State, answers: seq<Answer>, resource: Body)
    requires Proper(cfg, s) && s.at.Fetching? && s.at.data <= resource && Served(cfg, s, answers, resource, Omitting)
    requires s.at.total.Some? && s.at.total.value > |resource| && !Exceeds(cfg, s.at.total.value) && s.size == s.at.total.value
    requires |answers| > |resource| - |s.at.data| && |s.at.data| % cfg.part == 0
    ensures Run(cfg, s, answers)
         == State(Refused(if |resource| % cfg.part == 0 then TotalChanged else WrongLength), s.size)
    decreases |answers|
  {
    var s', k := Exchange(cfg, s, answers[0]), |s.at.data|;
    if k == |resource| {
      OverStays(cfg, s', answers[1..]);
    } else if k + cfg.part <= |resource| {
      ServedPart(cfg, s, resource, Omitting);
      OneMorePart(k, cfg.part);
      ServedShort(cfg, s', answers[1..], resource);
    } else {
      ServedPart(cfg, s, resource, Omitting);
      ShortPart(k, cfg.part, |resource|);
      OverStays(cfg, s', answers[1..]);
    }
  }

  /** The first part settles the total, unless it is all there is or too much. */
  lemma FirstPart(cfg: Config, declared: nat, resource: Body)
    requires cfg.part > 0 && resource != []
    ensures var s := Start(declared);
            var s' := Exchange(cfg, s, Serve(resource, Telling, AskOf(cfg, s)));
            if s'.at.Fetching? then
              && Proper(cfg, s') && s'.at.data <= resource && |s'.at.data| >= 1
              && s'.at.total == Some(|resource|) && !Exceeds(cfg, |resource|)
            else
              && s'.at == Delivered(cfg, resource, Assembled(resource))
              && (s'.at.Refused? ==> s'.size == declared)
  {
    ServedPart(cfg, Start(declared), resource, Telling);
  }

  lemma ServedFirst(cfg: Config, declared: nat, answers: seq<Answer>, resource: Body)
    requires cfg.part > 0 && resource != [] && Served(cfg, Start(declared), answers, resource, Telling)
    requires |answers| > |resource|
    ensures Run(cfg, Start(declared), answers).at == Delivered(cfg, resource, Assembled(resource))
    ensures Run(cfg, Start(declared), answers).at.Refused? ==> Run(cfg, Start(declared), answers).size == declared
  {
    FirstPart(cfg, declared, resource);
    var s' := Exchange(cfg, Start(declared), answers[0]);
    if s'.at.Fetching? {
      ServedToTheTotal(cfg, s', answers[1..], resource, Telling);
      assert resource[..|resource|] == resource;
    } else {
      OverStays(cfg, s', answers[1..]);
    }
  }

  lemma ServedNothing(cfg: Config, declared: nat, answers: seq<Answer>, manner: Manner)
    requires cfg.part > 0 && Served(cfg, Start(declared), answers, [], manner) && |answers| >= 2 && manner != Ignoring
    ensures Run(cfg, Start(declared), answers) == State(if declared == 0 then Whole([]) else Refused(TotalChanged), declared)
  {
    var s := Exchange(cfg, Start(declared), answers[0]);
    var s' := Exchange(cfg, s, answers[1]);
    assert answers[1..][0] == answers[1];
    OverStays(cfg, s', answers[1..][1..]);
  }

  lemma ServedWhole(cfg: Config, declared: nat, answers: seq<Answer>, resource: Body)
    requires cfg.part > 0 && Served(cfg, Start(declared), answers, resource, Ignoring) && answers != []
    ensures Run(cfg, Start(declared), answers) == Expected(cfg, declared, resource, Ignoring)
  {
    assert answers == [answers[0]] + answers[1..];
    CompleteReplyEnds(cfg, Start(declared), Absent, resource, answers[1..]);
  }

  /** Without a declared size, a part that names no range cannot be placed. */
  lemma ServedUnplaced(cfg: Config, answers: seq<Answer>, resource: Body)
    requires cfg.part > 0 && resource != [] && Served(cfg, Start(0), answers, resource, Omitting) && answers != []
    ensures Run(cfg, Start(0), answers) == State(Refused(InvalidRange), 0)
  {
    OverStays(cfg, Exchange(cfg, Start(0), answers[0]), answers[1..]);
  }

  lemma PhaseIsExpected(cfg: Config, declared: nat, answers: seq<Answer>, resource: Body, manner: Manner)
    requires cfg.part > 0 && (cfg.max.Some? ==> declared <= cfg.max.value)
    requires Served(cfg, Start(declared), answers, resource, manner) && |answers| >= |resource| + 2
    ensures var s := Run(cfg, Start(declared), answers);
            s.at == ExpectedPhase(cfg, declared, resource, manner) && (s.at.Refused? ==> s.size == declared)
  {
    if manner == Ignoring {
      ServedWhole(cfg, declared, answers, resource);
    } else if resource == [] {
      ServedNothing(cfg, declared, answers, manner);
    } else if manner == Telling {
      ServedFirst(cfg, declared, answers, resource);
    } else if declared == 0 {
      if manner == Omitting {
        ServedUnplaced(cfg, answers, resource);
      } else {
        ServedBlindly(cfg, Start(declared), answers, resource);
      }
    } else if declared <= |resource| {
      ServedToTheTotal(cfg, Start(declared), answers, resource, manner);
    } else if manner == Withholding {
      ServedTooLittle(cfg, Start(declared), answers, resource);
    } else {
      ServedShort(cfg, Start(declared), answers, resource);
    }
  }

  /** Downloading from a server of any of these manners: exactly when all of the resource is delivered,
      what happens otherwise, and what media_size is then. */
  lemma DownloadIsExpected(cfg: Config, declared: nat, answers: seq<Answer>, resource: Body, manner: Manner)
    requires cfg.part > 0 && (cfg.max.Some? ==> declared <= cfg.max.value)
    requires Served(cfg, Start(declared), answers, resource, manner) && |answers| >= |resource| + 2
    ensures Run(cfg, Start(declared), answers) == Expected(cfg, declared, resource, manner)
  {
    PhaseIsExpected(cfg, declared, answers, resource, manner);
    ContentIsBounded(cfg, declared, answers);
  }
}
