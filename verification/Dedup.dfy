/** Deduplication by exact sets: the memory filter of scrapy_cffi/dupefilter/base.py and the Redis SET
    script of scrapy_cffi/repo/redis.py, sharded over cluster nodes, against one pair of sets. */
module Dedup {
  import opened Common
  import JumpHash
  import opened DedupRouting

  datatype Request = Request(fingerprint: string, dontFilter: bool)

  /** What the scheduler asks of its filter: put() a request, or record that it was sent. */
  datatype Call = Put(r: Request) | Sent(r: Request)

  /** The specification: what has been offered, and what has been sent. */
  datatype Pair = Pair(newSeen: set<string>, sentSeen: set<string>)

  const NOTHING := Pair({}, {})

  predicate Fresh(p: Pair, fp: string) {
    fp !in p.newSeen && fp !in p.sentSeen
  }

  function Offered(p: Pair, fp: string): Pair {
    p.(newSeen := p.newSeen + {fp})
  }

  function Recorded(p: Pair, r: Request): Pair {
    if r.dontFilter then p else p.(sentSeen := p.sentSeen + {r.fingerprint})
  }

  /** The pair after a call, and whether the call's request is accepted. */
  function After(p: Pair, c: Call): Pair {
    match c
    case Put(r) => if r.dontFilter then p else Offered(p, r.fingerprint)
    case Sent(r) => Recorded(p, r)
  }

  predicate Accepts(p: Pair, c: Call) {
    c.Put? && (c.r.dontFilter || Fresh(p, c.r.fingerprint))
  }

  function Answers(p: Pair, calls: seq<Call>): seq<bool>
    decreases |calls|
  {
    if calls == [] then [] else [Accepts(p, calls[0])] + Answers(After(p, calls[0]), calls[1..])
  }

  // ------------------------------------------------------------ memory

  class MemoryDupeFilter {
    var newSeen: set<string>
    var sentSeen: set<string>

    ghost function View(): Pair
      reads this
    {
      Pair(newSeen, sentSeen)
    }

    constructor ()
      ensures View() == NOTHING
    {
      newSeen, sentSeen := {}, {};
    }

    /** request_seen; it does not look at dont_filter. */
    method RequestSeen(request: Request) returns (seen: bool)
      modifies this`newSeen
      ensures View() == Offered(old(View()), request.fingerprint)
      ensures seen <==> !Fresh(old(View()), request.fingerprint)
    {
      if request.fingerprint in newSeen {
        assert newSeen == newSeen + {request.fingerprint};
        return true;
      }
      newSeen := newSeen + {request.fingerprint};
      seen := request.fingerprint in sentSeen;
    }

    method MarkSent(request: Request)
      modifies this`sentSeen
      ensures View() == Recorded(old(View()), request)
    {
      if !request.dontFilter {
        sentSeen := sentSeen + {request.fingerprint};
      }
    }
  }

  /** Scheduler of scrapy_cffi/core/scheduler/base.py: one queue per key behind the filter's lock. */
  class LocalScheduler {
    const dupefilter: MemoryDupeFilter
    var queues: map<string, seq<Request>>

    constructor (keys: set<string>)
      ensures dupefilter.View() == NOTHING && fresh(dupefilter)
      ensures queues.Keys == keys && forall key :: key in keys ==> queues[key] == []
    {
      dupefilter := new MemoryDupeFilter();
      queues := map key | key in keys :: [];
    }

    method Enqueue(request: Request, key: string)
      requires key in queues
      modifies this`queues
      ensures queues == old(queues)[key := old(queues)[key] + [request]]
    {
      queues := queues[key := queues[key] + [request]];
    }

    /** put(): a rejected request goes nowhere (its session is released). */
    method Put(request: Request, key: string) returns (accepted: bool)
      requires key in queues
      modifies this`queues, dupefilter
      ensures accepted <==> Accepts(old(dupefilter.View()), Call.Put(request))
      ensures dupefilter.View() == After(old(dupefilter.View()), Call.Put(request))
      ensures queues == if accepted then old(queues)[key := old(queues)[key] + [request]] else old(queues)
    {
      if request.dontFilter {
        Enqueue(request, key);
        return true;
      }
      var seen := dupefilter.RequestSeen(request);
      if seen {
        return false;
      }
      Enqueue(request, key);
      accepted := true;
    }

    /** get(), once the queue is not empty. */
    method Get(key: string) returns (request: Request)
      requires key in queues && queues[key] != []
      modifies this`queues
      ensures queues == old(queues)[key := old(queues)[key][1..]] && request == old(queues)[key][0]
    {
      request := queues[key][0];
      queues := queues[key := queues[key][1..]];
    }
  }

  // ------------------------------------------------------------ Redis

  /** Redis drops a set with its last member. */
  ghost predicate NoEmptySets(sets: map<string, set<string>>) {
    forall key :: key in sets ==> sets[key] != {}
  }

  function Members(sets: map<string, set<string>>, key: string): set<string> {
    if key in sets then sets[key] else {}
  }

  /** What the script of do_filter does when it has run. */
  function Scripted(sets: map<string, set<string>>, fp: string, keys: DedupKeys): map<string, set<string>> {
    sets[keys.newSeen := Members(sets, keys.newSeen) + {fp}]
  }

  predicate ScriptAccepts(sets: map<string, set<string>>, fp: string, keys: DedupKeys) {
    fp !in Members(sets, keys.newSeen) && fp !in Members(sets, keys.sentSeen)
  }

  lemma ProbeUndone(sets: map<string, set<string>>, key: string, fp: string)
    requires NoEmptySets(sets) && fp !in Members(sets, key)
    ensures var probed := sets[key := Members(sets, key) + {fp}];
            (if Members(probed, key) <= {fp} then probed - {key} else probed[key := Members(probed, key) - {fp}]) == sets
  {
    var members := Members(sets, key);
    assert members + {fp} - {fp} == members;
    if members + {fp} <= {fp} {
      assert members <= members + {fp};
      assert members == {};
    }
  }

  class RedisServer {
    var sets: map<string, set<string>>

    constructor ()
      ensures sets == map[]
    {
      sets := map[];
    }

    method Sadd(key: string, member: string) returns (added: nat)
      modifies this
      ensures sets == old(sets)[key := Members(old(sets), key) + {member}]
      ensures added == if member in Members(old(sets), key) then 0 else 1
    {
      added := if key in sets && member in sets[key] then 0 else 1;
      sets := sets[key := (if key in sets then sets[key] else {}) + {member}];
    }

    method Srem(key: string, member: string)
      modifies this
      ensures sets == if Members(old(sets), key) <= {member} then old(sets) - {key}
                      else old(sets)[key := Members(old(sets), key) - {member}]
    {
      if key in sets {
        var rest := sets[key] - {member};
        sets := if rest == {} then sets - {key} else sets[key := rest];
      }
    }

    /** The Lua script of do_filter, which Redis runs as one step: probing the sent set by adding and
        removing leaves it exactly as it was. */
    method DoFilter(fingerprint: string, keys: DedupKeys) returns (isNew: nat)
      requires NoEmptySets(sets) && keys.newSeen != keys.sentSeen
      modifies this
      ensures NoEmptySets(sets)
      ensures sets == Scripted(old(sets), fingerprint, keys)
      ensures isNew == if ScriptAccepts(old(sets), fingerprint, keys) then 1 else 0
    {
      ghost var before := sets;
      var added := Sadd(keys.newSeen, fingerprint);
      if added == 1 {
        ghost var offered := sets;
        added := Sadd(keys.sentSeen, fingerprint);
        if added == 1 {
          Srem(keys.sentSeen, fingerprint);
          ProbeUndone(offered, keys.sentSeen, fingerprint);
          return 1;
        }
        assert Members(offered, keys.sentSeen) + {fingerprint} == Members(offered, keys.sentSeen);
        assert sets == offered;
      }
      isNew := 0;
    }
  }

  function ShardedAfter(router: Router, hash: string -> JumpHash.Key, sets: map<string, set<string>>, c: Call)
    : map<string, set<string>>
  {
    var keys := ForFingerprint(router, hash(c.r.fingerprint));
    if c.r.dontFilter then sets
    else if c.Put? then Scripted(sets, c.r.fingerprint, keys)
    else sets[keys.sentSeen := Members(sets, keys.sentSeen) + {c.r.fingerprint}]
  }

  predicate ShardedAccepts(router: Router, hash: string -> JumpHash.Key, sets: map<string, set<string>>, c: Call) {
    c.Put? && (c.r.dontFilter || ScriptAccepts(sets, c.r.fingerprint, ForFingerprint(router, hash(c.r.fingerprint))))
  }

  lemma PairIsTwoKeys(router: Router, hash: JumpHash.Key)
    ensures ForFingerprint(router, hash).newSeen != ForFingerprint(router, hash).sentSeen
  {
    BasesDiffer(router.filterKey, SuffixOf(router), SuffixOf(router));
    if IsCluster(router) {
      var node := router.nodes[JumpHash.Bucket(hash, 0, |router.nodes|)];
      KeysAreDistinct(router, node, node);
    }
  }

  /** RedisDupeFilter: a fingerprint's keys depend on its hash alone. */
  class RedisDupeFilter {
    const router: Router
    const hash: string -> JumpHash.Key
    const server: RedisServer

    constructor (router: Router, hash: string -> JumpHash.Key, server: RedisServer)
      ensures this.router == router && this.hash == hash && this.server == server
    {
      this.router, this.hash, this.server := router, hash, server;
    }

    function KeysOf(fp: string): DedupKeys {
      ForFingerprint(router, hash(fp))
    }

    method RequestSeen(request: Request) returns (seen: bool)
      requires NoEmptySets(server.sets)
      modifies server
      ensures NoEmptySets(server.sets)
      ensures server.sets == ShardedAfter(router, hash, old(server.sets), Put(request))
      ensures seen <==> !ShardedAccepts(router, hash, old(server.sets), Put(request))
    {
      if request.dontFilter {
        return false;
      }
      PairIsTwoKeys(router, hash(request.fingerprint));
      var isNew := server.DoFilter(request.fingerprint, KeysOf(request.fingerprint));
      seen := isNew == 0;
    }

    method MarkSent(request: Request)
      requires NoEmptySets(server.sets)
      modifies server
      ensures NoEmptySets(server.sets)
      ensures server.sets == ShardedAfter(router, hash, old(server.sets), Sent(request))
    {
      if !request.dontFilter {
        var _ := server.Sadd(KeysOf(request.fingerprint).sentSeen, request.fingerprint);
      }
    }
  }

  function ShardedAnswers(router: Router, hash: string -> JumpHash.Key, sets: map<string, set<string>>, calls: seq<Call>): seq<bool>
    decreases |calls|
  {
    if calls == [] then []
    else [ShardedAccepts(router, hash, sets, calls[0])]
         + ShardedAnswers(router, hash, ShardedAfter(router, hash, sets, calls[0]), calls[1..])
  }

  // ------------------------------------------------------------ refinement

  /** Spread over all shards, the sets hold what the pair holds. */
  ghost predicate Represents(router: Router, hash: string -> JumpHash.Key, sets: map<string, set<string>>, p: Pair) {
    forall fp: string ::
      var keys := ForFingerprint(router, hash(fp));
      && (fp in Members(sets, keys.newSeen) <==> fp in p.newSeen)
      && (fp in Members(sets, keys.sentSeen) <==> fp in p.sentSeen)
  }

  lemma CallKeepsRepresentation(router: Router, hash: string -> JumpHash.Key, sets: map<string, set<string>>, p: Pair, c: Call)
    requires Represents(router, hash, sets, p)
    ensures Represents(router, hash, ShardedAfter(router, hash, sets, c), After(p, c))
    ensures ShardedAccepts(router, hash, sets, c) <==> Accepts(p, c)
  {
    PairIsTwoKeys(router, hash(c.r.fingerprint));
    var sets', p' := ShardedAfter(router, hash, sets, c), After(p, c);
    forall fp: string
      ensures var keys := ForFingerprint(router, hash(fp));
              && (fp in Members(sets', keys.newSeen) <==> fp in p'.newSeen)
              && (fp in Members(sets', keys.sentSeen) <==> fp in p'.sentSeen)
    {
      var keys := ForFingerprint(router, hash(fp));
      assert fp in Members(sets, keys.newSeen) <==> fp in p.newSeen;
    }
  }

  /** For every sequence of calls the sharded Redis filter gives the answers of the one pair of sets. */
  lemma {:induction false} ShardsAnswerAlike(router: Router, hash: string -> JumpHash.Key,
                                             sets: map<string, set<string>>, p: Pair, calls: seq<Call>)
    requires Represents(router, hash, sets, p)
    ensures ShardedAnswers(router, hash, sets, calls) == Answers(p, calls)
    decreases |calls|
  {
    if calls != [] {
      CallKeepsRepresentation(router, hash, sets, p, calls[0]);
      ShardsAnswerAlike(router, hash, ShardedAfter(router, hash, sets, calls[0]), After(p, calls[0]), calls[1..]);
    }
  }

  lemma FreshRedisAnswersLikeMemory(router: Router, hash: string -> JumpHash.Key, calls: seq<Call>)
    ensures ShardedAnswers(router, hash, map[], calls) == Answers(NOTHING, calls)
  {
    ShardsAnswerAlike(router, hash, map[], NOTHING, calls);
  }

  /** Asked directly, without the scheduler in front, the two filters part over dont_filter: the memory
      filter records such a request, and rejects it when it is not fresh. */
  lemma DirectCallsDiffer(p: Pair, r: Request)
    ensures Fresh(p, r.fingerprint) == Accepts(p, Put(r)) <==> !r.dontFilter || Fresh(p, r.fingerprint)
    ensures Offered(p, r.fingerprint) == After(p, Put(r)) <==> !r.dontFilter || r.fingerprint in p.newSeen
  {
    if r.fingerprint in p.newSeen {
      assert p.newSeen + {r.fingerprint} == p.newSeen;
    } else {
      assert r.fingerprint in Offered(p, r.fingerprint).newSeen;
    }
  }

  // ------------------------------------------------------------ at most once

  predicate Mentions(c: Call, fp: string) {
    !c.r.dontFilter && c.r.fingerprint == fp
  }

  predicate Mentioned(calls: seq<Call>, fp: string) {
    exists k :: 0 <= k < |calls| && Mentions(calls[k], fp)
  }

  lemma {:induction false} LengthOfAnswers(p: Pair, calls: seq<Call>)
    ensures |Answers(p, calls)| == |calls|
    decreases |calls|
  {
    if calls != [] {
      LengthOfAnswers(After(p, calls[0]), calls[1..]);
    }
  }

  lemma MentionedInFront(c: Call, rest: seq<Call>, fp: string)
    ensures Mentioned([c] + rest, fp) <==> Mentions(c, fp) || Mentioned(rest, fp)
  {
    assert ([c] + rest)[0] == c;
    assert forall k :: 0 <= k < |rest| ==> ([c] + rest)[k + 1] == rest[k];
  }

  lemma {:induction false} AnswerAt(p: Pair, calls: seq<Call>, i: nat)
    requires i < |calls|
    ensures |Answers(p, calls)| == |calls|
    ensures var c := calls[i];
            Answers(p, calls)[i] <==>
              c.Put? && (c.r.dontFilter || (Fresh(p, c.r.fingerprint) && !Mentioned(calls[..i], c.r.fingerprint)))
    decreases |calls|
  {
    var c, rest := calls[i], calls[1..];
    if i == 0 {
      LengthOfAnswers(p, calls);
    } else {
      AnswerAt(After(p, calls[0]), rest, i - 1);
      assert rest[i - 1] == c;
      assert calls[..i] == [calls[0]] + rest[..i - 1];
      MentionedInFront(calls[0], rest[..i - 1], c.r.fingerprint);
    }
  }

  /** From the empty filter a request is accepted exactly when no earlier call offered it or recorded
      it as sent; so no fingerprint is ever accepted twice. */
  lemma AcceptedExactlyWhenNew(calls: seq<Call>, i: nat, j: nat)
    requires i < |calls| && j < |calls| && calls[i].Put? && !calls[i].r.dontFilter
    ensures |Answers(NOTHING, calls)| == |calls|
    ensures Answers(NOTHING, calls)[i] <==> !Mentioned(calls[..i], calls[i].r.fingerprint)
    ensures calls[j].r == calls[i].r && Answers(NOTHING, calls)[i] && Answers(NOTHING, calls)[j] ==> i == j
  {
    AnswerAt(NOTHING, calls, i);
    AnswerAt(NOTHING, calls, j);
    assert i < j ==> calls[..j][i] == calls[i];
    assert j < i ==> calls[..i][j] == calls[j];
  }

  /** The retry policy may run the script again when only its reply was lost. */
  function Repeated(sets: map<string, set<string>>, fp: string, keys: DedupKeys, times: nat): map<string, set<string>> {
    if times == 0 then sets else Scripted(Repeated(sets, fp, keys, times - 1), fp, keys)
  }

  /** Then the sets end up as after one run, but the answer that arrives is a rejection: a retried
      script can lose a request, and can never let one through twice. */
  lemma {:induction false} RetriedScriptOnlyRejects(sets: map<string, set<string>>, fp: string, keys: DedupKeys, times: nat)
    requires times >= 1 && keys.newSeen != keys.sentSeen
    ensures Repeated(sets, fp, keys, times) == Scripted(sets, fp, keys)
    ensures ScriptAccepts(Repeated(sets, fp, keys, times - 1), fp, keys) <==> times == 1 && ScriptAccepts(sets, fp, keys)
  {
    if times > 1 {
      RetriedScriptOnlyRejects(sets, fp, keys, times - 1);
      var once := Scripted(sets, fp, keys);
      assert Members(once, keys.newSeen) + {fp} == Members(once, keys.newSeen);
    }
  }
}
