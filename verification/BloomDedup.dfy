/** Deduplication by Bloom filters: BloomDupeFilter of scrapy_cffi/dupefilter/base.py and the bitmap
    script of scrapy_cffi/repo/redis.py, on one bitmap pair, against the exact sets. */
module BloomDedup {
  import opened Common
  import opened Dedup
  import opened BloomFilters

  /** The positions set in the two bitmaps. */
  datatype Bitmaps = Bitmaps(newBits: set<nat>, sentBits: set<nat>)

  const BLANK := Bitmaps({}, {})

  /** Neither bitmap has all positions of a value. */
  predicate Unseen(b: Bitmaps, positions: set<nat>) {
    !(positions <= b.newBits) && !(positions <= b.sentBits)
  }

  // ------------------------------------------------------------ the local filter

  function LocalOffered(b: Bitmaps, positions: set<nat>): Bitmaps {
    b.(newBits := b.newBits + positions)
  }

  function Marked(b: Bitmaps, positions: set<nat>): Bitmaps {
    b.(sentBits := b.sentBits + positions)
  }

  class BloomDupeFilter {
    const newSeen: BloomFilter
    const sentSeen: BloomFilter

    ghost predicate Valid()
      reads this, newSeen, newSeen.bitArray, sentSeen, sentSeen.bitArray
    {
      && newSeen.Valid() && sentSeen.Valid() && newSeen.size == sentSeen.size
      && newSeen != sentSeen && newSeen.bitArray != sentSeen.bitArray
    }

    ghost function View(): Bitmaps
      reads this, newSeen, newSeen.bitArray, sentSeen, sentSeen.bitArray
    {
      Bitmaps(Bits(newSeen.bitArray[..]), Bits(sentSeen.bitArray[..]))
    }

    constructor (size: nat)
      requires size > 0
      ensures Valid() && View() == BLANK && fresh(newSeen) && fresh(sentSeen)
    {
      newSeen := new BloomFilter(size, true);
      sentSeen := new BloomFilter(size, true);
    }

    /** request_seen: the new bits are set before the sent bits are looked at. */
    method RequestSeen(indices: seq<nat>) returns (seen: bool)
      requires Valid() && forall i :: i in indices ==> i < newSeen.size
      modifies newSeen`inserted, newSeen.bitArray
      ensures Valid()
      ensures View() == LocalOffered(old(View()), Elements(indices))
      ensures seen <==> !Unseen(old(View()), Elements(indices))
    {
      seen := newSeen.Exists(indices);
      if seen {
        assert Bits(newSeen.bitArray[..]) + Elements(indices) == Bits(newSeen.bitArray[..]);
        return;
      }
      newSeen.Add(indices);
      seen := sentSeen.Exists(indices);
    }

    method MarkSent(indices: seq<nat>)
      requires Valid() && forall i :: i in indices ==> i < sentSeen.size
      modifies sentSeen`inserted, sentSeen.bitArray
      ensures Valid()
      ensures View() == Marked(old(View()), Elements(indices))
    {
      sentSeen.Add(indices);
    }
  }

  // ------------------------------------------------------------ the script

  function ScriptOffered(b: Bitmaps, positions: set<nat>): Bitmaps {
    if Unseen(b, positions) then b.(newBits := b.newBits + positions) else b
  }

  /** One of the two probing loops of do_bloom_filter; an empty list leaves the flag as it was. */
  method AnyMissing(bits: set<nat>, indices: seq<nat>, flag: nat) returns (isNew: nat)
    requires flag == 1
    ensures isNew == if indices == [] || !(Elements(indices) <= bits) then 1 else 0
  {
    isNew := flag;
    for i := 0 to |indices|
      invariant Elements(indices[..i]) <= bits
      invariant isNew == if i == 0 then 1 else 0
    {
      if indices[i] !in bits {
        assert indices[i] in Elements(indices);
        return 1;
      }
      isNew := 0;
      ElementsAppend(indices[..i], indices[i]);
      assert indices[..i + 1] == indices[..i] + [indices[i]];
    }
    assert indices[..|indices|] == indices;
  }

  class RedisBitmaps {
    var newBits: set<nat>
    var sentBits: set<nat>

    ghost function View(): Bitmaps
      reads this
    {
      Bitmaps(newBits, sentBits)
    }

    constructor ()
      ensures View() == BLANK
    {
      newBits, sentBits := {}, {};
    }

    /** The Lua script of do_bloom_filter, run as one step: bits are set only for accepted values. */
    method DoBloomFilter(indices: seq<nat>) returns (isNew: nat)
      requires indices != []
      modifies this
      ensures View() == ScriptOffered(old(View()), Elements(indices))
      ensures isNew == if Unseen(old(View()), Elements(indices)) then 1 else 0
    {
      isNew := AnyMissing(newBits, indices, 1);
      if isNew == 1 {
        isNew := AnyMissing(sentBits, indices, isNew);
      }
      if isNew == 1 {
        for i := 0 to |indices|
          invariant sentBits == old(sentBits)
          invariant newBits == old(newBits) + Elements(indices[..i])
        {
          newBits := newBits + {indices[i]};
          ElementsAppend(indices[..i], indices[i]);
          assert indices[..i + 1] == indices[..i] + [indices[i]];
        }
        assert indices[..|indices|] == indices;
      }
    }

    /** mark_sent: a pipeline of SETBIT commands. */
    method MarkSent(indices: seq<nat>)
      modifies this`sentBits
      ensures View() == Marked(old(View()), Elements(indices))
    {
      for i := 0 to |indices|
        invariant sentBits == old(sentBits) + Elements(indices[..i])
      {
        sentBits := sentBits + {indices[i]};
        ElementsAppend(indices[..i], indices[i]);
        assert indices[..i + 1] == indices[..i] + [indices[i]];
      }
      assert indices[..|indices|] == indices;
    }
  }

  // ------------------------------------------------------------ runs

  /** The positions of each fingerprint's value. */
  type Positions = string -> set<nat>

  ghost function LocalAfter(derive: Positions, b: Bitmaps, c: Call): Bitmaps {
    if c.r.dontFilter then b
    else if c.Put? then LocalOffered(b, derive(c.r.fingerprint)) else Marked(b, derive(c.r.fingerprint))
  }

  ghost function ScriptAfter(derive: Positions, b: Bitmaps, c: Call): Bitmaps {
    if c.r.dontFilter then b
    else if c.Put? then ScriptOffered(b, derive(c.r.fingerprint)) else Marked(b, derive(c.r.fingerprint))
  }

  ghost predicate BloomAccepts(derive: Positions, b: Bitmaps, c: Call) {
    c.Put? && (c.r.dontFilter || Unseen(b, derive(c.r.fingerprint)))
  }

  ghost function LocalAnswers(derive: Positions, b: Bitmaps, calls: seq<Call>): seq<bool>
    decreases |calls|
  {
    if calls == [] then []
    else [BloomAccepts(derive, b, calls[0])] + LocalAnswers(derive, LocalAfter(derive, b, calls[0]), calls[1..])
  }

  ghost function ScriptAnswers(derive: Positions, b: Bitmaps, calls: seq<Call>): seq<bool>
    decreases |calls|
  {
    if calls == [] then []
    else [BloomAccepts(derive, b, calls[0])] + ScriptAnswers(derive, ScriptAfter(derive, b, calls[0]), calls[1..])
  }

  // ------------------------------------------------------------ the order of the three filters

  /** The script has set no bit that the local filter has not set; the sent bits are the same. */
  predicate Within(script: Bitmaps, local: Bitmaps) {
    script.newBits <= local.newBits && script.sentBits == local.sentBits
  }

  /** What the exact sets know, the script's bitmaps show. */
  ghost predicate Covers(derive: Positions, script: Bitmaps, p: Pair) {
    && (forall fp :: fp in p.newSeen ==> derive(fp) <= script.newBits || derive(fp) <= script.sentBits)
    && (forall fp :: fp in p.sentSeen ==> derive(fp) <= script.sentBits)
  }

  lemma CallKeepsWithin(derive: Positions, script: Bitmaps, local: Bitmaps, c: Call)
    requires Within(script, local)
    ensures Within(ScriptAfter(derive, script, c), LocalAfter(derive, local, c))
    ensures BloomAccepts(derive, local, c) ==> BloomAccepts(derive, script, c)
  {
  }

  lemma CallKeepsCover(derive: Positions, script: Bitmaps, p: Pair, c: Call)
    requires Covers(derive, script, p)
    ensures Covers(derive, ScriptAfter(derive, script, c), After(p, c))
    ensures BloomAccepts(derive, script, c) ==> Accepts(p, c)
  {
  }

  /** On every sequence of calls: whatever the local Bloom filter accepts the script accepts, and
      whatever the script accepts the exact sets accept. */
  lemma {:induction false} FiltersAreOrdered(derive: Positions, local: Bitmaps, script: Bitmaps, p: Pair, calls: seq<Call>, i: nat)
    requires Within(script, local) && Covers(derive, script, p) && i < |calls|
    ensures |LocalAnswers(derive, local, calls)| == |ScriptAnswers(derive, script, calls)| == |Answers(p, calls)| == |calls|
    ensures LocalAnswers(derive, local, calls)[i] ==> ScriptAnswers(derive, script, calls)[i]
    ensures ScriptAnswers(derive, script, calls)[i] ==> Answers(p, calls)[i]
    decreases |calls|
  {
    var c := calls[0];
    CallKeepsWithin(derive, script, local, c);
    CallKeepsCover(derive, script, p, c);
    if |calls| > 1 {
      FiltersAreOrdered(derive, LocalAfter(derive, local, c), ScriptAfter(derive, script, c), After(p, c), calls[1..],
                        if i == 0 then 0 else i - 1);
    }
  }

  /** So neither Bloom filter accepts a fingerprint twice, nor one that was recorded as sent. */
  lemma NeverAcceptedTwice(derive: Positions, calls: seq<Call>, i: nat, j: nat)
    requires i < j < |calls| && calls[j].Put? && !calls[j].r.dontFilter && Mentions(calls[i], calls[j].r.fingerprint)
    ensures |LocalAnswers(derive, BLANK, calls)| == |ScriptAnswers(derive, BLANK, calls)| == |calls|
    ensures !LocalAnswers(derive, BLANK, calls)[j] && !ScriptAnswers(derive, BLANK, calls)[j]
  {
    FiltersAreOrdered(derive, BLANK, BLANK, NOTHING, calls, j);
    AcceptedExactlyWhenNew(calls, j, j);
    assert calls[..j][i] == calls[i];
  }

  // ------------------------------------------------------------ when the two Bloom filters differ

  /** Requests are recorded as sent only after they were offered. */
  predicate SentAfterPut(offered: set<string>, calls: seq<Call>)
    decreases |calls|
  {
    calls != [] ==>
      && (calls[0].Sent? && !calls[0].r.dontFilter ==> calls[0].r.fingerprint in offered)
      && SentAfterPut(if calls[0].Put? && !calls[0].r.dontFilter then offered + {calls[0].r.fingerprint} else offered, calls[1..])
  }

  /** Then the order in which the two set their bits makes no difference. */
  lemma {:induction false} AlikeWhenSentAfterPut(derive: Positions, b: Bitmaps, offered: set<string>, calls: seq<Call>)
    requires SentAfterPut(offered, calls) && b.sentBits <= b.newBits
    requires forall fp :: fp in offered ==> derive(fp) <= b.newBits
    ensures ScriptAnswers(derive, b, calls) == LocalAnswers(derive, b, calls)
    decreases |calls|
  {
    if calls != [] {
      var c := calls[0];
      if c.Put? && !c.r.dontFilter {
        var positions := derive(c.r.fingerprint);
        assert Unseen(b, positions) || b.newBits + positions == b.newBits;
        AlikeWhenSentAfterPut(derive, LocalAfter(derive, b, c), offered + {c.r.fingerprint}, calls[1..]);
      } else {
        AlikeWhenSentAfterPut(derive, LocalAfter(derive, b, c), offered, calls[1..]);
      }
    }
  }

  const SENT_FIRST: seq<Call> :=
    [Sent(Request("x", false)), Put(Request("x", false)), Put(Request("z", false)), Put(Request("y", false))]

  function Overlapping(fp: string): set<nat> {
    if fp == "x" then {1, 2} else if fp == "z" then {3, 4} else {1, 3}
  }

  lemma LastAnswer(local: Bitmaps, script: Bitmaps, c: Call)
    ensures LocalAnswers(Overlapping, local, [c]) == [BloomAccepts(Overlapping, local, c)]
    ensures ScriptAnswers(Overlapping, script, [c]) == [BloomAccepts(Overlapping, script, c)]
  {
  }

  /** Otherwise they part: a value that was sent first leaves its new bits in the local filter alone,
      where they hide another value that the script still accepts. */
  lemma ScriptAcceptsMore()
    ensures |LocalAnswers(Overlapping, BLANK, SENT_FIRST)| == |ScriptAnswers(Overlapping, BLANK, SENT_FIRST)| == 4
    ensures !LocalAnswers(Overlapping, BLANK, SENT_FIRST)[3] && ScriptAnswers(Overlapping, BLANK, SENT_FIRST)[3]
  {
    var x, z, y := Overlapping("x"), Overlapping("z"), Overlapping("y");
    FiltersAreOrdered(Overlapping, BLANK, BLANK, NOTHING, SENT_FIRST, 3);
    var sent := Bitmaps({}, {1, 2});
    assert ScriptAfter(Overlapping, BLANK, SENT_FIRST[0]) == sent == LocalAfter(Overlapping, BLANK, SENT_FIRST[0]);
    var rest := SENT_FIRST[1..];
    assert rest[0] == SENT_FIRST[1] && rest[1..][0] == SENT_FIRST[2] && rest[1..][1..] == [SENT_FIRST[3]];
    assert ScriptAfter(Overlapping, sent, rest[0]) == sent;
    assert LocalAfter(Overlapping, sent, rest[0]) == Bitmaps({1, 2}, {1, 2});
    var local, script := Bitmaps({1, 2, 3, 4}, {1, 2}), Bitmaps({3, 4}, {1, 2});
    assert 3 !in sent.sentBits && 3 in z;
    assert Unseen(sent, z);
    assert ScriptAfter(Overlapping, sent, rest[1..][0]) == script;
    assert LocalAfter(Overlapping, Bitmaps({1, 2}, {1, 2}), rest[1..][0]) == local;
    assert 1 in y && 3 in y;
    assert Unseen(script, y) && !Unseen(local, y);
    LastAnswer(local, script, SENT_FIRST[3]);
  }
}
