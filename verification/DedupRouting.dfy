/** Names of the deduplication keys: DedupKeyRouter of scrapy_cffi/dupefilter/routing.py, over the
    names that scrapy_cffi/settings.py gives it. */
module DedupRouting {
  import opened Common
  import JumpHash

  datatype DedupKeys = DedupKeys(newSeen: string, sentSeen: string)

  /** FILTER_KEY, what distinguishes one spider's filter from another's, and the cluster's startup nodes. */
  datatype Router = Router(filterKey: string, namespace: string, algorithm: string, cluster: bool, nodes: seq<string>)

  function SuffixOf(r: Router): string {
    (if r.namespace == "" then "" else ":" + r.namespace) + (if r.algorithm == "" then "" else ":" + r.algorithm)
  }

  const NEW: string := "_new_seen"
  const SENT: string := "_sent_seen"

  function BaseNew(r: Router): string {
    r.filterKey + (NEW + SuffixOf(r))
  }

  function BaseSent(r: Router): string {
    r.filterKey + (SENT + SuffixOf(r))
  }

  predicate IsCluster(r: Router) {
    r.cluster && r.nodes != []
  }

  function HashTag(r: Router, node: string): string {
    "scrapy-cffi-dedup:" + BaseNew(r) + ":" + node
  }

  function Braced(tag: string): string {
    ":{" + tag + "}"
  }

  function KeysAt(r: Router, node: string): DedupKeys {
    var tail := Braced(HashTag(r, node));
    DedupKeys(BaseNew(r) + tail, BaseSent(r) + tail)
  }

  /** The key pair of a fingerprint, given its 64-bit hash. */
  function ForFingerprint(r: Router, hash: JumpHash.Key): DedupKeys {
    if IsCluster(r) then KeysAt(r, r.nodes[JumpHash.Bucket(hash, 0, |r.nodes|)])
    else DedupKeys(BaseNew(r), BaseSent(r))
  }

  function PairsOf(r: Router, nodes: seq<string>): seq<string> {
    if nodes == [] then []
    else PairsOf(r, nodes[..|nodes| - 1])
         + [KeysAt(r, nodes[|nodes| - 1]).newSeen, KeysAt(r, nodes[|nodes| - 1]).sentSeen]
  }

  /** cleanup_keys: both keys of every node, in order. */
  method CleanupKeys(r: Router) returns (out: seq<string>)
    ensures out == if IsCluster(r) then PairsOf(r, r.nodes) else [BaseNew(r), BaseSent(r)]
  {
    if !IsCluster(r) {
      return [BaseNew(r), BaseSent(r)];
    }
    out := [];
    for i := 0 to |r.nodes|
      invariant out == PairsOf(r, r.nodes[..i])
    {
      assert r.nodes[..i + 1][..i] == r.nodes[..i];
      var keys := KeysAt(r, r.nodes[i]);
      out := out + [keys.newSeen];
      out := out + [keys.sentSeen];
    }
    assert r.nodes[..|r.nodes|] == r.nodes;
  }

  lemma {:induction false} PairsHold(r: Router, nodes: seq<string>, i: nat)
    requires i < |nodes|
    ensures KeysAt(r, nodes[i]).newSeen in PairsOf(r, nodes) && KeysAt(r, nodes[i]).sentSeen in PairsOf(r, nodes)
    decreases |nodes|
  {
    var keys, last := KeysAt(r, nodes[|nodes| - 1]), [KeysAt(r, nodes[|nodes| - 1]).newSeen, KeysAt(r, nodes[|nodes| - 1]).sentSeen];
    assert last[0] == keys.newSeen && last[1] == keys.sentSeen;
    if i < |nodes| - 1 {
      PairsHold(r, nodes[..|nodes| - 1], i);
    }
  }

  /** Every key that a fingerprint can be routed to is deleted by a clean shutdown. */
  lemma CleanupCoversEveryFingerprint(r: Router, hash: JumpHash.Key)
    ensures var all := if IsCluster(r) then PairsOf(r, r.nodes) else [BaseNew(r), BaseSent(r)];
            ForFingerprint(r, hash).newSeen in all && ForFingerprint(r, hash).sentSeen in all
  {
    if IsCluster(r) {
      PairsHold(r, r.nodes, JumpHash.Bucket(hash, 0, |r.nodes|));
    }
  }

  // ------------------------------------------------------------ keys are kept apart

  /** The two names of a pair differ in the character after the filter key. */
  lemma BasesDiffer(f: string, newTail: string, sentTail: string)
    ensures f + (NEW + newTail) != f + (SENT + sentTail)
  {
    assert (f + (NEW + newTail))[|f| + 1] == 'n';
    assert (f + (SENT + sentTail))[|f| + 1] == 's';
  }

  lemma TailsCancel(a: string, x: string, y: string, b: string)
    requires a + (x + b) == a + (y + b)
    ensures x == y
  {
    assert |x| == |y|;
    assert x + b == (a + (x + b))[|a|..] == y + b;
    assert x == (x + b)[..|x|];
    assert y == (y + b)[..|y|];
  }

  lemma TailsAgree(a: string, x: string, y: string)
    requires a + x == a + y
    ensures x == y
  {
    assert x == (a + x)[|a|..];
    assert y == (a + y)[|a|..];
  }

  /** No two keys of different nodes or different kinds coincide. */
  lemma KeysAreDistinct(r: Router, node: string, other: string)
    ensures KeysAt(r, node).newSeen != KeysAt(r, other).sentSeen
    ensures KeysAt(r, node).newSeen == KeysAt(r, other).newSeen <==> node == other
    ensures KeysAt(r, node).sentSeen == KeysAt(r, other).sentSeen <==> node == other
  {
    var f, x, y := r.filterKey, Braced(HashTag(r, node)), Braced(HashTag(r, other));
    var front := ":{" + ("scrapy-cffi-dedup:" + BaseNew(r) + ":");
    assert x == front + (node + "}") && y == front + (other + "}");
    assert BaseNew(r) + x == f + (NEW + (SuffixOf(r) + x));
    assert BaseSent(r) + y == f + (SENT + (SuffixOf(r) + y));
    BasesDiffer(f, SuffixOf(r) + x, SuffixOf(r) + y);
    if BaseNew(r) + x == BaseNew(r) + y {
      TailsAgree(BaseNew(r), x, y);
      TailsCancel(front, node, other, "}");
    }
    if BaseSent(r) + x == BaseSent(r) + y {
      TailsAgree(BaseSent(r), x, y);
      TailsCancel(front, node, other, "}");
    }
  }

  lemma SuffixesDiffer(r: Router, o: Router)
    requires r.algorithm == o.algorithm && r.namespace != o.namespace
    ensures SuffixOf(r) != SuffixOf(o)
  {
    var a := if r.algorithm == "" then "" else ":" + r.algorithm;
    var x, y := if r.namespace == "" then "" else ":" + r.namespace, if o.namespace == "" then "" else ":" + o.namespace;
    assert |x| == |y| ==> r.namespace == x[if x == "" then 0 else 1..] && o.namespace == y[if y == "" then 0 else 1..];
    if x + a == y + a {
      TailsCancel("", x, y, a);
    }
  }

  lemma FrontsAgree(a: string, x: string, b: string, y: string)
    ensures a + x == b + y && |a| == |b| ==> a == b
  {
    assert (a + x)[..|a|] == a && (b + y)[..|b|] == b;
  }

  lemma BasesAreApart(r: Router, o: Router)
    requires r.filterKey == o.filterKey && r.algorithm == o.algorithm && r.namespace != o.namespace
    ensures BaseNew(r) != BaseNew(o) && BaseSent(r) != BaseSent(o) && BaseNew(r) != BaseSent(o)
  {
    var f, s, u := r.filterKey, SuffixOf(r), SuffixOf(o);
    SuffixesDiffer(r, o);
    if f + (NEW + s) == f + (NEW + u) {
      TailsAgree(f, NEW + s, NEW + u);
      TailsAgree(NEW, s, u);
    }
    if f + (SENT + s) == f + (SENT + u) {
      TailsAgree(f, SENT + s, SENT + u);
      TailsAgree(SENT, s, u);
    }
    BasesDiffer(f, s, u);
  }

  lemma KindsAreApart(r: Router, o: Router, x: string, y: string)
    requires r.filterKey == o.filterKey
    ensures BaseNew(r) + x != BaseSent(o) + y
  {
    var f := r.filterKey;
    assert BaseNew(r) + x == f + (NEW + (SuffixOf(r) + x)) && BaseSent(o) + y == f + (SENT + (SuffixOf(o) + y));
    BasesDiffer(f, SuffixOf(r) + x, SuffixOf(o) + y);
  }

  lemma TailLength(r: Router, node: string)
    ensures |Braced(HashTag(r, node))| == |BaseNew(r)| + |node| + 22
    ensures |BaseSent(r)| == |BaseNew(r)| + 1
  {
  }

  /** Filters of different namespaces share no key, in one Redis or at one node of a cluster. */
  lemma NamespacesAreApart(r: Router, o: Router, node: string)
    requires r.filterKey == o.filterKey && r.algorithm == o.algorithm && r.namespace != o.namespace
    ensures BaseNew(r) != BaseNew(o) && BaseSent(r) != BaseSent(o) && BaseNew(r) != BaseSent(o)
    ensures KeysAt(r, node).newSeen != KeysAt(o, node).newSeen
    ensures KeysAt(r, node).sentSeen != KeysAt(o, node).sentSeen
    ensures KeysAt(r, node).newSeen != KeysAt(o, node).sentSeen
  {
    BasesAreApart(r, o);
    var x, y := Braced(HashTag(r, node)), Braced(HashTag(o, node));
    KindsAreApart(r, o, x, y);
    TailLength(r, node);
    TailLength(o, node);
    FrontsAgree(BaseNew(r), x, BaseNew(o), y);
    FrontsAgree(BaseSent(r), x, BaseSent(o), y);
  }

  /** for_fingerprint, with the node that get_node chooses. */
  method RouteFingerprint(r: Router, hash: JumpHash.Key) returns (keys: DedupKeys, node: Option<string>)
    ensures keys == ForFingerprint(r, hash)
    ensures node.Some? <==> r.cluster && r.nodes != []
    ensures node.Some? ==> node.value == r.nodes[JumpHash.Bucket(hash, 0, |r.nodes|)] && keys == KeysAt(r, node.value)
    ensures node.None? ==> keys == DedupKeys(BaseNew(r), BaseSent(r))
  {
    if !IsCluster(r) {
      return DedupKeys(BaseNew(r), BaseSent(r)), None;
    }
    var chosen, index := JumpHash.GetNode(r.nodes, hash);
    return KeysAt(r, chosen), Some(chosen);
  }

  // ------------------------------------------------------------ one slot for both keys of a pair

  function Find(c: char, s: string, i: nat): (k: nat)
    requires i <= |s|
    ensures i <= k <= |s|
    decreases |s| - i
  {
    if i < |s| && s[i] != c then Find(c, s, i + 1) else i
  }

  lemma {:induction false} FindIsFirst(c: char, s: string, i: nat)
    requires i <= |s|
    ensures var k := Find(c, s, i); (k < |s| ==> s[k] == c) && forall j :: i <= j < k ==> s[j] != c
    decreases |s| - i
  {
    if i < |s| && s[i] != c {
      FindIsFirst(c, s, i + 1);
    }
  }

  /** The tag that an opening brace at `b` and a closing one at `e` enclose. */
  function Enclosed(s: string, b: nat, e: nat): Option<string>
    requires b < e <= |s|
  {
    if e == |s| || e == b + 1 then None else Some(s[b + 1..e])
  }

  /** The text between the first opening brace and the next closing one, unless it is empty. */
  function TagOf(s: string): Option<string> {
    var b := Find('{', s, 0);
    if b == |s| then None
    else Enclosed(s, b, Find('}', s, b + 1))
  }

  /** What Redis Cluster hashes to choose a key's slot (Redis Cluster specification, "Hash tags"). */
  function HashedText(key: string): string {
    if TagOf(key).Some? then TagOf(key).value else key
  }

  lemma {:induction false} FindIs(c: char, s: string, i: nat, k: nat)
    requires i <= k <= |s|
    requires forall j :: i <= j < k ==> s[j] != c
    requires k < |s| ==> s[k] == c
    ensures Find(c, s, i) == k
    decreases k - i
  {
    if i < k {
      FindIs(c, s, i + 1, k);
    }
  }

  lemma FindAcross(c: char, f: string, m: string, i: nat)
    requires i <= |f|
    ensures Find(c, f + m, i) == if Find(c, f, i) < |f| then Find(c, f, i) else |f| + Find(c, m, 0)
  {
    FindIsFirst(c, f, i);
    FindIsFirst(c, m, 0);
    var k := Find(c, f, i);
    FindIs(c, f + m, i, if k < |f| then k else |f| + Find(c, m, 0));
  }

  lemma FindBeyond(c: char, f: string, m: string, i: nat)
    requires i <= |m|
    ensures Find(c, f + m, |f| + i) == |f| + Find(c, m, i)
  {
    FindIsFirst(c, m, i);
    FindIs(c, f + m, |f| + i, |f| + Find(c, m, i));
  }

  lemma SliceBeyond(f: string, m: string, i: nat, j: nat)
    requires i <= j <= |m|
    ensures (f + m)[|f| + i..|f| + j] == m[i..j]
  {
  }

  lemma SliceAcross(f: string, m: string, i: nat, j: nat)
    requires i <= |f| && j <= |m|
    ensures (f + m)[i..|f| + j] == f[i..] + m[..j]
  {
  }

  lemma EnclosedBeyond(f: string, m: string, b: nat, e: nat)
    requires b < e <= |m|
    ensures Enclosed(f + m, |f| + b, |f| + e) == Enclosed(m, b, e)
  {
    SliceBeyond(f, m, b + 1, e);
  }

  lemma EnclosedInFront(f: string, m: string, b: nat, e: nat)
    requires b < e < |f|
    ensures Enclosed(f + m, b, e) == Enclosed(f, b, e)
  {
    assert (f + m)[b + 1..e] == f[b + 1..e];
  }

  /** A front without an opening brace does not matter. */
  lemma TagSkipsFront(f: string, m: string)
    requires Find('{', f, 0) == |f|
    ensures TagOf(f + m) == TagOf(m)
  {
    FindAcross('{', f, m, 0);
    var b := Find('{', m, 0);
    if b < |m| {
      FindBeyond('}', f, m, b + 1);
      EnclosedBeyond(f, m, b, Find('}', m, b + 1));
    }
  }

  /** The tag of `f + m` when the brace opened at `b` in `f` is closed at `e` in `m`. */
  function LeftOpenTag(f: string, m: string, b: nat, e: nat): Option<string>
    requires b < |f| && e <= |m|
  {
    if e == |m| || |f| + e == b + 1 then None else Some(f[b + 1..] + m[..e])
  }

  /** A brace opened in the front closes there, or after it. */
  lemma TagOpensInFront(f: string, m: string)
    requires Find('{', f, 0) < |f|
    ensures var b := Find('{', f, 0);
            var e := Find('}', f, b + 1);
            TagOf(f + m) == if e < |f| then TagOf(f) else LeftOpenTag(f, m, b, Find('}', m, 0))
  {
    var b := Find('{', f, 0);
    var e := Find('}', f, b + 1);
    FindAcross('{', f, m, 0);
    FindAcross('}', f, m, b + 1);
    if e < |f| {
      EnclosedInFront(f, m, b, e);
    } else {
      SliceAcross(f, m, b + 1, Find('}', m, 0));
    }
  }

  lemma NamesHaveNoBraces()
    ensures Find('{', NEW, 0) == |NEW| && Find('}', NEW, 0) == |NEW| == 9
    ensures Find('{', SENT, 0) == |SENT| && Find('}', SENT, 0) == |SENT| == 10
  {
    FindIs('{', NEW, 0, 9);
    FindIs('}', NEW, 0, 9);
    FindIs('{', SENT, 0, 10);
    FindIs('}', SENT, 0, 10);
  }

  predicate Tagged(f: string, rest: string) {
    if Find('{', f, 0) < |f| then TagOf(f).Some? else TagOf(rest).Some?
  }

  /** A brace that the filter key leaves open is closed after the name, which then belongs to the tag. */
  lemma TagThroughName(f: string, name: string, rest: string)
    requires Find('{', f, 0) < |f| && Find('}', f, Find('{', f, 0) + 1) == |f|
    requires name != "" && Find('}', name, 0) == |name|
    ensures var b, e := Find('{', f, 0), Find('}', rest, 0);
            TagOf(f + (name + rest)) == if e == |rest| then None else Some(f[b + 1..] + (name + rest[..e]))
  {
    TagOpensInFront(f, name + rest);
    FindAcross('}', name, rest, 0);
    SliceAcross(name, rest, 0, Find('}', rest, 0));
    assert name[0..] == name;
    assert forall e: nat :: e <= |name + rest| ==> (name + rest)[..e] == (name + rest)[0..e];
  }

  lemma LeftOpenUnclosed(f: string, rest: string)
    requires Find('{', f, 0) < |f| && TagOf(f).None? && Find('}', f, Find('{', f, 0) + 1) == |f|
    ensures HashedText(f + (NEW + rest)) != HashedText(f + (SENT + rest))
  {
    NamesHaveNoBraces();
    BasesDiffer(f, rest, rest);
    var b, e := Find('{', f, 0), Find('}', rest, 0);
    TagThroughName(f, NEW, rest);
    TagThroughName(f, SENT, rest);
    BasesDiffer(f[b + 1..], rest[..e], rest[..e]);
  }

  lemma LeftOpen(f: string, rest: string)
    requires Find('{', f, 0) < |f| && TagOf(f).None?
    ensures HashedText(f + (NEW + rest)) != HashedText(f + (SENT + rest))
  {
    if Find('}', f, Find('{', f, 0) + 1) < |f| {
      BasesDiffer(f, rest, rest);
      TagOpensInFront(f, NEW + rest);
      TagOpensInFront(f, SENT + rest);
    } else {
      LeftOpenUnclosed(f, rest);
    }
  }

  lemma OpenedInTheFilterKey(f: string, rest: string)
    requires Find('{', f, 0) < |f|
    ensures HashedText(f + (NEW + rest)) == HashedText(f + (SENT + rest)) <==> TagOf(f).Some?
  {
    if TagOf(f).Some? {
      TagOpensInFront(f, NEW + rest);
      TagOpensInFront(f, SENT + rest);
    } else {
      LeftOpen(f, rest);
    }
  }

  lemma OpenedLater(f: string, rest: string)
    requires Find('{', f, 0) == |f|
    ensures HashedText(f + (NEW + rest)) == HashedText(f + (SENT + rest)) <==> TagOf(rest).Some?
  {
    NamesHaveNoBraces();
    TagSkipsFront(f, NEW + rest);
    TagSkipsFront(f, SENT + rest);
    TagSkipsFront(NEW, rest);
    TagSkipsFront(SENT, rest);
    BasesDiffer(f, rest, rest);
  }

  /** The suffix opens a brace and closes it at once. */
  predicate OpensEmpty(suffix: string) {
    var b := Find('{', suffix, 0);
    b + 1 < |suffix| && suffix[b + 1] == '}'
  }

  lemma RestIsTagged(suffix: string, tag: string)
    requires tag != [] && tag[0] != '}'
    ensures TagOf(suffix + Braced(tag)).Some? <==> !OpensEmpty(suffix)
  {
    var tail := Braced(tag);
    FindIsFirst('{', suffix, 0);
    var rest, b := suffix + tail, Find('{', suffix, 0);
    FindAcross('{', suffix, tail, 0);
    FindIs('{', tail, 0, 1);
    assert rest[|rest| - 1] == '}';
    assert tail[2] == tag[0];
    assert b < |suffix| ==> rest[b + 1] == if b + 1 < |suffix| then suffix[b + 1] else ':';
    FindIsFirst('}', rest, Find('{', rest, 0) + 1);
  }

  lemma TextsAgree(f: string, suffix: string, tag: string)
    requires tag != [] && tag[0] != '}'
    ensures HashedText(f + (NEW + (suffix + Braced(tag)))) == HashedText(f + (SENT + (suffix + Braced(tag)))) <==>
            if '{' in f then TagOf(f).Some? else !OpensEmpty(suffix)
  {
    FindIsFirst('{', f, 0);
    RestIsTagged(suffix, tag);
    if Find('{', f, 0) < |f| {
      OpenedInTheFilterKey(f, suffix + Braced(tag));
    } else {
      assert '{' !in f;
      OpenedLater(f, suffix + Braced(tag));
    }
  }

  lemma Rejoined(a: string, b: string, c: string, d: string)
    ensures a + (b + c) + d == a + (b + (c + d))
  {
  }

  lemma KeysAreJoined(r: Router, node: string)
    ensures KeysAt(r, node).newSeen == r.filterKey + (NEW + (SuffixOf(r) + Braced(HashTag(r, node))))
    ensures KeysAt(r, node).sentSeen == r.filterKey + (SENT + (SuffixOf(r) + Braced(HashTag(r, node))))
  {
    Rejoined(r.filterKey, NEW, SuffixOf(r), Braced(HashTag(r, node)));
    Rejoined(r.filterKey, SENT, SuffixOf(r), Braced(HashTag(r, node)));
  }

  /** Both keys of a pair hash the same text, so that the two-key script can run in a cluster, exactly
      when no empty "{}" gets in front of the shared tag: a filter key with a brace must itself hold
      a whole non-empty tag, and otherwise namespace and algorithm must not begin with an empty one. */
  lemma PairSharesOneSlot(r: Router, node: string)
    ensures HashedText(KeysAt(r, node).newSeen) == HashedText(KeysAt(r, node).sentSeen) <==>
            if '{' in r.filterKey then TagOf(r.filterKey).Some? else !OpensEmpty(SuffixOf(r))
  {
    KeysAreJoined(r, node);
    assert HashTag(r, node)[0] == 's';
    TextsAgree(r.filterKey, SuffixOf(r), HashTag(r, node));
  }
}
