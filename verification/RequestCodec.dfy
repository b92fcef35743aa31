/** Tagged values of serialized requests: scrapy_cffi/core/downloader/internet/request.py and
    scrapy_cffi/models/request.py, through JSON and back. */
module RequestCodec {
  import opened Common

  type Octets = seq<nat>

  /** A dictionary key: a string, or another object that JSON turns into this string. */
  datatype Key = Named(name: string) | Other(name: string)

  datatype Entry = Entry(key: Key, value: Value)

  datatype Value =
    | Null
    | Bool(b: bool)
    | Num(n: int)
    | Text(s: string)
    | Raw(octets: Octets)                        // bytes
    | Msg(data: Octets, flags: Option<nat>)      // WebSocketMsg
    | List(items: seq<Value>)
    | Tuple(items: seq<Value>)
    | Dict(entries: seq<Entry>)

  datatype Base64 = Base64(encode: Octets -> string, decode: string -> Option<Octets>)

  ghost predicate Inverse(t: Base64) {
    forall b :: t.decode(t.encode(b)) == Some(b)
  }

  const BINARY: nat := 2

  // ------------------------------------------------------------ dictionaries

  ghost predicate Distinct(entries: seq<Entry>) {
    forall i, j :: 0 <= i < j < |entries| ==> entries[i].key != entries[j].key
  }

  /** dict.get(name) */
  function Get(entries: seq<Entry>, name: string): (r: Option<Value>)
    ensures r.None? <==> forall i :: 0 <= i < |entries| ==> entries[i].key != Named(name)
    ensures r.Some? ==> exists i :: 0 <= i < |entries| && entries[i].key == Named(name) && entries[i].value == r.value
  {
    if entries == [] then None
    else if entries[0].key == Named(name) then Some(entries[0].value)
    else Get(entries[1..], name)
  }

  function Truthy(v: Value): bool {
    match v
    case Null => false
    case Bool(b) => b
    case Num(n) => n != 0
    case Text(s) => s != ""
    case Raw(octets) => octets != []
    case Msg(_, _) => true
    case List(items) => items != []
    case Tuple(items) => items != []
    case Dict(entries) => entries != []
  }

  /** What Python takes for false. */
  lemma FalsyValues(v: Value)
    ensures !Truthy(v) <==> v in {Null, Bool(false), Num(0), Text(""), Raw([]), List([]), Tuple([]), Dict([])}
  {
  }

  // ------------------------------------------------------------ there

  /** _encode_data */
  function Encode(t: Base64, v: Value): Value
    decreases v
  {
    match v
    case Raw(octets) => Dict([Entry(Named("__bytes__"), Bool(true)), Entry(Named("b64"), Text(t.encode(octets)))])
    case Msg(data, flags) =>
      Dict([Entry(Named("__wsmsg__"), Bool(true)), Entry(Named("data"), Text(t.encode(data))),
            Entry(Named("flags"), Num(if flags.Some? && flags.value != 0 then flags.value else BINARY))])
    case List(items) => List(seq(|items|, i requires 0 <= i < |items| => Encode(t, items[i])))
    case Tuple(items) => Tuple(seq(|items|, i requires 0 <= i < |items| => Encode(t, items[i])))
    case Dict(entries) =>
      Dict(seq(|entries|, i requires 0 <= i < |entries| => Entry(entries[i].key, Encode(t, entries[i].value))))
    case _ => v
  }

  function IndexOf(entries: seq<Entry>, key: Key, i: nat): (k: nat)
    requires i <= |entries|
    ensures i <= k <= |entries|
    ensures k < |entries| ==> entries[k].key == key
    decreases |entries| - i
  {
    if i < |entries| && entries[i].key != key then IndexOf(entries, key, i + 1) else i
  }

  /** Reading an object's members one by one: a repeated name replaces the value it had. */
  function Loaded(entries: seq<Entry>): (r: seq<Entry>)
    ensures entries != [] ==> r != []
    ensures (forall e :: e in entries ==> e.key.Named?) ==> forall e :: e in r ==> e.key.Named?
  {
    if entries == [] then []
    else
      var last, before := entries[|entries| - 1], Loaded(entries[..|entries| - 1]);
      var k := IndexOf(before, last.key, 0);
      if k < |before| then before[k := last] else before + [last]
  }

  /** json.loads(json.dumps(v)): tuples become lists and every key a string. */
  function Json(v: Value): Value
    decreases v
  {
    match v
    case List(items) => List(seq(|items|, i requires 0 <= i < |items| => Json(items[i])))
    case Tuple(items) => List(seq(|items|, i requires 0 <= i < |items| => Json(items[i])))
    case Dict(entries) =>
      Dict(Loaded(seq(|entries|, i requires 0 <= i < |entries| => Entry(Named(entries[i].key.name), Json(entries[i].value)))))
    case _ => v
  }

  /** What json.dumps accepts. */
  predicate Jsonable(v: Value)
    decreases v
  {
    match v
    case Raw(_) => false
    case Msg(_, _) => false
    case List(items) => forall i :: 0 <= i < |items| ==> Jsonable(items[i])
    case Tuple(items) => forall i :: 0 <= i < |items| ==> Jsonable(items[i])
    case Dict(entries) => forall i :: 0 <= i < |entries| ==> Jsonable(entries[i].value)
    case _ => true
  }

  // ------------------------------------------------------------ and back

  function Octet64(t: Base64, text: Option<Value>): Option<Octets> {
    if text.Some? && text.value.Text? then t.decode(text.value.s) else None
  }

  /** WebSocketMsg.from_dict; None is an error. */
  function MsgOf(t: Base64, entries: seq<Entry>): Option<Value> {
    var data := Octet64(t, Get(entries, "data"));
    var flags := if Get(entries, "flags").Some? then Get(entries, "flags").value else Num(BINARY);
    if data.Some? && flags.Num? && flags.n >= 0 then Some(Msg(data.value, Some(flags.n))) else None
  }

  predicate Has(entries: seq<Entry>, name: string) {
    Get(entries, name).Some? && Truthy(Get(entries, name).value)
  }

  /** _decode_data; None is an error. */
  function Decode(t: Base64, v: Value): Option<Value>
    decreases v
  {
    match v
    case Dict(entries) =>
      if Has(entries, "__bytes__") then
        var octets := Octet64(t, Get(entries, "b64"));
        if octets.Some? then Some(Raw(octets.value)) else None
      else if Has(entries, "__wsmsg__") then MsgOf(t, entries)
      else if forall i :: 0 <= i < |entries| ==> Decode(t, entries[i].value).Some? then
        Some(Dict(seq(|entries|, i requires 0 <= i < |entries| => Entry(entries[i].key, Decode(t, entries[i].value).value))))
      else None
    case List(items) =>
      if forall i :: 0 <= i < |items| ==> Decode(t, items[i]).Some? then
        Some(List(seq(|items|, i requires 0 <= i < |items| => Decode(t, items[i]).value)))
      else None
    case Tuple(items) =>
      if forall i :: 0 <= i < |items| ==> Decode(t, items[i]).Some? then
        Some(Tuple(seq(|items|, i requires 0 <= i < |items| => Decode(t, items[i]).value)))
      else None
    case _ => Some(v)
  }

  function Trip(t: Base64, v: Value): Option<Value> {
    Decode(t, Json(Encode(t, v)))
  }

  // ------------------------------------------------------------ when the trip is safe

  /** Python dictionaries hold every key once. */
  ghost predicate WellFormed(v: Value)
    decreases v
  {
    match v
    case List(items) => forall i :: 0 <= i < |items| ==> WellFormed(items[i])
    case Tuple(items) => forall i :: 0 <= i < |items| ==> WellFormed(items[i])
    case Dict(entries) => Distinct(entries) && forall i :: 0 <= i < |entries| ==> WellFormed(entries[i].value)
    case _ => true
  }

  /** A member that makes its dictionary look like an encoded value. Encoded bytes are a non-empty
      dictionary, so even b"" does. */
  predicate Flagged(entries: seq<Entry>, name: string) {
    var v := Get(entries, name);
    v.Some? && (Truthy(v.value) || v.value.Raw?)
  }

  predicate Plain(v: Value)
    decreases v
  {
    match v
    case Msg(_, flags) => flags.Some? && flags.value != 0
    case List(items) => forall i :: 0 <= i < |items| ==> Plain(items[i])
    case Tuple(_) => false
    case Dict(entries) =>
      && (forall i :: 0 <= i < |entries| ==> entries[i].key.Named? && Plain(entries[i].value))
      && !Flagged(entries, "__bytes__") && !Flagged(entries, "__wsmsg__")
    case _ => true
  }

  lemma {:induction false} EncodedIsJsonable(t: Base64, v: Value)
    ensures Jsonable(Encode(t, v))
    decreases v
  {
    match v
    case List(items) => forall i | 0 <= i < |items| ensures Jsonable(Encode(t, items[i])) { EncodedIsJsonable(t, items[i]); }
    case Tuple(items) => forall i | 0 <= i < |items| ensures Jsonable(Encode(t, items[i])) { EncodedIsJsonable(t, items[i]); }
    case Dict(entries) =>
      forall i | 0 <= i < |entries| ensures Jsonable(Encode(t, entries[i].value)) { EncodedIsJsonable(t, entries[i].value); }
    case _ =>
  }

  /** Encoding keeps the containers and their sizes, and touches no scalar. */
  lemma EncodedKeepsShape(t: Base64, v: Value)
    ensures v.List? ==> Encode(t, v).List? && |Encode(t, v).items| == |v.items|
    ensures v.Tuple? ==> Encode(t, v).Tuple? && |Encode(t, v).items| == |v.items|
    ensures v.Dict? ==> Encode(t, v).Dict? && |Encode(t, v).entries| == |v.entries|
    ensures v.Null? || v.Bool? || v.Num? || v.Text? ==> Encode(t, v) == v
  {
  }

  lemma TruthAfterTrip(t: Base64, v: Value)
    ensures Truthy(Json(Encode(t, v))) <==> Truthy(v) || v.Raw?
  {
  }

  lemma {:induction false} LoadedIsSame(entries: seq<Entry>)
    requires Distinct(entries)
    ensures Loaded(entries) == entries
  {
    if entries != [] {
      var n := |entries| - 1;
      LoadedIsSame(entries[..n]);
      assert entries[..n] + [entries[n]] == entries;
    }
  }

  lemma {:induction false} IndexIsFirst(entries: seq<Entry>, key: Key, i: nat)
    requires i <= |entries|
    ensures forall k :: i <= k < IndexOf(entries, key, i) ==> entries[k].key != key
    decreases |entries| - i
  {
    if i < |entries| && entries[i].key != key {
      IndexIsFirst(entries, key, i + 1);
    }
  }

  lemma PutLast(before: seq<Entry>, last: Entry, loaded: seq<Entry>)
    requires Distinct(before)
    requires var k := IndexOf(before, last.key, 0); loaded == if k < |before| then before[k := last] else before + [last]
    ensures Distinct(loaded) && last in loaded
    ensures forall e :: e in loaded ==> e == last || e in before
    ensures forall e :: e in before && e.key != last.key ==> e in loaded
  {
    var k := IndexOf(before, last.key, 0);
    IndexIsFirst(before, last.key, 0);
    assert loaded[if k < |before| then k else |before|] == last;
    forall e | e in before && e.key != last.key ensures e in loaded {
      var m :| 0 <= m < |before| && before[m] == e;
      assert loaded[m] == e;
    }
  }

  lemma {:induction false} LoadedNamesOnce(entries: seq<Entry>)
    ensures Distinct(Loaded(entries)) && forall e :: e in Loaded(entries) ==> e in entries
    decreases |entries|
  {
    if entries != [] {
      var n := |entries| - 1;
      LoadedNamesOnce(entries[..n]);
      PutLast(Loaded(entries[..n]), entries[n], Loaded(entries));
    }
  }

  /** json.loads keeps each name once, with the value that came last. */
  lemma {:induction false} LoadedKeepsLast(entries: seq<Entry>, i: nat)
    requires i < |entries| && forall j :: i < j < |entries| ==> entries[j].key != entries[i].key
    ensures Distinct(Loaded(entries)) && entries[i] in Loaded(entries)
    decreases |entries|
  {
    var n := |entries| - 1;
    LoadedNamesOnce(entries[..n]);
    PutLast(Loaded(entries[..n]), entries[n], Loaded(entries));
    if i < n {
      LoadedKeepsLast(entries[..n], i);
      assert entries[..n][i] == entries[i];
    }
  }

  /** Bytes or a message anywhere inside are refused. */
  lemma OneItemRefused(items: seq<Value>, entries: seq<Entry>, k: nat)
    ensures k < |items| && !Jsonable(items[k]) ==> !Jsonable(List(items)) && !Jsonable(Tuple(items))
    ensures k < |entries| && !Jsonable(entries[k].value) ==> !Jsonable(Dict(entries))
  {
  }

  /** What arrives at the decoder for a dictionary. */
  function Sent(t: Base64, entries: seq<Entry>): (r: seq<Entry>)
    ensures |r| == |entries|
    ensures forall i :: 0 <= i < |entries| ==> r[i] == Entry(Named(entries[i].key.name), Json(Encode(t, entries[i].value)))
  {
    seq(|entries|, i requires 0 <= i < |entries| => Entry(Named(entries[i].key.name), Json(Encode(t, entries[i].value))))
  }

  lemma DictTravels(t: Base64, entries: seq<Entry>)
    ensures Json(Encode(t, Dict(entries))) == Dict(Loaded(Sent(t, entries)))
  {
    var encoded := Encode(t, Dict(entries)).entries;
    assert seq(|encoded|, i requires 0 <= i < |encoded| => Entry(Named(encoded[i].key.name), Json(encoded[i].value)))
        == Sent(t, entries);
  }

  lemma NamedDictTravels(t: Base64, entries: seq<Entry>)
    requires Distinct(entries) && forall i :: 0 <= i < |entries| ==> entries[i].key.Named?
    ensures Json(Encode(t, Dict(entries))) == Dict(Sent(t, entries))
  {
    DictTravels(t, entries);
    LoadedIsSame(Sent(t, entries));
  }

  lemma {:induction false} GetSent(t: Base64, entries: seq<Entry>, name: string)
    requires forall i :: 0 <= i < |entries| ==> entries[i].key.Named?
    ensures Get(Sent(t, entries), name)
         == (if Get(entries, name).Some? then Some(Json(Encode(t, Get(entries, name).value))) else None)
  {
    if entries != [] {
      assert Sent(t, entries)[1..] == Sent(t, entries[1..]);
      GetSent(t, entries[1..], name);
    }
  }

  lemma FlagsTravel(t: Base64, entries: seq<Entry>, name: string)
    requires forall i :: 0 <= i < |entries| ==> entries[i].key.Named?
    ensures Has(Sent(t, entries), name) <==> Flagged(entries, name)
  {
    GetSent(t, entries, name);
    if Get(entries, name).Some? {
      TruthAfterTrip(t, Get(entries, name).value);
    }
  }

  ghost predicate Exact(t: Base64, v: Value) {
    Trip(t, v) == Some(v) <==> Plain(v)
  }

  lemma DecodeItems(t: Base64, items: seq<Value>, target: seq<Value>)
    ensures Decode(t, List(items)) == Some(List(target)) <==>
              |items| == |target| && forall i :: 0 <= i < |items| ==> Decode(t, items[i]) == Some(target[i])
  {
    if forall i :: 0 <= i < |items| ==> Decode(t, items[i]).Some? {
      var back := seq(|items|, i requires 0 <= i < |items| => Decode(t, items[i]).value);
      assert Decode(t, List(items)) == Some(List(back));
      assert |items| == |target| ==> (back == target <==> forall i :: 0 <= i < |items| ==> back[i] == target[i]);
    }
  }

  lemma DecodeEntries(t: Base64, entries: seq<Entry>, target: seq<Entry>)
    requires !Has(entries, "__bytes__") && !Has(entries, "__wsmsg__") && |entries| == |target|
    requires forall i :: 0 <= i < |entries| ==> entries[i].key == target[i].key
    ensures Decode(t, Dict(entries)) == Some(Dict(target)) <==>
              forall i :: 0 <= i < |entries| ==> Decode(t, entries[i].value) == Some(target[i].value)
  {
    if forall i :: 0 <= i < |entries| ==> Decode(t, entries[i].value).Some? {
      var back := seq(|entries|, i requires 0 <= i < |entries| => Entry(entries[i].key, Decode(t, entries[i].value).value));
      assert Decode(t, Dict(entries)) == Some(Dict(back));
      assert back == target <==> forall i :: 0 <= i < |entries| ==> back[i] == target[i];
    }
  }

  lemma ListTravels(t: Base64, items: seq<Value>)
    requires forall i :: 0 <= i < |items| ==> Exact(t, items[i])
    ensures Exact(t, List(items))
    ensures Trip(t, Tuple(items)) == Trip(t, List(items))
  {
    var sent := seq(|items|, i requires 0 <= i < |items| => Json(Encode(t, items[i])));
    var encoded := Encode(t, List(items)).items;
    assert seq(|encoded|, i requires 0 <= i < |encoded| => Json(encoded[i])) == sent;
    assert Json(Encode(t, List(items))) == List(sent) == Json(Encode(t, Tuple(items)));
    DecodeItems(t, sent, items);
  }

  lemma TuplesAreLost(t: Base64, items: seq<Value>)
    requires Trip(t, Tuple(items)) == Trip(t, List(items))
    ensures Trip(t, Tuple(items)) != Some(Tuple(items))
  {
    var encoded := Encode(t, List(items)).items;
    assert Json(Encode(t, List(items))).List?;
  }

  lemma NamedEntriesTravel(t: Base64, entries: seq<Entry>)
    requires Distinct(entries) && forall i :: 0 <= i < |entries| ==> entries[i].key.Named?
    requires forall i :: 0 <= i < |entries| ==> Exact(t, entries[i].value)
    ensures Exact(t, Dict(entries))
  {
    NamedDictTravels(t, entries);
    FlagsTravel(t, entries, "__bytes__");
    FlagsTravel(t, entries, "__wsmsg__");
    var sent := Sent(t, entries);
    if !Has(sent, "__bytes__") && !Has(sent, "__wsmsg__") {
      DecodeEntries(t, sent, entries);
      assert forall i :: 0 <= i < |entries| ==> Decode(t, sent[i].value) == Trip(t, entries[i].value);
    }
  }

  lemma DecodedKeys(t: Base64, entries: seq<Entry>)
    requires forall e :: e in entries ==> e.key.Named?
    ensures var back := Decode(t, Dict(entries));
            back.Some? && back.value.Dict? ==> forall i :: 0 <= i < |back.value.entries| ==> back.value.entries[i].key.Named?
  {
    var back := Decode(t, Dict(entries));
    if back.Some? && back.value.Dict? {
      forall i | 0 <= i < |back.value.entries| ensures back.value.entries[i].key.Named? {
        assert entries[i] in entries;
      }
    }
  }

  /** Keys that are not strings do not survive. */
  lemma OtherKeysAreLost(t: Base64, entries: seq<Entry>, k: nat)
    requires k < |entries| && entries[k].key.Other?
    ensures Trip(t, Dict(entries)) != Some(Dict(entries))
  {
    DictTravels(t, entries);
    DecodedKeys(t, Loaded(Sent(t, entries)));
  }

  /** Entries of string keys whose values are scalars pass through JSON unchanged. */
  lemma ScalarsAreSame(entries: seq<Entry>)
    requires Distinct(entries)
    requires forall i :: 0 <= i < |entries| ==>
               entries[i].key.Named? && (entries[i].value.Bool? || entries[i].value.Num? || entries[i].value.Text?)
    ensures Json(Dict(entries)) == Dict(entries)
  {
    assert seq(|entries|, i requires 0 <= i < |entries| => Entry(Named(entries[i].key.name), Json(entries[i].value))) == entries;
    LoadedIsSame(entries);
  }

  lemma RawTravels(t: Base64, octets: Octets)
    requires Inverse(t)
    ensures Trip(t, Raw(octets)) == Some(Raw(octets))
  {
    var entries := Encode(t, Raw(octets)).entries;
    assert entries[0].key.name != entries[1].key.name;
    ScalarsAreSame(entries);
    assert Get(entries, "__bytes__") == Some(Bool(true));
    assert entries[1..][0] == entries[1];
    assert Get(entries, "b64") == Some(Text(t.encode(octets)));
  }

  function MsgEntries(text: string, flag: nat): seq<Entry> {
    [Entry(Named("__wsmsg__"), Bool(true)), Entry(Named("data"), Text(text)), Entry(Named("flags"), Num(flag))]
  }

  lemma MembersOfMsg(data: Value, flags: Value)
    ensures var entries := [Entry(Named("__wsmsg__"), Bool(true)), Entry(Named("data"), data), Entry(Named("flags"), flags)];
            && Get(entries, "__bytes__") == None && Get(entries, "__wsmsg__") == Some(Bool(true))
            && Get(entries, "data") == Some(data) && Get(entries, "flags") == Some(flags)
            && Distinct(entries)
  {
    var entries := [Entry(Named("__wsmsg__"), Bool(true)), Entry(Named("data"), data), Entry(Named("flags"), flags)];
    assert "__wsmsg__"[0] == '_' && "data"[0] == 'd' && "flags"[0] == 'f';
    assert "__bytes__"[2] == 'b' && "__wsmsg__"[2] == 'w';
    assert entries[1..] == [entries[1], entries[2]] && entries[1..][1..] == [entries[2]];
    assert Get(entries, "data") == Get(entries[1..], "data");
    assert Get(entries, "flags") == Get(entries[1..], "flags") == Get(entries[1..][1..], "flags");
  }

  lemma DecodeMsg(t: Base64, entries: seq<Entry>)
    requires !Has(entries, "__bytes__") && Has(entries, "__wsmsg__")
    ensures Decode(t, Dict(entries)) == MsgOf(t, entries)
  {
  }

  lemma EncodedMsgReturns(t: Base64, text: string, flag: nat)
    requires t.decode(text).Some?
    ensures Decode(t, Json(Dict(MsgEntries(text, flag)))) == Some(Msg(t.decode(text).value, Some(flag)))
  {
    var entries := MsgEntries(text, flag);
    MembersOfMsg(Text(text), Num(flag));
    ScalarsAreSame(entries);
    DecodeMsg(t, entries);
  }

  lemma MsgTravels(t: Base64, data: Octets, flags: Option<nat>)
    requires Inverse(t)
    ensures Trip(t, Msg(data, flags)) == Some(Msg(data, Some(if flags.Some? && flags.value != 0 then flags.value else BINARY)))
  {
    var flag := if flags.Some? && flags.value != 0 then flags.value else BINARY;
    EncodedMsgReturns(t, t.encode(data), flag);
  }

  lemma LeavesTravel(t: Base64, v: Value)
    requires Inverse(t) && !v.List? && !v.Tuple? && !v.Dict?
    ensures Exact(t, v)
  {
    match v
    case Raw(octets) => RawTravels(t, octets);
    case Msg(data, flags) => MsgTravels(t, data, flags);
    case _ =>
  }

  /** A value comes back as it was exactly when it is plain: string keys, no tuples, messages with
      flags, and no dictionary that carries a mark of an encoded value. */
  lemma {:induction false} TripIsExactlyPlain(t: Base64, v: Value)
    requires Inverse(t) && WellFormed(v)
    ensures Trip(t, v) == Some(v) <==> Plain(v)
    decreases v
  {
    match v
    case List(items) =>
      forall i | 0 <= i < |items| ensures Exact(t, items[i]) { TripIsExactlyPlain(t, items[i]); }
      ListTravels(t, items);
    case Tuple(items) =>
      forall i | 0 <= i < |items| ensures Exact(t, items[i]) { TripIsExactlyPlain(t, items[i]); }
      ListTravels(t, items);
      TuplesAreLost(t, items);
    case Dict(entries) =>
      forall i | 0 <= i < |entries| ensures Exact(t, entries[i].value) { TripIsExactlyPlain(t, entries[i].value); }
      if k :| 0 <= k < |entries| && entries[k].key.Other? {
        OtherKeysAreLost(t, entries, k);
      } else {
        NamedEntriesTravel(t, entries);
      }
    case _ => LeavesTravel(t, v);
  }

  // ------------------------------------------------------------ whole requests

  /** A request: its class and what its attributes hold. */
  datatype Request = Request(className: string, fields: map<string, Value>)

  /** kwargs holds what the constructor has no parameter for, so its names are no attribute's name; and
      a keyword of the language names no attribute. */
  ghost predicate IsRequest(r: Request) {
    && "class" !in r.fields
    && "kwargs" in r.fields && r.fields["kwargs"].Dict?
    && (forall k :: k in r.fields ==> WellFormed(r.fields[k]))
    && forall e :: e in r.fields["kwargs"].entries ==> e.key.Named? && e.key.name !in r.fields
  }

  /** to_bytes up to the JSON text, seen from the other side of it; `encoded` is ENCODE_FIELDS. None
      is json.dumps refusing a field that is not encoded. */
  function Wire(t: Base64, encoded: set<string>, r: Request): Option<map<string, Value>> {
    if forall k :: k in r.fields ==> k in encoded || Jsonable(r.fields[k]) then
      Some(map k | k in r.fields :: Json(if k in encoded then Encode(t, r.fields[k]) else r.fields[k]))
    else None
  }

  /** What the constructor accepts as keyword arguments besides the attributes in `d`. */
  predicate Accepted(kwargs: Option<Value>, d: map<string, Value>) {
    && kwargs.Some? && kwargs.value.Dict?
    && forall e :: e in kwargs.value.entries ==> e.key.Named? && e.key.name !in d
  }

  /** from_bytes after the JSON text: kwargs is taken out and passed on, encoded fields are decoded. */
  function Rebuild(t: Base64, encoded: set<string>, className: string, d: map<string, Value>): Option<Request> {
    var kwargs := if "kwargs" in d then Decode(t, d["kwargs"]) else Some(Dict([]));
    if !Accepted(kwargs, d) || exists k :: k in d && k != "kwargs" && k in encoded && Decode(t, d[k]).None? then None
    else
      Some(Request(className, map k | k in d.Keys + {"kwargs"} ::
                             if k == "kwargs" then kwargs.value else if k in encoded then Decode(t, d[k]).value else d[k]))
  }

  /** Keyword arguments that clash with an attribute, or are no strings, are refused by the constructor;
      and a dictionary without any gives none. */
  lemma KwargsAreChecked(t: Base64, encoded: set<string>, className: string, d: map<string, Value>, e: Entry)
    ensures "kwargs" in d && Decode(t, d["kwargs"]).Some? && Decode(t, d["kwargs"]).value.Dict?
            && e in Decode(t, d["kwargs"]).value.entries && (!e.key.Named? || e.key.name in d)
            ==> Rebuild(t, encoded, className, d).None?
    ensures "kwargs" !in d && Rebuild(t, encoded, className, d).Some? ==>
              var r := Rebuild(t, encoded, className, d).value;
              r.fields.Keys == d.Keys + {"kwargs"} && r.fields["kwargs"] == Dict([])
  {
  }

  function RequestTrip(t: Base64, encoded: set<string>, r: Request): Option<Request> {
    var wire := Wire(t, encoded, r);
    if wire.None? then None else Rebuild(t, encoded, r.className, wire.value)
  }

  ghost predicate FieldIsSafe(encoded: set<string>, r: Request, k: string)
    requires k in r.fields
  {
    if k in encoded then Plain(r.fields[k]) else Jsonable(r.fields[k]) && Json(r.fields[k]) == r.fields[k]
  }

  lemma WiredField(t: Base64, encoded: set<string>, r: Request, k: string)
    requires k in r.fields && Wire(t, encoded, r).Some?
    ensures var d := Wire(t, encoded, r).value;
            && d.Keys == r.fields.Keys && (k !in encoded ==> Jsonable(r.fields[k]))
            && d[k] == Json(if k in encoded then Encode(t, r.fields[k]) else r.fields[k])
  {
  }

  lemma DecodedField(t: Base64, encoded: set<string>, className: string, d: map<string, Value>, k: string)
    requires k in d && "kwargs" in d && "kwargs" in encoded && Rebuild(t, encoded, className, d).Some?
    ensures var r := Rebuild(t, encoded, className, d).value;
            && r.fields.Keys == d.Keys && r.className == className
            && (if k in encoded then Decode(t, d[k]) == Some(r.fields[k]) else r.fields[k] == d[k])
  {
  }

  /** Field by field: what `k` holds after the trip. */
  lemma RebuiltField(t: Base64, encoded: set<string>, r: Request, k: string)
    requires IsRequest(r) && "kwargs" in encoded && k in r.fields && RequestTrip(t, encoded, r).Some?
    ensures var r' := RequestTrip(t, encoded, r).value;
            && r'.fields.Keys == r.fields.Keys && r'.className == r.className
            && (k in encoded ==> Trip(t, r.fields[k]) == Some(r'.fields[k]))
            && (k !in encoded ==> Jsonable(r.fields[k]) && r'.fields[k] == Json(r.fields[k]))
  {
    WiredField(t, encoded, r, k);
    DecodedField(t, encoded, r.className, Wire(t, encoded, r).value, k);
  }

  lemma SafeRequestsArrive(t: Base64, encoded: set<string>, r: Request)
    requires Inverse(t) && IsRequest(r) && "kwargs" in encoded
    requires forall k :: k in r.fields ==> FieldIsSafe(encoded, r, k)
    ensures RequestTrip(t, encoded, r).Some?
  {
    var d := Wire(t, encoded, r).value;
    forall k | k in r.fields && k in encoded ensures Decode(t, d[k]) == Some(r.fields[k]) {
      TripIsExactlyPlain(t, r.fields[k]);
      assert FieldIsSafe(encoded, r, k);
    }
    assert Accepted(Decode(t, d["kwargs"]), d);
  }

  lemma FieldRoundTrip(t: Base64, encoded: set<string>, r: Request, k: string)
    requires Inverse(t) && IsRequest(r) && "kwargs" in encoded && k in r.fields && RequestTrip(t, encoded, r).Some?
    ensures var r' := RequestTrip(t, encoded, r).value;
            && r'.fields.Keys == r.fields.Keys && r'.className == r.className
            && (r'.fields[k] == r.fields[k] <==> FieldIsSafe(encoded, r, k))
  {
    RebuiltField(t, encoded, r, k);
    TripIsExactlyPlain(t, r.fields[k]);
  }

  lemma FieldsDecide(encoded: set<string>, r: Request, r': Request)
    requires r'.className == r.className && r'.fields.Keys == r.fields.Keys
    requires forall k :: k in r.fields ==> (r'.fields[k] == r.fields[k] <==> FieldIsSafe(encoded, r, k))
    ensures r' == r <==> forall k :: k in r.fields ==> FieldIsSafe(encoded, r, k)
  {
    assert r'.fields == r.fields <==> forall k :: k in r.fields ==> r'.fields[k] == r.fields[k];
  }

  /** A request is rebuilt with every field as it was exactly when its encoded fields are plain and
      its other fields are unchanged by JSON. */
  lemma RequestRoundTrip(t: Base64, encoded: set<string>, r: Request)
    requires Inverse(t) && IsRequest(r) && "kwargs" in encoded
    ensures RequestTrip(t, encoded, r) == Some(r) <==> forall k :: k in r.fields ==> FieldIsSafe(encoded, r, k)
  {
    if forall k :: k in r.fields ==> FieldIsSafe(encoded, r, k) {
      SafeRequestsArrive(t, encoded, r);
    }
    if RequestTrip(t, encoded, r).Some? {
      var r' := RequestTrip(t, encoded, r).value;
      FieldRoundTrip(t, encoded, r, "kwargs");
      forall k | k in r.fields ensures r'.fields[k] == r.fields[k] <==> FieldIsSafe(encoded, r, k) {
        FieldRoundTrip(t, encoded, r, k);
      }
      FieldsDecide(encoded, r, r');
    }
  }
}
