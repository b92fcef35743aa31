/** Request.to_bytes and Request.from_bytes of scrapy_cffi/core/downloader/internet/request.py: tagged
    values, JSON text, and the envelope of serialized state, one after another. */
module RequestBytes {
  import opened Common
  import opened RequestCodec
  import StateCodec

  /** json.dumps(...).encode() and json.loads(....decode()) of a dictionary. */
  datatype JsonText = JsonText(dumps: map<string, Value> -> Option<Octets>, loads: Octets -> Option<map<string, Value>>)

  function ThroughJson(d: map<string, Value>): map<string, Value> {
    map k | k in d :: Json(d[k])
  }

  /** What can be dumped is loaded again as Json says, and nothing else is dumped. */
  ghost predicate Faithful(j: JsonText) {
    forall d :: (j.dumps(d).Some? <==> forall k :: k in d ==> Jsonable(d[k]))
             && (j.dumps(d).Some? ==> j.loads(j.dumps(d).value) == Some(ThroughJson(d)))
  }

  datatype Codec = Codec(base64: Base64, text: JsonText, zlib: StateCodec.Zlib)

  ghost predicate Lawful(c: Codec) {
    Inverse(c.base64) && Faithful(c.text) && StateCodec.Inverse(c.zlib)
  }

  /** The registered request classes with their ENCODE_FIELDS. */
  type Registry = map<string, set<string>>

  /** to_dict, with the class name. */
  function Body(c: Codec, encoded: set<string>, r: Request): map<string, Value> {
    map k | k in r.fields.Keys + {"class"} ::
      if k == "class" then Text(r.className) else if k in encoded then Encode(c.base64, r.fields[k]) else r.fields[k]
  }

  function TextOf(c: Codec, encoded: set<string>, r: Request): Option<Octets> {
    c.text.dumps(Body(c, encoded, r))
  }

  /** to_bytes; None stands for its exceptions. */
  function ToBytes(c: Codec, encoded: set<string>, r: Request, maxSize: nat): Option<Octets> {
    var text := TextOf(c, encoded, r);
    if text.None? then None
    else
      match StateCodec.Encoded(c.zlib, text.value, maxSize)
      case Ok(data) => Some(data)
      case Err(_) => None
  }

  /** from_bytes after the JSON text: the class is looked up, the rest goes to _from_dict. */
  function FromDict(c: Codec, classes: Registry, d: map<string, Value>): Option<Request> {
    if "class" !in d || !d["class"].Text? || d["class"].s !in classes then None
    else Rebuild(c.base64, classes[d["class"].s], d["class"].s, d - {"class"})
  }

  function FromBytes(c: Codec, classes: Registry, payload: Octets, maxSize: nat): Option<Request> {
    match StateCodec.Decoded(c.zlib, payload, maxSize)
    case Err(_) => None
    case Ok(data) =>
      var d := c.text.loads(data);
      if d.None? then None else FromDict(c, classes, d.value)
  }

  function BytesTrip(c: Codec, classes: Registry, r: Request, maxSize: nat): Option<Request>
    requires r.className in classes
  {
    var payload := ToBytes(c, classes[r.className], r, maxSize);
    if payload.None? then None else FromBytes(c, classes, payload.value, maxSize)
  }

  lemma BodyIsDumped(c: Codec, encoded: set<string>, r: Request)
    requires Lawful(c) && "class" !in r.fields
    ensures TextOf(c, encoded, r).Some? <==> Wire(c.base64, encoded, r).Some?
  {
    var d := Body(c, encoded, r);
    forall k | k in r.fields && k in encoded ensures Jsonable(d[k]) {
      EncodedIsJsonable(c.base64, r.fields[k]);
    }
    assert d["class"] == Text(r.className);
    assert forall k :: k in r.fields && k !in encoded ==> d[k] == r.fields[k];
  }

  /** What from_bytes finds in the text is the class and what Wire says of the fields. */
  lemma BodyArrives(c: Codec, encoded: set<string>, r: Request)
    requires "class" !in r.fields && Wire(c.base64, encoded, r).Some?
    ensures var d := ThroughJson(Body(c, encoded, r));
            "class" in d && d["class"] == Text(r.className) && d - {"class"} == Wire(c.base64, encoded, r).value
  {
    var d, wire := ThroughJson(Body(c, encoded, r)), Wire(c.base64, encoded, r).value;
    forall k | k in wire ensures k in d && d[k] == wire[k] {
      WiredField(c.base64, encoded, r, k);
    }
    assert (d - {"class"}).Keys == wire.Keys;
  }

  lemma PayloadIsRead(c: Codec, text: Octets, maxSize: nat)
    requires Lawful(c)
    ensures StateCodec.Encoded(c.zlib, text, maxSize).Ok? <==> |text| <= maxSize
    ensures |text| <= maxSize ==>
              StateCodec.Decoded(c.zlib, StateCodec.Encoded(c.zlib, text, maxSize).data, maxSize) == StateCodec.Ok(text)
  {
    StateCodec.StateRoundTrip(c.zlib, text, maxSize);
  }

  /** Whatever can be sent arrives as RequestTrip says. */
  lemma BytesCarryTheTrip(c: Codec, classes: Registry, r: Request, maxSize: nat)
    requires Lawful(c) && "class" !in r.fields && r.className in classes
    ensures var text := TextOf(c, classes[r.className], r);
            BytesTrip(c, classes, r, maxSize) ==
            if text.Some? && |text.value| <= maxSize then RequestTrip(c.base64, classes[r.className], r) else None
  {
    var encoded := classes[r.className];
    var text := TextOf(c, encoded, r);
    BodyIsDumped(c, encoded, r);
    if text.Some? {
      PayloadIsRead(c, text.value, maxSize);
      BodyArrives(c, encoded, r);
    }
  }

  /** from_bytes(to_bytes(r)) is r exactly when the encoded fields of r are plain, JSON leaves its other
      fields as they are, and its JSON text is within the limit. */
  lemma BytesRoundTrip(c: Codec, classes: Registry, r: Request, maxSize: nat)
    requires Lawful(c) && IsRequest(r) && r.className in classes && "kwargs" in classes[r.className]
    ensures var encoded := classes[r.className];
            && ((forall k :: k in r.fields ==> FieldIsSafe(encoded, r, k)) ==> TextOf(c, encoded, r).Some?)
            && (BytesTrip(c, classes, r, maxSize) == Some(r) <==>
                  && (forall k :: k in r.fields ==> FieldIsSafe(encoded, r, k))
                  && TextOf(c, encoded, r).Some? && |TextOf(c, encoded, r).value| <= maxSize)
  {
    var encoded := classes[r.className];
    BytesCarryTheTrip(c, classes, r, maxSize);
    RequestRoundTrip(c.base64, encoded, r);
    BodyIsDumped(c, encoded, r);
  }
}
