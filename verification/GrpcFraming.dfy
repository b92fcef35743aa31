/** gRPC message framing: _GrpcFramingCodec of scrapy_cffi/platform/protobuf.py. The payload codec and
    gzip stay abstract. */
module GrpcFraming {
  import opened Common

  type Byte = b: nat | b < 256
  type Bytes = seq<Byte>

  const TWO_32: nat := 0x1_0000_0000

  datatype Fault = LengthOutOfRange | IncompleteHeader | UnsupportedFlag | IncompleteBody | BadCompression | BadMessage

  datatype Result<+T> = Ok(value: T) | Err(fault: Fault)

  // ------------------------------------------------------------ lengths

  function EncodeLength(n: int): Option<Bytes> {
    if 0 <= n < TWO_32 then Some([n / 0x100_0000, n / 0x1_0000 % 256, n / 256 % 256, n % 256]) else None
  }

  function BigEndian(a: nat, b: nat, c: nat, d: nat): nat {
    ((a * 256 + b) * 256 + c) * 256 + d
  }

  function DecodeLength(data: Bytes): Option<nat> {
    if |data| == 4 then Some(BigEndian(data[0], data[1], data[2], data[3])) else None
  }

  lemma BigEndianIsUnique(a: Byte, b: Byte, c: Byte, d: Byte)
    ensures var n := BigEndian(a, b, c, d);
            n < TWO_32 && n / 0x100_0000 == a && n / 0x1_0000 % 256 == b && n / 256 % 256 == c && n % 256 == d
  {
  }

  lemma DigitsOf(n: nat)
    ensures n / 0x100_0000 == n / 0x1_0000 / 256 && n / 0x1_0000 == n / 256 / 256
    ensures BigEndian(n / 0x100_0000, n / 0x1_0000 % 256, n / 256 % 256, n % 256) == n
  {
    var q1 := n / 256;
    var q2 := q1 / 256;
    assert n == q1 * 256 + n % 256 && q1 == q2 * 256 + q1 % 256 && q2 == (q2 / 256) * 256 + q2 % 256;
    assert n / 0x1_0000 == q2 && n / 0x100_0000 == q2 / 256;
  }

  /** Four bytes and the lengths below 2^32 are the same thing: lengths come back from their bytes ... */
  lemma LengthFromBytes(n: int)
    ensures EncodeLength(n).Some? <==> 0 <= n < TWO_32
    ensures EncodeLength(n).Some? ==> DecodeLength(EncodeLength(n).value) == Some(n)
  {
    if 0 <= n < TWO_32 {
      DigitsOf(n);
    }
  }

  /** ... and bytes from their length. */
  lemma BytesFromLength(data: Bytes)
    ensures DecodeLength(data).Some? <==> |data| == 4
    ensures DecodeLength(data).Some? ==> EncodeLength(DecodeLength(data).value) == Some(data)
  {
    if |data| == 4 {
      BigEndianIsUnique(data[0], data[1], data[2], data[3]);
      assert [data[0], data[1], data[2], data[3]] == data;
    }
  }

  // ------------------------------------------------------------ frames

  datatype Frame = Frame(compressed: bool, payload: Bytes)

  predicate Sendable(f: Frame) {
    |f.payload| < TWO_32
  }

  function FrameBytes(f: Frame): (b: Bytes)
    requires Sendable(f)
    ensures |b| == 5 + |f.payload|
  {
    [if f.compressed then 1 else 0] + EncodeLength(|f.payload|).value + f.payload
  }

  /** The first frame of non-empty data, and how many bytes it takes. */
  function Head(data: Bytes): (r: Result<(Frame, nat)>)
    requires data != []
    ensures r.Ok? ==> 5 <= r.value.1 <= |data| && Sendable(r.value.0)
  {
    if |data| < 5 then Err(IncompleteHeader)
    else if data[0] > 1 then Err(UnsupportedFlag)
    else
      var n := DecodeLength(data[1..5]).value;
      if |data| - 5 < n then Err(IncompleteBody)
      else Ok((Frame(data[0] == 1, data[5..5 + n]), 5 + n))
  }

  function Join(frames: seq<Frame>): Bytes
    requires forall f :: f in frames ==> Sendable(f)
  {
    if frames == [] then [] else FrameBytes(frames[0]) + Join(frames[1..])
  }

  function Prepended<T>(front: seq<T>, r: Result<seq<T>>): Result<seq<T>> {
    if r.Ok? then Ok(front + r.value) else r
  }

  function Split(data: Bytes): Result<seq<Frame>>
    decreases |data|
  {
    if data == [] then Ok([])
    else
      var head := Head(data);
      if head.Err? then Err(head.fault) else Prepended([head.value.0], Split(data[head.value.1..]))
  }

  lemma HeadOfFrame(f: Frame, rest: Bytes)
    requires Sendable(f)
    ensures Head(FrameBytes(f) + rest) == Ok((f, |FrameBytes(f)|))
  {
    var data := FrameBytes(f) + rest;
    LengthFromBytes(|f.payload|);
    assert data[1..5] == EncodeLength(|f.payload|).value;
    assert data[5..5 + |f.payload|] == f.payload;
  }

  lemma ThreeParts(data: Bytes, k: nat)
    requires 5 <= k <= |data|
    ensures data[..k] == [data[0]] + data[1..5] + data[5..k]
  {
  }

  lemma FrameOfHead(data: Bytes)
    requires data != [] && Head(data).Ok?
    ensures FrameBytes(Head(data).value.0) == data[..Head(data).value.1]
  {
    BytesFromLength(data[1..5]);
    ThreeParts(data, Head(data).value.1);
    assert [data[0]] == [if Head(data).value.0.compressed then 1 else 0];
  }

  lemma JoinCons(f: Frame, rest: seq<Frame>)
    requires Sendable(f) && forall g :: g in rest ==> Sendable(g)
    ensures forall g :: g in [f] + rest ==> Sendable(g)
    ensures Join([f] + rest) == FrameBytes(f) + Join(rest)
  {
    assert ([f] + rest)[1..] == rest;
  }

  lemma SplitOne(f: Frame, rest: Bytes)
    requires Sendable(f)
    ensures Split(FrameBytes(f) + rest) == Prepended([f], Split(rest))
  {
    HeadOfFrame(f, rest);
    assert (FrameBytes(f) + rest)[|FrameBytes(f)|..] == rest;
  }

  /** Framing is a bijection: frames come back from their bytes ... */
  lemma {:induction false} SplitOfJoin(frames: seq<Frame>)
    requires forall f :: f in frames ==> Sendable(f)
    ensures Split(Join(frames)) == Ok(frames)
  {
    if frames != [] {
      SplitOne(frames[0], Join(frames[1..]));
      SplitOfJoin(frames[1..]);
      assert [frames[0]] + frames[1..] == frames;
    }
  }

  lemma Halves(data: Bytes, k: nat)
    requires k <= |data|
    ensures data == data[..k] + data[k..]
  {
  }

  /** ... and bytes from their frames, when they split into frames at all. */
  lemma {:induction false} JoinOfSplit(data: Bytes)
    requires Split(data).Ok?
    ensures forall f :: f in Split(data).value ==> Sendable(f)
    ensures Join(Split(data).value) == data
    decreases |data|
  {
    if data != [] {
      var (frame, taken) := Head(data).value;
      JoinOfSplit(data[taken..]);
      FrameOfHead(data);
      JoinCons(frame, Split(data[taken..]).value);
      Halves(data, taken);
    }
  }

  lemma Regroup(a: Bytes, b: Bytes, c: Bytes)
    ensures a + b + c == a + (b + c)
  {
  }

  lemma {:induction false} JoinAdds(a: seq<Frame>, b: seq<Frame>)
    requires forall f :: f in a ==> Sendable(f)
    requires forall f :: f in b ==> Sendable(f)
    ensures forall f :: f in a + b ==> Sendable(f)
    ensures Join(a + b) == Join(a) + Join(b)
  {
    if a == [] {
      assert a + b == b;
    } else {
      JoinAdds(a[1..], b);
      JoinCons(a[0], a[1..] + b);
      assert [a[0]] + (a[1..] + b) == a + b;
      Regroup(FrameBytes(a[0]), Join(a[1..]), Join(b));
    }
  }

  lemma PrependTwice<T>(a: seq<T>, b: seq<T>, r: Result<seq<T>>)
    ensures Prepended(a, Prepended(b, r)) == Prepended(a + b, r)
    ensures Prepended([], r) == r
  {
    if r.Ok? {
      assert a + (b + r.value) == a + b + r.value && [] + r.value == r.value;
    }
  }

  /** Decoding distributes over concatenation at a frame boundary. */
  lemma {:induction false} SplitDistributes(frames: seq<Frame>, b: Bytes)
    requires forall f :: f in frames ==> Sendable(f)
    ensures Split(Join(frames) + b) == Prepended(frames, Split(b))
  {
    if frames == [] {
      assert Join(frames) + b == b;
      PrependTwice(frames, frames, Split(b));
    } else {
      Regroup(FrameBytes(frames[0]), Join(frames[1..]), b);
      SplitOne(frames[0], Join(frames[1..]) + b);
      SplitDistributes(frames[1..], b);
      PrependTwice([frames[0]], frames[1..], Split(b));
      assert [frames[0]] + frames[1..] == frames;
    }
  }

  lemma CutFrame(f: Frame, k: nat)
    requires Sendable(f) && 0 < k < 5 + |f.payload|
    ensures Head(FrameBytes(f)[..k]).Err?
    ensures Head(FrameBytes(f)[..k]).fault in {IncompleteHeader, IncompleteBody}
  {
    if k >= 5 {
      LengthFromBytes(|f.payload|);
      assert FrameBytes(f)[1..5] == EncodeLength(|f.payload|).value;
      assert FrameBytes(f)[..k][1..5] == FrameBytes(f)[1..5];
    }
  }

  lemma {:induction false} CutFaults(frames: seq<Frame>, k: nat)
    requires forall f :: f in frames ==> Sendable(f)
    requires k <= |Join(frames)| && Split(Join(frames)[..k]).Err?
    ensures Split(Join(frames)[..k]).fault in {IncompleteHeader, IncompleteBody}
  {
    if frames != [] && k > 0 {
      var size, rest := |FrameBytes(frames[0])|, frames[1..];
      if k < size {
        assert Join(frames)[..k] == FrameBytes(frames[0])[..k];
        CutFrame(frames[0], k);
      } else {
        assert Join(frames)[..k] == FrameBytes(frames[0]) + Join(rest)[..k - size];
        SplitOne(frames[0], Join(rest)[..k - size]);
        CutFaults(rest, k - size);
      }
    }
  }

  lemma FrontOfStream(stream: Bytes, k: nat)
    requires k <= |stream| && Split(stream).Ok? && Split(stream[..k]).Ok?
    ensures Split(stream[..k]).value <= Split(stream).value
    ensures forall f :: f in Split(stream[..k]).value ==> Sendable(f)
    ensures Join(Split(stream[..k]).value) == stream[..k]
  {
    JoinOfSplit(stream[..k]);
    SplitDistributes(Split(stream[..k]).value, stream[k..]);
    assert stream[..k] + stream[k..] == stream;
  }

  /** A stream cut off anywhere is accepted exactly when it is cut between two frames, and then yields
      the frames before the cut; a cut through a frame is reported as an incomplete header or body. */
  lemma CutStream(frames: seq<Frame>, k: nat)
    requires forall f :: f in frames ==> Sendable(f)
    requires k <= |Join(frames)|
    ensures var cut := Split(Join(frames)[..k]);
            && (cut.Ok? ==> cut.value <= frames && Join(cut.value) == Join(frames)[..k])
            && (cut.Err? ==> cut.fault in {IncompleteHeader, IncompleteBody})
  {
    if Split(Join(frames)[..k]).Ok? {
      SplitOfJoin(frames);
      FrontOfStream(Join(frames), k);
    } else {
      CutFaults(frames, k);
    }
  }

  lemma CutBetweenFrames(frames: seq<Frame>, j: nat)
    requires j <= |frames| && forall f :: f in frames ==> Sendable(f)
    ensures |Join(frames[..j])| <= |Join(frames)| && Split(Join(frames)[..|Join(frames[..j])|]) == Ok(frames[..j])
  {
    JoinAdds(frames[..j], frames[j..]);
    assert frames[..j] + frames[j..] == frames;
    SplitOfJoin(frames[..j]);
  }

  // ------------------------------------------------------------ messages

  /** A payload codec and a compressor; both decoders may fail. */
  datatype Codec<!M> = Codec(encode: M -> Bytes, decode: Bytes -> Option<M>, zip: Bytes -> Bytes, unzip: Bytes -> Option<Bytes>)

  ghost predicate Inverse<M(!new)>(c: Codec<M>) {
    && (forall m :: c.decode(c.encode(m)) == Some(m))
    && (forall b :: c.unzip(c.zip(b)) == Some(b))
  }

  function Wrapped<M>(c: Codec<M>, m: M, gzip: bool): Frame {
    Frame(gzip, if gzip then c.zip(c.encode(m)) else c.encode(m))
  }

  function Opened<M>(c: Codec<M>, f: Frame): Result<M> {
    var payload := if f.compressed then c.unzip(f.payload) else Some(f.payload);
    if payload.None? then Err(BadCompression)
    else if c.decode(payload.value).None? then Err(BadMessage)
    else Ok(c.decode(payload.value).value)
  }

  /** grpc_encode */
  function GrpcEncode<M>(c: Codec<M>, m: M, gzip: bool): Result<Bytes> {
    var f := Wrapped(c, m, gzip);
    if Sendable(f) then Ok(FrameBytes(f)) else Err(LengthOutOfRange)
  }

  /** grpc_stream_encode */
  function GrpcStreamEncode<M>(c: Codec<M>, ms: seq<M>, gzip: bool): Result<Bytes> {
    if ms == [] then Ok([])
    else
      var first := GrpcEncode(c, ms[0], gzip);
      if first.Err? then first
      else
        var rest := GrpcStreamEncode(c, ms[1..], gzip);
        if rest.Err? then rest else Ok(first.value + rest.value)
  }

  /** One decoded message stands for itself, any other number is a list. */
  datatype Decoded<+M> = One(message: M) | Many(messages: seq<M>)

  /** The messages of a stream, or the first thing that is wrong with it. */
  function Messages<M>(c: Codec<M>, data: Bytes): Result<seq<M>>
    decreases |data|
  {
    if data == [] then Ok([])
    else
      var head := Head(data);
      if head.Err? then Err(head.fault)
      else
        var m := Opened(c, head.value.0);
        if m.Err? then Err(m.fault) else Prepended([m.value], Messages(c, data[head.value.1..]))
  }

  /** The header checks of grpc_decode at one offset. */
  method NextFrame(data: Bytes, start: nat) returns (r: Result<(Frame, nat)>)
    requires start < |data|
    ensures r == Head(data[start..])
  {
    ghost var rest := data[start..];
    var offset := start;
    if |data| - offset < 5 {
      return Err(IncompleteHeader);
    }
    var compression := data[offset];
    offset := offset + 1;
    if compression != 0 && compression != 1 {
      return Err(UnsupportedFlag);
    }
    assert data[offset..offset + 4] == rest[1..5];
    var messageLength := DecodeLength(data[offset..offset + 4]).value;
    offset := offset + 4;
    if |data| - offset < messageLength {
      return Err(IncompleteBody);
    }
    assert data[offset..offset + messageLength] == rest[5..5 + messageLength];
    r := Ok((Frame(compression == 1, data[offset..offset + messageLength]), 5 + messageLength));
  }

  /** grpc_decode */
  method GrpcDecode<M>(c: Codec<M>, data: Bytes) returns (r: Result<Decoded<M>>)
    ensures r.Err? <==> Messages(c, data).Err?
    ensures r.Err? ==> r.fault == Messages(c, data).fault
    ensures r.Ok? ==>
              var ms := Messages(c, data).value;
              (|ms| == 1 ==> r.value == One(ms[0])) && (|ms| != 1 ==> r.value == Many(ms))
  {
    var results: seq<M>, offset := [], 0;
    assert data[0..] == data;
    PrependTwice([], [], Messages(c, data));
    while offset < |data|
      invariant 0 <= offset <= |data|
      invariant Messages(c, data) == Prepended(results, Messages(c, data[offset..]))
      decreases |data| - offset
    {
      ghost var rest := data[offset..];
      var head := NextFrame(data, offset);
      if head.Err? {
        return Err(head.fault);
      }
      var payload := head.value.0.payload;
      if head.value.0.compressed {
        var unzipped := c.unzip(payload);
        if unzipped.None? {
          return Err(BadCompression);
        }
        payload := unzipped.value;
      }
      var m := c.decode(payload);
      if m.None? {
        return Err(BadMessage);
      }
      offset := offset + head.value.1;
      assert data[offset..] == rest[head.value.1..];
      PrependTwice(results, [m.value], Messages(c, data[offset..]));
      results := results + [m.value];
    }
    assert data[offset..] == [] && results + [] == results;
    r := Ok(if |results| == 1 then One(results[0]) else Many(results));
  }

  /** What is encoded is decoded again, message by message, with or without compression. */
  lemma {:induction false} MessagesRoundTrip<M(!new)>(c: Codec<M>, ms: seq<M>, gzip: bool)
    requires Inverse(c) && GrpcStreamEncode(c, ms, gzip).Ok?
    ensures Messages(c, GrpcStreamEncode(c, ms, gzip).value) == Ok(ms)
  {
    if ms != [] {
      var f, rest := Wrapped(c, ms[0], gzip), GrpcStreamEncode(c, ms[1..], gzip).value;
      HeadOfFrame(f, rest);
      assert Opened(c, f) == Ok(ms[0]);
      assert (FrameBytes(f) + rest)[|FrameBytes(f)|..] == rest;
      MessagesRoundTrip(c, ms[1..], gzip);
      assert [ms[0]] + ms[1..] == ms;
    }
  }

  /** Encoding fails exactly when some message does not fit a four-byte length. */
  lemma {:induction false} EncodingFails<M>(c: Codec<M>, ms: seq<M>, gzip: bool)
    ensures GrpcStreamEncode(c, ms, gzip).Err? <==> exists k :: 0 <= k < |ms| && !Sendable(Wrapped(c, ms[k], gzip))
  {
    if ms != [] {
      EncodingFails(c, ms[1..], gzip);
      assert forall k :: 0 <= k < |ms| - 1 ==> ms[1..][k] == ms[k + 1];
    }
  }

  /** A stream decodes exactly when it splits into frames that all open, and then message by message. */
  lemma {:induction false} MessagesAreOpenedFrames<M>(c: Codec<M>, data: Bytes)
    ensures Messages(c, data).Ok? <==> Split(data).Ok? && forall f :: f in Split(data).value ==> Opened(c, f).Ok?
    ensures Messages(c, data).Ok? ==>
              var frames := Split(data).value;
              && |Messages(c, data).value| == |frames|
              && forall k :: 0 <= k < |frames| ==> Opened(c, frames[k]) == Ok(Messages(c, data).value[k])
    decreases |data|
  {
    if data != [] && Head(data).Ok? {
      var (frame, taken) := Head(data).value;
      MessagesAreOpenedFrames(c, data[taken..]);
      if Split(data[taken..]).Ok? {
        var rest := Split(data[taken..]).value;
        assert Split(data).value == [frame] + rest;
        assert frame in [frame] + rest;
        assert forall f :: f in rest ==> f in [frame] + rest;
      }
    }
  }

  /** What is wrong with a stream is what is wrong with its first frame, if anything is. */
  lemma FirstFrameFaults<M>(c: Codec<M>, data: Bytes)
    requires data != []
    ensures var size := if |data| < 5 then 0 else DecodeLength(data[1..5]).value;
            var rest := Messages(c, data);
            && (|data| < 5 ==> rest == Err(IncompleteHeader))
            && (|data| >= 5 && data[0] > 1 ==> rest == Err(UnsupportedFlag))
            && (|data| >= 5 && data[0] <= 1 && |data| - 5 < size ==> rest == Err(IncompleteBody))
            && (|data| >= 5 && data[0] <= 1 && |data| - 5 >= size ==>
                  var body := data[5..5 + size];
                  var plain := if data[0] == 1 then c.unzip(body) else Some(body);
                  && (plain.None? ==> rest == Err(BadCompression))
                  && (plain.Some? && c.decode(plain.value).None? ==> rest == Err(BadMessage))
                  && (plain.Some? && c.decode(plain.value).Some? ==>
                        rest == Prepended([c.decode(plain.value).value], Messages(c, data[5 + size..]))))
  {
  }
}
