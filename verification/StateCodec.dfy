/** The envelope of serialized scheduler state: scrapy_cffi/utils/state_codec.py. JSON text and zlib
    stay abstract. */
module StateCodec {
  import opened Common

  type Octets = seq<nat>

  const MAGIC: Octets := [83, 67, 70, 49]    // SCF1
  const RAW: nat := 74                       // J
  const ZLIB: nat := 90                      // Z
  const MAX_STATE_BYTES: nat := 16 * 1024 * 1024

  /** How a compressed stream ends: in data that zlib rejects, too early, or properly, with or without
      further data behind it. */
  datatype End = Broken | Truncated | Ended(unused: bool)

  /** Everything that can be read from a compressed stream, and what comes then. */
  datatype Stream = Stream(output: Octets, end: End)

  datatype Zlib = Zlib(compress: Octets -> Octets, decompress: Octets -> Stream)

  ghost predicate Inverse(z: Zlib) {
    forall b :: z.decompress(z.compress(b)) == Stream(b, Ended(false))
  }

  /** zlib.decompressobj(). A call that fills its limit stops there and sees nothing of what comes
      behind; any other reads the stream to its end. */
  class Decompressor {
    const stream: Stream
    var taken: nat

    ghost predicate Valid()
      reads this
    {
      taken <= |stream.output|
    }

    constructor (stream: Stream)
      ensures Valid() && this.stream == stream && taken == 0
    {
      this.stream, taken := stream, 0;
    }

    /** decompress(data, limit); None is zlib.error. `tail` is unconsumed_tail. */
    method Decompress(limit: nat) returns (out: Option<Octets>, tail: bool)
      requires Valid() && limit > 0
      modifies this`taken
      ensures Valid()
      ensures out.None? <==> |stream.output| - old(taken) < limit && stream.end.Broken?
      ensures out.Some? ==> old(taken) <= taken && out.value == stream.output[old(taken)..taken] && |out.value| <= limit
      ensures out.Some? && |out.value| < limit ==> taken == |stream.output|
      ensures tail ==> out.Some? && |out.value| == limit
    {
      var left := |stream.output| - taken;
      if left < limit && stream.end.Broken? {
        return None, false;
      }
      var n := if left < limit then left else limit;
      out, tail := Some(stream.output[taken..taken + n]), n == limit && left > n;
      taken := taken + n;
    }

    /** flush(): all that is left, however much; its argument is no limit. */
    method Flush() returns (out: Octets)
      requires Valid()
      modifies this`taken
      ensures Valid() && out == stream.output[old(taken)..] && taken == |stream.output|
    {
      out := stream.output[taken..];
      taken := |stream.output|;
    }
  }

  datatype Fault = TooLarge | UnsupportedFormat | UnsupportedEncoding | InvalidStream

  datatype Result = Ok(data: Octets) | Err(fault: Fault)

  /** encode_state, from the JSON text on. */
  function Encoded(z: Zlib, raw: Octets, maxSize: nat): Result {
    if |raw| > maxSize then Err(TooLarge)
    else if |z.compress(raw)| < |raw| then Ok(MAGIC + [ZLIB] + z.compress(raw))
    else Ok(MAGIC + [RAW] + raw)
  }

  function Decoded(z: Zlib, payload: Octets, maxSize: nat): Result {
    if !(MAGIC < payload) then Err(UnsupportedFormat)
    else
      var data := payload[5..];
      if payload[4] == ZLIB then
        var stream := z.decompress(data);
        if |stream.output| > maxSize then Err(TooLarge)
        else if stream.end != Ended(false) then Err(InvalidStream)
        else Ok(stream.output)
      else if payload[4] != RAW then Err(UnsupportedEncoding)
      else if |data| > maxSize then Err(TooLarge)
      else Ok(data)
  }

  /** decode_state, up to the JSON text: `decompressed` counts what the two calls of the decompressor
      produce together, never more than one byte beyond the limit. */
  method DecodeState(z: Zlib, payload: Octets, maxSize: nat) returns (r: Result, decompressed: nat)
    ensures r == Decoded(z, payload, maxSize)
    ensures decompressed <= maxSize + 1
  {
    decompressed := 0;
    if !(MAGIC <= payload) || |payload| <= |MAGIC| {
      return Err(UnsupportedFormat), 0;
    }
    var encoding, data := payload[4], payload[5..];
    if encoding == ZLIB {
      var decompressor := new Decompressor(z.decompress(data));
      var first, tail := decompressor.Decompress(maxSize + 1);
      if first.None? {
        return Err(InvalidStream), 0;
      }
      data, decompressed := first.value, |first.value|;
      if |data| > maxSize || tail {
        return Err(TooLarge), decompressed;
      }
      var rest := decompressor.Flush();
      data, decompressed := data + rest, decompressed + |rest|;
      if |data| > maxSize {
        return Err(TooLarge), decompressed;
      }
      if !decompressor.stream.end.Ended? || decompressor.stream.end.unused {
        return Err(InvalidStream), decompressed;
      }
    } else if encoding != RAW {
      return Err(UnsupportedEncoding), 0;
    } else if |data| > maxSize {
      return Err(TooLarge), 0;
    }
    r := Ok(data);
  }

  /** State that is encoded is decoded again under the same limit; it is refused exactly when it is too
      large, and the envelope costs at most five bytes. */
  lemma StateRoundTrip(z: Zlib, raw: Octets, maxSize: nat)
    requires Inverse(z)
    ensures Encoded(z, raw, maxSize).Ok? <==> |raw| <= maxSize
    ensures Encoded(z, raw, maxSize).Ok? ==>
              && Decoded(z, Encoded(z, raw, maxSize).data, maxSize) == Ok(raw)
              && |Encoded(z, raw, maxSize).data| <= |raw| + 5
  {
    if |raw| <= maxSize {
      var body := if |z.compress(raw)| < |raw| then z.compress(raw) else raw;
      var kind := if |z.compress(raw)| < |raw| then ZLIB else RAW;
      var payload := MAGIC + [kind] + body;
      assert payload[5..] == body && payload[4] == kind && payload[..4] == MAGIC;
    }
  }

  /** No payload, however made, is decoded to more than the limit. */
  lemma DecodedIsBounded(z: Zlib, payload: Octets, maxSize: nat)
    ensures Decoded(z, payload, maxSize).Ok? ==> |Decoded(z, payload, maxSize).data| <= maxSize
    ensures Decoded(z, payload, maxSize).Ok? ==> |payload| > 4 && payload[..4] == MAGIC && payload[4] in {RAW, ZLIB}
  {
  }

  /** The payload is the envelope and the shorter of the text and its compressed form. */
  lemma EncodedIsShortest(z: Zlib, raw: Octets, maxSize: nat)
    requires |raw| <= maxSize
    ensures var payload, packed := Encoded(z, raw, maxSize).data, z.compress(raw);
            && |payload| == 5 + (if |packed| < |raw| then |packed| else |raw|)
            && payload[..4] == [0x53, 0x43, 0x46, 0x31]
            && payload[4] == (if |packed| < |raw| then 0x5a else 0x4a)
            && payload[5..] == (if |packed| < |raw| then packed else raw)
  {
    var body := if |z.compress(raw)| < |raw| then z.compress(raw) else raw;
    var payload := Encoded(z, raw, maxSize).data;
    assert payload == MAGIC + [payload[4]] + body;
  }

  /** What is accepted behind the magic: text within the limit, or a stream that ends properly, with
      nothing behind it, and whose output is within the limit. */
  lemma AcceptedExactly(z: Zlib, encoding: nat, data: Octets, maxSize: nat)
    ensures var r, stream := Decoded(z, MAGIC + [encoding] + data, maxSize), z.decompress(data);
            && (encoding == RAW ==> r == if |data| <= maxSize then Ok(data) else Err(TooLarge))
            && (encoding == ZLIB ==>
                  && (r == Ok(stream.output) <==> stream.end == Ended(false) && |stream.output| <= maxSize)
                  && (r == Err(TooLarge) <==> |stream.output| > maxSize)
                  && (r.Err? && |stream.output| <= maxSize ==> r.fault == InvalidStream))
            && (encoding != RAW && encoding != ZLIB ==> r == Err(UnsupportedEncoding))
  {
    var payload := MAGIC + [encoding] + data;
    assert payload[5..] == data && payload[4] == encoding && payload[..4] == MAGIC;
  }
}
