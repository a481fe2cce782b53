/** The cache entry of a profile: the ETag, a newline, and the body. */
module CacheCodec {
  type Bytes = seq<bv8>

  const NEW_LINE: bv8 := 10

  datatype DecodeError = TooFewValues | EmptyETag | EmptyBody

  datatype Entry = Entry(body: Bytes, etag: Bytes)

  datatype Decoded = Ok(entry: Entry) | Err(error: DecodeError)

  /** The position of the first `b` in `bytes`, or -1. */
  function IndexByte(bytes: Bytes, b: bv8): (n: int)
    ensures -1 <= n < |bytes|
    ensures n == -1 ==> b !in bytes
    ensures n >= 0 ==> bytes[n] == b && b !in bytes[..n]
  {
    if bytes == [] then -1
    else if bytes[0] == b then 0
    else
      var rest := IndexByte(bytes[1..], b);
      assert rest >= 0 ==> bytes[..rest + 1] == [bytes[0]] + bytes[1..][..rest];
      if rest == -1 then -1 else rest + 1
  }

  function SegmentsFromBytes(bytes: Bytes): Decoded {
    var n := IndexByte(bytes, NEW_LINE);
    if n == -1 then Err(TooFewValues)
    else
      var etag := bytes[..n];
      if |etag| == 0 then Err(EmptyETag)
      else
        var body := bytes[n + 1..];
        if |body| == 0 then Err(EmptyBody) else Ok(Entry(body, etag))
  }

  function SegmentsToBytes(etag: Bytes, body: Bytes): Bytes {
    etag + [NEW_LINE] + body
  }

  lemma FirstAt(bytes: Bytes, b: bv8, i: nat)
    requires i < |bytes| && bytes[i] == b && b !in bytes[..i]
    ensures IndexByte(bytes, b) == i
  {
  }

  /** Why an entry is refused. */
  lemma DecodeErrors(bytes: Bytes)
    ensures SegmentsFromBytes(bytes) == Err(TooFewValues) <==> NEW_LINE !in bytes
    ensures SegmentsFromBytes(bytes) == Err(EmptyETag) <==> bytes != [] && bytes[0] == NEW_LINE
    ensures SegmentsFromBytes(bytes) == Err(EmptyBody) <==>
            |bytes| > 1 && bytes[|bytes| - 1] == NEW_LINE && NEW_LINE !in bytes[..|bytes| - 1]
  {
    hide IndexByte;
    EmptyETagIff(bytes);
    EmptyBodyIff(bytes);
  }

  lemma EmptyETagIff(bytes: Bytes)
    ensures IndexByte(bytes, NEW_LINE) == 0 <==> bytes != [] && bytes[0] == NEW_LINE
  {
  }

  lemma EmptyBodyIff(bytes: Bytes)
    ensures IndexByte(bytes, NEW_LINE) == |bytes| - 1 > 0 <==>
            |bytes| > 1 && bytes[|bytes| - 1] == NEW_LINE && NEW_LINE !in bytes[..|bytes| - 1]
  {
    hide IndexByte;
    if |bytes| > 1 && bytes[|bytes| - 1] == NEW_LINE && NEW_LINE !in bytes[..|bytes| - 1] {
      FirstAt(bytes, NEW_LINE, |bytes| - 1);
    }
  }

  /** An entry survives the cache exactly when its ETag is nonempty and free of newlines and
      its body is nonempty. */
  lemma DecodeEncode(etag: Bytes, body: Bytes)
    ensures SegmentsFromBytes(SegmentsToBytes(etag, body)) == Ok(Entry(body, etag))
            <==> etag != [] && NEW_LINE !in etag && body != []
  {
    var bytes := SegmentsToBytes(etag, body);
    var n := IndexByte(bytes, NEW_LINE);
    assert bytes[|etag|] == NEW_LINE;
    assert bytes[..|etag|] == etag && bytes[|etag| + 1..] == body;
    assert forall i :: 0 <= i < n ==> bytes[..n][i] == bytes[i];
    assert 0 <= n <= |etag|;
    if n < |etag| {
      assert etag[n] == bytes[n] && |bytes[..n]| < |etag|;
    }
  }

  /** Whatever decodes is the encoding of what it decodes to. */
  lemma EncodeDecode(bytes: Bytes)
    requires SegmentsFromBytes(bytes).Ok?
    ensures var e := SegmentsFromBytes(bytes).entry;
            SegmentsToBytes(e.etag, e.body) == bytes && e.etag != [] && NEW_LINE !in e.etag && e.body != []
  {
  }
}
