/** Reading a request body without ever buffering more than one byte beyond the limit. */
module BodyReader {
  import opened Options

  type Byte = bv8

  /** A request stream: a read returns any non-empty chunk that fits, and nothing only at the end. */
  class Stream {
    var data: seq<Byte>

    constructor (data: seq<Byte>)
      ensures this.data == data
    {
      this.data := data;
    }

    method Read(n: nat) returns (chunk: seq<Byte>)
      modifies this
      ensures old(data) == chunk + data && |chunk| <= n
      ensures chunk == [] <==> old(data) == [] || n == 0
    {
      chunk := [];
      if data != [] && n > 0 {
        var size: nat :| 0 < size <= n && size <= |data|;
        chunk, data := data[..size], data[size..];
      }
    }
  }

  /** `b"".join(chunks)` */
  function Join(chunks: seq<seq<Byte>>): seq<Byte> {
    if chunks == [] then [] else Join(chunks[..|chunks| - 1]) + chunks[|chunks| - 1]
  }

  lemma JoinAppend(chunks: seq<seq<Byte>>, chunk: seq<Byte>)
    ensures Join(chunks + [chunk]) == Join(chunks) + chunk
  {
    assert (chunks + [chunk])[..|chunks|] == chunks;
  }

  datatype TooLarge = TooLarge

  /** `_read_limited_body`: for every way the stream cuts its data into chunks, the body is returned
      whole if and only if it fits and no larger length was declared, and at most one byte beyond the
      limit is consumed. */
  method ReadLimitedBody(stream: Stream, contentLength: Option<int>, limit: int) returns (body: Result<seq<Byte>,
      TooLarge>)
    modifies stream
    ensures contentLength.Some? && contentLength.value > limit ==> body.Err? && stream.data == old(stream.data)
    ensures contentLength.None? || contentLength.value <= limit ==>
              body == if |old(stream.data)| <= limit then Ok(old(stream.data)) else Err(TooLarge)
    ensures exists consumed: seq<Byte> :: old(stream.data) == consumed + stream.data
              && (consumed == [] || |consumed| <= limit + 1)
  {
    ghost var whole := stream.data;
    if contentLength.Some? && contentLength.value > limit {
      assert whole == [] + stream.data;
      return Err(TooLarge);
    }
    var remaining := limit + 1;
    var chunks: seq<seq<Byte>> := [];
    while remaining > 0
      invariant whole == Join(chunks) + stream.data
      invariant remaining == limit + 1 - |Join(chunks)|
      invariant limit >= -1 ==> remaining >= 0
      invariant limit < -1 ==> chunks == []
      decreases remaining
    {
      var chunk := stream.Read(remaining);
      if chunk == [] { break; }
      JoinAppend(chunks, chunk);
      chunks := chunks + [chunk];
      remaining := remaining - |chunk|;
    }
    var raw := Join(chunks);
    if |raw| > limit { return Err(TooLarge); }
    assert stream.data == [] && whole == raw;
    return Ok(raw);
  }
}
