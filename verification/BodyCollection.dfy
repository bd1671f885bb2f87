/** Collecting a request body from a stream of chunks, up to the length its range declares. */
module Bodies {
  import opened Wrappers
  import opened Uploads

  /** What one poll of the body stream yields. */
  datatype StreamItem = Chunk(bytes: seq<byte>) | Broken

  datatype BodyError =
    | Unreadable
    | TooLong(limit: nat)
    | WrongLength(actual: nat, limit: nat)

  function SaturatingAdd(a: nat, b: nat): nat {
    if a + b > USIZE_MAX then USIZE_MAX else a + b
  }

  predicate AllChunks(stream: seq<StreamItem>) {
    forall i | 0 <= i < |stream| :: stream[i].Chunk?
  }

  /** The body a stream carries, up to its first failure. */
  function Flatten(stream: seq<StreamItem>): seq<byte> {
    if stream == [] || stream[0].Broken? then [] else stream[0].bytes + Flatten(stream[1..])
  }

  /** Continues collecting `stream` after the bytes in `held`. */
  function CollectAfter(held: seq<byte>, stream: seq<StreamItem>, limit: nat): Result<seq<byte>, BodyError>
    decreases |stream|
  {
    if stream == [] then
      if |held| != limit then Failure(WrongLength(|held|, limit)) else Success(held)
    else if stream[0].Broken? then Failure(Unreadable)
    else if SaturatingAdd(|held|, |stream[0].bytes|) > limit then Failure(TooLong(limit))
    else CollectAfter(held + stream[0].bytes, stream[1..], limit)
  }

  function Collected(stream: seq<StreamItem>, limit: nat): Result<seq<byte>, BodyError> {
    CollectAfter([], stream, limit)
  }

  /** The collection loop; `peak` records the most it ever held. */
  method CollectBody(stream: seq<StreamItem>, limit: nat)
    returns (r: Result<seq<byte>, BodyError>, ghost peak: nat)
    ensures r == Collected(stream, limit)
    ensures limit < USIZE_MAX ==> peak <= limit
  {
    var bytes: seq<byte> := [];
    peak := 0;
    var i := 0;
    while i < |stream|
      invariant 0 <= i <= |stream|
      invariant Collected(stream, limit) == CollectAfter(bytes, stream[i..], limit)
      invariant limit < USIZE_MAX ==> |bytes| <= peak <= limit
    {
      assert stream[i..][0] == stream[i] && stream[i..][1..] == stream[i + 1..];
      if stream[i].Broken? {
        return Failure(Unreadable), peak;
      }
      var nextSize := SaturatingAdd(|bytes|, |stream[i].bytes|);
      if nextSize > limit {
        return Failure(TooLong(limit)), peak;
      }
      bytes := bytes + stream[i].bytes;
      peak := if |bytes| > peak then |bytes| else peak;
      i := i + 1;
    }
    if |bytes| != limit {
      return Failure(WrongLength(|bytes|, limit)), peak;
    }
    return Success(bytes), peak;
  }

  lemma {:induction false} CollectAfterIsExact(held: seq<byte>, stream: seq<StreamItem>, limit: nat)
    requires limit <= USIZE_MAX
    ensures var whole := held + Flatten(stream);
            && (CollectAfter(held, stream, limit).Success? <==> AllChunks(stream) && |whole| == limit)
            && (|held| <= limit < USIZE_MAX ==>
                CollectAfter(held, stream, limit) ==
                if |whole| > limit then Failure(TooLong(limit))
                else if !AllChunks(stream) then Failure(Unreadable)
                else if |whole| < limit then Failure(WrongLength(|whole|, limit))
                else Success(whole))
            && (CollectAfter(held, stream, limit).Success? ==>
                CollectAfter(held, stream, limit).value == whole)
    decreases |stream|
  {
    if stream != [] {
      assert stream == [stream[0]] + stream[1..];
      assert AllChunks(stream) <==> stream[0].Chunk? && AllChunks(stream[1..]);
      if stream[0].Chunk? {
        assert held + Flatten(stream) == (held + stream[0].bytes) + Flatten(stream[1..]);
        CollectAfterIsExact(held + stream[0].bytes, stream[1..], limit);
      }
    } else {
      assert held + Flatten(stream) == held;
    }
  }

  /** Success means an unbroken stream of exactly the declared length, and yields all of it. */
  lemma CollectedIsExact(stream: seq<StreamItem>, limit: nat)
    requires limit <= USIZE_MAX
    ensures Collected(stream, limit).Success? <==> AllChunks(stream) && |Flatten(stream)| == limit
    ensures Collected(stream, limit).Success? ==> Collected(stream, limit).value == Flatten(stream)
  {
    CollectAfterIsExact([], stream, limit);
    var nothing: seq<byte> := [];
    assert nothing + Flatten(stream) == Flatten(stream);
  }

  /** What arrives before a stream breaks counts: too much of it is refused as too long. */
  lemma RefusedBodies(stream: seq<StreamItem>, limit: nat)
    requires limit < USIZE_MAX
    ensures Collected(stream, limit) ==
            if |Flatten(stream)| > limit then Failure(TooLong(limit))
            else if !AllChunks(stream) then Failure(Unreadable)
            else if |Flatten(stream)| < limit then Failure(WrongLength(|Flatten(stream)|, limit))
            else Success(Flatten(stream))
  {
    CollectAfterIsExact([], stream, limit);
    var nothing: seq<byte> := [];
    assert nothing + Flatten(stream) == Flatten(stream);
  }

  /** How a body was cut into chunks never shows: neither in the bytes nor in the error. */
  lemma ChunkingIsInvisible(one: seq<StreamItem>, other: seq<StreamItem>, limit: nat)
    requires AllChunks(one) && AllChunks(other) && Flatten(one) == Flatten(other)
    requires limit < USIZE_MAX
    ensures Collected(one, limit) == Collected(other, limit)
  {
    CollectAfterIsExact([], one, limit);
    CollectAfterIsExact([], other, limit);
  }
}
