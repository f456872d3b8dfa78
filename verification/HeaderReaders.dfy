/** The two readers that look for the end of a header in a byte stream: `read_proxy_request` of
    `src/http_proxy.rs`, which takes what the socket gives, and `UpstreamProxy::http_connect` of
    `src/upstream.rs`, which takes one byte at a time. */
module HeaderReaders {
  import opened Wrappers
  import opened Text
  import opened Utf8

  const MAX_HEADER_BYTES: nat := 16 * 1024
  const MAX_CONNECT_RESPONSE_BYTES: nat := 8 * 1024
  const READ_SIZE: nat := 1024
  const TERMINATOR: seq<byte> := [13, 10, 13, 10]

  /** What one `read` into a 1024-byte buffer returns before the peer closes. */
  type Chunk = c: seq<byte> | 1 <= |c| <= READ_SIZE witness [0]

  lemma FlattenSplit(chunks: seq<seq<byte>>, k: nat)
    requires k <= |chunks|
    ensures Flatten(chunks) == Flatten(chunks[..k]) + Flatten(chunks[k..])
  {
    FlattenAppend(chunks[..k], chunks[k..]);
    assert chunks == chunks[..k] + chunks[k..];
  }

  function Before(chunks: seq<seq<byte>>, k: nat): seq<byte>
    requires k <= |chunks|
  {
    Flatten(chunks[..k])
  }

  lemma OneMore(chunks: seq<seq<byte>>, k: nat)
    requires k < |chunks|
    ensures Before(chunks, k + 1) == Before(chunks, k) + chunks[k]
    ensures Flatten(chunks) == Before(chunks, k) + Flatten(chunks[k..])
  {
    assert chunks[..k + 1] == chunks[..k] + [chunks[k]];
    FlattenAppend(chunks[..k], [chunks[k]]);
    assert Flatten([chunks[k]]) == chunks[k];
    FlattenSplit(chunks, k);
  }

  // ---- The client header ----

  /** `k` reads are the fewest that hold the first `end` bytes. */
  predicate IsCover(chunks: seq<Chunk>, k: nat, end: nat) {
    0 < k <= |chunks| && |Before(chunks, k - 1)| < end <= |Before(chunks, k)|
  }

  /** The stream has a terminator, and the reads it takes to see all of it hold no more than the
      limit. */
  ghost predicate Accepts(chunks: seq<Chunk>) {
    match IndexOf(Flatten(chunks), TERMINATOR)
    case Some(pos) => exists k :: IsCover(chunks, k, pos + 4) && |Before(chunks, k)| <= MAX_HEADER_BYTES
    case None => false
  }

  /** The loop of `read_proxy_request`: the header is the stream up to its first terminator, the
      leftover is the rest of what the `used` reads gave. */
  method ReadHeader(chunks: seq<Chunk>) returns (header: Result<seq<byte>>, leftover: seq<byte>, used: nat)
    ensures used <= |chunks|
    ensures header.Ok? <==> Accepts(chunks)
    ensures header.Ok? ==>
              && IndexOf(Flatten(chunks), TERMINATOR) == Some(|header.value|)
              && Before(chunks, used) == header.value + TERMINATOR + leftover
              && IsCover(chunks, used, |header.value| + 4)
  {
    var buffer: seq<byte> := [];
    used := 0;
    leftover := [];
    while used < |chunks|
      invariant used <= |chunks|
      invariant buffer == Before(chunks, used)
      invariant IndexOf(buffer, TERMINATOR) == None
    {
      OneMore(chunks, used);
      IndexOfPrefix(buffer, Flatten(chunks[used..]), TERMINATOR);
      buffer := buffer + chunks[used];
      used := used + 1;
      FlattenSplit(chunks, used);
      IndexOfPrefix(buffer, Flatten(chunks[used..]), TERMINATOR);
      if |buffer| > MAX_HEADER_BYTES {
        RefusedWhenFull(chunks, used);
        return Err, [], used;
      }
      match IndexOf(buffer, TERMINATOR) {
        case Some(pos) =>
          assert IsCover(chunks, used, pos + 4);
          assert buffer == buffer[..pos] + buffer[pos..pos + 4] + buffer[pos + 4..];
          return Ok(buffer[..pos]), buffer[pos + 4..], used;
        case None =>
      }
    }
    assert chunks[..used] == chunks;
    header := Err;
  }

  lemma RefusedWhenFull(chunks: seq<Chunk>, k: nat)
    requires 0 < k <= |chunks| && |Before(chunks, k)| > MAX_HEADER_BYTES
    requires IndexOf(Flatten(chunks), TERMINATOR).Some? ==>
               |Before(chunks, k - 1)| < IndexOf(Flatten(chunks), TERMINATOR).value + 4
    ensures !Accepts(chunks)
  {
    if IndexOf(Flatten(chunks), TERMINATOR).Some? {
      var end := IndexOf(Flatten(chunks), TERMINATOR).value + 4;
      forall l: nat | IsCover(chunks, l, end) ensures |Before(chunks, l)| > MAX_HEADER_BYTES {
        if l < k {
          BeforeGrows(chunks, l, k - 1);
        } else {
          BeforeGrows(chunks, k, l);
        }
      }
    }
  }

  lemma {:induction false} BeforeGrows(chunks: seq<Chunk>, a: nat, b: nat)
    requires a <= b <= |chunks|
    ensures |Before(chunks, a)| + (b - a) <= |Before(chunks, b)| <= |Before(chunks, a)| + (b - a) * READ_SIZE
    decreases b
  {
    if a < b {
      BeforeGrows(chunks, a, b - 1);
      OneMore(chunks, b - 1);
    }
  }

  lemma {:induction false} CoverExists(chunks: seq<Chunk>, n: nat, end: nat) returns (k: nat)
    requires n <= |chunks| && 0 < end <= |Before(chunks, n)|
    ensures IsCover(chunks, k, end) && k <= n
  {
    if n > 0 && |Before(chunks, n - 1)| < end {
      k := n;
    } else {
      assert n > 0;
      k := CoverExists(chunks, n - 1, end);
    }
  }

  /** The size limit, in terms of where the terminator ends: 15361 bytes or fewer pass however the
      stream is cut into reads, more than 16384 never do. */
  lemma LimitForEveryChunking(chunks: seq<Chunk>, pos: nat)
    requires IndexOf(Flatten(chunks), TERMINATOR) == Some(pos)
    ensures pos + 4 <= 15361 ==> Accepts(chunks)
    ensures pos + 4 > 16384 ==> !Accepts(chunks)
  {
    assert chunks[..|chunks|] == chunks;
    var k := CoverExists(chunks, |chunks|, pos + 4);
    OneMore(chunks, k - 1);
  }

  function Bytewise(bytes: seq<byte>): (chunks: seq<Chunk>)
    ensures |chunks| == |bytes| && forall i | 0 <= i < |bytes| :: chunks[i] == [bytes[i]]
  {
    seq(|bytes|, i requires 0 <= i < |bytes| => [bytes[i]])
  }

  lemma {:induction false} FlattenBytewise(bytes: seq<byte>)
    ensures Flatten(Bytewise(bytes)) == bytes
  {
    if bytes != [] {
      assert Bytewise(bytes)[1..] == Bytewise(bytes[1..]);
      FlattenBytewise(bytes[1..]);
    }
  }

  lemma BytewisePasses(stream: seq<byte>, pos: nat)
    requires IndexOf(stream, TERMINATOR) == Some(pos) && pos + 4 <= MAX_HEADER_BYTES
    ensures Flatten(Bytewise(stream)) == stream && Accepts(Bytewise(stream))
  {
    var chunks, end := Bytewise(stream), pos + 4;
    FlattenBytewise(stream);
    forall k: nat | k <= |stream| ensures |Before(chunks, k)| == k {
      assert chunks[..k] == Bytewise(stream[..k]);
      FlattenBytewise(stream[..k]);
    }
    assert IsCover(chunks, end, end);
  }

  lemma ThreeParts(head: seq<byte>, full: Chunk, tail: seq<byte>)
    ensures Flatten(Bytewise(head) + [full] + Bytewise(tail)) == head + full + tail
  {
    FlattenBytewise(head);
    FlattenBytewise(tail);
    FlattenAppend(Bytewise(head) + [full], Bytewise(tail));
    FlattenAppend(Bytewise(head), [full]);
    assert Flatten([full]) == full;
  }

  /** A read that completes the terminator, as full as it can be. */
  lemma FullReadFails(stream: seq<byte>, pos: nat) returns (chunks: seq<Chunk>)
    requires IndexOf(stream, TERMINATOR) == Some(pos)
    requires MAX_HEADER_BYTES - READ_SIZE + 1 < pos + 4 && |stream| > MAX_HEADER_BYTES
    ensures Flatten(chunks) == stream && !Accepts(chunks)
  {
    var before := pos + 3;
    var after := if |stream| >= before + READ_SIZE then before + READ_SIZE else |stream|;
    var head, full, tail := stream[..before], stream[before..after], stream[after..];
    chunks := Bytewise(head) + [full] + Bytewise(tail);
    ThreeParts(head, full, tail);
    assert head + full + tail == stream;
    assert chunks[..before] == Bytewise(head);
    FlattenBytewise(head);
    OneMore(chunks, before);
    RefusedWhenFull(chunks, before + 1);
  }

  /** A stream that fits the limit as a whole passes however it is cut. */
  lemma ShortStreamsPass(chunks: seq<Chunk>, pos: nat)
    requires IndexOf(Flatten(chunks), TERMINATOR) == Some(pos) && |Flatten(chunks)| <= MAX_HEADER_BYTES
    ensures Accepts(chunks)
  {
    assert chunks[..|chunks|] == chunks;
    var k := CoverExists(chunks, |chunks|, pos + 4);
    FlattenSplit(chunks, k);
  }

  ghost predicate SomeCutFails(stream: seq<byte>) {
    exists chunks: seq<Chunk> :: Flatten(chunks) == stream && !Accepts(chunks)
  }

  /** Between the two bounds it depends on the reads alone: byte by byte the stream passes, and some
      way to cut it fails exactly when the whole of it exceeds the limit. */
  lemma LimitIsSharp(stream: seq<byte>, pos: nat)
    requires IndexOf(stream, TERMINATOR) == Some(pos)
    requires 15361 < pos + 4 <= 16384
    ensures Flatten(Bytewise(stream)) == stream && Accepts(Bytewise(stream))
    ensures SomeCutFails(stream) <==> |stream| > 16384
  {
    BytewisePasses(stream, pos);
    if |stream| > MAX_HEADER_BYTES {
      var chunks := FullReadFails(stream, pos);
      assert SomeCutFails(stream);
    } else {
      forall chunks: seq<Chunk> | Flatten(chunks) == stream ensures Accepts(chunks) {
        ShortStreamsPass(chunks, pos);
      }
    }
  }

  // ---- The answer of an HTTP proxy to CONNECT ----

  /** The loop of `http_connect`: the response ends with the first terminator of the stream, `read`
      bytes were taken and not one more, and it is accepted exactly when it fits the limit. */
  method ReadConnectResponse(stream: seq<byte>) returns (response: Result<seq<byte>>, read: nat)
    ensures read <= |stream|
    ensures response.Ok? <==>
              && IndexOf(stream, TERMINATOR).Some?
              && IndexOf(stream, TERMINATOR).value + 4 <= 8192
    ensures response.Ok? ==>
              && read == IndexOf(stream, TERMINATOR).value + 4
              && response.value == stream[..read]
  {
    var bytes: seq<byte> := [];
    read := 0;
    while !(|bytes| >= 4 && bytes[|bytes| - 4..] == TERMINATOR)
      invariant read <= |stream| && bytes == stream[..read]
      invariant read <= MAX_CONNECT_RESPONSE_BYTES
      invariant forall j: nat | j + 4 < read :: !At(stream, TERMINATOR, j)
      decreases |stream| - read
    {
      assert read >= 4 ==> stream[read - 4..read] == bytes[read - 4..];
      if |bytes| >= MAX_CONNECT_RESPONSE_BYTES {
        return Err, read;
      }
      if read == |stream| {
        return Err, read;
      }
      bytes := bytes + [stream[read]];
      read := read + 1;
    }
    assert stream[read - 4..read] == bytes[|bytes| - 4..];
    IndexOfIs(stream, TERMINATOR, read - 4);
    response := Ok(bytes);
  }
}
