/**
  Reading loops over sources that hand out arbitrary pieces: the length-prefixed frame on
  the boundary's socket, and the evidence files that are hashed while their metadata must
  not move.
 */
module EvidenceStreams {
  import opened Texts

  datatype Failure = TimeoutFailure | IoFailure | FramingFailure | FileFailure
  datatype Result<+T> = Ok(value: T) | Err(error: Failure)

  // ----- the socket -----

  const MAX_FRAME_BYTES := 2048
  const FRAME_PREFIX_BYTES := 4

  datatype Received = Chunk(bytes: Bytes) | TimedOut | Failed

  /** One accepted connection: what the peer will have sent by the time it closes. */
  class Connection {
    var pending: Bytes
    /** Whether a receive has timed out or failed. */
    ghost var faulted: bool

    constructor (stream: Bytes)
      ensures pending == stream && !faulted
    {
      pending := stream;
      faulted := false;
    }

    /** recv(count): any non-empty piece up to count bytes, nothing at end of stream, or a fault. */
    method Recv(count: nat) returns (r: Received)
      requires count > 0
      modifies this
      ensures r.Chunk? ==> |r.bytes| <= count && old(pending) == r.bytes + pending
      ensures r.Chunk? ==> (r.bytes == [] <==> old(pending) == [])
      ensures !r.Chunk? ==> pending == old(pending)
      ensures faulted == (old(faulted) || !r.Chunk?)
    {
      var timeout: bool, fault: bool := *, *;
      faulted := faulted || timeout || fault;
      if timeout {
        return TimedOut;
      }
      if fault {
        return Failed;
      }
      if pending == [] {
        return Chunk([]);
      }
      var k :| 1 <= k <= count && k <= |pending|;
      r := Chunk(pending[..k]);
      pending := pending[k..];
    }

    method RecvExact(count: nat) returns (r: Result<Bytes>)
      modifies this
      ensures r.Ok? ==> |r.value| == count && old(pending) == r.value + pending
      ensures r == Err(FramingFailure) ==> |old(pending)| < count
      ensures r != Err(FileFailure)
      ensures !old(faulted) ==> (faulted <==> r == Err(TimeoutFailure) || r == Err(IoFailure))
    {
      var chunks: Bytes := [];
      while |chunks| < count
        invariant |chunks| <= count && old(pending) == chunks + pending && faulted == old(faulted)
        decreases count - |chunks|
      {
        var chunk := Recv(count - |chunks|);
        match chunk {
          case TimedOut => return Err(TimeoutFailure);
          case Failed => return Err(IoFailure);
          case Chunk(bytes) =>
            if bytes == [] {
              return Err(FramingFailure);
            }
            chunks := chunks + bytes;
        }
      }
      return Ok(chunks);
    }

    /**
      read_frame. Over every way the stream is cut up: a payload is returned only if the
      whole stream is its frame, and the framing failure is raised only if the stream is
      no frame at all; timeouts and I/O errors, the only other outcomes, occur only when a
      receive times out or fails.
     */
    method ReadFrame() returns (r: Result<Bytes>)
      modifies this
      ensures r.Ok? ==> IsFrameOf(old(pending), r.value) && pending == []
      ensures r == Err(FramingFailure) ==> forall p :: !IsFrameOf(old(pending), p)
      ensures r != Err(FileFailure)
      ensures !old(faulted) ==> (faulted <==> r == Err(TimeoutFailure) || r == Err(IoFailure))
    {
      var prefix := RecvExact(FRAME_PREFIX_BYTES);
      if prefix.Err? {
        return prefix;
      }
      ghost var afterPrefix := pending;
      BigEndianOfRead(prefix.value);
      var length := FromBigEndian(prefix.value);
      FramePrefix(old(pending), prefix.value, afterPrefix);
      if length == 0 || length > MAX_FRAME_BYTES {
        return Err(FramingFailure);
      }
      var payload := RecvExact(length);
      if payload.Err? {
        return payload;
      }
      var trailing := Recv(1);
      match trailing {
        case TimedOut => return Err(TimeoutFailure);
        case Failed => return Err(IoFailure);
        case Chunk(bytes) =>
          if bytes != [] {
            return Err(FramingFailure);
          }
      }
      assert afterPrefix == payload.value;
      return payload;
    }
  }

  function Frame(p: Bytes): (b: Bytes)
    requires |p| < 0x1_0000_0000
  {
    BigEndian(|p|) + p
  }

  predicate IsFrameOf(stream: Bytes, p: Bytes) {
    1 <= |p| <= MAX_FRAME_BYTES && stream == Frame(p)
  }

  /** A stream whose first four bytes are known can only be a frame of the rest of it. */
  lemma FramePrefix(stream: Bytes, prefix: Bytes, rest: Bytes)
    requires |prefix| == 4 && stream == prefix + rest
    ensures forall p :: IsFrameOf(stream, p) ==> p == rest && |p| == FromBigEndian(prefix)
  {
    forall p | IsFrameOf(stream, p) ensures p == rest && |p| == FromBigEndian(prefix) {
      assert stream[..4] == BigEndian(|p|) && stream[..4] == prefix;
      assert stream[4..] == p && stream[4..] == rest;
    }
  }

  /** A stream is the frame of at most one payload. */
  lemma FrameUnique(stream: Bytes, p: Bytes, q: Bytes)
    requires IsFrameOf(stream, p) && IsFrameOf(stream, q)
    ensures p == q
  {
    assert stream[4..] == p && stream[4..] == q;
  }

  /** A frame, byte by byte: the length of a payload of at most 2048 bytes, high byte first, and the payload. */
  lemma FrameExactly(stream: Bytes, p: Bytes)
    ensures IsFrameOf(stream, p) <==> 1 <= |p| <= 2048 && stream == [0, 0, |p| / 256, |p| % 256] + p
  {
    if 1 <= |p| <= 2048 {
      assert BigEndian(|p|) == [0, 0, |p| / 256, |p| % 256];
    }
  }

  // ----- evidence files -----

  const READ_CHUNK_BYTES := 1024 * 1024
  const CHALLENGE_BYTES := 32
  const PAYLOAD_MAX_BYTES := 9265

  /** The fields of os.fstat that must not move while bytes are read. */
  datatype Metadata = Metadata(
    device: int, inode: int, regular: bool, permissions: nat, owner: int, links: nat,
    size: nat, modified: int, changed: int)

  /** An open descriptor on a file that others may change at any moment: a read returns any
      bytes up to the request, fstat any metadata. The ghost fields record what happened. */
  class Descriptor {
    ghost var requests: seq<nat>
    ghost var delivered: Bytes
    ghost var ended: bool
    ghost var observed: seq<Metadata>
    ghost var faulted: bool

    constructor ()
      ensures Fresh()
    {
      requests, delivered, ended, observed, faulted := [], [], false, [], false;
    }

    /** Nothing has been read or asked of the descriptor. */
    ghost predicate Fresh()
      reads this
    {
      requests == [] && delivered == [] && !ended && observed == [] && !faulted
    }

    method Read(count: nat) returns (r: Received)
      modifies this
      ensures requests == old(requests) + [count] && observed == old(observed)
      ensures r != TimedOut
      ensures r.Chunk? ==> |r.bytes| <= count && delivered == old(delivered) + r.bytes && ended == (r.bytes == [])
      ensures r.Failed? ==> delivered == old(delivered) && ended == old(ended)
      ensures faulted == (old(faulted) || r.Failed?)
    {
      requests := requests + [count];
      var fault: bool := *;
      faulted := faulted || fault;
      if fault {
        return Failed;
      }
      var bytes: Bytes :| |bytes| <= count;
      delivered := delivered + bytes;
      ended := bytes == [];
      return Chunk(bytes);
    }

    method Fstat() returns (r: Option<Metadata>)
      modifies this
      ensures requests == old(requests) && delivered == old(delivered) && ended == old(ended)
      ensures r.Some? ==> observed == old(observed) + [r.value]
      ensures r.None? ==> observed == old(observed)
      ensures faulted == (old(faulted) || r.None?)
    {
      var fault: bool := *;
      faulted := faulted || fault;
      if fault {
        return None;
      }
      var m: Metadata := *;
      observed := observed + [m];
      return Some(m);
    }

    /**
      _stream_digest. No read ever asks for zero bytes, at most one byte more than the
      observed size is taken, and a digest is returned only for exactly that many bytes,
      read to end of file, with the metadata unchanged afterwards.
     */
    method StreamDigest(initial: Metadata, sha: Bytes -> Bytes) returns (r: Result<Bytes>)
      requires requests == [] && delivered == [] && !ended && observed == [initial] && !faulted
      modifies this
      ensures forall i :: 0 <= i < |requests| ==> 1 <= requests[i] <= READ_CHUNK_BYTES
      ensures |delivered| <= initial.size + 1 && |observed| >= 1 && observed[0] == initial
      ensures r.Ok? ==> r.value == sha(delivered) && |delivered| == initial.size && ended && observed == [initial, initial]
      ensures r == Err(FileFailure) ==>
        |delivered| == initial.size + 1 || (ended && |observed| == 2 && (|delivered| != initial.size || observed[1] != initial))
      ensures r.Ok? || r == Err(FileFailure) || (r == Err(IoFailure) && faulted)
    {
      var hashed: Bytes := [];
      var total := 0;
      while true
        invariant total == |delivered| <= initial.size && hashed == delivered
        invariant forall i :: 0 <= i < |requests| ==> 1 <= requests[i] <= READ_CHUNK_BYTES
        invariant observed == [initial] && !ended && !faulted
        decreases initial.size + 1 - total
      {
        var remaining := initial.size - total;
        var chunk := Read(if READ_CHUNK_BYTES < remaining + 1 then READ_CHUNK_BYTES else remaining + 1);
        if !chunk.Chunk? {
          return Err(IoFailure);
        }
        if chunk.bytes == [] {
          assert delivered == hashed + [] == hashed;
          break;
        }
        total := total + |chunk.bytes|;
        if total > initial.size {
          return Err(FileFailure);
        }
        hashed := hashed + chunk.bytes;
      }
      var final := Fstat();
      if final.None? {
        return Err(IoFailure);
      }
      if total != initial.size || final.value != initial {
        return Err(FileFailure);
      }
      return Ok(sha(hashed));
    }

    /** read_challenge after the open: exactly 32 bytes, then end of file, metadata unchanged. */
    method ReadChallenge(owner: int) returns (r: Result<Bytes>)
      requires Fresh()
      modifies this
      ensures forall i :: 0 <= i < |requests| ==> 1 <= requests[i] <= CHALLENGE_BYTES
      ensures |delivered| <= CHALLENGE_BYTES + 1
      ensures r.Ok? ==> r.value == delivered && |delivered| == CHALLENGE_BYTES && ended
      ensures r.Ok? ==> |observed| == 2 && observed[0] == observed[1] && ChallengeFile(observed[0], owner)
      ensures r == Err(FileFailure) ==> |observed| > 0
      ensures r == Err(FileFailure) && ChallengeFile(observed[0], owner) && |delivered| == CHALLENGE_BYTES ==>
        |observed| == 2 && observed[1] != observed[0]
      ensures r.Ok? || r == Err(FileFailure) || (r == Err(IoFailure) && faulted)
    {
      var metadata := Fstat();
      if metadata.None? {
        return Err(IoFailure);
      }
      if !ChallengeFile(metadata.value, owner) {
        return Err(FileFailure);
      }
      var chunks: Bytes := [];
      while |chunks| < CHALLENGE_BYTES
        invariant |chunks| <= CHALLENGE_BYTES && chunks == delivered
        invariant forall i :: 0 <= i < |requests| ==> 1 <= requests[i] <= CHALLENGE_BYTES
        invariant observed == [metadata.value] && !faulted
        decreases CHALLENGE_BYTES - |chunks|
      {
        var chunk := Read(CHALLENGE_BYTES - |chunks|);
        if !chunk.Chunk? {
          return Err(IoFailure);
        }
        if chunk.bytes == [] {
          break;
        }
        chunks := chunks + chunk.bytes;
      }
      if |chunks| != CHALLENGE_BYTES {
        return Err(FileFailure);
      }
      var extra := Read(1);
      if !extra.Chunk? {
        return Err(IoFailure);
      }
      if extra.bytes != [] {
        return Err(FileFailure);
      }
      var final := Fstat();
      if final.None? {
        return Err(IoFailure);
      }
      if final.value != metadata.value {
        return Err(FileFailure);
      }
      return Ok(chunks);
    }
  }

  predicate ChallengeFile(m: Metadata, owner: int) {
    m.regular && m.owner == owner && m.permissions == 0x180 && m.size == CHALLENGE_BYTES && m.links == 1
  }

  predicate PayloadFile(m: Metadata, owner: int) {
    && m.regular && m.owner == owner && m.permissions % 64 == 0
    && 1 <= m.size <= PAYLOAD_MAX_BYTES && m.links == 1
  }

  /** The two gates by the octal digits for the owner, the group and others: a challenge is readable and
      writable by its owner and nothing else, a payload is private whatever its owner may do with it. */
  lemma GatesExactly(m: Metadata, owner: int, u: nat, g: nat, o: nat)
    requires u < 8 && g < 8 && o < 8 && m.permissions == 64 * u + 8 * g + o
    ensures ChallengeFile(m, owner) <==> m.regular && m.owner == owner && m.size == 32 && m.links == 1 && u == 6 && g == 0 && o == 0
    ensures PayloadFile(m, owner) <==> m.regular && m.owner == owner && 1 <= m.size <= 9265 && m.links == 1 && g == 0 && o == 0
  {
    assert m.permissions % 64 == 8 * g + o;
  }

  /** hash_payload: the metadata gate, then the streamed digest of exactly the gated bytes. */
  method HashPayload(d: Descriptor, owner: int, sha: Bytes -> Bytes) returns (r: Result<Bytes>)
    requires d.Fresh()
    modifies d
    ensures r.Ok? ==> 1 <= |d.delivered| <= PAYLOAD_MAX_BYTES && d.ended && r.value == sha(d.delivered)
    ensures r.Ok? ==> |d.observed| == 2 && d.observed[0] == d.observed[1] && PayloadFile(d.observed[0], owner)
    ensures r.Ok? ==> |d.delivered| == d.observed[0].size
    ensures r == Err(FileFailure) ==> |d.observed| > 0
    ensures r == Err(FileFailure) && PayloadFile(d.observed[0], owner) && |d.delivered| == d.observed[0].size ==>
      |d.observed| == 2 && d.observed[1] != d.observed[0]
    ensures r.Ok? || r == Err(FileFailure) || (r == Err(IoFailure) && d.faulted)
  {
    var metadata := d.Fstat();
    if metadata.None? {
      return Err(IoFailure);
    }
    if !PayloadFile(metadata.value, owner) {
      return Err(FileFailure);
    }
    r := d.StreamDigest(metadata.value, sha);
  }
}
