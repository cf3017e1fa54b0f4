/** Framing and encoded sizes: what fits on the wire, and comes back off it. */
module Wire {
  import opened Basics
  import opened Stamps
  import opened Files
  import opened Copies
  import Mime

  const MAX_U32: nat := 0xFFFF_FFFF
  const MAX_U64: nat := 0xFFFF_FFFF_FFFF_FFFF

  const MAX_REQUEST_SIZE: nat := 256 * 1024
  const MAX_REPLY_SIZE: nat := 64
  const MAX_CLIP_SIZE: nat := MAX_SIZE + 64 * 1024

  // ------------------------------------------------------------------ framing

  /** A `u32`, little end first. */
  function LittleEndian(n: nat): Bytes
    requires n <= MAX_U32
  {
    [n % 256, n / 256 % 256, n / 65536 % 256, n / 16777216]
  }

  function FromLittleEndian(b: Bytes): nat
    requires |b| == 4
  {
    var b0: int, b1: int, b2: int, b3: int := b[0], b[1], b[2], b[3];
    b0 + 256 * b1 + 65536 * b2 + 16777216 * b3
  }

  function Frame(bytes: Bytes): Bytes
    requires |bytes| <= MAX_U32
  {
    LittleEndian(|bytes|) + bytes
  }

  datatype WireError = TooLarge | Ended | Undecodable

  /** A message off the front of a stream, and what follows it. */
  function ReadFrame(stream: Bytes, max: nat): Result<(Bytes, Bytes), WireError> {
    if |stream| < 4 then Err(Ended)
    else
      var size := FromLittleEndian(stream[..4]);
      if size > max then Err(TooLarge)
      else if |stream| < 4 + size then Err(Ended)
      else Ok((stream[4..4 + size], stream[4 + size..]))
  }

  /** One direction of a connection: what was written and not yet read. */
  class Stream {
    var pending: Bytes

    constructor ()
      ensures pending == []
    {
      pending := [];
    }

    method WriteAll(bytes: Bytes)
      modifies this
      ensures pending == old(pending) + bytes
    {
      pending := pending + bytes;
    }

    method ReadExact(n: nat) returns (bytes: Option<Bytes>)
      modifies this
      ensures if |old(pending)| < n then bytes == None && pending == []
              else bytes == Some(old(pending)[..n]) && pending == old(pending)[n..]
    {
      if |pending| < n {
        pending := [];
        return None;
      }
      bytes := Some(pending[..n]);
      pending := pending[n..];
    }

    /** The connection is lost, and what was not delivered with it. */
    method CutOff(delivered: nat)
      modifies this
      ensures pending == if delivered < |old(pending)| then old(pending)[..delivered] else old(pending)
    {
      if delivered < |pending| { pending := pending[..delivered]; }
    }

    /** Takes whatever has arrived, up to `want` bytes, or finds the end. */
    method ReadChunk(want: nat) returns (chunk: Option<Bytes>)
      requires want > 0
      modifies this
      ensures match chunk
              case None => old(pending) == [] && pending == []
              case Some(bytes) => 0 < |bytes| <= want && old(pending) == bytes + pending
    {
      if pending == [] {
        return None;
      }
      var most := if want < |pending| then want else |pending|;
      var n: nat :| 0 < n <= most;
      chunk := Some(pending[..n]);
      pending := pending[n..];
      assert old(pending) == old(pending)[..n] + old(pending)[n..];
    }

    /** Appends `Frame(bytes)`, or nothing if that is over `max`. */
    method WriteEncoded(bytes: Bytes, max: nat) returns (sent: bool)
      requires max <= MAX_U32
      modifies this
      ensures sent <==> |bytes| <= max
      ensures pending == if sent then old(pending) + Frame(bytes) else old(pending)
    {
      if |bytes| > MAX_U32 || |bytes| > max {
        return false;
      }
      WriteAll(LittleEndian(|bytes|));
      WriteAll(bytes);
      assert old(pending) + LittleEndian(|bytes|) + bytes == old(pending) + Frame(bytes);
      return true;
    }

    /** Reads one back, refusing a size over `max` before taking any of it. */
    method ReadMessage(max: nat) returns (message: Result<Bytes, WireError>)
      modifies this
      ensures match ReadFrame(old(pending), max)
              case Ok((bytes, rest)) => message == Ok(bytes) && pending == rest
              case Err(error) => message == Err(error)
    {
      var prefix := ReadExact(4);
      if prefix.None? {
        return Err(Ended);
      }
      var size := FromLittleEndian(prefix.value);
      if size > max {
        return Err(TooLarge);
      }
      ghost var rest := pending;
      var bytes := ReadExact(size);
      if bytes.None? {
        return Err(Ended);
      }
      assert rest == old(pending)[4..];
      assert rest[..size] == old(pending)[4..4 + size] && rest[size..] == old(pending)[4 + size..];
      return Ok(bytes.value);
    }
  }

  lemma LittleEndianRoundTrips(n: nat)
    requires n <= MAX_U32
    ensures FromLittleEndian(LittleEndian(n)) == n
  {
    var n1, n2, n3 := n / 256, n / 65536, n / 16777216;
    assert n == 256 * n1 + n % 256;
    assert n2 == n1 / 256 && n3 == n2 / 256;
    assert n1 == 256 * n2 + n1 % 256 && n2 == 256 * n3 + n2 % 256;
  }

  /** Reading what was written gives the message back and stops right behind
      it, exactly when the reader takes messages that large. */
  lemma FramingRoundTrips(bytes: Bytes, rest: Bytes, max: nat)
    requires |bytes| <= MAX_U32
    ensures ReadFrame(Frame(bytes) + rest, max) == if |bytes| <= max then Ok((bytes, rest)) else Err(TooLarge)
  {
    var stream := Frame(bytes) + rest;
    LittleEndianRoundTrips(|bytes|);
    assert stream[..4] == LittleEndian(|bytes|);
    assert stream[4..4 + |bytes|] == bytes && stream[4 + |bytes|..] == rest;
  }

  // ------------------------------------------------------------------ varints

  /** Seven bits a byte, low ones first, the top bit saying more follow. */
  function Varint(n: nat): Bytes {
    if n < 128 then [n] else [n % 128 + 128] + Varint(n / 128)
  }

  /** Reads one back from at most `limit` bytes. */
  function ReadVarint(bytes: Bytes, limit: nat): Option<(nat, Bytes)>
    decreases limit
  {
    if limit == 0 || bytes == [] then None
    else if bytes[0] < 128 then Some((bytes[0], bytes[1..]))
    else match ReadVarint(bytes[1..], limit - 1)
      case None => None
      case Some((high, rest)) => Some((bytes[0] - 128 + 128 * high, rest))
  }

  /** The numbers that `k` bytes are enough for. */
  function Capacity(k: nat): nat { if k == 0 then 1 else 128 * Capacity(k - 1) }

  lemma {:induction false} VarintIsShort(n: nat, k: nat)
    requires k > 0 && n < Capacity(k)
    ensures 1 <= |Varint(n)| <= k
    decreases k
  {
    if n >= 128 {
      assert Capacity(1) == 128 * Capacity(0) == 128;
      VarintIsShort(n / 128, k - 1);
    }
  }

  lemma {:induction false} VarintRoundTrips(n: nat, rest: Bytes, k: nat)
    requires k > 0 && n < Capacity(k)
    ensures ReadVarint(Varint(n) + rest, k) == Some((n, rest))
    decreases k
  {
    if n < 128 {
      assert ([n] + rest)[1..] == rest;
    } else {
      assert Capacity(1) == 128 * Capacity(0) == 128;
      VarintRoundTrips(n / 128, rest, k - 1);
      assert (Varint(n) + rest)[1..] == Varint(n / 128) + rest;
    }
  }

  lemma Capacities()
    ensures Capacity(1) == 128 && Capacity(2) == 16384 && Capacity(3) == 0x20_0000 && Capacity(4) == 0x1000_0000
    ensures Capacity(5) > MAX_U32 && Capacity(10) > MAX_U64
  {
    assert Capacity(0) == 1;
    assert Capacity(1) == 128;
    assert Capacity(2) == 16384;
    assert Capacity(3) == 0x20_0000;
    assert Capacity(4) == 0x1000_0000;
    assert Capacity(5) == 0x8_0000_0000;
    assert Capacity(6) == 0x400_0000_0000;
    assert Capacity(7) == 0x2_0000_0000_0000;
    assert Capacity(8) == 0x100_0000_0000_0000;
    assert Capacity(9) == 0x8000_0000_0000_0000;
    assert Capacity(10) == 128 * 0x8000_0000_0000_0000;
  }

  // ------------------------------------------------------ the size of a clip

  function VarintSize(n: nat): nat { |Varint(n)| }

  /** A string or byte string: its length, then itself. */
  function StringSize(length: nat): nat { VarintSize(length) + length }

  function RepsSize(reps: seq<Rep>): nat {
    if reps == [] then 0
    else StringSize(|reps[0].mime|) + StringSize(|reps[0].bytes|) + RepsSize(reps[1..])
  }

  const HASH_SIZE: nat := 32

  /** An endpoint id: its 32 bytes, with or without a length in front. */
  const MAX_ID_SIZE: nat := 33

  function FilesSize(files: seq<FileRef>): nat {
    if files == [] then 0
    else StringSize(|files[0].path|) + VarintSize(files[0].size) + HASH_SIZE + FilesSize(files[1..])
  }

  function CopySize(copy: Copy): nat {
    RepsSize(copy.selection.Reps()) + VarintSize(|copy.selection.alternates|)
    + 1
    + (if copy.ttl.Some? then 1 + VarintSize(copy.ttl.value) else 1)
    + VarintSize(|copy.files|) + FilesSize(copy.files)
  }

  /** A clip as peers pull it, the option around it included. */
  function ClipSize(clip: Clip, idSize: nat): nat {
    1 + VarintSize(clip.stamp.millis) + idSize + 1
    + if clip.copy.Some? then CopySize(clip.copy.value) else 0
  }

  /** The integers of a clip are as wide as the fields that carry them. */
  predicate InRange(clip: Clip) {
    && clip.stamp.millis <= MAX_U64
    && (clip.copy.Some? ==>
          && (clip.copy.value.ttl.Some? ==> clip.copy.value.ttl.value <= MAX_U32)
          && (forall file :: file in clip.copy.value.files ==> file.size <= MAX_U64))
  }

  const REP_OVERHEAD: nat := 261

  lemma {:induction false} RepsFit(reps: seq<Rep>)
    requires TotalBytes(reps) <= MAX_SIZE
    requires forall rep :: rep in reps ==> UsableMime(rep.mime)
    ensures RepsSize(reps) <= TotalBytes(reps) + REP_OVERHEAD * |reps|
  {
    if reps != [] {
      Capacities();
      assert reps[0] in reps;
      VarintIsShort(|reps[0].mime|, 2);
      VarintIsShort(|reps[0].bytes|, 4);
      RepsFit(reps[1..]);
    }
  }

  lemma {:induction false} FilesFit(files: seq<FileRef>)
    requires ManifestSize(files) <= MAX_SIZE
    requires forall file :: file in files ==> file.size <= MAX_U64
    ensures FilesSize(files) <= ManifestSize(files)
  {
    if files != [] {
      Capacities();
      assert files[0] in files;
      VarintIsShort(|files[0].path|, 4);
      VarintIsShort(files[0].size, 10);
      FilesFit(files[1..]);
    }
  }

  /** Every clip a machine would hold fits in the message that carries it, so
      a peer that asks for it reads it back whole. */
  lemma CheckedClipsFit(clip: Clip, idSize: nat)
    requires InRange(clip) && idSize <= MAX_ID_SIZE
    requires clip.copy.Some? ==> clip.copy.value.Check()
    ensures ClipSize(clip, idSize) <= MAX_CLIP_SIZE
  {
    Capacities();
    VarintIsShort(clip.stamp.millis, 10);
    if clip.copy.Some? {
      var copy := clip.copy.value;
      RepsFit(copy.selection.Reps());
      FilesFit(copy.files);
      VarintIsShort(|copy.selection.alternates|, 1);
      VarintIsShort(|copy.files|, 2);
      if copy.ttl.Some? { VarintIsShort(copy.ttl.value, 5); }
    }
  }

  // ----------------------------------------------------------------- requests

  /** A hash, and the offset to send from. */
  datatype ContentRequest = ContentRequest(hash: Hash, at: nat)

  predicate DistinctHashes(requests: seq<ContentRequest>) {
    forall i, j :: 0 <= i < j < |requests| ==> requests[i].hash != requests[j].hash
  }

  /** The loop that finds a hash asked for twice, after the check of how many
      there are. */
  method ValidateAsk(requests: seq<ContentRequest>) returns (ok: bool)
    ensures ok <==> |requests| <= MAX_FILES && DistinctHashes(requests)
  {
    if |requests| > MAX_FILES {
      return false;
    }
    var seen: set<Hash> := {};
    for i := 0 to |requests|
      invariant seen == set k | 0 <= k < i :: requests[k].hash
      invariant DistinctHashes(requests[..i])
    {
      if requests[i].hash in seen {
        return false;
      }
      seen := seen + {requests[i].hash};
    }
    assert requests[..|requests|] == requests;
    return true;
  }

  function RequestsSize(requests: seq<ContentRequest>): nat {
    if requests == [] then 0 else HASH_SIZE + VarintSize(requests[0].at) + RequestsSize(requests[1..])
  }

  function AskSize(requests: seq<ContentRequest>): nat {
    1 + VarintSize(|requests|) + RequestsSize(requests)
  }

  lemma {:induction false} RequestsFit(requests: seq<ContentRequest>)
    requires forall r :: r in requests ==> r.at <= MAX_U64
    ensures RequestsSize(requests) <= (HASH_SIZE + 10) * |requests|
  {
    if requests != [] {
      Capacities();
      assert requests[0] in requests;
      VarintIsShort(requests[0].at, 10);
      RequestsFit(requests[1..]);
    }
  }

  /** The encoding of the longest request that passes is within its cap. */
  lemma AsksFit(requests: seq<ContentRequest>)
    requires |requests| <= MAX_FILES && forall r :: r in requests ==> r.at <= MAX_U64
    ensures AskSize(requests) <= MAX_REQUEST_SIZE
  {
    Capacities();
    VarintIsShort(|requests|, 2);
    RequestsFit(requests);
  }

  // ------------------------------------------------------------------ replies

  type U64 = n: int | 0 <= n <= MAX_U64

  datatype ContentReply = Sending(size: U64) | Missing

  function EncodeReply(reply: ContentReply): Bytes {
    match reply
    case Sending(size) => [0] + Varint(size)
    case Missing => [1]
  }

  /** Trailing bytes are refused, and sizes over 64 bits. */
  function DecodeReply(bytes: Bytes): Option<ContentReply> {
    match ReadVarint(bytes, 5)
    case None => None
    case Some((tag, body)) =>
      if tag == 1 then if body == [] then Some(Missing) else None
      else if tag == 0 then
        match ReadVarint(body, 10)
        case Some((size, rest)) => if rest == [] && size <= MAX_U64 then Some(Sending(size)) else None
        case None => None
      else None
  }

  lemma RepliesRoundTrip(reply: ContentReply)
    ensures DecodeReply(EncodeReply(reply)) == Some(reply)
    ensures |EncodeReply(reply)| <= MAX_REPLY_SIZE
  {
    match reply
    case Missing =>
    case Sending(size) =>
      Capacities();
      VarintIsShort(size, 10);
      VarintRoundTrips(size, [], 10);
      assert Varint(size) + [] == Varint(size);
      assert EncodeReply(reply)[1..] == Varint(size);
  }

  // ------------------------------------------------------------- byte by byte

  /** A frame is four bytes that say how long the message is, the lowest first,
      and then the message. */
  lemma FramesByteByByte(bytes: Bytes)
    requires |bytes| <= MAX_U32
    ensures var frame := Frame(bytes);
            && |frame| == 4 + |bytes| && frame[4..] == bytes
            && frame[0] == |bytes| % 0x100 && frame[1] == |bytes| / 0x100 % 0x100
            && frame[2] == |bytes| / 0x1_0000 % 0x100 && frame[3] == |bytes| / 0x100_0000
  {}

  /** The number that groups of seven bits stand for, the lowest first. */
  function Groups(bytes: Bytes): nat {
    if bytes == [] then 0 else bytes[0] % 128 + 128 * Groups(bytes[1..])
  }

  /** A varint has the number in groups of seven bits, the lowest first; the
      top bit is set on all but the last of its bytes; and it is as short as it
      can be. */
  lemma {:induction false} VarintsByteByByte(n: nat)
    ensures var bytes := Varint(n);
            && bytes != [] && Groups(bytes) == n
            && (forall i :: 0 <= i < |bytes| - 1 ==> bytes[i] >= 128)
            && bytes[|bytes| - 1] < 128 && (|bytes| > 1 ==> bytes[|bytes| - 1] > 0)
  {
    if n >= 128 {
      var rest := Varint(n / 128);
      VarintsByteByByte(n / 128);
      assert Varint(n)[1..] == rest;
      assert forall i :: 1 <= i < |rest| + 1 ==> Varint(n)[i] == rest[i - 1];
    }
  }

  /** Replies are told apart by their first byte. */
  lemma RepliesByteByByte(size: U64)
    ensures EncodeReply(Missing) == [1] && EncodeReply(Sending(size)) == [0] + Varint(size)
    ensures EncodeReply(Sending(300)) == [0, 0xAC, 0x02]
  {
    assert Varint(2) == [2];
  }

  /** What is too large to be read: clips over 4 MiB and 64 KiB, requests over
      256 KiB, replies over 64 bytes. */
  lemma LargeMessagesAreRefused(bytes: Bytes, rest: Bytes)
    requires |bytes| <= MAX_U32
    ensures ReadFrame(Frame(bytes) + rest, MAX_CLIP_SIZE).Ok? <==> |bytes| <= 4_259_840
    ensures ReadFrame(Frame(bytes) + rest, MAX_REQUEST_SIZE).Ok? <==> |bytes| <= 262_144
    ensures ReadFrame(Frame(bytes) + rest, MAX_REPLY_SIZE).Ok? <==> |bytes| <= 64
  {
    FramingRoundTrips(bytes, rest, MAX_CLIP_SIZE);
    FramingRoundTrips(bytes, rest, MAX_REQUEST_SIZE);
    FramingRoundTrips(bytes, rest, MAX_REPLY_SIZE);
  }

  /** A reply with anything behind it is no reply, */
  lemma TrailingBytesAreRefused(reply: ContentReply, more: Bytes)
    requires more != []
    ensures DecodeReply(EncodeReply(reply) + more) == None
  {
    var bytes := EncodeReply(reply) + more;
    match reply
    case Missing => assert bytes[1..] == more;
    case Sending(size) =>
      Capacities();
      VarintRoundTrips(size, more, 10);
      assert bytes[1..] == Varint(size) + more;
  }

  /** nor is one of a kind there is not, or of a size over 64 bits. */
  lemma OtherRepliesAreRefused(kind: Byte, body: Bytes, size: nat)
    ensures 2 <= kind < 128 ==> DecodeReply([kind] + body) == None
    ensures MAX_U64 < size < Capacity(10) ==> DecodeReply([0] + Varint(size)) == None
  {
    if MAX_U64 < size < Capacity(10) {
      VarintRoundTrips(size, [], 10);
      assert Varint(size) + [] == Varint(size);
      assert ([0] + Varint(size))[1..] == Varint(size);
    }
  }
}
