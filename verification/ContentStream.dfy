/** File contents on the wire: headers and raw bytes of many files on one
    stream, cut off anywhere, and resumed. */
module ContentStreams {
  import opened Basics
  import opened Files
  import opened Copies
  import opened Wire

  // ---------------------------------------------------------------- the headers

  function Header(reply: ContentReply): Bytes {
    RepliesRoundTrip(reply);
    Frame(EncodeReply(reply))
  }

  /** The header at the front of a stream, and what follows it. */
  function NextReply(stream: Bytes): Option<(ContentReply, Bytes)> {
    match ReadFrame(stream, MAX_REPLY_SIZE)
    case Err(_) => None
    case Ok((bytes, rest)) =>
      match DecodeReply(bytes)
      case None => None
      case Some(reply) => Some((reply, rest))
  }

  /** How headers are written and read. */
  datatype Code = Code(write: ContentReply -> Bytes, read: Bytes -> Option<(ContentReply, Bytes)>)

  /** Reading stops right behind what was written, and does not take the start
      of a header for one. */
  ghost predicate SelfDelimiting(code: Code) {
    && (forall reply: ContentReply, rest: Bytes :: code.read(code.write(reply) + rest) == Some((reply, rest)))
    && (forall reply: ContentReply, cut: Bytes :: cut < code.write(reply) ==> code.read(cut) == None)
  }

  const WIRE := Code(Header, NextReply)

  /** A whole header, and what comes after it. */
  lemma HeadersRoundTrip(reply: ContentReply, rest: Bytes)
    ensures NextReply(Header(reply) + rest) == Some((reply, rest))
  {
    RepliesRoundTrip(reply);
    FramingRoundTrips(EncodeReply(reply), rest, MAX_REPLY_SIZE);
  }

  /** A header cut short is not a header. */
  lemma CutHeader(reply: ContentReply, cut: Bytes)
    requires cut < Header(reply)
    ensures NextReply(cut) == None
  {
    RepliesRoundTrip(reply);
    var bytes := EncodeReply(reply);
    if |cut| >= 4 {
      LittleEndianRoundTrips(|bytes|);
      assert cut[..4] == Header(reply)[..4] == LittleEndian(|bytes|);
    }
  }

  lemma WireIsSelfDelimiting()
    ensures SelfDelimiting(WIRE)
  {
    forall reply: ContentReply, rest: Bytes ensures WIRE.read(WIRE.write(reply) + rest) == Some((reply, rest)) {
      HeadersRoundTrip(reply, rest);
    }
    forall reply: ContentReply, cut: Bytes | cut < WIRE.write(reply) ensures WIRE.read(cut) == None {
      CutHeader(reply, cut);
    }
  }

  // ------------------------------------------------------------------ sending

  /** Files are sent by machines that can hold them. */
  predicate Addressable(spool: map<Hash, Bytes>) {
    forall h :: h in spool ==> |spool[h]| <= MAX_U64
  }

  function ReplyTo(spool: map<Hash, Bytes>, request: ContentRequest): (reply: ContentReply)
    requires Addressable(spool)
  {
    if request.hash !in spool then Missing
    else Sending(|spool[request.hash]| - Min(request.at, |spool[request.hash]|))
  }

  /** What follows the header. */
  function BodyOf(spool: map<Hash, Bytes>, request: ContentRequest): Bytes {
    if request.hash !in spool then [] else spool[request.hash][Min(request.at, |spool[request.hash]|)..]
  }

  function SentFor(code: Code, spool: map<Hash, Bytes>, request: ContentRequest): Bytes
    requires Addressable(spool)
  {
    code.write(ReplyTo(spool, request)) + BodyOf(spool, request)
  }

  function Sent(code: Code, spool: map<Hash, Bytes>, requests: seq<ContentRequest>): Bytes
    requires Addressable(spool)
    decreases |requests|
  {
    if requests == [] then [] else SentFor(code, spool, requests[0]) + Sent(code, spool, requests[1..])
  }

  const CONTENT_CHUNK: nat := 256 * 1024

  /** Writes what is left of a file, in pieces as large as each read gives. */
  method SendBody(send: Stream, file: Bytes, at: nat)
    requires at <= |file|
    modifies send
    ensures send.pending == old(send.pending) + file[at..]
  {
    var left := |file| - at;
    while left > 0
      invariant 0 <= left <= |file| - at
      invariant send.pending == old(send.pending) + file[at..|file| - left]
    {
      var from := |file| - left;
      var want := Min(left, CONTENT_CHUNK);
      var read: nat :| 0 < read <= want;
      send.WriteAll(file[from..from + read]);
      assert file[at..from] + file[from..from + read] == file[at..from + read];
      left := left - read;
    }
    assert file[at..|file|] == file[at..];
  }

  method SendOne(send: Stream, spool: map<Hash, Bytes>, request: ContentRequest)
    requires Addressable(spool)
    modifies send
    ensures send.pending == old(send.pending) + SentFor(WIRE, spool, request)
  {
    var reply := ReplyTo(spool, request);
    RepliesRoundTrip(reply);
    var _ := send.WriteEncoded(EncodeReply(reply), MAX_REPLY_SIZE);
    if request.hash in spool {
      SendBody(send, spool[request.hash], Min(request.at, |spool[request.hash]|));
    }
    assert send.pending == (old(send.pending) + Header(reply)) + BodyOf(spool, request);
  }

  lemma Associates(a: Bytes, b: Bytes, c: Bytes)
    ensures (a + b) + c == a + (b + c)
  {}

  /** Writes what `Sent` says for these requests: one header for each, and
      behind it the rest of the file if the spool has it. */
  method SendContents(send: Stream, spool: map<Hash, Bytes>, requests: seq<ContentRequest>)
    requires Addressable(spool)
    modifies send
    ensures send.pending == old(send.pending) + Sent(WIRE, spool, requests)
  {
    ghost var whole := send.pending + Sent(WIRE, spool, requests);
    for i := 0 to |requests|
      invariant send.pending + Sent(WIRE, spool, requests[i..]) == whole
    {
      ghost var before, piece := send.pending, SentFor(WIRE, spool, requests[i]);
      ghost var rest := Sent(WIRE, spool, requests[i + 1..]);
      assert Sent(WIRE, spool, requests[i..]) == piece + rest by { assert requests[i..][1..] == requests[i + 1..]; }
      SendOne(send, spool, requests[i]);
      Associates(before, piece, rest);
    }
  }

  // ---------------------------------------------------------------- receiving

  /** What a machine has of each content: whole, or the start of it. */
  datatype Holding = Holding(blobs: map<Hash, Bytes>, parts: map<Hash, Bytes>) {
    function PartOf(hash: Hash): Bytes { if hash in parts then parts[hash] else [] }
  }

  /** What receiving `arrived` past what is here makes of the transfer of one
      file: kept for later while bytes are missing, put in the spool when it is
      what it was named, dropped when it is not. */
  function Received(hold: Holding, hash: Hash, arrived: Bytes, whole: bool): Holding {
    var content := hold.PartOf(hash) + arrived;
    if !whole then hold.(parts := hold.parts[hash := content])
    else if Digest(content) == hash then Holding(hold.blobs[hash := content], hold.parts - {hash})
    else hold.(parts := hold.parts - {hash})
  }

  /** What is held after a stream was read, and what follows it when all of it
      made sense. */
  datatype Pulled = Pulled(hold: Holding, rest: Option<Bytes>)

  /** What taking the rest of a file off a stream comes to. */
  function ReceivedFrom(hold: Holding, stream: Bytes, file: FileRef, at: nat): Pulled
    requires at <= file.size
  {
    if |hold.PartOf(file.hash)| != at then Pulled(Received(hold, file.hash, [], false), None)
    else if |stream| < file.size - at then Pulled(Received(hold, file.hash, stream, false), None)
    else Pulled(Received(hold, file.hash, stream[..file.size - at], true), Some(stream[file.size - at..]))
  }

  /** Reads one reply off a stream, and what it announces. */
  function PullOne(code: Code, hold: Holding, stream: Bytes, file: FileRef, at: nat): Pulled {
    match code.read(stream)
    case None => Pulled(hold, None)
    case Some((Missing, body)) => Pulled(hold, Some(body))
    case Some((Sending(size), body)) =>
      if at + size != file.size then Pulled(hold, None) else ReceivedFrom(hold, body, file, at)
  }

  /** Reads a stream for `files`, of each of which `at` bytes were said to be
      here, until it ends or says something it should not. */
  function PullFrom(code: Code, hold: Holding, stream: Bytes, files: seq<FileRef>, at: seq<nat>): Pulled
    requires |files| == |at|
    decreases |files|
  {
    if files == [] then Pulled(hold, Some(stream))
    else
      var one := PullOne(code, hold, stream, files[0], at[0]);
      if one.rest.None? then one else PullFrom(code, one.hold, one.rest.value, files[1..], at[1..])
  }

  // -------------------------------------------------------- between honest peers

  predicate Honest(spool: map<Hash, Bytes>) {
    Addressable(spool) && forall h :: h in spool ==> Digest(spool[h]) == h
  }

  /** What is here of a transfer is the start of what it is to become; a peer
      that sent something else leaves one that is not. */
  predicate IsStart(hold: Holding, hash: Hash) { hash.Digest? && hold.PartOf(hash) <= hash.content }

  /** No more of a file is here than there is of it. */
  predicate PartsFit(hold: Holding, files: seq<FileRef>) {
    forall i :: 0 <= i < |files| ==> |hold.PartOf(files[i].hash)| <= files[i].size
  }

  /** The files to fetch: each named once, with the size its content has, and
      not here yet. */
  predicate Wanted(hold: Holding, files: seq<FileRef>) {
    && (forall i :: 0 <= i < |files| ==>
          files[i].hash.Digest? && files[i].size == |files[i].hash.content| && files[i].hash !in hold.blobs)
    && (forall i, j :: 0 <= i < j < |files| ==> files[i].hash != files[j].hash)
  }

  /** An honest peer, and files to fetch from it. */
  predicate Ready(hold: Holding, spool: map<Hash, Bytes>, files: seq<FileRef>) {
    Honest(spool) && PartsFit(hold, files) && Wanted(hold, files)
  }

  /** How much of each file is here: what `Store::partial` says of it. */
  function Offsets(hold: Holding, files: seq<FileRef>): (at: seq<nat>)
    ensures |at| == |files|
  {
    seq(|files|, i requires 0 <= i < |files| => |hold.PartOf(files[i].hash)|)
  }

  function RequestsFor(hold: Holding, files: seq<FileRef>): (requests: seq<ContentRequest>)
    ensures |requests| == |files|
  {
    seq(|files|, i requires 0 <= i < |files| => ContentRequest(files[i].hash, |hold.PartOf(files[i].hash)|))
  }

  /** What is left to fetch of one file: its missing bytes, and its name. What
      has wrong bytes in it has to be completed before it is seen through, and
      then fetched from the beginning; what is too long is dropped unseen. */
  function LeftOf(hold: Holding, file: FileRef): nat {
    var here := |hold.PartOf(file.hash)|;
    if file.hash in hold.blobs then 0
    else if here > file.size then file.size + 1
    else if IsStart(hold, file.hash) then file.size - here + 1
    else (file.size - here + 1) + (file.size + 1)
  }

  function Left(hold: Holding, files: seq<FileRef>): nat {
    if files == [] then 0 else LeftOf(hold, files[0]) + Left(hold, files[1..])
  }

  /** How much of what is left the first `k` bytes of a stream carry. */
  function Carried(code: Code, spool: map<Hash, Bytes>, requests: seq<ContentRequest>, k: nat): nat
    requires Addressable(spool)
    decreases |requests|
  {
    if requests == [] then 0
    else
      var header, body := |code.write(ReplyTo(spool, requests[0]))|, |BodyOf(spool, requests[0])|;
      if k < header then 0
      else if requests[0].hash !in spool then Carried(code, spool, requests[1..], k - header)
      else if k < header + body then k - header
      else body + 1 + Carried(code, spool, requests[1..], k - header - body)
  }

  predicate AgreeOn(a: Holding, b: Holding, hash: Hash) {
    && (hash in a.blobs <==> hash in b.blobs) && (hash in a.blobs ==> a.blobs[hash] == b.blobs[hash])
    && a.PartOf(hash) == b.PartOf(hash)
  }

  /** Nothing about the other files changes when one is received. */
  predicate AgreeButFor(a: Holding, b: Holding, hash: Hash) {
    && (forall h :: h in a.blobs && h != hash ==> h in b.blobs && a.blobs[h] == b.blobs[h])
    && (forall h :: h in b.blobs && h != hash ==> h in a.blobs)
    && (forall h :: h in a.parts && h != hash ==> h in b.parts && a.parts[h] == b.parts[h])
    && (forall h :: h in b.parts && h != hash ==> h in a.parts)
  }

  lemma {:induction false} OthersUntouched(hold: Holding, after: Holding, files: seq<FileRef>, hash: Hash)
    requires forall i :: 0 <= i < |files| ==> files[i].hash != hash
    requires AgreeButFor(hold, after, hash)
    ensures Left(after, files) == Left(hold, files)
    ensures Offsets(after, files) == Offsets(hold, files) && RequestsFor(after, files) == RequestsFor(hold, files)
  {
    if files != [] { OthersUntouched(hold, after, files[1..], hash); }
  }

  /** The files after the first, once the first was dealt with. */
  lemma TailWanted(hold: Holding, after: Holding, files: seq<FileRef>)
    requires Wanted(hold, files) && files != [] && AgreeButFor(hold, after, files[0].hash)
    ensures Wanted(after, files[1..])
    ensures PartsFit(hold, files) ==> PartsFit(after, files[1..])
    ensures Left(after, files[1..]) == Left(hold, files[1..])
    ensures Offsets(after, files[1..]) == Offsets(hold, files)[1..]
    ensures RequestsFor(after, files[1..]) == RequestsFor(hold, files)[1..]
  {
    var rest := files[1..];
    assert forall i :: 0 <= i < |rest| ==> rest[i] == files[i + 1];
    OthersUntouched(hold, after, rest, files[0].hash);
  }

  ghost predicate StartsKept(hold: Holding, after: Holding) {
    forall h :: IsStart(hold, h) ==> IsStart(after, h)
  }

  /** What has become of the files, after `n` bytes and names of what was left
      arrived: true starts are still true, nothing once here is lost, and what
      is new is what it is named. */
  ghost predicate Advanced(hold: Holding, after: Holding, files: seq<FileRef>, n: nat) {
    && StartsKept(hold, after)
    && (forall h :: h in hold.blobs ==> h in after.blobs && after.blobs[h] == hold.blobs[h])
    && (forall h :: h in after.blobs && h !in hold.blobs ==> Digest(after.blobs[h]) == h)
    && Left(after, files) + n == Left(hold, files)
  }

  /** Reading a stream touches nothing but the files it was asked for. */
  lemma {:induction false} PullTouchesOnlyItsFiles(
    code: Code, hold: Holding, stream: Bytes, files: seq<FileRef>, at: seq<nat>, hash: Hash)
    requires |files| == |at| && forall i :: 0 <= i < |files| ==> files[i].hash != hash
    ensures AgreeOn(PullFrom(code, hold, stream, files, at).hold, hold, hash)
    decreases |files|
  {
    if files != [] {
      var one := PullOne(code, hold, stream, files[0], at[0]);
      assert AgreeOn(one.hold, hold, hash);
      if one.rest.Some? { PullTouchesOnlyItsFiles(code, one.hold, one.rest.value, files[1..], at[1..], hash); }
    }
  }

  /** Whatever a peer sends, honest or not: nothing once here is lost, and
      nothing comes under a name that is not its own. */
  lemma {:induction false} AnyPullIsSafe(code: Code, hold: Holding, stream: Bytes, files: seq<FileRef>, at: seq<nat>)
    requires |files| == |at|
    ensures var after := PullFrom(code, hold, stream, files, at).hold;
            && (forall h :: h in hold.blobs && Digest(hold.blobs[h]) == h ==>
                  h in after.blobs && Digest(after.blobs[h]) == h)
            && (forall h :: h in after.blobs && h !in hold.blobs ==> Digest(after.blobs[h]) == h)
    decreases |files|
  {
    if files != [] {
      var one := PullOne(code, hold, stream, files[0], at[0]);
      if one.rest.Some? { AnyPullIsSafe(code, one.hold, one.rest.value, files[1..], at[1..]); }
    }
  }

  // ------------------------------------------------------- one header at a time

  lemma Reads(code: Code, reply: ContentReply, rest: Bytes)
    requires SelfDelimiting(code)
    ensures code.read(code.write(reply) + rest) == Some((reply, rest))
  {}

  lemma ReadMissing(code: Code, hold: Holding, rest: Bytes, files: seq<FileRef>, at: seq<nat>)
    requires SelfDelimiting(code) && |files| == |at| && files != []
    ensures PullFrom(code, hold, code.write(Missing) + rest, files, at)
            == PullFrom(code, hold, rest, files[1..], at[1..])
  {
    Reads(code, Missing, rest);
  }

  lemma ReadPart(code: Code, hold: Holding, size: U64, body: Bytes, files: seq<FileRef>, at: seq<nat>)
    requires SelfDelimiting(code) && |files| == |at| && files != [] && |body| < size
    requires at[0] + size == files[0].size && |hold.PartOf(files[0].hash)| == at[0]
    ensures PullFrom(code, hold, code.write(Sending(size)) + body, files, at)
            == Pulled(Received(hold, files[0].hash, body, false), None)
  {
    Reads(code, Sending(size), body);
  }

  lemma ReadWhole(code: Code, hold: Holding, body: Bytes, rest: Bytes, files: seq<FileRef>, at: seq<nat>)
    requires SelfDelimiting(code) && |files| == |at| && files != [] && |body| <= MAX_U64
    requires at[0] + |body| == files[0].size && |hold.PartOf(files[0].hash)| == at[0]
    ensures PullFrom(code, hold, code.write(Sending(|body|)) + (body + rest), files, at)
            == PullFrom(code, Received(hold, files[0].hash, body, true), rest, files[1..], at[1..])
  {
    Reads(code, Sending(|body|), body + rest);
    assert (body + rest)[..|body|] == body && (body + rest)[|body|..] == rest;
  }

  /** What an honest peer sends of a file is the rest of it. */
  lemma HonestBody(hold: Holding, spool: map<Hash, Bytes>, files: seq<FileRef>)
    requires Ready(hold, spool, files) && files != [] && files[0].hash in spool
    ensures RequestsFor(hold, files)[0] == ContentRequest(files[0].hash, |hold.PartOf(files[0].hash)|)
    ensures Offsets(hold, files)[0] == |hold.PartOf(files[0].hash)|
    ensures Addressable(spool)
    ensures var body := BodyOf(spool, ContentRequest(files[0].hash, |hold.PartOf(files[0].hash)|));
            && IsRest(hold, files[0].hash, body) && |body| <= MAX_U64
            && |hold.PartOf(files[0].hash)| + |body| == files[0].size
    ensures var request := ContentRequest(files[0].hash, |hold.PartOf(files[0].hash)|);
            ReplyTo(spool, request) == Sending(|BodyOf(spool, request)|)
  {
    assert spool[files[0].hash] == files[0].hash.content;
  }

  /** `body` is what comes after the length of what is here. */
  predicate IsRest(hold: Holding, hash: Hash, body: Bytes) {
    var at := |hold.PartOf(hash)|;
    hash.Digest? && at <= |hash.content| && body == hash.content[at..]
  }

  /** Wrong bytes stay wrong, whatever right ones come after them. */
  lemma WrongStaysWrong(part: Bytes, more: Bytes, content: Bytes)
    requires |part| + |more| <= |content| && more == content[|part|..|part| + |more|]
    ensures part + more <= content <==> part <= content
  {
    if part + more <= content { assert (part + more)[..|part|] == part; }
    if part <= content { assert content[..|part|] + content[|part|..|part| + |more|] == content[..|part| + |more|]; }
  }

  lemma CutInPart(hold: Holding, body: Bytes, arrived: Bytes, files: seq<FileRef>)
    requires PartsFit(hold, files) && Wanted(hold, files) && files != []
    requires IsRest(hold, files[0].hash, body) && arrived <= body
    ensures Advanced(hold, Received(hold, files[0].hash, arrived, false), files, |arrived|)
  {
    var hash := files[0].hash;
    var after := Received(hold, hash, arrived, false);
    TailWanted(hold, after, files);
    WrongStaysWrong(hold.PartOf(hash), arrived, hash.content);
    assert LeftOf(after, files[0]) + |arrived| == LeftOf(hold, files[0]);
  }

  /** A file received to its length: it lands if what was here of it was right,
      and goes if not, and the others are as they were. */
  lemma LandsOrGoes(hold: Holding, body: Bytes, files: seq<FileRef>)
    requires Wanted(hold, files) && files != [] && IsRest(hold, files[0].hash, body)
    ensures var hash, middle := files[0].hash, Received(hold, files[0].hash, body, true);
            && StartsKept(hold, middle) && AgreeButFor(hold, middle, hash)
            && hash !in middle.parts
            && (IsStart(hold, hash) ==> hash in middle.blobs && middle.blobs[hash] == hash.content)
            && (!IsStart(hold, hash) ==> middle.blobs == hold.blobs)
  {
    var hash := files[0].hash;
    WrongStaysWrong(hold.PartOf(hash), body, hash.content);
  }

  /** A file done, and then the rest. */
  lemma DoneAndAdvanced(hold: Holding, body: Bytes, files: seq<FileRef>, after: Holding, n: nat)
    requires PartsFit(hold, files) && Wanted(hold, files) && files != [] && IsRest(hold, files[0].hash, body)
    requires var middle := Received(hold, files[0].hash, body, true);
             Advanced(middle, after, files[1..], n) && AgreeOn(after, middle, files[0].hash)
    ensures Advanced(hold, after, files, |body| + 1 + n)
  {
    var middle := Received(hold, files[0].hash, body, true);
    LandsOrGoes(hold, body, files);
    TailWanted(hold, middle, files);
    assert LeftOf(after, files[0]) + |body| + 1 == LeftOf(hold, files[0]);
    assert Left(after, files) == LeftOf(after, files[0]) + Left(after, files[1..]);
  }

  // ---------------------------------------------------------- cut off anywhere

  /** A stream cut off past `a`. */
  lemma CutPast(stream: Bytes, a: Bytes, b: Bytes)
    requires stream <= a + b && |a| <= |stream|
    ensures stream == a + stream[|a|..] && stream[|a|..] <= b
  {}

  lemma CutBefore(stream: Bytes, a: Bytes, b: Bytes)
    requires stream <= a + b && |stream| < |a|
    ensures stream < a
  {}

  /** What is held after reading as much as arrived of a stream. */
  function After(code: Code, hold: Holding, files: seq<FileRef>, stream: Bytes): Holding {
    PullFrom(code, hold, stream, files, Offsets(hold, files)).hold
  }

  ghost predicate Advances(code: Code, hold: Holding, spool: map<Hash, Bytes>, files: seq<FileRef>, stream: Bytes)
    requires Addressable(spool)
  {
    Advanced(hold, After(code, hold, files, stream), files, Carried(code, spool, RequestsFor(hold, files), |stream|))
  }

  lemma LeftTheSame(a: Holding, b: Holding, file: FileRef)
    requires AgreeOn(a, b, file.hash)
    ensures LeftOf(a, file) == LeftOf(b, file)
  {}

  /** Cut past a file the peer does not have. */
  lemma CutPastMissing(code: Code, hold: Holding, spool: map<Hash, Bytes>, files: seq<FileRef>, rest: Bytes)
    requires SelfDelimiting(code) && Ready(hold, spool, files) && files != [] && files[0].hash !in spool
    requires Advances(code, hold, spool, files[1..], rest)
    ensures Advances(code, hold, spool, files, code.write(Missing) + rest)
  {
    var at, tail := Offsets(hold, files), files[1..];
    TailWanted(hold, hold, files);
    ReadMissing(code, hold, rest, files, at);
    PullTouchesOnlyItsFiles(code, hold, rest, tail, at[1..], files[0].hash);
    var after := After(code, hold, tail, rest);
    assert After(code, hold, files, code.write(Missing) + rest) == after;
    LeftTheSame(after, hold, files[0]);
    StillMissing(hold, after, files, Carried(code, spool, RequestsFor(hold, tail), |rest|));
  }

  lemma StillMissing(hold: Holding, after: Holding, files: seq<FileRef>, n: nat)
    requires files != [] && Advanced(hold, after, files[1..], n) && LeftOf(after, files[0]) == LeftOf(hold, files[0])
    ensures Advanced(hold, after, files, n)
  {}

  /** Cut within the bytes of the first file. */
  lemma CutWithin(code: Code, hold: Holding, spool: map<Hash, Bytes>, files: seq<FileRef>, arrived: Bytes)
    requires SelfDelimiting(code) && Ready(hold, spool, files) && files != [] && files[0].hash in spool
    requires arrived < BodyOf(spool, RequestsFor(hold, files)[0])
    ensures Advances(code, hold, spool, files, code.write(ReplyTo(spool, RequestsFor(hold, files)[0])) + arrived)
  {
    var requests, at := RequestsFor(hold, files), Offsets(hold, files);
    HonestBody(hold, spool, files);
    var body := BodyOf(spool, requests[0]);
    ReadPart(code, hold, |body|, arrived, files, at);
    CutInPart(hold, body, arrived, files);
  }

  /** Cut past the first file, which lands. */
  lemma CutPastFile(code: Code, hold: Holding, spool: map<Hash, Bytes>, files: seq<FileRef>, rest: Bytes)
    requires SelfDelimiting(code) && Ready(hold, spool, files) && files != [] && files[0].hash in spool
    requires var middle := Received(hold, files[0].hash, BodyOf(spool, RequestsFor(hold, files)[0]), true);
             Advances(code, middle, spool, files[1..], rest)
    ensures var request := RequestsFor(hold, files)[0];
            Advances(code, hold, spool, files, code.write(ReplyTo(spool, request)) + (BodyOf(spool, request) + rest))
  {
    var requests, at := RequestsFor(hold, files), Offsets(hold, files);
    HonestBody(hold, spool, files);
    var body := BodyOf(spool, requests[0]);
    var middle := Received(hold, files[0].hash, body, true);
    ReadWhole(code, hold, body, rest, files, at);
    LandsOrGoes(hold, body, files);
    TailWanted(hold, middle, files);
    PullTouchesOnlyItsFiles(code, middle, rest, files[1..], at[1..], files[0].hash);
    DoneAndAdvanced(hold, body, files, After(code, middle, files[1..], rest),
                    Carried(code, spool, requests[1..], |rest|));
  }

  /** Reading what an honest peer sends, cut off after any number of bytes,
      whatever was here before: true starts stay true, nothing once here is
      lost, and what is left shrinks by exactly what arrived. */
  lemma {:induction false} InterruptedPullsAdvance(
    code: Code, hold: Holding, spool: map<Hash, Bytes>, files: seq<FileRef>, stream: Bytes)
    requires SelfDelimiting(code) && Ready(hold, spool, files)
    requires stream <= Sent(code, spool, RequestsFor(hold, files))
    ensures Advances(code, hold, spool, files, stream)
    decreases |files|
  {
    if files != [] {
      var requests := RequestsFor(hold, files);
      var header, body := code.write(ReplyTo(spool, requests[0])), BodyOf(spool, requests[0]);
      var tail := Sent(code, spool, requests[1..]);
      Associates(header, body, tail);
      if |stream| < |header| {
        CutBefore(stream, header, body + tail);
      } else {
        CutPast(stream, header, body + tail);
        var past := stream[|header|..];
        if files[0].hash !in spool {
          TailWanted(hold, hold, files);
          InterruptedPullsAdvance(code, hold, spool, files[1..], past);
          CutPastMissing(code, hold, spool, files, past);
        } else if |past| < |body| {
          CutBefore(past, body, tail);
          CutWithin(code, hold, spool, files, past);
        } else {
          CutPast(past, body, tail);
          HonestBody(hold, spool, files);
          var middle := Received(hold, files[0].hash, body, true);
          LandsOrGoes(hold, body, files);
          TailWanted(hold, middle, files);
          InterruptedPullsAdvance(code, middle, spool, files[1..], past[|body|..]);
          CutPastFile(code, hold, spool, files, past[|body|..]);
        }
      }
    }
  }

  // ------------------------------------------------------------ not cut at all

  /** What an uncut stream leaves of a file. */
  predicate Settled(hold: Holding, after: Holding, spool: map<Hash, Bytes>, file: FileRef) {
    if file.hash !in spool then AgreeOn(after, hold, file.hash)
    else if IsStart(hold, file.hash) then
      file.hash in after.blobs && after.blobs[file.hash] == file.hash.content
    else file.hash !in after.blobs && after.PartOf(file.hash) == []
  }

  /** What an uncut stream makes of the first file. */
  function PastFirst(hold: Holding, spool: map<Hash, Bytes>, files: seq<FileRef>): Holding
    requires files != []
  {
    if files[0].hash !in spool then hold
    else Received(hold, files[0].hash, BodyOf(spool, RequestsFor(hold, files)[0]), true)
  }

  lemma PastFirstIsReady(hold: Holding, spool: map<Hash, Bytes>, files: seq<FileRef>)
    requires Ready(hold, spool, files) && files != []
    ensures var middle := PastFirst(hold, spool, files);
            && Ready(middle, spool, files[1..]) && AgreeButFor(hold, middle, files[0].hash)
            && RequestsFor(middle, files[1..]) == RequestsFor(hold, files)[1..]
            && Offsets(middle, files[1..]) == Offsets(hold, files)[1..]
            && Settled(hold, middle, spool, files[0])
  {
    var middle := PastFirst(hold, spool, files);
    if files[0].hash in spool {
      HonestBody(hold, spool, files);
      LandsOrGoes(hold, BodyOf(spool, RequestsFor(hold, files)[0]), files);
    }
    TailWanted(hold, middle, files);
  }

  /** Where reading goes on after the first file of an uncut stream. */
  lemma PullPastFirst(code: Code, hold: Holding, spool: map<Hash, Bytes>, files: seq<FileRef>, rest: Bytes)
    requires SelfDelimiting(code) && Ready(hold, spool, files) && files != []
    ensures var request := RequestsFor(hold, files)[0];
            PullFrom(code, hold, code.write(ReplyTo(spool, request)) + (BodyOf(spool, request) + rest),
                     files, Offsets(hold, files))
            == PullFrom(code, PastFirst(hold, spool, files), rest, files[1..], Offsets(hold, files)[1..])
  {
    var requests, at := RequestsFor(hold, files), Offsets(hold, files);
    var body := BodyOf(spool, requests[0]);
    if files[0].hash in spool {
      HonestBody(hold, spool, files);
      ReadWhole(code, hold, body, rest, files, at);
    } else {
      assert body + rest == rest;
      ReadMissing(code, hold, rest, files, at);
    }
  }

  lemma SettledLater(hold: Holding, middle: Holding, after: Holding, spool: map<Hash, Bytes>, files: seq<FileRef>)
    requires files != [] && Wanted(hold, files) && AgreeButFor(hold, middle, files[0].hash)
    requires Settled(hold, middle, spool, files[0]) && AgreeOn(after, middle, files[0].hash)
    requires forall i :: 0 <= i < |files[1..]| ==> Settled(middle, after, spool, files[1..][i])
    ensures forall i :: 0 <= i < |files| ==> Settled(hold, after, spool, files[i])
  {
    forall i | 0 <= i < |files| ensures Settled(hold, after, spool, files[i]) {
      if i > 0 {
        assert files[i] == files[1..][i - 1];
        assert files[0].hash != files[i].hash;
      }
    }
  }

  /** A stream that is not cut stays in step to its end: every file the peer
      has is here, whole, every other one is as it was, and what follows the
      stream has not been touched. */
  lemma {:induction false} WholePullsComplete(
    code: Code, hold: Holding, spool: map<Hash, Bytes>, files: seq<FileRef>, rest: Bytes)
    requires SelfDelimiting(code) && Ready(hold, spool, files)
    ensures var pulled :=
              PullFrom(code, hold, Sent(code, spool, RequestsFor(hold, files)) + rest, files, Offsets(hold, files));
            && pulled.rest == Some(rest)
            && (forall i :: 0 <= i < |files| ==> Settled(hold, pulled.hold, spool, files[i]))
    decreases |files|
  {
    if files == [] {
      assert Sent(code, spool, []) + rest == rest;
    } else {
      var requests, tail := RequestsFor(hold, files), files[1..];
      var middle := PastFirst(hold, spool, files);
      PastFirstIsReady(hold, spool, files);
      WholePullsComplete(code, middle, spool, tail, rest);
      var header, body := code.write(ReplyTo(spool, requests[0])), BodyOf(spool, requests[0]);
      var later := Sent(code, spool, requests[1..]);
      assert header + body + later + rest == header + (body + (later + rest)) by {
        Associates(header, body, later);
        Associates(header, body + later, rest);
        Associates(body, later, rest);
      }
      PullPastFirst(code, hold, spool, files, later + rest);
      PullTouchesOnlyItsFiles(code, middle, later + rest, tail, Offsets(middle, tail), files[0].hash);
      SettledLater(hold, middle, PullFrom(code, middle, later + rest, tail, Offsets(middle, tail)).hold, spool, files);
    }
  }

  // ------------------------------------------------------ what is not taken

  /** A header that does not announce exactly what is missing of the file is
      the end of the stream: nothing after it is read, and nothing changes. */
  lemma WrongSizesAreRefused(code: Code, hold: Holding, size: U64, rest: Bytes, files: seq<FileRef>, at: seq<nat>)
    requires SelfDelimiting(code) && |files| == |at| && files != [] && at[0] + size != files[0].size
    ensures PullFrom(code, hold, code.write(Sending(size)) + rest, files, at) == Pulled(hold, None)
  {
    Reads(code, Sending(size), rest);
  }

  /** Nor is anything taken for a part that is not as long as was asked from. */
  lemma MovedPartsAreRefused(code: Code, hold: Holding, size: U64, rest: Bytes, files: seq<FileRef>, at: seq<nat>)
    requires SelfDelimiting(code) && |files| == |at| && files != [] && |hold.PartOf(files[0].hash)| != at[0]
    ensures var pulled := PullFrom(code, hold, code.write(Sending(size)) + rest, files, at);
            && pulled.rest == None && pulled.hold.blobs == hold.blobs
            && forall h :: pulled.hold.PartOf(h) == hold.PartOf(h)
  {
    Reads(code, Sending(size), rest);
    assert hold.PartOf(files[0].hash) + [] == hold.PartOf(files[0].hash);
  }
}
