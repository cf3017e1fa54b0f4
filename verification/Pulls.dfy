/** Fetching the files of a clip into the spool: one peer after another, each
    asked for everything still missing, resuming what earlier ones left. */
module ContentPulls {
  import opened Basics
  import opened Files
  import opened Copies
  import opened Wire
  import opened Spool
  import opened ContentStreams

  // ------------------------------------------------ the spool, as what it holds

  /** Every name leads to a file. */
  predicate Readable(d: Disk) {
    && (forall h :: h in d.blobs ==> d.blobs[h] in d.files)
    && (forall h :: h in d.parts ==> d.parts[h] in d.files)
  }

  function View(d: Disk): Holding
    requires Readable(d)
  {
    Holding(map h | h in d.blobs :: d.files[d.blobs[h]], map h | h in d.parts :: d.files[d.parts[h]])
  }

  lemma SoundIsReadable(d: Disk)
    requires DiskSound(d)
    ensures Readable(d)
  {
    assert forall h :: h in d.blobs ==> Named(d, d.blobs[h], h);
    assert forall h :: h in d.parts ==> Growing(d, d.parts[h]);
  }

  /** A transfer alone on its hash, writing to the part that has its name. */
  predicate Linked(d: Disk, t: Transfer) {
    Sound(Spooling(d, map[t.hash := t])) && t.hash in d.parts
  }

  /** What matters of that to what is held. */
  predicate Alone(d: Disk, t: Transfer) {
    && Readable(d) && t.hash in d.parts && d.parts[t.hash] == t.inode && t.hasher == d.files[t.inode]
    && (forall h :: h in d.blobs ==> d.blobs[h] != t.inode)
    && (forall h :: h in d.parts && h != t.hash ==> d.parts[h] != t.inode)
  }

  lemma LinkedIsAlone(d: Disk, t: Transfer)
    requires Linked(d, t)
    ensures Alone(d, t) && DiskSound(d)
  {
    var s := Spooling(d, map[t.hash := t]);
    assert TransferOk(s, t.hash, s.open[t.hash]);
    SoundIsReadable(d);
    forall h | h in d.blobs ensures d.blobs[h] != t.inode {
      assert Named(d, d.blobs[h], h);
    }
    forall h | h in d.parts && h != t.hash ensures d.parts[h] != t.inode {
      assert t.hash in s.open && s.open[t.hash].inode == t.inode;
    }
  }

  lemma OpeningLinks(d: Disk, hash: Hash)
    requires DiskSound(d)
    ensures Linked(Opened(d, hash).0, Opened(d, hash).1) && Opened(d, hash).1.hash == hash
  {
    var none: map<Hash, Transfer> := map[];
    ReceiveSound(Spooling(d, none), hash);
    OpeningKeepsTheDisk(d, hash);
    var t := Opened(d, hash).1;
    assert none[hash := t] == map[t.hash := t];
  }

  lemma ReopeningSeen(d: Disk, hash: Hash)
    requires Readable(d) && hash in d.parts
    ensures var (after, t) := Opened(d, hash);
            after == d && t.hasher == View(d).PartOf(hash) && View(d) == Received(View(d), hash, [], false)
  {
    var part := View(d).parts[hash];
    assert part + [] == part;
    assert View(d).parts[hash := part] == View(d).parts;
  }

  lemma OpeningAnewSeen(d: Disk, hash: Hash)
    requires Readable(d) && hash !in d.parts && d.next !in d.files
    ensures var (after, t) := Opened(d, hash);
            Readable(after) && t.hasher == View(d).PartOf(hash) && View(after) == Received(View(d), hash, [], false)
  {
    var after := Opened(d, hash).0;
    assert View(after).blobs == View(d).blobs;
    assert View(after).parts == View(d).parts[hash := []];
  }

  lemma OpeningSeen(d: Disk, hash: Hash)
    requires Readable(d) && forall i :: i in d.files ==> i < d.next
    ensures var (after, t) := Opened(d, hash);
            Readable(after) && t.hasher == View(d).PartOf(hash) && View(after) == Received(View(d), hash, [], false)
  {
    if hash in d.parts { ReopeningSeen(d, hash); } else { OpeningAnewSeen(d, hash); }
  }

  lemma WritingLinks(d: Disk, t: Transfer, bytes: Bytes)
    requires Linked(d, t)
    ensures Linked(Written(d, t, bytes).0, Written(d, t, bytes).1)
  {
    var s := Spooling(d, map[t.hash := t]);
    WriteSound(s, t.hash, bytes);
    var later := Written(d, t, bytes).1;
    assert s.open[t.hash := later] == map[later.hash := later];
  }

  lemma WritingSeen(d: Disk, t: Transfer, bytes: Bytes)
    requires Alone(d, t)
    ensures Readable(Written(d, t, bytes).0)
    ensures View(Written(d, t, bytes).0) == Received(View(d), t.hash, bytes, false)
  {
    var after, hold := Written(d, t, bytes).0, Received(View(d), t.hash, bytes, false);
    assert View(after).blobs == hold.blobs;
    assert View(after).parts == hold.parts;
  }

  lemma WrongBytesSeen(d: Disk, t: Transfer)
    requires Alone(d, t) && Digest(t.hasher) != t.hash
    ensures Readable(Finished(d, t).0)
    ensures View(Finished(d, t).0) == View(d).(parts := View(d).parts - {t.hash})
  {
    var after := Finished(d, t).0;
    assert View(after).blobs == View(d).blobs;
    assert View(after).parts == View(d).parts - {t.hash};
  }

  lemma RightBytesSeen(d: Disk, t: Transfer)
    requires Alone(d, t) && Digest(t.hasher) == t.hash
    ensures Readable(Finished(d, t).0)
    ensures View(Finished(d, t).0) == Holding(View(d).blobs[t.hash := t.hasher], View(d).parts - {t.hash})
  {
    var after := Finished(d, t).0;
    assert View(after).blobs == View(d).blobs[t.hash := t.hasher];
    assert View(after).parts == View(d).parts - {t.hash};
  }

  lemma FinishingSeen(d: Disk, t: Transfer)
    requires Alone(d, t)
    ensures Readable(Finished(d, t).0)
    ensures View(Finished(d, t).0) == Received(View(d), t.hash, [], true)
  {
    assert View(d).PartOf(t.hash) + [] == t.hasher;
    if Digest(t.hasher) == t.hash { RightBytesSeen(d, t); } else { WrongBytesSeen(d, t); }
  }

  lemma FinishingIsSound(d: Disk, t: Transfer)
    requires Linked(d, t)
    ensures DiskSound(Finished(d, t).0)
  {
    var s := Spooling(d, map[t.hash := t]);
    FinishSound(s, t.hash);
    assert Step(s, FinishOp(t.hash)).disk == Finished(d, t).0;
  }

  /** Receiving a file in pieces, and then nothing more of it. */
  lemma ReceivedInPieces(hold: Holding, hash: Hash, first: Bytes, more: Bytes, whole: bool)
    ensures Received(Received(hold, hash, first, false), hash, more, whole) == Received(hold, hash, first + more, whole)
  {
    assert hold.PartOf(hash) + first + more == hold.PartOf(hash) + (first + more);
  }

  // -------------------------------------------------------------- one transfer

  method ReadReply(recv: Stream) returns (reply: Option<ContentReply>)
    modifies recv
    ensures match NextReply(old(recv.pending))
            case None => reply == None
            case Some((said, rest)) => reply == Some(said) && recv.pending == rest
  {
    var message := recv.ReadMessage(MAX_REPLY_SIZE);
    if message.Err? {
      return None;
    }
    reply := DecodeReply(message.value);
  }

  /** Writes what arrives, up to `want` bytes, leaving what did when the
      stream dies halfway. */
  method TakeRest(store: Store, incoming: Incoming, recv: Stream, want: nat) returns (ok: bool, ghost taken: Bytes)
    requires incoming.store == store && Linked(store.disk, incoming.State())
    requires Readable(store.disk)
    modifies store, incoming, recv
    ensures Linked(store.disk, incoming.State()) && Readable(store.disk)
    ensures ok <==> want <= |old(recv.pending)|
    ensures ok ==> recv.pending == old(recv.pending)[want..]
    ensures taken == if ok then old(recv.pending)[..want] else old(recv.pending)
    ensures View(store.disk) == Received(old(View(store.disk)), incoming.hash, taken, false)
  {
    ghost var hold, stream, hash := View(store.disk), recv.pending, incoming.hash;
    LinkedIsAlone(store.disk, incoming.State());
    ghost var arrived: Bytes := [];
    NothingArrived(store.disk, incoming.State());
    var left := want;
    while left > 0
      invariant 0 <= left <= want && |arrived| == want - left
      invariant stream == arrived + recv.pending
      invariant Linked(store.disk, incoming.State()) && Readable(store.disk)
      invariant View(store.disk) == Received(hold, hash, arrived, false)
    {
      var chunk := recv.ReadChunk(left);
      if chunk.None? {
        assert arrived + [] == arrived;
        return false, arrived;
      }
      left := left - |chunk.value|;
      LinkedIsAlone(store.disk, incoming.State());
      WritingLinks(store.disk, incoming.State(), chunk.value);
      WritingSeen(store.disk, incoming.State(), chunk.value);
      ReceivedInPieces(hold, hash, arrived, chunk.value, false);
      incoming.Write(chunk.value);
      Associates(arrived, chunk.value, recv.pending);
      arrived := arrived + chunk.value;
    }
    assert stream[..want] == arrived && stream[want..] == recv.pending;
    return true, arrived;
  }

  lemma NothingArrived(d: Disk, t: Transfer)
    requires Alone(d, t)
    ensures View(d) == Received(View(d), t.hash, [], false)
  {
    assert View(d).PartOf(t.hash) + [] == View(d).parts[t.hash];
    assert View(d).parts[t.hash := View(d).parts[t.hash]] == View(d).parts;
  }

  lemma ReceivedAfterOpening(hold: Holding, hash: Hash, taken: Bytes, whole: bool)
    ensures Received(Received(hold, hash, [], false), hash, taken, whole) == Received(hold, hash, taken, whole)
  {
    assert [] + taken == taken;
    ReceivedInPieces(hold, hash, [], taken, whole);
  }

  /** Opens the transfer of a file, resuming the part that is here. */
  method Open(store: Store, hash: Hash) returns (incoming: Incoming)
    requires DiskSound(store.disk) && Readable(store.disk)
    modifies store
    ensures fresh(incoming) && incoming.store == store && incoming.hash == hash
    ensures Linked(store.disk, incoming.State()) && Readable(store.disk)
    ensures incoming.hasher == old(View(store.disk)).PartOf(hash)
    ensures View(store.disk) == Received(old(View(store.disk)), hash, [], false)
  {
    OpeningLinks(store.disk, hash);
    OpeningSeen(store.disk, hash);
    incoming := store.Receive(hash);
  }

  /** Puts what was received under its name, or drops it. */
  method Finish(store: Store, incoming: Incoming)
    requires incoming.store == store && Linked(store.disk, incoming.State()) && Readable(store.disk)
    modifies store
    ensures DiskSound(store.disk) && Readable(store.disk)
    ensures View(store.disk) == Received(old(View(store.disk)), incoming.hash, [], true)
  {
    LinkedIsAlone(store.disk, incoming.State());
    FinishingIsSound(store.disk, incoming.State());
    FinishingSeen(store.disk, incoming.State());
    var _ := incoming.Finish();
  }

  lemma FinishedWhole(hold: Holding, hash: Hash, taken: Bytes)
    ensures Received(Received(hold, hash, taken, false), hash, [], true) == Received(hold, hash, taken, true)
  {
    assert taken + [] == taken;
    ReceivedInPieces(hold, hash, taken, [], true);
  }

  /** Takes the rest of an open transfer, and finishes it if all of it came. */
  method TakeAndFinish(store: Store, incoming: Incoming, recv: Stream, want: nat) returns (ok: bool, ghost taken: Bytes)
    requires incoming.store == store && Linked(store.disk, incoming.State()) && Readable(store.disk)
    modifies store, incoming, recv
    ensures DiskSound(store.disk) && Readable(store.disk)
    ensures ok <==> want <= |old(recv.pending)|
    ensures ok ==> recv.pending == old(recv.pending)[want..]
    ensures taken == if ok then old(recv.pending)[..want] else old(recv.pending)
    ensures View(store.disk) == Received(old(View(store.disk)), incoming.hash, taken, ok)
  {
    ghost var hold := View(store.disk);
    ok, taken := TakeRest(store, incoming, recv, want);
    if ok {
      FinishedWhole(hold, incoming.hash, taken);
      Finish(store, incoming);
    } else {
      LinkedIsAlone(store.disk, incoming.State());
    }
  }

  /** One file, from offset `at` on: what `ReceivedFrom` says of the spool and
      of the stream, however early the stream ends. */
  method Receive(store: Store, recv: Stream, file: FileRef, at: nat) returns (ok: bool)
    requires DiskSound(store.disk) && Readable(store.disk) && at <= file.size
    modifies store, recv
    ensures DiskSound(store.disk) && Readable(store.disk)
    ensures var pulled := ReceivedFrom(old(View(store.disk)), old(recv.pending), file, at);
            View(store.disk) == pulled.hold && ok == pulled.rest.Some? && (ok ==> pulled.rest == Some(recv.pending))
  {
    ghost var hold := View(store.disk);
    var incoming := Open(store, file.hash);
    if incoming.At() != at {
      LinkedIsAlone(store.disk, incoming.State());
      return false;
    }
    ghost var taken;
    ok, taken := TakeAndFinish(store, incoming, recv, file.size - at);
    ReceivedAfterOpening(hold, file.hash, taken, ok);
  }

  /** One reply, and the file that follows it if one does. */
  method PullFile(store: Store, recv: Stream, file: FileRef, at: nat) returns (ok: bool)
    requires DiskSound(store.disk) && Readable(store.disk)
    modifies store, recv
    ensures DiskSound(store.disk) && Readable(store.disk)
    ensures var one := PullOne(WIRE, old(View(store.disk)), old(recv.pending), file, at);
            View(store.disk) == one.hold && ok == one.rest.Some? && (ok ==> one.rest == Some(recv.pending))
  {
    var reply := ReadReply(recv);
    if reply.None? {
      return false;
    }
    if reply.value.Sending? {
      if at + reply.value.size != file.size {
        return false;
      }
      ok := Receive(store, recv, file, at);
      return;
    }
    return true;
  }

  /** All the replies of one peer, one after the other: what `PullFrom` says of
      the spool and of the stream. */
  method Pull(store: Store, recv: Stream, files: seq<FileRef>, at: seq<nat>) returns (ok: bool)
    requires DiskSound(store.disk) && Readable(store.disk) && |files| == |at|
    modifies store, recv
    ensures DiskSound(store.disk) && Readable(store.disk)
    ensures PullFrom(WIRE, old(View(store.disk)), old(recv.pending), files, at)
            == Pulled(View(store.disk), if ok then Some(recv.pending) else None)
  {
    ghost var pulled := PullFrom(WIRE, View(store.disk), recv.pending, files, at);
    var i := 0;
    while i < |files|
      invariant 0 <= i <= |files| && DiskSound(store.disk) && Readable(store.disk)
      invariant PullFrom(WIRE, View(store.disk), recv.pending, files[i..], at[i..]) == pulled
    {
      assert files[i..][1..] == files[i + 1..] && at[i..][1..] == at[i + 1..];
      var taken := PullFile(store, recv, files[i], at[i]);
      if !taken {
        return false;
      }
      i := i + 1;
    }
    return true;
  }

  // ------------------------------------------------------- everything missing

  predicate Names(files: seq<FileRef>, hash: Hash) {
    exists i :: 0 <= i < |files| && files[i].hash == hash
  }

  predicate NamedOnce(files: seq<FileRef>) {
    forall i, j :: 0 <= i < j < |files| ==> files[i].hash != files[j].hash
  }

  /** The files whose content is not here, each content once. */
  function Missing(here: set<Hash>, files: seq<FileRef>): seq<FileRef> {
    if files == [] then []
    else
      var before, last := Missing(here, files[..|files| - 1]), files[|files| - 1];
      if last.hash in here || Names(before, last.hash) then before else before + [last]
  }

  /** Those of `files` whose content is still not here. */
  function Retain(here: set<Hash>, files: seq<FileRef>): seq<FileRef> {
    if files == [] then []
    else if files[0].hash in here then Retain(here, files[1..])
    else [files[0]] + Retain(here, files[1..])
  }

  lemma {:induction false} MissingNamesAll(here: set<Hash>, files: seq<FileRef>)
    ensures NamedOnce(Missing(here, files)) && |Missing(here, files)| <= |files|
    ensures forall file :: file in Missing(here, files) ==> file in files && file.hash !in here
    ensures forall i :: 0 <= i < |files| ==> files[i].hash in here || Names(Missing(here, files), files[i].hash)
  {
    if files != [] {
      var before, last := Missing(here, files[..|files| - 1]), files[|files| - 1];
      MissingNamesAll(here, files[..|files| - 1]);
      var missing := Missing(here, files);
      forall i | 0 <= i < |files| ensures files[i].hash in here || Names(missing, files[i].hash) {
        if i < |files| - 1 {
          assert files[..|files| - 1][i] == files[i];
          if files[i].hash !in here {
            var k :| 0 <= k < |before| && before[k].hash == files[i].hash;
            assert missing[k] == before[k];
          }
        } else if last.hash !in here && !Names(before, last.hash) {
          assert missing[|before|] == last;
        }
      }
    }
  }

  lemma {:induction false} RetainKeeps(here: set<Hash>, files: seq<FileRef>)
    ensures forall file :: file in Retain(here, files) <==> file in files && file.hash !in here
    ensures NamedOnce(files) ==> NamedOnce(Retain(here, files))
  {
    if files != [] {
      RetainKeeps(here, files[1..]);
      assert files == [files[0]] + files[1..];
      if NamedOnce(files) {
        assert forall i :: 0 <= i < |files[1..]| ==> files[1..][i] == files[i + 1];
        forall file | file in Retain(here, files[1..]) ensures file.hash != files[0].hash {
          assert file in files[1..];
        }
      }
    }
  }

  // ------------------------------------------------------------------- asking

  predicate Outgrown(hold: Holding, files: seq<FileRef>, hash: Hash) {
    exists i :: 0 <= i < |files| && files[i].hash == hash && |hold.PartOf(hash)| > files[i].size
  }

  /** Without the parts that outgrew the files they were to become. */
  function Trimmed(hold: Holding, files: seq<FileRef>): Holding {
    hold.(parts := map h | h in hold.parts && !Outgrown(hold, files, h) :: hold.parts[h])
  }

  /** What one look at the spool for a partial transfer does to it. */
  function Looked(hold: Holding, file: FileRef): Holding {
    if |hold.PartOf(file.hash)| > file.size then hold.(parts := hold.parts - {file.hash}) else hold
  }

  lemma LookingTrims(hold: Holding, files: seq<FileRef>, i: nat)
    requires i < |files| && NamedOnce(files)
    ensures Looked(Trimmed(hold, files[..i]), files[i]) == Trimmed(hold, files[..i + 1])
  {
    var before, after := Trimmed(hold, files[..i]), Trimmed(hold, files[..i + 1]);
    forall h | h in hold.parts
      ensures Outgrown(hold, files[..i + 1], h)
              <==> Outgrown(hold, files[..i], h) || (h == files[i].hash && |hold.PartOf(h)| > files[i].size)
    {
      if Outgrown(hold, files[..i], h) {
        var k :| 0 <= k < i && files[..i][k].hash == h && |hold.PartOf(h)| > files[..i][k].size;
        assert files[..i + 1][k] == files[..i][k];
      }
      if h == files[i].hash && |hold.PartOf(h)| > files[i].size { assert files[..i + 1][i].hash == h; }
    }
    forall k | 0 <= k < i ensures files[..i][k].hash != files[i].hash {
      assert files[..i][k] == files[k];
    }
    assert !Outgrown(hold, files[..i], files[i].hash);
    assert before.PartOf(files[i].hash) == hold.PartOf(files[i].hash);
    assert Looked(before, files[i]).parts == after.parts;
  }

  lemma LookingSeen(d: Disk, file: FileRef)
    requires DiskSound(d) && Readable(d)
    ensures var (after, at) := PartialOf(d, file.hash, file.size);
            && DiskSound(after) && Readable(after)
            && View(after) == Looked(View(d), file) && at == |View(after).PartOf(file.hash)|
  {
    var (after, at) := PartialOf(d, file.hash, file.size);
    assert View(after).blobs == Looked(View(d), file).blobs;
    assert View(after).parts == Looked(View(d), file).parts;
  }

  /** How much of a file is here, once a part too long for it is gone. */
  method Look(store: Store, file: FileRef) returns (at: nat)
    requires DiskSound(store.disk) && Readable(store.disk)
    modifies store
    ensures DiskSound(store.disk) && Readable(store.disk)
    ensures View(store.disk) == Looked(old(View(store.disk)), file)
    ensures at == |View(store.disk).PartOf(file.hash)| && at <= file.size
  {
    LookingSeen(store.disk, file);
    at := store.Partial(file.hash, file.size);
  }

  /** The offsets of the first files, and what they ask for. */
  predicate Asked(hold: Holding, files: seq<FileRef>, at: seq<nat>, requests: seq<ContentRequest>) {
    && |at| == |requests| <= |files|
    && forall k :: 0 <= k < |at| ==>
         && at[k] == |hold.PartOf(files[k].hash)| && at[k] <= files[k].size
         && requests[k] == ContentRequest(files[k].hash, at[k])
  }

  lemma AskedOneMore(hold: Holding, files: seq<FileRef>, at: seq<nat>, requests: seq<ContentRequest>, here: nat)
    requires NamedOnce(files) && Asked(hold, files, at, requests) && |at| < |files|
    requires var file := files[|at|]; here == |Looked(hold, file).PartOf(file.hash)| && here <= file.size
    ensures Asked(Looked(hold, files[|at|]), files, at + [here], requests + [ContentRequest(files[|at|].hash, here)])
  {
    forall k | 0 <= k < |at| ensures Looked(hold, files[|at|]).PartOf(files[k].hash) == hold.PartOf(files[k].hash) {
      assert files[k].hash != files[|at|].hash;
    }
  }

  /** How much of each file is here, and the request that says so. */
  method Ask(store: Store, files: seq<FileRef>) returns (at: seq<nat>, requests: seq<ContentRequest>)
    requires DiskSound(store.disk) && Readable(store.disk) && NamedOnce(files)
    modifies store
    ensures DiskSound(store.disk) && Readable(store.disk)
    ensures View(store.disk) == Trimmed(old(View(store.disk)), files)
    ensures at == Offsets(View(store.disk), files) && requests == RequestsFor(View(store.disk), files)
    ensures Asked(View(store.disk), files, at, requests)
  {
    ghost var hold := View(store.disk);
    at, requests := [], [];
    assert Trimmed(hold, []).parts == hold.parts;
    for i := 0 to |files|
      invariant DiskSound(store.disk) && Readable(store.disk)
      invariant View(store.disk) == Trimmed(hold, files[..i])
      invariant |at| == i && Asked(View(store.disk), files, at, requests)
    {
      LookingTrims(hold, files, i);
      ghost var before := View(store.disk);
      var here := Look(store, files[i]);
      AskedOneMore(before, files, at, requests, here);
      at, requests := at + [here], requests + [ContentRequest(files[i].hash, here)];
    }
    assert files[..|files|] == files;
  }

  /** Every request a checked clip leads to is one its peers answer, and fits
      the message that carries it. */
  lemma AsksAreAnswered(hold: Holding, files: seq<FileRef>, at: seq<nat>, requests: seq<ContentRequest>)
    requires NamedOnce(files) && |files| <= MAX_FILES && forall file :: file in files ==> file.size <= MAX_U64
    requires Asked(hold, files, at, requests) && |at| == |files|
    ensures |requests| <= MAX_FILES && DistinctHashes(requests) && AskSize(requests) <= MAX_REQUEST_SIZE
  {
    forall request | request in requests ensures request.at <= MAX_U64 {
      var k :| 0 <= k < |requests| && requests[k] == request;
      assert files[k] in files;
    }
    AsksFit(requests);
  }

  // -------------------------------------------------- one peer after another

  type Spooled = spool: map<Hash, Bytes> | Addressable(spool) witness map[]

  /** A machine that is up: what is in its spool, and how much of what it
      sends arrives before the connection is lost, if it is. */
  datatype Visit = Visit(spool: Spooled, cut: Option<nat>)

  function Delivered(sent: Bytes, cut: Option<nat>): Bytes {
    if cut.Some? && cut.value < |sent| then sent[..cut.value] else sent
  }

  /** What one peer's answer makes of what is held. */
  function PullOnce(code: Code, hold: Holding, missing: seq<FileRef>, visit: Visit): Holding {
    var asking := Trimmed(hold, missing);
    After(code, asking, missing, Delivered(Sent(code, visit.spool, RequestsFor(asking, missing)), visit.cut))
  }

  /** What is held at some point, and what is still missing then. */
  datatype Fetched = Fetched(hold: Holding, missing: seq<FileRef>)

  function AfterVisit(code: Code, now: Fetched, visit: Visit): Fetched {
    var next := PullOnce(code, now.hold, now.missing, visit);
    Fetched(next, Retain(next.blobs.Keys, now.missing))
  }

  type Turn = (Fetched, Visit) -> Fetched

  /** Whether a turn is to ask one machine, as seen from what that does. */
  ghost predicate Asks(turn: Turn, code: Code) {
    forall now: Fetched, visit: Visit {:trigger AfterVisit(code, now, visit)} ::
      turn(now, visit) == AfterVisit(code, now, visit)
  }

  function Visiting(code: Code): (turn: Turn)
    ensures Asks(turn, code)
  {
    (now: Fetched, visit: Visit) => AfterVisit(code, now, visit)
  }

  /** The first `i` machines asked in turn, or as many as it takes. */
  function PullFirst(turn: Turn, so: Fetched, visits: seq<Visit>, i: nat): Fetched
    requires i <= |visits|
    decreases i
  {
    if i == 0 then so
    else
      var before := PullFirst(turn, so, visits, i - 1);
      if before.missing == [] then before else turn(before, visits[i - 1])
  }

  lemma {:induction false} NothingMoreToAsk(turn: Turn, so: Fetched, visits: seq<Visit>, i: nat, j: nat)
    requires i <= j <= |visits| && PullFirst(turn, so, visits, i).missing == []
    ensures PullFirst(turn, so, visits, j) == PullFirst(turn, so, visits, i)
    decreases j
  {
    if i < j { NothingMoreToAsk(turn, so, visits, i, j - 1); }
  }

  lemma MissingPrefix(here: set<Hash>, files: seq<FileRef>, i: nat)
    requires i < |files|
    ensures Missing(here, files[..i + 1])
            == var before := Missing(here, files[..i]);
               if files[i].hash in here || Names(before, files[i].hash) then before else before + [files[i]]
  {
    assert files[..i + 1][..i] == files[..i];
  }

  method FindMissing(store: Store, files: seq<FileRef>) returns (missing: seq<FileRef>)
    ensures missing == Missing(store.disk.blobs.Keys, files)
  {
    ghost var here := store.disk.blobs.Keys;
    var seen: set<Hash> := {};
    missing := [];
    for i := 0 to |files|
      invariant missing == Missing(here, files[..i])
      invariant forall h :: h in seen <==> Names(missing, h)
    {
      MissingPrefix(here, files, i);
      if !store.Has(files[i].hash) && files[i].hash !in seen {
        ghost var before := missing;
        missing, seen := missing + [files[i]], seen + {files[i].hash};
        NamesOneMore(before, files[i]);
      }
    }
    assert files[..|files|] == files;
  }

  lemma NamesOneMore(files: seq<FileRef>, file: FileRef)
    ensures forall h :: Names(files + [file], h) <==> Names(files, h) || h == file.hash
  {
    forall h ensures Names(files + [file], h) <==> Names(files, h) || h == file.hash {
      if Names(files, h) {
        var k :| 0 <= k < |files| && files[k].hash == h;
        assert (files + [file])[k].hash == h;
      }
      if h == file.hash { assert (files + [file])[|files|].hash == h; }
    }
  }

  method VisitPeer(store: Store, missing: seq<FileRef>, visit: Visit) returns (still: seq<FileRef>)
    requires DiskSound(store.disk) && Readable(store.disk) && NamedOnce(missing)
    modifies store
    ensures DiskSound(store.disk) && Readable(store.disk) && NamedOnce(still)
    ensures Fetched(View(store.disk), still) == AfterVisit(WIRE, Fetched(old(View(store.disk)), missing), visit)
  {
    var at, requests := Ask(store, missing);
    var conn := new Stream();
    SendContents(conn, visit.spool, requests);
    assert conn.pending == Sent(WIRE, visit.spool, requests);
    if visit.cut.Some? { conn.CutOff(visit.cut.value); }
    var _ := Pull(store, conn, missing, at);
    still := Retain(store.disk.blobs.Keys, missing);
    assert store.disk.blobs.Keys == View(store.disk).blobs.Keys;
    RetainKeeps(store.disk.blobs.Keys, missing);
  }

  method VisitNext(
    store: Store, ghost turn: Turn, ghost start: Fetched, missing: seq<FileRef>, visits: seq<Visit>, i: nat)
    returns (still: seq<FileRef>)
    requires DiskSound(store.disk) && Readable(store.disk) && NamedOnce(missing) && missing != [] && i < |visits|
    requires Asks(turn, WIRE) && Fetched(View(store.disk), missing) == PullFirst(turn, start, visits, i)
    modifies store
    ensures DiskSound(store.disk) && Readable(store.disk) && NamedOnce(still)
    ensures Fetched(View(store.disk), still) == PullFirst(turn, start, visits, i + 1)
  {
    still := VisitPeer(store, missing, visits[i]);
  }

  /** Asks one machine after another until nothing is missing. */
  method PullInTurn(store: Store, files: seq<FileRef>, visits: seq<Visit>, ghost turn: Turn)
    returns (missing: seq<FileRef>)
    requires DiskSound(store.disk) && Readable(store.disk) && NamedOnce(files) && Asks(turn, WIRE)
    modifies store
    ensures DiskSound(store.disk) && Readable(store.disk)
    ensures Fetched(View(store.disk), missing)
            == PullFirst(turn, Fetched(old(View(store.disk)), files), visits, |visits|)
  {
    missing := files;
    ghost var start := Fetched(View(store.disk), files);
    var i := 0;
    while i < |visits| && missing != []
      invariant 0 <= i <= |visits| && DiskSound(store.disk) && Readable(store.disk) && NamedOnce(missing)
      invariant Fetched(View(store.disk), missing) == PullFirst(turn, start, visits, i)
    {
      missing := VisitNext(store, turn, start, missing, visits, i);
      i := i + 1;
    }
    if missing == [] { NothingMoreToAsk(turn, start, visits, i, |visits|); }
  }

  /** One visit after the other, each for the files that none before it
      brought, until nothing is missing or there are no more visits. */
  method PullAll(store: Store, files: seq<FileRef>, visits: seq<Visit>) returns (ok: bool)
    requires DiskSound(store.disk) && Readable(store.disk)
    modifies store
    ensures DiskSound(store.disk) && Readable(store.disk)
    ensures var start := Fetched(old(View(store.disk)), Missing(old(store.disk.blobs.Keys), files));
            var end := PullFirst(Visiting(WIRE), start, visits, |visits|);
            View(store.disk) == end.hold && (ok <==> end.missing == [])
  {
    var missing := FindMissing(store, files);
    MissingNamesAll(store.disk.blobs.Keys, files);
    missing := PullInTurn(store, missing, visits, Visiting(WIRE));
    return missing == [];
  }

  // ----------------------------------------------------- between honest machines

  /** Files to fetch that are not here; of some there may be parts, right or
      wrong. */
  predicate Fetching(so: Fetched) { Wanted(so.hold, so.missing) }

  predicate AllHonest(visits: seq<Visit>) {
    forall i :: 0 <= i < |visits| ==> Honest(visits[i].spool)
  }

  /** How much of what is left one visit brings. */
  function BroughtBy(code: Code, so: Fetched, visit: Visit): nat {
    var requests := RequestsFor(Trimmed(so.hold, so.missing), so.missing);
    Carried(code, visit.spool, requests, |Delivered(Sent(code, visit.spool, requests), visit.cut)|)
  }

  lemma TrimsOne(hold: Holding, files: seq<FileRef>, i: nat)
    requires i < |files| && NamedOnce(files)
    ensures var hash := files[i].hash;
            Trimmed(hold, files).PartOf(hash) == if |hold.PartOf(hash)| > files[i].size then [] else hold.PartOf(hash)
  {
    var hash := files[i].hash;
    if |hold.PartOf(hash)| > files[i].size {
      assert Outgrown(hold, files, hash);
    } else {
      assert forall k :: 0 <= k < |files| && files[k].hash == hash ==> k == i;
      assert !Outgrown(hold, files, hash);
    }
  }

  lemma {:induction false} LeftSame(a: Holding, b: Holding, files: seq<FileRef>)
    requires forall i :: 0 <= i < |files| ==> LeftOf(a, files[i]) == LeftOf(b, files[i])
    ensures Left(a, files) == Left(b, files)
  {
    if files != [] { LeftSame(a, b, files[1..]); }
  }

  /** Dropping what is too long keeps true starts, and what is left. */
  lemma TrimmingIsReady(so: Fetched)
    requires Fetching(so)
    ensures var asking := Trimmed(so.hold, so.missing);
            && Wanted(asking, so.missing) && PartsFit(asking, so.missing)
            && StartsKept(so.hold, asking) && Left(asking, so.missing) == Left(so.hold, so.missing)
  {
    var asking := Trimmed(so.hold, so.missing);
    forall i | 0 <= i < |so.missing|
      ensures |asking.PartOf(so.missing[i].hash)| <= so.missing[i].size
      ensures LeftOf(asking, so.missing[i]) == LeftOf(so.hold, so.missing[i])
    {
      TrimsOne(so.hold, so.missing, i);
    }
    LeftSame(asking, so.hold, so.missing);
  }

  lemma AdvancedFrom(hold: Holding, asking: Holding, after: Holding, files: seq<FileRef>, n: nat)
    requires Advanced(asking, after, files, n) && asking.blobs == hold.blobs
    requires StartsKept(hold, asking) && Left(asking, files) == Left(hold, files)
    ensures Advanced(hold, after, files, n)
  {}

  lemma VisitAdvances(code: Code, so: Fetched, visit: Visit)
    requires SelfDelimiting(code) && Fetching(so) && Honest(visit.spool)
    ensures var next := AfterVisit(code, so, visit);
            Fetching(next) && Advanced(so.hold, next.hold, so.missing, BroughtBy(code, so, visit))
  {
    var asking := Trimmed(so.hold, so.missing);
    TrimmingIsReady(so);
    var sent := Sent(code, visit.spool, RequestsFor(asking, so.missing));
    InterruptedPullsAdvance(code, asking, visit.spool, so.missing, Delivered(sent, visit.cut));
    AdvancedFrom(so.hold, asking, AfterVisit(code, so, visit).hold, so.missing, BroughtBy(code, so, visit));
    RetainedIsWanted(so, AfterVisit(code, so, visit).hold);
  }

  lemma RetainedIsWanted(so: Fetched, hold: Holding)
    requires Fetching(so)
    ensures Wanted(hold, Retain(hold.blobs.Keys, so.missing))
  {
    var left := Retain(hold.blobs.Keys, so.missing);
    RetainKeeps(hold.blobs.Keys, so.missing);
    forall i | 0 <= i < |left|
      ensures left[i].hash.Digest? && left[i].size == |left[i].hash.content| && left[i].hash !in hold.blobs
    {
      assert left[i] in left;
      var k :| 0 <= k < |so.missing| && so.missing[k] == left[i];
    }
  }

  lemma {:induction false} RetainAll(here: set<Hash>, files: seq<FileRef>)
    requires forall i :: 0 <= i < |files| ==> files[i].hash !in here
    ensures Retain(here, files) == files
  {
    if files != [] { RetainAll(here, files[1..]); }
  }

  lemma RetainMore(here: set<Hash>, first: FileRef, rest: seq<FileRef>)
    ensures Retain(here, [first] + rest) ==
            if first.hash in here then Retain(here, rest) else [first] + Retain(here, rest)
  {
    assert ([first] + rest)[1..] == rest;
  }

  lemma {:induction false} RetainTwice(before: set<Hash>, here: set<Hash>, files: seq<FileRef>)
    requires before <= here
    ensures Retain(here, Retain(before, files)) == Retain(here, files)
  {
    if files != [] {
      RetainTwice(before, here, files[1..]);
      RetainMore(here, files[0], Retain(before, files[1..]));
    }
  }

  lemma {:induction false} LeftRetained(here: set<Hash>, hold: Holding, files: seq<FileRef>)
    requires here <= hold.blobs.Keys
    ensures Left(hold, Retain(here, files)) == Left(hold, files)
  {
    if files != [] {
      LeftRetained(here, hold, files[1..]);
      if files[0].hash !in here { assert ([files[0]] + Retain(here, files[1..]))[1..] == Retain(here, files[1..]); }
    }
  }

  type Gain = (Fetched, Visit) -> nat

  function Bringing(code: Code): (gain: Gain)
    ensures forall now: Fetched, visit: Visit {:trigger gain(now, visit)} ::
              gain(now, visit) == BroughtBy(code, now, visit)
  {
    (now: Fetched, visit: Visit) => BroughtBy(code, now, visit)
  }

  /** What the first `i` machines brought, and how many of them brought
      anything. */
  function Brought(turn: Turn, gain: Gain, so: Fetched, visits: seq<Visit>, i: nat): nat
    requires i <= |visits|
    decreases i
  {
    if i == 0 then 0
    else
      var before := PullFirst(turn, so, visits, i - 1);
      Brought(turn, gain, so, visits, i - 1) + if before.missing == [] then 0 else gain(before, visits[i - 1])
  }

  function Useful(turn: Turn, gain: Gain, so: Fetched, visits: seq<Visit>, i: nat): nat
    requires i <= |visits|
    decreases i
  {
    if i == 0 then 0
    else
      var before := PullFirst(turn, so, visits, i - 1);
      Useful(turn, gain, so, visits, i - 1)
      + if before.missing != [] && gain(before, visits[i - 1]) > 0 then 1 else 0
  }

  /** What every visit keeps holds after any number of them. */
  lemma {:induction false} VisitsKeep(
    turn: Turn, gain: Gain, inv: (Fetched, nat) -> bool, so: Fetched, visits: seq<Visit>, i: nat, j: nat)
    requires i <= j <= |visits| && inv(PullFirst(turn, so, visits, i), Brought(turn, gain, so, visits, i))
    requires forall now: Fetched, n: nat, k | i <= k < j && now.missing != [] && inv(now, n) ::
               inv(turn(now, visits[k]), n + gain(now, visits[k]))
    ensures inv(PullFirst(turn, so, visits, j), Brought(turn, gain, so, visits, j))
    decreases j
  {
    if i < j { VisitsKeep(turn, gain, inv, so, visits, i, j - 1); }
  }

  /** What fetching has come to: `now`, from `so`, with `n` brought. */
  ghost predicate Progress(so: Fetched, now: Fetched, n: nat) {
    && Fetching(now) && Advanced(so.hold, now.hold, so.missing, n)
    && now.missing == Retain(now.hold.blobs.Keys, so.missing)
  }

  lemma ProgressOn(so: Fetched, now: Fetched, n: nat, next: Fetched, m: nat)
    requires Progress(so, now, n) && Fetching(next) && Advanced(now.hold, next.hold, now.missing, m)
    requires next.missing == Retain(next.hold.blobs.Keys, now.missing)
    ensures Progress(so, next, n + m)
  {
    var here := now.hold.blobs.Keys;
    RetainTwice(here, next.hold.blobs.Keys, so.missing);
    LeftRetained(here, now.hold, so.missing);
    LeftRetained(here, next.hold, so.missing);
  }

  lemma VisitProgresses(code: Code, so: Fetched, now: Fetched, n: nat, visit: Visit)
    requires SelfDelimiting(code) && Honest(visit.spool) && Progress(so, now, n)
    ensures Progress(so, AfterVisit(code, now, visit), n + BroughtBy(code, now, visit))
    ensures now.hold.blobs.Keys <= AfterVisit(code, now, visit).hold.blobs.Keys
  {
    VisitAdvances(code, now, visit);
    ProgressOn(so, now, n, AfterVisit(code, now, visit), BroughtBy(code, now, visit));
  }

  lemma VisitKeepsProgress(code: Code, so: Fetched, now: Fetched, n: nat, visit: Visit)
    requires SelfDelimiting(code) && Honest(visit.spool) && Progress(so, now, n)
    ensures Progress(so, Visiting(code)(now, visit), n + Bringing(code)(now, visit))
  {
    VisitProgresses(code, so, now, n, visit);
  }

  /** However often peers are asked and cut off, nothing fetched is lost:
      what was brought and what is left make up what was left at first. */
  lemma FetchingConserves(code: Code, so: Fetched, visits: seq<Visit>, i: nat)
    requires SelfDelimiting(code) && Fetching(so) && AllHonest(visits) && i <= |visits|
    ensures Progress(so, PullFirst(Visiting(code), so, visits, i),
                     Brought(Visiting(code), Bringing(code), so, visits, i))
  {
    var inv := (now: Fetched, n: nat) => Progress(so, now, n);
    RetainAll(so.hold.blobs.Keys, so.missing);
    forall now: Fetched, n: nat, k | 0 <= k < i && now.missing != [] && inv(now, n)
      ensures inv(Visiting(code)(now, visits[k]), n + Bringing(code)(now, visits[k]))
    {
      VisitKeepsProgress(code, so, now, n, visits[k]);
    }
    VisitsKeep(Visiting(code), Bringing(code), inv, so, visits, 0, i);
  }

  lemma {:induction false} UsefulBrings(turn: Turn, gain: Gain, so: Fetched, visits: seq<Visit>, i: nat)
    requires i <= |visits|
    ensures Useful(turn, gain, so, visits, i) <= Brought(turn, gain, so, visits, i)
    decreases i
  {
    if i > 0 { UsefulBrings(turn, gain, so, visits, i - 1); }
  }

  lemma ProgressIsBounded(so: Fetched, now: Fetched, n: nat)
    requires Fetching(so) && Progress(so, now, n)
    ensures n <= Left(so.hold, so.missing)
  {}

  lemma BroughtIsBounded(code: Code, so: Fetched, visits: seq<Visit>)
    requires SelfDelimiting(code) && Fetching(so) && AllHonest(visits)
    ensures Brought(Visiting(code), Bringing(code), so, visits, |visits|) <= Left(so.hold, so.missing)
  {
    FetchingConserves(code, so, visits, |visits|);
    ProgressIsBounded(
      so, PullFirst(Visiting(code), so, visits, |visits|),
      Brought(Visiting(code), Bringing(code), so, visits, |visits|));
  }

  /** Only so many pulls can bring anything before all of it is here. */
  lemma UsefulPullsRunOut(code: Code, so: Fetched, visits: seq<Visit>)
    requires SelfDelimiting(code) && Fetching(so) && AllHonest(visits)
    ensures Useful(Visiting(code), Bringing(code), so, visits, |visits|) <= Left(so.hold, so.missing)
  {
    BroughtIsBounded(code, so, visits);
    UsefulBrings(Visiting(code), Bringing(code), so, visits, |visits|);
  }

  /** What is here of a file is right as far as it goes, or will be dropped
      before it is asked for. */
  predicate Clean(hold: Holding, file: FileRef) {
    IsStart(hold, file.hash) || |hold.PartOf(file.hash)| > file.size
  }

  /** A machine whose answer arrives whole brings every file it has, or clears
      away what was wrong of it. */
  lemma WholeVisitsBring(code: Code, so: Fetched, visit: Visit, file: FileRef)
    requires SelfDelimiting(code) && Fetching(so) && Honest(visit.spool) && visit.cut.None?
    requires file in so.missing && file.hash in visit.spool
    ensures var next := AfterVisit(code, so, visit).hold;
            && (file.hash in next.blobs <==> Clean(so.hold, file))
            && (!Clean(so.hold, file) ==> next.PartOf(file.hash) == [])
  {
    var asking := Trimmed(so.hold, so.missing);
    TrimmingIsReady(so);
    var i :| 0 <= i < |so.missing| && so.missing[i] == file;
    TrimsOne(so.hold, so.missing, i);
    var sent := Sent(code, visit.spool, RequestsFor(asking, so.missing));
    assert sent + [] == sent;
    WholePullsComplete(code, asking, visit.spool, so.missing, []);
    assert Settled(asking, AfterVisit(code, so, visit).hold, visit.spool, so.missing[i]);
  }

  /** What fetching has come to once a file is here, or clean. */
  ghost predicate ProgressWith(so: Fetched, file: FileRef, clean: bool, now: Fetched, n: nat) {
    Progress(so, now, n) && (file.hash in now.hold.blobs || (clean && Clean(now.hold, file)))
  }

  lemma VisitStaysClean(code: Code, now: Fetched, visit: Visit, file: FileRef)
    requires SelfDelimiting(code) && Fetching(now) && Honest(visit.spool)
    requires file in now.missing && Clean(now.hold, file)
    ensures IsStart(AfterVisit(code, now, visit).hold, file.hash)
  {
    var asking := Trimmed(now.hold, now.missing);
    TrimmingIsReady(now);
    var i :| 0 <= i < |now.missing| && now.missing[i] == file;
    TrimsOne(now.hold, now.missing, i);
    assert IsStart(asking, file.hash);
    var sent := Sent(code, visit.spool, RequestsFor(asking, now.missing));
    InterruptedPullsAdvance(code, asking, visit.spool, now.missing, Delivered(sent, visit.cut));
  }

  lemma VisitKeepsContent(code: Code, so: Fetched, file: FileRef, clean: bool, now: Fetched, n: nat, visit: Visit)
    requires SelfDelimiting(code) && Honest(visit.spool) && ProgressWith(so, file, clean, now, n) && file in so.missing
    ensures ProgressWith(so, file, clean, Visiting(code)(now, visit), n + Bringing(code)(now, visit))
  {
    VisitProgresses(code, so, now, n, visit);
    RetainKeeps(now.hold.blobs.Keys, so.missing);
    if file.hash !in now.hold.blobs { VisitStaysClean(code, now, visit, file); }
  }

  lemma FetchedStays(
    code: Code, so: Fetched, visits: seq<Visit>, i: nat, j: nat, file: FileRef, clean: bool)
    requires SelfDelimiting(code) && AllHonest(visits) && i <= j <= |visits| && file in so.missing
    requires ProgressWith(so, file, clean, PullFirst(Visiting(code), so, visits, i),
                          Brought(Visiting(code), Bringing(code), so, visits, i))
    ensures var end := PullFirst(Visiting(code), so, visits, j).hold;
            file.hash in end.blobs || (clean && Clean(end, file))
  {
    var inv := (now: Fetched, n: nat) => ProgressWith(so, file, clean, now, n);
    forall now: Fetched, n: nat, k | i <= k < j && now.missing != [] && inv(now, n)
      ensures inv(Visiting(code)(now, visits[k]), n + Bringing(code)(now, visits[k]))
    {
      VisitKeepsContent(code, so, file, clean, now, n, visits[k]);
    }
    VisitsKeep(Visiting(code), Bringing(code), inv, so, visits, i, j);
  }

  /** A machine that has a file, and whose answer arrives whole. */
  predicate HeardAt(visits: seq<Visit>, i: nat, hash: Hash) {
    i < |visits| && visits[i].cut.None? && hash in visits[i].spool
  }

  /** Being heard out leaves a file here, or at least nothing wrong of it. */
  lemma HeardOutCleans(code: Code, so: Fetched, visits: seq<Visit>, i: nat, file: FileRef)
    requires SelfDelimiting(code) && Fetching(so) && AllHonest(visits) && file in so.missing
    requires HeardAt(visits, i, file.hash)
    ensures var before, after := PullFirst(Visiting(code), so, visits, i), PullFirst(Visiting(code), so, visits, i + 1);
            && (file.hash in after.hold.blobs || Clean(after.hold, file))
            && (file.hash in before.hold.blobs || Clean(before.hold, file) ==> file.hash in after.hold.blobs)
  {
    FetchingConserves(code, so, visits, i);
    FetchingConserves(code, so, visits, i + 1);
    var now := PullFirst(Visiting(code), so, visits, i);
    RetainKeeps(now.hold.blobs.Keys, so.missing);
    if file.hash in now.hold.blobs {
      FetchedStays(code, so, visits, i, i + 1, file, false);
    } else {
      assert file in now.missing;
      WholeVisitsBring(code, now, visits[i], file);
    }
  }

  lemma StaysGood(code: Code, so: Fetched, visits: seq<Visit>, i: nat, j: nat, file: FileRef)
    requires SelfDelimiting(code) && Fetching(so) && AllHonest(visits) && file in so.missing && i <= j <= |visits|
    ensures var before := PullFirst(Visiting(code), so, visits, i).hold;
            var after := PullFirst(Visiting(code), so, visits, j).hold;
            && (file.hash in before.blobs ==> file.hash in after.blobs)
            && (file.hash in before.blobs || Clean(before, file) ==> file.hash in after.blobs || Clean(after, file))
  {
    FetchingConserves(code, so, visits, i);
    var before := PullFirst(Visiting(code), so, visits, i).hold;
    if file.hash in before.blobs { FetchedStays(code, so, visits, i, j, file, false); }
    if Clean(before, file) { FetchedStays(code, so, visits, i, j, file, true); }
  }

  /** Heard out once where nothing wrong was here, and twice where something
      was: the first time only clears it away. */
  predicate HeardEnough(so: Fetched, visits: seq<Visit>, file: FileRef) {
    exists i :: 0 <= i < |visits| && HeardAt(visits, i, file.hash)
                && (Clean(so.hold, file) || exists j :: 0 <= j < i && HeardAt(visits, j, file.hash))
  }

  lemma GoodWhenHeard(code: Code, so: Fetched, visits: seq<Visit>, i: nat, file: FileRef)
    requires SelfDelimiting(code) && Fetching(so) && AllHonest(visits) && file in so.missing && i < |visits|
    requires Clean(so.hold, file) || exists j :: 0 <= j < i && HeardAt(visits, j, file.hash)
    ensures var now := PullFirst(Visiting(code), so, visits, i).hold; file.hash in now.blobs || Clean(now, file)
  {
    if Clean(so.hold, file) {
      StaysGood(code, so, visits, 0, i, file);
    } else {
      var j :| 0 <= j < i && HeardAt(visits, j, file.hash);
      HeardOutCleans(code, so, visits, j, file);
      StaysGood(code, so, visits, j + 1, i, file);
    }
  }

  lemma WhatArrivedIsRight(code: Code, so: Fetched, visits: seq<Visit>, file: FileRef)
    requires SelfDelimiting(code) && Fetching(so) && AllHonest(visits) && file in so.missing
    requires file.hash in PullFirst(Visiting(code), so, visits, |visits|).hold.blobs
    ensures Digest(PullFirst(Visiting(code), so, visits, |visits|).hold.blobs[file.hash]) == file.hash
  {
    FetchingConserves(code, so, visits, |visits|);
  }

  /** A file is here in the end once machines that have it were heard out
      often enough, whatever was here of it before, and it is the content its
      name says. */
  lemma HeardOutMeansHere(code: Code, so: Fetched, visits: seq<Visit>, file: FileRef)
    requires SelfDelimiting(code) && Fetching(so) && AllHonest(visits)
    requires file in so.missing && HeardEnough(so, visits, file)
    ensures var end := PullFirst(Visiting(code), so, visits, |visits|).hold;
            file.hash in end.blobs && Digest(end.blobs[file.hash]) == file.hash
  {
    var i :| 0 <= i < |visits| && HeardAt(visits, i, file.hash)
             && (Clean(so.hold, file) || exists j :: 0 <= j < i && HeardAt(visits, j, file.hash));
    GoodWhenHeard(code, so, visits, i, file);
    HereAfterHearing(code, so, visits, i, file);
    WhatArrivedIsRight(code, so, visits, file);
  }

  lemma HereAfterHearing(code: Code, so: Fetched, visits: seq<Visit>, i: nat, file: FileRef)
    requires SelfDelimiting(code) && Fetching(so) && AllHonest(visits) && file in so.missing
    requires HeardAt(visits, i, file.hash)
    requires var now := PullFirst(Visiting(code), so, visits, i).hold; file.hash in now.blobs || Clean(now, file)
    ensures file.hash in PullFirst(Visiting(code), so, visits, |visits|).hold.blobs
  {
    HeardOutCleans(code, so, visits, i, file);
    StaysGood(code, so, visits, i + 1, |visits|, file);
  }

  /** So the fetch is done exactly when every file is here, which is sure once
      machines that have them were heard out. */
  lemma FetchesEnd(code: Code, so: Fetched, visits: seq<Visit>)
    requires SelfDelimiting(code) && Fetching(so) && AllHonest(visits)
    ensures var end := PullFirst(Visiting(code), so, visits, |visits|);
            && (end.missing == [] <==> forall file :: file in so.missing ==> file.hash in end.hold.blobs)
            && ((forall file :: file in so.missing ==> HeardEnough(so, visits, file)) ==> end.missing == [])
  {
    var end := PullFirst(Visiting(code), so, visits, |visits|);
    FetchingConserves(code, so, visits, |visits|);
    RetainKeeps(end.hold.blobs.Keys, so.missing);
    if end.missing != [] { assert end.missing[0] in end.missing; }
    forall file | file in so.missing && HeardEnough(so, visits, file) ensures file.hash in end.hold.blobs {
      HeardOutMeansHere(code, so, visits, file);
    }
  }

  /** The files of a clip, each with the size its content has. */
  predicate Sized(files: seq<FileRef>) {
    forall i :: 0 <= i < |files| ==> files[i].hash.Digest? && files[i].size == |files[i].hash.content|
  }

  lemma FetchingStarts(hold: Holding, files: seq<FileRef>)
    requires Sized(files)
    ensures Fetching(Fetched(hold, Missing(hold.blobs.Keys, files)))
  {
    var missing := Missing(hold.blobs.Keys, files);
    MissingNamesAll(hold.blobs.Keys, files);
    forall i | 0 <= i < |missing|
      ensures missing[i].hash.Digest? && missing[i].size == |missing[i].hash.content| && missing[i].hash !in hold.blobs
    {
      assert missing[i] in missing;
      var k :| 0 <= k < |files| && files[k] == missing[i];
    }
  }

  lemma NothingElseIsMissing(here: set<Hash>, files: seq<FileRef>, blobs: set<Hash>)
    requires here <= blobs && forall file :: file in Missing(here, files) ==> file.hash in blobs
    ensures forall i :: 0 <= i < |files| ==> files[i].hash in blobs
  {
    var missing := Missing(here, files);
    MissingNamesAll(here, files);
    forall i | 0 <= i < |files| ensures files[i].hash in blobs {
      if files[i].hash !in here {
        var k :| 0 <= k < |missing| && missing[k].hash == files[i].hash;
        assert missing[k] in missing;
      }
    }
  }

  lemma FetchingKeeps(code: Code, so: Fetched, visits: seq<Visit>)
    requires SelfDelimiting(code) && Fetching(so) && AllHonest(visits)
    ensures so.hold.blobs.Keys <= PullFirst(Visiting(code), so, visits, |visits|).hold.blobs.Keys
  {
    FetchingConserves(code, so, visits, |visits|);
  }

  lemma MissingAreHeard(so: Fetched, files: seq<FileRef>, visits: seq<Visit>)
    requires so.missing == Missing(so.hold.blobs.Keys, files)
    requires forall i :: 0 <= i < |files| ==> files[i].hash in so.hold.blobs || HeardEnough(so, visits, files[i])
    ensures forall file :: file in so.missing ==> HeardEnough(so, visits, file)
  {
    MissingNamesAll(so.hold.blobs.Keys, files);
    forall file | file in so.missing ensures HeardEnough(so, visits, file) {
      var k :| 0 <= k < |files| && files[k] == file;
    }
  }

  /** What `PullAll` comes to, whatever was in the spool before: every file of
      the clip is here once each was, or machines that have it were heard out
      often enough; in whatever order, and whatever was cut off in between. */
  lemma WholeClipsArrive(code: Code, hold: Holding, files: seq<FileRef>, visits: seq<Visit>)
    requires SelfDelimiting(code) && Sized(files) && AllHonest(visits)
    requires var so := Fetched(hold, Missing(hold.blobs.Keys, files));
             forall i :: 0 <= i < |files| ==> files[i].hash in hold.blobs || HeardEnough(so, visits, files[i])
    ensures var end := PullFirst(Visiting(code), Fetched(hold, Missing(hold.blobs.Keys, files)), visits, |visits|);
            && end.missing == []
            && forall i :: 0 <= i < |files| ==> files[i].hash in end.hold.blobs
  {
    var so := Fetched(hold, Missing(hold.blobs.Keys, files));
    FetchingStarts(hold, files);
    MissingAreHeard(so, files, visits);
    FetchesEnd(code, so, visits);
    FetchingKeeps(code, so, visits);
    NothingElseIsMissing(hold.blobs.Keys, files, PullFirst(Visiting(code), so, visits, |visits|).hold.blobs.Keys);
  }
}
