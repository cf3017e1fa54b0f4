/** A clip as it is written for a peer, and read back: every field in its
    place, integers as short as they can be, lengths in front. */
module ClipCodec {
  import opened Basics
  import opened Stamps
  import opened Files
  import opened Copies
  import opened Wire

  /** How the 32 bytes of endpoint ids and hashes are written. */
  datatype Names = Names(
    putId: Id -> Bytes, takeId: Bytes -> Option<(Id, Bytes)>,
    putHash: Hash -> Bytes, takeHash: Bytes -> Option<(Hash, Bytes)>)

  type Taken<T> = Option<(T, Bytes)>

  // Each writer is given what comes after it.

  function PutVarint(n: nat, rest: Bytes): Bytes { Varint(n) + rest }

  function TakeVarint(bytes: Bytes): Taken<nat> { ReadVarint(bytes, 10) }

  function PutBytes(bytes: Bytes, rest: Bytes): Bytes { PutVarint(|bytes|, bytes + rest) }

  function TakeBytes(bytes: Bytes): Taken<Bytes> {
    match TakeVarint(bytes)
    case None => None
    case Some((n, more)) => if |more| < n then None else Some((more[..n], more[n..]))
  }

  function TextOf(bytes: Bytes): Option<string> {
    if forall b :: b in bytes ==> b < 128 then
      Some(seq(|bytes|, i requires 0 <= i < |bytes| => assert bytes[i] in bytes; bytes[i] as char))
    else None
  }

  function PutRep(rep: Rep, rest: Bytes): Bytes
    requires Ascii(rep.mime)
  {
    PutBytes(BytesOf(rep.mime), PutBytes(rep.bytes, rest))
  }

  function TakeRep(bytes: Bytes): Taken<Rep> {
    match TakeBytes(bytes)
    case None => None
    case Some((mime, more)) =>
      match (TextOf(mime), TakeBytes(more))
      case (Some(text), Some((payload, rest))) => Some((Rep(text, payload), rest))
      case _ => None
  }

  predicate AllAscii(reps: seq<Rep>) { forall rep :: rep in reps ==> Ascii(rep.mime) }

  function PutReps(reps: seq<Rep>, rest: Bytes): Bytes
    requires AllAscii(reps)
    decreases |reps|
  {
    if reps == [] then rest else PutRep(reps[0], PutReps(reps[1..], rest))
  }

  function TakeReps(n: nat, bytes: Bytes): Taken<seq<Rep>>
    decreases n
  {
    if n == 0 then Some(([], bytes))
    else match TakeRep(bytes)
      case None => None
      case Some((rep, more)) =>
        match TakeReps(n - 1, more)
        case None => None
        case Some((reps, rest)) => Some(([rep] + reps, rest))
  }

  function PutFile(names: Names, file: FileRef, rest: Bytes): Bytes {
    PutBytes(file.path, PutVarint(file.size, names.putHash(file.hash) + rest))
  }

  function TakeFile(names: Names, bytes: Bytes): Taken<FileRef> {
    match TakeBytes(bytes)
    case None => None
    case Some((path, more)) =>
      match TakeVarint(more)
      case None => None
      case Some((size, last)) =>
        match names.takeHash(last)
        case None => None
        case Some((hash, rest)) => Some((FileRef(path, size, hash), rest))
  }

  function PutFiles(names: Names, files: seq<FileRef>, rest: Bytes): Bytes
    decreases |files|
  {
    if files == [] then rest else PutFile(names, files[0], PutFiles(names, files[1..], rest))
  }

  function TakeFiles(names: Names, n: nat, bytes: Bytes): Taken<seq<FileRef>>
    decreases n
  {
    if n == 0 then Some(([], bytes))
    else match TakeFile(names, bytes)
      case None => None
      case Some((file, more)) =>
        match TakeFiles(names, n - 1, more)
        case None => None
        case Some((files, rest)) => Some(([file] + files, rest))
  }

  function PutTtl(ttl: Option<nat>, rest: Bytes): Bytes {
    match ttl
    case None => [0] + rest
    case Some(secs) => [1] + PutVarint(secs, rest)
  }

  function TakeTtl(bytes: Bytes): Taken<Option<nat>> {
    if bytes == [] then None
    else if bytes[0] == 0 then Some((None, bytes[1..]))
    else if bytes[0] == 1 then
      match ReadVarint(bytes[1..], 5)
      case None => None
      case Some((secs, rest)) => Some((Some(secs), rest))
    else None
  }

  function PutSelection(selection: Selection, rest: Bytes): Bytes
    requires AllAscii(selection.Reps())
  {
    assert selection.primary in selection.Reps();
    assert forall rep :: rep in selection.alternates ==> rep in selection.Reps();
    PutRep(selection.primary, PutVarint(|selection.alternates|, PutReps(selection.alternates, rest)))
  }

  function TakeSelection(bytes: Bytes): Taken<Selection> {
    match TakeRep(bytes)
    case None => None
    case Some((primary, more)) =>
      match TakeVarint(more)
      case None => None
      case Some((n, last)) =>
        match TakeReps(n, last)
        case None => None
        case Some((alternates, rest)) => Some((Selection(primary, alternates), rest))
  }

  function PutCopy(names: Names, copy: Copy, rest: Bytes): Bytes
    requires AllAscii(copy.selection.Reps())
  {
    PutSelection(copy.selection,
      [if copy.secret then 1 else 0] + PutTtl(copy.ttl, PutVarint(|copy.files|, PutFiles(names, copy.files, rest))))
  }

  function TakeCopy(names: Names, bytes: Bytes): Taken<Copy> {
    match TakeSelection(bytes)
    case None => None
    case Some((selection, more)) =>
      if more == [] || more[0] > 1 then None
      else match TakeTtl(more[1..])
        case None => None
        case Some((ttl, files)) =>
          match TakeVarint(files)
          case None => None
          case Some((n, last)) =>
            match TakeFiles(names, n, last)
            case None => None
            case Some((manifest, rest)) => Some((Copy(selection, more[0] == 1, ttl, manifest), rest))
  }

  function PutClip(names: Names, clip: Clip, rest: Bytes): Bytes
    requires clip.copy.Some? ==> AllAscii(clip.copy.value.selection.Reps())
  {
    PutVarint(clip.stamp.millis, names.putId(clip.stamp.origin) +
      match clip.copy
      case None => [0] + rest
      case Some(copy) => [1] + PutCopy(names, copy, rest))
  }

  function TakeClip(names: Names, bytes: Bytes): Taken<Clip> {
    match TakeVarint(bytes)
    case None => None
    case Some((millis, more)) =>
      match names.takeId(more)
      case None => None
      case Some((origin, last)) =>
        if last == [] then None
        else if last[0] == 0 then Some((Clip(Stamp(millis, origin), None), last[1..]))
        else if last[0] == 1 then
          match TakeCopy(names, last[1..])
          case None => None
          case Some((copy, rest)) => Some((Clip(Stamp(millis, origin), Some(copy)), rest))
        else None
  }

  /** The clip a machine answers a pull with, if it has one. */
  function Encode(names: Names, clip: Option<Clip>): Bytes
    requires clip.Some? && clip.value.copy.Some? ==> AllAscii(clip.value.copy.value.selection.Reps())
  {
    match clip
    case None => [0]
    case Some(held) => [1] + PutClip(names, held, [])
  }

  /** Trailing bytes are refused. */
  function Decode(names: Names, bytes: Bytes): Option<Option<Clip>> {
    if bytes == [0] then Some(None)
    else if bytes == [] || bytes[0] != 1 then None
    else match TakeClip(names, bytes[1..])
      case Some((clip, rest)) => if rest == [] then Some(Some(clip)) else None
      case None => None
  }

  // ---------------------------------------------------------------- round trip

  /** The ids and hashes of a clip are written in their own 32 bytes, and read
      back. */
  ghost predicate Writes(names: Names, clip: Clip, idSize: nat) {
    && |names.putId(clip.stamp.origin)| == idSize
    && (forall rest: Bytes :: names.takeId(names.putId(clip.stamp.origin) + rest) == Some((clip.stamp.origin, rest)))
    && (clip.copy.Some? ==> WritesHashes(names, clip.copy.value.files))
  }

  ghost predicate WritesHashes(names: Names, files: seq<FileRef>) {
    forall file :: file in files ==>
      && |names.putHash(file.hash)| == HASH_SIZE
      && forall rest: Bytes :: names.takeHash(names.putHash(file.hash) + rest) == Some((file.hash, rest))
  }

  lemma VarintsAreTaken(n: nat, rest: Bytes)
    requires n <= MAX_U64
    ensures TakeVarint(PutVarint(n, rest)) == Some((n, rest))
    ensures |PutVarint(n, rest)| == VarintSize(n) + |rest|
  {
    Capacities();
    VarintRoundTrips(n, rest, 10);
  }

  lemma BytesAreTaken(bytes: Bytes, rest: Bytes)
    requires |bytes| <= MAX_U64
    ensures TakeBytes(PutBytes(bytes, rest)) == Some((bytes, rest))
    ensures |PutBytes(bytes, rest)| == StringSize(|bytes|) + |rest|
  {
    VarintsAreTaken(|bytes|, bytes + rest);
    assert (bytes + rest)[..|bytes|] == bytes && (bytes + rest)[|bytes|..] == rest;
  }

  lemma TextIsTaken(text: string)
    requires Ascii(text)
    ensures |BytesOf(text)| == |text| && TextOf(BytesOf(text)) == Some(text)
  {
    var bytes := BytesOf(text);
    forall b | b in bytes ensures b < 128 {
      var i :| 0 <= i < |bytes| && bytes[i] == b;
      assert text[i] in text;
    }
    assert TextOf(bytes).value == text;
  }

  predicate RepInRange(rep: Rep) { Ascii(rep.mime) && |rep.mime| <= MAX_U64 && |rep.bytes| <= MAX_U64 }

  lemma RepIsTaken(rep: Rep, rest: Bytes)
    requires RepInRange(rep)
    ensures TakeRep(PutRep(rep, rest)) == Some((rep, rest))
    ensures |PutRep(rep, rest)| == StringSize(|rep.mime|) + StringSize(|rep.bytes|) + |rest|
  {
    TextIsTaken(rep.mime);
    BytesAreTaken(BytesOf(rep.mime), PutBytes(rep.bytes, rest));
    BytesAreTaken(rep.bytes, rest);
  }

  lemma NoRepsAreTaken(rest: Bytes)
    ensures AllAscii([]) && TakeReps(0, PutReps([], rest)) == Some(([], rest))
    ensures |PutReps([], rest)| == RepsSize([]) + |rest|
  {}

  lemma OneMoreRep(first: Rep, others: seq<Rep>, rest: Bytes)
    requires RepInRange(first) && AllAscii(others)
    ensures AllAscii([first] + others)
    ensures PutReps([first] + others, rest) == PutRep(first, PutReps(others, rest))
    ensures RepsSize([first] + others) == StringSize(|first.mime|) + StringSize(|first.bytes|) + RepsSize(others)
  {
    assert ([first] + others)[1..] == others;
  }

  lemma {:induction false} RepsAreTaken(reps: seq<Rep>, rest: Bytes)
    requires forall rep :: rep in reps ==> RepInRange(rep)
    ensures AllAscii(reps)
    ensures TakeReps(|reps|, PutReps(reps, rest)) == Some((reps, rest))
    ensures |PutReps(reps, rest)| == RepsSize(reps) + |rest|
    decreases |reps|
  {
    if reps == [] {
      NoRepsAreTaken(rest);
    } else {
      var first, others := reps[0], reps[1..];
      RepsAreTaken(others, rest);
      OneMoreIsTaken(first, others, rest);
      OneMoreRep(first, others, rest);
      assert reps == [first] + others;
    }
  }

  lemma OneMoreIsTaken(rep: Rep, reps: seq<Rep>, rest: Bytes)
    requires RepInRange(rep) && AllAscii(reps) && TakeReps(|reps|, PutReps(reps, rest)) == Some((reps, rest))
    ensures TakeReps(1 + |reps|, PutRep(rep, PutReps(reps, rest))) == Some(([rep] + reps, rest))
    ensures |PutRep(rep, PutReps(reps, rest))|
            == StringSize(|rep.mime|) + StringSize(|rep.bytes|) + |PutReps(reps, rest)|
  {
    RepIsTaken(rep, PutReps(reps, rest));
  }

  predicate FileInRange(file: FileRef) { |file.path| <= MAX_U64 && file.size <= MAX_U64 }

  lemma FileIsTaken(names: Names, file: FileRef, rest: Bytes)
    requires FileInRange(file) && WritesHashes(names, [file])
    ensures TakeFile(names, PutFile(names, file, rest)) == Some((file, rest))
    ensures |PutFile(names, file, rest)| == StringSize(|file.path|) + VarintSize(file.size) + HASH_SIZE + |rest|
  {
    assert file in [file];
    var hashed := names.putHash(file.hash) + rest;
    BytesAreTaken(file.path, PutVarint(file.size, hashed));
    VarintsAreTaken(file.size, hashed);
  }

  lemma {:induction false} FilesAreTaken(names: Names, files: seq<FileRef>, rest: Bytes)
    requires WritesHashes(names, files) && forall file :: file in files ==> FileInRange(file)
    ensures TakeFiles(names, |files|, PutFiles(names, files, rest)) == Some((files, rest))
    ensures |PutFiles(names, files, rest)| == FilesSize(files) + |rest|
    decreases |files|
  {
    if files == [] {
      assert PutFiles(names, files, rest) == rest && FilesSize(files) == 0;
    } else {
      var first, others := files[0], files[1..];
      FewerHashes(names, files);
      FilesAreTaken(names, others, rest);
      OneMoreFileIsTaken(names, first, others, rest);
      assert [first] + others == files;
    }
  }

  lemma FewerHashes(names: Names, files: seq<FileRef>)
    requires files != [] && WritesHashes(names, files)
    ensures WritesHashes(names, [files[0]]) && WritesHashes(names, files[1..])
  {
    assert forall file :: file in files[1..] ==> file in files;
  }

  lemma OneMoreFileIsTaken(names: Names, file: FileRef, files: seq<FileRef>, rest: Bytes)
    requires FileInRange(file) && WritesHashes(names, [file])
    requires TakeFiles(names, |files|, PutFiles(names, files, rest)) == Some((files, rest))
    ensures TakeFiles(names, 1 + |files|, PutFile(names, file, PutFiles(names, files, rest)))
            == Some(([file] + files, rest))
    ensures |PutFile(names, file, PutFiles(names, files, rest))|
            == StringSize(|file.path|) + VarintSize(file.size) + HASH_SIZE + |PutFiles(names, files, rest)|
  {
    FileIsTaken(names, file, PutFiles(names, files, rest));
  }

  function TtlSize(ttl: Option<nat>): nat { if ttl.Some? then 1 + VarintSize(ttl.value) else 1 }

  lemma TtlIsTaken(ttl: Option<nat>, rest: Bytes)
    requires ttl.Some? ==> ttl.value <= MAX_U32
    ensures TakeTtl(PutTtl(ttl, rest)) == Some((ttl, rest))
    ensures |PutTtl(ttl, rest)| == TtlSize(ttl) + |rest|
  {
    match ttl
    case None => assert ([0] + rest)[1..] == rest;
    case Some(secs) =>
      Capacities();
      VarintRoundTrips(secs, rest, 5);
      assert ([1] + PutVarint(secs, rest))[1..] == PutVarint(secs, rest);
  }

  lemma SelectionIsTaken(selection: Selection, rest: Bytes)
    requires |selection.alternates| <= MAX_U64 && forall rep :: rep in selection.Reps() ==> RepInRange(rep)
    ensures AllAscii(selection.Reps())
    ensures TakeSelection(PutSelection(selection, rest)) == Some((selection, rest))
    ensures |PutSelection(selection, rest)| == RepsSize(selection.Reps()) + VarintSize(|selection.alternates|) + |rest|
  {
    var reps := selection.Reps();
    assert selection.primary in reps && forall rep :: rep in selection.alternates ==> rep in reps;
    assert reps[1..] == selection.alternates;
    var alternates := PutReps(selection.alternates, rest);
    RepsAreTaken(selection.alternates, rest);
    VarintsAreTaken(|selection.alternates|, alternates);
    RepIsTaken(selection.primary, PutVarint(|selection.alternates|, alternates));
  }

  predicate CopyInRange(copy: Copy) {
    && (forall rep :: rep in copy.selection.Reps() ==> RepInRange(rep))
    && |copy.selection.alternates| <= MAX_U64
    && (copy.ttl.Some? ==> copy.ttl.value <= MAX_U32)
    && |copy.files| <= MAX_U64
    && (forall file :: file in copy.files ==> FileInRange(file))
  }

  /** What follows the selection. */
  lemma FilesAndAgeAreTaken(names: Names, copy: Copy, rest: Bytes)
    requires CopyInRange(copy) && WritesHashes(names, copy.files)
    ensures var files := PutFiles(names, copy.files, rest);
            var counted := PutVarint(|copy.files|, files);
            && TakeFiles(names, |copy.files|, files) == Some((copy.files, rest))
            && TakeVarint(counted) == Some((|copy.files|, files))
            && TakeTtl(PutTtl(copy.ttl, counted)) == Some((copy.ttl, counted))
            && |PutTtl(copy.ttl, counted)|
               == TtlSize(copy.ttl) + VarintSize(|copy.files|) + FilesSize(copy.files) + |rest|
  {
    FilesAreTaken(names, copy.files, rest);
    VarintsAreTaken(|copy.files|, PutFiles(names, copy.files, rest));
    TtlIsTaken(copy.ttl, PutVarint(|copy.files|, PutFiles(names, copy.files, rest)));
  }

  lemma CopyIsTaken(names: Names, copy: Copy, rest: Bytes)
    requires CopyInRange(copy) && WritesHashes(names, copy.files)
    ensures AllAscii(copy.selection.Reps())
    ensures TakeCopy(names, PutCopy(names, copy, rest)) == Some((copy, rest))
    ensures |PutCopy(names, copy, rest)| == CopySize(copy) + |rest|
  {
    var files := PutFiles(names, copy.files, rest);
    var counted := PutVarint(|copy.files|, files);
    var aged := PutTtl(copy.ttl, counted);
    var flag: Bytes := [if copy.secret then 1 else 0];
    FilesAndAgeAreTaken(names, copy, rest);
    SelectionIsTaken(copy.selection, flag + aged);
    assert (flag + aged)[1..] == aged;
  }

  /** The stamp in front, and whatever follows it. */
  lemma StampIsTaken(names: Names, clip: Clip, idSize: nat, last: Bytes)
    requires clip.stamp.millis <= MAX_U64 && Writes(names, clip, idSize)
    ensures var bytes := PutVarint(clip.stamp.millis, names.putId(clip.stamp.origin) + last);
            && TakeVarint(bytes) == Some((clip.stamp.millis, names.putId(clip.stamp.origin) + last))
            && names.takeId(names.putId(clip.stamp.origin) + last) == Some((clip.stamp.origin, last))
            && |bytes| == VarintSize(clip.stamp.millis) + idSize + |last|
  {
    VarintsAreTaken(clip.stamp.millis, names.putId(clip.stamp.origin) + last);
  }

  lemma ClipIsTaken(names: Names, clip: Clip, idSize: nat, rest: Bytes)
    requires clip.stamp.millis <= MAX_U64 && Writes(names, clip, idSize)
    requires clip.copy.Some? ==> CopyInRange(clip.copy.value)
    ensures clip.copy.Some? ==> AllAscii(clip.copy.value.selection.Reps())
    ensures TakeClip(names, PutClip(names, clip, rest)) == Some((clip, rest))
    ensures 1 + |PutClip(names, clip, rest)| == ClipSize(clip, idSize) + |rest|
  {
    match clip.copy
    case None =>
      var last: Bytes := [0] + rest;
      StampIsTaken(names, clip, idSize, last);
      assert last[1..] == rest;
    case Some(copy) =>
      CopyIsTaken(names, copy, rest);
      var last: Bytes := [1] + PutCopy(names, copy, rest);
      StampIsTaken(names, clip, idSize, last);
      assert last[1..] == PutCopy(names, copy, rest);
  }

  lemma CheckedIsInRange(copy: Copy)
    requires copy.Check() && (copy.ttl.Some? ==> copy.ttl.value <= MAX_U32)
    requires forall file :: file in copy.files ==> file.size <= MAX_U64
    ensures CopyInRange(copy)
  {
    var reps := copy.selection.Reps();
    assert |reps| == 1 + |copy.selection.alternates|;
    forall rep | rep in reps ensures RepInRange(rep) {
      OneOfTheBytes(reps, rep);
      assert UsableMime(rep.mime);
    }
    forall file | file in copy.files ensures FileInRange(file) { OneOfThePaths(copy.files, file); }
  }

  lemma {:induction false} OneOfTheBytes(reps: seq<Rep>, rep: Rep)
    requires rep in reps
    ensures |rep.bytes| <= TotalBytes(reps)
  {
    if rep != reps[0] { OneOfTheBytes(reps[1..], rep); }
  }

  lemma {:induction false} OneOfThePaths(files: seq<FileRef>, file: FileRef)
    requires file in files
    ensures |file.path| <= ManifestSize(files)
  {
    if file != files[0] { OneOfThePaths(files[1..], file); }
  }

  /** Every clip a machine would hold is answered in one message, within its
      cap, and the machine that asked reads that very clip off the stream and
      nothing behind it. */
  lemma CheckedClipsArrive(names: Names, clip: Clip, idSize: nat, rest: Bytes)
    requires InRange(clip) && Writes(names, clip, idSize) && idSize <= MAX_ID_SIZE
    requires clip.copy.Some? ==> clip.copy.value.Check()
    ensures clip.copy.Some? ==> AllAscii(clip.copy.value.selection.Reps())
    ensures var encoded := Encode(names, Some(clip));
            && |encoded| == ClipSize(clip, idSize) <= MAX_CLIP_SIZE
            && ReadFrame(Frame(encoded) + rest, MAX_CLIP_SIZE) == Ok((encoded, rest))
            && Decode(names, encoded) == Some(Some(clip))
  {
    if clip.copy.Some? { CheckedIsInRange(clip.copy.value); }
    ClipIsTaken(names, clip, idSize, []);
    CheckedClipsFit(clip, idSize);
    var encoded := Encode(names, Some(clip));
    assert encoded[1..] == PutClip(names, clip, []);
    FramingRoundTrips(encoded, rest, MAX_CLIP_SIZE);
  }

  /** A clip with anything behind it is none. */
  lemma TrailingClipBytesAreRefused(names: Names, clip: Clip, idSize: nat, more: Bytes)
    requires more != [] && clip.stamp.millis <= MAX_U64 && Writes(names, clip, idSize)
    requires clip.copy.Some? ==> CopyInRange(clip.copy.value)
    ensures clip.copy.Some? ==> AllAscii(clip.copy.value.selection.Reps())
    ensures Decode(names, [1] + PutClip(names, clip, more)) == None && Decode(names, [0] + more) == None
  {
    ClipIsTaken(names, clip, idSize, more);
    assert ([1] + PutClip(names, clip, more))[1..] == PutClip(names, clip, more);
  }

  /** A machine with no clip says so. */
  lemma NothingArrives(names: Names, rest: Bytes)
    ensures ReadFrame(Frame(Encode(names, None)) + rest, MAX_CLIP_SIZE) == Ok((Encode(names, None), rest))
    ensures Decode(names, Encode(names, None)) == Some(None)
  {
    FramingRoundTrips(Encode(names, None), rest, MAX_CLIP_SIZE);
  }

  /** Whatever a machine holds, a clip or none, its answer is read as just that. */
  lemma AnswersArrive(names: Names, held: Option<Clip>, idSize: nat, rest: Bytes)
    requires idSize <= MAX_ID_SIZE
    requires held.Some? ==> InRange(held.value) && Writes(names, held.value, idSize)
    requires held.Some? && held.value.copy.Some? ==> held.value.copy.value.Check()
    ensures held.Some? && held.value.copy.Some? ==> AllAscii(held.value.copy.value.selection.Reps())
    ensures |Encode(names, held)| <= MAX_CLIP_SIZE
    ensures ReadFrame(Frame(Encode(names, held)) + rest, MAX_CLIP_SIZE) == Ok((Encode(names, held), rest))
    ensures Decode(names, Encode(names, held)) == Some(held)
  {
    match held
    case Some(clip) => CheckedClipsArrive(names, clip, idSize, rest);
    case None => NothingArrives(names, rest);
  }

  // ------------------------------------------------------------ an example

  lemma ShortBytes(bytes: Bytes, rest: Bytes)
    requires |bytes| < 128
    ensures PutBytes(bytes, rest) == [|bytes|] + bytes + rest
  {
    assert [|bytes|] + (bytes + rest) == [|bytes|] + bytes + rest;
  }

  lemma ShortRep(rep: Rep, rest: Bytes)
    requires Ascii(rep.mime) && |rep.mime| < 128 && |rep.bytes| < 128
    ensures PutRep(rep, rest) == [|rep.mime|] + BytesOf(rep.mime) + ([|rep.bytes|] + rep.bytes + rest)
  {
    ShortBytes(rep.bytes, rest);
    ShortBytes(BytesOf(rep.mime), PutBytes(rep.bytes, rest));
  }

  lemma OnlyRep(rep: Rep, rest: Bytes)
    requires AllAscii([rep])
    ensures Ascii(rep.mime) && PutReps([rep], rest) == PutRep(rep, rest)
  {
    assert rep in [rep] && [rep][1..] == [] && PutReps([], rest) == rest;
  }

  lemma TheTextOfTypes()
    ensures BytesOf("a/b") == [97, 47, 98] && BytesOf("c") == [99] && BytesOf("a") == [97]
  {}

  lemma TwoReps(rest: Bytes)
    ensures var selection := Selection(Rep("a/b", [9]), [Rep("c", [])]);
            && AllAscii(selection.Reps())
            && PutSelection(selection, rest) == [3, 97, 47, 98, 1, 9] + ([1, 1, 99, 0] + rest)
  {
    var first, second := Rep("a/b", [9]), Rep("c", []);
    TheTextOfTypes();
    OnlyRep(second, rest);
    ShortRep(second, rest);
    var others: Bytes := [1, 1, 99, 0] + rest;
    assert PutVarint(1, PutReps([second], rest)) == others;
    ShortRep(first, others);
  }

  lemma BeforeTheCopy(names: Names, origin: Id, copy: Copy)
    requires AllAscii(copy.selection.Reps())
    ensures Encode(names, Some(Clip(Stamp(5, origin), Some(copy))))
            == [1, 5] + names.putId(origin) + [1] + PutCopy(names, copy, [])
  {}

  /** A clip byte by byte: the option, the time, the maker; the copy, its two
      representations, that it is a secret, its lifetime, and no files. */
  lemma ASecretOnTheWire(names: Names, origin: Id)
    ensures var copy := Copy(Selection(Rep("a/b", [9]), [Rep("c", [])]), true, Some(300), []);
            && AllAscii(copy.selection.Reps())
            && Encode(names, Some(Clip(Stamp(5, origin), Some(copy))))
               == [1, 5] + names.putId(origin) + [1, 3, 97, 47, 98, 1, 9, 1, 1, 99, 0, 1, 1, 0xAC, 0x02, 0]
  {
    var last: Bytes := [1, 1, 0xAC, 0x02, 0];
    assert Varint(2) == [2] && Varint(300) == [0xAC, 0x02];
    assert PutVarint(0, []) == [0] && PutTtl(Some(300), [0]) == [1, 0xAC, 0x02, 0];
    assert [1] + PutTtl(Some(300), PutVarint(0, PutFiles(names, [], []))) == last;
    TwoReps(last);
    BeforeTheCopy(names, origin, Copy(Selection(Rep("a/b", [9]), [Rep("c", [])]), true, Some(300), []));
  }

  /** And one of a file, with its name, its size and its hash. */
  lemma AFileOnTheWire(names: Names, origin: Id, hash: Hash)
    ensures var copy := Copy(Selection(Rep("a", []), []), false, None, [FileRef([120], 7, hash)]);
            && AllAscii(copy.selection.Reps())
            && Encode(names, Some(Clip(Stamp(5, origin), Some(copy))))
               == [1, 5] + names.putId(origin) + [1, 1, 97, 0, 0, 0, 0, 1, 1, 120, 7] + names.putHash(hash)
  {
    var only, file := Rep("a", []), FileRef([120], 7, hash);
    var copy := Copy(Selection(only, []), false, None, [file]);
    assert BytesOf("a") == [97];
    var hashed := names.putHash(hash);
    assert hashed + [] == hashed;
    ShortBytes([120], PutVarint(7, hashed));
    assert [file][1..] == [];
    var listed := PutFiles(names, [file], []);
    assert PutFiles(names, [], []) == [];
    assert listed == [1, 120, 7] + hashed;
    var last: Bytes := [0, 0, 1, 1, 120, 7] + hashed;
    assert [0] + PutTtl(None, PutVarint(1, listed)) == last;
    assert PutReps([], last) == last && PutVarint(0, last) == [0] + last;
    ShortRep(only, [0] + last);
    assert PutCopy(names, copy, []) == [1, 97, 0] + ([0] + last);
  }

  /** An emptied clip, and none at all. */
  lemma NothingOnTheWire(names: Names, origin: Id)
    ensures Encode(names, Some(Clip(Stamp(5, origin), None))) == [1, 5] + names.putId(origin) + [0]
    ensures Encode(names, None) == [0]
  {}
}
