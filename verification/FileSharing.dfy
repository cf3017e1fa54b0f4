/** What becomes of files that are copied here, and of what was fetched before:
    the manifest a clip gets, what a sweep leaves, and what is fetched at all. */
module FileSharing {
  import opened Basics
  import opened Stamps
  import opened Files
  import opened Copies
  import opened Boards
  import opened ClipServices
  import opened FileServices
  import opened LateLandings
  import Spool

  // ----------------------------------------------------- files that are taken

  /** One entry for each file, in order, with its name, its length and the hash
      of its content. */
  predicate Describes(files: seq<FileRef>, sources: seq<Source>) {
    && |files| == |sources|
    && forall i :: 0 <= i < |sources| ==>
         files[i].path == sources[i].path && files[i].size == |sources[i].content|
         && files[i].hash == Digest(sources[i].content)
  }

  function EntryOf(source: Source): FileRef { FileRef(source.path, |source.content|, Digest(source.content)) }

  function Takes(n: nat): seq<Event> { seq(n, _ => TakeNext) }

  lemma MoreTakes(n: nat)
    requires n > 0
    ensures Takes(n) == [TakeNext] + Takes(n - 1)
  {}

  lemma TakingOne(s: Service, files: seq<FileRef>, sources: seq<Source>)
    requires |s.replaced| == |s.desk.jobs| && s.phase == Taking(files, sources) && sources != []
    ensures var (after, file) := (Step(s, TakeNext), EntryOf(sources[0]));
            && after == s.(spool := after.spool, phase := Taking(files + [file], sources[1..]))
            && after.spool.disk.blobs.Keys == s.spool.disk.blobs.Keys + {file.hash}
  {}

  lemma TakingFirst(s: Service, files: seq<FileRef>, sources: seq<Source>) returns (next: Service)
    requires |s.replaced| == |s.desk.jobs| && s.phase == Taking(files, sources) && sources != []
    ensures next == s.(spool := next.spool, phase := Taking(files + [EntryOf(sources[0])], sources[1..]))
    ensures next.spool.disk.blobs.Keys == s.spool.disk.blobs.Keys + {EntryOf(sources[0]).hash}
    ensures Going(s, Takes(|sources|)) == Going(next, Takes(|sources| - 1))
  {
    next := Step(s, TakeNext);
    TakingOne(s, files, sources);
    MoreTakes(|sources|);
    OneStep(s, TakeNext);
    GoingOn(s, [TakeNext], Takes(|sources| - 1));
  }

  /** The entries of files taken one after the other, and their hashes. */
  lemma {:induction false} TakingAll(s: Service, files: seq<FileRef>, sources: seq<Source>)
    returns (more: seq<FileRef>, after: Service)
    requires |s.replaced| == |s.desk.jobs| && s.phase == Taking(files, sources)
    ensures Describes(more, sources) && after == Going(s, Takes(|sources|))
    ensures after == s.(spool := after.spool, phase := Taking(files + more, []))
    ensures s.spool.disk.blobs.Keys + HashesOf(more) <= after.spool.disk.blobs.Keys
    decreases |sources|
  {
    if sources == [] {
      more, after := [], s;
      assert files + more == files;
    } else {
      var file := EntryOf(sources[0]);
      var next := TakingFirst(s, files, sources);
      var rest;
      rest, after := TakingAll(next, files + [file], sources[1..]);
      more := [file] + rest;
      HashesInTurn(file, rest);
      DescribesMore(sources[0], rest, sources[1..]);
      assert [sources[0]] + sources[1..] == sources;
      InTurn(files, file, rest);
    }
  }

  lemma HashesInTurn(file: FileRef, rest: seq<FileRef>)
    ensures HashesOf([file] + rest) == {file.hash} + HashesOf(rest)
  {
    forall hash | hash in {file.hash} + HashesOf(rest) ensures hash in HashesOf([file] + rest) {
      if hash == file.hash {
        assert file in [file] + rest;
      } else {
        var other :| other in rest && other.hash == hash;
        assert other in [file] + rest;
      }
    }
  }

  lemma InTurn(files: seq<FileRef>, file: FileRef, rest: seq<FileRef>)
    ensures files + [file] + rest == files + ([file] + rest)
  {}

  lemma DescribesMore(source: Source, files: seq<FileRef>, sources: seq<Source>)
    requires Describes(files, sources)
    ensures Describes([EntryOf(source)] + files, [source] + sources)
  {}

  /** Taking a job's files into the spool one by one, to the end of the job. */
  function TakenUp(sources: seq<Source>, clock: Clock): seq<Event> {
    [Start(sources)] + (Takes(|sources|) + [Finish(clock)])
  }

  lemma StartingOnFiles(s: Service, sources: seq<Source>)
    requires |s.replaced| == |s.desk.jobs| && s.phase.Idle? && s.desk.jobs != [] && sources != []
    requires s.desk.jobs[0].CopyJob? || (s.desk.jobs[0].RecordJob? && s.desk.jobs[0].paths != [])
    ensures Step(s, Start(sources)) == s.(phase := Taking([], sources))
  {}

  lemma FinishingFiles(s: Service, files: seq<FileRef>, clock: Clock)
    requires |s.replaced| == |s.desk.jobs| && s.desk.jobs != [] && s.phase == Taking(files, [])
    ensures Step(s, Finish(clock)) == Finishing(s, files, clock)
  {}

  lemma JobWithFiles(s: Service, sources: seq<Source>, clock: Clock) returns (files: seq<FileRef>, taken: Service)
    requires |s.replaced| == |s.desk.jobs| && s.phase.Idle? && s.desk.jobs != [] && sources != []
    requires s.desk.jobs[0].CopyJob? || (s.desk.jobs[0].RecordJob? && s.desk.jobs[0].paths != [])
    ensures Describes(files, sources) && HashesOf(files) <= taken.spool.disk.blobs.Keys
    ensures taken == s.(spool := taken.spool, phase := Taking(files, []))
    ensures Going(s, TakenUp(sources, clock)) == Finishing(taken, files, clock)
  {
    StartingOnFiles(s, sources);
    var started := s.(phase := Taking([], sources));
    files, taken := TakingAll(started, [], sources);
    assert [] + files == files;
    OneStep(s, Start(sources));
    GoingOn(s, [Start(sources)], Takes(|sources|) + [Finish(clock)]);
    GoingOn(started, Takes(|sources|), [Finish(clock)]);
    OneStep(taken, Finish(clock));
    FinishingFiles(taken, files, clock);
  }

  /** A copy of files makes the clip of exactly those files, once all of them
      are in the spool. */
  lemma CopiedFilesAreNamed(s: Service, sources: seq<Source>, clock: Clock) returns (files: seq<FileRef>)
    requires |s.replaced| == |s.desk.jobs| && s.phase.Idle? && sources != []
    requires s.desk.jobs != [] && s.desk.jobs[0].CopyJob?
    ensures Describes(files, sources)
    ensures var (job, after) := (s.desk.jobs[0], Going(s, TakenUp(sources, clock)));
            && HashesOf(files) <= after.spool.disk.blobs.Keys
            && after.desk.board
               == Do(s.desk.me, s.desk.board, CopyOp(OfFiles(job.sources), files, false, job.ttl), clock).board
            && after.phase.Idle? && |after.desk.jobs| >= |s.desk.jobs| - 1
            && after.desk.jobs[..|s.desk.jobs| - 1] == s.desk.jobs[1..] && after.recorded == s.recorded
  {
    var taken;
    files, taken := JobWithFiles(s, sources, clock);
  }

  /** So does a selection of files, if the clip is as it was left when it was
      queued, or as the record before it left it. */
  lemma SelectedFilesAreNamed(s: Service, sources: seq<Source>, clock: Clock) returns (files: seq<FileRef>)
    requires |s.replaced| == |s.desk.jobs| && s.phase.Idle? && sources != []
    requires s.desk.jobs != [] && s.desk.jobs[0].RecordJob? && s.desk.jobs[0].paths != []
    ensures Describes(files, sources)
    ensures var (job, board, after) := (s.desk.jobs[0], s.desk.board, Going(s, TakenUp(sources, clock)));
            && HashesOf(files) <= after.spool.disk.blobs.Keys && after.phase.Idle?
            && if board.Head() == job.base || board.Head() == s.recorded then
                 && after.desk.board == Do(s.desk.me, board, CaptureOp(job.captured, files), clock).board
                 && after.recorded == after.desk.board.Head()
               else after.desk == s.desk.(jobs := s.desk.jobs[1..]) && after.recorded == None
  {
    var taken;
    files, taken := JobWithFiles(s, sources, clock);
  }

  /** With no file to take, or none that could be, a selection is recorded as
      it is, and a copy of files comes to nothing. */
  lemma JobsWithoutFiles(s: Service, clock: Clock)
    requires |s.replaced| == |s.desk.jobs| && !s.phase.Sweeping? && s.desk.jobs != []
    ensures var (job, board, after) := (s.desk.jobs[0], s.desk.board, Step(s, WithoutFiles(clock)));
            && (job.CopyJob? ==> after.desk == s.desk.(jobs := s.desk.jobs[1..]) && after.recorded == s.recorded)
            && (job.RecordJob? && (board.Head() == job.base || board.Head() == s.recorded) ==>
                  && after.desk.board == Do(s.desk.me, board, CaptureOp(job.captured, []), clock).board
                  && after.recorded == after.desk.board.Head())
            && (job.RecordJob? && board.Head() != job.base && board.Head() != s.recorded ==>
                  after.desk == s.desk.(jobs := s.desk.jobs[1..]) && after.recorded == None)
            && after.spool == s.spool
  {}

  // -------------------------------------------------------- what may be taken

  /** A job that waits takes no files of a secret, and none at all where files
      are not shared; those of a selection are the ones it names. */
  predicate MayTake(job: Job, settings: Settings) {
    match job
    case RecordJob(_, captured, paths) =>
      paths == if settings.files && !captured.secret then captured.selection.FilePaths() else []
    case CopyJob(_, _) => settings.files
    case _ => true
  }

  predicate AllMayTake(s: Service) {
    && (forall job :: job in s.desk.jobs ==> MayTake(job, s.desk.me.settings))
    && (s.phase.Taking? ==>
          && s.desk.jobs != []
          && (s.desk.jobs[0].CopyJob? || (s.desk.jobs[0].RecordJob? && s.desk.jobs[0].paths != [])))
  }

  lemma ChangesQueueNoFiles(s: Service, op: Op, clock: Clock)
    requires |s.replaced| == |s.desk.jobs|
    ensures var after := Changed(s, op, clock);
            && after.desk.me == s.desk.me && s.desk.jobs <= after.desk.jobs
            && forall job :: job in after.desk.jobs ==> job in s.desk.jobs || job.FetchJob? || job.SweepJob?
  {
    var effects := Do(s.desk.me, s.desk.board, op, clock).effects;
    QueuedByEffects(effects);
  }

  lemma {:induction false} QueuedByEffects(effects: seq<Effect>)
    ensures forall job :: job in JobsOf(effects) ==> job.FetchJob? || job.SweepJob?
  {
    if effects != [] { QueuedByEffects(effects[1..]); }
  }

  lemma ChangeMayTake(s: Service, op: Op, clock: Clock)
    requires |s.replaced| == |s.desk.jobs| && AllMayTake(s)
    ensures AllMayTake(Changed(s, op, clock))
  {
    ChangesQueueNoFiles(s, op, clock);
  }

  lemma PoppedMayTake(s: Service)
    requires |s.replaced| == |s.desk.jobs| && AllMayTake(s) && s.desk.jobs != []
    ensures AllMayTake(Popped(s))
  {}

  lemma FinishMayTake(s: Service, files: seq<FileRef>, clock: Clock)
    requires |s.replaced| == |s.desk.jobs| && AllMayTake(s) && s.desk.jobs != []
    ensures AllMayTake(Finishing(s, files, clock)) && AllMayTake(GoingWithout(s, clock))
  {
    PoppedMayTake(s);
    match s.desk.jobs[0]
    case RecordJob(_, captured, _) =>
      ChangeMayTake(Popped(s), CaptureOp(captured, files), clock);
      ChangeMayTake(Popped(s), CaptureOp(captured, []), clock);
    case CopyJob(paths, ttl) => ChangeMayTake(Popped(s), CopyOp(OfFiles(paths), files, false, ttl), clock);
    case _ =>
  }

  lemma LandMayTake(s: Service, clock: Clock)
    requires |s.replaced| == |s.desk.jobs| && AllMayTake(s)
    ensures AllMayTake(Landing(s, clock))
  {
    if s.fetch.LaidOut? {
      ChangeMayTake(s, MaterializeOp(s.fetch.stamp, Spool.TreePath(s.root, s.fetch.stamp)), clock);
    }
  }

  lemma StepMayTake(s: Service, event: Event)
    requires |s.replaced| == |s.desk.jobs| && AllMayTake(s)
    ensures AllMayTake(Step(s, event))
  {
    match event
    case Act(op, clock) => ChangeMayTake(s, op, clock);
    case Start(_) => if s.phase.Idle? && s.desk.jobs != [] { PoppedMayTake(s); }
    case WithoutFiles(clock) => if s.desk.jobs != [] { FinishMayTake(s, [], clock); }
    case Finish(clock) =>
      if s.desk.jobs != [] {
        PoppedMayTake(s);
        if s.phase.Taking? { FinishMayTake(s, s.phase.files, clock); }
      }
    case Land(clock) => LandMayTake(s, clock);
    case _ =>
  }

  lemma {:induction false} RunMayTake(root: Bytes, me: Machine, clock: Clock, events: seq<Event>)
    ensures AllMayTake(Run(root, me, clock, events))
  {
    if events != [] {
      RunMayTake(root, me, clock, events[..|events| - 1]);
      StepMayTake(Run(root, me, clock, events[..|events| - 1]), events[|events| - 1]);
    }
  }

  /** In every run, the files of a secret are never taken into the spool, and
      none are where files are not shared. */
  lemma {:induction false} SecretFilesStayWhereTheyAre(root: Bytes, me: Machine, clock: Clock, events: seq<Event>)
    ensures var s := Run(root, me, clock, events);
            s.phase.Taking? ==>
              && s.desk.jobs != [] && s.desk.me.settings.files
              && (s.desk.jobs[0].RecordJob? ==>
                    var job := s.desk.jobs[0];
                    !job.captured.secret && job.paths == job.captured.selection.FilePaths())
  {
    RunMayTake(root, me, clock, events);
    var s := Run(root, me, clock, events);
    if s.phase.Taking? { assert MayTake(s.desk.jobs[0], s.desk.me.settings); }
  }

  // ------------------------------------------------------- manifests are true

  /** The size in an entry is the length of what its hash is of. */
  predicate IsTrue(file: FileRef) { file.hash.Digest? && |file.hash.content| == file.size }

  predicate AllTrue(files: seq<FileRef>) { forall file :: file in files ==> IsTrue(file) }

  predicate TrueOfOwn(s: Service) {
    && (s.desk.board.IsOurs(s.desk.me) && s.desk.board.Held().Some? ==> AllTrue(s.desk.board.Held().value.files))
    && (s.phase.Taking? ==> AllTrue(s.phase.files))
    && s.desk.disk == s.desk.board.Saved()
  }

  predicate GivesTrue(op: Op) {
    match op
    case CopyOp(_, files, _, _) => AllTrue(files)
    case CaptureOp(_, files) => AllTrue(files)
    case _ => true
  }

  lemma ChangeIsTrue(s: Service, op: Op, clock: Clock)
    requires |s.replaced| == |s.desk.jobs| && TrueOfOwn(s) && GivesTrue(op)
    ensures TrueOfOwn(Changed(s, op, clock))
  {
    SavedKept(s.desk, op, clock);
    OwnFilesAreGiven(s.desk.me, s.desk.board, op, clock);
  }

  predicate IsGiven(op: Op, files: seq<FileRef>) {
    match op
    case CopyOp(_, given, _, _) => files == given
    case CaptureOp(_, given) => files == given
    case _ => false
  }

  lemma OwnFilesAreGiven(me: Machine, board: Board, op: Op, clock: Clock)
    ensures var after := Do(me, board, op, clock).board;
            after.IsOurs(me) && after.Held().Some? ==>
              var files := after.Held().value.files;
              || (board.IsOurs(me) && board.Held().Some? && board.Held().value.files == files)
              || IsGiven(op, files)
  {
    match op
    case AcceptOp(clip) => DoMovesTheClip(me, board, op, clock);
    case _ =>
  }

  lemma FinishIsTrue(s: Service, files: seq<FileRef>, clock: Clock)
    requires |s.replaced| == |s.desk.jobs| && TrueOfOwn(s) && s.desk.jobs != [] && AllTrue(files)
    ensures TrueOfOwn(Finishing(s, files, clock)) && TrueOfOwn(GoingWithout(s, clock))
  {
    match s.desk.jobs[0]
    case RecordJob(_, captured, _) =>
      ChangeIsTrue(Popped(s), CaptureOp(captured, files), clock);
      ChangeIsTrue(Popped(s), CaptureOp(captured, []), clock);
    case CopyJob(paths, ttl) => ChangeIsTrue(Popped(s), CopyOp(OfFiles(paths), files, false, ttl), clock);
    case _ =>
  }

  lemma RestartIsTrue(s: Service, settings: Settings, clock: Clock)
    requires TrueOfOwn(s)
    ensures TrueOfOwn(Restarted(s, settings, clock))
  {}

  lemma LandIsTrue(s: Service, clock: Clock)
    requires |s.replaced| == |s.desk.jobs| && TrueOfOwn(s)
    ensures TrueOfOwn(Landing(s, clock))
  {
    if s.fetch.LaidOut? {
      ChangeIsTrue(s, MaterializeOp(s.fetch.stamp, Spool.TreePath(s.root, s.fetch.stamp)), clock);
    }
  }

  lemma JobIsTrue(s: Service, event: Event)
    requires |s.replaced| == |s.desk.jobs| && TrueOfOwn(s)
    requires event.WithoutFiles? || event.Finish? || event.TakeNext? || event.Start?
    ensures TrueOfOwn(Step(s, event))
  {
    match event
    case WithoutFiles(clock) => if s.desk.jobs != [] { FinishIsTrue(s, [], clock); }
    case Finish(clock) => if s.desk.jobs != [] && s.phase.Taking? { FinishIsTrue(s, s.phase.files, clock); }
    case TakeNext =>
    case Start(_) =>
  }

  lemma StepIsTrue(s: Service, event: Event)
    requires |s.replaced| == |s.desk.jobs| && TrueOfOwn(s)
    ensures TrueOfOwn(Step(s, event))
  {
    match event
    case Act(op, clock) => if Outside(op) { ChangeIsTrue(s, op, clock); }
    case WithoutFiles(_) => JobIsTrue(s, event);
    case Finish(_) => JobIsTrue(s, event);
    case TakeNext => JobIsTrue(s, event);
    case Start(_) => JobIsTrue(s, event);
    case Land(clock) => LandIsTrue(s, clock);
    case Restart(settings, clock) => RestartIsTrue(s, settings, clock);
    case _ =>
  }

  lemma {:induction false} RunIsTrue(root: Bytes, me: Machine, clock: Clock, events: seq<Event>)
    ensures TrueOfOwn(Run(root, me, clock, events))
  {
    if events != [] {
      RunIsTrue(root, me, clock, events[..|events| - 1]);
      StepIsTrue(Run(root, me, clock, events[..|events| - 1]), events[|events| - 1]);
    }
  }

  /** What this machine says of its files is true of the content it would
      serve: at every moment of every run, each file of a clip made here is in
      the spool, under its hash, at its size. */
  lemma OwnManifestsAreTrue(root: Bytes, me: Machine, clock: Clock, events: seq<Event>)
    ensures var s := Run(root, me, clock, events);
            s.desk.board.IsOurs(s.desk.me) && s.desk.board.Held().Some? ==>
              forall file :: file in s.desk.board.Held().value.files ==>
                && file.hash in s.spool.disk.blobs
                && s.spool.disk.blobs[file.hash] in s.spool.disk.files
                && var content := s.spool.disk.files[s.spool.disk.blobs[file.hash]];
                   file.hash == Digest(content) && file.size == |content|
  {
    var s := Run(root, me, clock, events);
    RunIsTrue(root, me, clock, events);
    OwnFilesAreServed(root, me, clock, events);
    if s.desk.board.IsOurs(s.desk.me) && s.desk.board.Held().Some? {
      forall file | file in s.desk.board.Held().value.files ensures IsTrue(file) {}
    }
  }

  // ------------------------------------------------------- what sweeps leave

  /** A sweep leaves of the spool the content the clip names, whole or in part,
      and the tree of that clip, and nothing of any other. */
  lemma SweepsLeaveOnlyTheClip(s: Service, sources: seq<Source>, clock: Clock)
    requires |s.replaced| == |s.desk.jobs| && s.phase.Idle? && s.desk.jobs != [] && s.desk.jobs[0].SweepJob?
    ensures |Step(s, Start(sources)).replaced| == |s.desk.jobs|
    ensures var swept := Step(Step(s, Start(sources)), Finish(clock));
            var (held, before, after) := (s.desk.board.Held(), s.spool.disk, swept.spool.disk);
            && (forall hash :: hash in after.blobs <==>
                  hash in before.blobs && held.Some? && exists file :: file in held.value.files && file.hash == hash)
            && (forall hash :: hash in after.parts <==>
                  hash in before.parts && held.Some? && exists file :: file in held.value.files && file.hash == hash)
            && (forall stamp :: stamp in after.trees <==>
                  stamp in before.trees && held.Some? && s.desk.board.Head() == Some(stamp))
            && swept.desk == s.desk.(jobs := s.desk.jobs[1..]) && swept.phase.Idle? && swept.fetch == s.fetch
  {
    var started := Step(s, Start(sources));
    var (live, content) := Referenced(s.desk.board);
    assert started == s.(phase := Sweeping(live, content));
    Spool.SweepsKeepExactly(s.spool, live, content);
  }

  // ------------------------------------------------------ what is fetched

  /** A task that was asked to fetch goes ahead exactly when the stamp is still
      the head's, its copy is held, names files no tree is known of, and they
      are within the limit; it then fetches that manifest. */
  lemma FetchingExactly(s: Service)
    requires |s.replaced| == |s.desk.jobs| && s.fetch.Asked?
    ensures var (board, fetch) := (s.desk.board, Step(s, LookUp).fetch);
            && (fetch.Fetching? <==>
                  && board.Head() == Some(s.fetch.stamp) && board.Held().Some? && board.Held().value.files != []
                  && board.tree.None? && TotalSize(board.Held().value.files) <= s.desk.me.settings.maxFileSize)
            && (fetch.Fetching? ==> fetch == Fetching(s.fetch.stamp, board.Held().value.files))
            && (!fetch.Fetching? ==> fetch == NoFetch)
            && Step(s, LookUp) == s.(fetch := fetch)
  {}

  /** A newer clip's fetch takes the place of the one under way, and one for
      the same clip or an older one is dropped. */
  lemma NewerFetchesGoFirst(s: Service, stamp: Stamp, sources: seq<Source>)
    requires |s.replaced| == |s.desk.jobs| && s.phase.Idle?
    requires s.desk.jobs != [] && s.desk.jobs[0] == FetchJob(stamp)
    ensures var after := Step(s, Start(sources));
            && (s.fetch.NoFetch? || Lt(Some(s.fetch.stamp), Some(stamp)) ==> after.fetch == Asked(stamp))
            && (!s.fetch.NoFetch? && !Lt(Some(s.fetch.stamp), Some(stamp)) ==> after.fetch == s.fetch)
            && after.desk == s.desk.(jobs := s.desk.jobs[1..]) && after.spool == s.spool
  {}

  /** Only a clip of files that another machine made, and that are not here, is
      asked to be fetched. */
  lemma AskingExactly(s: Service)
    requires |s.replaced| == |s.desk.jobs|
    ensures var (board, after) := (s.desk.board, Step(s, AskFetch));
            after.desk.jobs == s.desk.jobs +
              if board.Held().Some? && board.Held().value.files != [] && board.tree.None?
                 && board.clip.value.stamp.origin != s.desk.me.origin
              then [FetchJob(board.clip.value.stamp)]
              else []
  {
    assert s.desk.jobs + [] == s.desk.jobs;
  }

  /** A restart forgets what was queued, what was under way and what was last
      recorded, keeps the disk, and begins with sweeps. */
  lemma RestartsBeginAnew(s: Service, settings: Settings, clock: Clock)
    requires |s.replaced| == |s.desk.jobs|
    ensures var after := Step(s, Restart(settings, clock));
            && after.desk.jobs == [SweepJob, SweepJob] && after.phase.Idle? && after.fetch.NoFetch?
            && after.recorded == None && after.spool == Spool.Spooling(s.spool.disk, map[]) && after.root == s.root
            && after.desk.me == Machine(s.desk.me.origin, settings)
            && after.desk.board == Resume(after.desk.me, s.desk.disk, clock)
            && after.desk.disk == after.desk.board.Saved() && after.desk.head == after.desk.board.Head()
  {}
}
