/** The file service of one machine, next to everything that goes on meanwhile:
    jobs run one at a time and in order, while the clip changes, fetches land,
    and the daemon stops and starts. */
module FileServices {
  import opened Basics
  import opened Stamps
  import opened Files
  import opened Copies
  import opened Serving
  import opened Boards
  import opened ClipServices
  import Spool
  import DeskRuns

  /** A file found by walking the paths of a selection. */
  datatype Source = Source(path: Bytes, content: Bytes)

  /** How far the first job of the queue has come. */
  datatype Phase =
    | Idle
    | Taking(files: seq<FileRef>, left: seq<Source>)        // into the spool
    | Sweeping(live: Option<Stamp>, content: set<Hash>)     // what it will keep was read

  /** How far the task beside the queue has come: started for a stamp, then
      fetching what was looked up for it, then with a tree laid out that the
      clipboard has yet to hear of. */
  datatype FetchTask =
    | NoFetch
    | Asked(stamp: Stamp)
    | Fetching(stamp: Stamp, files: seq<FileRef>)
    | LaidOut(stamp: Stamp, files: seq<FileRef>)

  /** One machine, with the directory its trees are kept in. `replaced` only serves to state what `Record` means: it
      says of every queued job whether anything but a queued record has
      replaced the clip since. */
  datatype Service = Service(
    root: Bytes,
    desk: Desk,
    spool: Spool.Spooling,
    phase: Phase,
    fetch: FetchTask,
    recorded: Option<Stamp>,
    replaced: seq<bool>)

  datatype Event =
    | Act(op: Op, clock: Clock)
    | Selected(captured: Captured)
    | AskCopy(paths: seq<Bytes>, ttl: Option<nat>)
    | AskFetch
    | Start(sources: seq<Source>)
    | TakeNext
    | WithoutFiles(clock: Clock)
    | Finish(clock: Clock)
    | LookUp
    | FetchStep(transfer: Spool.Op)
    | LayOut
    | Land(clock: Clock)
    | GiveUp
    | Restart(settings: Settings, clock: Clock)

  /** What can happen to the clip whatever the file service is doing. */
  predicate Outside(op: Op) {
    match op
    case CopyOp(_, files, _, _) => files == []
    case CaptureOp(_, _) => false
    case MaterializeOp(_, _) => false
    case _ => true
  }

  /** What fetching does to the spool; a task that was given up may still be
      laying out a tree, of a stamp behind the head. */
  predicate Fetches(op: Spool.Op, head: Option<Stamp>) {
    || op.PartialOp? || op.ReceiveOp? || op.WriteOp? || op.FinishOp? || op.AbortOp?
    || (op.LayOutOp? && Lt(Some(op.stamp), head))
  }

  /** The manifest behind a stamp, or nothing if the stamp is not the head's or
      a tree of it is there already. */
  function FilesWanted(board: Board, stamp: Stamp): seq<FileRef> {
    if board.Head() == Some(stamp) && board.Held().Some? && board.tree.None? then board.Held().value.files else []
  }

  function HashesOf(files: seq<FileRef>): set<Hash> {
    set file | file in files :: file.hash
  }

  /** The head and the hashes of its manifest, for a sweep to spare. */
  function Referenced(board: Board): (Option<Stamp>, set<Hash>) {
    if board.Held().Some? then (board.Head(), HashesOf(board.Held().value.files)) else (None, {})
  }

  function Nothings(n: nat): seq<bool> { seq(n, _ => false) }

  function Alls(n: nat): seq<bool> { seq(n, _ => true) }

  /** The flags of a queue that jobs were added to, by a change that was the
      record at its front or was not. */
  function Flagged(flags: seq<bool>, before: Desk, after: Desk, record: bool): seq<bool>
    requires |flags| <= |after.jobs|
  {
    (if !record && after.board.Head() != before.board.Head() then Alls(|flags|) else flags)
    + Nothings(|after.jobs| - |flags|)
  }

  function Changed(s: Service, op: Op, clock: Clock): Service
    requires |s.replaced| == |s.desk.jobs|
  {
    var desk := s.desk.Perform(Do(s.desk.me, s.desk.board, op, clock));
    s.(desk := desk, replaced := Flagged(s.replaced, s.desk, desk, op.CaptureOp?))
  }

  /** The first job is over. */
  function Popped(s: Service): Service
    requires s.desk.jobs != [] && |s.replaced| == |s.desk.jobs|
  {
    s.(desk := s.desk.(jobs := s.desk.jobs[1..]), phase := Idle, replaced := s.replaced[1..])
  }

  function Queued(s: Service, job: Job): Service {
    s.(desk := s.desk.(jobs := s.desk.jobs + [job]), replaced := s.replaced + [false])
  }

  /** The test a queued selection has to pass: the head is the one it was
      queued at, or the one the record before it left. */
  predicate IsTaken(s: Service, base: Option<Stamp>) {
    s.desk.board.Head() == base || s.desk.board.Head() == s.recorded
  }

  function Recording(s: Service, base: Option<Stamp>, captured: Captured, files: seq<FileRef>, clock: Clock): Service
    requires s.desk.jobs != [] && |s.replaced| == |s.desk.jobs|
  {
    if !IsTaken(s, base) then Popped(s).(recorded := None)
    else
      var after := Changed(Popped(s), CaptureOp(captured, files), clock);
      after.(recorded := after.desk.board.Head())
  }

  /** The job at the front is done, with these files in the spool. */
  function Finishing(s: Service, files: seq<FileRef>, clock: Clock): Service
    requires s.desk.jobs != [] && |s.replaced| == |s.desk.jobs|
  {
    match s.desk.jobs[0]
    case RecordJob(base, captured, _) => Recording(s, base, captured, files, clock)
    case CopyJob(paths, ttl) => Changed(Popped(s), CopyOp(OfFiles(paths), files, false, ttl), clock)
    case _ => s
  }

  /** The selection names no file, or they cannot be taken: it is shared as
      the text it is, and a copy of files fails. */
  function GoingWithout(s: Service, clock: Clock): Service
    requires s.desk.jobs != [] && |s.replaced| == |s.desk.jobs|
  {
    match s.desk.jobs[0]
    case RecordJob(base, captured, _) => Recording(s, base, captured, [], clock)
    case CopyJob(_, _) => Popped(s)
    case _ => s
  }

  function Starting(s: Service, sources: seq<Source>): Service
    requires s.desk.jobs != [] && |s.replaced| == |s.desk.jobs|
  {
    match s.desk.jobs[0]
    case RecordJob(_, _, paths) => if paths == [] || sources == [] then s else s.(phase := Taking([], sources))
    case CopyJob(_, _) => if sources == [] then s else s.(phase := Taking([], sources))
    case FetchJob(stamp) =>
      if !s.fetch.NoFetch? && Le(Some(stamp), Some(s.fetch.stamp)) then Popped(s)
      else Popped(s).(fetch := Asked(stamp))
    case SweepJob =>
      var (live, content) := Referenced(s.desk.board);
      s.(phase := Sweeping(live, content))
  }

  function Restarted(s: Service, settings: Settings, clock: Clock): Service {
    var desk := Open(Machine(s.desk.me.origin, settings), s.desk.disk, clock);
    var swept := desk.(jobs := [SweepJob] + desk.jobs);
    Service(s.root, swept, Spool.Step(s.spool, Spool.RestartOp), Idle, NoFetch, None, Nothings(|swept.jobs|))
  }

  /** The task reads what it is to fetch, and ends where that is nothing, or
      too much. */
  function LookingUp(s: Service): Service {
    match s.fetch
    case Asked(stamp) =>
      var files := FilesWanted(s.desk.board, stamp);
      if files == [] || TotalSize(files) > s.desk.me.settings.maxFileSize then s.(fetch := NoFetch)
      else s.(fetch := Fetching(stamp, files))
    case _ => s
  }

  /** With everything fetched the files are laid out, or cannot be. */
  function LayingOut(s: Service): Service {
    match s.fetch
    case Fetching(stamp, files) =>
      s.(spool := Spool.Step(s.spool, Spool.LayOutOp(stamp, files)),
         fetch := if Spool.LaidOut(s.spool.disk, stamp, files).1 then LaidOut(stamp, files) else NoFetch)
    case _ => s
  }

  /** The clipboard is told where the tree is. */
  function Landing(s: Service, clock: Clock): Service
    requires |s.replaced| == |s.desk.jobs|
  {
    match s.fetch
    case LaidOut(stamp, _) =>
      Changed(s, MaterializeOp(stamp, Spool.TreePath(s.root, stamp)), clock).(fetch := NoFetch)
    case _ => s
  }

  function PathsOf(settings: Settings, captured: Captured): seq<Bytes> {
    if settings.files && !captured.secret then captured.selection.FilePaths() else []
  }

  /** What one event makes of the machine; one that cannot happen now, nothing. */
  function Step(s: Service, event: Event): Service
    requires |s.replaced| == |s.desk.jobs|
  {
    match event
    case Act(op, clock) => if Outside(op) then Changed(s, op, clock) else s
    case Selected(captured) =>
      Queued(s, RecordJob(s.desk.board.Head(), captured, PathsOf(s.desk.me.settings, captured)))
    case AskCopy(paths, ttl) => if s.desk.me.settings.files then Queued(s, CopyJob(paths, ttl)) else s
    case AskFetch =>
      if s.desk.board.Held().Some? && s.desk.board.Held().value.IsFiles() && !s.desk.board.IsOurs(s.desk.me)
         && s.desk.board.tree.None?
      then
        Queued(s, FetchJob(s.desk.board.clip.value.stamp))
      else s
    case Start(sources) => if s.phase.Idle? && s.desk.jobs != [] then Starting(s, sources) else s
    case TakeNext =>
      if s.phase.Taking? && s.phase.left != [] then
        var source := s.phase.left[0];
        s.(spool := Spool.Step(s.spool, Spool.TakeOp(source.content)),
           phase := Taking(s.phase.files + [FileRef(source.path, |source.content|, Digest(source.content))],
                           s.phase.left[1..]))
      else s
    case WithoutFiles(clock) => if s.desk.jobs != [] && !s.phase.Sweeping? then GoingWithout(s, clock) else s
    case Finish(clock) =>
      if s.desk.jobs == [] then s
      else (match s.phase
            case Idle => s
            case Taking(files, left) => if left == [] then Finishing(s, files, clock) else s
            case Sweeping(live, content) => Popped(s.(spool := Spool.Step(s.spool, Spool.SweepOp(live, content)))))
    case LookUp => LookingUp(s)
    case FetchStep(op) => if Fetches(op, s.desk.board.Head()) then s.(spool := Spool.Step(s.spool, op)) else s
    case LayOut => LayingOut(s)
    case Land(clock) => Landing(s, clock)
    case GiveUp => s.(fetch := NoFetch)
    case Restart(settings, clock) => Restarted(s, settings, clock)
  }

  /** A machine that has never run, started for the first time. */
  function First(root: Bytes, me: Machine, clock: Clock): Service {
    var desk := Open(me, None, clock);
    var swept := desk.(jobs := [SweepJob] + desk.jobs);
    Service(root, swept, Spool.Spooling(Spool.NEW, map[]), Idle, NoFetch, None, Nothings(|swept.jobs|))
  }

  lemma ChangedKeepsFlags(s: Service, op: Op, clock: Clock)
    requires |s.replaced| == |s.desk.jobs|
    ensures |Changed(s, op, clock).replaced| == |Changed(s, op, clock).desk.jobs|
  {}

  lemma RecordingKeepsFlags(s: Service, base: Option<Stamp>, captured: Captured, files: seq<FileRef>, clock: Clock)
    requires s.desk.jobs != [] && |s.replaced| == |s.desk.jobs|
    ensures var after := Recording(s, base, captured, files, clock); |after.replaced| == |after.desk.jobs|
  {
    ChangedKeepsFlags(Popped(s), CaptureOp(captured, files), clock);
  }

  lemma FirstJobKeepsFlags(s: Service, files: seq<FileRef>, clock: Clock)
    requires s.desk.jobs != [] && |s.replaced| == |s.desk.jobs|
    ensures var after := Finishing(s, files, clock); |after.replaced| == |after.desk.jobs|
    ensures var after := GoingWithout(s, clock); |after.replaced| == |after.desk.jobs|
  {
    match s.desk.jobs[0]
    case RecordJob(base, captured, _) =>
      RecordingKeepsFlags(s, base, captured, files, clock);
      RecordingKeepsFlags(s, base, captured, [], clock);
    case CopyJob(paths, ttl) => ChangedKeepsFlags(Popped(s), CopyOp(OfFiles(paths), files, false, ttl), clock);
    case _ =>
  }

  lemma StepKeepsFlags(s: Service, event: Event)
    requires |s.replaced| == |s.desk.jobs|
    ensures |Step(s, event).replaced| == |Step(s, event).desk.jobs|
  {
    match event
    case Act(op, clock) => ChangedKeepsFlags(s, op, clock);
    case Finish(clock) => if s.desk.jobs != [] && s.phase.Taking? { FirstJobKeepsFlags(s, s.phase.files, clock); }
    case WithoutFiles(clock) => if s.desk.jobs != [] { FirstJobKeepsFlags(s, [], clock); }
    case _ =>
  }

  function Run(root: Bytes, me: Machine, clock: Clock, events: seq<Event>): (s: Service)
    ensures |s.replaced| == |s.desk.jobs|
  {
    if events == [] then First(root, me, clock)
    else
      var before := Run(root, me, clock, events[..|events| - 1]);
      StepKeepsFlags(before, events[|events| - 1]);
      Step(before, events[|events| - 1])
  }

  // ------------------------------------------- what this machine's clips name

  function OwnHashes(me: Machine, board: Board): set<Hash> {
    if board.IsOurs(me) && board.Held().Some? then HashesOf(board.Held().value.files) else {}
  }

  function NamedBy(op: Op): set<Hash> {
    match op
    case CopyOp(_, files, _, _) => HashesOf(files)
    case CaptureOp(_, files) => HashesOf(files)
    case _ => {}
  }

  /** A clip of this machine's own names what it named before, or what the
      operation that made it was given. */
  lemma OwnHashesAreGiven(me: Machine, board: Board, op: Op, clock: Clock)
    ensures OwnHashes(me, Do(me, board, op, clock).board) <= OwnHashes(me, board) + NamedBy(op)
  {
    match op
    case AcceptOp(clip) => DoMovesTheClip(me, board, op, clock);
    case _ =>
  }

  lemma RestartKeepsOwnHashes(me: Machine, settings: Settings, board: Board, clock: Clock)
    ensures OwnHashes(me, Resume(Machine(me.origin, settings), board.Saved(), clock)) <= OwnHashes(me, board)
  {}

  /** Content of the machine's own clip is in the spool, will survive the sweep
      under way, and what a job has taken is still there. */
  predicate Safe(s: Service) {
    var own, blobs := OwnHashes(s.desk.me, s.desk.board), s.spool.disk.blobs.Keys;
    && own <= blobs
    && (s.phase.Sweeping? ==> own <= s.phase.content)
    && (s.phase.Taking? ==> HashesOf(s.phase.files) <= blobs && s.desk.jobs != [] && !s.desk.jobs[0].SweepJob?)
    && s.desk.disk == s.desk.board.Saved()
  }

  lemma SavedKept(desk: Desk, op: Op, clock: Clock)
    requires desk.disk == desk.board.Saved()
    ensures var after := desk.Perform(Do(desk.me, desk.board, op, clock)); after.disk == after.board.Saved()
  {
    DeskRuns.SavedWhenChanged(desk.me, desk.board, op, clock);
  }

  /** A change to the clip that names nothing new. */
  lemma ChangeIsSafe(s: Service, op: Op, clock: Clock)
    requires |s.replaced| == |s.desk.jobs| && Safe(s)
    requires NamedBy(op) <= s.spool.disk.blobs.Keys && (s.phase.Sweeping? ==> NamedBy(op) == {})
    requires s.phase.Taking? ==> s.desk.jobs != []
    ensures Safe(Changed(s, op, clock))
  {
    OwnHashesAreGiven(s.desk.me, s.desk.board, op, clock);
    SavedKept(s.desk, op, clock);
  }

  lemma FetchesOnlyAdd(s: Spool.Spooling, op: Spool.Op)
    requires !op.TakeOp? && !op.SweepOp? && !op.RestartOp?
    ensures s.disk.blobs.Keys <= Spool.Step(s, op).disk.blobs.Keys
  {}

  lemma FinishIsSafe(s: Service, clock: Clock)
    requires |s.replaced| == |s.desk.jobs| && Safe(s)
    ensures Safe(Step(s, Finish(clock)))
  {
    if s.desk.jobs != [] && s.phase.Taking? && s.phase.left == [] {
      var files := s.phase.files;
      match s.desk.jobs[0]
      case RecordJob(base, captured, _) => ChangeIsSafe(Popped(s), CaptureOp(captured, files), clock);
      case CopyJob(paths, ttl) => ChangeIsSafe(Popped(s), CopyOp(OfFiles(paths), files, false, ttl), clock);
      case _ =>
    }
  }

  lemma WithoutIsSafe(s: Service, clock: Clock)
    requires |s.replaced| == |s.desk.jobs| && Safe(s)
    ensures Safe(Step(s, WithoutFiles(clock)))
  {
    if s.desk.jobs != [] && s.desk.jobs[0].RecordJob? {
      ChangeIsSafe(Popped(s), CaptureOp(s.desk.jobs[0].captured, []), clock);
    }
  }

  lemma LayOutIsSafe(s: Service)
    requires Safe(s)
    ensures Safe(LayingOut(s))
  {
    if s.fetch.Fetching? { FetchesOnlyAdd(s.spool, Spool.LayOutOp(s.fetch.stamp, s.fetch.files)); }
  }

  lemma LandIsSafe(s: Service, clock: Clock)
    requires |s.replaced| == |s.desk.jobs| && Safe(s)
    ensures Safe(Landing(s, clock))
  {
    if s.fetch.LaidOut? {
      ChangeIsSafe(s, MaterializeOp(s.fetch.stamp, Spool.TreePath(s.root, s.fetch.stamp)), clock);
    }
  }

  lemma StartIsSafe(s: Service, sources: seq<Source>)
    requires |s.replaced| == |s.desk.jobs| && Safe(s) && s.phase.Idle? && s.desk.jobs != []
    ensures Safe(Starting(s, sources))
  {}

  lemma RestartIsSafe(s: Service, settings: Settings, clock: Clock)
    requires Safe(s)
    ensures Safe(Restarted(s, settings, clock))
  {
    RestartKeepsOwnHashes(s.desk.me, settings, s.desk.board, clock);
  }

  lemma StepIsSafe(s: Service, event: Event)
    requires |s.replaced| == |s.desk.jobs| && Safe(s)
    ensures Safe(Step(s, event))
  {
    match event
    case Act(op, clock) => if Outside(op) { ChangeIsSafe(s, op, clock); }
    case WithoutFiles(clock) => WithoutIsSafe(s, clock);
    case Finish(clock) => FinishIsSafe(s, clock);
    case Restart(settings, clock) => RestartIsSafe(s, settings, clock);
    case Start(sources) => if s.phase.Idle? && s.desk.jobs != [] { StartIsSafe(s, sources); }
    case LookUp => FetchingIsSafe(s, event);
    case FetchStep(_) => FetchingIsSafe(s, event);
    case LayOut => FetchingIsSafe(s, event);
    case Land(_) => FetchingIsSafe(s, event);
    case _ =>
  }

  /** What the task beside the queue does. */
  lemma FetchingIsSafe(s: Service, event: Event)
    requires |s.replaced| == |s.desk.jobs| && Safe(s)
    requires event.LookUp? || event.FetchStep? || event.LayOut? || event.Land?
    ensures Safe(Step(s, event))
  {
    match event
    case LookUp =>
    case FetchStep(op) => if Fetches(op, s.desk.board.Head()) { FetchesOnlyAdd(s.spool, op); }
    case LayOut => LayOutIsSafe(s);
    case Land(clock) => LandIsSafe(s, clock);
  }

  lemma {:induction false} RunIsSafe(root: Bytes, me: Machine, clock: Clock, events: seq<Event>)
    ensures Safe(Run(root, me, clock, events)) && Spool.Sound(Run(root, me, clock, events).spool)
  {
    if events != [] {
      var before, event := events[..|events| - 1], events[|events| - 1];
      RunIsSafe(root, me, clock, before);
      StepIsSafe(Run(root, me, clock, before), event);
      SpoolStepsAreSound(Run(root, me, clock, before), event);
    }
  }

  /** Whatever happens next, the spool goes through one of its own steps. */
  lemma SpoolSteps(s: Service, event: Event) returns (op: Option<Spool.Op>)
    requires |s.replaced| == |s.desk.jobs|
    ensures Step(s, event).spool == if op.Some? then Spool.Step(s.spool, op.value) else s.spool
  {
    match event
    case TakeNext =>
      op := if s.phase.Taking? && s.phase.left != [] then Some(Spool.TakeOp(s.phase.left[0].content)) else None;
    case Finish(clock) =>
      op := if s.desk.jobs != [] && s.phase.Sweeping? then Some(Spool.SweepOp(s.phase.live, s.phase.content)) else None;
    case FetchStep(transfer) => op := if Fetches(transfer, s.desk.board.Head()) then Some(transfer) else None;
    case LayOut => op := if s.fetch.Fetching? then Some(Spool.LayOutOp(s.fetch.stamp, s.fetch.files)) else None;
    case Restart(_, _) => op := Some(Spool.RestartOp);
    case _ => op := None;
  }

  lemma SpoolStepsAreSound(s: Service, event: Event)
    requires |s.replaced| == |s.desk.jobs| && Spool.Sound(s.spool)
    ensures Spool.Sound(Step(s, event).spool)
  {
    var op := SpoolSteps(s, event);
    if op.Some? { Spool.StepSound(s.spool, op.value); }
  }

  /** This machine never names what it cannot serve: at every moment of every
      run, the spool has the content of each file of a clip made here. */
  lemma OwnFilesAreServed(root: Bytes, me: Machine, clock: Clock, events: seq<Event>)
    ensures var s := Run(root, me, clock, events);
            s.desk.board.IsOurs(s.desk.me) && s.desk.board.Held().Some? ==>
              forall file :: file in s.desk.board.Held().value.files ==>
                && file.hash in s.spool.disk.blobs
                && s.spool.disk.blobs[file.hash] in s.spool.disk.files
                && Digest(s.spool.disk.files[s.spool.disk.blobs[file.hash]]) == file.hash
  {
    var s := Run(root, me, clock, events);
    RunIsSafe(root, me, clock, events);
    if s.desk.board.IsOurs(s.desk.me) && s.desk.board.Held().Some? {
      forall file | file in s.desk.board.Held().value.files
        ensures file.hash in s.spool.disk.blobs && Spool.Named(s.spool.disk, s.spool.disk.blobs[file.hash], file.hash)
      {
        assert file.hash in OwnHashes(s.desk.me, s.desk.board);
      }
    }
  }

  // ------------------------------------------ when a waiting selection is taken

  /** What a queued job knows of the clip, seen from now: once replaced, what
      it read is behind the clip for good; until then it is the clip, or the
      last record made the clip and all before it are as current. */
  predicate Current(job: Job, replaced: bool, first: bool, head: Option<Stamp>, recorded: Option<Stamp>) {
    job.RecordJob? ==>
      && Le(job.base, head)
      && if replaced then job.base != head else job.base == head || (recorded == head && !first)
  }

  /** The jobs the clip was replaced behind are at the front. */
  predicate Prefixed(flags: seq<bool>) {
    forall i, j :: 0 <= i < j < |flags| && flags[j] ==> flags[i]
  }

  predicate Ordered(s: Service) {
    var head := s.desk.board.Head();
    && |s.replaced| == |s.desk.jobs| && Prefixed(s.replaced) && Le(s.recorded, head)
    && (s.replaced != [] && s.replaced[0] ==> Lt(s.recorded, head))
    && forall i :: 0 <= i < |s.replaced| ==> Current(s.desk.jobs[i], s.replaced[i], s.replaced[0], head, s.recorded)
  }

  /** The flags after a change that was no record. */
  lemma FlagsAfter(s: Service, op: Op, clock: Clock)
    requires Ordered(s) && !op.CaptureOp?
    ensures var after := Changed(s, op, clock);
            && |after.replaced| == |after.desk.jobs| && Prefixed(after.replaced)
            && |s.desk.jobs| <= |after.desk.jobs| && after.recorded == s.recorded
            && (forall i :: 0 <= i < |s.desk.jobs| ==>
                  && after.desk.jobs[i] == s.desk.jobs[i]
                  && after.replaced[i] == (s.replaced[i] || after.desk.board.Head() != s.desk.board.Head()))
            && (forall i :: |s.desk.jobs| <= i < |after.desk.jobs| ==>
                  !after.replaced[i] && !after.desk.jobs[i].RecordJob?)
  {
    var effects := Do(s.desk.me, s.desk.board, op, clock).effects;
    forall i | 0 <= i < |JobsOf(effects)| ensures !JobsOf(effects)[i].RecordJob? { AddedJobs(effects, i); }
  }

  lemma ReplacingKeepsOrder(s: Service, op: Op, clock: Clock)
    requires Ordered(s) && !op.CaptureOp?
    ensures Ordered(Changed(s, op, clock))
  {
    var after := Changed(s, op, clock);
    var head, now := s.desk.board.Head(), after.desk.board.Head();
    HeadNeverGoesBack(s.desk.me, s.desk.board, op, clock);
    FlagsAfter(s, op, clock);
    HeadsAreOrdered(s.recorded, head, now);
    forall i | 0 <= i < |after.replaced|
      ensures Current(after.desk.jobs[i], after.replaced[i], after.replaced[0], now, after.recorded)
    {
      if i < |s.replaced| {
        assert Current(s.desk.jobs[i], s.replaced[i], s.replaced[0], head, s.recorded);
        if s.desk.jobs[i].RecordJob? {
          HeadsAreOrdered(s.desk.jobs[i].base, head, now);
        }
      }
    }
  }

  /** Changes queue no selections. */
  lemma {:induction false} AddedJobs(effects: seq<Effect>, i: nat)
    requires i < |JobsOf(effects)|
    ensures !JobsOf(effects)[i].RecordJob?
  {
    if i >= |JobOf(effects[0])| { AddedJobs(effects[1..], i - |JobOf(effects[0])|); }
  }

  lemma PoppingKeepsOrder(s: Service)
    requires Ordered(s) && s.desk.jobs != []
    ensures Ordered(Popped(s))
  {
    var after := Popped(s);
    forall i | 0 <= i < |after.replaced|
      ensures Current(after.desk.jobs[i], after.replaced[i], after.replaced[0], s.desk.board.Head(), s.recorded)
    {
      assert Current(s.desk.jobs[i + 1], s.replaced[i + 1], s.replaced[0], s.desk.board.Head(), s.recorded);
    }
  }

  /** The first selection is taken exactly when it was not replaced. */
  lemma TakenUnlessReplaced(s: Service)
    requires Ordered(s) && s.desk.jobs != [] && s.desk.jobs[0].RecordJob?
    ensures IsTaken(s, s.desk.jobs[0].base) <==> !s.replaced[0]
  {
    var base, head := s.desk.jobs[0].base, s.desk.board.Head();
    assert Current(s.desk.jobs[0], s.replaced[0], s.replaced[0], head, s.recorded);
    HeadsAreOrdered(base, head, head);
    HeadsAreOrdered(s.recorded, head, head);
  }

  lemma TakingKeepsOrder(s: Service, captured: Captured, files: seq<FileRef>, clock: Clock)
    requires Ordered(s) && s.desk.jobs != [] && !s.replaced[0]
    ensures var after := Changed(Popped(s), CaptureOp(captured, files), clock);
            Ordered(after.(recorded := after.desk.board.Head()))
  {
    var op := CaptureOp(captured, files);
    var effects := Do(s.desk.me, s.desk.board, op, clock).effects;
    HeadNeverGoesBack(s.desk.me, s.desk.board, op, clock);
    forall i | 0 <= i < |JobsOf(effects)| ensures !JobsOf(effects)[i].RecordJob? { AddedJobs(effects, i); }
    var after := Changed(Popped(s), op, clock);
    var head, now := s.desk.board.Head(), after.desk.board.Head();
    forall i | 0 <= i < |after.replaced|
      ensures Current(after.desk.jobs[i], after.replaced[i], after.replaced[0], now, now)
    {
      if i < |s.replaced| - 1 {
        assert Current(s.desk.jobs[i + 1], s.replaced[i + 1], s.replaced[0], head, s.recorded);
        if s.desk.jobs[i + 1].RecordJob? { HeadsAreOrdered(s.desk.jobs[i + 1].base, head, now); }
      }
    }
  }

  lemma DroppingKeepsOrder(s: Service)
    requires Ordered(s) && s.desk.jobs != [] && s.desk.jobs[0].RecordJob? && s.replaced[0]
    ensures Ordered(Popped(s).(recorded := None))
  {
    var head := s.desk.board.Head();
    assert Current(s.desk.jobs[0], s.replaced[0], s.replaced[0], head, s.recorded);
    var after := Popped(s).(recorded := None);
    forall i | 0 <= i < |after.replaced|
      ensures Current(after.desk.jobs[i], after.replaced[i], after.replaced[0], head, None)
    {
      assert Current(s.desk.jobs[i + 1], s.replaced[i + 1], s.replaced[0], head, s.recorded);
    }
  }

  lemma RecordingKeepsOrder(s: Service, files: seq<FileRef>, clock: Clock)
    requires Ordered(s) && s.desk.jobs != [] && s.desk.jobs[0].RecordJob?
    ensures Ordered(Recording(s, s.desk.jobs[0].base, s.desk.jobs[0].captured, files, clock))
  {
    TakenUnlessReplaced(s);
    if s.replaced[0] {
      DroppingKeepsOrder(s);
    } else {
      TakingKeepsOrder(s, s.desk.jobs[0].captured, files, clock);
    }
  }

  lemma QueuingKeepsOrder(s: Service, job: Job)
    requires Ordered(s) && (job.RecordJob? ==> job.base == s.desk.board.Head())
    ensures Ordered(Queued(s, job))
  {
    var after := Queued(s, job);
    forall i | 0 <= i < |after.replaced|
      ensures Current(after.desk.jobs[i], after.replaced[i], after.replaced[0], s.desk.board.Head(), s.recorded)
    {
      if i < |s.replaced| {
        assert Current(s.desk.jobs[i], s.replaced[i], s.replaced[0], s.desk.board.Head(), s.recorded);
      }
    }
  }

  lemma FinishKeepsOrder(s: Service, clock: Clock)
    requires Ordered(s)
    ensures Ordered(Step(s, Finish(clock)))
  {
    if s.desk.jobs != [] {
      PoppingKeepsOrder(s);
      if s.phase.Taking? {
        match s.desk.jobs[0]
        case RecordJob(_, _, _) => RecordingKeepsOrder(s, s.phase.files, clock);
        case CopyJob(paths, ttl) =>
          ReplacingKeepsOrder(Popped(s), CopyOp(OfFiles(paths), s.phase.files, false, ttl), clock);
        case _ =>
      }
    }
  }

  lemma WithoutKeepsOrder(s: Service, clock: Clock)
    requires Ordered(s)
    ensures Ordered(Step(s, WithoutFiles(clock)))
  {
    if s.desk.jobs != [] {
      PoppingKeepsOrder(s);
      if s.desk.jobs[0].RecordJob? { RecordingKeepsOrder(s, [], clock); }
    }
  }

  lemma AskingKeepsOrder(s: Service)
    requires Ordered(s)
    ensures Ordered(Step(s, AskFetch))
  {
    if s.desk.board.Held().Some? { QueuingKeepsOrder(s, FetchJob(s.desk.board.clip.value.stamp)); }
  }

  lemma LandingKeepsOrder(s: Service, clock: Clock)
    requires Ordered(s)
    ensures Ordered(Landing(s, clock))
  {
    if s.fetch.LaidOut? {
      ReplacingKeepsOrder(s, MaterializeOp(s.fetch.stamp, Spool.TreePath(s.root, s.fetch.stamp)), clock);
    }
  }

  lemma StartingKeepsOrder(s: Service, sources: seq<Source>)
    requires Ordered(s) && s.desk.jobs != []
    ensures Ordered(Starting(s, sources))
  {
    PoppingKeepsOrder(s);
  }

  lemma StepKeepsOrder(s: Service, event: Event)
    requires Ordered(s)
    ensures Ordered(Step(s, event))
  {
    match event
    case Act(op, clock) => if Outside(op) { ReplacingKeepsOrder(s, op, clock); }
    case Selected(captured) =>
      QueuingKeepsOrder(s, RecordJob(s.desk.board.Head(), captured, PathsOf(s.desk.me.settings, captured)));
    case AskCopy(paths, ttl) => QueuingKeepsOrder(s, CopyJob(paths, ttl));
    case AskFetch => AskingKeepsOrder(s);
    case Land(clock) => LandingKeepsOrder(s, clock);
    case Start(sources) => if s.desk.jobs != [] { StartingKeepsOrder(s, sources); }
    case WithoutFiles(clock) => WithoutKeepsOrder(s, clock);
    case Finish(clock) => FinishKeepsOrder(s, clock);
    case _ =>
  }

  lemma {:induction false} RunIsOrdered(root: Bytes, me: Machine, clock: Clock, events: seq<Event>)
    ensures Ordered(Run(root, me, clock, events))
  {
    if events != [] {
      RunIsOrdered(root, me, clock, events[..|events| - 1]);
      StepKeepsOrder(Run(root, me, clock, events[..|events| - 1]), events[|events| - 1]);
    }
  }

  /** Whatever else was queued and copied meanwhile, a selection whose turn
      has come is handed to the clipboard if nothing but a queued selection
      replaced the clip since it was queued, and dropped if anything did. */
  lemma SelectionsAreTakenUnlessReplaced(
    root: Bytes, me: Machine, clock: Clock, events: seq<Event>, files: seq<FileRef>, at: Clock)
    requires var jobs := Run(root, me, clock, events).desk.jobs; jobs != [] && jobs[0].RecordJob?
    ensures var s := Run(root, me, clock, events);
            var (base, captured) := (s.desk.jobs[0].base, s.desk.jobs[0].captured);
            var after := Recording(s, base, captured, files, at);
            && (IsTaken(s, base) <==> !s.replaced[0])
            && after.desk.board ==
                 if s.replaced[0] then s.desk.board else s.desk.board.Capturing(s.desk.me, captured, files, at).board
  {
    RunIsOrdered(root, me, clock, events);
    TakenUnlessReplaced(Run(root, me, clock, events));
  }
}
