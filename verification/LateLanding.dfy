/** Files that land when the copy they were fetched for is already gone. */
module LateLandings {
  import opened Basics
  import opened Stamps
  import opened Files
  import opened Copies
  import opened Boards
  import opened ClipServices
  import opened FileServices
  import Spool

  // -------------------------------------------------- when a tree goes stale

  /** The operation a step performs on the board, if it performs one. */
  function Performed(s: Service, event: Event): Option<(Op, Clock)> {
    match event
    case Act(op, clock) => if Outside(op) then Some((op, clock)) else None
    case Finish(clock) =>
      if s.desk.jobs == [] || !s.phase.Taking? || s.phase.left != [] then None
      else Resulting(s, s.phase.files, clock)
    case WithoutFiles(clock) =>
      if s.desk.jobs != [] && !s.phase.Sweeping? && s.desk.jobs[0].RecordJob? then Resulting(s, [], clock) else None
    case Land(clock) =>
      if s.fetch.LaidOut? then Some((MaterializeOp(s.fetch.stamp, Spool.TreePath(s.root, s.fetch.stamp)), clock))
      else None
    case _ => None
  }

  /** What the first job comes to with the files it took. */
  function Resulting(s: Service, files: seq<FileRef>, clock: Clock): Option<(Op, Clock)>
    requires s.desk.jobs != []
  {
    match s.desk.jobs[0]
    case RecordJob(base, captured, _) => if IsTaken(s, base) then Some((CaptureOp(captured, files), clock)) else None
    case CopyJob(paths, ttl) => Some((CopyOp(OfFiles(paths), files, false, ttl), clock))
    case _ => None
  }

  lemma BoardAfter(s: Service, event: Event)
    requires |s.replaced| == |s.desk.jobs| && !event.Restart?
    ensures var (before, after) := (s.desk, Step(s, event).desk);
            && after.me == before.me
            && match Performed(s, event)
               case None => after.board == before.board
               case Some((op, clock)) => after.board == Do(before.me, before.board, op, clock).board
  {}

  lemma {:induction false} RunIsCoherent(root: Bytes, me: Machine, clock: Clock, events: seq<Event>)
    ensures var desk := Run(root, me, clock, events).desk; Coherent(desk.me, desk.board)
  {
    if events != [] {
      var before, last := events[..|events| - 1], events[|events| - 1];
      var s := Run(root, me, clock, before);
      RunIsCoherent(root, me, clock, before);
      RunIsSafe(root, me, clock, before);
      StepIsCoherent(s, last);
    }
  }

  lemma StepIsCoherent(s: Service, event: Event)
    requires |s.replaced| == |s.desk.jobs|
    requires Coherent(s.desk.me, s.desk.board) && s.desk.disk == s.desk.board.Saved()
    ensures var after := Step(s, event).desk; Coherent(after.me, after.board)
  {
    if event.Restart? {
      RestartIsCoherent(s, event.settings, event.clock);
    } else {
      BoardAfter(s, event);
      match Performed(s, event)
      case Some((op, at)) => CoherentKept(s.desk.me, s.desk.board, op, at);
      case None =>
    }
  }

  lemma RestartIsCoherent(s: Service, settings: Settings, clock: Clock)
    requires Coherent(s.desk.me, s.desk.board) && s.desk.disk == s.desk.board.Saved()
    ensures var after := Restarted(s, settings, clock).desk; Coherent(after.me, after.board)
    ensures Restarted(s, settings, clock).desk.board.tree.None?
  {
    ResumeIsCoherent(Machine(s.desk.me.origin, settings), s.desk.disk, clock);
  }

  lemma StepGoesStale(s: Service, event: Event)
    requires |s.replaced| == |s.desk.jobs|
    requires Coherent(s.desk.me, s.desk.board) && s.desk.disk == s.desk.board.Saved()
    ensures var after := Step(s, event).desk.board;
            Stale(after) <==>
              || LandsLate(s, event)
              || (Stale(s.desk.board) && after.Head() == s.desk.board.Head() && !event.Restart?)
  {
    if event.Restart? {
      RestartIsCoherent(s, event.settings, event.clock);
    } else {
      BoardAfter(s, event);
      OnlyLandingTells(s, event);
      match Performed(s, event)
      case Some((op, at)) => TreesGoStale(s.desk.me, s.desk.board, op, at);
      case None =>
    }
  }

  lemma OnlyLandingTells(s: Service, event: Event)
    ensures var performed := Performed(s, event);
            performed.Some? && performed.value.0.MaterializeOp?
            <==> event.Land? && s.fetch.LaidOut?
    ensures event.Land? && s.fetch.LaidOut? ==> Performed(s, event).value.0.stamp == s.fetch.stamp
  {}

  predicate BringsFiles(s: Service) {
    s.fetch.Fetching? || s.fetch.LaidOut? ==>
      s.fetch.files != [] && TotalSize(s.fetch.files) <= s.desk.me.settings.maxFileSize
  }

  lemma StepBringsFiles(s: Service, event: Event)
    requires |s.replaced| == |s.desk.jobs| && BringsFiles(s)
    ensures BringsFiles(Step(s, event))
  {
    match event
    case Act(op, clock) =>
    case Finish(clock) =>
    case WithoutFiles(clock) =>
    case LayOut =>
    case Land(clock) =>
    case _ =>
  }

  /** In every run, what is being fetched is some files, within the limit. */
  lemma {:induction false} FetchesBringFiles(root: Bytes, me: Machine, clock: Clock, events: seq<Event>)
    ensures BringsFiles(Run(root, me, clock, events))
  {
    if events != [] {
      FetchesBringFiles(root, me, clock, events[..|events| - 1]);
      StepBringsFiles(Run(root, me, clock, events[..|events| - 1]), events[|events| - 1]);
    }
  }

  /** Files land, and the copy they were of is gone. */
  predicate LandsLate(s: Service, event: Event) {
    && event.Land? && s.fetch.LaidOut?
    && s.desk.board.Head() == Some(s.fetch.stamp) && s.desk.board.Held().None?
  }

  /** A tree goes stale exactly when files land late, which only those of a
      clip that named files can; and it stays so until another clip takes its
      place or the daemon starts again. */
  lemma GoesStaleExactly(root: Bytes, me: Machine, clock: Clock, events: seq<Event>, event: Event)
    ensures var s, after := Run(root, me, clock, events), Run(root, me, clock, events + [event]);
            && (Stale(after.desk.board) <==>
                  || LandsLate(s, event)
                  || (Stale(s.desk.board) && after.desk.board.Head() == s.desk.board.Head() && !event.Restart?))
            && (LandsLate(s, event) ==> s.fetch.files != [])
  {
    var s, longer := Run(root, me, clock, events), events + [event];
    assert longer[..|longer| - 1] == events;
    RunIsCoherent(root, me, clock, events);
    RunIsSafe(root, me, clock, events);
    FetchesBringFiles(root, me, clock, events);
    StepGoesStale(s, event);
  }

  // ------------------------------------------------------- a run that does it

  function Going(s: Service, events: seq<Event>): (after: Service)
    requires |s.replaced| == |s.desk.jobs|
    ensures |after.replaced| == |after.desk.jobs|
    decreases |events|
  {
    if events == [] then s
    else
      StepKeepsFlags(s, events[0]);
      Going(Step(s, events[0]), events[1..])
  }

  lemma {:induction false} GoingOn(s: Service, some: seq<Event>, more: seq<Event>)
    requires |s.replaced| == |s.desk.jobs|
    ensures Going(s, some + more) == Going(Going(s, some), more)
    decreases |some|
  {
    if some == [] {
      assert some + more == more;
    } else {
      StepKeepsFlags(s, some[0]);
      assert (some + more)[1..] == some[1..] + more;
      GoingOn(Step(s, some[0]), some[1..], more);
    }
  }

  lemma {:induction false} RunsGo(root: Bytes, me: Machine, clock: Clock, events: seq<Event>)
    ensures Run(root, me, clock, events) == Going(First(root, me, clock), events)
  {
    if events != [] {
      var before, last := events[..|events| - 1], events[|events| - 1];
      RunsGo(root, me, clock, before);
      GoingOn(First(root, me, clock), before, [last]);
      assert events == before + [last] && [last][1..] == [];
      StepKeepsFlags(Run(root, me, clock, before), last);
    }
  }

  lemma OneStep(s: Service, event: Event)
    requires |s.replaced| == |s.desk.jobs|
    ensures |Step(s, event).replaced| == |Step(s, event).desk.jobs| && Going(s, [event]) == Step(s, event)
  {
    StepKeepsFlags(s, event);
    assert [event][1..] == [];
    assert Going(Step(s, event), []) == Step(s, event);
  }

  lemma TwoSteps(s: Service, one: Event, two: Event)
    requires |s.replaced| == |s.desk.jobs|
    ensures |Step(s, one).replaced| == |Step(s, one).desk.jobs|
    ensures Going(s, [one, two]) == Step(Step(s, one), two)
  {
    OneStep(s, one);
    OneStep(Step(s, one), two);
    GoingOn(s, [one], [two]);
    assert [one, two] == [one] + [two];
  }

  lemma ThreeSteps(s: Service, one: Event, two: Event, three: Event)
    requires |s.replaced| == |s.desk.jobs|
    ensures var second := Step(s, one);
            |second.replaced| == |second.desk.jobs|
            && |Step(second, two).replaced| == |Step(second, two).desk.jobs|
            && Going(s, [one, two, three]) == Step(Step(second, two), three)
  {
    OneStep(s, one);
    TwoSteps(Step(s, one), two, three);
    GoingOn(s, [one], [two, three]);
    assert [one, two, three] == [one] + [two, three];
  }

  const SOON := Clock(0, 0, 0)

  const CLEAN := Spool.Spooling(Spool.NEW, map[])

  function Accept(clip: Clip): Event { Act(AcceptOp(clip), Clock(TimeOf(clip.stamp), 0, -1)) }

  const SWEEP: seq<Event> := [Start([]), Finish(SOON)]

  function Receiving(files: seq<FileRef>, contents: seq<Bytes>): seq<Event>
    requires |contents| == |files|
  {
    if files == [] then []
    else
      var hash := files[0].hash;
      [FetchStep(Spool.ReceiveOp(hash)), FetchStep(Spool.WriteOp(hash, contents[0])), FetchStep(Spool.FinishOp(hash))]
      + Receiving(files[1..], contents[1..])
  }

  /** A peer's clip arrives and its files are asked for; the sweeps queued
      before that are done; the files are looked up and received. */
  function Pulling(clip: Clip, contents: seq<Bytes>): seq<Event>
    requires clip.copy.Some? && |contents| == |clip.copy.value.files|
  {
    [Accept(clip), AskFetch]
    + (SWEEP + (SWEEP + (SWEEP + ([Start([]), LookUp] + Receiving(clip.copy.value.files, contents)))))
  }

  /** They are laid out; the copy runs out; and only then are they reported. */
  function Ending(copy: Copy): seq<Event>
    requires copy.ttl.Some?
  {
    [LayOut, Act(ExpireOp, Clock(0, 0, copy.ttl.value * NANOS_PER_SEC)), Land(SOON)]
  }

  /** A peer's clip with a lifetime is held, with no tree of its files. */
  predicate Holds(s: Service, clip: Clip) {
    && clip.copy.Some? && clip.copy.value.ttl.Some?
    && s.desk.board.clip == Some(clip) && s.desk.board.tree.None?
    && s.desk.board.expires == Some(clip.copy.value.ttl.value * NANOS_PER_SEC)
    && |s.replaced| == |s.desk.jobs|
  }

  /** Its files are asked for, behind a number of sweeps. */
  predicate Waits(s: Service, clip: Clip, sweeps: nat) {
    && Holds(s, clip) && s.phase.Idle? && s.fetch.NoFetch? && s.spool == CLEAN
    && sweeps < |s.desk.jobs| && s.desk.jobs[sweeps] == FetchJob(clip.stamp)
    && forall i :: 0 <= i < sweeps ==> s.desk.jobs[i] == SweepJob
  }

  /** They are being fetched, and these are here. */
  predicate Receives(s: Service, clip: Clip, here: set<Hash>) {
    && Holds(s, clip) && s.fetch == Fetching(clip.stamp, clip.copy.value.files)
    && s.spool.open == map[] && s.spool.disk.parts == map[] && here <= s.spool.disk.blobs.Keys
  }

  lemma ClipIsAccepted(me: Machine, clip: Clip)
    requires clip.stamp.origin != me.origin && clip.copy.Some? && clip.copy.value.Check()
    requires clip.copy.value.ttl.Some?
    ensures var done := Do(me, BLANK, AcceptOp(clip), Clock(TimeOf(clip.stamp), 0, -1));
            && done.board.clip == Some(clip) && done.board.tree.None?
            && done.board.expires == Some(clip.copy.value.ttl.value * NANOS_PER_SEC)
            && exists more :: done.effects == [Save] + more && OnlyFetches(JobsOf(more), clip.stamp)
  {
    var board := BLANK.Set(clip, 0);
    NewClipIsSet(me, clip);
    OnlyTheClipIsFetched(me, board);
    assert board.SaveAndApply(me).effects == [Save] + board.Apply(me).effects;
  }

  lemma NewClipStays(clip: Clip)
    requires clip.copy.Some? && clip.copy.value.ttl.Some?
    ensures var board := BLANK.Set(clip, 0);
            board.expires == Some(clip.copy.value.ttl.value * NANOS_PER_SEC) && board.Lapse(-1) == board
  {
    assert TimeOf(clip.stamp) >= 0 && Min(TimeOf(clip.stamp), 0) == 0;
  }

  lemma NewClipIsTaken(me: Machine, clip: Clip, clock: Clock)
    requires clip.stamp.origin != me.origin && clip.copy.Some? && clip.copy.value.Check()
    requires Plausible(clip.stamp, clock.stamp)
    ensures BLANK.Accepting(me, clip, clock) == Ok(BLANK.Set(clip, clock.held).Lapse(clock.lapse).SaveAndApply(me))
  {}

  lemma NewClipIsSet(me: Machine, clip: Clip)
    requires clip.stamp.origin != me.origin && clip.copy.Some? && clip.copy.value.Check()
    requires clip.copy.value.ttl.Some?
    ensures var board := BLANK.Set(clip, 0);
            && Do(me, BLANK, AcceptOp(clip), Clock(TimeOf(clip.stamp), 0, -1)) == board.SaveAndApply(me)
            && board.expires == Some(clip.copy.value.ttl.value * NANOS_PER_SEC)
  {
    assert Plausible(clip.stamp, TimeOf(clip.stamp));
    NewClipStays(clip);
    NewClipIsTaken(me, clip, Clock(TimeOf(clip.stamp), 0, -1));
  }

  predicate OnlyFetches(jobs: seq<Job>, stamp: Stamp) {
    forall i :: 0 <= i < |jobs| ==> jobs[i] == FetchJob(stamp)
  }

  lemma OnlyTheClipIsFetched(me: Machine, board: Board)
    requires board.clip.Some?
    ensures OnlyFetches(JobsOf(board.Apply(me).effects), board.clip.value.stamp)
  {
    JobsOfApplying(me, board);
  }

  lemma ClipArrives(root: Bytes, me: Machine, clock: Clock, clip: Clip)
    requires clip.stamp.origin != me.origin && clip.copy.Some? && clip.copy.value.Check()
    requires clip.copy.value.ttl.Some? && clip.copy.value.files != []
    ensures var s := Going(First(root, me, clock), [Accept(clip), AskFetch]); Waits(s, clip, 3) && s.desk.me == me
  {
    var first := First(root, me, clock);
    TwoSteps(first, Accept(clip), AskFetch);
    var more := ClipIsTakenOn(root, me, clock, clip);
    AskingWaits(Step(first, Accept(clip)), clip, more);
  }

  lemma AskingWaits(s: Service, clip: Clip, more: seq<Job>)
    requires Holds(s, clip) && clip.stamp.origin != s.desk.me.origin && clip.copy.value.files != []
    requires s.phase.Idle? && s.fetch.NoFetch? && s.spool == CLEAN
    requires s.desk.jobs == [SweepJob, SweepJob, SweepJob] + more && OnlyFetches(more, clip.stamp)
    ensures Waits(Step(s, AskFetch), clip, 3) && Step(s, AskFetch).desk.me == s.desk.me
  {
    assert Step(s, AskFetch) == Queued(s, FetchJob(clip.stamp));
  }

  lemma ClipIsTakenOn(root: Bytes, me: Machine, clock: Clock, clip: Clip) returns (more: seq<Job>)
    requires clip.stamp.origin != me.origin && clip.copy.Some? && clip.copy.value.Check()
    requires clip.copy.value.ttl.Some?
    ensures var s := Step(First(root, me, clock), Accept(clip));
            && Holds(s, clip) && s.desk.me == me && s.phase.Idle? && s.fetch.NoFetch? && s.spool == CLEAN
            && s.desk.jobs == [SweepJob, SweepJob, SweepJob] + more && OnlyFetches(more, clip.stamp)
  {
    ClipIsAccepted(me, clip);
    var effects := Do(me, BLANK, AcceptOp(clip), Clock(TimeOf(clip.stamp), 0, -1)).effects;
    var rest :| effects == [Save] + rest && OnlyFetches(JobsOf(rest), clip.stamp);
    more := JobsOf(rest);
    assert effects[1..] == rest;
    assert [SweepJob, SweepJob] + ([SweepJob] + more) == [SweepJob, SweepJob, SweepJob] + more;
    ChangedKeepsFlags(First(root, me, clock), AcceptOp(clip), Clock(TimeOf(clip.stamp), 0, -1));
  }

  lemma SweepIsOver(s: Service, clip: Clip, sweeps: nat)
    requires Waits(s, clip, sweeps) && sweeps > 0
    ensures Waits(Going(s, SWEEP), clip, sweeps - 1) && Going(s, SWEEP).desk.me == s.desk.me
  {
    TwoSteps(s, Start([]), Finish(SOON));
    var (live, content) := Referenced(s.desk.board);
    var started := Step(s, Start([]));
    assert started == s.(phase := Sweeping(live, content));
    assert Spool.Swept(Spool.NEW, live, content) == Spool.NEW;
    assert Step(started, Finish(SOON)) == Popped(started.(spool := Spool.Step(s.spool, Spool.SweepOp(live, content))));
    assert forall i :: 0 <= i < |s.desk.jobs| - 1 ==> Popped(s).desk.jobs[i] == s.desk.jobs[i + 1];
  }

  lemma SweepsAreOver(s: Service, clip: Clip, more: seq<Event>) returns (ready: Service)
    requires Waits(s, clip, 3)
    ensures Waits(ready, clip, 0) && ready.desk.me == s.desk.me
    ensures Going(s, SWEEP + (SWEEP + (SWEEP + more))) == Going(ready, more)
  {
    GoingOn(s, SWEEP, SWEEP + (SWEEP + more));
    SweepIsOver(s, clip, 3);
    ready := Going(s, SWEEP);
    GoingOn(ready, SWEEP, SWEEP + more);
    SweepIsOver(ready, clip, 2);
    ready := Going(ready, SWEEP);
    GoingOn(ready, SWEEP, more);
    SweepIsOver(ready, clip, 1);
    ready := Going(ready, SWEEP);
  }

  lemma FetchStarts(s: Service, clip: Clip)
    requires Waits(s, clip, 0)
    requires clip.copy.value.files != [] && TotalSize(clip.copy.value.files) <= s.desk.me.settings.maxFileSize
    ensures Receives(Going(s, [Start([]), LookUp]), clip, {})
  {
    TwoSteps(s, Start([]), LookUp);
    assert Step(s, Start([])) == Popped(s).(fetch := Asked(clip.stamp));
  }

  lemma {:induction false} FilesArrive(
    s: Service, clip: Clip, files: seq<FileRef>, contents: seq<Bytes>, here: set<Hash>)
    requires Receives(s, clip, here) && |contents| == |files|
    requires forall i :: 0 <= i < |files| ==> files[i].hash == Digest(contents[i])
    ensures Receives(Going(s, Receiving(files, contents)), clip, here + HashesOf(files))
    decreases |files|
  {
    if files != [] {
      var hash, first := files[0].hash, Receiving(files, contents)[..3];
      FileArrives(s, clip, hash, contents[0], here);
      GoingOn(s, first, Receiving(files[1..], contents[1..]));
      FilesArrive(Going(s, first), clip, files[1..], contents[1..], here + {hash});
      assert Receiving(files, contents) == first + Receiving(files[1..], contents[1..]);
      assert here + HashesOf(files) == here + {hash} + HashesOf(files[1..]);
    }
  }

  /** One whole transfer, into a spool where none is under way. */
  lemma TransferBrings(s: Spool.Spooling, hash: Hash, content: Bytes)
    requires s.open == map[] && s.disk.parts == map[] && hash == Digest(content)
    ensures var end := Spool.Step(
              Spool.Step(Spool.Step(s, Spool.ReceiveOp(hash)), Spool.WriteOp(hash, content)), Spool.FinishOp(hash));
            end.open == map[] && end.disk.parts == map[] && end.disk.blobs.Keys == s.disk.blobs.Keys + {hash}
  {
    assert [] + content == content;
    var begun := Spool.Step(s, Spool.ReceiveOp(hash));
    assert begun.open == map[hash := Spool.Transfer(hash, s.disk.next, [])];
    var written := Spool.Step(begun, Spool.WriteOp(hash, content));
    assert written.open == map[hash := Spool.Transfer(hash, s.disk.next, content)];
    assert written.disk.parts == map[hash := s.disk.next];
  }

  lemma FileArrives(s: Service, clip: Clip, hash: Hash, content: Bytes, here: set<Hash>)
    requires Receives(s, clip, here) && hash == Digest(content)
    ensures var events := [FetchStep(Spool.ReceiveOp(hash)), FetchStep(Spool.WriteOp(hash, content)),
                           FetchStep(Spool.FinishOp(hash))];
            Receives(Going(s, events), clip, here + {hash}) && Going(s, events).desk == s.desk
  {
    var receive, write, finish := Spool.ReceiveOp(hash), Spool.WriteOp(hash, content), Spool.FinishOp(hash);
    ThreeSteps(s, FetchStep(receive), FetchStep(write), FetchStep(finish));
    TransferBrings(s.spool, hash, content);
    var begun := s.(spool := Spool.Step(s.spool, receive));
    assert Step(s, FetchStep(receive)) == begun;
    assert Step(begun, FetchStep(write)) == begun.(spool := Spool.Step(begun.spool, write));
  }

  lemma ReceivesAll(s: Service, clip: Clip, contents: seq<Bytes>)
    requires Waits(s, clip, 0)
    requires clip.copy.value.files != [] && TotalSize(clip.copy.value.files) <= s.desk.me.settings.maxFileSize
    requires |contents| == |clip.copy.value.files|
    requires forall i :: 0 <= i < |contents| ==> clip.copy.value.files[i].hash == Digest(contents[i])
    ensures var files := clip.copy.value.files;
            Receives(Going(s, [Start([]), LookUp] + Receiving(files, contents)), clip, HashesOf(files))
  {
    var files := clip.copy.value.files;
    GoingOn(s, [Start([]), LookUp], Receiving(files, contents));
    FetchStarts(s, clip);
    FilesArrive(Going(s, [Start([]), LookUp]), clip, files, contents, {});
    assert {} + HashesOf(files) == HashesOf(files);
  }

  lemma LaysOut(s: Service, clip: Clip, here: set<Hash>)
    requires Receives(s, clip, here) && HashesOf(clip.copy.value.files) <= here
    requires clip.copy.value.Check() && Disjoint(clip.copy.value.files)
    ensures var laid := Step(s, LayOut); Holds(laid, clip) && laid.fetch == LaidOut(clip.stamp, clip.copy.value.files)
  {
    var files := clip.copy.value.files;
    forall i | 0 <= i < |files| ensures IsSafe(files[i].path) && files[i].hash in s.spool.disk.blobs {
      assert files[i] in files && files[i].hash in HashesOf(files);
    }
    Spool.LayingOutSucceeds(s.spool.disk, clip.stamp, files);
  }

  lemma RunsOut(s: Service, clip: Clip)
    requires Holds(s, clip)
    ensures var after := Changed(s, ExpireOp, Clock(0, 0, clip.copy.value.ttl.value * NANOS_PER_SEC));
            after.fetch == s.fetch && after.desk.board.clip == Some(Clip(clip.stamp, None))
  {}

  lemma LandsAtLast(s: Service, clip: Clip, here: set<Hash>)
    requires Receives(s, clip, here) && HashesOf(clip.copy.value.files) <= here
    requires clip.copy.value.Check() && Disjoint(clip.copy.value.files)
    ensures Stale(Going(s, Ending(clip.copy.value)).desk.board)
  {
    var expire := Act(ExpireOp, Clock(0, 0, clip.copy.value.ttl.value * NANOS_PER_SEC));
    ThreeSteps(s, LayOut, expire, Land(SOON));
    LaysOut(s, clip, here);
    RunsOut(Step(s, LayOut), clip);
    BoardAfter(Step(Step(s, LayOut), expire), Land(SOON));
  }

  /** Any clip of another machine that names files and has a lifetime can end
      up with a tree and no copy. */
  lemma LateLandingsAreStale(root: Bytes, me: Machine, clock: Clock, clip: Clip, contents: seq<Bytes>)
    requires clip.stamp.origin != me.origin && clip.copy.Some? && clip.copy.value.Check()
    requires var copy := clip.copy.value;
             && copy.ttl.Some? && copy.files != [] && Disjoint(copy.files)
             && TotalSize(copy.files) <= me.settings.maxFileSize && |contents| == |copy.files|
             && forall i :: 0 <= i < |contents| ==> copy.files[i].hash == Digest(contents[i])
    ensures Stale(Run(root, me, clock, Pulling(clip, contents) + Ending(clip.copy.value)).desk.board)
  {
    var copy, first := clip.copy.value, First(root, me, clock);
    var receive := Receiving(copy.files, contents);
    var look := [Start([]), LookUp] + receive;
    RunsGo(root, me, clock, Pulling(clip, contents) + Ending(copy));
    GoingOn(first, Pulling(clip, contents), Ending(copy));
    GoingOn(first, [Accept(clip), AskFetch], SWEEP + (SWEEP + (SWEEP + look)));
    ClipArrives(root, me, clock, clip);
    var ready := SweepsAreOver(Going(first, [Accept(clip), AskFetch]), clip, look);
    ReceivesAll(ready, clip, contents);
    LandsAtLast(Going(ready, look), clip, HashesOf(copy.files));
  }
}
