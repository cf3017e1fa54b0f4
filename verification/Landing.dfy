/** What it means that the files of a clip are here: the tree the clipboard was
    told of is on the disk, and holds what the clip names. */
module Landings {
  import opened Basics
  import opened Stamps
  import opened UriLists
  import opened Files
  import opened Copies
  import opened Serving
  import opened Boards
  import opened ClipServices
  import opened FileServices
  import Mime
  import Spool

  /** Every file of a manifest has its place in the tree of a stamp. */
  predicate TreeHas(d: Spool.Disk, stamp: Stamp, files: seq<FileRef>) {
    stamp in d.trees
    && forall i :: 0 <= i < |files| ==>
         && IsSafe(files[i].path)
         && files[i].path in d.trees[stamp] && d.trees[stamp][files[i].path].hash == files[i].hash
  }

  /** The fetch under way is for the clip as it is. */
  predicate Busy(s: Service) {
    s.desk.board.Held().Some? && !s.fetch.NoFetch? && s.desk.board.Head() == Some(s.fetch.stamp)
  }

  predicate HasTree(s: Service) { s.desk.board.Held().Some? && s.desk.board.tree.Some? }

  /** No job or task is for a clip that is yet to come. */
  predicate NoneAhead(s: Service) {
    var head := s.desk.board.Head();
    && (!s.fetch.NoFetch? ==> Le(Some(s.fetch.stamp), head))
    && (forall i :: 0 <= i < |s.desk.jobs| && s.desk.jobs[i].FetchJob? ==> Le(Some(s.desk.jobs[i].stamp), head))
  }

  /** What the fetch under way is to bring is what the clip names, and a tree
      laid out but not told of is there. */
  predicate FetchOk(s: Service) {
    Busy(s) && !s.fetch.Asked? ==>
      && s.fetch.files == s.desk.board.Held().value.files && s.desk.board.tree.None?
      && (s.fetch.LaidOut? ==> TreeHas(s.spool.disk, s.fetch.stamp, s.fetch.files))
  }

  /** A tree the clipboard was told of is there, and is the one of the clip. */
  predicate TreeOk(s: Service) {
    HasTree(s) ==>
      var stamp := s.desk.board.clip.value.stamp;
      && s.desk.board.tree.value == Spool.TreePath(s.root, stamp)
      && TreeHas(s.spool.disk, stamp, s.desk.board.Held().value.files)
  }

  /** And the sweep under way will leave it. */
  predicate SweepOk(s: Service) {
    s.phase.Sweeping? && (Busy(s) || HasTree(s)) ==> s.phase.live == s.desk.board.Head()
  }

  predicate Landed(s: Service) { NoneAhead(s) && FetchOk(s) && TreeOk(s) && SweepOk(s) }

  // ------------------------------------------------------ changes to the clip

  /** Where the head stays and the copy with it, nothing about the clip changed;
      and no clip comes with a tree. */
  lemma ClipStaysOrGoes(me: Machine, board: Board, op: Op, clock: Clock)
    requires !op.MaterializeOp?
    ensures var after := Do(me, board, op, clock).board;
            && Le(board.Head(), after.Head())
            && (after.Head() == board.Head() && after.Held().Some? ==> after.clip == board.clip)
            && (after.tree.Some? ==> after.clip == board.clip && after.tree == board.tree)
  {
    HeadNeverGoesBack(me, board, op, clock);
    match op
    case AcceptOp(clip) => OptionOrder(Some(clip.stamp), board.Head());
    case _ =>
  }

  lemma {:induction false} FetchesQueued(effects: seq<Effect>, i: nat)
    requires i < |JobsOf(effects)| && JobsOf(effects)[i].FetchJob?
    ensures Fetch(JobsOf(effects)[i].stamp) in effects
  {
    var first := JobOf(effects[0]);
    if i >= |first| { FetchesQueued(effects[1..], i - |first|); }
  }

  lemma NoneAheadAfter(s: Service, op: Op, clock: Clock)
    requires |s.replaced| == |s.desk.jobs| && NoneAhead(s)
    ensures NoneAhead(Changed(s, op, clock))
  {
    var board := s.desk.board;
    var done := Do(s.desk.me, board, op, clock);
    var after := Changed(s, op, clock);
    HeadNeverGoesBack(s.desk.me, board, op, clock);
    if !s.fetch.NoFetch? { HeadsAreOrdered(Some(s.fetch.stamp), board.Head(), done.board.Head()); }
    forall i | 0 <= i < |after.desk.jobs| && after.desk.jobs[i].FetchJob?
      ensures Le(Some(after.desk.jobs[i].stamp), done.board.Head())
    {
      if i < |s.desk.jobs| {
        assert after.desk.jobs[i] == s.desk.jobs[i];
        HeadsAreOrdered(Some(s.desk.jobs[i].stamp), board.Head(), done.board.Head());
      } else {
        var k := i - |s.desk.jobs|;
        assert after.desk.jobs[i] == JobsOf(done.effects)[k];
        FetchesQueued(done.effects, k);
        FetchesAreForTheClip(s.desk.me, board, op, clock, JobsOf(done.effects)[k].stamp);
      }
    }
  }

  lemma ChangeKeepsLanded(s: Service, op: Op, clock: Clock)
    requires |s.replaced| == |s.desk.jobs| && Landed(s) && !op.MaterializeOp?
    ensures Landed(Changed(s, op, clock))
  {
    var before, after := s.desk.board, Do(s.desk.me, s.desk.board, op, clock).board;
    NoneAheadAfter(s, op, clock);
    ClipStaysOrGoes(s.desk.me, before, op, clock);
    HeadsAreOrdered(before.Head(), after.Head(), after.Head());
    if !s.fetch.NoFetch? {
      HeadsAreOrdered(Some(s.fetch.stamp), before.Head(), after.Head());
      HeadsAreOrdered(after.Head(), before.Head(), after.Head());
    }
  }

  /** The clipboard is told of a tree that is there. */
  lemma LandKeepsLanded(s: Service, clock: Clock)
    requires |s.replaced| == |s.desk.jobs| && Landed(s)
    ensures Landed(Landing(s, clock))
  {
    if s.fetch.LaidOut? {
      NoneAheadAfter(s, MaterializeOp(s.fetch.stamp, Spool.TreePath(s.root, s.fetch.stamp)), clock);
    }
  }

  // ------------------------------------------------------ changes to the disk

  lemma TreesUntouched(s: Service, op: Spool.Op)
    requires Landed(s) && !op.SweepOp? && !op.RestartOp? && !op.LayOutOp?
    ensures Spool.Step(s.spool, op).disk.trees == s.spool.disk.trees
    ensures Landed(s.(spool := Spool.Step(s.spool, op)))
  {}

  lemma StrayLayOut(s: Service, op: Spool.Op)
    requires Landed(s) && op.LayOutOp? && Lt(Some(op.stamp), s.desk.board.Head())
    ensures Landed(s.(spool := Spool.Step(s.spool, op)))
  {
    HeadsAreOrdered(Some(op.stamp), s.desk.board.Head(), s.desk.board.Head());
  }

  lemma LayOutKeepsLanded(s: Service)
    requires Landed(s)
    ensures Landed(LayingOut(s))
  {
    if s.fetch.Fetching? {
      var (stamp, files) := (s.fetch.stamp, s.fetch.files);
      Spool.LayingOutSucceeds(s.spool.disk, stamp, files);
      var (after, ok) := Spool.LaidOut(s.spool.disk, stamp, files);
      if ok {
        forall i | 0 <= i < |files|
          ensures IsSafe(files[i].path)
          ensures files[i].path in after.trees[stamp] && after.trees[stamp][files[i].path].hash == files[i].hash
        {
          assert Spool.Links(after.trees[stamp], s.spool.disk.blobs, files[i]);
        }
      }
    }
  }

  lemma SweepKeepsLanded(s: Service)
    requires |s.replaced| == |s.desk.jobs| && Landed(s) && s.phase.Sweeping? && s.desk.jobs != []
    ensures Landed(Popped(s.(spool := Spool.Step(s.spool, Spool.SweepOp(s.phase.live, s.phase.content)))))
  {}

  // ---------------------------------------------------------------- every step

  lemma PopKeepsLanded(s: Service)
    requires |s.replaced| == |s.desk.jobs| && Landed(s) && s.desk.jobs != []
    ensures Landed(Popped(s))
  {
    assert forall i :: 0 <= i < |Popped(s).desk.jobs| ==> Popped(s).desk.jobs[i] == s.desk.jobs[i + 1];
  }

  lemma RecordKeepsLanded(s: Service, captured: Captured, files: seq<FileRef>, clock: Clock)
    requires |s.replaced| == |s.desk.jobs| && Landed(s) && s.desk.jobs != [] && s.desk.jobs[0].RecordJob?
    ensures Landed(Recording(s, s.desk.jobs[0].base, captured, files, clock))
  {
    PopKeepsLanded(s);
    ChangeKeepsLanded(Popped(s), CaptureOp(captured, files), clock);
  }

  lemma StartKeepsLanded(s: Service, sources: seq<Source>)
    requires |s.replaced| == |s.desk.jobs| && Landed(s) && s.phase.Idle? && s.desk.jobs != []
    ensures Landed(Starting(s, sources))
  {
    PopKeepsLanded(s);
  }

  lemma FinishKeepsLanded(s: Service, clock: Clock)
    requires |s.replaced| == |s.desk.jobs| && Landed(s)
    ensures Landed(Step(s, Finish(clock)))
  {
    if s.desk.jobs != [] {
      PopKeepsLanded(s);
      if s.phase.Sweeping? { SweepKeepsLanded(s); }
      if s.phase.Taking? {
        match s.desk.jobs[0]
        case RecordJob(_, captured, _) => RecordKeepsLanded(s, captured, s.phase.files, clock);
        case CopyJob(paths, ttl) =>
          ChangeKeepsLanded(Popped(s), CopyOp(OfFiles(paths), s.phase.files, false, ttl), clock);
        case _ =>
      }
    }
  }

  lemma WithoutKeepsLanded(s: Service, clock: Clock)
    requires |s.replaced| == |s.desk.jobs| && Landed(s)
    ensures Landed(Step(s, WithoutFiles(clock)))
  {
    if s.desk.jobs != [] {
      PopKeepsLanded(s);
      if s.desk.jobs[0].RecordJob? { RecordKeepsLanded(s, s.desk.jobs[0].captured, [], clock); }
    }
  }

  lemma RestartKeepsLanded(s: Service, settings: Settings, clock: Clock)
    ensures Landed(Restarted(s, settings, clock))
  {}

  lemma StepKeepsLanded(s: Service, event: Event)
    requires |s.replaced| == |s.desk.jobs| && Landed(s)
    ensures Landed(Step(s, event))
  {
    match event
    case Act(op, clock) => if Outside(op) { ChangeKeepsLanded(s, op, clock); }
    case Start(sources) => if s.phase.Idle? && s.desk.jobs != [] { StartKeepsLanded(s, sources); }
    case TakeNext =>
      if s.phase.Taking? && s.phase.left != [] { TreesUntouched(s, Spool.TakeOp(s.phase.left[0].content)); }
    case WithoutFiles(clock) => WithoutKeepsLanded(s, clock);
    case Finish(clock) => FinishKeepsLanded(s, clock);
    case FetchStep(op) =>
      if Fetches(op, s.desk.board.Head()) {
        if op.LayOutOp? { StrayLayOut(s, op); } else { TreesUntouched(s, op); }
      }
    case LayOut => LayOutKeepsLanded(s);
    case Land(clock) => LandKeepsLanded(s, clock);
    case Restart(settings, clock) => RestartKeepsLanded(s, settings, clock);
    case _ =>
  }

  lemma {:induction false} RunIsLanded(root: Bytes, me: Machine, clock: Clock, events: seq<Event>)
    ensures Landed(Run(root, me, clock, events))
  {
    if events != [] {
      RunIsLanded(root, me, clock, events[..|events| - 1]);
      StepKeepsLanded(Run(root, me, clock, events[..|events| - 1]), events[|events| - 1]);
    }
  }

  /** At every moment of every run, while a clip is held and the clipboard was
      told where its files are, they are there: each at its path in the tree
      of that clip, with the content the clip names. */
  lemma FilesAreWhereTheyWereLaid(root: Bytes, me: Machine, clock: Clock, events: seq<Event>)
    ensures var s := Run(root, me, clock, events);
            HasTree(s) ==>
              var stamp, disk := s.desk.board.clip.value.stamp, s.spool.disk;
              && stamp in disk.trees
              && forall file :: file in s.desk.board.Held().value.files ==>
                   && file.path in disk.trees[stamp]
                   && disk.trees[stamp][file.path].inode in disk.files
                   && Digest(disk.files[disk.trees[stamp][file.path].inode]) == file.hash
  {
    var s := Run(root, me, clock, events);
    RunIsLanded(root, me, clock, events);
    RunIsSafe(root, me, clock, events);
    if HasTree(s) {
      var stamp, disk, files := s.desk.board.clip.value.stamp, s.spool.disk, s.desk.board.Held().value.files;
      assert Spool.TreeHolds(disk, disk.trees[stamp]);
      forall file | file in files
        ensures file.path in disk.trees[stamp] && disk.trees[stamp][file.path].hash == file.hash
        ensures Spool.Named(disk, disk.trees[stamp][file.path].inode, file.hash)
      {
        var i :| 0 <= i < |files| && files[i] == file;
      }
    }
  }

  // ------------------------------------------------------ what is offered then

  lemma {:induction false} RootStays(root: Bytes, me: Machine, clock: Clock, events: seq<Event>)
    ensures Run(root, me, clock, events).root == root
  {
    if events != [] {
      RootStays(root, me, clock, events[..|events| - 1]);
      StepKeepsRoot(Run(root, me, clock, events[..|events| - 1]), events[|events| - 1]);
    }
  }

  lemma StepKeepsRoot(s: Service, event: Event)
    requires |s.replaced| == |s.desk.jobs|
    ensures Step(s, event).root == s.root
  {
    match event
    case Act(op, clock) => assert Changed(s, op, clock).root == s.root;
    case _ =>
  }

  /** What a machine holding a clip offers for it. */
  function OfferedBy(board: Board, me: Machine): seq<Serve>
    requires board.Held().Some?
  {
    OfferOf(board.Held().value, board.IsOurs(me), board.tree)
  }

  /** At every moment of every run, each path that is offered for a clip that
      was laid out leads to the file it stands for: the payload names one path
      for every file of the manifest, and what is found at that path is the
      content the manifest names. */
  lemma OfferedFilesAreThere(
    root: Bytes, me: Machine, clock: Clock, events: seq<Event>, serve: Serve, mime: string)
    requires IsAbsolute(root)
    requires var s := Run(root, me, clock, events);
             HasTree(s) && serve in OfferedBy(s.desk.board, s.desk.me) && mime in serve.mimes && Mime.IsLocal(mime)
    ensures var s := Run(root, me, clock, events);
            var files := s.desk.board.Held().value.files;
            var paths := PathsUnder(s.desk.board.tree.value, files);
            && (serve.bytes == UriList(paths) || serve.bytes == GnomeCopiedFiles(paths))
            && (mime == Mime.URI_LIST ==> Paths(serve.bytes) == paths)
            && forall i :: 0 <= i < |files| ==> Spool.HoldsAt(s.spool.disk, root, paths[i], files[i].hash)
  {
    var s := Run(root, me, clock, events);
    RunIsLanded(root, me, clock, events);
    RootStays(root, me, clock, events);
    FilesAreWhereTheyWereLaid(root, me, clock, events);
    var copy, stamp, tree := s.desk.board.Held().value, s.desk.board.clip.value.stamp, s.desk.board.tree.value;
    TreesAreAbsolute(root, stamp);
    forall file | file in copy.files ensures IsSafe(file.path) {
      var i :| 0 <= i < |copy.files| && copy.files[i] == file;
    }
    OnlyTreePathsAreOffered(copy, s.desk.board.IsOurs(s.desk.me), tree, serve, mime);
    forall i | 0 <= i < |copy.files|
      ensures Spool.HoldsAt(s.spool.disk, root, PathsUnder(tree, copy.files)[i], copy.files[i].hash)
    {
      var file := copy.files[i];
      assert file in copy.files;
      assert Spool.LeadsTo(s.spool.disk, root, Join(tree, file.path), stamp, file.path, file.hash);
    }
  }

  lemma TreesAreAbsolute(root: Bytes, stamp: Stamp)
    requires IsAbsolute(root)
    ensures IsAbsolute(Spool.TreePath(root, stamp))
  {}

  /** What a board that is told of a tree comes to. */
  lemma ToldOfATree(me: Machine, board: Board, stamp: Stamp, tree: Bytes)
    requires board.Head() == Some(stamp) && board.Held().Some? && me.settings.apply
    ensures var done := board.Materializing(me, stamp, tree);
            && done.board.clip == board.clip && done.board.tree == Some(tree)
            && Commands(done.effects) == [Offer(OfferedBy(done.board, me))]
  {
    ApplySends(me, board.(tree := Some(tree)));
  }

  lemma LandingPerforms(s: Service, at: Clock)
    requires |s.replaced| == |s.desk.jobs| && s.fetch.LaidOut?
    ensures var tree := Spool.TreePath(s.root, s.fetch.stamp);
            var done := s.desk.board.Materializing(s.desk.me, s.fetch.stamp, tree);
            var after := Landing(s, at);
            && after.desk.board == done.board && after.desk.me == s.desk.me
            && after.desk.sent == s.desk.sent + Commands(done.effects)
  {}

  lemma LandingOffers(s: Service, at: Clock)
    requires |s.replaced| == |s.desk.jobs| && Busy(s) && s.fetch.LaidOut? && s.desk.me.settings.apply
    ensures var after := Landing(s, at);
            && after.desk.me == s.desk.me && after.desk.board.clip == s.desk.board.clip
            && after.desk.board.tree == Some(Spool.TreePath(s.root, s.fetch.stamp))
            && after.desk.sent == s.desk.sent + [Offer(OfferedBy(after.desk.board, after.desk.me))]
  {
    LandingPerforms(s, at);
    ToldOfATree(s.desk.me, s.desk.board, s.fetch.stamp, Spool.TreePath(s.root, s.fetch.stamp));
  }

  lemma RunLands(root: Bytes, me: Machine, clock: Clock, events: seq<Event>, at: Clock)
    ensures Run(root, me, clock, events + [Land(at)]) == Landing(Run(root, me, clock, events), at)
  {
    var longer := events + [Land(at)];
    assert longer[..|longer| - 1] == events;
  }

  /** And when the files of the clip land, that is what the compositor is
      offered next. */
  lemma LandingOffersTheFiles(root: Bytes, me: Machine, clock: Clock, events: seq<Event>, at: Clock)
    requires var s := Run(root, me, clock, events);
             Busy(s) && s.fetch.LaidOut? && s.desk.me.settings.apply
    ensures var s, after := Run(root, me, clock, events), Run(root, me, clock, events + [Land(at)]);
            && HasTree(after) && after.desk.me == s.desk.me && after.desk.board.clip == s.desk.board.clip
            && after.desk.board.tree == Some(Spool.TreePath(root, s.fetch.stamp))
            && after.desk.sent == s.desk.sent + [Offer(OfferedBy(after.desk.board, after.desk.me))]
  {
    RootStays(root, me, clock, events);
    RunLands(root, me, clock, events, at);
    LandingOffers(Run(root, me, clock, events), at);
  }
}
