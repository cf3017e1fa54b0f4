/** The loop that takes jobs off the queue, over the clipboard and the spool it
    works on. Each method is one uninterrupted stretch of it. */
module JobLoops {
  import opened Basics
  import opened Stamps
  import opened Files
  import opened Copies
  import opened Boards
  import opened ClipServices
  import opened FileServices
  import Spool

  class JobLoop {
    const clip: ClipService
    const store: Spool.Store
    var phase: Phase
    var fetch: FetchTask
    var recorded: Option<Stamp>
    ghost var open: map<Hash, Spool.Transfer>
    ghost var replaced: seq<bool>

    ghost function State(): Service
      reads this, clip, clip.board, store
    {
      Service(store.root, clip.State(), Spool.Spooling(store.disk, open), phase, fetch, recorded, replaced)
    }

    ghost predicate Valid()
      reads this, clip
    {
      |replaced| == |clip.jobs|
    }

    /** Starts on what the disk holds; the first thing to do is a sweep. */
    constructor (clip: ClipService, store: Spool.Store)
      modifies clip
      ensures this.clip == clip && this.store == store && Valid()
      ensures var desk := old(clip.State());
              var swept := desk.(jobs := [SweepJob] + desk.jobs);
              State() == Service(
                store.root, swept, Spool.Spooling(store.disk, map[]), Idle, NoFetch, None, Nothings(|swept.jobs|))
    {
      this.clip, this.store := clip, store;
      phase, fetch, recorded, open, replaced := Idle, NoFetch, None, map[], Nothings(1 + |clip.jobs|);
      new;
      clip.jobs := [SweepJob] + clip.jobs;
    }

    /** A selection the compositor reported waits for its turn, with the files
        it names unless it is a secret or files are not shared. */
    method OnCopied(captured: Captured)
      requires Valid()
      modifies this`replaced, clip`jobs
      ensures Valid() && State() == Step(old(State()), Selected(captured))
    {
      var settings := clip.board.me.settings;
      var paths := if settings.files && !captured.secret then captured.selection.FilePaths() else [];
      clip.jobs := clip.jobs + [RecordJob(clip.board.Head(), captured, paths)];
      replaced := replaced + [false];
    }

    /** Takes up the first job, as far as it gets without waiting. */
    method TakeUp(sources: seq<Source>)
      requires Valid() && clip.jobs != [] && phase.Idle?
      modifies this, clip`jobs
      ensures Valid() && State() == Step(old(State()), Start(sources))
    {
      match clip.jobs[0] {
        case RecordJob(_, _, paths) =>
          if paths != [] && sources != [] { phase := Taking([], sources); }
        case CopyJob(_, _) =>
          if sources != [] { phase := Taking([], sources); }
        case FetchJob(stamp) =>
          if fetch.NoFetch? || !Le(Some(stamp), Some(fetch.stamp)) { fetch := Asked(stamp); }
          clip.jobs, replaced := clip.jobs[1..], replaced[1..];
        case SweepJob =>
          var live, content := None, {};
          if clip.board.clip.Some? && clip.board.clip.value.copy.Some? {
            live, content := clip.board.Head(), HashesOf(clip.board.clip.value.copy.value.files);
          }
          phase := Sweeping(live, content);
      }
    }

    /** Takes one more file into the spool. */
    method TakeFile()
      requires Valid() && phase.Taking? && phase.left != []
      modifies this, store
      ensures Valid() && State() == Step(old(State()), TakeNext)
    {
      var source := phase.left[0];
      var hash, size := store.Take(source.content);
      phase := Taking(phase.files + [FileRef(source.path, size, hash)], phase.left[1..]);
    }

    /** Hands a selection whose turn has come to the clipboard. */
    method RecordFirst(files: seq<FileRef>, clock: Clock)
      requires Valid() && clip.jobs != [] && clip.jobs[0].RecordJob?
      modifies this, clip, clip.board
      ensures Valid()
      ensures State() == Recording(old(State()), old(clip.jobs[0].base), old(clip.jobs[0].captured), files, clock)
    {
      var job := clip.jobs[0];
      ghost var after := Recording(State(), job.base, job.captured, files, clock);
      clip.jobs := clip.jobs[1..];
      phase := Idle;
      recorded := clip.Record(job.base, recorded, job.captured, files, clock);
      replaced := after.replaced;
    }

    /** Copies files a copy asked for, once they are in the spool. */
    method CopyFirst(files: seq<FileRef>, clock: Clock)
      requires Valid() && clip.jobs != [] && clip.jobs[0].CopyJob?
      modifies this, clip, clip.board
      ensures Valid() && State() == Finishing(old(State()), files, clock)
    {
      var job := clip.jobs[0];
      ghost var after := Finishing(State(), files, clock);
      clip.jobs := clip.jobs[1..];
      phase := Idle;
      var _ := clip.Copying(OfFiles(job.sources), files, false, job.ttl, clock);
      replaced := after.replaced;
    }

    /** Ends the first job: with what it took, or with the sweep it decided on. */
    method End(clock: Clock)
      requires Valid() && clip.jobs != [] && ((phase.Taking? && phase.left == []) || phase.Sweeping?)
      modifies this, clip, clip.board, store
      ensures Valid() && State() == Step(old(State()), Finish(clock))
    {
      match phase {
        case Taking(files, _) =>
          match clip.jobs[0] {
            case RecordJob(_, _, _) => RecordFirst(files, clock);
            case CopyJob(_, _) => CopyFirst(files, clock);
            case _ =>
          }
        case Sweeping(live, content) =>
          store.Sweep(live, content);
          phase := Idle;
          clip.jobs, replaced := clip.jobs[1..], replaced[1..];
        case Idle =>
      }
    }

    /** Goes on with the first job when it has no file, or none could be taken. */
    method EndWithout(clock: Clock)
      requires Valid() && clip.jobs != [] && !phase.Sweeping?
      modifies this, clip, clip.board
      ensures Valid() && State() == Step(old(State()), WithoutFiles(clock))
    {
      match clip.jobs[0] {
        case RecordJob(_, _, _) => RecordFirst([], clock);
        case CopyJob(_, _) =>
          phase := Idle;
          clip.jobs, replaced := clip.jobs[1..], replaced[1..];
        case _ =>
      }
    }

    // ------------------------------------------------- the task off the queue

    /** The task that fetches reads what it is to fetch. */
    method ReadWanted()
      requires Valid() && fetch.Asked?
      modifies this`fetch
      ensures Valid() && State() == Step(old(State()), LookUp)
    {
      var files := [];
      if clip.board.Head() == Some(fetch.stamp) && clip.board.clip.value.copy.Some? && clip.board.tree.None? {
        files := clip.board.clip.value.copy.value.files;
      }
      if files == [] || TotalSize(files) > clip.board.me.settings.maxFileSize {
        fetch := NoFetch;
        return;
      }
      fetch := Fetching(fetch.stamp, files);
    }

    /** Lays out what was fetched. */
    method LayOutFetched()
      requires Valid() && fetch.Fetching?
      modifies this`fetch, store
      ensures Valid() && State() == Step(old(State()), LayOut)
    {
      var at := store.LayOut(fetch.stamp, fetch.files);
      fetch := if at.Some? then LaidOut(fetch.stamp, fetch.files) else NoFetch;
    }

    /** Tells the clipboard where the files are. */
    method TellLanded(clock: Clock)
      requires Valid() && fetch.LaidOut?
      modifies this, clip, clip.board
      ensures Valid() && State() == Landing(old(State()), clock)
    {
      ghost var after := Landing(State(), clock);
      var stamp := fetch.stamp;
      fetch := NoFetch;
      clip.Materialized(stamp, Spool.TreePath(store.root, stamp), clock);
      replaced := after.replaced;
    }
  }
}
