/** A board whose effects reach a disk, a compositor, the peers and a queue of
    jobs. */
module ClipServices {
  import opened Basics
  import opened Stamps
  import opened Files
  import opened Copies
  import opened Serving
  import opened Boards
  import opened Clipboards

  /** What can be queued, and carried out one at a time. */
  datatype Job =
    | RecordJob(base: Option<Stamp>, captured: Captured, paths: seq<Bytes>)
    | CopyJob(sources: seq<Bytes>, ttl: Option<nat>)
    | FetchJob(stamp: Stamp)
    | SweepJob

  function JobOf(effect: Effect): seq<Job> {
    match effect
    case Save => [SweepJob]
    case Fetch(stamp) => [FetchJob(stamp)]
    case Backend(_) => []
  }

  function JobsOf(effects: seq<Effect>): seq<Job> {
    if effects == [] then [] else JobOf(effects[0]) + JobsOf(effects[1..])
  }

  /** One machine: its board, and what performing effects has reached. The
      last two fields only serve to state what the others mean. */
  datatype Desk = Desk(
    me: Machine,
    board: Board,
    disk: Option<Clip>,       // the clip as it was last saved
    head: Option<Stamp>,      // the stamp peers are told
    jobs: seq<Job>,           // queued for the file service
    sent: seq<Command>)       // handed to the compositor
  {
    function Perform(done: Outcome): Desk {
      Desk(
        me, done.board,
        if Save in done.effects then done.board.Saved() else disk,
        if done.effects == [] then head else done.board.Head(),
        jobs + JobsOf(done.effects),
        sent + Commands(done.effects))
    }
  }

  /** A daemon starting on what is on its disk. */
  function Open(me: Machine, disk: Option<Clip>, clock: Clock): Desk {
    var board := Resume(me, disk, clock);
    Desk(me, board, board.Saved(), board.Head(), [SweepJob], [])
  }

  class ClipService {
    const board: Clipboard
    var disk: Option<Clip>
    var head: Option<Stamp>
    var jobs: seq<Job>
    var sent: seq<Command>

    ghost function State(): Desk
      reads this, board
    {
      Desk(board.me, board.State(), disk, head, jobs, sent)
    }

    /** Loads the saved clip; what expired meanwhile leaves the disk now. */
    constructor (me: Machine, saved: Option<Clip>, clock: Clock)
      ensures fresh(board)
      ensures State() == Open(me, saved, clock)
    {
      board := new Clipboard(me, saved, clock);
      disk, head, jobs, sent := saved, None, [], [];
      new;
      head := board.Head();
      Perform([Save]);
    }

    method PerformOne(effect: Effect)
      modifies this`disk, this`jobs, this`sent
      ensures disk == if effect.Save? then board.Saved() else old(disk)
      ensures jobs == old(jobs) + JobOf(effect)
      ensures sent == old(sent) + CommandOf(effect)
    {
      match effect {
        case Save =>
          disk := board.Saved();
          jobs := jobs + [SweepJob];
        case Backend(command) =>
          sent := sent + [command];
        case Fetch(stamp) =>
          jobs := jobs + [FetchJob(stamp)];
      }
    }

    method PerformEach(effects: seq<Effect>)
      modifies this`disk, this`jobs, this`sent
      ensures disk == if Save in effects then board.Saved() else old(disk)
      ensures jobs == old(jobs) + JobsOf(effects)
      ensures sent == old(sent) + Commands(effects)
    {
      ghost var queued, told := jobs, sent;
      for i := 0 to |effects|
        invariant disk == if Save in effects[..i] then board.Saved() else old(disk)
        invariant jobs == queued + JobsOf(effects[..i])
        invariant sent == told + Commands(effects[..i])
      {
        ghost var before := effects[..i];
        assert effects[..i + 1] == before + [effects[i]];
        SnocEffect(before, effects[i]);
        PerformOne(effects[i]);
        assert jobs == queued + (JobsOf(before) + JobOf(effects[i]));
        assert sent == told + (Commands(before) + CommandOf(effects[i]));
      }
      assert effects[..|effects|] == effects;
    }

    /** Performs what a mutation asked for, all of it before the next one. */
    method Perform(effects: seq<Effect>)
      modifies this
      ensures State() == old(State()).Perform(Outcome(board.State(), effects))
    {
      if effects == [] {
        NothingToPerform(State());
        return;
      }
      PerformEach(effects);
      if head != board.Head() {
        head := board.Head();
      }
    }

    method Copying(selection: Selection, files: seq<FileRef>, secret: bool, ttl: Option<nat>, clock: Clock)
      returns (refused: Option<Refusal>)
      modifies this, board
      ensures State() == old(State()).Perform(
                Do(board.me, old(board.State()), CopyOp(selection, files, secret, ttl), clock))
      ensures refused.None? <==> old(board.State()).Copying(board.me, selection, files, secret, ttl, clock).Ok?
    {
      label before:
      var result := board.Copying(selection, files, secret, ttl, clock);
      match result {
        case Ok(effects) => Perform(effects); return None;
        case Err(refusal) =>
          NothingToPerform(old(State()));
          return Some(refusal);
      }
    }

    method Accepting(offered: Clip, clock: Clock) returns (refused: Option<Refusal>)
      modifies this, board
      ensures State() == old(State()).Perform(Do(board.me, old(board.State()), AcceptOp(offered), clock))
      ensures refused.None? <==> old(board.State()).Accepting(board.me, offered, clock).Ok?
    {
      var result := board.Accepting(offered, clock);
      match result {
        case Ok(effects) => Perform(effects); return None;
        case Err(refusal) =>
          NothingToPerform(old(State()));
          return Some(refusal);
      }
    }

    method Clearing(clock: Clock)
      modifies this, board
      ensures State() == old(State()).Perform(Do(board.me, old(board.State()), ClearOp, clock))
    {
      var effects := board.Clearing(clock);
      Perform(effects);
    }

    method Expiring(clock: Clock)
      modifies this, board
      ensures State() == old(State()).Perform(Do(board.me, old(board.State()), ExpireOp, clock))
    {
      var effects := board.Expiring(clock.lapse);
      Perform(effects);
    }

    method Materialized(stamp: Stamp, tree: Bytes, clock: Clock)
      modifies this, board
      ensures State() == old(State()).Perform(Do(board.me, old(board.State()), MaterializeOp(stamp, tree), clock))
    {
      var effects := board.Materializing(stamp, tree);
      Perform(effects);
    }

    /** Captures a selection if the head is the one it was reported at, or
        the one that `recorded` names; otherwise does nothing. */
    method Record(base: Option<Stamp>, recorded: Option<Stamp>, captured: Captured, files: seq<FileRef>, clock: Clock)
      returns (left: Option<Stamp>)
      modifies this, board
      ensures var taken := old(board.State()).Head() == base || old(board.State()).Head() == recorded;
              if taken then
                && State() == old(State()).Perform(Do(board.me, old(board.State()), CaptureOp(captured, files), clock))
                && left == State().board.Head()
              else State() == old(State()) && left == None
    {
      if board.Head() != base && board.Head() != recorded {
        return None;
      }
      var effects := board.Capturing(captured, files, clock);
      left := board.Head();
      Perform(effects);
    }
  }

  lemma {:induction false} SnocEffect(effects: seq<Effect>, last: Effect)
    ensures JobsOf(effects + [last]) == JobsOf(effects) + JobOf(last)
    ensures Commands(effects + [last]) == Commands(effects) + CommandOf(last)
  {
    if effects == [] {
      assert [last][1..] == [];
    } else {
      assert (effects + [last])[1..] == effects[1..] + [last] && (effects + [last])[0] == effects[0];
      SnocEffect(effects[1..], last);
      assert JobOf(effects[0]) + (JobsOf(effects[1..]) + JobOf(last))
             == (JobOf(effects[0]) + JobsOf(effects[1..])) + JobOf(last);
      assert CommandOf(effects[0]) + (Commands(effects[1..]) + CommandOf(last))
             == (CommandOf(effects[0]) + Commands(effects[1..])) + CommandOf(last);
    }
  }

  lemma OneJob(effect: Effect)
    ensures JobsOf([effect]) == JobOf(effect)
  {
    assert [effect][1..] == [] && JobsOf([]) == [];
  }

  lemma JobsOfBoth(first: Effect, effects: seq<Effect>)
    ensures JobsOf([first] + effects) == JobOf(first) + JobsOf(effects)
  {
    assert ([first] + effects)[1..] == effects;
  }

  lemma JobsOfApplying(me: Machine, board: Board)
    requires board.clip.Some?
    ensures var (effects, fetch) := (board.Apply(me).effects, Fetch(board.clip.value.stamp));
            JobsOf(effects) == if fetch in effects then [FetchJob(board.clip.value.stamp)] else []
  {
    var effects := board.Apply(me).effects;
    AppliedEffects(me, board);
    if |effects| == 1 {
      OneJob(effects[0]);
    } else if |effects| == 2 {
      JobsOfBoth(effects[0], [effects[1]]);
      OneJob(effects[1]);
    }
  }

  lemma NothingToPerform(desk: Desk)
    ensures desk.Perform(Outcome(desk.board, [])) == desk
  {
    assert desk.jobs + [] == desk.jobs && desk.sent + [] == desk.sent;
  }
}

/** Everything one machine goes through, restarts included. */
module DeskRuns {
  import opened Basics
  import opened Stamps
  import opened Files
  import opened Copies
  import opened Serving
  import opened Boards
  import opened ClipServices

  /** An operation, or the daemon stopping and starting again, possibly with
      other settings. */
  datatype Event = Act(op: Op, clock: Clock) | Restart(settings: Settings, clock: Clock)

  /** A desk, the reading its clip was set at, and the payload last offered
      first for that clip by this daemon. */
  datatype Watched = Watched(desk: Desk, setAt: int, offered: Option<Bytes>)

  function LastOffer(commands: seq<Command>): Option<seq<Serve>> {
    if commands == [] then None
    else match commands[|commands| - 1]
      case Offer(serves) => Some(serves)
      case Empty => None
  }

  function Step(w: Watched, event: Event): Watched {
    match event
    case Act(op, clock) =>
      var done := Do(w.desk.me, w.desk.board, op, clock);
      var offer := LastOffer(Commands(done.effects));
      Watched(
        w.desk.Perform(done),
        if done.board.Head() != w.desk.board.Head() then clock.held else w.setAt,
        if offer.Some? && offer.value != [] then Some(offer.value[0].bytes)
        else if done.board.clip != w.desk.board.clip then None
        else w.offered)
    case Restart(settings, clock) =>
      Watched(Open(Machine(w.desk.me.origin, settings), w.desk.disk, clock), clock.held, None)
  }

  /** A new machine, and all that happens to it. */
  function Run(me: Machine, clock: Clock, events: seq<Event>): Watched {
    if events == [] then Watched(Open(me, None, clock), clock.held, None)
    else Step(Run(me, clock, events[..|events| - 1]), events[|events| - 1])
  }

  // ------------------------------------------------------------ the invariant

  predicate Sound(w: Watched) {
    && Coherent(w.desk.me, w.desk.board)
    && w.desk.disk == w.desk.board.Saved()
    && w.desk.head == w.desk.board.Head()
    && (w.desk.board.clip.Some? ==> w.desk.board.expires == Deadline(w.desk.board.clip.value, w.setAt))
    && (w.offered.Some? ==> w.desk.board.served == Some(Digest(w.offered.value)))
  }

  lemma SavedWhenChanged(me: Machine, board: Board, op: Op, clock: Clock)
    ensures var done := Do(me, board, op, clock);
            Save in done.effects || done.board.clip == board.clip
  {}

  lemma DeadlineKept(me: Machine, board: Board, op: Op, clock: Clock, setAt: int)
    requires board.clip.Some? ==> board.expires == Deadline(board.clip.value, setAt)
    ensures var after := Do(me, board, op, clock).board;
            after.clip.Some? ==>
              after.expires == Deadline(after.clip.value, if after.Head() != board.Head() then clock.held else setAt)
  {
    DoMovesTheClip(me, board, op, clock);
  }

  lemma OfferedKept(w: Watched, op: Op, clock: Clock)
    requires Sound(w)
    ensures var after := Step(w, Act(op, clock));
            after.offered.Some? ==> after.desk.board.served == Some(Digest(after.offered.value))
  {
    var me, board := w.desk.me, w.desk.board;
    var done := Do(me, board, op, clock);
    var offer := LastOffer(Commands(done.effects));
    ChangesReachTheCompositor(me, board, op, clock);
    if offer.Some? {
      CommandsAreEffects(done.effects, Offer(offer.value));
      OffersAreRemembered(me, board, op, clock, offer.value);
    } else if done.board.clip == board.clip && w.offered.Some? {
      ServedIsKept(me, board, op, clock);
    }
  }

  lemma {:induction false} CommandsAreEffects(effects: seq<Effect>, command: Command)
    requires command in Commands(effects)
    ensures Backend(command) in effects
  {
    if command !in CommandOf(effects[0]) { CommandsAreEffects(effects[1..], command); }
  }

  lemma StepIsSound(w: Watched, event: Event)
    requires Sound(w)
    ensures Sound(Step(w, event))
  {
    match event
    case Act(op, clock) =>
      CoherentKept(w.desk.me, w.desk.board, op, clock);
      SavedWhenChanged(w.desk.me, w.desk.board, op, clock);
      DeadlineKept(w.desk.me, w.desk.board, op, clock, w.setAt);
      OfferedKept(w, op, clock);
    case Restart(settings, clock) =>
      ResumeIsCoherent(Machine(w.desk.me.origin, settings), w.desk.disk, clock);
  }

  /** After every operation and every restart the disk holds what `saved`
      says, the peers are told the head, and the board is coherent. */
  lemma {:induction false} RunIsSound(me: Machine, clock: Clock, events: seq<Event>)
    ensures Sound(Run(me, clock, events))
  {
    if events != [] {
      RunIsSound(me, clock, events[..|events| - 1]);
      StepIsSound(Run(me, clock, events[..|events| - 1]), events[|events| - 1]);
    }
  }

  // --------------------------------------------------------------- what it means

  /** None of a secret's bytes ever reach the disk. */
  lemma SecretsStayOffTheDisk(me: Machine, clock: Clock, events: seq<Event>)
    ensures var disk := Run(me, clock, events).desk.disk;
            disk.Some? && disk.value.copy.Some? ==> !disk.value.copy.value.secret
  {
    RunIsSound(me, clock, events);
  }

  lemma StepMovesForward(w: Watched, event: Event)
    requires Sound(w)
    ensures var before, after := w.desk.board, Step(w, event).desk.board;
            && Le(before.Head(), after.Head())
            && (after.Head() == before.Head() ==> SameOrEmptied(before.clip, after.clip))
            && (event.Restart? ==> after.Head() == before.Head())
  {
    match event
    case Act(op, clock) => HeadNeverGoesBack(w.desk.me, w.desk.board, op, clock);
    case Restart(settings, clock) => ResumeIsCoherent(Machine(w.desk.me.origin, settings), w.desk.disk, clock);
  }

  /** Across any stretch of a run the head never goes back, and as long as it
      stays, all that can happen to the clip is to lose its copy: a stamp once
      emptied never holds a copy again, and a restart keeps the head. */
  lemma {:induction false} RunMovesForward(me: Machine, clock: Clock, events: seq<Event>, i: nat)
    requires i <= |events|
    ensures var before, after := Run(me, clock, events[..i]).desk.board, Run(me, clock, events).desk.board;
            && Le(before.Head(), after.Head())
            && (after.Head() == before.Head() ==> SameOrEmptied(before.clip, after.clip))
  {
    var n := |events|;
    if i == n {
      assert events[..i] == events;
    } else {
      var shorter := events[..n - 1];
      assert shorter[..i] == events[..i];
      RunMovesForward(me, clock, shorter, i);
      RunIsSound(me, clock, shorter);
      StepMovesForward(Run(me, clock, shorter), events[n - 1]);
      HeadsAreOrdered(Run(me, clock, events[..i]).desk.board.Head(), Run(me, clock, shorter).desk.board.Head(),
                   Run(me, clock, events).desk.board.Head());
      HeadsAreOrdered(Run(me, clock, shorter).desk.board.Head(), Run(me, clock, events).desk.board.Head(),
                   Run(me, clock, events).desk.board.Head());
    }
  }

  /** The reading at which what is held runs out, if it ever does: that many
      seconds past the earlier of its stamp's time and the moment it was set. */
  predicate RunsOutAt(clip: Clip, setAt: int, expires: Option<int>) {
    if clip.copy.Some? && clip.copy.value.ttl.Some? then
      var made := clip.stamp.millis * 1_000_000;
      expires == Some((if made <= setAt then made else setAt) + clip.copy.value.ttl.value * 1_000_000_000)
    else expires.None?
  }

  lemma DeadlineExactly(clip: Clip, setAt: int)
    ensures RunsOutAt(clip, setAt, Deadline(clip, setAt))
  {}

  /** A copy with a lifetime is due exactly then, and one without never. */
  lemma DeadlineIsExact(me: Machine, clock: Clock, events: seq<Event>)
    ensures var w := Run(me, clock, events);
            if w.desk.board.clip.Some? then RunsOutAt(w.desk.board.clip.value, w.setAt, w.desk.board.expires)
            else w.desk.board.expires.None?
  {
    RunIsSound(me, clock, events);
    var w := Run(me, clock, events);
    if w.desk.board.clip.Some? { DeadlineExactly(w.desk.board.clip.value, w.setAt); }
  }

  /** Once the lifetimes were checked at `now`, nothing past its deadline is
      held; and nothing that was not is dropped. */
  lemma ExpiryIsExact(me: Machine, clock: Clock, events: seq<Event>, at: Clock)
    ensures var before := Run(me, clock, events).desk.board;
            var after := Run(me, clock, events + [Act(ExpireOp, at)]).desk.board;
            && (after.Held().Some? && after.expires.Some? ==> at.lapse < after.expires.value)
            && (before.expires.None? || at.lapse < before.expires.value ==> after.clip == before.clip)
  {
    RunIsSound(me, clock, events);
    var longer := events + [Act(ExpireOp, at)];
    assert longer[..|longer| - 1] == events;
  }

  /** An application announcing what was last offered first, or what the copy
      leads with, does not make a new copy: nothing is saved, shared or sent. */
  lemma EchoesAreIgnored(
    me: Machine, clock: Clock, events: seq<Event>, captured: Captured, files: seq<FileRef>, at: Clock)
    requires var w := Run(me, clock, events);
             var primary := captured.selection.primary.bytes;
             && w.desk.board.Held().Some?
             && (w.offered == Some(primary) || w.desk.board.Held().value.selection.primary.bytes == primary)
    ensures var before := Run(me, clock, events).desk;
            var after := Run(me, clock, events + [Act(CaptureOp(captured, files), at)]).desk;
            && after.board.clip == before.board.clip && after.disk == before.disk
            && after.jobs == before.jobs && after.sent == before.sent && after.head == before.head
  {
    RunIsSound(me, clock, events);
    var longer := events + [Act(CaptureOp(captured, files), at)];
    assert longer[..|longer| - 1] == events;
    var desk := Run(me, clock, events).desk;
    EchoIsNotACopy(desk.me, desk.board, captured, files, at);
    NothingToPerform(desk);
  }

  /** With `apply` on, what was last put on the clipboard is the head exactly
      while a copy is held. */
  lemma AppliedIsTheHead(me: Machine, clock: Clock, events: seq<Event>)
    ensures var desk := Run(me, clock, events).desk;
            desk.me.settings.apply ==>
              desk.board.applied == if desk.board.Held().Some? then desk.board.Head() else None
  {
    RunIsSound(me, clock, events);
  }

  // ---------------------------------------------- what the disk and restarts keep

  /** At every moment of every run the disk has the clip, copy and all, unless
      that is a secret: then it has its stamp. */
  lemma DiskHoldsExactly(me: Machine, clock: Clock, events: seq<Event>)
    ensures var desk := Run(me, clock, events).desk;
            var held := desk.board.Held();
            desk.disk ==
              if held.Some? && held.value.secret then Some(Clip(desk.board.clip.value.stamp, None)) else desk.board.clip
  {
    RunIsSound(me, clock, events);
  }

  /** Whether a copy is past its time, of a clip set at one reading and judged
      at another. */
  predicate RanOut(clip: Clip, held: int, lapse: int) {
    clip.copy.Some? && clip.copy.value.ttl.Some?
    && Min(clip.stamp.millis * 1_000_000, held) + clip.copy.value.ttl.value * 1_000_000_000 <= lapse
  }

  /** A restart keeps the clip, except the copy of a secret and one that is past
      its time by then. */
  lemma RestartKeepsExactly(me: Machine, clock: Clock, events: seq<Event>, settings: Settings, at: Clock)
    ensures var before := Run(me, clock, events).desk.board;
            var after := Run(me, clock, events + [Restart(settings, at)]).desk.board;
            after.clip ==
              if before.clip.Some?
                 && (|| (before.Held().Some? && before.Held().value.secret)
                     || RanOut(before.clip.value, at.held, at.lapse))
              then Some(Clip(before.clip.value.stamp, None))
              else before.clip
  {
    RunIsSound(me, clock, events);
    var longer := events + [Restart(settings, at)];
    assert longer[..|longer| - 1] == events;
  }

  /** The fetch a change asks for, as it is queued. */
  function FetchOf(done: Outcome): seq<Job> {
    if done.board.clip.Some? && Fetch(done.board.clip.value.stamp) in done.effects then
      [FetchJob(done.board.clip.value.stamp)]
    else []
  }

  /** Every change to the clip has what the clip no longer names swept, and then
      its files fetched if they are to be; nothing else queues a job. */
  lemma ChangesQueueExactly(desk: Desk, op: Op, clock: Clock)
    ensures var done := Do(desk.me, desk.board, op, clock);
            desk.Perform(done).jobs ==
              desk.jobs + if done.effects == [] || op.MaterializeOp? then [] else [SweepJob] + FetchOf(done)
  {
    var done := Do(desk.me, desk.board, op, clock);
    EverythingIsApplied(desk.me, desk.board, op, clock);
    if done.effects == [] {
      NothingToPerform(desk);
    } else if op.CaptureOp? {
      OneJob(Save);
    } else {
      AppliedJobs(desk.me, Unapplied(desk.me, desk.board, op, clock));
    }
  }

  lemma AppliedJobs(me: Machine, raw: Board)
    ensures JobsOf(raw.SaveAndApply(me).effects) == [SweepJob] + FetchOf(raw.SaveAndApply(me))
    ensures raw.tree.Some? ==> JobsOf(raw.Apply(me).effects) == []
  {
    JobsOfBoth(Save, raw.Apply(me).effects);
    if raw.clip.Some? { JobsOfApplying(me, raw); }
  }

  /** What was given as a secret. */
  predicate GivenAsSecret(op: Op) {
    (op.CopyOp? && op.secret) || (op.CaptureOp? && op.captured.secret)
  }

  /** What such an operation makes is a secret. */
  lemma SecretsAreHeldAsSuch(me: Machine, board: Board, op: Op, clock: Clock)
    requires GivenAsSecret(op) && Do(me, board, op, clock).board.Head() != board.Head()
    ensures var held := Do(me, board, op, clock).board.Held(); held.Some? && held.value.secret
  {
    match op
    case CopyOp(selection, files, secret, ttl) => CopiesAreRecorded(me, board, selection, files, secret, ttl, clock);
    case CaptureOp(captured, files) =>
      if |captured.selection.primary.bytes| <= Cap(me) {
        var kept := FitKeepsUnder(captured.selection, Cap(me));
        CapturesAreRecorded(me, board, captured, files, clock, kept);
      } else {
        CapturesAreRecorded(me, board, captured, files, clock, 0);
      }
  }

  /** What is copied or captured as a secret at any moment of any run never
      gets to the disk: whatever happens afterwards, there is no copy there
      under the stamp it was given. */
  lemma GivenSecretsStayOffTheDisk(me: Machine, clock: Clock, events: seq<Event>, i: nat)
    requires i < |events| && events[i].Act? && GivenAsSecret(events[i].op)
    requires Run(me, clock, events[..i + 1]).desk.board.Head() != Run(me, clock, events[..i]).desk.board.Head()
    ensures var given := Run(me, clock, events[..i + 1]).desk.board.Head();
            var disk := Run(me, clock, events).desk.disk;
            given.Some? && (disk.Some? && disk.value.stamp == given.value ==> disk.value.copy.None?)
  {
    var before, given := Run(me, clock, events[..i]), Run(me, clock, events[..i + 1]);
    assert events[..i + 1][..i] == events[..i];
    SecretsAreHeldAsSuch(before.desk.me, before.desk.board, events[i].op, events[i].clock);
    RunMovesForward(me, clock, events, i + 1);
    DiskHoldsExactly(me, clock, events);
  }

  /** What a machine ever holds is within every limit: 4 MiB with 48 bytes for
      each file, eight types of up to 255 printable characters, 4096 files with
      safe paths, and none for a secret. */
  lemma HeldCopiesAreUsable(me: Machine, clock: Clock, events: seq<Event>)
    ensures var held := Run(me, clock, events).desk.board.Held();
            held.Some? ==>
              var (reps, files) := (held.value.selection.Reps(), held.value.files);
              && TotalBytes(reps) + ManifestSize(files) <= 4 * 1024 * 1024
              && |reps| <= 8 && |files| <= 4096 && (held.value.secret ==> files == [])
              && (forall rep :: rep in reps ==>
                    1 <= |rep.mime| <= 255 && forall c :: c in rep.mime ==> ' ' <= c <= '~')
              && (forall file :: file in files ==> IsSafe(file.path))
              && DistinctPaths(PathsIn(files))
  {
    RunIsSound(me, clock, events);
    var held := Run(me, clock, events).desk.board.Held();
    if held.Some? { ValidateMeansDistinct(held.value.files); }
  }
}
