/** The clipboard of one machine as a value: what each operation makes of it,
    and what the caller is asked to do. The class in Clipboard.dfy performs
    these steps in place. */
module Boards {
  import opened Basics
  import opened Stamps
  import opened Files
  import opened Copies
  import opened Serving
  import Mime

  datatype Settings = Settings(
    apply: bool, capture: bool, files: bool, maxSize: nat, secretTtl: nat, maxFileSize: nat)
  {
    function MaxBytes(): nat { Min(maxSize, MAX_SIZE) }
  }

  /** What stays the same while the daemon runs. */
  datatype Machine = Machine(origin: Id, settings: Settings)

  datatype Command = Offer(serves: seq<Serve>) | Empty

  datatype Effect = Save | Backend(command: Command) | Fetch(stamp: Stamp)

  datatype Captured = Captured(selection: Selection, secret: bool)

  /** The readings of the wall clock one operation takes: the one a stamp is
      made from or judged by, the one the clip is set at, and the one its
      lifetime is checked against. Nothing ties them to each other or to
      earlier ones. */
  datatype Clock = Clock(stamp: int, held: int, lapse: int)

  datatype Refusal = NothingToCopy | OverLimit | BadCopy | ClaimsOurs | TooFarAhead

  datatype Outcome = Outcome(board: Board, effects: seq<Effect>)

  const MAX_U32: nat := 0xFFFF_FFFF

  /** Seconds until a copy lapses: what was asked for, or what secrets default
      to. */
  function Lifetime(settings: Settings, secret: bool, ttl: Option<nat>): Option<nat> {
    match ttl
    case Some(secs) => Some(Min(secs, MAX_U32))
    case None => if secret then Some(Min(settings.secretTtl, MAX_U32)) else None
  }

  /** The reading at which a clip set at `now` lapses, if it has a lifetime:
      the earlier of its stamp's time and `now`, plus that lifetime. */
  function Deadline(clip: Clip, now: int): Option<int> {
    if clip.copy.Some? && clip.copy.value.ttl.Some? then
      Some(Min(TimeOf(clip.stamp), now) + clip.copy.value.ttl.value * NANOS_PER_SEC)
    else None
  }

  /** The selection with fewer and fewer of its last alternates, until it is
      within the cap; none where even the primary is over it. */
  function Fit(selection: Selection, cap: nat): Option<Selection>
    decreases |selection.alternates|
  {
    if selection.Size() <= cap then Some(selection)
    else if selection.alternates == [] then None
    else Fit(Selection(selection.primary, selection.alternates[..|selection.alternates| - 1]), cap)
  }

  datatype Board = Board(
    clip: Option<Clip>,
    expires: Option<int>,
    applied: Option<Stamp>,
    served: Option<Hash>,
    tree: Option<Bytes>)
  {
    function Head(): Option<Stamp> {
      if clip.None? then None else Some(clip.value.stamp)
    }

    function Held(): Option<Copy> {
      if clip.None? then None else clip.value.copy
    }

    predicate IsOurs(me: Machine) {
      clip.Some? && clip.value.stamp.origin == me.origin
    }

    /** The clip as the disk has it: the stamp of a secret, without its copy. */
    function Saved(): Option<Clip> {
      if Held().Some? && Held().value.secret then Some(Clip(clip.value.stamp, None)) else clip
    }

    function Set(next: Clip, now: int): Board {
      Board(Some(next), Deadline(next, now), applied, None, None)
    }

    predicate Lapses(now: int) { expires.Some? && expires.value <= now }

    function Lapse(now: int): Board {
      if Lapses(now) && clip.Some? then Set(Clip(clip.value.stamp, None), now) else this
    }

    function Replace(me: Machine, copy: Option<Copy>, clock: Clock): Board {
      Set(Clip(Next(Head(), me.origin, clock.stamp), copy), clock.held)
    }

    /** The offer, or the clearing, that a new clip calls for, and what the board
        keeps in mind of it. */
    function Apply(me: Machine): Outcome {
      if !me.settings.apply || clip.None? then Outcome(this, [])
      else match clip.value.copy
        case Some(copy) =>
          var wanted := copy.IsFiles() && me.settings.files && !IsOurs(me) && tree.None?;
          var carried := Carried(copy, IsOurs(me), tree);
          Outcome(
            this.(applied := Head(), served := Some(Digest(carried.primary.bytes))),
            (if wanted then [Fetch(clip.value.stamp)] else [])
            + [Backend(Offer(OfferOf(copy, IsOurs(me), tree)))])
        case None =>
          if applied.Some? then Outcome(this.(applied := None), [Backend(Empty)])
          else Outcome(this, [])
    }

    /** A change that is saved, then applied. */
    function SaveAndApply(me: Machine): Outcome {
      var applied := Apply(me);
      Outcome(applied.board, [Save] + applied.effects)
    }

    function Copying(me: Machine, selection: Selection, files: seq<FileRef>,
        secret: bool, ttl: Option<nat>, clock: Clock)
      : Result<Outcome, Refusal>
    {
      if selection.Size() == 0 then Err(NothingToCopy)
      else if selection.Size() > me.settings.MaxBytes() then Err(OverLimit)
      else
        var copy := Copy(selection, secret, Lifetime(me.settings, secret, ttl), files);
        if !copy.Check() then Err(BadCopy)
        else Ok(Replace(me, Some(copy), clock).SaveAndApply(me))
    }

    /** Whether a selection is what this machine already holds, or what it
        last served for it. */
    predicate Recognizes(primary: Bytes) {
      && Held().Some?
      && (Held().value.selection.primary.bytes == primary || served == Some(Digest(primary)))
    }

    function Capturing(me: Machine, captured: Captured, files: seq<FileRef>, clock: Clock): Outcome {
      if !me.settings.capture then Outcome(this, [])
      else match Fit(captured.selection, me.settings.MaxBytes())
        case None => Outcome(this, [])
        case Some(selection) =>
          if Recognizes(selection.primary.bytes) then Outcome(this.(applied := Head()), [])
          else
            var copy := Copy(selection, captured.secret, Lifetime(me.settings, captured.secret, None), files);
            if !copy.Check() then Outcome(this, [])
            else
              var replaced := Replace(me, Some(copy), clock);
              Outcome(replaced.(applied := replaced.Head()), [Save])
    }

    function Accepting(me: Machine, offered: Clip, clock: Clock): Result<Outcome, Refusal> {
      if Le(Some(offered.stamp), Head()) then Ok(Outcome(this, []))
      else if offered.stamp.origin == me.origin then Err(ClaimsOurs)
      else if !Plausible(offered.stamp, clock.stamp) then Err(TooFarAhead)
      else if offered.copy.Some? && !offered.copy.value.Check() then Err(BadCopy)
      else Ok(Set(offered, clock.held).Lapse(clock.lapse).SaveAndApply(me))
    }

    function Clearing(me: Machine, clock: Clock): Outcome {
      Replace(me, None, clock).SaveAndApply(me)
    }

    function Expiring(me: Machine, now: int): Outcome {
      if Lapses(now) then Lapse(now).SaveAndApply(me) else Outcome(this, [])
    }

    function Materializing(me: Machine, stamp: Stamp, at: Bytes): Outcome {
      if Head() != Some(stamp) then Outcome(this, [])
      else this.(tree := Some(at)).Apply(me)
    }
  }

  const BLANK := Board(None, None, None, None, None)

  /** The board a daemon starts with, given its disk; the effects are lost. */
  function Resume(me: Machine, saved: Option<Clip>, clock: Clock): Board {
    match saved
    case None => BLANK
    case Some(clip) => BLANK.Set(clip, clock.held).Lapse(clock.lapse).Apply(me).board
  }

  // ------------------------------------------------------ any one operation

  datatype Op =
    | CopyOp(selection: Selection, files: seq<FileRef>, secret: bool, ttl: Option<nat>)
    | CaptureOp(captured: Captured, named: seq<FileRef>)
    | AcceptOp(clip: Clip)
    | ClearOp
    | ExpireOp
    | MaterializeOp(stamp: Stamp, tree: Bytes)

  /** What a refused operation does is nothing. */
  function Settled(board: Board, result: Result<Outcome, Refusal>): Outcome {
    match result
    case Ok(outcome) => outcome
    case Err(_) => Outcome(board, [])
  }

  function Do(me: Machine, board: Board, op: Op, clock: Clock): Outcome {
    match op
    case CopyOp(selection, files, secret, ttl) =>
      Settled(board, board.Copying(me, selection, files, secret, ttl, clock))
    case CaptureOp(captured, files) => board.Capturing(me, captured, files, clock)
    case AcceptOp(clip) => Settled(board, board.Accepting(me, clip, clock))
    case ClearOp => board.Clearing(me, clock)
    case ExpireOp => board.Expiring(me, clock.lapse)
    case MaterializeOp(stamp, tree) => board.Materializing(me, stamp, tree)
  }

  /** Whether an operation makes a clip of this machine's own. */
  predicate Makes(me: Machine, board: Board, op: Op, clock: Clock) {
    || (op.CopyOp? && board.Copying(me, op.selection, op.files, op.secret, op.ttl, clock).Ok?)
    || (op.CaptureOp? && board.Capturing(me, op.captured, op.named, clock).effects != [])
    || op.ClearOp?
  }

  /** Whether an operation adopts a peer's clip. */
  predicate Adopts(me: Machine, board: Board, op: Op, clock: Clock) {
    && op.AcceptOp?
    && Lt(board.Head(), Some(op.clip.stamp))
    && board.Accepting(me, op.clip, clock).Ok?
  }

  /** The clip now differs from what it was in its stamp, or only by having
      lost its copy. */
  predicate SameOrEmptied(before: Option<Clip>, after: Option<Clip>) {
    || after == before
    || (before.Some? && after == Some(Clip(before.value.stamp, None)))
  }

  /** The three ways an operation can treat the clip. */
  lemma DoMovesTheClip(me: Machine, board: Board, op: Op, clock: Clock)
    ensures var after := Do(me, board, op, clock).board;
            && (Makes(me, board, op, clock) ==>
                  && after.clip.Some?
                  && after.clip.value.stamp == Next(board.Head(), me.origin, clock.stamp)
                  && (after.Held().Some? ==> after.Held().value.Check()))
            && (Adopts(me, board, op, clock) ==>
                  && SameOrEmptied(Some(op.clip), after.clip)
                  && op.clip.stamp.origin != me.origin
                  && Plausible(op.clip.stamp, clock.stamp)
                  && (op.clip.copy.Some? ==> op.clip.copy.value.Check()))
            && (!Makes(me, board, op, clock) && !Adopts(me, board, op, clock) ==>
                  SameOrEmptied(board.clip, after.clip))
  {
    match op
    case AcceptOp(clip) => OptionOrder(Some(clip.stamp), board.Head());
    case _ =>
  }

  /** The head never goes back, and a stamp never gets a copy back. */
  lemma HeadNeverGoesBack(me: Machine, board: Board, op: Op, clock: Clock)
    ensures var after := Do(me, board, op, clock).board;
            && Le(board.Head(), after.Head())
            && (after.Head() == board.Head() ==> SameOrEmptied(board.clip, after.clip))
            && (Makes(me, board, op, clock) || Adopts(me, board, op, clock) <==> after.Head() != board.Head())
  {
    DoMovesTheClip(me, board, op, clock);
  }

  // -------------------------------------------------- what every step keeps

  /** What holds of a board between operations. */
  predicate Coherent(me: Machine, board: Board) {
    && (board.clip.None? ==> board == BLANK)
    && (board.expires.Some? <==> board.Held().Some? && board.Held().value.ttl.Some?)
    && (board.served.Some? ==>
          && me.settings.apply && board.Held().Some?
          && board.served == Some(Digest(Carried(board.Held().value, board.IsOurs(me), board.tree).primary.bytes)))
    && (me.settings.apply ==> board.applied == if board.Held().Some? then board.Head() else None)
    && (board.Held().Some? ==> board.Held().value.Check())
  }

  lemma ApplyRestoresCoherence(me: Machine, board: Board)
    requires board.clip.Some? && board.served.None?
    requires board.expires.Some? <==> board.Held().Some? && board.Held().value.ttl.Some?
    requires board.Held().Some? ==> board.Held().value.Check()
    ensures Coherent(me, board.Apply(me).board)
  {}

  lemma CaptureKeepsCoherence(me: Machine, board: Board, captured: Captured, files: seq<FileRef>, clock: Clock)
    requires Coherent(me, board)
    ensures Coherent(me, board.Capturing(me, captured, files, clock).board)
  {}

  lemma CoherentKept(me: Machine, board: Board, op: Op, clock: Clock)
    requires Coherent(me, board)
    ensures Coherent(me, Do(me, board, op, clock).board)
  {
    match op
    case CaptureOp(captured, files) => CaptureKeepsCoherence(me, board, captured, files, clock);
    case MaterializeOp(stamp, tree) =>
      if board.Head() == Some(stamp) {
        var forgotten := board.(tree := Some(tree), served := None);
        ApplyRestoresCoherence(me, forgotten);
      }
    case _ =>
      EverythingIsApplied(me, board, op, clock);
      if Do(me, board, op, clock).effects != [] {
        ApplyRestoresCoherence(me, Unapplied(me, board, op, clock));
      }
  }

  lemma ResumeIsCoherent(me: Machine, saved: Option<Clip>, clock: Clock)
    requires saved.Some? && saved.value.copy.Some? ==> saved.value.copy.value.Check()
    ensures Coherent(me, Resume(me, saved, clock))
    ensures SameOrEmptied(saved, Resume(me, saved, clock).clip)
  {}

  // ------------------------------------------------- the compositor's side

  function CommandOf(effect: Effect): seq<Command> {
    if effect.Backend? then [effect.command] else []
  }

  function Commands(effects: seq<Effect>): seq<Command> {
    if effects == [] then [] else CommandOf(effects[0]) + Commands(effects[1..])
  }

  /** The one command that takes a clipboard from one content to another. */
  function Matching(me: Machine, before: Board, after: Board): seq<Command> {
    if after.Held().Some? then [Offer(OfferOf(after.Held().value, after.IsOurs(me), after.tree))]
    else if before.Held().Some? then [Empty]
    else []
  }

  lemma {:induction false} CommandsOfBoth(a: seq<Effect>, b: seq<Effect>)
    ensures Commands(a + b) == Commands(a) + Commands(b)
  {
    if a == [] {
      assert a + b == b;
    } else {
      var head, rest := CommandOf(a[0]), Commands(a[1..]);
      assert (a + b)[1..] == a[1..] + b && (a + b)[0] == a[0];
      CommandsOfBoth(a[1..], b);
      assert head + (rest + Commands(b)) == (head + rest) + Commands(b);
    }
  }

  /** The board an operation hands to `Apply`. */
  function Unapplied(me: Machine, board: Board, op: Op, clock: Clock): Board {
    match op
    case CopyOp(selection, files, secret, ttl) =>
      board.Replace(me, Some(Copy(selection, secret, Lifetime(me.settings, secret, ttl), files)), clock)
    case AcceptOp(clip) => board.Set(clip, clock.held).Lapse(clock.lapse)
    case ClearOp => board.Replace(me, None, clock)
    case ExpireOp => board.Lapse(clock.lapse)
    case MaterializeOp(_, tree) => board.(tree := Some(tree))
    case CaptureOp(_, _) => board
  }

  lemma EverythingIsApplied(me: Machine, board: Board, op: Op, clock: Clock)
    ensures var done := Do(me, board, op, clock);
            var raw := Unapplied(me, board, op, clock);
            || done.effects == []
            || (op.CaptureOp? && done.effects == [Save])
            || (op.MaterializeOp? && done == raw.Apply(me))
            || (!op.CaptureOp? && !op.MaterializeOp? && done == raw.SaveAndApply(me))
  {}

  lemma AppliedEffects(me: Machine, board: Board)
    requires board.clip.Some?
    ensures var effects := board.Apply(me).effects;
            || effects == []
            || (|effects| == 1 && effects[0].Backend? && effects == [effects[0]])
            || (|effects| == 2 && effects[0] == Fetch(board.clip.value.stamp) && effects[1].Backend?
                && effects == [effects[0]] + [effects[1]])
  {}

  lemma ApplySends(me: Machine, board: Board)
    ensures var done := board.Apply(me);
            && Commands(done.effects) ==
                 (if !me.settings.apply then []
                  else if board.Held().Some? then [Offer(OfferOf(board.Held().value, board.IsOurs(me), board.tree))]
                  else if board.clip.Some? && board.applied.Some? then [Empty]
                  else [])
            && done.board.clip == board.clip && done.board.tree == board.tree
            && (forall serves :: Backend(Offer(serves)) in done.effects ==> Offer(serves) in Commands(done.effects))
            && (me.settings.apply && board.Held().Some? ==>
                  done.board.served ==
                    Some(Digest(Carried(board.Held().value, board.IsOurs(me), board.tree).primary.bytes)))
  {
    if me.settings.apply && board.Held().Some? {
      var offer := [Backend(Offer(OfferOf(board.Held().value, board.IsOurs(me), board.tree)))];
      var fetch := [Fetch(board.clip.value.stamp)];
      CommandsOfBoth(fetch, offer);
      CommandsOfBoth([], offer);
    }
  }

  lemma SaveAndApplySends(me: Machine, board: Board)
    ensures Commands(board.SaveAndApply(me).effects) == Commands(board.Apply(me).effects)
  {
    CommandsOfBoth([Save], board.Apply(me).effects);
  }

  lemma SentByDo(me: Machine, board: Board, op: Op, clock: Clock)
    ensures var done := Do(me, board, op, clock);
            Commands(done.effects) ==
              if op.CaptureOp? || done.effects == [] then []
              else Commands(Unapplied(me, board, op, clock).Apply(me).effects)
  {
    EverythingIsApplied(me, board, op, clock);
    SaveAndApplySends(me, Unapplied(me, board, op, clock));
    CommandsOfBoth([Save], []);
  }

  lemma AppliedIsWhatChanged(me: Machine, board: Board, op: Op, clock: Clock)
    requires Coherent(me, board) && !op.CaptureOp?
    ensures var done := Do(me, board, op, clock);
            var raw := Unapplied(me, board, op, clock);
            if done.effects == [] then done.board.clip == board.clip
            else
              && done.board.clip == raw.clip && done.board.tree == raw.tree && raw.applied == board.applied
              && raw.clip.Some?
              && (op.MaterializeOp? ==> board.Head() == Some(op.stamp) && raw.clip == board.clip)
  {
    EverythingIsApplied(me, board, op, clock);
    ApplySends(me, Unapplied(me, board, op, clock));
  }

  /** The files of the clip have landed, so it is offered again. */
  predicate Reoffers(board: Board, op: Op) {
    op.MaterializeOp? && board.Head() == Some(op.stamp)
  }

  lemma CommandsMatch(me: Machine, board: Board, raw: Board)
    requires Coherent(me, board) && raw.applied == board.applied && raw.clip.Some?
    ensures Commands(raw.Apply(me).effects) == if me.settings.apply then Matching(me, board, raw) else []
  {
    ApplySends(me, raw);
  }

  /** A change that is saved is a change. */
  lemma SavedMeansChanged(me: Machine, board: Board, op: Op, clock: Clock)
    requires Coherent(me, board)
    requires Save in Do(me, board, op, clock).effects
    ensures Do(me, board, op, clock).board.clip != board.clip
  {
    DoMovesTheClip(me, board, op, clock);
  }

  /** An operation with effects, other than a capture, sends what `Apply` does
      for a clip that is new, or offered again. */
  lemma ChangesAreSent(me: Machine, board: Board, op: Op, clock: Clock)
    requires Coherent(me, board) && !op.CaptureOp? && Do(me, board, op, clock).effects != []
    ensures var done := Do(me, board, op, clock);
            && Commands(done.effects) == (if me.settings.apply then Matching(me, board, done.board) else [])
            && (done.board.clip != board.clip || Reoffers(board, op))
  {
    AppliedIsWhatChanged(me, board, op, clock);
    SentByDo(me, board, op, clock);
    CommandsMatch(me, board, Unapplied(me, board, op, clock));
    if !op.MaterializeOp? {
      EverythingIsApplied(me, board, op, clock);
      SavedMeansChanged(me, board, op, clock);
    }
  }

  lemma NothingToReoffer(me: Machine, board: Board, stamp: Stamp, tree: Bytes)
    requires board.Head() == Some(stamp) && me.settings.apply
    requires board.Materializing(me, stamp, tree).effects == []
    ensures board.Held().None? && board.Materializing(me, stamp, tree).board.Held().None?
  {}

  /** One without effects leaves the clip, and offers nothing again unless
      nothing is ever offered. */
  lemma NothingIsSent(me: Machine, board: Board, op: Op, clock: Clock)
    requires Coherent(me, board) && !op.CaptureOp? && Do(me, board, op, clock).effects == []
    ensures var done := Do(me, board, op, clock);
            && done.board.clip == board.clip
            && (me.settings.apply && Reoffers(board, op) ==> Matching(me, board, done.board) == [])
  {
    if op.MaterializeOp? {
      if me.settings.apply && Reoffers(board, op) { NothingToReoffer(me, board, op.stamp, op.tree); }
    } else {
      AppliedIsWhatChanged(me, board, op, clock);
    }
  }

  /** Every change that did not come from the compositor sends it the one
      command that matches the new clip; a capture sends none, and with
      `apply` off nothing is sent. */
  lemma ChangesReachTheCompositor(me: Machine, board: Board, op: Op, clock: Clock)
    requires Coherent(me, board)
    ensures var after := Do(me, board, op, clock).board;
            Commands(Do(me, board, op, clock).effects) ==
              if me.settings.apply && !op.CaptureOp? && (after.clip != board.clip || Reoffers(board, op)) then
                Matching(me, board, after)
              else []
  {
    if op.CaptureOp? {
      SentByDo(me, board, op, clock);
    } else if Do(me, board, op, clock).effects == [] {
      NothingIsSent(me, board, op, clock);
    } else {
      ChangesAreSent(me, board, op, clock);
    }
  }

  /** What was last offered first is remembered while the clip is there. */
  lemma OffersAreRemembered(me: Machine, board: Board, op: Op, clock: Clock, serves: seq<Serve>)
    requires Backend(Offer(serves)) in Do(me, board, op, clock).effects
    ensures serves != [] && Do(me, board, op, clock).board.served == Some(Digest(serves[0].bytes))
  {
    var raw := Unapplied(me, board, op, clock);
    EverythingIsApplied(me, board, op, clock);
    ApplySends(me, raw);
    OfferLeadsWithPrimary(me, raw);
  }

  lemma OfferLeadsWithPrimary(me: Machine, board: Board)
    requires board.Held().Some?
    ensures var serves := OfferOf(board.Held().value, board.IsOurs(me), board.tree);
            serves != [] && serves[0].bytes == Carried(board.Held().value, board.IsOurs(me), board.tree).primary.bytes
  {
    FirstServeIsPrimary(Carried(board.Held().value, board.IsOurs(me), board.tree).Reps());
  }

  /** Nothing else forgets it: while the clip keeps its copy, so does what was
      served for it, unless it is served anew. */
  lemma ServedIsKept(me: Machine, board: Board, op: Op, clock: Clock)
    requires Coherent(me, board)
    requires Do(me, board, op, clock).board.clip == board.clip
    requires Commands(Do(me, board, op, clock).effects) == []
    ensures Do(me, board, op, clock).board.served == board.served
  {
    ChangesReachTheCompositor(me, board, op, clock);
    DoMovesTheClip(me, board, op, clock);
  }

  lemma {:induction false} FitKeepsPrimary(selection: Selection, cap: nat)
    ensures Fit(selection, cap).Some? ==> Fit(selection, cap).value.primary == selection.primary
    decreases |selection.alternates|
  {
    if selection.Size() > cap && selection.alternates != [] {
      FitKeepsPrimary(Selection(selection.primary, selection.alternates[..|selection.alternates| - 1]), cap);
    }
  }

  /** A capture that leads with the copy's own primary, or with what was last
      served for it, has no effects and leaves the clip alone; the clipboard
      has the copy then. */
  lemma EchoIsNotACopy(me: Machine, board: Board, captured: Captured, files: seq<FileRef>, clock: Clock)
    requires board.Recognizes(captured.selection.primary.bytes)
    ensures board.Capturing(me, captured, files, clock).effects == []
    ensures var after := board.Capturing(me, captured, files, clock).board;
            after.clip == board.clip && (me.settings.capture && |captured.selection.primary.bytes| <= Cap(me) ==>
              after == board.(applied := board.Head()))
  {
    FitKeepsPrimary(captured.selection, me.settings.MaxBytes());
    FitIsTheLongestPrefix(captured.selection, me.settings.MaxBytes());
  }

  // ------------------------------------------------------ the files it wants

  /** A peer's files are asked for when their clip lands, and only then. */
  lemma FetchesAreForTheClip(me: Machine, board: Board, op: Op, clock: Clock, stamp: Stamp)
    requires Fetch(stamp) in Do(me, board, op, clock).effects
    ensures var after := Do(me, board, op, clock).board;
            && after.Head() == Some(stamp) && after.Held().Some? && after.Held().value.IsFiles()
            && !after.IsOurs(me) && after.tree.None? && me.settings.files && me.settings.apply
  {}

  /** What reaches the compositor from a machine that neither made the clip
      nor has its files never names a file. */
  lemma UnfetchedFilesAreText(me: Machine, board: Board, op: Op, clock: Clock, serves: seq<Serve>)
    requires Backend(Offer(serves)) in Do(me, board, op, clock).effects
    requires !Do(me, board, op, clock).board.IsOurs(me) && Do(me, board, op, clock).board.tree.None?
    ensures OffersNoFile(serves)
  {
    var raw := Unapplied(me, board, op, clock);
    EverythingIsApplied(me, board, op, clock);
    ApplySends(me, raw);
    ForeignPathsAreNotOffered(raw.Held().value);
  }

  // ------------------------------------------------- trees of emptied clips

  /** A tree is noted on a clip that has no copy anymore. */
  predicate Stale(board: Board) { board.tree.Some? && board.Held().None? }

  /** A tree goes stale exactly when its files land after the copy they were of
      is gone, the stamp still being the head; and it stays so until another
      clip takes its place. */
  lemma TreesGoStale(me: Machine, board: Board, op: Op, clock: Clock)
    requires Coherent(me, board)
    ensures Stale(Do(me, board, op, clock).board)
            <==> (op.MaterializeOp? && board.Head() == Some(op.stamp) && board.Held().None?)
                 || (Stale(board) && Do(me, board, op, clock).board.Head() == board.Head())
  {
    match op
    case AcceptOp(clip) => OptionOrder(Some(clip.stamp), board.Head());
    case CaptureOp(captured, files) =>
    case _ =>
  }

  // ---------------------------------------------------------------- fitting

  function Prefix(selection: Selection, k: nat): Selection
    requires k <= |selection.alternates|
  {
    Selection(selection.primary, selection.alternates[..k])
  }

  lemma PrefixSize(selection: Selection, k: nat)
    requires k < |selection.alternates|
    ensures Prefix(selection, k + 1).Size() == Prefix(selection, k).Size() + |selection.alternates[k].bytes|
  {
    TotalSnoc(Prefix(selection, k).Reps(), selection.alternates[k]);
    assert Prefix(selection, k + 1).Reps() == Prefix(selection, k).Reps() + [selection.alternates[k]];
  }

  /** `Fit` keeps as many of the first representations as the cap allows, and
      gives up exactly where it does not allow for the primary. */
  lemma {:induction false} FitIsTheLongestPrefix(selection: Selection, cap: nat)
    ensures Fit(selection, cap).None? <==> |selection.primary.bytes| > cap
    ensures Fit(selection, cap).Some? ==>
              var kept := |Fit(selection, cap).value.alternates|;
              && kept <= |selection.alternates|
              && Fit(selection, cap).value == Prefix(selection, kept)
              && Prefix(selection, kept).Size() <= cap
              && (kept < |selection.alternates| ==> Prefix(selection, kept + 1).Size() > cap)
    decreases |selection.alternates|
  {
    var n := |selection.alternates|;
    assert Prefix(selection, n) == selection;
    PrimaryWithin(selection);
    if selection.Size() > cap && n > 0 {
      var shorter := Prefix(selection, n - 1);
      FitIsTheLongestPrefix(shorter, cap);
      if Fit(shorter, cap).Some? {
        var kept := |Fit(shorter, cap).value.alternates|;
        assert Prefix(shorter, kept) == Prefix(selection, kept);
        if kept < n - 1 { assert Prefix(shorter, kept + 1) == Prefix(selection, kept + 1); }
      }
    }
  }

  lemma PrimaryWithin(selection: Selection)
    ensures |selection.primary.bytes| <= selection.Size()
    ensures selection.alternates == [] ==> selection.Size() == |selection.primary.bytes|
  {
    assert selection.Reps()[1..] == selection.alternates;
    assert TotalBytes(selection.Reps()) == |selection.primary.bytes| + TotalBytes(selection.alternates);
  }

  // ----------------------------------------------- what a new copy is made of

  /** The limit in the settings, or 4 MiB where that is more. */
  function Cap(me: Machine): nat { if me.settings.maxSize < 4_194_304 then me.settings.maxSize else 4_194_304 }

  /** How many alternates are kept of a selection under a cap: as many of the
      first as fit. */
  predicate KeepsUnder(selection: Selection, cap: nat, kept: nat) {
    && kept <= |selection.alternates|
    && Prefix(selection, kept).Size() <= cap
    && (kept < |selection.alternates| ==> Prefix(selection, kept + 1).Size() > cap)
  }

  lemma FitKeepsUnder(selection: Selection, cap: nat) returns (kept: nat)
    requires |selection.primary.bytes| <= cap
    ensures KeepsUnder(selection, cap, kept) && Fit(selection, cap) == Some(Prefix(selection, kept))
  {
    FitIsTheLongestPrefix(selection, cap);
    kept := |Fit(selection, cap).value.alternates|;
  }

  lemma {:induction false} PrefixesGrow(selection: Selection, a: nat, b: nat)
    requires a <= b <= |selection.alternates|
    ensures Prefix(selection, a).Size() <= Prefix(selection, b).Size()
    decreases b
  {
    if a < b {
      PrefixesGrow(selection, a, b - 1);
      PrefixSize(selection, b - 1);
    }
  }

  lemma OnlyOneKept(selection: Selection, cap: nat, a: nat, b: nat)
    requires KeepsUnder(selection, cap, a) && KeepsUnder(selection, cap, b)
    ensures a == b
  {
    if a < b { PrefixesGrow(selection, a + 1, b); } else if b < a { PrefixesGrow(selection, b + 1, a); }
  }

  /** The lifetime of a copy nothing was said about: what secrets are given by
      default, and none for others. */
  function DefaultLifetime(me: Machine, secret: bool): Option<nat> {
    if !secret then None
    else if me.settings.secretTtl <= 0xFFFF_FFFF then Some(me.settings.secretTtl)
    else Some(0xFFFF_FFFF)
  }

  /** The copy a captured selection would make: a secret if it was announced as
      one, of these files, and of as many representations as fit. */
  function CopyOfCaptured(me: Machine, captured: Captured, files: seq<FileRef>, kept: nat): Copy
    requires kept <= |captured.selection.alternates|
  {
    Copy(Prefix(captured.selection, kept), captured.secret, DefaultLifetime(me, captured.secret), files)
  }

  /** The primary is what the clip held leads with, or what was last offered
      first for it. */
  predicate IsEcho(board: Board, primary: Bytes) {
    && board.Held().Some?
    && (board.Held().value.selection.primary.bytes == primary || board.served == Some(Digest(primary)))
  }

  /** A captured selection becomes the clip exactly when capturing is on, its
      primary is within the cap, it is no echo, and the copy it would make
      passes; and then the clip is that copy. */
  lemma CapturesAreRecorded(me: Machine, board: Board, captured: Captured, files: seq<FileRef>, clock: Clock, kept: nat)
    requires |captured.selection.primary.bytes| <= Cap(me) ==> KeepsUnder(captured.selection, Cap(me), kept)
    ensures var primary := captured.selection.primary.bytes;
            var after := Do(me, board, CaptureOp(captured, files), clock).board;
            if me.settings.capture && |primary| <= Cap(me) && !IsEcho(board, primary)
               && CopyOfCaptured(me, captured, files, kept).Check()
            then
              && Lt(board.Head(), after.Head())
              && after.Held() == Some(CopyOfCaptured(me, captured, files, kept))
              && Do(me, board, CaptureOp(captured, files), clock).effects == [Save]
            else
              && after.Head() == board.Head() && after.clip == board.clip
              && Do(me, board, CaptureOp(captured, files), clock).effects == []
  {
    FitIsTheLongestPrefix(captured.selection, me.settings.MaxBytes());
    if |captured.selection.primary.bytes| <= Cap(me) {
      var fits := FitKeepsUnder(captured.selection, me.settings.MaxBytes());
      OnlyOneKept(captured.selection, me.settings.MaxBytes(), fits, kept);
    }
  }

  /** Seconds as they were asked for, or the default where nothing was. */
  function AskedLifetime(me: Machine, secret: bool, ttl: Option<nat>): Option<nat> {
    match ttl
    case None => DefaultLifetime(me, secret)
    case Some(secs) => Some(if secs <= 0xFFFF_FFFF then secs else 0xFFFF_FFFF)
  }

  /** What is copied here becomes the clip exactly when it is not empty, within
      the limit, and passes; and then the clip is that selection, those files,
      secret or not, for the lifetime asked for. */
  lemma CopiesAreRecorded(
    me: Machine, board: Board, selection: Selection, files: seq<FileRef>, secret: bool, ttl: Option<nat>, clock: Clock)
    ensures var after := Do(me, board, CopyOp(selection, files, secret, ttl), clock).board;
            var copy := Copy(selection, secret, AskedLifetime(me, secret, ttl), files);
            if 0 < selection.Size() <= Cap(me) && copy.Check() then
              && Lt(board.Head(), after.Head()) && after.Held() == Some(copy)
              && [Save] <= Do(me, board, CopyOp(selection, files, secret, ttl), clock).effects
            else
              after == board && Do(me, board, CopyOp(selection, files, secret, ttl), clock).effects == []
  {
    EverythingIsApplied(me, board, CopyOp(selection, files, secret, ttl), clock);
  }

  /** Clearing leaves no copy, whatever there was. */
  lemma ClearingEmpties(me: Machine, board: Board, clock: Clock)
    ensures var after := Do(me, board, ClearOp, clock).board;
            Lt(board.Head(), after.Head()) && after.clip.Some? && after.Held().None? && after.expires.None?
  {}

  /** A peer's clip becomes the clip, whole, unless it is refused or has run
      out by then; and what is refused leaves everything as it was. */
  lemma AcceptedIsTheClip(me: Machine, board: Board, clip: Clip, clock: Clock)
    ensures var done := Do(me, board, AcceptOp(clip), clock);
            var lapsed :=
              && clip.copy.Some? && clip.copy.value.ttl.Some?
              && Min(TimeOf(clip.stamp), clock.held) + clip.copy.value.ttl.value * 1_000_000_000 <= clock.lapse;
            if Lt(board.Head(), Some(clip.stamp)) && clip.stamp.origin != me.origin
               && Plausible(clip.stamp, clock.stamp) && (clip.copy.Some? ==> clip.copy.value.Check())
            then
              done.board.clip == Some(if lapsed then Clip(clip.stamp, None) else clip) && [Save] <= done.effects
            else
              done.board == board && done.effects == []
  {
    OptionOrder(Some(clip.stamp), board.Head());
    EverythingIsApplied(me, board, AcceptOp(clip), clock);
  }

  /** Files are fetched exactly when a clip that names some was taken over from
      a peer and holds its copy, with files shared and the clipboard kept. */
  lemma FetchesExactly(me: Machine, board: Board, op: Op, clock: Clock, stamp: Stamp)
    ensures Fetch(stamp) in Do(me, board, op, clock).effects <==>
              var after := Do(me, board, op, clock).board;
              && op.AcceptOp? && op.clip.stamp == stamp && board.Head() != Some(stamp) && after.Head() == Some(stamp)
              && after.Held().Some? && after.Held().value.files != [] && me.settings.files && me.settings.apply
  {
    match op
    case AcceptOp(clip) => OptionOrder(Some(clip.stamp), board.Head());
    case CopyOp(_, _, _, _) => MadeHere(me, board, op, clock);
    case ClearOp => MadeHere(me, board, op, clock);
    case _ =>
  }

  lemma MadeHere(me: Machine, board: Board, op: Op, clock: Clock)
    requires op.CopyOp? || op.ClearOp?
    ensures Do(me, board, op, clock).effects == [] || Do(me, board, op, clock).board.IsOurs(me)
  {}
}
