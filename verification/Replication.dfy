/** The mesh as a whole: any number of honest machines, each with a clock of
    its own, exchanging clips over a network that loses, repeats and reorders
    whatever it likes. */
module Replication {
  import opened Basics
  import opened Stamps
  import opened Files
  import opened Copies
  import opened Boards
  import opened ClipServices

  /** What is on the machines and on the network. The last two fields record
      what has happened, for the properties to speak of. */
  datatype World = World(
    desks: map<Id, Desk>,
    wire: set<Clip>,              // every clip a pull was ever answered with
    minted: seq<Clip>,            // every clip made anywhere, as it was made
    seen: map<Id, set<Stamp>>)    // what each machine made, or was handed and did not refuse

  /** A machine asks for a clip whenever it likes, which covers every way the
      announcement of a head can be lost, repeated or late; and what a pull was
      answered with can arrive at any machine, at any later time, any number
      of times, or never. */
  datatype Action =
    | Local(at: Id, op: Op, clock: Clock)
    | Answer(at: Id)
    | Deliver(at: Id, clip: Clip, clock: Clock)
    | Reboot(at: Id, settings: Settings, clock: Clock)

  predicate Enabled(w: World, a: Action) {
    && a.at in w.desks && a.at in w.seen
    && (a.Local? ==> !a.op.AcceptOp?)
    && (a.Deliver? ==> a.clip in w.wire)
  }

  function Acted(desk: Desk, op: Op, clock: Clock): Desk {
    desk.Perform(Do(desk.me, desk.board, op, clock))
  }

  predicate Refused(desk: Desk, clip: Clip, clock: Clock) {
    desk.board.Accepting(desk.me, clip, clock).Err?
  }

  function Take(w: World, a: Action): World {
    if !Enabled(w, a) then w
    else
      var desk := w.desks[a.at];
      match a
      case Local(at, op, clock) =>
        var after := Acted(desk, op, clock);
        if Makes(desk.me, desk.board, op, clock) then
          World(w.desks[at := after], w.wire, w.minted + [after.board.clip.value],
                w.seen[at := w.seen[at] + {after.board.clip.value.stamp}])
        else w.(desks := w.desks[at := after])
      case Answer(at) =>
        if desk.board.clip.Some? then w.(wire := w.wire + {desk.board.clip.value}) else w
      case Deliver(at, clip, clock) =>
        if Refused(desk, clip, clock) then w
        else w.(desks := w.desks[at := Acted(desk, AcceptOp(clip), clock)],
                seen := w.seen[at := w.seen[at] + {clip.stamp}])
      case Reboot(at, settings, clock) =>
        w.(desks := w.desks[at := Open(Machine(at, settings), desk.disk, clock)])
  }

  predicate Initial(w: World) {
    && w.wire == {} && w.minted == [] && w.seen.Keys == w.desks.Keys
    && forall m :: m in w.desks ==>
         w.seen[m] == {} && w.desks[m].me.origin == m && w.desks[m].board == BLANK && w.desks[m].disk == None
  }

  function Run(w: World, actions: seq<Action>): World {
    if actions == [] then w
    else Take(Run(w, actions[..|actions| - 1]), actions[|actions| - 1])
  }

  // ------------------------------------------------------------ the invariant

  /** `clip` is the one `made` became on its way: itself, or emptied. */
  predicate Was(made: Clip, clip: Clip) {
    made.stamp == clip.stamp && (clip.copy == made.copy || clip.copy == None)
  }

  predicate Genuine(minted: seq<Clip>, clip: Clip) {
    exists i :: 0 <= i < |minted| && Was(minted[i], clip)
  }

  predicate DeskOk(m: Id, desk: Desk, minted: seq<Clip>) {
    && desk.me.origin == m
    && Coherent(desk.me, desk.board)
    && desk.disk == desk.board.Saved()
    && (desk.board.clip.Some? ==> Genuine(minted, desk.board.clip.value))
  }

  predicate StampsDiffer(minted: seq<Clip>) {
    forall i, j :: 0 <= i < j < |minted| ==> minted[i].stamp != minted[j].stamp
  }

  /** A clip made somewhere is not ahead of its maker. */
  predicate MadeBehind(desks: map<Id, Desk>, made: Clip) {
    && made.stamp.origin in desks
    && Le(Some(made.stamp), desks[made.stamp.origin].board.Head())
    && (made.copy.Some? ==> made.copy.value.Check())
  }

  predicate Inv(w: World) {
    && w.seen.Keys == w.desks.Keys
    && (forall m :: m in w.desks ==> DeskOk(m, w.desks[m], w.minted))
    && (forall clip :: clip in w.wire ==> Genuine(w.minted, clip))
    && StampsDiffer(w.minted)
    && (forall i :: 0 <= i < |w.minted| ==> MadeBehind(w.desks, w.minted[i]))
    && (forall m, s :: m in w.seen && s in w.seen[m] ==> Le(Some(s), w.desks[m].board.Head()))
  }

  lemma ReopenedBoard(me: Machine, before: Board, clock: Clock)
    requires before.Held().Some? ==> before.Held().value.Check()
    ensures var after := Resume(me, before.Saved(), clock);
            && after.Head() == before.Head()
            && (after.Held().Some? ==> after.Held() == before.Held() && !after.Held().value.secret)
            && (before.Held().Some? && !before.Held().value.secret && before.Held().value.ttl.None? ==>
                  after.Held() == before.Held())
  {}

  /** A reboot keeps the head, loses the copy of a secret, and keeps any other
      unless it ran out meanwhile. */
  lemma RebootsExactly(w: World, at: Id, settings: Settings, clock: Clock)
    requires Inv(w) && at in w.desks
    ensures var next := Take(w, Reboot(at, settings, clock));
            var before, after := w.desks[at].board, next.desks[at].board;
            && after.Head() == before.Head()
            && (after.Held().Some? ==> after.Held() == before.Held() && !after.Held().value.secret)
            && (before.Held().Some? && !before.Held().value.secret && before.Held().value.ttl.None? ==>
                  after.Held() == before.Held())
            && next == w.(desks := w.desks[at := next.desks[at]]) && next.desks[at].me == Machine(at, settings)
  {
    assert DeskOk(at, w.desks[at], w.minted);
    ReopenedBoard(Machine(at, settings), w.desks[at].board, clock);
    assert Take(w, Reboot(at, settings, clock))
        == w.(desks := w.desks[at := Open(Machine(at, settings), w.desks[at].disk, clock)]);
  }

  // ------------------------------------------------- what one machine's step does

  lemma ActedDesk(desk: Desk, op: Op, clock: Clock)
    requires Coherent(desk.me, desk.board) && desk.disk == desk.board.Saved()
    ensures var after := Acted(desk, op, clock);
            && after.me == desk.me
            && Coherent(after.me, after.board)
            && after.disk == after.board.Saved()
            && Le(desk.board.Head(), after.board.Head())
            && (Makes(desk.me, desk.board, op, clock) ==>
                  && after.board.clip.Some?
                  && after.board.clip.value.stamp == Next(desk.board.Head(), desk.me.origin, clock.stamp)
                  && (after.board.Held().Some? ==> after.board.Held().value.Check()))
            && (!op.AcceptOp? && !Makes(desk.me, desk.board, op, clock) ==>
                  SameOrEmptied(desk.board.clip, after.board.clip))
            && (op.AcceptOp? ==>
                  || SameOrEmptied(desk.board.clip, after.board.clip)
                  || SameOrEmptied(Some(op.clip), after.board.clip))
            && (op.AcceptOp? && !Refused(desk, op.clip, clock) ==> Le(Some(op.clip.stamp), after.board.Head()))
  {
    CoherentKept(desk.me, desk.board, op, clock);
    DoMovesTheClip(desk.me, desk.board, op, clock);
    HeadNeverGoesBack(desk.me, desk.board, op, clock);
    if op.AcceptOp? { OptionOrder(Some(op.clip.stamp), desk.board.Head()); }
  }

  lemma RebootedDesk(m: Id, desk: Desk, settings: Settings, clock: Clock)
    requires desk.me.origin == m && Coherent(desk.me, desk.board) && desk.disk == desk.board.Saved()
    ensures var after := Open(Machine(m, settings), desk.disk, clock);
            && Coherent(after.me, after.board)
            && after.disk == after.board.Saved()
            && SameOrEmptied(desk.board.clip, after.board.clip)
            && after.board.Head() == desk.board.Head()
  {
    ResumeIsCoherent(Machine(m, settings), desk.disk, clock);
  }

  lemma GenuineKept(minted: seq<Clip>, more: seq<Clip>, clip: Clip)
    requires Genuine(minted, clip)
    ensures Genuine(minted + more, clip)
    ensures Genuine(minted, Clip(clip.stamp, None))
  {
    var i :| 0 <= i < |minted| && Was(minted[i], clip);
    assert Was((minted + more)[i], clip);
    assert Was(minted[i], Clip(clip.stamp, None));
  }

  // ------------------------------------------------------- steps keep the invariant

  /** A machine's clip stays or empties, or becomes one on the wire. */
  lemma DeskReplaced(w: World, at: Id, after: Desk)
    requires Inv(w) && at in w.desks
    requires after.me.origin == at && Coherent(after.me, after.board) && after.disk == after.board.Saved()
    requires Le(w.desks[at].board.Head(), after.board.Head())
    requires after.board.clip.Some? ==> Genuine(w.minted, after.board.clip.value)
    ensures Inv(w.(desks := w.desks[at := after]))
  {
    var next := w.(desks := w.desks[at := after]);
    forall i | 0 <= i < |w.minted| ensures MadeBehind(next.desks, w.minted[i]) {
      HeadsAreOrdered(Some(w.minted[i].stamp), w.desks[at].board.Head(), after.board.Head());
    }
    forall m, s | m in next.seen && s in next.seen[m] ensures Le(Some(s), next.desks[m].board.Head()) {
      HeadsAreOrdered(Some(s), w.desks[at].board.Head(), after.board.Head());
    }
  }

  lemma EmptiedIsGenuine(w: World, before: Option<Clip>, after: Option<Clip>)
    requires before.Some? ==> Genuine(w.minted, before.value)
    requires SameOrEmptied(before, after)
    ensures after.Some? ==> Genuine(w.minted, after.value)
  {
    if before.Some? { GenuineKept(w.minted, [], before.value); }
  }

  /** Whatever its maker sees in a new clip's stamp, nobody has used it. */
  lemma NewStampIsNew(w: World, at: Id, stamp: Stamp)
    requires Inv(w) && at in w.desks && stamp.origin == at && Lt(w.desks[at].board.Head(), Some(stamp))
    ensures forall i :: 0 <= i < |w.minted| ==> w.minted[i].stamp != stamp
    ensures forall s :: s in w.seen[at] ==> Less(s, stamp)
  {
    var head := w.desks[at].board.Head();
    forall i | 0 <= i < |w.minted| ensures w.minted[i].stamp != stamp {
      assert MadeBehind(w.desks, w.minted[i]);
      OptionOrder(Some(w.minted[i].stamp), head);
    }
    forall s | s in w.seen[at] ensures Less(s, stamp) {
      HeadsAreOrdered(Some(s), head, Some(stamp));
    }
  }

  lemma ClipMade(w: World, at: Id, after: Desk)
    requires Inv(w) && at in w.desks
    requires after.me.origin == at && Coherent(after.me, after.board) && after.disk == after.board.Saved()
    requires after.board.clip.Some? && after.board.clip.value.stamp.origin == at
    requires Lt(w.desks[at].board.Head(), after.board.Head())
    requires after.board.Held().Some? ==> after.board.Held().value.Check()
    ensures Inv(World(w.desks[at := after], w.wire, w.minted + [after.board.clip.value],
                      w.seen[at := w.seen[at] + {after.board.clip.value.stamp}]))
  {
    var made := after.board.clip.value;
    var minted := w.minted + [made];
    var n := |w.minted|;
    NewStampIsNew(w, at, made.stamp);
    assert minted[n] == made && Was(minted[n], made);
    assert forall i :: 0 <= i < n ==> minted[i] == w.minted[i];
    var desks := w.desks[at := after];
    forall m | m in desks ensures DeskOk(m, desks[m], minted) {
      if m != at && desks[m].board.clip.Some? { GenuineKept(w.minted, [made], desks[m].board.clip.value); }
    }
    forall clip | clip in w.wire ensures Genuine(minted, clip) {
      GenuineKept(w.minted, [made], clip);
    }
    forall i | 0 <= i < |minted| ensures MadeBehind(desks, minted[i]) {
      if i < n {
        assert MadeBehind(w.desks, w.minted[i]);
        HeadsAreOrdered(Some(minted[i].stamp), w.desks[at].board.Head(), after.board.Head());
      }
    }
    var seen := w.seen[at := w.seen[at] + {made.stamp}];
    forall m, s | m in seen && s in seen[m] ensures Le(Some(s), desks[m].board.Head()) {
      if m == at && s != made.stamp { HeadsAreOrdered(Some(s), w.desks[at].board.Head(), after.board.Head()); }
    }
  }

  lemma LocalKeeps(w: World, at: Id, op: Op, clock: Clock)
    requires Inv(w) && Enabled(w, Local(at, op, clock))
    ensures Inv(Take(w, Local(at, op, clock)))
  {
    var desk := w.desks[at];
    var after := Acted(desk, op, clock);
    assert DeskOk(at, desk, w.minted);
    ActedDesk(desk, op, clock);
    if Makes(desk.me, desk.board, op, clock) {
      ClipMade(w, at, after);
    } else {
      EmptiedIsGenuine(w, desk.board.clip, after.board.clip);
      DeskReplaced(w, at, after);
    }
  }

  lemma SeenGrows(w: World, at: Id, stamp: Stamp)
    requires Inv(w) && at in w.desks && Le(Some(stamp), w.desks[at].board.Head())
    ensures Inv(w.(seen := w.seen[at := w.seen[at] + {stamp}]))
  {}

  lemma AcceptKeeps(w: World, at: Id, clip: Clip, clock: Clock)
    requires Inv(w) && Enabled(w, Deliver(at, clip, clock)) && !Refused(w.desks[at], clip, clock)
    ensures var after := Acted(w.desks[at], AcceptOp(clip), clock);
            Inv(w.(desks := w.desks[at := after])) && Le(Some(clip.stamp), after.board.Head())
  {
    var desk := w.desks[at];
    var after := Acted(desk, AcceptOp(clip), clock);
    assert DeskOk(at, desk, w.minted);
    ActedDesk(desk, AcceptOp(clip), clock);
    if SameOrEmptied(desk.board.clip, after.board.clip) {
      EmptiedIsGenuine(w, desk.board.clip, after.board.clip);
    } else {
      EmptiedIsGenuine(w, Some(clip), after.board.clip);
    }
    DeskReplaced(w, at, after);
  }

  lemma DeliverKeeps(w: World, at: Id, clip: Clip, clock: Clock)
    requires Inv(w) && Enabled(w, Deliver(at, clip, clock))
    ensures Inv(Take(w, Deliver(at, clip, clock)))
  {
    if !Refused(w.desks[at], clip, clock) {
      AcceptKeeps(w, at, clip, clock);
      SeenGrows(w.(desks := w.desks[at := Acted(w.desks[at], AcceptOp(clip), clock)]), at, clip.stamp);
    }
  }

  lemma TakeKeepsInv(w: World, a: Action)
    requires Inv(w)
    ensures Inv(Take(w, a))
  {
    if Enabled(w, a) {
      var desk := w.desks[a.at];
      assert DeskOk(a.at, desk, w.minted);
      match a
      case Local(at, op, clock) => LocalKeeps(w, at, op, clock);
      case Answer(at) =>
      case Deliver(at, clip, clock) => DeliverKeeps(w, at, clip, clock);
      case Reboot(at, settings, clock) =>
        var after := Open(Machine(at, settings), desk.disk, clock);
        RebootedDesk(at, desk, settings, clock);
        EmptiedIsGenuine(w, desk.board.clip, after.board.clip);
        DeskReplaced(w, at, after);
    }
  }

  lemma {:induction false} RunKeepsInv(w: World, actions: seq<Action>)
    requires Initial(w)
    ensures Inv(Run(w, actions))
  {
    if actions != [] {
      RunKeepsInv(w, actions[..|actions| - 1]);
      TakeKeepsInv(Run(w, actions[..|actions| - 1]), actions[|actions| - 1]);
    }
  }

  // ------------------------------------------------------------ the theorems

  /** No run ever makes two clips with one stamp. */
  lemma NoStampIsMintedTwice(w: World, actions: seq<Action>)
    requires Initial(w)
    ensures StampsDiffer(Run(w, actions).minted)
  {
    RunKeepsInv(w, actions);
  }

  /** A clip somewhere in the world: held, saved, or on its way. */
  predicate Somewhere(w: World, clip: Clip) {
    || clip in w.wire
    || (exists m :: m in w.desks && (w.desks[m].board.clip == Some(clip) || w.desks[m].disk == Some(clip)))
  }

  lemma EverythingIsGenuine(w: World, clip: Clip)
    requires Inv(w) && Somewhere(w, clip)
    ensures Genuine(w.minted, clip)
  {
    if clip !in w.wire {
      var m :| m in w.desks && (w.desks[m].board.clip == Some(clip) || w.desks[m].disk == Some(clip));
      assert DeskOk(m, w.desks[m], w.minted);
      GenuineKept(w.minted, [], w.desks[m].board.clip.value);
    }
  }

  /** Two clips anywhere with the same stamp carry the same copy, unless one of
      them has been emptied. */
  lemma EqualStampsAgree(w: World, actions: seq<Action>, a: Clip, b: Clip)
    requires Initial(w)
    requires Somewhere(Run(w, actions), a) && Somewhere(Run(w, actions), b) && a.stamp == b.stamp
    ensures a.copy == b.copy || a.copy == None || b.copy == None
  {
    var now := Run(w, actions);
    RunKeepsInv(w, actions);
    EverythingIsGenuine(now, a);
    EverythingIsGenuine(now, b);
    var i :| 0 <= i < |now.minted| && Was(now.minted[i], a);
    var j :| 0 <= j < |now.minted| && Was(now.minted[j], b);
    assert i == j;
  }

  /** A clip made on a machine comes after everything that machine ever made,
      held, or was handed and did not refuse. */
  lemma NewCopiesComeLast(w: World, actions: seq<Action>, at: Id, op: Op, clock: Clock)
    requires Initial(w)
    requires var now := Run(w, actions);
             && Enabled(now, Local(at, op, clock))
             && Makes(now.desks[at].me, now.desks[at].board, op, clock)
    ensures var now := Run(w, actions);
            var made := Take(now, Local(at, op, clock)).desks[at].board.clip;
            && made.Some?
            && made.value.stamp.origin == at
            && (forall s :: s in now.seen[at] ==> Less(s, made.value.stamp))
            && Lt(now.desks[at].board.Head(), Some(made.value.stamp))
  {
    var now := Run(w, actions);
    RunKeepsInv(w, actions);
    assert DeskOk(at, now.desks[at], now.minted);
    ActedDesk(now.desks[at], op, clock);
    NewStampIsNew(now, at, Take(now, Local(at, op, clock)).desks[at].board.clip.value.stamp);
  }

  /** No clip anywhere is ahead of the machine it says it comes from. */
  lemma NobodyIsAheadOfTheOrigin(w: World, actions: seq<Action>, clip: Clip)
    requires Initial(w) && Somewhere(Run(w, actions), clip)
    ensures var now := Run(w, actions);
            clip.stamp.origin in now.desks && Le(Some(clip.stamp), now.desks[clip.stamp.origin].board.Head())
  {
    var now := Run(w, actions);
    RunKeepsInv(w, actions);
    EverythingIsGenuine(now, clip);
    var i :| 0 <= i < |now.minted| && Was(now.minted[i], clip);
    assert MadeBehind(now.desks, now.minted[i]);
  }

  /** Between honest machines the only thing that refuses a clip is a clock:
      none is ever turned away for claiming to come from the receiver, or for
      what it carries. */
  lemma OnlyClocksRefuse(w: World, actions: seq<Action>, at: Id, clip: Clip, clock: Clock)
    requires Initial(w) && Enabled(Run(w, actions), Deliver(at, clip, clock))
    ensures var desk := Run(w, actions).desks[at];
            Refused(desk, clip, clock) <==>
              Lt(desk.board.Head(), Some(clip.stamp)) && !Plausible(clip.stamp, clock.stamp)
    ensures var desk := Run(w, actions).desks[at];
            Refused(desk, clip, clock) ==> desk.board.Accepting(desk.me, clip, clock) == Err(TooFarAhead)
  {
    var now := Run(w, actions);
    RunKeepsInv(w, actions);
    EverythingIsGenuine(now, clip);
    var i :| 0 <= i < |now.minted| && Was(now.minted[i], clip);
    assert MadeBehind(now.desks, now.minted[i]);
    assert DeskOk(at, now.desks[at], now.minted);
    OptionOrder(Some(clip.stamp), now.desks[at].board.Head());
  }

  // ------------------------------------------------------------ no overflow

  /** Every reading of every clock in a run is below `millis`. */
  predicate ClocksBelow(actions: seq<Action>, millis: nat) {
    forall a :: a in actions && !a.Answer? ==> WallMillis(a.clock.stamp) <= millis
  }

  predicate HeadsBelow(w: World, bound: nat) {
    forall m :: m in w.desks ==> HeadBelow(w.desks[m].board.Head(), bound)
  }

  predicate HeadBelow(head: Option<Stamp>, bound: nat) { head.Some? ==> head.value.millis <= bound }

  lemma HeadCreeps(desk: Desk, op: Op, clock: Clock, bound: nat)
    requires Coherent(desk.me, desk.board) && desk.disk == desk.board.Saved()
    requires HeadBelow(desk.board.Head(), bound) && WallMillis(clock.stamp) + MAX_DRIFT_MILLIS <= bound
    ensures HeadBelow(Acted(desk, op, clock).board.Head(), bound + 1)
  {
    DoMovesTheClip(desk.me, desk.board, op, clock);
  }

  lemma OneHeadCreeps(w: World, next: World, at: Id, bound: nat)
    requires HeadsBelow(w, bound) && at in w.desks && next.desks.Keys == w.desks.Keys
    requires forall m :: m in w.desks && m != at ==> next.desks[m] == w.desks[m]
    requires HeadBelow(next.desks[at].board.Head(), bound + 1)
    ensures HeadsBelow(next, bound + 1)
  {
    forall m | m in next.desks ensures HeadBelow(next.desks[m].board.Head(), bound + 1) {
      if m != at { assert HeadBelow(w.desks[m].board.Head(), bound); }
    }
  }

  lemma ActionCreeps(w: World, a: Action, bound: nat)
    requires Inv(w) && HeadsBelow(w, bound) && Enabled(w, a) && !a.Answer?
    requires WallMillis(a.clock.stamp) + MAX_DRIFT_MILLIS <= bound
    ensures HeadBelow(Take(w, a).desks[a.at].board.Head(), bound + 1)
  {
    var desk := w.desks[a.at];
    assert DeskOk(a.at, desk, w.minted) && HeadBelow(desk.board.Head(), bound);
    match a
    case Local(at, op, clock) => HeadCreeps(desk, op, clock, bound);
    case Deliver(at, clip, clock) => HeadCreeps(desk, AcceptOp(clip), clock, bound);
    case Reboot(at, settings, clock) => RebootedDesk(at, desk, settings, clock);
  }

  lemma StampsCreep(w: World, a: Action, bound: nat)
    requires Inv(w) && HeadsBelow(w, bound)
    requires !a.Answer? ==> WallMillis(a.clock.stamp) + MAX_DRIFT_MILLIS <= bound
    ensures HeadsBelow(Take(w, a), bound + 1)
  {
    if Enabled(w, a) && !a.Answer? {
      ActionCreeps(w, a, bound);
      OneHeadCreeps(w, Take(w, a), a.at, bound);
    }
  }

  /** Stamps stay near the clocks: a head is at most the drift, and one
      millisecond for each step taken, past the furthest clock. The 64 bits a
      stamp has are never used up by any run a clock can measure. */
  lemma {:induction false} StampsStayNearTheClocks(w: World, actions: seq<Action>, millis: nat)
    requires Initial(w) && ClocksBelow(actions, millis)
    ensures HeadsBelow(Run(w, actions), millis + MAX_DRIFT_MILLIS + |actions|)
  {
    if actions != [] {
      var n := |actions| - 1;
      assert forall a :: a in actions[..n] ==> a in actions;
      StampsStayNearTheClocks(w, actions[..n], millis);
      RunKeepsInv(w, actions[..n]);
      StampsCreep(Run(w, actions[..n]), actions[n], millis + MAX_DRIFT_MILLIS + n);
    }
  }

  // --------------------------------------------------------- what is newest

  /** A clock that has gone past the time of every clip made so far. */
  predicate PastEverything(w: World, now: int) {
    forall i :: 0 <= i < |w.minted| ==> (w.minted[i].stamp.millis + 1) * 1_000_000 <= now
  }

  lemma HeadsAreMinted(w: World, m: Id)
    requires Inv(w) && m in w.desks && w.desks[m].board.Head().Some?
    ensures exists i :: 0 <= i < |w.minted| && w.minted[i].stamp == w.desks[m].board.Head().value
  {
    assert DeskOk(m, w.desks[m], w.minted);
    var i :| 0 <= i < |w.minted| && Was(w.minted[i], w.desks[m].board.clip.value);
  }

  lemma MadeAt(me: Machine, board: Board, op: Op, clock: Clock)
    requires Makes(me, board, op, clock)
    ensures Do(me, board, op, clock).board.Head() == Some(Next(board.Head(), me.origin, clock.stamp))
  {
    DoMovesTheClip(me, board, op, clock);
  }

  /** What is copied, captured or cleared on a machine whose clock is past the
      time of everything made before is newer than all of that: it carries the
      time of that clock, and no machine anywhere has a head that is not behind
      it. */
  lemma TheLatestCopyIsTheNewest(w: World, actions: seq<Action>, at: Id, op: Op, clock: Clock)
    requires Initial(w)
    requires var now := Run(w, actions);
             && Enabled(now, Local(at, op, clock))
             && Makes(now.desks[at].me, now.desks[at].board, op, clock)
             && PastEverything(now, clock.stamp)
    ensures var now := Run(w, actions);
            var made := Take(now, Local(at, op, clock)).desks[at].board.clip;
            && made.Some? && made.value.stamp.origin == at
            && (0 <= clock.stamp ==>
                  made.value.stamp.millis * 1_000_000 <= clock.stamp < (made.value.stamp.millis + 1) * 1_000_000)
            && (forall i :: 0 <= i < |now.minted| ==> Less(now.minted[i].stamp, made.value.stamp))
            && (forall m :: m in now.desks ==> Lt(now.desks[m].board.Head(), Some(made.value.stamp)))
  {
    var now := Run(w, actions);
    var desk := now.desks[at];
    RunKeepsInv(w, actions);
    assert DeskOk(at, desk, now.minted);
    MadeAt(desk.me, desk.board, op, clock);
    var stamp := Next(desk.board.Head(), at, clock.stamp);
    WallMillisExactly(clock.stamp);
    NextReadsTheClock(desk.board.Head(), at, clock.stamp);
    if desk.board.Head().Some? { HeadsAreMinted(now, at); }
    forall m | m in now.desks ensures Lt(now.desks[m].board.Head(), Some(stamp)) {
      if now.desks[m].board.Head().Some? { HeadsAreMinted(now, m); }
    }
  }
}
