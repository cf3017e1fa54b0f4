/** Once copying stops, the machines settle on one clip. */
module Convergence {
  import opened Basics
  import opened Stamps
  import opened Copies
  import opened Boards
  import opened ClipServices
  import opened Replication

  // ------------------------------------------------- adopting is progress

  function MintedStamps(w: World): set<Stamp> { set clip | clip in w.minted :: clip.stamp }

  function HeadOf(w: World, m: Id): Option<Stamp>
    requires m in w.desks
  {
    w.desks[m].board.Head()
  }

  /** The stamps a machine has yet to see. */
  function Ahead(stamps: set<Stamp>, head: Option<Stamp>): set<Stamp> {
    set s | s in stamps && Lt(head, Some(s))
  }

  /** How far the machines are from knowing every stamp, all together. */
  function Distance(w: World, stamps: set<Stamp>, ids: seq<Id>): nat
    requires forall m :: m in ids ==> m in w.desks
  {
    if ids == [] then 0 else |Ahead(stamps, HeadOf(w, ids[0]))| + Distance(w, stamps, ids[1..])
  }

  ghost predicate Lists(ids: seq<Id>, w: World) {
    && (forall m :: m in ids <==> m in w.desks)
    && (forall i, j :: 0 <= i < j < |ids| ==> ids[i] != ids[j])
  }

  /** A step that makes no clip. */
  predicate Quiet(w: World, a: Action) {
    a.Local? && Enabled(w, a) ==> !Makes(w.desks[a.at].me, w.desks[a.at].board, a.op, a.clock)
  }

  predicate Adopting(w: World, a: Action) {
    Enabled(w, a) && HeadOf(Take(w, a), a.at) != HeadOf(w, a.at)
  }

  lemma QuietDesk(desk: Desk, op: Op, clock: Clock)
    requires Coherent(desk.me, desk.board) && desk.disk == desk.board.Saved()
    requires !Makes(desk.me, desk.board, op, clock)
    ensures var before, after := desk.board.Head(), Acted(desk, op, clock).board.Head();
            && Le(before, after)
            && (after != before ==> op.AcceptOp? && after == Some(op.clip.stamp))
  {
    ActedDesk(desk, op, clock);
  }

  /** What a step that mints nothing leaves, and whom it can move where. */
  ghost predicate GoesQuietly(w: World, a: Action) {
    var next := Take(w, a);
    && next.minted == w.minted && next.desks.Keys == w.desks.Keys
    && (forall m :: m in w.desks && m != a.at ==> next.desks[m] == w.desks[m])
    && (a.at in w.desks ==> Le(HeadOf(w, a.at), HeadOf(next, a.at)))
    && (Adopting(w, a) ==> a.Deliver? && HeadOf(next, a.at) == Some(a.clip.stamp) && a.clip.stamp in MintedStamps(w))
    && (a.at in w.desks && !Adopting(w, a) ==> HeadOf(next, a.at) == HeadOf(w, a.at))
  }

  lemma WireStampIsMinted(w: World, clip: Clip)
    requires Inv(w) && clip in w.wire
    ensures clip.stamp in MintedStamps(w)
  {
    var i :| 0 <= i < |w.minted| && Was(w.minted[i], clip);
    assert w.minted[i] in w.minted;
  }

  /** A step that changes one desk, and moves its head only to a clip that was
      delivered there. */
  lemma OneDeskMoves(w: World, a: Action, after: Desk)
    requires Enabled(w, a)
    requires Take(w, a).minted == w.minted && Take(w, a).desks == w.desks[a.at := after]
    requires Le(HeadOf(w, a.at), after.board.Head())
    requires after.board.Head() != HeadOf(w, a.at) ==>
               a.Deliver? && after.board.Head() == Some(a.clip.stamp) && a.clip.stamp in MintedStamps(w)
    ensures GoesQuietly(w, a)
  {
    assert w.desks[a.at := after].Keys == w.desks.Keys;
  }

  /** What a delivery leaves of the desk it is made to. */
  function Handed(desk: Desk, clip: Clip, clock: Clock): Desk {
    if Refused(desk, clip, clock) then desk else Acted(desk, AcceptOp(clip), clock)
  }

  lemma HandedOver(w: World, at: Id, clip: Clip, clock: Clock)
    requires Enabled(w, Deliver(at, clip, clock))
    ensures var next := Take(w, Deliver(at, clip, clock));
            next.minted == w.minted && next.desks == w.desks[at := Handed(w.desks[at], clip, clock)]
  {
    assert w.desks[at := w.desks[at]] == w.desks;
  }

  lemma QuietDelivery(w: World, at: Id, clip: Clip, clock: Clock)
    requires Inv(w) && Enabled(w, Deliver(at, clip, clock))
    ensures GoesQuietly(w, Deliver(at, clip, clock))
  {
    var desk := w.desks[at];
    assert DeskOk(at, desk, w.minted);
    WireStampIsMinted(w, clip);
    if !Refused(desk, clip, clock) { QuietDesk(desk, AcceptOp(clip), clock); }
    HandedOver(w, at, clip, clock);
    OneDeskMoves(w, Deliver(at, clip, clock), Handed(desk, clip, clock));
  }

  lemma QuietChange(w: World, at: Id, op: Op, clock: Clock)
    requires Inv(w) && Quiet(w, Local(at, op, clock)) && Enabled(w, Local(at, op, clock))
    ensures GoesQuietly(w, Local(at, op, clock))
  {
    var desk := w.desks[at];
    assert DeskOk(at, desk, w.minted);
    QuietDesk(desk, op, clock);
    OneDeskMoves(w, Local(at, op, clock), Acted(desk, op, clock));
  }

  lemma QuietReboot(w: World, at: Id, settings: Settings, clock: Clock)
    requires Inv(w) && Enabled(w, Reboot(at, settings, clock))
    ensures GoesQuietly(w, Reboot(at, settings, clock))
  {
    var desk := w.desks[at];
    assert DeskOk(at, desk, w.minted);
    RebootedDesk(at, desk, settings, clock);
    OneDeskMoves(w, Reboot(at, settings, clock), Open(Machine(at, settings), desk.disk, clock));
  }

  lemma QuietStep(w: World, a: Action)
    requires Inv(w) && Quiet(w, a)
    ensures GoesQuietly(w, a)
  {
    if Enabled(w, a) {
      match a
      case Local(at, op, clock) => QuietChange(w, at, op, clock);
      case Answer(at) =>
      case Deliver(at, clip, clock) => QuietDelivery(w, at, clip, clock);
      case Reboot(at, settings, clock) => QuietReboot(w, at, settings, clock);
    }
  }

  lemma AheadShrinks(stamps: set<Stamp>, before: Option<Stamp>, after: Option<Stamp>)
    requires Lt(before, after) && after.value in stamps
    ensures |Ahead(stamps, after)| < |Ahead(stamps, before)|
  {
    forall s | s in Ahead(stamps, after) ensures s in Ahead(stamps, before) {
      HeadsAreOrdered(before, after, Some(s));
    }
    OrderIsTotal(after.value, after.value, after.value);
    assert after.value in Ahead(stamps, before) - Ahead(stamps, after);
    SmallerSet(Ahead(stamps, after), Ahead(stamps, before), after.value);
  }

  lemma SmallerSet<T>(small: set<T>, large: set<T>, x: T)
    requires small <= large && x in large && x !in small
    ensures |small| < |large|
  {
    assert |large - small| + |small| == |large| by {
      assert (large - small) + small == large && (large - small) !! small;
    }
    assert large - small != {};
  }

  lemma {:induction false} DistanceSame(w: World, next: World, stamps: set<Stamp>, ids: seq<Id>)
    requires forall m :: m in ids ==> m in w.desks && m in next.desks && HeadOf(next, m) == HeadOf(w, m)
    ensures Distance(next, stamps, ids) == Distance(w, stamps, ids)
  {
    if ids != [] {
      assert ids[0] in ids;
      assert forall m :: m in ids[1..] ==> m in ids;
      DistanceSame(w, next, stamps, ids[1..]);
    }
  }

  lemma {:induction false} DistanceDrops(w: World, next: World, stamps: set<Stamp>, ids: seq<Id>, at: Id)
    requires at in ids && forall i, j :: 0 <= i < j < |ids| ==> ids[i] != ids[j]
    requires forall m :: m in ids ==> m in w.desks && m in next.desks
    requires forall m :: m in ids && m != at ==> HeadOf(next, m) == HeadOf(w, m)
    requires Lt(HeadOf(w, at), HeadOf(next, at)) && HeadOf(next, at).value in stamps
    ensures Distance(next, stamps, ids) < Distance(w, stamps, ids)
  {
    assert forall m :: m in ids[1..] ==> m in ids;
    if ids[0] == at {
      AheadShrinks(stamps, HeadOf(w, at), HeadOf(next, at));
      DistanceSame(w, next, stamps, ids[1..]);
    } else {
      assert ids[0] in ids;
      DistanceDrops(w, next, stamps, ids[1..], at);
    }
  }

  /** Every adopted clip brings the mesh closer, and nothing else that happens
      without copying takes it further away. */
  lemma AdoptingLowersTheDistance(w: World, a: Action, ids: seq<Id>)
    requires Inv(w) && Quiet(w, a) && Lists(ids, w)
    ensures Lists(ids, Take(w, a)) && MintedStamps(Take(w, a)) == MintedStamps(w)
    ensures var before, after := Distance(w, MintedStamps(w), ids), Distance(Take(w, a), MintedStamps(w), ids);
            if Adopting(w, a) then after < before else after == before
  {
    QuietStep(w, a);
    if Adopting(w, a) {
      DistanceDrops(w, Take(w, a), MintedStamps(w), ids, a.at);
    } else {
      DistanceSame(w, Take(w, a), MintedStamps(w), ids);
    }
  }

  predicate QuietRun(w: World, actions: seq<Action>) {
    forall i :: 0 <= i < |actions| ==> Quiet(Run(w, actions[..i]), actions[i])
  }

  function Adoptions(w: World, actions: seq<Action>): nat {
    if actions == [] then 0
    else
      var n := |actions| - 1;
      Adoptions(w, actions[..n]) + if Adopting(Run(w, actions[..n]), actions[n]) then 1 else 0
  }

  /** Without new copies only so many clips are ever adopted, however long the
      mesh goes on talking. */
  lemma {:induction false} AdoptionsRunOut(w: World, actions: seq<Action>, ids: seq<Id>)
    requires Inv(w) && QuietRun(w, actions) && Lists(ids, w)
    ensures var last := Run(w, actions);
            && Inv(last) && Lists(ids, last) && MintedStamps(last) == MintedStamps(w)
            && Adoptions(w, actions) + Distance(last, MintedStamps(w), ids) <= Distance(w, MintedStamps(w), ids)
  {
    if actions != [] {
      var n := |actions| - 1;
      var shorter := actions[..n];
      forall i | 0 <= i < n ensures Quiet(Run(w, shorter[..i]), shorter[i]) {
        assert shorter[..i] == actions[..i];
      }
      AdoptionsRunOut(w, shorter, ids);
      AdoptingLowersTheDistance(Run(w, shorter), actions[n], ids);
      TakeKeepsInv(Run(w, shorter), actions[n]);
    }
  }

  // ------------------------------------------------- where it comes to rest

  /** `at` would pull from `from`: it has something newer, near enough. */
  predicate Wants(w: World, at: Id, from: Id, now: int)
    requires at in w.desks && from in w.desks
  {
    Lt(HeadOf(w, at), HeadOf(w, from)) && Plausible(HeadOf(w, from).value, now)
  }

  predicate PathIn(links: set<(Id, Id)>, path: seq<Id>) {
    && path != []
    && forall i :: 0 <= i < |path| - 1 ==> (path[i], path[i + 1]) in links || (path[i + 1], path[i]) in links
  }

  /** Connected machines, none of which would pull from one it is connected
      to, and whose clocks are within the drift of what they are told. */
  ghost predicate AtRest(w: World, links: set<(Id, Id)>, clocks: map<Id, int>) {
    forall m, n :: (m, n) in links || (n, m) in links ==>
      && m in w.desks && n in w.desks && m in clocks
      && !Wants(w, m, n, clocks[m])
      && (HeadOf(w, n).Some? ==> Plausible(HeadOf(w, n).value, clocks[m]))
  }

  /** At rest, everyone within reach has the same head. */
  lemma {:induction false} RestMeansAgreement(w: World, links: set<(Id, Id)>, clocks: map<Id, int>, path: seq<Id>)
    requires AtRest(w, links, clocks) && PathIn(links, path) && |path| > 1
    ensures path[0] in w.desks && path[|path| - 1] in w.desks
    ensures HeadOf(w, path[0]) == HeadOf(w, path[|path| - 1])
  {
    assert (path[0], path[1]) in links || (path[1], path[0]) in links;
    OptionOrder(HeadOf(w, path[0]), HeadOf(w, path[1]));
    OptionOrder(HeadOf(w, path[1]), HeadOf(w, path[0]));
    if |path| > 2 {
      var rest := path[1..];
      assert forall i :: 0 <= i < |rest| ==> rest[i] == path[i + 1];
      RestMeansAgreement(w, links, clocks, rest);
    }
  }

  /** Every two machines are within reach of each other. */
  ghost predicate Connected(w: World, links: set<(Id, Id)>) {
    forall m, n :: m in w.desks && n in w.desks && m != n ==> Reaches(links, m, n)
  }

  ghost predicate Reaches(links: set<(Id, Id)>, m: Id, n: Id) {
    exists path :: PathIn(links, path) && |path| > 1 && path[0] == m && path[|path| - 1] == n
  }

  /** A head is the newest clip there is: one that was made somewhere, after
      every other; or nothing, where nothing was ever made. */
  predicate IsNewestMade(w: World, head: Option<Stamp>) {
    && (head.Some? ==> head.value in MintedStamps(w))
    && (forall s :: s in MintedStamps(w) ==> Le(Some(s), head))
  }

  lemma HeadsWereMade(w: World, m: Id)
    requires Inv(w) && m in w.desks && HeadOf(w, m).Some?
    ensures HeadOf(w, m).value in MintedStamps(w)
  {
    assert DeskOk(m, w.desks[m], w.minted);
    var i :| 0 <= i < |w.minted| && Was(w.minted[i], w.desks[m].board.clip.value);
    assert w.minted[i] in w.minted;
  }

  /** At rest, no copy is lost: everyone connected has the newest clip that was
      ever made on any machine. */
  lemma RestIsTheNewest(w: World, links: set<(Id, Id)>, clocks: map<Id, int>, m: Id)
    requires Inv(w) && AtRest(w, links, clocks) && Connected(w, links) && m in w.desks
    ensures IsNewestMade(w, HeadOf(w, m))
  {
    if HeadOf(w, m).Some? { HeadsWereMade(w, m); }
    forall s | s in MintedStamps(w) ensures Le(Some(s), HeadOf(w, m)) {
      var made :| made in w.minted && made.stamp == s;
      var i :| 0 <= i < |w.minted| && w.minted[i] == made;
      assert MadeBehind(w.desks, w.minted[i]);
      if s.origin != m {
        assert Reaches(links, s.origin, m);
        var path :| PathIn(links, path) && |path| > 1 && path[0] == s.origin && path[|path| - 1] == m;
        RestMeansAgreement(w, links, clocks, path);
      }
    }
  }

  /** A newer clip that is believed and fits becomes the head. */
  lemma AcceptedIsHead(desk: Desk, clip: Clip, clock: Clock)
    requires Lt(desk.board.Head(), Some(clip.stamp)) && Plausible(clip.stamp, clock.stamp)
    requires clip.stamp.origin != desk.me.origin && (clip.copy.Some? ==> clip.copy.value.Check())
    ensures !Refused(desk, clip, clock) && Acted(desk, AcceptOp(clip), clock).board.Head() == Some(clip.stamp)
  {
    OptionOrder(Some(clip.stamp), desk.board.Head());
  }

  lemma DeliveredIsHead(w: World, at: Id, clip: Clip, clock: Clock)
    requires Inv(w) && Enabled(w, Deliver(at, clip, clock))
    requires Lt(HeadOf(w, at), Some(clip.stamp)) && Plausible(clip.stamp, clock.stamp)
    ensures Adopting(w, Deliver(at, clip, clock))
    ensures HeadOf(Take(w, Deliver(at, clip, clock)), at) == Some(clip.stamp)
  {
    assert DeskOk(at, w.desks[at], w.minted);
    var i :| 0 <= i < |w.minted| && Was(w.minted[i], clip);
    assert MadeBehind(w.desks, w.minted[i]);
    AcceptedIsHead(w.desks[at], clip, clock);
    OrderIsTotal(clip.stamp, clip.stamp, clip.stamp);
  }

  /** Short of that, some pull is possible and it works: the machine behind
      asks, is answered, and ends up with the other's head. */
  lemma PullingWorks(w: World, at: Id, from: Id, clock: Clock)
    requires Inv(w) && at in w.desks && from in w.desks && Wants(w, at, from, clock.stamp)
    ensures var asked := Take(w, Answer(from));
            var clip := w.desks[from].board.clip.value;
            && Enabled(asked, Deliver(at, clip, clock))
            && Adopting(asked, Deliver(at, clip, clock))
            && HeadOf(Take(asked, Deliver(at, clip, clock)), at) == HeadOf(w, from)
  {
    TakeKeepsInv(w, Answer(from));
    DeliveredIsHead(Take(w, Answer(from)), at, w.desks[from].board.clip.value, clock);
  }

  // ------------------------------------------------- any order, any number of times

  datatype Delivery = Delivery(clip: Clip, clock: Clock)

  function AcceptAll(me: Machine, board: Board, deliveries: seq<Delivery>): Board {
    if deliveries == [] then board
    else
      var n := |deliveries| - 1;
      var last := deliveries[n];
      Do(me, AcceptAll(me, board, deliveries[..n]), AcceptOp(last.clip), last.clock).board
  }

  /** What an honest peer sends, arriving while the clocks agree: a clip of
      another machine, or one of this machine's own, which is no newer than
      the head `start` it had before any of them. */
  predicate Acceptable(me: Machine, start: Option<Stamp>, d: Delivery) {
    || Le(Some(d.clip.stamp), start)
    || (d.clip.stamp.origin != me.origin
        && Plausible(d.clip.stamp, d.clock.stamp)
        && (d.clip.copy.Some? ==> d.clip.copy.value.Check()))
  }

  predicate AllAcceptable(me: Machine, start: Option<Stamp>, deliveries: seq<Delivery>) {
    forall d :: d in deliveries ==> Acceptable(me, start, d)
  }

  function StampsIn(deliveries: seq<Delivery>): set<Stamp> { set d | d in deliveries :: d.clip.stamp }

  /** The newest of what was there and what was delivered. */
  predicate IsNewest(start: Option<Stamp>, stamps: set<Stamp>, head: Option<Stamp>) {
    && (head == start || (head.Some? && head.value in stamps))
    && Le(start, head)
    && forall s :: s in stamps ==> Le(Some(s), head)
  }

  /** The clip is one of the two it could be, itself or emptied. */
  predicate ComesFrom(start: Option<Clip>, deliveries: seq<Delivery>, clip: Option<Clip>) {
    SameOrEmptied(start, clip) || (exists d :: d in deliveries && SameOrEmptied(Some(d.clip), clip))
  }

  lemma AcceptOne(me: Machine, start: Option<Stamp>, board: Board, d: Delivery)
    requires Acceptable(me, start, d) && Le(start, board.Head())
    ensures var after := Do(me, board, AcceptOp(d.clip), d.clock).board;
            if Lt(board.Head(), Some(d.clip.stamp)) then SameOrEmptied(Some(d.clip), after.clip)
            else after == board && Le(Some(d.clip.stamp), board.Head())
  {
    OptionOrder(Some(d.clip.stamp), board.Head());
    HeadsAreOrdered(Some(d.clip.stamp), start, board.Head());
  }

  lemma {:induction false} AcceptAllTakesTheNewest(me: Machine, board: Board, deliveries: seq<Delivery>)
    requires AllAcceptable(me, board.Head(), deliveries)
    ensures IsNewest(board.Head(), StampsIn(deliveries), AcceptAll(me, board, deliveries).Head())
    ensures ComesFrom(board.clip, deliveries, AcceptAll(me, board, deliveries).clip)
  {
    if deliveries != [] {
      var n := |deliveries| - 1;
      var before := deliveries[..n];
      var d := deliveries[n];
      var middle := AcceptAll(me, board, before);
      var after := AcceptAll(me, board, deliveries);
      AcceptAllTakesTheNewest(me, board, before);
      AcceptOne(me, board.Head(), middle, d);
      assert deliveries == before + [d];
      assert StampsIn(deliveries) == StampsIn(before) + {d.clip.stamp};
      HeadsAreOrdered(board.Head(), middle.Head(), after.Head());
      forall s | s in StampsIn(deliveries) ensures Le(Some(s), after.Head()) {
        if s in StampsIn(before) { HeadsAreOrdered(Some(s), middle.Head(), after.Head()); }
      }
      if after.clip == middle.clip && !SameOrEmptied(board.clip, middle.clip) {
        var e :| e in before && SameOrEmptied(Some(e.clip), middle.clip);
        assert e in deliveries;
      } else {
        assert d in deliveries;
      }
    }
  }

  predicate Agreeing(clips: set<Clip>) {
    forall a, b :: a in clips && b in clips && a.stamp == b.stamp ==>
      a.copy == b.copy || a.copy == None || b.copy == None
  }

  function ClipsIn(board: Board, deliveries: seq<Delivery>): set<Clip> {
    (if board.clip.Some? then {board.clip.value} else {}) + set d | d in deliveries :: d.clip
  }

  predicate EqualUpToExpiry(a: Option<Clip>, b: Option<Clip>) {
    || a == b
    || (a.Some? && b.Some? && a.value.stamp == b.value.stamp
        && (a.value.copy == b.value.copy || a.value.copy == None || b.value.copy == None))
  }

  lemma ComesFromClips(board: Board, deliveries: seq<Delivery>, clip: Clip)
    requires ComesFrom(board.clip, deliveries, Some(clip))
    ensures exists source :: source in ClipsIn(board, deliveries) && Was(source, clip)
  {
    if SameOrEmptied(board.clip, Some(clip)) {
      assert board.clip.value in ClipsIn(board, deliveries) && Was(board.clip.value, clip);
    } else {
      var d :| d in deliveries && SameOrEmptied(Some(d.clip), Some(clip));
      assert d.clip in ClipsIn(board, deliveries) && Was(d.clip, clip);
    }
  }

  /** Two machines handed the same stamps, in any order and any number of
      times, end with the same head, and with the same copy unless its
      lifetime took it from one of them. */
  lemma OrderDoesNotMatter(me: Machine, board: Board, one: seq<Delivery>, two: seq<Delivery>)
    requires AllAcceptable(me, board.Head(), one) && AllAcceptable(me, board.Head(), two)
    requires StampsIn(one) == StampsIn(two)
    requires Agreeing(ClipsIn(board, one) + ClipsIn(board, two))
    ensures AcceptAll(me, board, one).Head() == AcceptAll(me, board, two).Head()
    ensures EqualUpToExpiry(AcceptAll(me, board, one).clip, AcceptAll(me, board, two).clip)
  {
    var a, b := AcceptAll(me, board, one), AcceptAll(me, board, two);
    AcceptAllTakesTheNewest(me, board, one);
    AcceptAllTakesTheNewest(me, board, two);
    OptionOrder(a.Head(), b.Head());
    if a.Head().Some? && b.Head().Some? { OrderIsTotal(a.Head().value, b.Head().value, a.Head().value); }
    if a.clip.Some? && b.clip.Some? {
      ComesFromClips(board, one, a.clip.value);
      ComesFromClips(board, two, b.clip.value);
    }
  }

  predicate Lasting(deliveries: seq<Delivery>, stamp: Stamp, copy: Copy) {
    forall d :: d in deliveries && d.clip.stamp == stamp ==> d.clip.copy == Some(copy)
  }

  lemma {:induction false} LastingCopyLands(me: Machine, board: Board, deliveries: seq<Delivery>, copy: Copy)
    requires AllAcceptable(me, board.Head(), deliveries)
    requires var head := AcceptAll(me, board, deliveries).Head();
             head.Some? && head != board.Head() && Lasting(deliveries, head.value, copy) && copy.ttl.None?
    ensures AcceptAll(me, board, deliveries).Held() == Some(copy)
  {
    var n := |deliveries| - 1;
    var before, d := deliveries[..n], deliveries[n];
    var middle := AcceptAll(me, board, before);
    assert deliveries == before + [d];
    AcceptAllTakesTheNewest(me, board, before);
    AcceptOne(me, board.Head(), middle, d);
    if Lt(middle.Head(), Some(d.clip.stamp)) {
      assert d in deliveries;
    } else {
      LastingCopyLands(me, board, before, copy);
    }
  }

  /** A copy without a lifetime ends up on both, whole. */
  lemma LastingCopiesAreEqual(me: Machine, board: Board, one: seq<Delivery>, two: seq<Delivery>, copy: Copy)
    requires AllAcceptable(me, board.Head(), one) && AllAcceptable(me, board.Head(), two)
    requires StampsIn(one) == StampsIn(two)
    requires var head := AcceptAll(me, board, one).Head();
             && head.Some? && head != board.Head() && copy.ttl.None?
             && Lasting(one, head.value, copy) && Lasting(two, head.value, copy)
    ensures AcceptAll(me, board, one).clip == AcceptAll(me, board, two).clip
    ensures AcceptAll(me, board, two).Held() == Some(copy)
  {
    var a, b := AcceptAll(me, board, one), AcceptAll(me, board, two);
    AcceptAllTakesTheNewest(me, board, one);
    AcceptAllTakesTheNewest(me, board, two);
    OptionOrder(a.Head(), b.Head());
    if a.Head().Some? && b.Head().Some? { OrderIsTotal(a.Head().value, b.Head().value, a.Head().value); }
    LastingCopyLands(me, board, one, copy);
    LastingCopyLands(me, board, two, copy);
  }
}
