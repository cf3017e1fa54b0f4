/** Two machines that dial each other, and which of the connections they keep. */
module TieBreaks {
  import opened Basics

  /** A connection goes away because one side closes it, or because the network
      loses it. */
  datatype Status = Up | Closed | Lost

  datatype Conn = Conn(byLower: bool, status: Status)

  /** What a peer task is doing; connections are numbered as they are dialled. */
  datatype Task = Idle | Dialing(conn: nat) | Serving(conn: nat, outbound: bool)

  /** One of the two machines: whether its id is the lower one, the incoming
      connections its task has yet to take, and those on their way to it. */
  datatype Peer = Peer(lower: bool, task: Task, inbound: seq<nat>, transit: seq<nat>)

  datatype World = World(conns: seq<Conn>, low: Peer, high: Peer) {
    function Side(lower: bool): Peer { if lower then low else high }

    function With(lower: bool, peer: Peer): World {
      if lower then this.(low := peer) else this.(high := peer)
    }

    predicate Opened(c: nat) { c < |conns| && conns[c].status.Up? }
  }

  // ---------------------------------------------------------------- one task

  function Closing(conns: seq<Conn>, c: nat): (after: seq<Conn>)
    ensures |after| == |conns|
  {
    if c < |conns| && conns[c].status.Up? then conns[c := conns[c].(status := Closed)] else conns
  }

  /** There is a connection to take, and this is not the lower id in the middle
      of a dial. */
  predicate Takes(p: Peer) {
    p.inbound != [] && !(p.task.Dialing? && p.lower)
  }

  /** What becomes of the connections when a task takes the next incoming one:
      the lower id keeps the one it dialled and closes the new one, and
      everything else gives way to the new one. */
  function Taking(conns: seq<Conn>, p: Peer): (seq<Conn>, Peer)
    requires Takes(p)
  {
    var next, rest := p.inbound[0], p.(inbound := p.inbound[1..]);
    match p.task
    case Idle => (conns, rest.(task := Serving(next, false)))
    case Dialing(c) => (Closing(conns, c), rest.(task := Serving(next, false)))
    case Serving(c, outbound) =>
      if outbound && p.lower then (Closing(conns, next), rest)
      else (Closing(conns, c), rest.(task := Serving(next, false)))
  }

  /** The connections there are. */
  class Net {
    var conns: seq<Conn>

    constructor ()
      ensures conns == []
    {
      conns := [];
    }

    method Close(c: nat)
      modifies this
      ensures conns == Closing(old(conns), c)
    {
      if c < |conns| && conns[c].status.Up? {
        conns := conns[c := conns[c].(status := Closed)];
      }
    }
  }

  /** Keeps one machine connected to the other. */
  class PeerTask {
    const net: Net
    const lower: bool
    var task: Task
    var inbound: seq<nat>
    var transit: seq<nat>

    function Me(): Peer
      reads this
    {
      Peer(lower, task, inbound, transit)
    }

    constructor (net: Net, lower: bool)
      ensures this.net == net && Me() == Peer(lower, Idle, [], [])
    {
      this.net, this.lower, task, inbound, transit := net, lower, Idle, [], [];
    }

    /** An incoming connection while waiting, or while a dial is under way:
        dropping the dial closes what came of it. */
    method Adopt()
      requires Takes(Me()) && !task.Serving?
      modifies this, net
      ensures (net.conns, Me()) == Taking(old(net.conns), old(Me()))
    {
      if task.Dialing? { net.Close(task.conn); }
      task, inbound := Serving(inbound[0], false), inbound[1..];
    }

    /** An incoming connection while one is served. */
    method BreakTie()
      requires inbound != [] && task.Serving?
      modifies this, net
      ensures (net.conns, Me()) == Taking(old(net.conns), old(Me()))
    {
      var next := inbound[0];
      inbound := inbound[1..];
      if task.outbound && lower {
        net.Close(next);
      } else {
        net.Close(task.conn);
        task := Serving(next, false);
      }
    }
  }

  // --------------------------------------------------------------- both of them

  datatype Event =
    | Dial(lower: bool)
    | Connected(lower: bool)
    | DialFails(lower: bool)
    | Arrive(lower: bool)
    | Vanish(lower: bool, at: nat)
    | Take(lower: bool)
    | SeeClosed(lower: bool)
    | Lose(conn: nat)

  function Losing(conns: seq<Conn>, c: nat): (after: seq<Conn>)
    ensures |after| == |conns|
  {
    if c < |conns| && conns[c].status.Up? then conns[c := conns[c].(status := Lost)] else conns
  }

  /** What one event makes of both; one that cannot happen now, nothing. A
      connection can arrive as soon as it is dialled, in the order of the
      dials; only one that is gone may never arrive. */
  function Step(w: World, event: Event): World {
    match event
    case Dial(lower) =>
      var me, other := w.Side(lower), w.Side(!lower);
      if !me.task.Idle? then w
      else
        w.(conns := w.conns + [Conn(lower, Up)])
         .With(lower, me.(task := Dialing(|w.conns|)))
         .With(!lower, other.(transit := other.transit + [|w.conns|]))
    case Connected(lower) =>
      var me := w.Side(lower);
      if me.task.Dialing? then w.With(lower, me.(task := Serving(me.task.conn, true))) else w
    case DialFails(lower) =>
      var me := w.Side(lower);
      if me.task.Dialing? then w.(conns := Losing(w.conns, me.task.conn)).With(lower, me.(task := Idle)) else w
    case Arrive(lower) =>
      var me := w.Side(lower);
      if me.transit == [] then w
      else w.With(lower, me.(inbound := me.inbound + [me.transit[0]], transit := me.transit[1..]))
    case Vanish(lower, at) =>
      var me := w.Side(lower);
      if at < |me.transit| && !w.Opened(me.transit[at]) then
        w.With(lower, me.(transit := me.transit[..at] + me.transit[at + 1..]))
      else w
    case Take(lower) =>
      if Takes(w.Side(lower)) then
        var (conns, me) := Taking(w.conns, w.Side(lower));
        w.(conns := conns).With(lower, me)
      else w
    case SeeClosed(lower) =>
      var me := w.Side(lower);
      if me.task.Serving? && !w.Opened(me.task.conn) then w.With(lower, me.(task := Idle)) else w
    case Lose(c) => w.(conns := Losing(w.conns, c))
  }

  function Run(events: seq<Event>): World {
    if events == [] then World([], Peer(true, Idle, [], []), Peer(false, Idle, [], []))
    else Step(Run(events[..|events| - 1]), events[|events| - 1])
  }

  // ------------------------------------------------------------ the invariant

  /** The connection a task dialled and holds. */
  function Own(p: Peer): Option<nat> {
    match p.task
    case Idle => None
    case Dialing(c) => Some(c)
    case Serving(c, outbound) => if outbound then Some(c) else None
  }

  /** The other machine's connections, as far as this one still has to do with
      them: the one it serves, and those it is going to be offered. */
  function Line(p: Peer): seq<nat> {
    (match p.task
     case Serving(c, false) => [c]
     case _ => []) + p.inbound + p.transit
  }

  predicate Rising(line: seq<nat>) {
    forall i, j :: 0 <= i < j < |line| ==> line[i] < line[j]
  }

  /** The dials of one of the two, given the one it holds and what the other
      still has to do with: only the last can be up, and then it is held, and
      not missed. */
  predicate DialsOk(conns: seq<Conn>, lower: bool, own: Option<nat>, line: seq<nat>) {
    && (own.Some? ==>
          && own.value < |conns| && conns[own.value].byLower == lower
          && forall d :: own.value < d < |conns| ==> conns[d].byLower != lower)
    && (forall c :: 0 <= c < |conns| && conns[c].byLower == lower && conns[c].status.Up? ==>
          own == Some(c) && c in line)
    && (forall c :: c in line ==> c < |conns| && conns[c].byLower == lower)
    && Rising(line)
  }

  /** Nobody closes what the lower id dialled. */
  predicate LowerKept(conns: seq<Conn>) {
    forall c :: 0 <= c < |conns| && conns[c].byLower ==> !conns[c].status.Closed?
  }

  predicate Sound(w: World) {
    && w.low.lower && !w.high.lower
    && DialsOk(w.conns, true, Own(w.low), Line(w.high))
    && DialsOk(w.conns, false, Own(w.high), Line(w.low))
    && LowerKept(w.conns)
  }

  /** Connections going away, and machines letting go of those that have. */
  lemma FewerUp(
    conns: seq<Conn>, after: seq<Conn>, lower: bool,
    own: Option<nat>, owned: Option<nat>, line: seq<nat>, left: seq<nat>)
    requires DialsOk(conns, lower, own, line) && |after| == |conns| && Rising(left)
    requires forall c :: 0 <= c < |conns| ==>
               after[c].byLower == conns[c].byLower && (after[c].status.Up? ==> conns[c].status.Up?)
    requires owned == own || (owned.None? && (own.Some? ==> own.value < |after| && !after[own.value].status.Up?))
    requires forall c :: c in left ==> c in line
    requires forall c :: c in line && c < |after| && after[c].status.Up? ==> c in left
    ensures DialsOk(after, lower, owned, left)
  {}

  lemma OneMore(conns: seq<Conn>, lower: bool, line: seq<nat>)
    requires DialsOk(conns, lower, None, line)
    ensures DialsOk(conns + [Conn(lower, Up)], lower, Some(|conns|), line + [|conns|])
  {
    var after := line + [|conns|];
    forall i, j | 0 <= i < j < |after| ensures after[i] < after[j] { assert line[i] in line; }
  }

  lemma OneMoreOfTheOther(conns: seq<Conn>, lower: bool, own: Option<nat>, line: seq<nat>)
    requires DialsOk(conns, lower, own, line)
    ensures DialsOk(conns + [Conn(!lower, Up)], lower, own, line)
  {}

  lemma DialSound(w: World, lower: bool)
    requires Sound(w)
    ensures Sound(Step(w, Dial(lower)))
  {
    var after := Step(w, Dial(lower));
    if w.Side(lower).task.Idle? {
      assert Line(after.Side(!lower)) == Line(w.Side(!lower)) + [|w.conns|];
      assert Line(after.Side(lower)) == Line(w.Side(lower));
      OneMore(w.conns, lower, Line(w.Side(!lower)));
      OneMoreOfTheOther(w.conns, !lower, Own(w.Side(!lower)), Line(w.Side(lower)));
    }
  }

  lemma ConnectedSound(w: World, lower: bool)
    requires Sound(w)
    ensures Sound(Step(w, Connected(lower)))
  {
    assert Line(Step(w, Connected(lower)).Side(lower)) == Line(w.Side(lower));
  }

  lemma LoseSound(w: World, c: nat)
    requires Sound(w)
    ensures Sound(Step(w, Lose(c)))
  {
    var after := Losing(w.conns, c);
    FewerUp(w.conns, after, true, Own(w.low), Own(w.low), Line(w.high), Line(w.high));
    FewerUp(w.conns, after, false, Own(w.high), Own(w.high), Line(w.low), Line(w.low));
  }

  lemma DialFailsSound(w: World, lower: bool)
    requires Sound(w)
    ensures Sound(Step(w, DialFails(lower)))
  {
    var me, other, after := w.Side(lower), w.Side(!lower), Step(w, DialFails(lower));
    if me.task.Dialing? {
      assert Line(after.Side(lower)) == Line(me);
      FewerUp(w.conns, after.conns, lower, Own(me), None, Line(other), Line(other));
      FewerUp(w.conns, after.conns, !lower, Own(other), Own(other), Line(me), Line(me));
    }
  }

  lemma ArriveSound(w: World, lower: bool)
    requires Sound(w)
    ensures Sound(Step(w, Arrive(lower)))
  {
    var me := w.Side(lower);
    if me.transit != [] {
      assert me.inbound + me.transit == (me.inbound + [me.transit[0]]) + me.transit[1..];
      assert Line(Step(w, Arrive(lower)).Side(lower)) == Line(me);
    }
  }

  /** A line without one of its connections. */
  lemma LeavingTheLine(line: seq<nat>, at: nat)
    requires at < |line| && Rising(line)
    ensures var left := line[..at] + line[at + 1..];
            && Rising(left)
            && (forall d :: d in left ==> d in line)
            && (forall d :: d in line && d != line[at] ==> d in left)
  {
    var left := line[..at] + line[at + 1..];
    assert forall i :: 0 <= i < |left| ==> left[i] == if i < at then line[i] else line[i + 1];
    forall d | d in line && d != line[at] ensures d in left {
      var k :| 0 <= k < |line| && line[k] == d;
      assert left[if k < at then k else k - 1] == d;
    }
  }

  /** One machine losing sight of a connection of the other that is gone. */
  lemma LettingGo(w: World, lower: bool, at: nat, left: seq<nat>, after: World)
    requires Sound(w) && at < |Line(w.Side(lower))|
    requires !w.Opened(Line(w.Side(lower))[at])
    requires left == Line(w.Side(lower))[..at] + Line(w.Side(lower))[at + 1..]
    requires after.conns == w.conns && after.Side(!lower) == w.Side(!lower)
    requires after.Side(lower).lower == lower && Own(after.Side(lower)) == Own(w.Side(lower))
    requires Line(after.Side(lower)) == left
    ensures Sound(after)
  {
    LeavingTheLine(Line(w.Side(lower)), at);
    FewerUp(w.conns, w.conns, !lower, Own(w.Side(!lower)), Own(w.Side(!lower)), Line(w.Side(lower)), left);
  }

  lemma VanishSound(w: World, lower: bool, at: nat)
    requires Sound(w)
    ensures Sound(Step(w, Vanish(lower, at)))
  {
    var me, after := w.Side(lower), Step(w, Vanish(lower, at));
    if at < |me.transit| && !w.Opened(me.transit[at]) {
      var k := VanishingFrom(me, at);
      LettingGo(w, lower, k, Line(after.Side(lower)), after);
    }
  }

  /** One in transit is somewhere down the line. */
  lemma VanishingFrom(me: Peer, at: nat) returns (k: nat)
    requires at < |me.transit|
    ensures k < |Line(me)| && Line(me)[k] == me.transit[at]
    ensures Line(me.(transit := me.transit[..at] + me.transit[at + 1..])) == Line(me)[..k] + Line(me)[k + 1..]
  {
    var front := Line(me)[..|Line(me)| - |me.transit|];
    k := |front| + at;
    assert Line(me) == front + me.transit;
    assert Line(me.(transit := me.transit[..at] + me.transit[at + 1..]))
        == front + (me.transit[..at] + me.transit[at + 1..]);
  }

  lemma SeeClosedSound(w: World, lower: bool)
    requires Sound(w)
    ensures Sound(Step(w, SeeClosed(lower)))
  {
    var me, other, after := w.Side(lower), w.Side(!lower), Step(w, SeeClosed(lower));
    if me.task.Serving? && !w.Opened(me.task.conn) {
      if me.task.outbound {
        assert Line(after.Side(lower)) == Line(me);
        FewerUp(w.conns, w.conns, lower, Own(me), None, Line(other), Line(other));
      } else {
        assert Line(me)[0] == me.task.conn;
        assert Line(after.Side(lower)) == Line(me)[..0] + Line(me)[1..];
        LettingGo(w, lower, 0, Line(after.Side(lower)), after);
      }
    }
  }

  /** Taking a connection while waiting. */
  lemma AdoptingSound(w: World, lower: bool)
    requires Sound(w) && Takes(w.Side(lower)) && w.Side(lower).task.Idle?
    ensures Sound(Step(w, Take(lower)))
  {
    assert Line(Step(w, Take(lower)).Side(lower)) == Line(w.Side(lower));
  }

  /** Taking a connection in the place of one the higher id dialled. */
  lemma GivingUpOwnSound(w: World)
    requires Sound(w) && Takes(w.high) && Own(w.high).Some?
    ensures Sound(Step(w, Take(false)))
  {
    var me, after := w.high, Step(w, Take(false));
    assert Line(after.high) == Line(me);
    FewerUp(w.conns, after.conns, false, Own(me), None, Line(w.low), Line(w.low));
    FewerUp(w.conns, after.conns, true, Own(w.low), Own(w.low), Line(me), Line(me));
  }

  /** The lower id keeping the one it dialled. */
  lemma KeepingOwnSound(w: World)
    requires Sound(w) && Takes(w.low) && w.low.task.Serving? && w.low.task.outbound
    ensures Sound(Step(w, Take(true)))
  {
    var me, other, after := w.low, w.high, Step(w, Take(true));
    assert Line(me)[0] == me.inbound[0];
    assert Line(after.low) == Line(me)[..0] + Line(me)[1..];
    LeavingTheLine(Line(me), 0);
    FewerUp(w.conns, after.conns, true, Own(me), Own(me), Line(other), Line(other));
    FewerUp(w.conns, after.conns, false, Own(other), Own(other), Line(me), Line(after.low));
  }

  /** The higher id only serves one dial after another once the first is gone. */
  lemma EarlierDialIsGone(w: World)
    requires Sound(w) && w.high.inbound != [] && w.high.task.Serving? && !w.high.task.outbound
    ensures !w.Opened(w.high.task.conn)
  {
    var line := Line(w.high);
    assert line[0] == w.high.task.conn && line[1] == w.high.inbound[0];
    assert line[0] in line && line[1] in line;
  }

  /** Taking a connection in the place of an earlier one of the other machine. */
  lemma MovingOnSound(w: World, lower: bool)
    requires Sound(w) && Takes(w.Side(lower)) && w.Side(lower).task.Serving? && !w.Side(lower).task.outbound
    ensures Sound(Step(w, Take(lower)))
  {
    var me, other, after := w.Side(lower), w.Side(!lower), Step(w, Take(lower));
    if !lower { EarlierDialIsGone(w); }
    assert Line(me)[0] == me.task.conn;
    assert Line(me)[0] in Line(me);
    assert Line(after.Side(lower)) == Line(me)[..0] + Line(me)[1..];
    LeavingTheLine(Line(me), 0);
    FewerUp(w.conns, after.conns, lower, Own(me), Own(me), Line(other), Line(other));
    FewerUp(w.conns, after.conns, !lower, Own(other), Own(other), Line(me), Line(after.Side(lower)));
  }

  lemma StepSound(w: World, event: Event)
    requires Sound(w)
    ensures Sound(Step(w, event))
  {
    match event
    case Dial(lower) => DialSound(w, lower);
    case Connected(lower) => ConnectedSound(w, lower);
    case DialFails(lower) => DialFailsSound(w, lower);
    case Arrive(lower) => ArriveSound(w, lower);
    case Vanish(lower, at) => VanishSound(w, lower, at);
    case SeeClosed(lower) => SeeClosedSound(w, lower);
    case Lose(c) => LoseSound(w, c);
    case Take(lower) =>
      var me := w.Side(lower);
      if Takes(me) {
        if me.task.Serving? && !me.task.outbound {
          MovingOnSound(w, lower);
        } else if me.task.Serving? && lower {
          KeepingOwnSound(w);
        } else if me.task.Idle? {
          AdoptingSound(w, lower);
        } else {
          GivingUpOwnSound(w);
        }
      }
  }

  lemma NothingDialled()
    ensures Sound(World([], Peer(true, Idle, [], []), Peer(false, Idle, [], [])))
  {
    var (low, high) := (Peer(true, Idle, [], []), Peer(false, Idle, [], []));
    assert Line(low) == [] && Line(high) == [];
    assert DialsOk([], true, Own(low), []) && DialsOk([], false, Own(high), []);
  }

  lemma {:induction false} RunIsSound(events: seq<Event>)
    ensures Sound(Run(events))
  {
    if events == [] {
      NothingDialled();
    } else {
      var before, last := Run(events[..|events| - 1]), events[|events| - 1];
      RunIsSound(events[..|events| - 1]);
      StepSound(before, last);
      assert Run(events) == Step(before, last);
    }
  }

  // ------------------------------------------------------------ what it means

  /** However often the two dial each other, and whatever the network loses,
      neither side ever closes a connection the lower id dialled. */
  lemma LowerDialsAreNeverClosed(events: seq<Event>, c: nat)
    requires var w := Run(events); c < |w.conns| && w.conns[c].byLower
    ensures !Run(events).conns[c].status.Closed?
  {
    RunIsSound(events);
  }

  /** Nothing is left to happen but another loss. */
  predicate Quiet(w: World) {
    && w.low.inbound == [] && w.low.transit == [] && w.high.inbound == [] && w.high.transit == []
    && w.low.task.Serving? && w.high.task.Serving?
    && w.Opened(w.low.task.conn) && w.Opened(w.high.task.conn)
  }

  /** Once the dust has settled both serve one and the same connection, the
      only one still up: the lower id's, if one it dialled is. */
  lemma BothKeepTheSame(events: seq<Event>)
    requires Quiet(Run(events))
    ensures var w := Run(events);
            && w.low.task.conn == w.high.task.conn
            && w.low.task.outbound != w.high.task.outbound
            && forall c: nat :: w.Opened(c) ==> c == w.low.task.conn
  {
    RunIsSound(events);
    var w := Run(events);
    var low, high := w.low.task.conn, w.high.task.conn;
    assert Line(w.low) == if w.low.task.outbound then [] else [low];
    assert Line(w.high) == if w.high.task.outbound then [] else [high];
    if w.low.task.outbound { assert low in Line(w.high); } else { assert low in Line(w.low); }
    forall c: nat | w.Opened(c) ensures c == low {
      assert c in if w.conns[c].byLower then Line(w.high) else Line(w.low);
    }
  }

  /** Whether the lower id has a connection of its own that is up. */
  predicate Established(w: World, c: nat) {
    w.low.task == Serving(c, true) && w.Opened(c)
  }

  lemma EstablishedStays(w: World, event: Event, c: nat)
    requires Sound(w) && Established(w, c) && event != Lose(c)
    ensures Established(Step(w, event), c)
    ensures w.high.task == Serving(c, false) ==> Step(w, event).high.task == Serving(c, false)
  {
    assert c in Line(w.high);
    if event == Take(false) && w.high.inbound != [] {
      if w.high.task.Serving? && !w.high.task.outbound { EarlierDialIsGone(w); }
    }
  }

  /** So once it has one, it keeps that one for as long as the network does,
      whatever the other machine dials; and once both serve it, both do. */
  lemma {:induction false} EstablishedForGood(before: seq<Event>, more: seq<Event>, c: nat)
    requires Established(Run(before), c) && Lose(c) !in more
    ensures Established(Run(before + more), c)
    ensures Run(before).high.task == Serving(c, false) ==> Run(before + more).high.task == Serving(c, false)
    decreases |more|
  {
    if more == [] {
      assert before + more == before;
    } else {
      var last := |more| - 1;
      assert before + more == before + more[..last] + [more[last]];
      assert (before + more)[..|before + more| - 1] == before + more[..last];
      EstablishedForGood(before, more[..last], c);
      RunIsSound(before + more[..last]);
      EstablishedStays(Run(before + more[..last]), more[last], c);
    }
  }

  // --------------------------------------------------------- settling down

  function TaskWork(task: Task): nat {
    match task
    case Idle => 0
    case Dialing(_) => 2
    case Serving(_, _) => 1
  }

  /** What is left to happen while neither dials again. */
  function Work(w: World): nat {
    TaskWork(w.low.task) + TaskWork(w.high.task)
    + 2 * (|w.low.inbound| + |w.high.inbound|) + 3 * (|w.low.transit| + |w.high.transit|)
  }

  /** Every step but another dial or a loss brings both closer to the end. */
  lemma EveryStepSettles(w: World, event: Event)
    requires !event.Dial? && !event.Lose?
    ensures Step(w, event) == w || Work(Step(w, event)) < Work(w)
  {}

  /** Things that happen one after the other, none of them another dial or a
      loss. */
  predicate Settling(w: World, events: seq<Event>)
    decreases |events|
  {
    events == []
    || (!events[0].Dial? && !events[0].Lose? && Step(w, events[0]) != w && Settling(Step(w, events[0]), events[1..]))
  }

  function Going(w: World, events: seq<Event>): World
    decreases |events|
  {
    if events == [] then w else Going(Step(w, events[0]), events[1..])
  }

  /** Only so much can happen before another dial or a loss. */
  lemma {:induction false} SettlingEnds(w: World, events: seq<Event>)
    requires Settling(w, events)
    ensures |events| + Work(Going(w, events)) <= Work(w)
    decreases |events|
  {
    if events != [] {
      EveryStepSettles(w, events[0]);
      SettlingEnds(Step(w, events[0]), events[1..]);
    }
  }

  /** Nothing is left to happen but dials and losses. */
  ghost predicate Settled(w: World) {
    forall event: Event :: !event.Dial? && !event.Lose? ==> Step(w, event) == w
  }

  lemma NothingUnderWay(w: World, lower: bool)
    requires Settled(w)
    ensures w.Side(lower).transit == [] && !w.Side(lower).task.Dialing?
  {
    assert Step(w, Arrive(lower)) == w;
    assert Step(w, Connected(lower)) == w;
  }

  lemma NothingWaiting(w: World, lower: bool)
    requires Settled(w)
    ensures w.Side(lower).inbound == []
  {
    NothingUnderWay(w, lower);
    assert Step(w, Take(lower)) == w;
  }

  lemma NothingGone(w: World, lower: bool)
    requires Settled(w) && w.Side(lower).task.Serving?
    ensures w.Opened(w.Side(lower).task.conn)
  {
    assert Step(w, SeeClosed(lower)) == w;
  }

  /** Neither serves a connection the other knows nothing of. */
  lemma NobodyServesAlone(w: World, lower: bool)
    requires Sound(w) && w.Side(lower).task.Serving? && w.Opened(w.Side(lower).task.conn)
    requires w.Side(!lower).inbound == [] && w.Side(!lower).transit == []
    ensures !w.Side(!lower).task.Idle?
  {
    var me, other := w.Side(lower), w.Side(!lower);
    if me.task.outbound {
      assert me.task.conn in Line(other);
    } else {
      assert Line(me)[0] == me.task.conn;
      assert me.task.conn in Line(me);
      assert Own(other) == Some(me.task.conn);
    }
  }

  /** Where nothing but dials and losses is left to happen, either neither
      machine has anything to serve, or both serve the same. */
  lemma NothingLeftMeansQuiet(events: seq<Event>)
    requires Settled(Run(events))
    ensures var w := Run(events); (w.low.task.Idle? && w.high.task.Idle?) || Quiet(w)
  {
    var w := Run(events);
    RunIsSound(events);
    NothingUnderWay(w, true);
    NothingUnderWay(w, false);
    NothingWaiting(w, true);
    NothingWaiting(w, false);
    if w.low.task.Serving? {
      NothingGone(w, true);
      NobodyServesAlone(w, true);
    }
    if w.high.task.Serving? {
      NothingGone(w, false);
      NobodyServesAlone(w, false);
    }
  }

  lemma {:induction false} RunOn(events: seq<Event>, more: seq<Event>)
    ensures Run(events + more) == Going(Run(events), more)
    decreases |more|
  {
    if more == [] {
      assert events + more == events;
    } else {
      var one := events + [more[0]];
      assert one[..|one| - 1] == events;
      assert one + more[1..] == events + more;
      RunOn(one, more[1..]);
    }
  }

  lemma {:induction false} SettlesSomehow(w: World) returns (more: seq<Event>)
    ensures Settling(w, more) && Settled(Going(w, more))
    decreases Work(w)
  {
    more := [];
    if !Settled(w) {
      var event: Event :| !event.Dial? && !event.Lose? && Step(w, event) != w;
      EveryStepSettles(w, event);
      var rest := SettlesSomehow(Step(w, event));
      more := [event] + rest;
      assert more[1..] == rest;
    }
  }

  /** Whatever two machines went through, left alone they settle: no more can
      happen than is left to, and once it has, either neither serves anything
      and no connection is up, or both serve one and the same, the only one up. */
  lemma LeftAloneTheySettle(events: seq<Event>) returns (more: seq<Event>)
    ensures Settling(Run(events), more) && Settled(Run(events + more))
    ensures forall others :: Settling(Run(events), others) ==> |others| <= Work(Run(events))
    ensures var w := Run(events + more);
            || (w.low.task.Idle? && w.high.task.Idle? && forall c: nat :: !w.Opened(c))
            || (Quiet(w) && w.low.task.conn == w.high.task.conn
                && forall c: nat :: w.Opened(c) ==> c == w.low.task.conn)
  {
    more := SettlesSomehow(Run(events));
    RunOn(events, more);
    forall others | Settling(Run(events), others) ensures |others| <= Work(Run(events)) {
      SettlingEnds(Run(events), others);
    }
    NothingLeftMeansQuiet(events + more);
    RunIsSound(events + more);
    if Quiet(Run(events + more)) { BothKeepTheSame(events + more); }
  }

  // --------------------------------------------- what taking a connection does

  /** The connections after one of them was closed, if it was up. */
  predicate OnlyClosed(before: seq<Conn>, after: seq<Conn>, c: Option<nat>) {
    && |after| == |before|
    && forall d :: 0 <= d < |before| ==>
         && after[d].byLower == before[d].byLower
         && after[d].status == if c == Some(d) && before[d].status.Up? then Closed else before[d].status
  }

  function ConnOf(task: Task): Option<nat> {
    match task
    case Idle => None
    case Dialing(c) => Some(c)
    case Serving(c, _) => Some(c)
  }

  /** The machine with the higher id takes what comes in at once, whatever it
      is doing, and closes the connection it dialled or served before. */
  lemma TheHigherGivesWay(w: World)
    requires Sound(w) && w.high.inbound != []
    ensures var after := Step(w, Take(false));
            && after.high == Peer(false, Serving(w.high.inbound[0], false), w.high.inbound[1..], w.high.transit)
            && after.low == w.low && OnlyClosed(w.conns, after.conns, ConnOf(w.high.task))
  {}

  /** The one with the lower id finishes its dial first; once it serves a
      connection of its own it keeps that, and closes what comes in; and
      otherwise it takes what comes in, in the place of what it served. */
  lemma TheLowerKeepsItsOwn(w: World)
    requires Sound(w) && w.low.inbound != []
    ensures var next, after := w.low.inbound[0], Step(w, Take(true));
            && after.high == w.high
            && match w.low.task
               case Dialing(_) => after == w
               case Idle =>
                 && after.low == Peer(true, Serving(next, false), w.low.inbound[1..], w.low.transit)
                 && OnlyClosed(w.conns, after.conns, None)
               case Serving(c, true) =>
                 && after.low == Peer(true, Serving(c, true), w.low.inbound[1..], w.low.transit)
                 && OnlyClosed(w.conns, after.conns, Some(next))
               case Serving(c, false) =>
                 && after.low == Peer(true, Serving(next, false), w.low.inbound[1..], w.low.transit)
                 && OnlyClosed(w.conns, after.conns, Some(c))
  {}
}
