/** Machines telling each other who is in the mesh, over time. */
module Gossip {
  import opened Basics
  import opened Stamps
  import opened Membership

  type Meshes = map<Id, Mesh>

  /** One thing that happens: machine `to` merges the state `from` held after
      the first `at` steps, as old as it likes; or a machine registers another
      one, or retires it. */
  datatype Step =
    | Tell(from: Id, to: Id, at: nat)
    | Add(who: Id, id: Id, name: Bytes)
    | Remove(who: Id, id: Id)

  /** What a local change makes of a state; one that is refused, nothing. */
  function Changed(peers: Mesh, step: Step): Mesh
    requires !step.Tell?
  {
    var next := if step.Add? then Adding(peers, step.id, step.name) else Removing(peers, step.id);
    if next.Ok? then next.value else peers
  }

  ghost function After(start: Meshes, steps: seq<Step>): Meshes
    decreases |steps|
  {
    if steps == [] then start
    else
      var n := |steps| - 1;
      var before := After(start, steps[..n]);
      match steps[n]
      case Tell(from, to, at) =>
        var sent := After(start, steps[..Min(at, n)]);
        if from in sent && to in before then before[to := Merged(before[to], sent[from], to)] else before
      case Add(who, _, _) => if who in before then before[who := Changed(before[who], steps[n])] else before
      case Remove(who, _) => if who in before then before[who := Changed(before[who], steps[n])] else before
  }

  /** What a machine registers or retires is in its own state from then on, and
      nobody else's changes until they are told. */
  lemma ChangesAreLocal(start: Meshes, steps: seq<Step>, step: Step)
    requires !step.Tell? && step.who in After(start, steps)
    ensures var before, after := After(start, steps), After(start, steps + [step]);
            var change := if step.Add? then Adding(before[step.who], step.id, step.name)
                          else Removing(before[step.who], step.id);
            after == before[step.who := if change.Ok? then change.value else before[step.who]]
  {
    assert (steps + [step])[..|steps|] == steps;
  }

  /** What a machine is told is what the other one held at some earlier time. */
  lemma ToldAsHeld(start: Meshes, steps: seq<Step>, from: Id, to: Id, at: nat)
    requires at <= |steps| && from in After(start, steps[..at]) && to in After(start, steps)
    ensures var before, sent := After(start, steps), After(start, steps[..at])[from];
            After(start, steps + [Tell(from, to, at)]) == before[to := Merged(before[to], sent, to)]
  {
    assert (steps + [Tell(from, to, at)])[..|steps|] == steps;
    assert (steps + [Tell(from, to, at)])[..at] == steps[..at];
  }

  /** Every id anyone knows of, or registers, fits under the cap. */
  ghost predicate AllFit(start: Meshes, steps: seq<Step>, ids: set<Id>) {
    && Fits(ids)
    && (forall m :: m in start ==> start[m].Keys <= ids)
    && (forall step :: step in steps && step.Add? ==> step.id in ids)
  }

  ghost predicate Within(meshes: Meshes, ids: set<Id>) {
    forall m :: m in meshes ==> meshes[m].Keys <= ids
  }

  ghost function RecordOf(start: Meshes, steps: seq<Step>, m: Id, x: Id): Option<Peer> {
    var now := After(start, steps);
    if m in now then Get(now[m], x) else None
  }

  lemma FewerSteps(start: Meshes, steps: seq<Step>, ids: set<Id>, n: nat)
    requires AllFit(start, steps, ids) && n <= |steps|
    ensures AllFit(start, steps[..n], ids)
  {
    assert forall step :: step in steps[..n] ==> step in steps;
  }

  lemma {:induction false} KeysStay(start: Meshes, steps: seq<Step>, ids: set<Id>)
    requires AllFit(start, steps, ids)
    ensures Within(After(start, steps), ids) && After(start, steps).Keys == start.Keys
    decreases |steps|
  {
    if steps != [] {
      var n := |steps| - 1;
      var before := After(start, steps[..n]);
      FewerSteps(start, steps, ids, n);
      KeysStay(start, steps[..n], ids);
      assert steps[n] in steps;
      match steps[n]
      case Tell(from, to, at) =>
        var sent := After(start, steps[..Min(at, n)]);
        FewerSteps(start, steps, ids, Min(at, n));
        KeysStay(start, steps[..Min(at, n)], ids);
        if from in sent && to in before { MergeIsPointwise(before[to], sent[from], to, ids, 0); }
      case Add(_, _, _) =>
      case Remove(_, _) =>
    }
  }

  /** What one message does to what its receiver knows of `x`. */
  lemma OneMessage(start: Meshes, steps: seq<Step>, ids: set<Id>, m: Id, x: Id)
    requires AllFit(start, steps, ids) && steps != [] && steps[|steps| - 1].Tell?
    ensures var n := |steps| - 1;
            var before := RecordOf(start, steps[..n], m, x);
            var told := RecordOf(start, steps[..Min(steps[n].at, n)], steps[n].from, x);
            RecordOf(start, steps, m, x) ==
              if m == steps[n].to && m in start && steps[n].from in start
                 && m != x && told.Some? && Valid(told.value)
              then
                Best(before, told)
              else before
  {
    var n := |steps| - 1;
    var (from, to, past) := (steps[n].from, steps[n].to, Min(steps[n].at, n));
    FewerSteps(start, steps, ids, n);
    FewerSteps(start, steps, ids, past);
    KeysStay(start, steps[..n], ids);
    KeysStay(start, steps[..past], ids);
    if to in start && from in start {
      MergeIsPointwise(After(start, steps[..n])[to], After(start, steps[..past])[from], to, ids, x);
    }
  }

  // --------------------------------------------------------- what it comes to

  /** Nobody changes the record of `x` here; it is only talked about. */
  predicate Unchanged(steps: seq<Step>, x: Id) {
    forall i :: 0 <= i < |steps| ==> steps[i].Tell? || steps[i].id != x
  }

  lemma LocalChangesElsewhere(start: Meshes, steps: seq<Step>, m: Id, x: Id)
    requires steps != [] && !steps[|steps| - 1].Tell? && steps[|steps| - 1].id != x
    ensures RecordOf(start, steps, m, x) == RecordOf(start, steps[..|steps| - 1], m, x)
  {}

  /** The best valid record of `x` anyone starts with. */
  ghost predicate IsTop(start: Meshes, x: Id, top: Peer) {
    Valid(top) && forall m :: m in start && x in start[m] && Valid(start[m][x]) ==> !Outranks(start[m][x], top)
  }

  /** A machine hears of the best record unless it holds one that outranks it,
      which can only be one that others refuse; and nobody is told about
      itself. */
  ghost predicate Hears(start: Meshes, m: Id, x: Id, top: Peer) {
    m in start && m != x && (x in start[m] ==> !Outranks(start[m][x], top))
  }

  /** Nothing valid beats the best record; anything else a machine holds is
      what it started with. */
  ghost predicate Bounded(start: Meshes, m: Id, x: Id, top: Peer, record: Option<Peer>) {
    || (record.Some? && Valid(record.value) && !Outranks(record.value, top))
    || (m in start && record == Get(start[m], x))
    || record == None
  }

  lemma {:induction false} StaysBounded(start: Meshes, steps: seq<Step>, ids: set<Id>, m: Id, x: Id, top: Peer)
    requires AllFit(start, steps, ids) && Unchanged(steps, x) && IsTop(start, x, top)
    ensures Bounded(start, m, x, top, RecordOf(start, steps, m, x))
    decreases |steps|
  {
    if steps != [] {
      var n := |steps| - 1;
      FewerSteps(start, steps, ids, n);
      StaysBounded(start, steps[..n], ids, m, x, top);
      if steps[n].Tell? {
        var past := Min(steps[n].at, n);
        OneMessage(start, steps, ids, m, x);
        FewerSteps(start, steps, ids, past);
        StaysBounded(start, steps[..past], ids, steps[n].from, x, top);
      } else {
        LocalChangesElsewhere(start, steps, m, x);
      }
    }
  }

  /** What is told and believed never beats the best record. */
  lemma ToldIsBounded(start: Meshes, steps: seq<Step>, ids: set<Id>, x: Id, top: Peer)
    requires AllFit(start, steps, ids) && Unchanged(steps, x) && IsTop(start, x, top)
    requires steps != [] && steps[|steps| - 1].Tell?
    ensures var last := steps[|steps| - 1];
            var told := RecordOf(start, steps[..Min(last.at, |steps| - 1)], last.from, x);
            told.Some? && Valid(told.value) ==> !Outranks(told.value, top)
  {
    var last := steps[|steps| - 1];
    var past := Min(last.at, |steps| - 1);
    FewerSteps(start, steps, ids, past);
    StaysBounded(start, steps[..past], ids, last.from, x, top);
  }

  /** A machine whose record nothing valid beats keeps it: the best one, or
      one better that nobody believes. */
  lemma {:induction false} RecordIsKept(
    start: Meshes, steps: seq<Step>, ids: set<Id>, m: Id, x: Id, top: Peer, held: Peer, since: nat)
    requires AllFit(start, steps, ids) && Unchanged(steps, x) && IsTop(start, x, top)
    requires held == top || Outranks(held, top)
    requires since <= |steps| && RecordOf(start, steps[..since], m, x) == Some(held)
    ensures RecordOf(start, steps, m, x) == Some(held)
    decreases |steps|
  {
    var n := |steps| - 1;
    if since == |steps| {
      assert steps[..since] == steps;
    } else {
      assert steps[..n][..since] == steps[..since];
      FewerSteps(start, steps, ids, n);
      RecordIsKept(start, steps[..n], ids, m, x, top, held, since);
      if steps[n].Tell? {
        OneMessage(start, steps, ids, m, x);
        ToldIsBounded(start, steps, ids, x, top);
        var told := RecordOf(start, steps[..Min(steps[n].at, n)], steps[n].from, x);
        if told.Some? { RankIsTotal(told.value, held, top); RankIsTotal(held, top, told.value); }
      } else {
        LocalChangesElsewhere(start, steps, m, x);
      }
    }
  }

  /** Between steps `b` and `e`, `to` merged something `from` held since `b`. */
  ghost predicate Told(steps: seq<Step>, from: Id, to: Id, b: nat, e: nat) {
    exists j :: b <= j < e && j < |steps| && TellsSince(steps[j], from, to, b, j)
  }

  predicate TellsSince(step: Step, from: Id, to: Id, b: nat, j: nat) {
    step.Tell? && step.from == from && step.to == to && b <= step.at <= j
  }

  /** A machine that hears holds nothing the best record does not beat. */
  lemma HearingIsOpen(start: Meshes, steps: seq<Step>, ids: set<Id>, m: Id, x: Id, top: Peer)
    requires AllFit(start, steps, ids) && Unchanged(steps, x) && IsTop(start, x, top) && Hears(start, m, x, top)
    ensures Best(RecordOf(start, steps, m, x), Some(top)) == Some(top)
  {
    StaysBounded(start, steps, ids, m, x, top);
    var held := RecordOf(start, steps, m, x);
    if held.Some? { RankIsTotal(held.value, top, top); }
  }

  /** Merging what a machine that has the best record says is having it. */
  lemma TopIsHeard(start: Meshes, steps: seq<Step>, ids: set<Id>, x: Id, top: Peer, b: nat)
    requires AllFit(start, steps, ids) && Unchanged(steps, x) && IsTop(start, x, top) && steps != []
    requires var last := steps[|steps| - 1];
             && last.Tell? && Hears(start, last.to, x, top) && last.from in start && b <= last.at < |steps|
             && RecordOf(start, steps[..b], last.from, x) == Some(top)
    ensures RecordOf(start, steps, steps[|steps| - 1].to, x) == Some(top)
  {
    var n := |steps| - 1;
    var last := steps[n];
    assert steps[..last.at][..b] == steps[..b];
    FewerSteps(start, steps, ids, last.at);
    FewerSteps(start, steps, ids, n);
    RecordIsKept(start, steps[..last.at], ids, last.from, x, top, top, b);
    OneMessage(start, steps, ids, last.to, x);
    HearingIsOpen(start, steps[..n], ids, last.to, x, top);
  }

  /** Being told by a machine that has the best record is having it. */
  lemma TopIsPassedOn(
    start: Meshes, steps: seq<Step>, ids: set<Id>, from: Id, to: Id, x: Id, top: Peer, b: nat, e: nat)
    requires AllFit(start, steps, ids) && Unchanged(steps, x) && IsTop(start, x, top)
    requires Hears(start, to, x, top) && from in start
    requires b <= e <= |steps| && Told(steps, from, to, b, e)
    requires RecordOf(start, steps[..b], from, x) == Some(top)
    ensures RecordOf(start, steps[..e], to, x) == Some(top)
  {
    var j :| b <= j < e && j < |steps| && TellsSince(steps[j], from, to, b, j);
    var done := steps[..j + 1];
    assert done[..b] == steps[..b];
    FewerSteps(start, steps, ids, j + 1);
    TopIsHeard(start, done, ids, x, top, b);
    assert steps[..e][..j + 1] == done;
    FewerSteps(start, steps, ids, e);
    RecordIsKept(start, steps[..e], ids, to, x, top, top, j + 1);
  }

  /** A way from `path[0]` over the links, through machines that hear. */
  ghost predicate Route(start: Meshes, links: set<(Id, Id)>, x: Id, top: Peer, path: seq<Id>) {
    && path != [] && path[0] in start
    && (forall i :: 0 <= i < |path| - 1 ==> (path[i], path[i + 1]) in links)
    && (forall i :: 1 <= i < |path| ==> Hears(start, path[i], x, top))
  }

  /** Fair gossip: `bounds` cuts the steps into rounds, and in each of them
      every link carries something as recent as the round. */
  ghost predicate Rounds(steps: seq<Step>, links: set<(Id, Id)>, bounds: seq<nat>) {
    && bounds != []
    && (forall k :: 0 <= k < |bounds| ==> bounds[k] <= |steps|)
    && (forall k, u, v :: 0 <= k < |bounds| - 1 && (u, v) in links ==>
          bounds[k] <= bounds[k + 1] && Told(steps, u, v, bounds[k], bounds[k + 1]))
  }

  lemma {:induction false} TopTravels(
    start: Meshes, steps: seq<Step>, ids: set<Id>, links: set<(Id, Id)>, x: Id, top: Peer,
    path: seq<Id>, bounds: seq<nat>, k: nat)
    requires AllFit(start, steps, ids) && Unchanged(steps, x) && IsTop(start, x, top)
    requires Route(start, links, x, top, path) && Rounds(steps, links, bounds)
    requires k < |path| && k < |bounds|
    requires Get(start[path[0]], x) == Some(top)
    ensures RecordOf(start, steps[..bounds[k]], path[k], x) == Some(top)
  {
    if k == 0 {
      assert steps[..bounds[0]][..0] == [];
      FewerSteps(start, steps, ids, bounds[0]);
      RecordIsKept(start, steps[..bounds[0]], ids, path[0], x, top, top, 0);
    } else {
      TopTravels(start, steps, ids, links, x, top, path, bounds, k - 1);
      assert (path[k - 1], path[k]) in links;
      TopIsPassedOn(start, steps, ids, path[k - 1], path[k], x, top, bounds[k - 1], bounds[k]);
    }
  }

  /** Gossip converges. For each machine `x`, as long as everything known fits
      under the cap, and whatever is changed about the others meanwhile:
      whoever can be reached from a holder of the highest-ranked valid record
      of `x`, through machines that hear, ends up with that record after as
      many rounds as there are hops to it, and keeps it. */
  lemma GossipConverges(
    start: Meshes, steps: seq<Step>, ids: set<Id>, links: set<(Id, Id)>, x: Id, top: Peer,
    path: seq<Id>, bounds: seq<nat>)
    requires AllFit(start, steps, ids) && Unchanged(steps, x) && IsTop(start, x, top)
    requires Route(start, links, x, top, path) && Rounds(steps, links, bounds)
    requires |path| <= |bounds|
    requires Get(start[path[0]], x) == Some(top)
    ensures RecordOf(start, steps, path[|path| - 1], x) == Some(top)
  {
    var k := |path| - 1;
    TopTravels(start, steps, ids, links, x, top, path, bounds, k);
    RecordIsKept(start, steps, ids, path[k], x, top, top, bounds[k]);
  }

  /** A machine that does not hear never does: it holds, for good, the record
      it started with. */
  lemma RefusedRecordsStay(start: Meshes, steps: seq<Step>, ids: set<Id>, m: Id, x: Id, top: Peer)
    requires AllFit(start, steps, ids) && Unchanged(steps, x) && IsTop(start, x, top)
    requires m in start && m != x && !Hears(start, m, x, top)
    ensures RecordOf(start, steps, m, x) == Get(start[m], x)
    ensures RecordOf(start, steps, m, x) != Some(top) && !Valid(start[m][x])
  {
    assert steps[..0] == [];
    RecordIsKept(start, steps, ids, m, x, top, start[m][x], 0);
    RankIsTotal(top, top, top);
  }

  /** So a machine linked to one that ends up with the best record converges
      exactly when it held nothing that outranks it. */
  lemma ConvergesIfItHears(
    start: Meshes, steps: seq<Step>, ids: set<Id>, links: set<(Id, Id)>, x: Id, top: Peer,
    path: seq<Id>, bounds: seq<nat>, m: Id)
    requires AllFit(start, steps, ids) && Unchanged(steps, x) && IsTop(start, x, top)
    requires Route(start, links, x, top, path) && Rounds(steps, links, bounds)
    requires |path| < |bounds| && Get(start[path[0]], x) == Some(top)
    requires (path[|path| - 1], m) in links && m in start && m != x
    ensures RecordOf(start, steps, m, x) == Some(top) <==> (x in start[m] ==> !Outranks(start[m][x], top))
  {
    if Hears(start, m, x, top) {
      GossipConverges(start, steps, ids, links, x, top, path + [m], bounds);
    } else {
      RefusedRecordsStay(start, steps, ids, m, x, top);
    }
  }

  /** Nobody ever comes to hold anything better, so what they converge on is
      the best there was. */
  lemma NothingBetterAppears(start: Meshes, steps: seq<Step>, ids: set<Id>, m: Id, x: Id, top: Peer)
    requires AllFit(start, steps, ids) && Unchanged(steps, x) && IsTop(start, x, top) && m in start
    ensures var held := RecordOf(start, steps, m, x);
            held != Get(start[m], x) ==> held.Some? && Valid(held.value) && !Outranks(held.value, top)
  {
    StaysBounded(start, steps, ids, m, x, top);
    NobodyForgets(start, steps, m, x);
  }

  // --------------------------------------------------- changes made meanwhile

  lemma ChangeRaises(before: Mesh, step: Step, x: Id)
    requires !step.Tell?
    ensures x in before ==> x in Changed(before, step) && !Outranks(before[x], Changed(before, step)[x])
  {
    if x in before { RankIsTotal(before[x], before[x], before[x]); }
  }

  lemma LastStepRaises(start: Meshes, steps: seq<Step>, m: Id, x: Id)
    requires steps != [] && m in After(start, steps[..|steps| - 1])
    ensures m in After(start, steps)
    ensures var before, now := After(start, steps[..|steps| - 1])[m], After(start, steps)[m];
            x in before ==> x in now && !Outranks(before[x], now[x])
  {
    var n := |steps| - 1;
    var before := After(start, steps[..n])[m];
    match steps[n]
    case Tell(from, to, at) =>
      var sent := After(start, steps[..Min(at, n)]);
      if from in sent && to == m { MergeIsSafe(before, sent[from], m); }
      if x in before { RankIsTotal(before[x], before[x], before[x]); }
    case Add(_, _, _) => ChangeRaises(before, steps[n], x); RaisedByNothing(before, x);
    case Remove(_, _) => ChangeRaises(before, steps[n], x); RaisedByNothing(before, x);
  }

  lemma RaisedByNothing(before: Mesh, x: Id)
    ensures x in before ==> !Outranks(before[x], before[x])
  {
    if x in before { RankIsTotal(before[x], before[x], before[x]); }
  }

  lemma RaisedTwice(earlier: Mesh, before: Mesh, now: Mesh, x: Id)
    requires x in earlier ==> x in before && !Outranks(earlier[x], before[x])
    requires x in before ==> x in now && !Outranks(before[x], now[x])
    ensures x in earlier ==> x in now && !Outranks(earlier[x], now[x])
  {
    if x in earlier { RankIsTotal(now[x], before[x], earlier[x]); }
  }

  /** What a machine held about `x` at any time never outranks what it holds
      later, whatever it was told and changed itself, at the cap as below it. */
  lemma {:induction false} RecordsOnlyRise(start: Meshes, steps: seq<Step>, m: Id, x: Id, since: nat)
    requires since <= |steps| && m in start
    ensures m in After(start, steps[..since]) && m in After(start, steps)
    ensures var earlier, now := After(start, steps[..since])[m], After(start, steps)[m];
            x in earlier ==> x in now && !Outranks(earlier[x], now[x])
    decreases |steps|
  {
    if since == |steps| {
      assert steps[..since] == steps;
      StartsKnown(start, steps, m);
      RaisedByNothing(After(start, steps)[m], x);
    } else {
      var shorter := steps[..|steps| - 1];
      assert shorter[..since] == steps[..since];
      RecordsOnlyRise(start, shorter, m, x, since);
      LastStepRaises(start, steps, m, x);
      RaisedTwice(After(start, steps[..since])[m], After(start, shorter)[m], After(start, steps)[m], x);
    }
  }

  lemma {:induction false} StartsKnown(start: Meshes, steps: seq<Step>, m: Id)
    requires m in start
    ensures m in After(start, steps)
    decreases |steps|
  {
    if steps != [] { StartsKnown(start, steps[..|steps| - 1], m); }
  }

  lemma NobodyForgets(start: Meshes, steps: seq<Step>, m: Id, x: Id)
    requires m in start
    ensures Get(start[m], x).Some? ==> RecordOf(start, steps, m, x).Some?
  {
    assert steps[..0] == [];
    RecordsOnlyRise(start, steps, m, x, 0);
  }

  /** A removal beats every record of the machine its author ever held, through
      whatever it was told, registered and retired before, so it beats
      whatever gossip the author had taken in. */
  lemma RemovalBeatsAllSeen(start: Meshes, steps: seq<Step>, author: Id, x: Id, since: nat)
    requires since <= |steps| && author in start
    requires author in After(start, steps) && Removing(After(start, steps)[author], x).Ok?
    ensures author in After(start, steps[..since])
    ensures var tombstone := Removing(After(start, steps)[author], x).value[x];
            var seen := After(start, steps[..since])[author];
            Valid(tombstone) && (x in seen ==> Outranks(tombstone, seen[x]))
  {
    RecordsOnlyRise(start, steps, author, x, since);
    var now := After(start, steps)[author];
    var tombstone := Removing(now, x).value[x];
    var seen := After(start, steps[..since])[author];
    if x in seen {
      RankIsTotal(tombstone, now[x], seen[x]);
      RankIsTotal(seen[x], now[x], tombstone);
    }
  }
}

/** Where the state of the mesh is kept: a new one reaches the disk, then the
    tasks of the peers, then its readers. */
module MeshStores {
  import opened Basics
  import opened Stamps
  import opened Membership

  /** The machines there is a connection task for. */
  function Watching(peers: Mesh): set<Id> { set id | id in peers && peers[id].status.Alive? }

  class MeshStore {
    const local: Id
    var state: Mesh       // what everyone reads
    var disk: Mesh        // mesh.json
    var tasks: set<Id>    // the peer set, which is also the allowlist
    var writes: nat       // how often the file was written

    ghost predicate Valid()
      reads this
    {
      disk == state && tasks == Watching(state)
    }

    constructor (local: Id, loaded: Mesh)
      ensures Valid() && this.local == local && state == loaded && writes == 0
    {
      this.local, state, disk, writes := local, loaded, loaded, 0;
      tasks := Watching(loaded);
    }

    /** Commits `next`, unless nothing changed: writing then would have two
        machines echo each other's gossip forever. */
    method Commit(next: Mesh)
      requires Valid()
      modifies this
      ensures Valid() && state == next
      ensures writes == old(writes) + if next == old(state) then 0 else 1
    {
      if next == state {
        return;
      }
      disk, writes := next, writes + 1;
      tasks := Watching(next);
      state := next;
    }

    method MergeGossip(remote: Mesh)
      requires Valid()
      modifies this
      ensures Valid() && state == Merged(old(state), remote, local)
      ensures writes == old(writes) <==> state == old(state)
    {
      var next := new MeshState(state);
      next.Merge(remote, local);
      Commit(next.peers);
    }

    /** No task is left for the machine afterwards. */
    method Remove(id: Id) returns (fault: Option<Fault>)
      requires Valid()
      modifies this
      ensures Valid()
      ensures match Removing(old(state), id)
              case Ok(next) => fault == None && state == next && id !in tasks
              case Err(why) => fault == Some(why) && state == old(state) && tasks == old(tasks)
    {
      var next := new MeshState(state);
      fault := next.RemovePeer(id);
      if fault.None? {
        Commit(next.peers);
      }
    }

    /** Adds a machine unless it is there and alive already. */
    method AddPaired(id: Id, name: Bytes) returns (fault: Option<Fault>)
      requires Valid()
      modifies this
      ensures Valid()
      ensures IsAlive(old(state), id) ==> fault == None && state == old(state)
      ensures !IsAlive(old(state), id) ==>
                match Adding(old(state), id, name)
                case Ok(next) => fault == None && state == next && id in tasks
                case Err(why) => fault == Some(why) && state == old(state) && tasks == old(tasks)
      ensures fault == None <==> IsAlive(state, id)
    {
      if IsAlive(state, id) {
        return None;
      }
      var next := new MeshState(state);
      fault := next.AddPeer(id, name);
      if fault.None? {
        Commit(next.peers);
      }
    }
  }
}
