/** Which machines are paired: one versioned register per machine, merged from
    what peers gossip. */
module Membership {
  import opened Basics
  import opened Stamps

  /** How many records a state may have, dead or alive. */
  const MAX_MESH_PEERS: nat := 64

  /** The highest version a record may be given. */
  const MAX_RECORD_VERSION: nat := 0x1_0000_0000

  const MAX_NAME_LEN: nat := 64

  datatype Status = Alive(name: Bytes) | Removed

  datatype Peer = Peer(version: nat, status: Status)

  type Mesh = map<Id, Peer>

  datatype Fault = BadName | MeshFull | UnknownMachine | CorruptRecord

  // ------------------------------------------------------------------- names

  predicate Has(text: Bytes, i: nat, piece: Bytes) {
    i + |piece| <= |text| && text[i..i + |piece|] == piece
  }

  /** Control characters, zero-width characters and bidirectional formatting,
      as they are encoded in UTF-8. */
  predicate ConfusableAt(name: Bytes, i: nat)
    requires i < |name|
  {
    || name[i] < 0x20 || name[i] == 0x7F
    || (i + 1 < |name| && name[i] == 0xC2 && 0x80 <= name[i + 1] <= 0x9F)
    || (i + 2 < |name| && name[i] == 0xE2 && name[i + 1] == 0x80
        && (0x8B <= name[i + 2] <= 0x8F || 0xAA <= name[i + 2] <= 0xAE))
    || (i + 2 < |name| && name[i] == 0xE2 && name[i + 1] == 0x81 && 0xA6 <= name[i + 2] <= 0xA9)
    || Has(name, i, [0xEF, 0xBB, 0xBF])
  }

  predicate ValidName(name: Bytes) {
    && name != []
    && |name| <= MAX_NAME_LEN
    && forall i :: 0 <= i < |name| ==> !ConfusableAt(name, i)
  }

  // -------------------------------------------------------------------- rank

  function NameOrEmpty(peer: Peer): Bytes {
    match peer.status
    case Alive(name) => name
    case Removed => []
  }

  /** By version; of equal versions a removal wins; of equal ones of those, the
      name that sorts first. */
  predicate Outranks(a: Peer, b: Peer) {
    || a.version > b.version
    || (a.version == b.version && a.status.Removed? && !b.status.Removed?)
    || (a.version == b.version && a.status.Removed? == b.status.Removed? && LexLess(NameOrEmpty(a), NameOrEmpty(b)))
  }

  /** Any two different records are ranked, the same way everywhere. */
  lemma RankIsTotal(a: Peer, b: Peer, c: Peer)
    ensures Outranks(a, b) || Outranks(b, a) || a == b
    ensures !(Outranks(a, b) && Outranks(b, a)) && !Outranks(a, a)
    ensures Outranks(a, b) && Outranks(b, c) ==> Outranks(a, c)
    ensures !Outranks(b, a) && !Outranks(c, b) ==> !Outranks(c, a)
  {
    LexTotal(NameOrEmpty(a), NameOrEmpty(b));
    LexAsymmetric(NameOrEmpty(a), NameOrEmpty(b));
    LexAsymmetric(NameOrEmpty(a), NameOrEmpty(a));
    LexTransitive(NameOrEmpty(a), NameOrEmpty(b), NameOrEmpty(c));
    LexTransitive(NameOrEmpty(c), NameOrEmpty(b), NameOrEmpty(a));
  }

  // ------------------------------------------------------------------- merge

  /** The records that are listened to: living ones below the highest version,
      removals up to it. */
  predicate Valid(record: Peer) {
    match record.status
    case Alive(name) => record.version < MAX_RECORD_VERSION && ValidName(name)
    case Removed => record.version <= MAX_RECORD_VERSION
  }

  predicate Adopted(peers: Mesh, id: Id, record: Peer, local: Id) {
    && id != local && Valid(record)
    && if id in peers then Outranks(record, peers[id]) else |peers| < MAX_MESH_PEERS
  }

  function MergeOne(peers: Mesh, id: Id, record: Peer, local: Id): Mesh {
    if Adopted(peers, id, record, local) then peers[id := record] else peers
  }

  function MergeKeys(peers: Mesh, remote: Mesh, keys: seq<Id>, local: Id): Mesh
    requires forall id :: id in keys ==> id in remote
    decreases |keys|
  {
    if keys == [] then peers
    else MergeKeys(MergeOne(peers, keys[0], remote[keys[0]], local), remote, keys[1..], local)
  }

  predicate IsLeast(ids: set<Id>, least: Id) { least in ids && forall id :: id in ids ==> least <= id }

  lemma {:induction false} LeastExists(ids: set<Id>)
    requires ids != {}
    ensures exists least :: IsLeast(ids, least)
  {
    var id :| id in ids;
    if ids == {id} {
      assert IsLeast(ids, id);
    } else {
      LeastExists(ids - {id});
      var least :| IsLeast(ids - {id}, least);
      var lower := if id < least then id else least;
      forall other | other in ids ensures lower <= other {
        assert other == id || other in ids - {id};
      }
      assert IsLeast(ids, lower);
    }
  }

  /** The order a `BTreeMap` is walked in. */
  ghost function Ascending(ids: set<Id>): (keys: seq<Id>)
    ensures forall id :: id in keys <==> id in ids
  {
    if ids == {} then []
    else
      LeastExists(ids);
      var least :| IsLeast(ids, least);
      [least] + Ascending(ids - {least})
  }

  /** The state after adopting everything in `remote` that outranks it. */
  ghost function Merged(peers: Mesh, remote: Mesh, local: Id): Mesh {
    MergeKeys(peers, remote, Ascending(remote.Keys), local)
  }

  function NextVersion(peers: Mesh, id: Id): Result<nat, Fault> {
    var version := if id in peers then peers[id].version else 0;
    if version >= MAX_RECORD_VERSION then Err(CorruptRecord) else Ok(version + 1)
  }

  predicate IsAlive(peers: Mesh, id: Id) { id in peers && peers[id].status.Alive? }

  function ValidateNew(peers: Mesh, id: Id, name: Bytes): Option<Fault> {
    if !ValidName(name) then Some(BadName)
    else if |peers| >= MAX_MESH_PEERS && id !in peers then Some(MeshFull)
    else None
  }

  function Adding(peers: Mesh, id: Id, name: Bytes): Result<Mesh, Fault> {
    match ValidateNew(peers, id, name)
    case Some(fault) => Err(fault)
    case None =>
      match NextVersion(peers, id)
      case Err(fault) => Err(fault)
      case Ok(version) => Ok(peers[id := Peer(version, Alive(name))])
  }

  function Removing(peers: Mesh, id: Id): Result<Mesh, Fault> {
    if !IsAlive(peers, id) then Err(UnknownMachine)
    else match NextVersion(peers, id)
      case Err(fault) => Err(fault)
      case Ok(version) => Ok(peers[id := Peer(version, Removed)])
  }

  /** The records one machine has. */
  class MeshState {
    var peers: Mesh

    constructor (peers: Mesh)
      ensures this.peers == peers
    {
      this.peers := peers;
    }

    /** A living record, one version up. */
    method AddPeer(id: Id, name: Bytes) returns (fault: Option<Fault>)
      modifies this
      ensures match Adding(old(peers), id, name)
              case Ok(next) => fault == None && peers == next
              case Err(why) => fault == Some(why) && peers == old(peers)
    {
      var refused := ValidateNew(peers, id, name);
      if refused.Some? {
        return refused;
      }
      var version := NextVersion(peers, id);
      if version.Err? {
        return Some(version.error);
      }
      peers := peers[id := Peer(version.value, Alive(name))];
      return None;
    }

    /** A dead record in the place of the living one, one version up. */
    method RemovePeer(id: Id) returns (fault: Option<Fault>)
      modifies this
      ensures match Removing(old(peers), id)
              case Ok(next) => fault == None && peers == next
              case Err(why) => fault == Some(why) && peers == old(peers)
    {
      if !IsAlive(peers, id) {
        return Some(UnknownMachine);
      }
      var version := NextVersion(peers, id);
      if version.Err? {
        return Some(version.error);
      }
      peers := peers[id := Peer(version.value, Removed)];
      return None;
    }

    /** One `MergeOne` for each remote record, by ascending id. */
    method Merge(remote: Mesh, local: Id)
      modifies this
      ensures peers == Merged(old(peers), remote, local)
    {
      var pending := remote.Keys;
      while pending != {}
        invariant pending <= remote.Keys
        invariant MergeKeys(peers, remote, Ascending(pending), local) == Merged(old(peers), remote, local)
        decreases pending
      {
        LeastExists(pending);
        var id :| id in pending && IsLeast(pending, id);
        assert Ascending(pending)[0] == id && Ascending(pending)[1..] == Ascending(pending - {id});
        var record := remote[id];
        pending := pending - {id};
        var valid := match record.status
          case Alive(name) => record.version < MAX_RECORD_VERSION && ValidName(name)
          case Removed => record.version <= MAX_RECORD_VERSION;
        if id == local || !valid {
          continue;
        }
        var adopt := if id in peers then Outranks(record, peers[id]) else |peers| < MAX_MESH_PEERS;
        if adopt {
          peers := peers[id := record];
        }
      }
    }
  }

  // ------------------------------------------------------- laws, even at the cap

  /** Nothing is forgotten, no record loses rank, and a full state learns of
      nobody new. */
  ghost predicate Grew(before: Mesh, after: Mesh) {
    && before.Keys <= after.Keys && |before| <= |after|
    && (forall id :: id in before ==> !Outranks(before[id], after[id]))
    && (|before| >= MAX_MESH_PEERS ==> after.Keys == before.Keys)
  }

  lemma GrewTransitive(a: Mesh, b: Mesh, c: Mesh)
    requires Grew(a, b) && Grew(b, c)
    ensures Grew(a, c)
  {
    forall id | id in a ensures !Outranks(a[id], c[id]) {
      RankIsTotal(c[id], b[id], a[id]);
    }
  }

  lemma GrewReflexive(peers: Mesh)
    ensures Grew(peers, peers)
  {
    forall id | id in peers ensures !Outranks(peers[id], peers[id]) {
      RankIsTotal(peers[id], peers[id], peers[id]);
    }
  }

  lemma SizeWithKey(peers: Mesh, id: Id, record: Peer)
    ensures |peers[id := record]| == if id in peers then |peers| else |peers| + 1
  {
    var keys := peers[id := record].Keys;
    assert |peers[id := record]| == |keys| && |peers| == |peers.Keys|;
    assert keys == peers.Keys + {id};
  }

  lemma MergeOneLaws(peers: Mesh, id: Id, record: Peer, local: Id)
    ensures var next := MergeOne(peers, id, record, local);
            && Grew(peers, next)
            && (|peers| <= MAX_MESH_PEERS ==> |next| <= MAX_MESH_PEERS)
            && (local in next <==> local in peers) && (local in peers ==> next[local] == peers[local])
            && !Adopted(next, id, record, local)
  {
    GrewReflexive(peers);
    SizeWithKey(peers, id, record);
    RankIsTotal(record, if id in peers then peers[id] else record, record);
  }

  lemma {:induction false} MergeKeysLaws(peers: Mesh, remote: Mesh, keys: seq<Id>, local: Id)
    requires forall id :: id in keys ==> id in remote
    ensures var next := MergeKeys(peers, remote, keys, local);
            && Grew(peers, next)
            && (|peers| <= MAX_MESH_PEERS ==> |next| <= MAX_MESH_PEERS)
            && (local in next <==> local in peers) && (local in peers ==> next[local] == peers[local])
    decreases |keys|
  {
    if keys == [] {
      GrewReflexive(peers);
    } else {
      var middle := MergeOne(peers, keys[0], remote[keys[0]], local);
      MergeOneLaws(peers, keys[0], remote[keys[0]], local);
      MergeKeysLaws(middle, remote, keys[1..], local);
      GrewTransitive(peers, middle, MergeKeys(middle, remote, keys[1..], local));
    }
  }

  /** Whatever a peer gossips: a state within the cap stays within it, nobody
      is forgotten, no record loses rank, and our own record is ours. */
  lemma MergeIsSafe(peers: Mesh, remote: Mesh, local: Id)
    ensures var next := Merged(peers, remote, local);
            && Grew(peers, next)
            && (|peers| <= MAX_MESH_PEERS ==> |next| <= MAX_MESH_PEERS)
            && (local in next <==> local in peers) && (local in peers ==> next[local] == peers[local])
  {
    MergeKeysLaws(peers, remote, Ascending(remote.Keys), local);
  }

  /** A record once passed over stays passed over. */
  lemma StaysRefused(before: Mesh, after: Mesh, id: Id, record: Peer, local: Id)
    requires Grew(before, after) && !Adopted(before, id, record, local)
    ensures !Adopted(after, id, record, local)
  {
    if id in before { RankIsTotal(after[id], before[id], record); RankIsTotal(record, before[id], after[id]); }
  }

  lemma {:induction false} NothingLeftToAdopt(peers: Mesh, remote: Mesh, keys: seq<Id>, local: Id)
    requires forall id :: id in keys ==> id in remote
    ensures forall id :: id in keys ==> !Adopted(MergeKeys(peers, remote, keys, local), id, remote[id], local)
    decreases |keys|
  {
    if keys != [] {
      var middle := MergeOne(peers, keys[0], remote[keys[0]], local);
      var next := MergeKeys(middle, remote, keys[1..], local);
      MergeOneLaws(peers, keys[0], remote[keys[0]], local);
      MergeKeysLaws(middle, remote, keys[1..], local);
      NothingLeftToAdopt(middle, remote, keys[1..], local);
      StaysRefused(middle, next, keys[0], remote[keys[0]], local);
    }
  }

  lemma {:induction false} AdoptingNothing(peers: Mesh, remote: Mesh, keys: seq<Id>, local: Id)
    requires forall id :: id in keys ==> id in remote && !Adopted(peers, id, remote[id], local)
    ensures MergeKeys(peers, remote, keys, local) == peers
    decreases |keys|
  {
    if keys != [] { AdoptingNothing(peers, remote, keys[1..], local); }
  }

  /** Hearing the same state again changes nothing, at the cap as below it:
      this is what stops gossip from echoing forever. */
  lemma MergeIsIdempotent(peers: Mesh, remote: Mesh, local: Id)
    ensures Merged(Merged(peers, remote, local), remote, local) == Merged(peers, remote, local)
  {
    var keys := Ascending(remote.Keys);
    NothingLeftToAdopt(peers, remote, keys, local);
    AdoptingNothing(Merged(peers, remote, local), remote, keys, local);
  }

  // ------------------------------------------- below the cap: a pointwise maximum

  function Get(peers: Mesh, id: Id): Option<Peer> {
    if id in peers then Some(peers[id]) else None
  }

  function Best(a: Option<Peer>, b: Option<Peer>): Option<Peer> {
    if a.None? then b
    else if b.None? then a
    else if Outranks(b.value, a.value) then b
    else a
  }

  lemma BestIsAMaximum(a: Option<Peer>, b: Option<Peer>, c: Option<Peer>)
    ensures Best(a, a) == a
    ensures Best(a, b) == Best(b, a)
    ensures Best(a, Best(b, c)) == Best(Best(a, b), c)
  {
    if a.Some? && b.Some? { RankIsTotal(a.value, b.value, if c.Some? then c.value else a.value); }
    if b.Some? && c.Some? { RankIsTotal(b.value, c.value, if a.Some? then a.value else b.value); }
    if a.Some? && c.Some? { RankIsTotal(a.value, c.value, if b.Some? then b.value else a.value); }
    if a.Some? && b.Some? && c.Some? {
      RankIsTotal(c.value, b.value, a.value);
      RankIsTotal(c.value, a.value, b.value);
      RankIsTotal(b.value, a.value, c.value);
    }
  }

  /** What a machine would take from `remote` about `id`. */
  function Heard(remote: Mesh, id: Id, local: Id): Option<Peer> {
    if id in remote && id != local && Valid(remote[id]) then Some(remote[id]) else None
  }

  function Hearable(remote: Mesh, local: Id): set<Id> {
    set id | id in remote && id != local && Valid(remote[id])
  }

  predicate Fits(ids: set<Id>) { |ids| <= MAX_MESH_PEERS }

  lemma RoomForOneMore(peers: Mesh, ids: set<Id>, id: Id)
    requires Fits(ids) && peers.Keys <= ids && id in ids && id !in peers
    ensures |peers| < MAX_MESH_PEERS
  {
    assert |peers| == |peers.Keys|;
    SubsetIsSmaller(peers.Keys, ids - {id});
  }

  lemma {:induction false} SubsetIsSmaller(small: set<Id>, large: set<Id>)
    requires small <= large
    ensures |small| <= |large|
  {
    assert large == small + (large - small) && small !! (large - small);
  }

  lemma {:induction false} MergeKeysIsPointwise(
    peers: Mesh, remote: Mesh, keys: seq<Id>, local: Id, ids: set<Id>, x: Id)
    requires forall id :: id in keys ==> id in remote
    requires forall i, j :: 0 <= i < j < |keys| ==> keys[i] != keys[j]
    requires Fits(ids) && peers.Keys <= ids
    requires forall id :: id in keys && Heard(remote, id, local).Some? ==> id in ids
    ensures MergeKeys(peers, remote, keys, local).Keys <= ids
    ensures Get(MergeKeys(peers, remote, keys, local), x) ==
              Best(Get(peers, x), if x in keys then Heard(remote, x, local) else None)
    decreases |keys|
  {
    if keys != [] {
      var id := keys[0];
      var middle := MergeOne(peers, id, remote[id], local);
      if id !in peers && Heard(remote, id, local).Some? { RoomForOneMore(peers, ids, id); }
      MergeKeysIsPointwise(middle, remote, keys[1..], local, ids, x);
      assert x in keys <==> x == id || x in keys[1..];
      assert id !in keys[1..];
    }
  }

  lemma {:induction false} AscendingIsDistinct(ids: set<Id>)
    ensures forall i, j :: 0 <= i < j < |Ascending(ids)| ==> Ascending(ids)[i] != Ascending(ids)[j]
  {
    if ids != {} {
      var least := Ascending(ids)[0];
      assert Ascending(ids)[1..] == Ascending(ids - {least});
      AscendingIsDistinct(ids - {least});
      var rest := Ascending(ids - {least});
      assert least !in rest;
      assert Ascending(ids) == [least] + rest;
    }
  }

  /** While everything known fits under the cap, a merge is the best record of
      the two for every machine, whatever the order they are walked in. */
  lemma MergeIsPointwise(peers: Mesh, remote: Mesh, local: Id, ids: set<Id>, x: Id)
    requires Fits(ids) && peers.Keys <= ids && Hearable(remote, local) <= ids
    ensures Merged(peers, remote, local).Keys <= ids
    ensures Get(Merged(peers, remote, local), x) == Best(Get(peers, x), Heard(remote, x, local))
  {
    var keys := Ascending(remote.Keys);
    AscendingIsDistinct(remote.Keys);
    forall id | id in keys && Heard(remote, id, local).Some? ensures id in ids {
      assert id in Hearable(remote, local);
    }
    MergeKeysIsPointwise(peers, remote, keys, local, ids, x);
  }

  lemma SameRecordsSameMesh(a: Mesh, b: Mesh)
    requires forall x :: Get(a, x) == Get(b, x)
    ensures a == b
  {
    assert forall x :: (x in a <==> Get(a, x).Some?) && (x in b <==> Get(b, x).Some?);
    forall x | x in a ensures a[x] == b[x] {
      assert Get(a, x) == Get(b, x);
    }
  }

  /** Two peers heard in either order leave the same state. */
  lemma MergesCommute(peers: Mesh, one: Mesh, two: Mesh, local: Id, ids: set<Id>)
    requires Fits(ids) && peers.Keys <= ids && Hearable(one, local) <= ids && Hearable(two, local) <= ids
    ensures Merged(Merged(peers, one, local), two, local) == Merged(Merged(peers, two, local), one, local)
  {
    forall x
      ensures Get(Merged(Merged(peers, one, local), two, local), x)
              == Get(Merged(Merged(peers, two, local), one, local), x)
    {
      MergeIsPointwise(peers, one, local, ids, x);
      MergeIsPointwise(peers, two, local, ids, x);
      MergeIsPointwise(Merged(peers, one, local), two, local, ids, x);
      MergeIsPointwise(Merged(peers, two, local), one, local, ids, x);
      var p, a, b := Get(peers, x), Heard(one, x, local), Heard(two, x, local);
      BestIsAMaximum(p, a, b);
      BestIsAMaximum(p, b, a);
      BestIsAMaximum(a, b, b);
    }
    SameRecordsSameMesh(Merged(Merged(peers, one, local), two, local), Merged(Merged(peers, two, local), one, local));
  }

  /** Hearing two states through a machine that merged them says the same as
      hearing both, about everyone but the machine in between, whose own
      record it never takes from others. */
  lemma MergesAssociate(peers: Mesh, one: Mesh, two: Mesh, local: Id, between: Id, ids: set<Id>, x: Id)
    requires Fits(ids) && peers.Keys <= ids && one.Keys <= ids && two.Keys <= ids
    requires x in one ==> Valid(one[x])
    requires x != between
    ensures Get(Merged(peers, Merged(one, two, between), local), x)
            == Get(Merged(Merged(peers, one, local), two, local), x)
  {
    var relayed := Merged(one, two, between);
    MergeIsPointwise(one, two, between, ids, x);
    MergeIsPointwise(peers, relayed, local, ids, x);
    MergeIsPointwise(peers, one, local, ids, x);
    MergeIsPointwise(Merged(peers, one, local), two, local, ids, x);
    BestIsAMaximum(Get(peers, x), Heard(one, x, local), Heard(two, x, local));
  }

  // ------------------------------------------------------------ local changes

  /** A removal outranks everything its author ever held about the machine,
      and every other machine takes it: whatever it held that the author had
      seen is replaced. */
  lemma RemovalIsHeard(author: Mesh, id: Id, other: Mesh, local: Id)
    requires Removing(author, id).Ok? && id != local
    requires id in other ==> !Outranks(other[id], author[id])
    requires id !in other ==> |other| < MAX_MESH_PEERS
    ensures var after := Removing(author, id).value;
            && Outranks(after[id], author[id])
            && Merged(other, map[id := after[id]], local) == other[id := after[id]]
  {
    var record := Removing(author, id).value[id];
    if id in other {
      RankIsTotal(other[id], author[id], record);
      RankIsTotal(record, author[id], other[id]);
    }
    MergeOfOne(other, id, record, local);
  }

  lemma MergeOfOne(peers: Mesh, id: Id, record: Peer, local: Id)
    ensures Merged(peers, map[id := record], local) == MergeOne(peers, id, record, local)
  {
    var remote: Mesh := map[id := record];
    var keys := Ascending(remote.Keys);
    assert remote.Keys == {id} && id in keys;
    assert keys[0] in keys && keys[0] == id;
    assert keys[1..] == Ascending(remote.Keys - {id}) == [];
    assert MergeKeys(MergeOne(peers, id, record, local), remote, keys[1..], local)
           == MergeOne(peers, id, record, local);
  }

  /** A machine registered here is taken up by a machine that held nothing
      better than we did exactly when its record was still two versions short of the
      ceiling: at one short, the registration lands on the ceiling, where
      nothing alive is accepted. */
  lemma AdditionIsHeardBelowTheCeiling(author: Mesh, id: Id, name: Bytes, other: Mesh, local: Id)
    requires Adding(author, id, name).Ok? && id != local
    requires id in other ==> id in author && !Outranks(other[id], author[id])
    requires id !in other ==> |other| < MAX_MESH_PEERS
    ensures var after := Adding(author, id, name).value;
            Merged(other, map[id := after[id]], local) == other[id := after[id]]
            <==> (id in author ==> author[id].version + 1 < MAX_RECORD_VERSION)
  {
    var record := Adding(author, id, name).value[id];
    MergeOfOne(other, id, record, local);
    if id in other {
      RankIsTotal(other[id], author[id], record);
      RankIsTotal(record, author[id], other[id]);
    }
    if !Valid(record) {
      assert other[id := record][id] == record && Get(other, id) != Some(record);
    }
  }

  /** Such a registration: one machine says alive, and the rest never hear. */
  lemma LostRegistration()
    ensures var name: Bytes := [97];
            var pinned := Peer(MAX_RECORD_VERSION - 1, Removed);
            var author: Mesh := map[7 := pinned];
            && Adding(author, 7, name) == Ok(map[7 := Peer(MAX_RECORD_VERSION, Alive(name))])
            && Merged(author, map[7 := Peer(MAX_RECORD_VERSION, Alive(name))], 1) == author
  {
    var name: Bytes := [97];
    var author: Mesh := map[7 := Peer(MAX_RECORD_VERSION - 1, Removed)];
    assert !ConfusableAt(name, 0);
    assert ValidName(name);
    assert author[7 := Peer(MAX_RECORD_VERSION, Alive(name))] == map[7 := Peer(MAX_RECORD_VERSION, Alive(name))];
    MergeOfOne(author, 7, Peer(MAX_RECORD_VERSION, Alive(name)), 1);
  }

  // ------------------------------------------------ what one record heard does

  /** A newer record replaces an older one, whatever either says, and an older
      one is not listened to. */
  lemma NewerRecordsWin(peers: Mesh, id: Id, held: Peer, heard: Peer, local: Id)
    requires id != local && Valid(heard)
    ensures held.version < heard.version ==>
              Merged(peers[id := held], map[id := heard], local) == peers[id := heard]
    ensures heard.version < held.version ==>
              Merged(peers[id := held], map[id := heard], local) == peers[id := held]
  {
    MergeOfOne(peers[id := held], id, heard, local);
    assert peers[id := held][id := heard] == peers[id := heard];
  }

  /** Of one version, a removal replaces a living record and is not undone by
      one. */
  lemma TombstonesWinTies(peers: Mesh, id: Id, version: nat, name: Bytes, local: Id)
    requires id != local && ValidName(name) && version < MAX_RECORD_VERSION
    ensures var alive, removed := Peer(version, Alive(name)), Peer(version, Removed);
            && Merged(peers[id := alive], map[id := removed], local) == peers[id := removed]
            && Merged(peers[id := removed], map[id := alive], local) == peers[id := removed]
  {
    var alive, removed := Peer(version, Alive(name)), Peer(version, Removed);
    MergeOfOne(peers[id := alive], id, removed, local);
    MergeOfOne(peers[id := removed], id, alive, local);
    assert peers[id := alive][id := removed] == peers[id := removed];
  }

  /** And of two names given at one version, the one that sorts first is left,
      whichever was there before. */
  lemma SmallerNamesWinTies(peers: Mesh, id: Id, version: nat, held: Bytes, heard: Bytes, local: Id)
    requires id != local && ValidName(held) && ValidName(heard) && version < MAX_RECORD_VERSION
    ensures exists left ::
              && (left == held || left == heard) && !LexLess(held, left) && !LexLess(heard, left)
              && Merged(peers[id := Peer(version, Alive(held))], map[id := Peer(version, Alive(heard))], local)
                 == peers[id := Peer(version, Alive(left))]
  {
    var left := if LexLess(heard, held) then heard else held;
    MergeOfOne(peers[id := Peer(version, Alive(held))], id, Peer(version, Alive(heard)), local);
    LexAsymmetric(held, heard);
    LexAsymmetric(left, left);
    assert peers[id := Peer(version, Alive(held))][id := Peer(version, Alive(left))]
        == peers[id := Peer(version, Alive(left))];
  }

  /** What cannot be heard at all: anything about the machine itself, a living
      record at the ceiling or one with a name that will not do, and anything
      past the ceiling. */
  lemma DeafTo(peers: Mesh, id: Id, record: Peer, local: Id)
    requires id == local || record.version > 0x1_0000_0000
             || (record.status.Alive? && (record.version == 0x1_0000_0000 || !ValidName(record.status.name)))
    ensures Merged(peers, map[id := record], local) == peers
  {
    MergeOfOne(peers, id, record, local);
  }

  /** And a machine not known yet is learned of until there are 64. */
  lemma LearnsOfUntilFull(peers: Mesh, id: Id, record: Peer, local: Id)
    requires id != local && id !in peers && Valid(record)
    ensures Merged(peers, map[id := record], local) == if |peers| < 64 then peers[id := record] else peers
  {
    MergeOfOne(peers, id, record, local);
  }

  /** The last place goes to the lower id. */
  lemma LowerIdsGoFirst(peers: Mesh, lower: Id, higher: Id, records: (Peer, Peer), local: Id)
    requires lower < higher && lower != local && higher != local && Valid(records.0) && Valid(records.1)
    requires |peers| == 63 && lower !in peers && higher !in peers
    ensures Merged(peers, map[lower := records.0, higher := records.1], local) == peers[lower := records.0]
  {
    var remote: Mesh := map[lower := records.0, higher := records.1];
    assert remote.Keys == {lower, higher};
    LowestFirst(lower, higher);
    var keys := [lower, higher];
    assert keys[1..] == [higher] && [higher][1..] == [];
    SizeWithKey(peers, lower, records.0);
    var next := MergeOne(peers, lower, records.0, local);
    assert next == peers[lower := records.0] && |next| == 64;
    assert MergeKeys(next, remote, [higher], local) == MergeOne(next, higher, records.1, local) == next;
  }

  lemma LowestFirst(lower: Id, higher: Id)
    requires lower < higher
    ensures Ascending({lower, higher}) == [lower, higher]
  {
    LeastExists({lower, higher});
    var least :| IsLeast({lower, higher}, least);
    assert least == lower && {lower, higher} - {lower} == {higher};
    LeastExists({higher});
    var last :| IsLeast({higher}, last);
    assert {higher} - {higher} == {} && Ascending({}) == [];
    assert Ascending({higher}) == [higher];
  }

  // --------------------------------------------------- what a local change does

  /** Registering writes that name and no other record, one version up. */
  lemma AddingWrites(peers: Mesh, id: Id, name: Bytes)
    ensures Adding(peers, id, name).Ok? <==>
              && ValidName(name) && (|peers| < 64 || id in peers)
              && (id in peers ==> peers[id].version < 0x1_0000_0000)
    ensures Adding(peers, id, name).Ok? ==>
              var next, version := Adding(peers, id, name).value, if id in peers then peers[id].version + 1 else 1;
              && next.Keys == peers.Keys + {id} && next[id] == Peer(version, Alive(name))
              && forall x :: x in peers && x != id ==> next[x] == peers[x]
  {}

  /** Retiring is for living machines, and leaves a tombstone one version up. */
  lemma RemovingWrites(peers: Mesh, id: Id)
    ensures Removing(peers, id).Ok? <==>
              id in peers && peers[id].status.Alive? && peers[id].version < 0x1_0000_0000
    ensures Removing(peers, id).Ok? ==>
              var next := Removing(peers, id).value;
              && next.Keys == peers.Keys && next[id] == Peer(peers[id].version + 1, Removed)
              && forall x :: x in peers && x != id ==> next[x] == peers[x]
  {}
}
