/** A directory of content under its hashes, of the parts of content still
    arriving, and of trees that link to content by the names of a manifest. */
module Spool {
  import opened Basics
  import opened Stamps
  import opened UriLists
  import opened Files

  /** A file on disk, whatever names it has. */
  type Inode = nat

  /** A name in a tree: the file it links to, and the hash the manifest gave
      for it, which is only kept to state what the link must hold. */
  datatype Link = Link(inode: Inode, hash: Hash)

  type Tree = map<Bytes, Link>

  datatype Disk = Disk(
    files: map<Inode, Bytes>,
    blobs: map<Hash, Inode>,      // blobs/<hash>
    parts: map<Hash, Inode>,      // blobs/<hash>.part
    trees: map<Stamp, Tree>,      // trees/<stamp>/<path>
    next: Inode,
    sealed: set<Inode>)           // files nothing writes to anymore

  /** A transfer being written: everything written so far goes through the
      hasher too, the part resumed included. */
  datatype Transfer = Transfer(hash: Hash, inode: Inode, hasher: Bytes)

  const NEW := Disk(map[], map[], map[], map[], 0, {})

  // -------------------------------------------------------------- operations

  /** Content under its hash, sealed from then on, unless it is there already. */
  function Taken(d: Disk, content: Bytes): Disk {
    var hash := Digest(content);
    if hash in d.blobs then d
    else d.(files := d.files[d.next := content], blobs := d.blobs[hash := d.next],
            next := d.next + 1, sealed := d.sealed + {d.next})
  }

  /** The length of the part there is, which is removed if it is over `size`. */
  function PartialOf(d: Disk, hash: Hash, size: nat): (Disk, nat) {
    if hash !in d.parts || d.parts[hash] !in d.files then (d, 0)
    else if |d.files[d.parts[hash]]| <= size then (d, |d.files[d.parts[hash]]|)
    else (d.(parts := d.parts - {hash}), 0)
  }

  function Opened(d: Disk, hash: Hash): (Disk, Transfer) {
    if hash in d.parts && d.parts[hash] in d.files then
      (d, Transfer(hash, d.parts[hash], d.files[d.parts[hash]]))
    else
      (d.(files := d.files[d.next := []], parts := d.parts[hash := d.next], next := d.next + 1),
       Transfer(hash, d.next, []))
  }

  function Written(d: Disk, t: Transfer, bytes: Bytes): (Disk, Transfer) {
    var content := (if t.inode in d.files then d.files[t.inode] else []) + bytes;
    (d.(files := d.files[t.inode := content]), t.(hasher := t.hasher + bytes))
  }

  /** The file goes under its name if it is what it was asked for, and goes
      altogether if it is not. Renaming fails once the file was swept. */
  function Finished(d: Disk, t: Transfer): (Disk, bool) {
    if Digest(t.hasher) != t.hash then (d.(parts := d.parts - {t.hash}), false)
    else if t.hash !in d.parts then (d, false)
    else
      var inode := d.parts[t.hash];
      (d.(parts := d.parts - {t.hash}, blobs := d.blobs[t.hash := inode], sealed := d.sealed + {inode}), true)
  }

  /** Whether a name can be made next to another one: not the same, and
      neither in the way of the other's folder. */
  predicate Apart(p: Bytes, q: Bytes) { p != q && !Under(p, q) && !Under(q, p) }

  predicate CanLink(tree: Tree, blobs: map<Hash, Inode>, file: FileRef) {
    IsSafe(file.path) && file.hash in blobs && forall p :: p in tree ==> Apart(p, file.path)
  }

  /** Links every file, up to the first that cannot be. */
  function LinkAll(tree: Tree, blobs: map<Hash, Inode>, files: seq<FileRef>): (Tree, bool)
    decreases |files|
  {
    if files == [] then (tree, true)
    else if !CanLink(tree, blobs, files[0]) then (tree, false)
    else LinkAll(tree[files[0].path := Link(blobs[files[0].hash], files[0].hash)], blobs, files[1..])
  }

  function LaidOut(d: Disk, stamp: Stamp, files: seq<FileRef>): (Disk, bool) {
    var linked := LinkAll(map[], d.blobs, files);
    (d.(trees := d.trees[stamp := linked.0]), linked.1)
  }

  /** The directory of a tree, under the one they are all kept in. */
  function TreePath(root: Bytes, stamp: Stamp): Bytes { Join(root, StampName(stamp)) }

  /** What is left: the tree of `live`, and the blobs and parts of `content`. */
  function Swept(d: Disk, live: Option<Stamp>, content: set<Hash>): Disk {
    d.(blobs := map h | h in d.blobs && h in content :: d.blobs[h],
       parts := map h | h in d.parts && h in content :: d.parts[h],
       trees := map s | s in d.trees && live == Some(s) :: d.trees[s])
  }

  // ------------------------------------------------------- the spool as objects

  class Store {
    const root: Bytes     // where the trees are
    var disk: Disk

    constructor (root: Bytes)
      ensures this.root == root && disk == NEW
    {
      this.root, disk := root, NEW;
    }

    predicate Has(hash: Hash)
      reads this
    {
      hash in disk.blobs
    }

    method Take(content: Bytes) returns (hash: Hash, size: nat)
      modifies this
      ensures disk == Taken(old(disk), content) && hash == Digest(content) && size == |content|
    {
      hash, size := Digest(content), |content|;
      if !Has(hash) {
        var inode := disk.next;
        disk := disk.(files := disk.files[inode := content], next := inode + 1);
        disk := disk.(blobs := disk.blobs[hash := inode], sealed := disk.sealed + {inode});
      }
    }

    method Partial(hash: Hash, size: nat) returns (at: nat)
      modifies this
      ensures (disk, at) == PartialOf(old(disk), hash, size)
      ensures at <= size
    {
      if hash !in disk.parts || disk.parts[hash] !in disk.files {
        return 0;
      }
      at := |disk.files[disk.parts[hash]]|;
      if at > size {
        disk := disk.(parts := disk.parts - {hash});
        return 0;
      }
    }

    method Receive(hash: Hash) returns (incoming: Incoming)
      modifies this
      ensures fresh(incoming) && incoming.store == this
      ensures (disk, incoming.State()) == Opened(old(disk), hash)
    {
      if hash !in disk.parts || disk.parts[hash] !in disk.files {
        var inode := disk.next;
        disk := disk.(files := disk.files[inode := []], parts := disk.parts[hash := inode], next := inode + 1);
      }
      var inode := disk.parts[hash];
      incoming := new Incoming(this, hash, inode, disk.files[inode]);
    }

    method LayOut(stamp: Stamp, files: seq<FileRef>) returns (at: Option<Bytes>)
      modifies this
      ensures (disk, at.Some?) == LaidOut(old(disk), stamp, files)
      ensures at.Some? ==> at.value == TreePath(root, stamp)
    {
      var tree: Tree := map[];
      var i := 0;
      while i < |files|
        invariant 0 <= i <= |files| && disk == old(disk)
        invariant LinkAll(map[], disk.blobs, files) == LinkAll(tree, disk.blobs, files[i..])
      {
        var file := files[i];
        if !CanLink(tree, disk.blobs, file) {
          disk := disk.(trees := disk.trees[stamp := tree]);
          return None;
        }
        assert files[i..][1..] == files[i + 1..];
        tree := tree[file.path := Link(disk.blobs[file.hash], file.hash)];
        i := i + 1;
      }
      disk := disk.(trees := disk.trees[stamp := tree]);
      return Some(TreePath(root, stamp));
    }

    method Sweep(live: Option<Stamp>, content: set<Hash>)
      modifies this
      ensures disk == Swept(old(disk), live, content)
    {
      disk := disk.(trees := map s | s in disk.trees && live == Some(s) :: disk.trees[s]);
      disk := disk.(blobs := map h | h in disk.blobs && h in content :: disk.blobs[h],
                    parts := map h | h in disk.parts && h in content :: disk.parts[h]);
    }
  }

  class Incoming {
    const store: Store
    const hash: Hash
    const inode: Inode
    var hasher: Bytes

    function State(): Transfer
      reads this
    {
      Transfer(hash, inode, hasher)
    }

    constructor (store: Store, hash: Hash, inode: Inode, hashed: Bytes)
      ensures this.store == store && State() == Transfer(hash, inode, hashed)
    {
      this.store, this.hash, this.inode, this.hasher := store, hash, inode, hashed;
    }

    function At(): nat
      reads this
    {
      |hasher|
    }

    method Write(bytes: Bytes)
      modifies this, store
      ensures (store.disk, State()) == Written(old(store.disk), old(State()), bytes)
    {
      var content := if inode in store.disk.files then store.disk.files[inode] else [];
      store.disk := store.disk.(files := store.disk.files[inode := content + bytes]);
      hasher := hasher + bytes;
    }

    method Finish() returns (ok: bool)
      modifies store
      ensures (store.disk, ok) == Finished(old(store.disk), State())
    {
      if Digest(hasher) != hash {
        store.disk := store.disk.(parts := store.disk.parts - {hash});
        return false;
      }
      if hash !in store.disk.parts {
        return false;
      }
      var named := store.disk.parts[hash];
      store.disk := store.disk.(parts := store.disk.parts - {hash}, blobs := store.disk.blobs[hash := named]);
      store.disk := store.disk.(sealed := store.disk.sealed + {named});
      return true;
    }
  }

  // ------------------------------------------------------------- any sequence

  /** The disk, and the transfers under way: one per hash at a time. */
  datatype Spooling = Spooling(disk: Disk, open: map<Hash, Transfer>)

  datatype Op =
    | TakeOp(content: Bytes)
    | PartialOp(hash: Hash, size: nat)
    | ReceiveOp(hash: Hash)
    | WriteOp(hash: Hash, bytes: Bytes)
    | FinishOp(hash: Hash)
    | AbortOp(hash: Hash)
    | LayOutOp(stamp: Stamp, files: seq<FileRef>)
    | SweepOp(live: Option<Stamp>, keep: set<Hash>)
    | RestartOp

  function Step(s: Spooling, op: Op): Spooling {
    match op
    case TakeOp(content) => s.(disk := Taken(s.disk, content))
    case PartialOp(hash, size) => if hash in s.open then s else s.(disk := PartialOf(s.disk, hash, size).0)
    case ReceiveOp(hash) =>
      if hash in s.open then s
      else var (disk, transfer) := Opened(s.disk, hash); Spooling(disk, s.open[hash := transfer])
    case WriteOp(hash, bytes) =>
      if hash !in s.open then s
      else var (disk, transfer) := Written(s.disk, s.open[hash], bytes); Spooling(disk, s.open[hash := transfer])
    case FinishOp(hash) =>
      if hash !in s.open then s else Spooling(Finished(s.disk, s.open[hash]).0, s.open - {hash})
    case AbortOp(hash) => s.(open := s.open - {hash})
    case LayOutOp(stamp, files) => s.(disk := LaidOut(s.disk, stamp, files).0)
    case SweepOp(live, keep) => s.(disk := Swept(s.disk, live, keep))
    case RestartOp => s.(open := map[])
  }

  function Run(ops: seq<Op>): Spooling {
    if ops == [] then Spooling(NEW, map[])
    else Step(Run(ops[..|ops| - 1]), ops[|ops| - 1])
  }

  // ------------------------------------------------------------ the invariant

  predicate Named(d: Disk, inode: Inode, hash: Hash) {
    inode in d.files && inode in d.sealed && Digest(d.files[inode]) == hash
  }

  predicate TreeHolds(d: Disk, tree: Tree) {
    forall p :: p in tree ==> Named(d, tree[p].inode, tree[p].hash)
  }

  predicate Growing(d: Disk, inode: Inode) { inode in d.files && inode !in d.sealed }

  predicate TransferOk(s: Spooling, hash: Hash, t: Transfer) {
    && t.hash == hash
    && Growing(s.disk, t.inode)
    && t.hasher == s.disk.files[t.inode]
    && (hash in s.disk.parts ==> s.disk.parts[hash] == t.inode)
  }

  predicate DiskSound(d: Disk) {
    && (forall i :: i in d.files ==> i < d.next)
    && d.sealed <= d.files.Keys
    && (forall h :: h in d.blobs ==> Named(d, d.blobs[h], h))
    && (forall stamp :: stamp in d.trees ==> TreeHolds(d, d.trees[stamp]))
    && (forall h :: h in d.parts ==> Growing(d, d.parts[h]))
    && (forall h, k :: h in d.parts && k in d.parts && d.parts[h] == d.parts[k] ==> h == k)
  }

  predicate OpenSound(s: Spooling) {
    && (forall h :: h in s.open ==> TransferOk(s, h, s.open[h]))
    && (forall h, k :: h in s.open && k in s.open && s.open[h].inode == s.open[k].inode ==> h == k)
    && (forall h, k :: h in s.open && k in s.disk.parts && s.disk.parts[k] == s.open[h].inode ==> h == k)
  }

  predicate Sound(s: Spooling) { DiskSound(s.disk) && OpenSound(s) }

  /** Files nothing writes to keep what they hold. */
  predicate SealedKept(before: Disk, after: Disk) {
    before.sealed <= after.sealed
    && forall i :: i in before.sealed && i in before.files ==> i in after.files && after.files[i] == before.files[i]
  }

  lemma TreesKept(before: Disk, after: Disk, tree: Tree)
    requires SealedKept(before, after) && TreeHolds(before, tree)
    ensures TreeHolds(after, tree)
  {}

  lemma {:induction false} LinkAllHolds(d: Disk, tree: Tree, files: seq<FileRef>)
    requires TreeHolds(d, tree) && forall h :: h in d.blobs ==> Named(d, d.blobs[h], h)
    ensures TreeHolds(d, LinkAll(tree, d.blobs, files).0)
    decreases |files|
  {
    if files != [] && CanLink(tree, d.blobs, files[0]) {
      LinkAllHolds(d, tree[files[0].path := Link(d.blobs[files[0].hash], files[0].hash)], files[1..]);
    }
  }

  lemma TakeSound(s: Spooling, content: Bytes)
    requires Sound(s)
    ensures Sound(Step(s, TakeOp(content))) && SealedKept(s.disk, Step(s, TakeOp(content)).disk)
  {
    var after := Step(s, TakeOp(content));
    forall stamp | stamp in after.disk.trees ensures TreeHolds(after.disk, after.disk.trees[stamp]) {
      TreesKept(s.disk, after.disk, s.disk.trees[stamp]);
    }
  }

  lemma OpeningKeepsTheDisk(d: Disk, hash: Hash)
    requires DiskSound(d)
    ensures var (after, t) := Opened(d, hash);
            && DiskSound(after) && SealedKept(d, after)
            && t.hash == hash && hash in after.parts && after.parts[hash] == t.inode
            && Growing(after, t.inode) && after.files[t.inode] == t.hasher
            && (forall i :: Growing(d, i) ==> Growing(after, i) && after.files[i] == d.files[i])
            && (forall k :: k in d.parts ==> k in after.parts && after.parts[k] == d.parts[k])
            && (forall k :: k in after.parts ==> k in d.parts || k == hash)
            && (hash !in d.parts ==> t.inode !in d.files)
  {
    var after := Opened(d, hash).0;
    forall stamp | stamp in after.trees ensures TreeHolds(after, after.trees[stamp]) {
      TreesKept(d, after, d.trees[stamp]);
    }
  }

  lemma ReceiveSound(s: Spooling, hash: Hash)
    requires Sound(s)
    ensures Sound(Step(s, ReceiveOp(hash))) && SealedKept(s.disk, Step(s, ReceiveOp(hash)).disk)
  {
    if hash !in s.open {
      OpeningKeepsTheDisk(s.disk, hash);
      var after := Step(s, ReceiveOp(hash));
      forall h | h in after.open ensures TransferOk(after, h, after.open[h]) {
        if h != hash { assert TransferOk(s, h, s.open[h]); }
      }
      forall h | h in s.open ensures s.open[h].inode != after.open[hash].inode {
        assert TransferOk(s, h, s.open[h]);
      }
    }
  }

  lemma WriteSound(s: Spooling, hash: Hash, bytes: Bytes)
    requires Sound(s)
    ensures Sound(Step(s, WriteOp(hash, bytes))) && SealedKept(s.disk, Step(s, WriteOp(hash, bytes)).disk)
  {
    var after := Step(s, WriteOp(hash, bytes));
    if hash in s.open {
      assert TransferOk(s, hash, s.open[hash]);
      forall h | h in after.open ensures TransferOk(after, h, after.open[h]) {
        assert TransferOk(s, h, s.open[h]);
      }
      forall stamp | stamp in after.disk.trees ensures TreeHolds(after.disk, after.disk.trees[stamp]) {
        TreesKept(s.disk, after.disk, s.disk.trees[stamp]);
      }
    }
  }

  lemma FinishSound(s: Spooling, hash: Hash)
    requires Sound(s)
    ensures Sound(Step(s, FinishOp(hash))) && SealedKept(s.disk, Step(s, FinishOp(hash)).disk)
  {
    var after := Step(s, FinishOp(hash));
    if hash in s.open {
      assert TransferOk(s, hash, s.open[hash]);
      forall h | h in after.open ensures TransferOk(after, h, after.open[h]) {
        assert TransferOk(s, h, s.open[h]);
      }
      forall stamp | stamp in after.disk.trees ensures TreeHolds(after.disk, after.disk.trees[stamp]) {
        TreesKept(s.disk, after.disk, s.disk.trees[stamp]);
      }
    }
  }

  lemma LayOutSound(s: Spooling, stamp: Stamp, files: seq<FileRef>)
    requires Sound(s)
    ensures Sound(Step(s, LayOutOp(stamp, files))) && SealedKept(s.disk, Step(s, LayOutOp(stamp, files)).disk)
  {
    LinkAllHolds(s.disk, map[], files);
  }

  lemma SweepSound(s: Spooling, live: Option<Stamp>, keep: set<Hash>)
    requires Sound(s)
    ensures Sound(Step(s, SweepOp(live, keep))) && SealedKept(s.disk, Step(s, SweepOp(live, keep)).disk)
  {}

  lemma StepSound(s: Spooling, op: Op)
    requires Sound(s)
    ensures Sound(Step(s, op)) && SealedKept(s.disk, Step(s, op).disk)
  {
    match op
    case TakeOp(content) => TakeSound(s, content);
    case ReceiveOp(hash) => ReceiveSound(s, hash);
    case WriteOp(hash, bytes) => WriteSound(s, hash, bytes);
    case FinishOp(hash) => FinishSound(s, hash);
    case LayOutOp(stamp, files) => LayOutSound(s, stamp, files);
    case SweepOp(live, keep) => SweepSound(s, live, keep);
    case _ =>
  }

  lemma {:induction false} RunIsSound(ops: seq<Op>)
    ensures Sound(Run(ops))
  {
    if ops != [] {
      RunIsSound(ops[..|ops| - 1]);
      StepSound(Run(ops[..|ops| - 1]), ops[|ops| - 1]);
    }
  }

  // ------------------------------------------------------------ the theorems

  /** Whatever was taken, transferred, interrupted, resumed or swept: what has
      a hash for a name is that content, and what a transfer has hashed is
      what its file holds. */
  lemma ContentIsWhatItIsNamed(ops: seq<Op>)
    ensures var s := Run(ops);
            && (forall h :: h in s.disk.blobs ==>
                  s.disk.blobs[h] in s.disk.files && Digest(s.disk.files[s.disk.blobs[h]]) == h)
            && (forall h :: h in s.open ==>
                  s.open[h].inode in s.disk.files && s.open[h].hasher == s.disk.files[s.open[h].inode])
            && (forall stamp, p :: stamp in s.disk.trees && p in s.disk.trees[stamp] ==>
                  var link := s.disk.trees[stamp][p];
                  link.inode in s.disk.files && Digest(s.disk.files[link.inode]) == link.hash)
  {
    var s := Run(ops);
    RunIsSound(ops);
    forall h | h in s.open
      ensures s.open[h].inode in s.disk.files && s.open[h].hasher == s.disk.files[s.open[h].inode]
    {
      assert TransferOk(s, h, s.open[h]);
    }
    forall stamp, p | stamp in s.disk.trees && p in s.disk.trees[stamp]
      ensures Named(s.disk, s.disk.trees[stamp][p].inode, s.disk.trees[stamp][p].hash)
    {
      assert TreeHolds(s.disk, s.disk.trees[stamp]);
    }
  }

  /** Once a reply was received whole, no partial of it is left: the content
      is in the spool, or nothing is, so that the next transfer starts
      from nothing. Right bytes only miss the spool if they were swept
      while they arrived. */
  lemma FinishedTransfersLeaveNoPart(ops: seq<Op>, hash: Hash)
    requires hash in Run(ops).open
    ensures var s := Run(ops);
            var after := Run(ops + [FinishOp(hash)]);
            && hash !in after.disk.parts
            && (if Digest(s.open[hash].hasher) == hash && hash in s.disk.parts then
                  && hash in after.disk.blobs && after.disk.blobs[hash] in after.disk.files
                  && after.disk.files[after.disk.blobs[hash]] == s.open[hash].hasher
                else after.disk.blobs == s.disk.blobs)
  {
    var s := Run(ops);
    var longer := ops + [FinishOp(hash)];
    assert longer[..|longer| - 1] == ops;
    RunIsSound(ops);
    assert TransferOk(s, hash, s.open[hash]);
  }

  /** A part that outgrew the file it was to become is dropped rather than
      resumed. */
  lemma OversizedPartsAreDropped(d: Disk, hash: Hash, size: nat)
    requires forall h :: h in d.parts ==> d.parts[h] in d.files
    ensures var (after, at) := PartialOf(d, hash, size);
            && at <= size
            && (hash in after.parts ==> after.parts[hash] in after.files && |after.files[after.parts[hash]]| == at)
            && (hash !in after.parts ==> at == 0)
            && after.blobs == d.blobs && after.files == d.files
  {}

  predicate AllPresent(blobs: map<Hash, Inode>, files: seq<FileRef>) {
    forall i :: 0 <= i < |files| ==> IsSafe(files[i].path) && files[i].hash in blobs
  }

  /** Whether paths can be added one after the other to names in a tree. */
  predicate FitsIn(names: set<Bytes>, paths: seq<Bytes>) {
    && (forall p, i :: p in names && 0 <= i < |paths| ==> Apart(p, paths[i]))
    && (forall i, j :: 0 <= i < j < |paths| ==> Apart(paths[i], paths[j]))
  }

  lemma FitsOneByOne(names: set<Bytes>, paths: seq<Bytes>)
    requires paths != []
    ensures FitsIn(names, paths)
            <==> (forall p :: p in names ==> Apart(p, paths[0])) && FitsIn(names + {paths[0]}, paths[1..])
  {
    var rest := paths[1..];
    assert forall i :: 0 <= i < |rest| ==> rest[i] == paths[i + 1];
    if FitsIn(names, paths) {
      forall p, i | p in names + {paths[0]} && 0 <= i < |rest| ensures Apart(p, rest[i]) {
        assert rest[i] == paths[i + 1];
      }
      forall i, j | 0 <= i < j < |rest| ensures Apart(rest[i], rest[j]) {
        assert Apart(paths[i + 1], paths[j + 1]);
      }
    }
    if (forall p :: p in names ==> Apart(p, paths[0])) && FitsIn(names + {paths[0]}, rest) {
      forall p, i | p in names && 0 <= i < |paths| ensures Apart(p, paths[i]) {
        if i > 0 { assert paths[i] == rest[i - 1]; }
      }
      forall i, j | 0 <= i < j < |paths| ensures Apart(paths[i], paths[j]) {
        assert paths[j] == rest[j - 1];
        if i > 0 { assert paths[i] == rest[i - 1]; }
      }
    }
  }

  predicate Links(tree: Tree, blobs: map<Hash, Inode>, file: FileRef) {
    && file.path in tree && file.hash in blobs
    && tree[file.path] == Link(blobs[file.hash], file.hash)
  }

  lemma {:induction false} LinkAllSucceeds(tree: Tree, blobs: map<Hash, Inode>, files: seq<FileRef>)
    ensures LinkAll(tree, blobs, files).1 <==> AllPresent(blobs, files) && FitsIn(tree.Keys, PathsIn(files))
    decreases |files|
  {
    if files != [] {
      var first, rest := files[0], files[1..];
      assert PathsIn(files) == [first.path] + PathsIn(rest);
      FitsOneByOne(tree.Keys, PathsIn(files));
      assert AllPresent(blobs, files) <==> IsSafe(first.path) && first.hash in blobs && AllPresent(blobs, rest) by {
        assert forall i :: 0 <= i < |rest| ==> rest[i] == files[i + 1];
        assert forall i :: 1 <= i < |files| ==> files[i] == rest[i - 1];
      }
      if CanLink(tree, blobs, first) {
        var more := tree[first.path := Link(blobs[first.hash], first.hash)];
        LinkAllSucceeds(more, blobs, rest);
        assert more.Keys == tree.Keys + {first.path};
      }
    }
  }

  lemma {:induction false} LinkAllLinks(tree: Tree, blobs: map<Hash, Inode>, files: seq<FileRef>)
    requires LinkAll(tree, blobs, files).1
    ensures var linked := LinkAll(tree, blobs, files).0;
            && (forall p :: p in tree ==> p in linked && linked[p] == tree[p])
            && (forall i :: 0 <= i < |files| ==> Links(linked, blobs, files[i]))
            && (forall p :: p in linked ==> p in tree || p in PathsIn(files))
    decreases |files|
  {
    if files != [] {
      var first, rest := files[0], files[1..];
      var more := tree[first.path := Link(blobs[first.hash], first.hash)];
      LinkAllLinks(more, blobs, rest);
      assert PathsIn(files) == [first.path] + PathsIn(rest);
      var linked := LinkAll(tree, blobs, files).0;
      forall p | p in tree ensures p in linked && linked[p] == tree[p] {
        assert Apart(p, first.path);
      }
      forall i | 0 <= i < |files| ensures Links(linked, blobs, files[i]) {
        if i > 0 { assert files[i] == rest[i - 1]; } else { assert first.path in more; }
      }
    }
  }

  lemma DisjointFits(files: seq<FileRef>)
    ensures Disjoint(files) <==> FitsIn({}, PathsIn(files))
  {
    var paths := PathsIn(files);
    assert forall i :: 0 <= i < |files| ==> paths[i] == files[i].path;
    if FitsIn({}, paths) {
      forall i, j | 0 <= i < |files| && 0 <= j < |files| && i != j
        ensures files[i].path != files[j].path && !Under(files[i].path, files[j].path)
      {
        assert if i < j then Apart(paths[i], paths[j]) else Apart(paths[j], paths[i]);
      }
    }
    if Disjoint(files) {
      forall i, j | 0 <= i < j < |paths| ensures Apart(paths[i], paths[j]) {
        assert files[i].path != files[j].path;
        assert !Under(files[i].path, files[j].path) && !Under(files[j].path, files[i].path);
      }
    }
  }

  /** A clip's files can be laid out exactly when they are all here and no two
      need the same name, one of them as a folder or not; and then the tree
      is the manifest: every path of it holds what the manifest names, and
      there is nothing else in it. */
  lemma LayingOutSucceeds(d: Disk, stamp: Stamp, files: seq<FileRef>)
    ensures var (after, ok) := LaidOut(d, stamp, files);
            && (ok <==> AllPresent(d.blobs, files) && Disjoint(files))
            && (ok ==>
                  && (forall i :: 0 <= i < |files| ==> Links(after.trees[stamp], d.blobs, files[i]))
                  && (forall p :: p in after.trees[stamp] ==> p in PathsIn(files)))
  {
    LinkAllSucceeds(map[], d.blobs, files);
    DisjointFits(files);
    var none: Tree := map[];
    assert none.Keys == {};
    if LinkAll(none, d.blobs, files).1 { LinkAllLinks(none, d.blobs, files); }
  }

  lemma {:induction false} LinkAllStops(tree: Tree, blobs: map<Hash, Inode>, files: seq<FileRef>) returns (n: nat)
    requires !LinkAll(tree, blobs, files).1
    ensures n < |files| && !CanLink(LinkAll(tree, blobs, files).0, blobs, files[n])
    ensures LinkAll(tree, blobs, files[..n]) == (LinkAll(tree, blobs, files).0, true)
    decreases |files|
  {
    if !CanLink(tree, blobs, files[0]) {
      n := 0;
    } else {
      var more := LinkAllStops(tree[files[0].path := Link(blobs[files[0].hash], files[0].hash)], blobs, files[1..]);
      n := more + 1;
      assert files[..n][0] == files[0] && files[..n][1..] == files[1..][..more];
    }
  }

  /** When it fails, what is left under the stamp is the tree of the files in
      front of the first one that does not go there. */
  lemma FailingLeavesTheRest(d: Disk, stamp: Stamp, files: seq<FileRef>) returns (n: nat)
    requires !LaidOut(d, stamp, files).1
    ensures n < |files| && LaidOut(d, stamp, files[..n]) == (LaidOut(d, stamp, files).0, true)
    ensures !CanLink(LaidOut(d, stamp, files).0.trees[stamp], d.blobs, files[n])
  {
    n := LinkAllStops(map[], d.blobs, files);
  }

  // ----------------------------------------------------- paths into the trees

  /** What a path leads to: the file a tree under `root` links to by the name
      that is left of it, which is content with this hash. */
  predicate HoldsAt(d: Disk, root: Bytes, path: Bytes, hash: Hash) {
    exists stamp, name :: stamp in d.trees && name in d.trees[stamp] && LeadsTo(d, root, path, stamp, name, hash)
  }

  predicate LeadsTo(d: Disk, root: Bytes, path: Bytes, stamp: Stamp, name: Bytes, hash: Hash)
    requires stamp in d.trees && name in d.trees[stamp]
  {
    var inode := d.trees[stamp][name].inode;
    && IsSafe(name) && path == Join(TreePath(root, stamp), name)
    && inode in d.files && Digest(d.files[inode]) == hash
  }

  lemma StampNameIsPlain(stamp: Stamp)
    ensures StampName(stamp) != [] && SLASH !in StampName(stamp)
  {
    assert forall b :: b in StampName(stamp) ==> 48 <= b <= 57 || b == DASH;
  }

  lemma PathInTree(root: Bytes, stamp: Stamp, name: Bytes)
    requires IsSafe(name)
    ensures Join(TreePath(root, stamp), name) == Join(root, []) + (StampName(stamp) + [SLASH] + name)
  {
    SafeIsRelative(name);
    var tree, part := TreePath(root, stamp), StampName(stamp);
    StampNameIsPlain(stamp);
    assert part[0] in part && part[|part| - 1] in part;
    assert tree == Join(root, []) + part;
    assert tree[|tree| - 1] == part[|part| - 1];
    assert tree + [SLASH] + name == Join(root, []) + (part + [SLASH] + name);
  }

  /** No two files laid out, of one clip or of two, are found at one path. */
  lemma PathsNameOneFile(root: Bytes, a: Stamp, p: Bytes, b: Stamp, q: Bytes)
    requires IsSafe(p) && IsSafe(q) && Join(TreePath(root, a), p) == Join(TreePath(root, b), q)
    ensures a == b && p == q
  {
    PathInTree(root, a, p);
    PathInTree(root, b, q);
    var start := |Join(root, [])|;
    assert StampName(a) + [SLASH] + p == Join(TreePath(root, a), p)[start..];
    assert StampName(b) + [SLASH] + q == Join(TreePath(root, b), q)[start..];
    StampNameIsPlain(a);
    StampNameIsPlain(b);
    SplitOnce(StampName(a), p, StampName(b), q, SLASH);
    StampNamesDiffer(a, b);
  }

  /** So that what is at a path is one content. */
  lemma OneContentAtAPath(d: Disk, root: Bytes, path: Bytes, one: Hash, other: Hash)
    requires HoldsAt(d, root, path, one) && HoldsAt(d, root, path, other)
    ensures one == other
  {
    var a, p :| a in d.trees && p in d.trees[a] && LeadsTo(d, root, path, a, p, one);
    var b, q :| b in d.trees && q in d.trees[b] && LeadsTo(d, root, path, b, q, other);
    PathsNameOneFile(root, a, p, b, q);
  }

  // -------------------------------------------------- what the check lets by

  /** `a`, `a.b` and `a/b`: the first is a file where the last needs a folder. */
  const SHADOWED: seq<FileRef> := [
    FileRef([97], 0, Digest([])), FileRef([97, 46, 98], 0, Digest([])), FileRef([97, 47, 98], 0, Digest([]))]

  lemma SplitOfOne(part: Bytes)
    requires SLASH !in part
    ensures Split(part, SLASH) == [part]
  {
    assert IndexOf(part, SLASH) == |part|;
  }

  lemma SortOfThree(a: Bytes, b: Bytes, c: Bytes)
    requires LexLess(a, b) && LexLess(b, c)
    ensures Sorted([a, b, c]) == [a, b, c]
  {
    assert [a, b, c][1..] == [b, c] && [b, c][1..] == [c] && [c][1..] == [];
    LexAsymmetric(a, b);
    LexAsymmetric(b, c);
    assert Sorted([c]) == [c];
    assert Sorted([b, c]) == [b, c];
  }

  lemma ShadowedNamesAreSafe()
    ensures forall i :: 0 <= i < 3 ==> IsSafe(SHADOWED[i].path)
  {
    var inside := SHADOWED[2].path;
    SplitOfOne(SHADOWED[0].path);
    SplitOfOne(SHADOWED[1].path);
    SplitOfOne([98]);
    assert IndexOf(inside, SLASH) == 1;
    assert inside[..1] == [97] && inside[2..] == [98];
    assert Split(inside, SLASH) == [[97], [98]];
  }

  lemma ShadowedIsSorted()
    ensures Sorted(PathsIn(SHADOWED)) == PathsIn(SHADOWED)
  {
    assert PathsIn(SHADOWED) == [SHADOWED[0].path, SHADOWED[1].path, SHADOWED[2].path];
    SortOfThree(SHADOWED[0].path, SHADOWED[1].path, SHADOWED[2].path);
  }

  lemma ShadowedPasses()
    ensures Validate(SHADOWED)
  {
    ShadowedNamesAreSafe();
    ShadowedIsSorted();
    assert forall i :: 0 <= i < 3 ==> PathsIn(SHADOWED)[i] == SHADOWED[i].path;
  }

  /** Checking neighbours in sorted order does not find every such pair: `.`
      sorts before `/`, so `a.b` comes between `a` and `a/b`. This manifest
      passes the check, and can never be laid out. */
  lemma NeighboursMissAFolder()
    ensures Validate(SHADOWED)
    ensures forall d: Disk, stamp :: !LaidOut(d, stamp, SHADOWED).1
  {
    ShadowedPasses();
    assert Under(SHADOWED[0].path, SHADOWED[2].path);
    forall d: Disk, stamp ensures !LaidOut(d, stamp, SHADOWED).1 { LayingOutSucceeds(d, stamp, SHADOWED); }
  }

  /** Content goes into the spool once: a file of its own, unless it is there. */
  lemma TakingStoresOnce(s: Spooling, content: Bytes)
    requires Sound(s)
    ensures var hash, after := Digest(content), Step(s, TakeOp(content));
            && after.disk.blobs.Keys == s.disk.blobs.Keys + {hash}
            && (hash in s.disk.blobs ==> after == s)
            && (hash !in s.disk.blobs ==>
                  && after.disk.blobs[hash] !in s.disk.files
                  && after.disk.files == s.disk.files[after.disk.blobs[hash] := content]
                  && after.disk.blobs == s.disk.blobs[hash := after.disk.blobs[hash]])
            && after.disk.parts == s.disk.parts && after.disk.trees == s.disk.trees && after.open == s.open
  {}

  // ------------------------------------------------------ what a sweep leaves

  /** A sweep keeps the tree of the clip it is told of and the content it names,
      whole or in part, with what they lead to; and nothing else has a name
      afterwards. */
  lemma SweepsKeepExactly(s: Spooling, live: Option<Stamp>, keep: set<Hash>)
    ensures var before, after := s.disk, Step(s, SweepOp(live, keep)).disk;
            && (forall h :: h in after.blobs <==> h in before.blobs && h in keep)
            && (forall h :: h in after.blobs ==> after.blobs[h] == before.blobs[h])
            && (forall h :: h in after.parts <==> h in before.parts && h in keep)
            && (forall h :: h in after.parts ==> after.parts[h] == before.parts[h])
            && (forall stamp :: stamp in after.trees <==> stamp in before.trees && live == Some(stamp))
            && (forall stamp :: stamp in after.trees ==> after.trees[stamp] == before.trees[stamp])
            && after.files == before.files && Step(s, SweepOp(live, keep)).open == s.open
  {}

  /** A part that is no longer than its file is left alone, and counts for all
      of its length. */
  lemma FittingPartsStay(d: Disk, hash: Hash, size: nat)
    requires hash in d.parts && d.parts[hash] in d.files && |d.files[d.parts[hash]]| <= size
    ensures PartialOf(d, hash, size) == (d, |d.files[d.parts[hash]]|)
  {}

  // ------------------------------------------------ nothing outside the trees

  predicate NamesAreSafe(tree: Tree) { forall name :: name in tree ==> IsSafe(name) }

  predicate TreesAreSafe(d: Disk) { forall stamp :: stamp in d.trees ==> NamesAreSafe(d.trees[stamp]) }

  lemma {:induction false} LinkAllIsSafe(tree: Tree, blobs: map<Hash, Inode>, files: seq<FileRef>)
    requires NamesAreSafe(tree)
    ensures NamesAreSafe(LinkAll(tree, blobs, files).0)
    decreases |files|
  {
    if files != [] && CanLink(tree, blobs, files[0]) {
      LinkAllIsSafe(tree[files[0].path := Link(blobs[files[0].hash], files[0].hash)], blobs, files[1..]);
    }
  }

  lemma StepIsInside(s: Spooling, op: Op)
    requires TreesAreSafe(s.disk)
    ensures TreesAreSafe(Step(s, op).disk)
  {
    match op
    case LayOutOp(stamp, files) => LinkAllIsSafe(map[], s.disk.blobs, files);
    case _ =>
  }

  lemma {:induction false} RunIsInside(ops: seq<Op>)
    ensures TreesAreSafe(Run(ops).disk)
  {
    if ops != [] {
      RunIsInside(ops[..|ops| - 1]);
      StepIsInside(Run(ops[..|ops| - 1]), ops[|ops| - 1]);
    }
  }

  /** Whatever manifests a machine was sent, everything it ever laid out is
      below the tree of its clip: resolving the path of a link, one finds the
      directory of the trees, then the name of the stamp, then the name in the
      manifest, component by component. */
  lemma NothingIsLaidOutOutside(ops: seq<Op>, root: Bytes, stamp: Stamp, name: Bytes)
    requires stamp in Run(ops).disk.trees && name in Run(ops).disk.trees[stamp]
    ensures Resolve(Join(TreePath(root, stamp), name))
            == Resolve(root) + [StampName(stamp)] + Split(name, SLASH)
  {
    RunIsInside(ops);
    SafePathsStayBelow(TreePath(root, stamp), name);
    StampNameIsPlain(stamp);
    StampNameIsSafe(stamp);
    SafePathsStayBelow(root, StampName(stamp));
    SplitOfOne(StampName(stamp));
  }

  lemma StampNameIsSafe(stamp: Stamp)
    ensures IsSafe(StampName(stamp))
  {
    var name := StampName(stamp);
    StampNameIsPlain(stamp);
    SplitOfOne(name);
    assert |name| >= 3;
    assert forall b :: b in name ==> 48 <= b <= 57 || b == DASH;
  }

  /** And a manifest with a path that leads elsewhere is never laid out. */
  lemma UnsafePathsAreNotLaidOut(d: Disk, stamp: Stamp, files: seq<FileRef>, file: FileRef, part: Bytes)
    requires file in files && part in Split(file.path, SLASH)
    requires part == [] || part == DOT || part == DOT_DOT || 0 in part
    ensures !LaidOut(d, stamp, files).1 && forall tree: Tree :: !CanLink(tree, d.blobs, file)
  {
    LayingOutSucceeds(d, stamp, files);
    UnsafeExactly(file.path);
    var i :| 0 <= i < |files| && files[i] == file;
  }
}
