/** The files a copy may name: content by hash, under a relative path. */
module Files {
  import opened Basics
  import opened UriLists

  /** Hashing is taken to be injective: a hash is written as the content that
      has it, or as one that none has, which a peer may send all the same. */
  datatype Hash = Digest(content: Bytes) | Unreached(number: nat)

  datatype FileRef = FileRef(path: Bytes, size: nat, hash: Hash)

  const MAX_FILES: nat := 4096

  const NUL: Byte := 0

  predicate PlainName(part: Bytes) {
    part != [] && part != [46] && part != [46, 46] && NUL !in part
  }

  /** No component is empty, `.`, `..` or has a zero byte in it; so that the
      path is relative, too. */
  predicate IsSafe(path: Bytes) {
    forall part :: part in Split(path, SLASH) ==> PlainName(part)
  }

  lemma SafeIsRelative(path: Bytes)
    requires IsSafe(path)
    ensures path != [] && !IsAbsolute(path)
  {
    var i := IndexOf(path, SLASH);
    assert Split(path, SLASH)[0] == path[..i];
    assert path[..i] in Split(path, SLASH);
    assert path[..i] != [];
  }

  function TotalSize(files: seq<FileRef>): nat {
    if files == [] then 0 else files[0].size + TotalSize(files[1..])
  }

  /** Sizes are added up. */
  lemma {:induction false} TotalSizeAdds(files: seq<FileRef>, more: seq<FileRef>, file: FileRef)
    ensures TotalSize([]) == 0 && TotalSize([file]) == file.size
    ensures TotalSize(files + more) == TotalSize(files) + TotalSize(more)
  {
    assert [file][1..] == [];
    if files == [] {
      assert files + more == more;
    } else {
      assert (files + more)[1..] == files[1..] + more;
      TotalSizeAdds(files[1..], more, file);
    }
  }

  // -------------------------------------------------- checking the manifest

  function PathsIn(files: seq<FileRef>): seq<Bytes> {
    seq(|files|, i requires 0 <= i < |files| => files[i].path)
  }

  function Insert(sorted: seq<Bytes>, path: Bytes): seq<Bytes> {
    if sorted == [] || !LexLess(sorted[0], path) then [path] + sorted
    else [sorted[0]] + Insert(sorted[1..], path)
  }

  function Sorted(paths: seq<Bytes>): seq<Bytes> {
    if paths == [] then [] else Insert(Sorted(paths[1..]), paths[0])
  }

  /** Whether `below` lies under the folder that `above` would have to be. */
  predicate Under(above: Bytes, below: Bytes) {
    above < below && below[|above|] == SLASH
  }

  predicate NeighboursApart(paths: seq<Bytes>) {
    forall i :: 0 <= i < |paths| - 1 ==> paths[i] != paths[i + 1] && !Under(paths[i], paths[i + 1])
  }

  /** Safe paths, and no two that are next to each other once sorted are equal
      or one under the other. */
  predicate Validate(files: seq<FileRef>) {
    && (forall file :: file in files ==> IsSafe(file.path))
    && NeighboursApart(Sorted(PathsIn(files)))
  }

  /** What laying the files out as a tree needs: no two files at one path, and
      none where another needs a folder. */
  predicate Disjoint(files: seq<FileRef>) {
    forall i, j :: 0 <= i < |files| && 0 <= j < |files| && i != j ==>
      files[i].path != files[j].path && !Under(files[i].path, files[j].path)
  }

  predicate DistinctPaths(paths: seq<Bytes>) {
    forall i, j :: 0 <= i < j < |paths| ==> paths[i] != paths[j]
  }

  predicate Ascending(paths: seq<Bytes>) {
    forall i, j :: 0 <= i < j < |paths| ==> !LexLess(paths[j], paths[i])
  }

  lemma {:induction false} InsertKeepsOrder(sorted: seq<Bytes>, path: Bytes)
    requires Ascending(sorted)
    ensures Ascending(Insert(sorted, path))
    ensures multiset(Insert(sorted, path)) == multiset(sorted) + multiset{path}
  {
    if sorted == [] {
    } else if LexLess(sorted[0], path) {
      InsertKeepsOrder(sorted[1..], path);
      var rest := Insert(sorted[1..], path);
      assert sorted == [sorted[0]] + sorted[1..];
      forall j | 0 <= j < |rest| ensures !LexLess(rest[j], sorted[0]) {
        assert rest[j] in multiset(rest);
        LexAsymmetric(sorted[0], path);
        assert rest[j] == path || rest[j] in sorted[1..];
      }
    } else {
      forall j | 0 <= j < |sorted| ensures !LexLess(sorted[j], path) {
        LexTransitive(path, sorted[0], sorted[j]);
      }
    }
  }

  lemma {:induction false} SortedIsSorted(paths: seq<Bytes>)
    ensures Ascending(Sorted(paths))
    ensures multiset(Sorted(paths)) == multiset(paths)
  {
    if paths != [] {
      SortedIsSorted(paths[1..]);
      InsertKeepsOrder(Sorted(paths[1..]), paths[0]);
      assert paths == [paths[0]] + paths[1..];
    }
  }

  lemma {:induction false} DistinctByCount(paths: seq<Bytes>)
    ensures DistinctPaths(paths) <==> forall p :: multiset(paths)[p] <= 1
  {
    if paths != [] {
      var rest := paths[1..];
      DistinctByCount(rest);
      assert paths == [paths[0]] + rest;
      assert forall p :: multiset(paths)[p] == multiset(rest)[p] + if p == paths[0] then 1 else 0;
      assert DistinctPaths(paths) <==> paths[0] !in rest && DistinctPaths(rest);
      assert paths[0] in rest <==> multiset(rest)[paths[0]] > 0;
    }
  }

  /** Equal paths end up side by side, so looking at neighbours finds them. */
  lemma SortedNeighboursDiffer(sorted: seq<Bytes>)
    requires Ascending(sorted)
    requires forall i :: 0 <= i < |sorted| - 1 ==> sorted[i] != sorted[i + 1]
    ensures DistinctPaths(sorted)
  {
    forall i, j | 0 <= i < j < |sorted| ensures sorted[i] != sorted[j] {
      LexTotal(sorted[i], sorted[i + 1]);
      LexTransitive(sorted[i], sorted[i + 1], sorted[j]);
      LexAsymmetric(sorted[i], sorted[j]);
    }
  }

  /** A manifest that passes names every file once. */
  lemma ValidateMeansDistinct(files: seq<FileRef>)
    requires Validate(files)
    ensures DistinctPaths(PathsIn(files))
  {
    var paths := PathsIn(files);
    SortedIsSorted(paths);
    SortedNeighboursDiffer(Sorted(paths));
    DistinctByCount(Sorted(paths));
    DistinctByCount(paths);
  }

  // ------------------------------------- what looking at neighbours finds

  /** `longer` goes on from `path` with a byte that sorts before a slash, as in
      `a` and `a.b`. */
  predicate Shadows(longer: Bytes, path: Bytes) {
    path < longer && longer[|path|] < SLASH
  }

  /** Every file that needs a folder where another one is has something sorting
      in between. */
  predicate ClashesAreShadowed(files: seq<FileRef>) {
    forall i, j :: 0 <= i < |files| && 0 <= j < |files| && Under(files[i].path, files[j].path) ==>
      exists k :: 0 <= k < |files| && Shadows(files[k].path, files[i].path)
  }

  lemma {:induction false} PrefixesComeFirst(p: Bytes, q: Bytes)
    requires p < q
    ensures LexLess(p, q)
  {
    if p != [] { PrefixesComeFirst(p[1..], q[1..]); }
  }

  /** What sorts between a path and one that extends it extends it too, and no
      further on. */
  lemma {:induction false} BetweenExtends(p: Bytes, s: Bytes, q: Bytes)
    requires p < q && !LexLess(s, p) && !LexLess(q, s) && s != p
    ensures p < s && s[|p|] <= q[|p|]
  {
    if p == [] {
    } else {
      assert s != [] && s[0] == p[0] == q[0];
      assert s == [s[0]] + s[1..] && p == [p[0]] + p[1..] && q == [q[0]] + q[1..];
      BetweenExtends(p[1..], s[1..], q[1..]);
    }
  }

  lemma {:induction false} ShadowComesBefore(p: Bytes, s: Bytes, q: Bytes)
    requires p < s && p < q && s[|p|] < q[|p|]
    ensures LexLess(s, q)
  {
    if p != [] { ShadowComesBefore(p[1..], s[1..], q[1..]); }
  }

  lemma InOrder(sorted: seq<Bytes>, a: nat, b: nat)
    requires Ascending(sorted) && a < |sorted| && b < |sorted| && LexLess(sorted[a], sorted[b])
    ensures a < b
  {
    LexAsymmetric(sorted[a], sorted[b]);
  }

  lemma SortedHolds(paths: seq<Bytes>, path: Bytes)
    ensures path in Sorted(paths) <==> path in paths
  {
    SortedIsSorted(paths);
    assert path in multiset(Sorted(paths)) <==> path in multiset(paths);
  }

  /** Where neighbours are apart, the path after one that another lies under
      shadows it. */
  lemma NextOneShadows(sorted: seq<Bytes>, a: nat, b: nat)
    requires Ascending(sorted) && NeighboursApart(sorted) && a < |sorted| && b < |sorted| && Under(sorted[a], sorted[b])
    ensures a + 1 < |sorted| && Shadows(sorted[a + 1], sorted[a])
  {
    PrefixesComeFirst(sorted[a], sorted[b]);
    InOrder(sorted, a, b);
    assert a + 1 < b;
    BetweenExtends(sorted[a], sorted[a + 1], sorted[b]);
  }

  /** And where everything lain under is shadowed, neighbours are apart. */
  lemma NeighboursAreApart(sorted: seq<Bytes>, a: nat, c: nat)
    requires Ascending(sorted) && a + 1 < |sorted| && c < |sorted| && Shadows(sorted[c], sorted[a])
    ensures !Under(sorted[a], sorted[a + 1])
  {
    var p, s, q := sorted[a], sorted[c], sorted[a + 1];
    PrefixesComeFirst(p, s);
    InOrder(sorted, a, c);
    if c > a + 1 && p < q && s[|p|] < q[|p|] { ShadowComesBefore(p, s, q); }
  }

  lemma PathAt(files: seq<FileRef>, path: Bytes) returns (i: nat)
    requires path in Sorted(PathsIn(files))
    ensures i < |files| && files[i].path == path
  {
    SortedHolds(PathsIn(files), path);
    i :| i < |files| && PathsIn(files)[i] == path;
  }

  lemma PlaceOf(files: seq<FileRef>, i: nat) returns (a: nat)
    requires i < |files|
    ensures a < |Sorted(PathsIn(files))| && Sorted(PathsIn(files))[a] == files[i].path
  {
    assert PathsIn(files)[i] == files[i].path;
    SortedHolds(PathsIn(files), files[i].path);
    a :| a < |Sorted(PathsIn(files))| && Sorted(PathsIn(files))[a] == files[i].path;
  }

  lemma ApartMeansShadowed(files: seq<FileRef>)
    requires NeighboursApart(Sorted(PathsIn(files)))
    ensures ClashesAreShadowed(files)
  {
    var sorted := Sorted(PathsIn(files));
    SortedIsSorted(PathsIn(files));
    forall i, j | 0 <= i < |files| && 0 <= j < |files| && Under(files[i].path, files[j].path)
      ensures exists k :: 0 <= k < |files| && Shadows(files[k].path, files[i].path)
    {
      var a := PlaceOf(files, i);
      var b := PlaceOf(files, j);
      NextOneShadows(sorted, a, b);
      var k := PathAt(files, sorted[a + 1]);
    }
  }

  lemma ShadowedMeansApart(files: seq<FileRef>)
    requires DistinctPaths(PathsIn(files)) && ClashesAreShadowed(files)
    ensures NeighboursApart(Sorted(PathsIn(files)))
  {
    var paths, sorted := PathsIn(files), Sorted(PathsIn(files));
    SortedIsSorted(paths);
    DistinctByCount(paths);
    DistinctByCount(sorted);
    forall a | 0 <= a < |sorted| - 1 ensures sorted[a] != sorted[a + 1] && !Under(sorted[a], sorted[a + 1]) {
      if Under(sorted[a], sorted[a + 1]) {
        var i := PathAt(files, sorted[a]);
        var j := PathAt(files, sorted[a + 1]);
        var k :| 0 <= k < |files| && Shadows(files[k].path, files[i].path);
        var c := PlaceOf(files, k);
        NeighboursAreApart(sorted, a, c);
      }
    }
  }

  /** What passes the check, exactly: safe paths, each once, where a file only
      ever needs a folder in the place of another if something sorts between
      the two. */
  lemma ValidateExactly(files: seq<FileRef>)
    ensures Validate(files) <==>
              && (forall file :: file in files ==> IsSafe(file.path))
              && DistinctPaths(PathsIn(files))
              && ClashesAreShadowed(files)
  {
    if Validate(files) {
      ValidateMeansDistinct(files);
      ApartMeansShadowed(files);
    }
    if DistinctPaths(PathsIn(files)) && ClashesAreShadowed(files) { ShadowedMeansApart(files); }
  }

  /** No path goes on from another with a byte that sorts before a slash. */
  predicate Shadowless(files: seq<FileRef>) {
    forall i, k :: 0 <= i < |files| && 0 <= k < |files| ==> !Shadows(files[k].path, files[i].path)
  }

  /** So without such names the check keeps its promise in full: what passes is
      what can be laid out. */
  lemma ValidateIsEnoughWithoutShadows(files: seq<FileRef>)
    requires Shadowless(files)
    ensures Validate(files) <==> (forall file :: file in files ==> IsSafe(file.path)) && Disjoint(files)
  {
    ValidateExactly(files);
    var paths := PathsIn(files);
    assert forall i :: 0 <= i < |files| ==> paths[i] == files[i].path;
    if Validate(files) {
      forall i, j | 0 <= i < |files| && 0 <= j < |files| && i != j
        ensures files[i].path != files[j].path && !Under(files[i].path, files[j].path)
      {
        assert if i < j then paths[i] != paths[j] else paths[j] != paths[i];
      }
    }
    if Disjoint(files) {
      assert DistinctPaths(paths);
      forall i, j | 0 <= i < |files| && 0 <= j < |files| ensures !Under(files[i].path, files[j].path) {}
    }
  }

  predicate SafePaths(files: seq<FileRef>) { forall file :: file in files ==> IsSafe(file.path) }

  /** One file needs a folder where another one is. */
  predicate Clashes(files: seq<FileRef>) {
    exists i, j :: 0 <= i < |files| && 0 <= j < |files| && Under(files[i].path, files[j].path)
  }

  /** What is let through though it can never be laid out, exactly: safe
      distinct paths, one of them under another, with something sorting in
      between wherever one is. */
  lemma ValidateMisses(files: seq<FileRef>)
    ensures Validate(files) && !Disjoint(files)
            <==> SafePaths(files) && DistinctPaths(PathsIn(files)) && Clashes(files) && ClashesAreShadowed(files)
  {
    ValidateExactly(files);
    var paths := PathsIn(files);
    assert forall i :: 0 <= i < |files| ==> paths[i] == files[i].path;
    if Clashes(files) {
      var i, j :| 0 <= i < |files| && 0 <= j < |files| && Under(files[i].path, files[j].path);
      assert i != j;
    } else if DistinctPaths(paths) {
      forall i, j | 0 <= i < |files| && 0 <= j < |files| && i != j
        ensures files[i].path != files[j].path && !Under(files[i].path, files[j].path)
      {
        assert if i < j then paths[i] != paths[j] else paths[j] != paths[i];
      }
    }
  }

  // --------------------------------------------- what a safe path resolves to

  const DOT: Bytes := [46]
  const DOT_DOT: Bytes := [46, 46]

  /** Where a walk along these components ends up, starting at `at`: an empty
      one and `.` stay, and `..` goes back up. */
  function Walk(at: seq<Bytes>, parts: seq<Bytes>): seq<Bytes>
    decreases |parts|
  {
    if parts == [] then at
    else if parts[0] == [] || parts[0] == DOT then Walk(at, parts[1..])
    else if parts[0] == DOT_DOT then Walk(if at == [] then [] else at[..|at| - 1], parts[1..])
    else Walk(at + [parts[0]], parts[1..])
  }

  function Resolve(path: Bytes): seq<Bytes> { Walk([], Split(path, SLASH)) }

  lemma {:induction false} WalkOn(at: seq<Bytes>, some: seq<Bytes>, more: seq<Bytes>)
    ensures Walk(at, some + more) == Walk(Walk(at, some), more)
    decreases |some|
  {
    if some == [] {
      assert some + more == more;
    } else {
      assert (some + more)[1..] == some[1..] + more;
      var next := if some[0] == [] || some[0] == DOT then at
                  else if some[0] == DOT_DOT then (if at == [] then [] else at[..|at| - 1])
                  else at + [some[0]];
      WalkOn(next, some[1..], more);
    }
  }

  lemma {:induction false} PlainNamesGoDown(at: seq<Bytes>, parts: seq<Bytes>)
    requires forall part :: part in parts ==> part != [] && part != DOT && part != DOT_DOT
    ensures Walk(at, parts) == at + parts
    decreases |parts|
  {
    if parts != [] {
      assert parts[0] in parts && forall part :: part in parts[1..] ==> part in parts;
      PlainNamesGoDown(at + [parts[0]], parts[1..]);
      assert at + [parts[0]] + parts[1..] == at + parts;
    }
  }

  /** What is unsafe, exactly: a component that is empty, `.` or `..`, or has a
      zero byte in it. */
  lemma UnsafeExactly(path: Bytes)
    ensures !IsSafe(path)
            <==> exists part ::
                   part in Split(path, SLASH) && (part == [] || part == DOT || part == DOT_DOT || 0 in part)
  {
    if !IsSafe(path) {
      var part :| part in Split(path, SLASH) && !PlainName(part);
      assert part == [] || part == DOT || part == DOT_DOT || 0 in part;
    }
    if part :| part in Split(path, SLASH) && (part == [] || part == DOT || part == DOT_DOT || 0 in part) {
      assert !PlainName(part);
    }
  }

  lemma SplitBelow(tree: Bytes, path: Bytes)
    requires !IsAbsolute(path)
    ensures Resolve(Join(tree, path)) == Walk(Resolve(tree), Split(path, SLASH))
  {
    var parts := Split(path, SLASH);
    var nothing: seq<Bytes> := [[]];
    assert nothing[1..] == [];
    if tree == [] {
      assert Join(tree, path) == path;
      assert Split(tree, SLASH) == nothing;
      assert Walk([], nothing) == Walk([], nothing[1..]);
    } else if tree[|tree| - 1] == SLASH {
      var above := tree[..|tree| - 1];
      assert Join(tree, path) == above + [SLASH] + path;
      assert tree == above + [SLASH] + [];
      SplitAround(above, path, SLASH);
      SplitAround(above, [], SLASH);
      WalkOn([], Split(above, SLASH), parts);
      WalkOn([], Split(above, SLASH), nothing);
      assert Walk(Resolve(above), nothing) == Walk(Resolve(above), nothing[1..]);
    } else {
      SplitAround(tree, path, SLASH);
      WalkOn([], Split(tree, SLASH), parts);
    }
  }

  /** A safe path leads below whatever it is joined to, one folder for each of
      its components, and never out of it. */
  lemma SafePathsStayBelow(tree: Bytes, path: Bytes)
    requires IsSafe(path)
    ensures Resolve(Join(tree, path)) == Resolve(tree) + Split(path, SLASH)
  {
    SafeIsRelative(path);
    SplitBelow(tree, path);
    UnsafeExactly(path);
    forall part | part in Split(path, SLASH) ensures part != [] && part != DOT && part != DOT_DOT {
      assert PlainName(part);
    }
    PlainNamesGoDown(Resolve(tree), Split(path, SLASH));
  }

  /** So no manifest that passes has a path with such a component. */
  lemma UnsafePathsAreRefused(files: seq<FileRef>, file: FileRef, part: Bytes)
    requires file in files && part in Split(file.path, SLASH)
    requires part == [] || part == DOT || part == DOT_DOT || 0 in part
    ensures !IsSafe(file.path) && !Validate(files)
  {
    UnsafeExactly(file.path);
  }
}

/** Selections, copies and clips as values, and the limits on them. */
module Copies {
  import opened Basics
  import opened Stamps
  import opened UriLists
  import opened Files
  import Mime

  /** In bytes, for the representations together. */
  const MAX_SIZE: nat := 4 * 1024 * 1024

  /** Counted for every file on top of the length of its path. */
  const FILE_OVERHEAD: nat := 48

  const MAX_MIME_LEN: nat := 255

  datatype Rep = Rep(mime: string, bytes: Bytes)

  function TotalBytes(reps: seq<Rep>): nat {
    if reps == [] then 0 else |reps[0].bytes| + TotalBytes(reps[1..])
  }

  lemma {:induction false} TotalSnoc(reps: seq<Rep>, rep: Rep)
    ensures TotalBytes(reps + [rep]) == TotalBytes(reps) + |rep.bytes|
  {
    if reps == [] {
      assert [rep][1..] == [];
    } else {
      assert (reps + [rep])[1..] == reps[1..] + [rep];
      TotalSnoc(reps[1..], rep);
    }
  }

  function FindRep(reps: seq<Rep>, mime: string): Option<Rep> {
    if reps == [] then None
    else if Mime.EqIgnoreCase(reps[0].mime, mime) then Some(reps[0])
    else FindRep(reps[1..], mime)
  }

  datatype Selection = Selection(primary: Rep, alternates: seq<Rep>) {
    /** Every representation, best first. */
    function Reps(): seq<Rep> { [primary] + alternates }

    function Size(): nat { TotalBytes(Reps()) }

    /** The paths in the `text/uri-list`, or none without one. */
    function FilePaths(): seq<Bytes> {
      match FindRep(Reps(), Mime.URI_LIST)
      case Some(rep) => Paths(rep.bytes)
      case None => []
    }
  }

  /** These paths as text, with both lists of files as alternates. */
  function OfFiles(paths: seq<Bytes>): Selection {
    Selection(
      Rep(Mime.PLAIN_TEXT, AsText(paths)),
      [Rep(Mime.URI_LIST, UriList(paths)), Rep(Mime.GNOME_COPIED_FILES, GnomeCopiedFiles(paths))])
  }

  /** The first list of URIs among the representations, in any case. */
  predicate FirstList(reps: seq<Rep>, k: nat) {
    && k < |reps| && Mime.EqIgnoreCase(reps[k].mime, Mime.URI_LIST)
    && forall j :: 0 <= j < k ==> !Mime.EqIgnoreCase(reps[j].mime, Mime.URI_LIST)
  }

  lemma {:induction false} FoundFirst(reps: seq<Rep>, k: nat)
    requires FirstList(reps, k)
    ensures FindRep(reps, Mime.URI_LIST) == Some(reps[k])
    decreases k
  {
    if k > 0 {
      assert forall j :: 0 <= j < k - 1 ==> reps[1..][j] == reps[j + 1];
      FoundFirst(reps[1..], k - 1);
    }
  }

  lemma {:induction false} NotFound(reps: seq<Rep>)
    requires forall k :: 0 <= k < |reps| ==> !Mime.EqIgnoreCase(reps[k].mime, Mime.URI_LIST)
    ensures FindRep(reps, Mime.URI_LIST) == None
  {
    if reps != [] { NotFound(reps[1..]); }
  }

  /** A selection names the files of its first list of URIs, whichever
      representation that is, and none without one. */
  lemma FilePathsExactly(selection: Selection, k: nat)
    ensures FirstList(selection.Reps(), k) ==> selection.FilePaths() == Paths(selection.Reps()[k].bytes)
    ensures (forall rep :: rep in selection.Reps() ==> !Mime.EqIgnoreCase(rep.mime, Mime.URI_LIST)) ==>
              selection.FilePaths() == []
  {
    if FirstList(selection.Reps(), k) {
      FoundFirst(selection.Reps(), k);
    } else if forall rep :: rep in selection.Reps() ==> !Mime.EqIgnoreCase(rep.mime, Mime.URI_LIST) {
      NotFound(selection.Reps());
    }
  }

  /** What a file manager would read is what was written. */
  lemma FileSelectionRoundTrips(paths: seq<Bytes>)
    ensures OfFiles(paths).FilePaths() == paths <==> forall p :: p in paths ==> IsAbsolute(p)
  {
    var reps := OfFiles(paths).Reps();
    assert |reps[0].mime| == 24 && |Mime.URI_LIST| == 13;
    Mime.EqIgnoreCaseReflexive(Mime.URI_LIST);
    assert reps[1..][0] == reps[1];
    assert FindRep(reps, Mime.URI_LIST) == Some(reps[1]);
    UriListRoundTrips(paths);
  }

  datatype Copy = Copy(selection: Selection, secret: bool, ttl: Option<nat>, files: seq<FileRef>) {
    predicate IsFiles() { files != [] }

    /** Payloads and manifest, as far as limits go. */
    function Size(): nat { selection.Size() + ManifestSize(files) }

    /** Within every limit, with types that can be announced, and no secret that
        names files. */
    predicate Check() {
      && Size() <= MAX_SIZE
      && |selection.Reps()| <= Mime.MAX_REPS
      && (forall rep :: rep in selection.Reps() ==> UsableMime(rep.mime))
      && |files| <= MAX_FILES
      && !(secret && IsFiles())
      && Validate(files)
    }
  }

  function ManifestSize(files: seq<FileRef>): nat {
    if files == [] then 0 else |files[0].path| + FILE_OVERHEAD + ManifestSize(files[1..])
  }

  function PathBytes(files: seq<FileRef>): nat {
    if files == [] then 0 else |files[0].path| + PathBytes(files[1..])
  }

  lemma {:induction false} ManifestSizeExactly(files: seq<FileRef>)
    ensures ManifestSize(files) == PathBytes(files) + 48 * |files|
  {
    if files != [] { ManifestSizeExactly(files[1..]); }
  }

  /** Every limit there is on a copy: 4 MiB for the payloads and the paths, with
      48 bytes for each file; eight types of 1 to 255 printable characters; 4096
      files, laid out side by side, and none for a secret. */
  lemma CheckExactly(copy: Copy)
    ensures var (reps, files) := (copy.selection.Reps(), copy.files);
            copy.Check() <==>
              && TotalBytes(reps) + PathBytes(files) + 48 * |files| <= 4_194_304
              && |reps| <= 8 && |files| <= 4096 && (copy.secret ==> files == [])
              && (forall rep :: rep in reps ==>
                    1 <= |rep.mime| <= 255 && forall c :: c in rep.mime ==> 32 as char <= c <= 126 as char)
              && Validate(files)
  {
    ManifestSizeExactly(copy.files);
  }

  /** Only printable ASCII: its bytes are its characters. */
  predicate UsableMime(mime: string) {
    && mime != []
    && |mime| <= MAX_MIME_LEN
    && forall c :: c in mime ==> ' ' <= c <= '~'
  }

  /** A stamp, and the copy made under it for as long as it lasts. */
  datatype Clip = Clip(stamp: Stamp, copy: Option<Copy>)

  /** Nor is a copy that names such a path held. */
  lemma UnsafeCopiesAreRefused(copy: Copy, file: FileRef, part: Bytes)
    requires file in copy.files && part in Split(file.path, SLASH)
    requires part == [] || part == DOT || part == DOT_DOT || 0 in part
    ensures !copy.Check()
  {
    UnsafePathsAreRefused(copy.files, file, part);
  }
}
