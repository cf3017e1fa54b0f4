/** What a selection becomes on the clipboard of one machine. */
module Serving {
  import opened Basics
  import opened UriLists
  import opened Files
  import opened Copies
  import Mime

  /** Bytes, and the names they can be asked for by. */
  datatype Serve = Serve(mimes: seq<string>, bytes: Bytes)

  // -------------------------------------------------- which representations

  function Where(reps: seq<Rep>, keep: string -> bool): (kept: seq<Rep>)
    ensures forall rep :: rep in kept <==> rep in reps && keep(rep.mime)
  {
    if reps == [] then []
    else if keep(reps[0].mime) then [reps[0]] + Where(reps[1..], keep)
    else Where(reps[1..], keep)
  }

  /** The representations that are no list of files; if none is left, the list
      itself as plain text. */
  function Stripped(copy: Copy): Selection {
    var reps := copy.selection.Reps();
    var kept := Where(reps, mime => !Mime.IsLocal(mime));
    if kept != [] then Selection(kept[0], kept[1..])
    else
      var uris := FindRep(reps, Mime.URI_LIST);
      Selection(Rep(Mime.PLAIN_TEXT, if uris.Some? then uris.value.bytes else reps[0].bytes), [])
  }

  function PathsUnder(tree: Bytes, files: seq<FileRef>): seq<Bytes> {
    seq(|files|, i requires 0 <= i < |files| => Join(tree, files[i].path))
  }

  /** Lists of the paths under `tree`, and the representations that are neither
      a list of files nor text. */
  function Rehomed(copy: Copy, tree: Bytes): Selection {
    var selection := OfFiles(PathsUnder(tree, copy.files));
    var others := Where(copy.selection.Reps(), mime => !Mime.IsLocal(mime) && !Mime.IsText(mime));
    Selection(selection.primary, selection.alternates + others)
  }

  /** The representations that mean anything on a machine: all of them where
      the copy was made, paths under `tree` where its files were laid out, and
      no path anywhere else. */
  function Carried(copy: Copy, ours: bool, tree: Option<Bytes>): Selection {
    match tree
    case Some(at) => Rehomed(copy, at)
    case None => if ours then copy.selection else Stripped(copy)
  }

  // ------------------------------------------------------------- announcing

  predicate Announced(serves: seq<Serve>, mime: string) {
    exists i :: 0 <= i < |serves| && mime in serves[i].mimes
  }

  function Unannounced(mimes: seq<string>, serves: seq<Serve>): (left: seq<string>)
    ensures forall x :: x in left <==> x in mimes && !Announced(serves, x)
  {
    if mimes == [] then []
    else if Announced(serves, mimes[0]) then Unannounced(mimes[1..], serves)
    else [mimes[0]] + Unannounced(mimes[1..], serves)
  }

  /** A payload with every name it goes by. */
  datatype Payload = Payload(names: seq<string>, bytes: Bytes)

  function PayloadsOf(reps: seq<Rep>): seq<Payload> {
    seq(|reps|, i requires 0 <= i < |reps| => Payload(Mime.Aliases(reps[i].mime), reps[i].bytes))
  }

  /** One more payload, under the names nothing before it took. */
  function AddServe(serves: seq<Serve>, payload: Payload): seq<Serve> {
    var mimes := Unannounced(payload.names, serves);
    if mimes == [] then serves else serves + [Serve(mimes, payload.bytes)]
  }

  function ServesOfFirst(payloads: seq<Payload>, n: nat): seq<Serve>
    requires n <= |payloads|
  {
    if n == 0 then [] else AddServe(ServesOfFirst(payloads, n - 1), payloads[n - 1])
  }

  function ServesOfAll(payloads: seq<Payload>): seq<Serve> { ServesOfFirst(payloads, |payloads|) }

  function ServesOf(reps: seq<Rep>): seq<Serve> { ServesOfAll(PayloadsOf(reps)) }

  /** The loop over the payloads, best first. */
  method ServeEach(payloads: seq<Payload>) returns (serves: seq<Serve>)
    ensures serves == ServesOfAll(payloads)
  {
    serves := [];
    for i := 0 to |payloads|
      invariant serves == ServesOfFirst(payloads, i)
    {
      var mimes := Unannounced(payloads[i].names, serves);
      if mimes == [] {
        continue;
      }
      serves := serves + [Serve(mimes, payloads[i].bytes)];
    }
  }

  /** The names of each representation, and then the loop. */
  method MakeServes(selection: Selection) returns (serves: seq<Serve>)
    ensures serves == ServesOf(selection.Reps())
  {
    serves := ServeEach(PayloadsOf(selection.Reps()));
  }

  /** The hint that keeps a secret out of the history of clipboard managers. */
  const SECRET_SERVE := Serve([Mime.SECRET_HINT], [115, 101, 99, 114, 101, 116])

  function OfferOf(copy: Copy, ours: bool, tree: Option<Bytes>): seq<Serve> {
    ServesOf(Carried(copy, ours, tree).Reps()) + if copy.secret then [SECRET_SERVE] else []
  }

  // ------------------------------------------------------------- properties

  predicate NoTypeTwice(serves: seq<Serve>) {
    && (forall i :: 0 <= i < |serves| ==> Mime.Distinct(serves[i].mimes))
    && (forall i, j, x :: 0 <= i < j < |serves| && x in serves[i].mimes ==> x !in serves[j].mimes)
  }

  lemma {:induction false} UnannouncedDistinct(mimes: seq<string>, serves: seq<Serve>)
    requires Mime.Distinct(mimes)
    ensures Mime.Distinct(Unannounced(mimes, serves))
  {
    if mimes != [] {
      UnannouncedDistinct(mimes[1..], serves);
      assert mimes[0] !in mimes[1..];
    }
  }

  lemma {:induction false} NothingAnnounced(mimes: seq<string>)
    ensures Unannounced(mimes, []) == mimes
  {
    if mimes != [] { NothingAnnounced(mimes[1..]); }
  }

  predicate AnnounceSomething(serves: seq<Serve>) {
    forall serve :: serve in serves ==> serve.mimes != []
  }

  lemma AddedIsDistinct(serves: seq<Serve>, payload: Payload)
    requires NoTypeTwice(serves) && AnnounceSomething(serves) && Mime.Distinct(payload.names)
    ensures NoTypeTwice(AddServe(serves, payload)) && AnnounceSomething(AddServe(serves, payload))
  {
    UnannouncedDistinct(payload.names, serves);
  }

  lemma {:induction false} DistinctWithin(payloads: seq<Payload>, n: nat)
    requires n <= |payloads| && forall i :: 0 <= i < |payloads| ==> Mime.Distinct(payloads[i].names)
    ensures NoTypeTwice(ServesOfFirst(payloads, n)) && AnnounceSomething(ServesOfFirst(payloads, n))
  {
    if n > 0 {
      DistinctWithin(payloads, n - 1);
      AddedIsDistinct(ServesOfFirst(payloads, n - 1), payloads[n - 1]);
    }
  }

  lemma ServesAreDistinct(reps: seq<Rep>)
    ensures NoTypeTwice(ServesOf(reps)) && AnnounceSomething(ServesOf(reps))
  {
    forall i | 0 <= i < |reps| ensures Mime.Distinct(PayloadsOf(reps)[i].names) { Mime.AliasesDistinct(reps[i].mime); }
    DistinctWithin(PayloadsOf(reps), |reps|);
  }

  /** Some payload goes by a name. */
  predicate GoesWithin(payloads: seq<Payload>, n: nat, mime: string)
    requires n <= |payloads|
  {
    exists k :: 0 <= k < n && mime in payloads[k].names
  }

  /** Some representation goes out under a name. */
  predicate Goes(reps: seq<Rep>, mime: string) {
    exists k :: 0 <= k < |reps| && mime in Mime.Aliases(reps[k].mime)
  }

  lemma AddedNames(serves: seq<Serve>, payload: Payload, mime: string)
    ensures Announced(AddServe(serves, payload), mime) <==> Announced(serves, mime) || mime in payload.names
  {
    var after, left := AddServe(serves, payload), Unannounced(payload.names, serves);
    if Announced(serves, mime) {
      var i :| 0 <= i < |serves| && mime in serves[i].mimes;
      assert mime in after[i].mimes;
    } else if mime in payload.names {
      assert mime in left && mime in after[|serves|].mimes;
    }
  }

  lemma {:induction false} AnnouncedWithin(payloads: seq<Payload>, n: nat, mime: string)
    requires n <= |payloads|
    ensures Announced(ServesOfFirst(payloads, n), mime) <==> GoesWithin(payloads, n, mime)
  {
    if n > 0 {
      AnnouncedWithin(payloads, n - 1, mime);
      AddedNames(ServesOfFirst(payloads, n - 1), payloads[n - 1], mime);
    }
  }

  /** What is announced is every name of every representation. */
  lemma AnnouncedExactly(reps: seq<Rep>, mime: string)
    ensures Announced(ServesOf(reps), mime) <==> Goes(reps, mime)
  {
    AnnouncedWithin(PayloadsOf(reps), |reps|, mime);
    assert forall k :: 0 <= k < |reps| ==> PayloadsOf(reps)[k].names == Mime.Aliases(reps[k].mime);
  }

  /** The best representation with a name gives it its bytes. */
  predicate IsBest(reps: seq<Rep>, k: nat, mime: string) {
    && k < |reps| && mime in Mime.Aliases(reps[k].mime)
    && forall j :: 0 <= j < k ==> mime !in Mime.Aliases(reps[j].mime)
  }

  predicate FromTheBest(reps: seq<Rep>, serve: Serve, mime: string) {
    exists k :: 0 <= k < |reps| && IsBest(reps, k, mime) && serve.bytes == reps[k].bytes
  }

  /** What a payload adds has its bytes, under names that are its own and were
      free. */
  lemma AddedLast(serves: seq<Serve>, payload: Payload, serve: Serve, mime: string)
    requires serve in AddServe(serves, payload) && serve !in serves && mime in serve.mimes
    ensures serve.bytes == payload.bytes && mime in payload.names && !Announced(serves, mime)
  {}

  lemma {:induction false} BestWithin(payloads: seq<Payload>, n: nat, serve: Serve, mime: string) returns (k: nat)
    requires n <= |payloads| && serve in ServesOfFirst(payloads, n) && mime in serve.mimes
    ensures k < n && mime in payloads[k].names && !GoesWithin(payloads, k, mime) && serve.bytes == payloads[k].bytes
  {
    var before := ServesOfFirst(payloads, n - 1);
    if serve in before {
      k := BestWithin(payloads, n - 1, serve, mime);
    } else {
      k := n - 1;
      AddedLast(before, payloads[k], serve, mime);
      AnnouncedWithin(payloads, k, mime);
    }
  }

  /** What several representations go by is served by the first of them. */
  lemma BestGivesTheBytes(reps: seq<Rep>, serve: Serve, mime: string) returns (k: nat)
    requires serve in ServesOf(reps) && mime in serve.mimes
    ensures IsBest(reps, k, mime) && serve.bytes == reps[k].bytes
  {
    k := BestWithin(PayloadsOf(reps), |reps|, serve, mime);
    assert forall j :: 0 <= j < |reps| ==> PayloadsOf(reps)[j].names == Mime.Aliases(reps[j].mime);
  }

  lemma {:induction false} FirstWithin(payloads: seq<Payload>, n: nat)
    requires 0 < n <= |payloads| && payloads[0].names != []
    ensures ServesOfFirst(payloads, n) != []
    ensures ServesOfFirst(payloads, n)[0] == Serve(payloads[0].names, payloads[0].bytes)
  {
    if n == 1 {
      NothingAnnounced(payloads[0].names);
      assert ServesOfFirst(payloads, 0) == [];
    } else {
      FirstWithin(payloads, n - 1);
      assert ServesOfFirst(payloads, n - 1) <= ServesOfFirst(payloads, n);
    }
  }

  lemma FirstServeIsPrimary(reps: seq<Rep>)
    requires reps != []
    ensures ServesOf(reps) != []
    ensures ServesOf(reps)[0] == Serve(Mime.Aliases(reps[0].mime), reps[0].bytes)
  {
    FirstWithin(PayloadsOf(reps), |reps|);
  }

  /** Every type announced belongs to a representation with those bytes. */
  predicate ServedFrom(serve: Serve, reps: seq<Rep>) {
    exists rep :: rep in reps && serve.bytes == rep.bytes &&
      forall x :: x in serve.mimes ==> x in Mime.Aliases(rep.mime)
  }

  lemma {:induction false} ComesFrom(payloads: seq<Payload>, n: nat, serve: Serve) returns (k: nat)
    requires n <= |payloads| && serve in ServesOfFirst(payloads, n)
    ensures k < n && serve.bytes == payloads[k].bytes && forall x :: x in serve.mimes ==> x in payloads[k].names
  {
    if serve in ServesOfFirst(payloads, n - 1) { k := ComesFrom(payloads, n - 1, serve); } else { k := n - 1; }
  }

  lemma ServesComeFrom(reps: seq<Rep>, serve: Serve)
    requires serve in ServesOf(reps)
    ensures ServedFrom(serve, reps)
  {
    var k := ComesFrom(PayloadsOf(reps), |reps|, serve);
    assert reps[k] in reps;
  }

  /** A selection reaches the compositor whole: every name of every
      representation once, with the bytes of the best representation that has
      it, and the primary's first. */
  lemma ServesAreFaithful(selection: Selection)
    ensures var reps, serves := selection.Reps(), ServesOf(selection.Reps());
            && NoTypeTwice(serves)
            && (forall serve :: serve in serves ==> serve.mimes != [])
            && (forall rep :: rep in reps ==> Announced(serves, rep.mime))
            && (forall mime :: Announced(serves, mime) <==> Goes(reps, mime))
            && (forall serve, mime :: serve in serves && mime in serve.mimes ==> FromTheBest(reps, serve, mime))
            && serves != [] && serves[0].bytes == selection.primary.bytes
            && selection.primary.mime in serves[0].mimes
  {
    var reps := selection.Reps();
    ServesAreDistinct(reps);
    FirstServeIsPrimary(reps);
    forall mime ensures Announced(ServesOf(reps), mime) <==> Goes(reps, mime) { AnnouncedExactly(reps, mime); }
    forall rep | rep in reps ensures Announced(ServesOf(reps), rep.mime) { OwnTypeGoes(reps, rep); }
    forall serve, mime | serve in ServesOf(reps) && mime in serve.mimes ensures FromTheBest(reps, serve, mime) {
      var k := BestGivesTheBytes(reps, serve, mime);
    }
  }

  lemma OwnTypeGoes(reps: seq<Rep>, rep: Rep)
    requires rep in reps
    ensures Announced(ServesOf(reps), rep.mime)
  {
    var k :| 0 <= k < |reps| && reps[k] == rep;
    assert Mime.Aliases(rep.mime)[0] == rep.mime;
    AnnouncedExactly(reps, rep.mime);
  }

  predicate OffersNoFile(serves: seq<Serve>) {
    forall serve, x :: serve in serves && x in serve.mimes ==> !Mime.IsLocal(x)
  }

  /** A file-naming type is only ever announced for the payload of a
      representation that had that very type. */
  lemma LocalServes(reps: seq<Rep>, serve: Serve, mime: string)
    requires serve in ServesOf(reps) && mime in serve.mimes && Mime.IsLocal(mime)
    ensures Rep(mime, serve.bytes) in reps
  {
    ServesComeFrom(reps, serve);
    var rep :| rep in reps && serve.bytes == rep.bytes && forall x :: x in serve.mimes ==> x in Mime.Aliases(rep.mime);
    Mime.AliasesKeepLocality(rep.mime);
    assert rep == Rep(mime, serve.bytes);
  }

  lemma SecretHintNamesNoFile()
    ensures !Mime.IsLocal(Mime.SECRET_HINT)
  {
    assert |Mime.SECRET_HINT| == 25;
    assert |Mime.LOCAL[0]| == 13 && |Mime.LOCAL[1]| == 28 && |Mime.LOCAL[2]| == 28 && |Mime.LOCAL[3]| == 30;
  }

  /** On a machine that neither made the clip nor laid its files out, no
      file-naming type is offered. */
  lemma ForeignPathsAreNotOffered(copy: Copy)
    ensures OffersNoFile(OfferOf(copy, false, None))
  {
    var reps := Stripped(copy).Reps();
    SecretHintNamesNoFile();
    Mime.TextIsNotLocal(Mime.PLAIN_TEXT);
    assert forall rep :: rep in reps ==> !Mime.IsLocal(rep.mime);
    forall serve, x | serve in OfferOf(copy, false, None) && x in serve.mimes ensures !Mime.IsLocal(x) {
      if serve in ServesOf(reps) && Mime.IsLocal(x) {
        LocalServes(reps, serve, x);
      }
    }
  }

  lemma LocalRepsOfRehomed(copy: Copy, tree: Bytes, rep: Rep)
    requires rep in Rehomed(copy, tree).Reps() && Mime.IsLocal(rep.mime)
    ensures var paths := PathsUnder(tree, copy.files);
            rep == Rep(Mime.URI_LIST, UriList(paths)) || rep == Rep(Mime.GNOME_COPIED_FILES, GnomeCopiedFiles(paths))
  {
    Mime.TextIsNotLocal(Mime.PLAIN_TEXT);
    var others := Where(copy.selection.Reps(), mime => !Mime.IsLocal(mime) && !Mime.IsText(mime));
    var files := OfFiles(PathsUnder(tree, copy.files));
    assert Rehomed(copy, tree).Reps() == [files.primary] + files.alternates + others;
    assert rep !in others;
    assert rep in [files.primary] + files.alternates;
  }

  predicate IsUnder(tree: Bytes, path: Bytes) {
    tree != [] && tree < path && (tree[|tree| - 1] == SLASH || path[|tree|] == SLASH)
  }

  lemma TreePathsAreUnder(tree: Bytes, files: seq<FileRef>)
    requires IsAbsolute(tree) && forall file :: file in files ==> IsSafe(file.path)
    ensures forall p :: p in PathsUnder(tree, files) ==> IsUnder(tree, p) && IsAbsolute(p)
  {
    forall i | 0 <= i < |files|
      ensures IsUnder(tree, Join(tree, files[i].path)) && IsAbsolute(Join(tree, files[i].path))
    {
      SafeIsRelative(files[i].path);
    }
  }

  /** Once the files are laid out, everything offered as a file is built from
      paths under the tree here, and a file manager reads exactly those. */
  lemma OnlyTreePathsAreOffered(copy: Copy, ours: bool, tree: Bytes, serve: Serve, mime: string)
    requires IsAbsolute(tree) && forall file :: file in copy.files ==> IsSafe(file.path)
    requires serve in OfferOf(copy, ours, Some(tree)) && mime in serve.mimes && Mime.IsLocal(mime)
    ensures var paths := PathsUnder(tree, copy.files);
            && (forall p :: p in paths ==> IsUnder(tree, p))
            && (serve.bytes == UriList(paths) || serve.bytes == GnomeCopiedFiles(paths))
            && (mime == Mime.URI_LIST ==> Paths(serve.bytes) == paths)
  {
    SecretHintNamesNoFile();
    var reps := Rehomed(copy, tree).Reps();
    assert serve in ServesOf(reps);
    LocalServes(reps, serve, mime);
    LocalRepsOfRehomed(copy, tree, Rep(mime, serve.bytes));
    assert |Mime.URI_LIST| != |Mime.GNOME_COPIED_FILES|;
    TreePathsAreUnder(tree, copy.files);
    PrintThenParse(PathsUnder(tree, copy.files));
  }

  lemma AddingTheHint(serves: seq<Serve>)
    requires NoTypeTwice(serves)
    ensures NoTypeTwice(serves + [SECRET_SERVE]) <==> !Announced(serves, Mime.SECRET_HINT)
  {
    var offer := serves + [SECRET_SERVE];
    var n := |serves|;
    assert forall i :: 0 <= i < n ==> offer[i] == serves[i];
    assert offer[n].mimes == [Mime.SECRET_HINT];
    if !Announced(serves, Mime.SECRET_HINT) {
      assert forall i, x :: 0 <= i < n && x in offer[i].mimes ==> x !in offer[n].mimes;
    } else {
      var i :| 0 <= i < n && Mime.SECRET_HINT in serves[i].mimes;
      assert Mime.SECRET_HINT in offer[i].mimes && Mime.SECRET_HINT in offer[n].mimes;
    }
  }

  /** Whether a copy carries the hint for secrets as a type of its own. */
  predicate CarriesHint(reps: seq<Rep>) {
    exists k :: 0 <= k < |reps| && reps[k].mime == Mime.SECRET_HINT
  }

  lemma HintIsItsOwnType()
    ensures Mime.SECRET_HINT !in Mime.TEXT && !Mime.IsText(Mime.SECRET_HINT) && !Mime.IsLocal(Mime.SECRET_HINT)
  {
    SecretHintNamesNoFile();
    assert |Mime.SECRET_HINT| == 25;
    var lengths := [24, 10, 11, 6, 4];
    assert forall i :: 0 <= i < |Mime.TEXT| ==> |Mime.TEXT[i]| == lengths[i];
    assert Mime.SECRET_HINT[0] == 'x' && "text/"[0] == 't';
    assert |"application/json"| == 16 && |"application/xml"| == 15;
  }

  lemma HintIsAnnouncedWhenCarried(reps: seq<Rep>)
    ensures Announced(ServesOf(reps), Mime.SECRET_HINT) <==> CarriesHint(reps)
  {
    HintIsItsOwnType();
    AnnouncedExactly(reps, Mime.SECRET_HINT);
    if CarriesHint(reps) {
      var k :| 0 <= k < |reps| && reps[k].mime == Mime.SECRET_HINT;
      assert Mime.Aliases(reps[k].mime)[0] == Mime.SECRET_HINT;
    }
  }

  lemma CarriesByMember(reps: seq<Rep>)
    ensures CarriesHint(reps) <==> exists rep :: rep in reps && rep.mime == Mime.SECRET_HINT
  {
    if CarriesHint(reps) {
      var k :| 0 <= k < |reps| && reps[k].mime == Mime.SECRET_HINT;
      assert reps[k] in reps;
    }
  }

  lemma HintIsRehomed(copy: Copy, tree: Bytes)
    ensures CarriesHint(Rehomed(copy, tree).Reps()) <==> CarriesHint(copy.selection.Reps())
  {
    HintIsItsOwnType();
    var reps := copy.selection.Reps();
    var others := Where(reps, mime => !Mime.IsLocal(mime) && !Mime.IsText(mime));
    var files := OfFiles(PathsUnder(tree, copy.files));
    assert Rehomed(copy, tree).Reps() == files.Reps() + others;
    HintIsNoFileType(PathsUnder(tree, copy.files));
    CarriesByMember(reps);
    CarriesByMember(files.Reps() + others);
  }

  lemma HintIsNotStripped(copy: Copy)
    ensures CarriesHint(Stripped(copy).Reps()) <==> CarriesHint(copy.selection.Reps())
  {
    HintIsItsOwnType();
    var reps := copy.selection.Reps();
    var kept := Where(reps, mime => !Mime.IsLocal(mime));
    assert kept != [] ==> Stripped(copy).Reps() == kept;
    assert |Mime.PLAIN_TEXT| == 24 && |Mime.SECRET_HINT| == 25;
    CarriesByMember(reps);
    CarriesByMember(Stripped(copy).Reps());
  }

  /** Neither stripping paths nor putting new ones in drops the hint or adds
      it. */
  lemma HintIsCarriedAlong(copy: Copy, ours: bool, tree: Option<Bytes>)
    ensures CarriesHint(Carried(copy, ours, tree).Reps()) <==> CarriesHint(copy.selection.Reps())
  {
    if tree.Some? { HintIsRehomed(copy, tree.value); } else if !ours { HintIsNotStripped(copy); }
  }

  lemma HintIsNoFileType(paths: seq<Bytes>)
    ensures forall rep :: rep in OfFiles(paths).Reps() ==> rep.mime != Mime.SECRET_HINT
  {
    assert |Mime.SECRET_HINT| == 25;
    assert |Mime.PLAIN_TEXT| == 24 && |Mime.URI_LIST| == 13 && |Mime.GNOME_COPIED_FILES| == 28;
  }

  /** With the hint for a secret added, a type is announced twice exactly when
      a secret copy carried the hint as a type of its own. */
  lemma SecretOfferRepeatsOnlyTheHint(copy: Copy, ours: bool, tree: Option<Bytes>)
    ensures NoTypeTwice(OfferOf(copy, ours, tree)) <==> !(copy.secret && CarriesHint(copy.selection.Reps()))
  {
    var serves := ServesOf(Carried(copy, ours, tree).Reps());
    ServesAreDistinct(Carried(copy, ours, tree).Reps());
    AddingTheHint(serves);
    HintIsAnnouncedWhenCarried(Carried(copy, ours, tree).Reps());
    HintIsCarriedAlong(copy, ours, tree);
    assert serves + [] == serves;
  }

  /** A secret offered with the hint for it as one of its types. */
  const HINTED := Copy(
    Selection(Rep(Mime.PLAIN_TEXT, [104, 105]), [Rep(Mime.SECRET_HINT, [115])]), true, None, [])

  lemma HintedSize(text: Rep, hint: Rep)
    ensures Selection(text, [hint]).Size() == |text.bytes| + |hint.bytes|
  {
    var reps := Selection(text, [hint]).Reps();
    assert reps[1..] == [hint] && [hint][1..] == [];
    assert TotalBytes([hint]) == |hint.bytes|;
  }

  lemma PlainTextIsUsable()
    ensures UsableMime(Mime.PLAIN_TEXT)
  {
    var mime := Mime.PLAIN_TEXT;
    assert |mime| == 24;
    forall i | 0 <= i < |mime| ensures ' ' <= mime[i] <= '~' {}
  }

  lemma HintIsUsable()
    ensures UsableMime(Mime.SECRET_HINT)
  {
    var mime := Mime.SECRET_HINT;
    assert |mime| == 25;
    forall i | 0 <= i < |mime| ensures ' ' <= mime[i] <= '~' {}
  }

  lemma TwoRepsCheck(text: Rep, hint: Rep)
    requires UsableMime(text.mime) && UsableMime(hint.mime) && |text.bytes| + |hint.bytes| <= 3
    ensures Copy(Selection(text, [hint]), true, None, []).Check()
  {
    HintedSize(text, hint);
    assert forall rep :: rep in Selection(text, [hint]).Reps() ==> rep == text || rep == hint;
    assert PathsIn([]) == [];
  }

  lemma HintedIsChecked()
    ensures HINTED.Check()
  {
    PlainTextIsUsable();
    HintIsUsable();
    TwoRepsCheck(HINTED.selection.primary, HINTED.selection.alternates[0]);
  }

  /** Such a copy passes every check, and is offered with the hint twice
      wherever it is. */
  lemma HintAnnouncedTwice(ours: bool, tree: Option<Bytes>)
    ensures HINTED.Check() && !NoTypeTwice(OfferOf(HINTED, ours, tree))
  {
    HintedIsChecked();
    assert HINTED.selection.Reps()[1].mime == Mime.SECRET_HINT;
    SecretOfferRepeatsOnlyTheHint(HINTED, ours, tree);
  }

  // ------------------------------------------- what is offered of a copy, whole

  /** `kept` is what there is in `reps` at these places, in that order. */
  predicate Picks(reps: seq<Rep>, kept: seq<Rep>, at: seq<nat>) {
    && |at| == |kept|
    && (forall i, j :: 0 <= i < j < |at| ==> at[i] < at[j])
    && (forall i :: 0 <= i < |at| ==> at[i] < |reps| && kept[i] == reps[at[i]])
  }

  function Shifted(at: seq<nat>): (moved: seq<nat>)
    ensures |moved| == |at| && forall i :: 0 <= i < |at| ==> moved[i] == at[i] + 1
  {
    seq(|at|, i requires 0 <= i < |at| => at[i] + 1)
  }

  lemma PicksShifted(first: Rep, rest: seq<Rep>, kept: seq<Rep>, at: seq<nat>)
    requires Picks(rest, kept, at)
    ensures Picks([first] + rest, kept, Shifted(at))
    ensures Picks([first] + rest, [first] + kept, [0] + Shifted(at))
  {
    var reps, moved := [first] + rest, [0] + Shifted(at);
    assert forall i :: 0 <= i < |at| ==> reps[at[i] + 1] == rest[at[i]];
    assert forall i :: 1 <= i < |moved| ==> moved[i] == at[i - 1] + 1;
  }

  /** Where the representations that are kept were. */
  lemma {:induction false} WhereTheyWere(reps: seq<Rep>, keep: string -> bool) returns (at: seq<nat>)
    ensures Picks(reps, Where(reps, keep), at)
    ensures forall k :: 0 <= k < |reps| && keep(reps[k].mime) ==> k in at
  {
    at := [];
    if reps != [] {
      var first, rest := reps[0], reps[1..];
      var later := WhereTheyWere(rest, keep);
      assert reps == [first] + rest;
      PicksShifted(first, rest, Where(rest, keep), later);
      at := if keep(first.mime) then [0] + Shifted(later) else Shifted(later);
      forall k | 0 <= k < |reps| && keep(reps[k].mime) ensures k in at {
        if k > 0 {
          assert rest[k - 1] == reps[k];
          ShiftedAlong(later, k - 1);
        } else {
          assert at[0] == 0;
        }
      }
    }
  }

  lemma ShiftedAlong(at: seq<nat>, k: nat)
    requires k in at
    ensures k + 1 in Shifted(at) && k + 1 in [0] + Shifted(at)
  {
    var i :| 0 <= i < |at| && at[i] == k;
    assert Shifted(at)[i] == k + 1;
  }

  /** What is added to the offer of a secret, and to no other. */
  predicate IsHint(copy: Copy, serve: Serve) { copy.secret && serve.mimes == [Mime.SECRET_HINT] }

  /** A secret's offer ends with the hint, saying `secret`. */
  lemma SecretsAreHinted(copy: Copy, ours: bool, tree: Option<Bytes>)
    requires copy.secret
    ensures var offer := OfferOf(copy, ours, tree);
            offer != [] && offer[|offer| - 1] == Serve(["x-kde-passwordManagerHint"], [115, 101, 99, 114, 101, 116])
  {}

  /** What an offer has from the representations it is made of, hint aside. */
  lemma OfferFollows(copy: Copy, ours: bool, tree: Option<Bytes>)
    ensures var reps, offer := Carried(copy, ours, tree).Reps(), OfferOf(copy, ours, tree);
            && (forall mime :: Goes(reps, mime) ==> Announced(offer, mime))
            && (forall serve, mime :: serve in offer && mime in serve.mimes ==>
                  IsHint(copy, serve) || FromTheBest(reps, serve, mime))
            && offer != [] && offer[0] == Serve(Mime.Aliases(reps[0].mime), reps[0].bytes)
  {
    var reps, offer := Carried(copy, ours, tree).Reps(), OfferOf(copy, ours, tree);
    var serves := ServesOf(reps);
    FirstServeIsPrimary(reps);
    assert forall i :: 0 <= i < |serves| ==> offer[i] == serves[i];
    forall mime | Goes(reps, mime) ensures Announced(offer, mime) {
      AnnouncedExactly(reps, mime);
      var i :| 0 <= i < |serves| && mime in serves[i].mimes;
      assert mime in offer[i].mimes;
    }
    forall serve, mime | serve in offer && mime in serve.mimes
      ensures IsHint(copy, serve) || FromTheBest(reps, serve, mime)
    {
      if serve in serves { var k := BestGivesTheBytes(reps, serve, mime); }
    }
  }

  /** Where it was copied, every name of every representation is offered, with
      the bytes of the best one that goes by it, and the primary leads. */
  lemma OwnCopiesAreOfferedWhole(copy: Copy)
    ensures var reps, offer := copy.selection.Reps(), OfferOf(copy, true, None);
            && (forall k, mime :: 0 <= k < |reps| && mime in Mime.Aliases(reps[k].mime) ==> Announced(offer, mime))
            && (forall serve, mime :: serve in offer && mime in serve.mimes ==>
                  IsHint(copy, serve) || FromTheBest(reps, serve, mime))
            && offer != [] && offer[0].bytes == copy.selection.primary.bytes
            && copy.selection.primary.mime in offer[0].mimes
  {
    OfferFollows(copy, true, None);
    var reps := copy.selection.Reps();
    forall k, mime | 0 <= k < |reps| && mime in Mime.Aliases(reps[k].mime)
      ensures Announced(OfferOf(copy, true, None), mime)
    {
      assert Goes(reps, mime);
    }
  }

  /** A representation that is no list of files. */
  predicate PlainAt(reps: seq<Rep>, k: int) { 0 <= k < |reps| && !Mime.IsLocal(reps[k].mime) }

  /** The first of those that goes by a name. */
  predicate FirstPlain(reps: seq<Rep>, k: int, mime: string) {
    && PlainAt(reps, k) && mime in Mime.Aliases(reps[k].mime)
    && forall j :: 0 <= j < k && PlainAt(reps, j) ==> mime !in Mime.Aliases(reps[j].mime)
  }

  ghost predicate FromThePlain(reps: seq<Rep>, serve: Serve, mime: string) {
    exists k :: FirstPlain(reps, k, mime) && serve.bytes == reps[k].bytes
  }

  ghost predicate PlainLeads(reps: seq<Rep>, offer: seq<Serve>) {
    exists k :: PlainAt(reps, k) && (forall j :: 0 <= j < k ==> !PlainAt(reps, j))
                && offer != [] && offer[0] == Serve(Mime.Aliases(reps[k].mime), reps[k].bytes)
  }

  /** All of the plain ones, and nothing else. */
  ghost predicate PicksThePlain(reps: seq<Rep>, kept: seq<Rep>, at: seq<nat>) {
    && Picks(reps, kept, at)
    && (forall i :: 0 <= i < |at| ==> PlainAt(reps, at[i]))
    && (forall k :: PlainAt(reps, k) ==> k in at)
  }

  lemma StrippedPicksThePlain(copy: Copy) returns (at: seq<nat>)
    requires exists k :: PlainAt(copy.selection.Reps(), k)
    ensures PicksThePlain(copy.selection.Reps(), Stripped(copy).Reps(), at)
  {
    at := PickingThePlain(copy.selection.Reps());
    var some :| PlainAt(copy.selection.Reps(), some);
    assert some in at;
    StrippedOnce(copy);
  }

  lemma PickingThePlain(reps: seq<Rep>) returns (at: seq<nat>)
    ensures PicksThePlain(reps, Where(reps, mime => !Mime.IsLocal(mime)), at)
  {
    at := WhereTheyWere(reps, mime => !Mime.IsLocal(mime));
    var kept := Where(reps, mime => !Mime.IsLocal(mime));
    forall i | 0 <= i < |at| ensures PlainAt(reps, at[i]) { assert kept[i] in kept; }
  }

  lemma StrippedOnce(copy: Copy)
    ensures var kept := Where(copy.selection.Reps(), mime => !Mime.IsLocal(mime));
            kept != [] ==> Stripped(copy).Reps() == kept
  {}

  /** What is best among the kept ones is the first plain one. */
  lemma BestOfThePlain(reps: seq<Rep>, kept: seq<Rep>, at: seq<nat>, serve: Serve, mime: string)
    requires PicksThePlain(reps, kept, at) && FromTheBest(kept, serve, mime)
    ensures FromThePlain(reps, serve, mime)
  {
    var i :| 0 <= i < |kept| && IsBest(kept, i, mime) && serve.bytes == kept[i].bytes;
    forall j | 0 <= j < at[i] && PlainAt(reps, j) ensures mime !in Mime.Aliases(reps[j].mime) {
      var h :| 0 <= h < |at| && at[h] == j;
      assert h < i;
      assert kept[h] == reps[j];
    }
    assert FirstPlain(reps, at[i], mime);
  }

  lemma PlainGoes(reps: seq<Rep>, kept: seq<Rep>, at: seq<nat>, k: int, mime: string)
    requires PicksThePlain(reps, kept, at) && PlainAt(reps, k) && mime in Mime.Aliases(reps[k].mime)
    ensures Goes(kept, mime)
  {
    var i :| 0 <= i < |at| && at[i] == k;
    assert mime in Mime.Aliases(kept[i].mime);
  }

  lemma FirstOfThePlain(reps: seq<Rep>, kept: seq<Rep>, at: seq<nat>, offer: seq<Serve>)
    requires PicksThePlain(reps, kept, at) && kept != []
    requires offer != [] && offer[0] == Serve(Mime.Aliases(kept[0].mime), kept[0].bytes)
    ensures PlainLeads(reps, offer)
  {
    assert forall i :: 0 <= i < |at| ==> at[0] <= at[i];
    assert forall k :: k in at ==> at[0] <= k;
    assert PlainAt(reps, at[0]);
  }

  /** On another machine that has no tree of the files, the same is offered of
      every representation that is no list of files, the first of them
      leading. */
  lemma ForeignCopiesAreOfferedWhole(copy: Copy)
    requires exists k :: PlainAt(copy.selection.Reps(), k)
    ensures var reps, offer := copy.selection.Reps(), OfferOf(copy, false, None);
            && (forall k, mime :: PlainAt(reps, k) && mime in Mime.Aliases(reps[k].mime) ==> Announced(offer, mime))
            && (forall serve, mime :: serve in offer && mime in serve.mimes ==>
                  IsHint(copy, serve) || FromThePlain(reps, serve, mime))
            && PlainLeads(reps, offer)
  {
    var reps, kept, offer := copy.selection.Reps(), Stripped(copy).Reps(), OfferOf(copy, false, None);
    var at := StrippedPicksThePlain(copy);
    OfferFollows(copy, false, None);
    forall k, mime | PlainAt(reps, k) && mime in Mime.Aliases(reps[k].mime) ensures Announced(offer, mime) {
      PlainGoes(reps, kept, at, k, mime);
    }
    forall serve, mime | serve in offer && mime in serve.mimes
      ensures IsHint(copy, serve) || FromThePlain(reps, serve, mime)
    {
      if FromTheBest(kept, serve, mime) { BestOfThePlain(reps, kept, at, serve, mime); }
    }
    FirstOfThePlain(reps, kept, at, offer);
  }

  /** The bytes of the first list of URIs, or of the primary without one. */
  ghost predicate IsListed(reps: seq<Rep>, bytes: Bytes) {
    || (exists k ::
          IsUriListAt(reps, k) && (forall j :: 0 <= j < k ==> !IsUriListAt(reps, j)) && bytes == reps[k].bytes)
    || ((forall k :: !IsUriListAt(reps, k)) && reps != [] && bytes == reps[0].bytes)
  }

  predicate IsUriListAt(reps: seq<Rep>, k: int) { 0 <= k < |reps| && Mime.EqIgnoreCase(reps[k].mime, Mime.URI_LIST) }

  lemma {:induction false} FoundAt(reps: seq<Rep>, mime: string) returns (k: nat)
    ensures k <= |reps|
    ensures forall j :: 0 <= j < k ==> !Mime.EqIgnoreCase(reps[j].mime, mime)
    ensures k < |reps| ==> Mime.EqIgnoreCase(reps[k].mime, mime) && FindRep(reps, mime) == Some(reps[k])
    ensures k == |reps| ==> FindRep(reps, mime) == None
  {
    k := 0;
    if reps != [] && !Mime.EqIgnoreCase(reps[0].mime, mime) {
      var rest := FoundAt(reps[1..], mime);
      k := rest + 1;
      assert forall j :: 1 <= j < k ==> reps[j] == reps[1..][j - 1];
    }
  }

  /** And where there are only lists of files, their text is. */
  lemma ForeignListsAreOfferedAsText(copy: Copy)
    requires forall k :: !PlainAt(copy.selection.Reps(), k)
    ensures var reps, offer := copy.selection.Reps(), OfferOf(copy, false, None);
            && offer != [] && IsListed(reps, offer[0].bytes)
            && offer[0].mimes == Mime.Aliases(Mime.PLAIN_TEXT)
            && |offer| == if copy.secret then 2 else 1
  {
    var reps := copy.selection.Reps();
    var kept := Where(reps, mime => !Mime.IsLocal(mime));
    if kept != [] {
      assert kept[0] in kept && kept[0] in reps;
      var k :| 0 <= k < |reps| && reps[k] == kept[0];
      assert PlainAt(reps, k);
    }
    assert kept == [];
    var k := FoundAt(reps, Mime.URI_LIST);
    assert forall j :: 0 <= j < k ==> !IsUriListAt(reps, j);
    OfferFollows(copy, false, None);
    OneServeOnly(Stripped(copy).Reps());
  }

  lemma OneServeOnly(reps: seq<Rep>)
    requires |reps| == 1
    ensures |ServesOf(reps)| == 1
  {
    FirstServeIsPrimary(reps);
    assert ServesOfFirst(PayloadsOf(reps), 0) == [];
  }

  /** A representation that goes along with files laid out: neither a list of
      files nor text. */
  predicate BesideAt(reps: seq<Rep>, k: int) {
    0 <= k < |reps| && !Mime.IsLocal(reps[k].mime) && !Mime.IsText(reps[k].mime)
  }

  predicate FirstBeside(reps: seq<Rep>, k: int, mime: string) {
    BesideAt(reps, k) && reps[k].mime == mime && forall j :: 0 <= j < k && BesideAt(reps, j) ==> reps[j].mime != mime
  }

  /** What is beside, and where it was. */
  ghost predicate PicksBeside(copy: Copy, tree: Bytes, at: seq<nat>) {
    var reps, all := copy.selection.Reps(), Rehomed(copy, tree).Reps();
    && |all| == 3 + |at| && all[..3] == OfFiles(PathsUnder(tree, copy.files)).Reps()
    && Picks(reps, all[3..], at)
    && (forall i :: 0 <= i < |at| ==> BesideAt(reps, at[i]))
    && (forall k :: BesideAt(reps, k) ==> k in at)
  }

  lemma RehomedPicksBeside(copy: Copy, tree: Bytes) returns (at: seq<nat>)
    ensures PicksBeside(copy, tree, at)
  {
    var reps, files := copy.selection.Reps(), OfFiles(PathsUnder(tree, copy.files));
    var others := Where(reps, mime => !Mime.IsLocal(mime) && !Mime.IsText(mime));
    at := WhereTheyWere(reps, mime => !Mime.IsLocal(mime) && !Mime.IsText(mime));
    forall i | 0 <= i < |at| ensures BesideAt(reps, at[i]) { assert others[i] in others; }
    ThreeAhead(files.primary, files.alternates, others);
  }

  lemma ThreeAhead(primary: Rep, alternates: seq<Rep>, others: seq<Rep>)
    requires |alternates| == 2
    ensures var reps := Selection(primary, alternates + others).Reps();
            reps[..3] == Selection(primary, alternates).Reps() && reps[3..] == others
  {
    assert [primary] + (alternates + others) == ([primary] + alternates) + others;
  }

  /** Once the files are laid out, their paths in the tree are offered as text,
      which leads, and as both kinds of lists. */
  lemma LaidOutFilesAreOffered(copy: Copy, ours: bool, tree: Bytes)
    ensures var offer, paths := OfferOf(copy, ours, Some(tree)), PathsUnder(tree, copy.files);
            && offer != [] && offer[0] == Serve(Mime.Aliases(Mime.PLAIN_TEXT), AsText(paths))
            && Announced(offer, Mime.URI_LIST) && Announced(offer, Mime.GNOME_COPIED_FILES)
            && (forall serve :: serve in offer && Mime.URI_LIST in serve.mimes ==>
                  IsHint(copy, serve) || serve.bytes == UriList(paths))
            && (forall serve :: serve in offer && Mime.GNOME_COPIED_FILES in serve.mimes ==>
                  IsHint(copy, serve) || serve.bytes == GnomeCopiedFiles(paths))
  {
    var at := RehomedPicksBeside(copy, tree);
    var all, offer, paths := Rehomed(copy, tree).Reps(), OfferOf(copy, ours, Some(tree)), PathsUnder(tree, copy.files);
    OfferFollows(copy, ours, Some(tree));
    FileTypesAreThemselves();
    assert all[0] == all[..3][0] && all[1] == all[..3][1] && all[2] == all[..3][2];
    assert IsBest(all, 1, Mime.URI_LIST) && IsBest(all, 2, Mime.GNOME_COPIED_FILES);
    forall serve | serve in offer && Mime.URI_LIST in serve.mimes
      ensures IsHint(copy, serve) || serve.bytes == UriList(paths)
    {
      if FromTheBest(all, serve, Mime.URI_LIST) { BestIsUnique(all, 1, Mime.URI_LIST, serve); }
    }
    forall serve | serve in offer && Mime.GNOME_COPIED_FILES in serve.mimes
      ensures IsHint(copy, serve) || serve.bytes == GnomeCopiedFiles(paths)
    {
      if FromTheBest(all, serve, Mime.GNOME_COPIED_FILES) { BestIsUnique(all, 2, Mime.GNOME_COPIED_FILES, serve); }
    }
  }

  /** And every representation that is neither text nor a list of files goes
      along, the first of each type with its bytes. */
  lemma TheRestGoesAlong(copy: Copy, ours: bool, tree: Bytes)
    ensures var reps, offer := copy.selection.Reps(), OfferOf(copy, ours, Some(tree));
            && (forall k :: BesideAt(reps, k) ==> Announced(offer, reps[k].mime))
            && (forall serve, k, mime :: serve in offer && FirstBeside(reps, k, mime) && mime in serve.mimes ==>
                  IsHint(copy, serve) || serve.bytes == reps[k].bytes)
  {
    var reps, offer, all := copy.selection.Reps(), OfferOf(copy, ours, Some(tree)), Rehomed(copy, tree).Reps();
    var at := RehomedPicksBeside(copy, tree);
    OfferFollows(copy, ours, Some(tree));
    forall k | BesideAt(reps, k) ensures Announced(offer, reps[k].mime) {
      var i :| 0 <= i < |at| && at[i] == k;
      assert all[3..][i] == all[3 + i];
      assert Mime.Aliases(all[3 + i].mime)[0] == reps[k].mime;
      assert Goes(all, reps[k].mime);
    }
    forall serve, k, mime | serve in offer && FirstBeside(reps, k, mime) && mime in serve.mimes
      ensures IsHint(copy, serve) || serve.bytes == reps[k].bytes
    {
      if FromTheBest(all, serve, mime) {
        var i :| 0 <= i < |at| && at[i] == k;
        BesideIsBest(copy, tree, at, i);
        BestIsUnique(all, 3 + i, mime, serve);
        assert all[3..][i] == all[3 + i];
      }
    }
  }

  lemma BestIsUnique(reps: seq<Rep>, k: nat, mime: string, serve: Serve)
    requires IsBest(reps, k, mime) && FromTheBest(reps, serve, mime)
    ensures serve.bytes == reps[k].bytes
  {
    var j :| 0 <= j < |reps| && IsBest(reps, j, mime) && serve.bytes == reps[j].bytes;
    assert j == k;
  }

  lemma FileTypesAreThemselves()
    ensures Mime.IsLocal(Mime.URI_LIST) && Mime.IsLocal(Mime.GNOME_COPIED_FILES)
    ensures Mime.Aliases(Mime.URI_LIST) == [Mime.URI_LIST]
    ensures Mime.Aliases(Mime.GNOME_COPIED_FILES) == [Mime.GNOME_COPIED_FILES]
    ensures Mime.URI_LIST !in Mime.Aliases(Mime.PLAIN_TEXT) && Mime.GNOME_COPIED_FILES !in Mime.Aliases(Mime.PLAIN_TEXT)
    ensures Mime.URI_LIST != Mime.GNOME_COPIED_FILES
  {
    Mime.EqIgnoreCaseReflexive(Mime.URI_LIST);
    Mime.EqIgnoreCaseReflexive(Mime.GNOME_COPIED_FILES);
    assert Mime.EqIgnoreCase(Mime.LOCAL[0], Mime.URI_LIST) && Mime.EqIgnoreCase(Mime.LOCAL[1], Mime.GNOME_COPIED_FILES);
    Mime.AliasesKeepLocality(Mime.PLAIN_TEXT);
    assert |Mime.URI_LIST| == 13 && |Mime.GNOME_COPIED_FILES| == 28 && |Mime.PLAIN_TEXT| == 24;
  }

  /** No text and no list of files goes by the name of one beside them. */
  lemma NotAmongTheFiles(copy: Copy, tree: Bytes, at: seq<nat>, j: nat, mime: string)
    requires PicksBeside(copy, tree, at) && j < 3 && !Mime.IsLocal(mime) && !Mime.IsText(mime)
    ensures mime !in Mime.Aliases(Rehomed(copy, tree).Reps()[j].mime)
  {
    var all := Rehomed(copy, tree).Reps();
    FileTypesAreThemselves();
    PlainTextIsText();
    assert all[j] == all[..3][j];
  }

  lemma NotBefore(reps: seq<Rep>, kept: seq<Rep>, at: seq<nat>, h: nat, i: nat)
    requires Picks(reps, kept, at) && h < i < |at| && BesideAt(reps, at[h])
    requires FirstBeside(reps, at[i], reps[at[i]].mime)
    ensures reps[at[i]].mime !in Mime.Aliases(kept[h].mime)
  {}

  lemma BesideIsBest(copy: Copy, tree: Bytes, at: seq<nat>, i: nat)
    requires PicksBeside(copy, tree, at) && i < |at|
    requires FirstBeside(copy.selection.Reps(), at[i], copy.selection.Reps()[at[i]].mime)
    ensures IsBest(Rehomed(copy, tree).Reps(), 3 + i, copy.selection.Reps()[at[i]].mime)
  {
    var reps, all := copy.selection.Reps(), Rehomed(copy, tree).Reps();
    var mime := reps[at[i]].mime;
    forall j | 0 <= j < 3 + i ensures mime !in Mime.Aliases(all[j].mime) {
      if j < 3 {
        NotAmongTheFiles(copy, tree, at, j, mime);
      } else {
        NotBefore(reps, all[3..], at, j - 3, i);
        assert all[3..][j - 3] == all[j];
      }
    }
    assert all[3..][i] == all[3 + i];
  }

  lemma PlainTextIsText()
    ensures forall x :: x in Mime.Aliases(Mime.PLAIN_TEXT) ==> Mime.IsText(x)
  {
    Mime.EqIgnoreCaseReflexive(Mime.PLAIN_TEXT);
    forall x | x in Mime.Aliases(Mime.PLAIN_TEXT) ensures Mime.IsText(x) { Mime.TextIsNotLocal(x); }
  }
}
