/** Which types of a selection to carry, and which to announce. */
module Mime {
  import opened Basics

  const MARKER := "application/x-yank"
  const SECRET_HINT := "x-kde-passwordManagerHint"
  const PLAIN_TEXT := "text/plain;charset=utf-8"
  const URI_LIST := "text/uri-list"
  const GNOME_COPIED_FILES := "x-special/gnome-copied-files"

  /** The most types that are taken of a selection. */
  const MAX_REPS: nat := 8

  /** The names for plain text, best first. */
  const TEXT: seq<string> := [PLAIN_TEXT, "text/plain", "UTF8_STRING", "STRING", "TEXT"]

  /** The types that list files. */
  const LOCAL: seq<string> :=
    [URI_LIST, GNOME_COPIED_FILES, "x-special/nautilus-clipboard", "application/x-kde-cutselection"]

  /** Targets that are never taken. */
  const CHATTER: seq<string> :=
    ["TARGETS", "TIMESTAMP", "MULTIPLE", "SAVE_TARGETS", "DELETE",
     "INSERT_SELECTION", "INSERT_PROPERTY", MARKER, SECRET_HINT]

  function LowerChar(c: char): char {
    if 'A' <= c <= 'Z' then (c as int + 32) as char else c
  }

  predicate EqIgnoreCase(a: string, b: string) {
    |a| == |b| && forall i :: 0 <= i < |a| ==> LowerChar(a[i]) == LowerChar(b[i])
  }

  predicate Names(list: seq<string>, mime: string) {
    exists i :: 0 <= i < |list| && EqIgnoreCase(list[i], mime)
  }

  predicate IsTextAlias(mime: string) { Names(TEXT, mime) }

  /** One of those, in whatever case. */
  predicate IsLocal(mime: string) { Names(LOCAL, mime) }

  predicate IsText(mime: string) {
    IsTextAlias(mime) || "text/" <= mime || mime == "application/json" || mime == "application/xml"
  }

  predicate IsContent(mime: string) { mime !in CHATTER && '/' in mime }

  // ----------------------------------------------------------------- aliases

  /** The members of `list` that are not `mime` under another case. */
  function Others(list: seq<string>, mime: string): (others: seq<string>)
    ensures forall x :: x in others <==> x in list && !EqIgnoreCase(x, mime)
  {
    if list == [] then []
    else if EqIgnoreCase(list[0], mime) then Others(list[1..], mime)
    else [list[0]] + Others(list[1..], mime)
  }

  /** The type itself, followed by the other names of text if it is one. */
  function Aliases(mime: string): (aliases: seq<string>)
    ensures |aliases| > 0 && aliases[0] == mime
    ensures forall x :: x in aliases ==> x == mime || (x in TEXT && IsText(mime) && !IsLocal(mime))
  {
    if IsLocal(mime) || !IsText(mime) then [mime] else [mime] + Others(TEXT, mime)
  }

  predicate Distinct(list: seq<string>) {
    forall i, j :: 0 <= i < j < |list| ==> list[i] != list[j]
  }

  lemma {:induction false} OthersDistinct(list: seq<string>, mime: string)
    requires Distinct(list)
    ensures Distinct(Others(list, mime))
  {
    if list != [] {
      OthersDistinct(list[1..], mime);
      assert list[0] !in list[1..];
    }
  }

  lemma EqIgnoreCaseReflexive(a: string)
    ensures EqIgnoreCase(a, a)
  {}

  lemma AliasesDistinct(mime: string)
    ensures Distinct(Aliases(mime))
  {
    OthersDistinct(TEXT, mime);
    EqIgnoreCaseReflexive(mime);
  }

  /** The two kinds of names never meet: no two of them are even as long. */
  lemma TextIsNotLocal(mime: string)
    requires mime in TEXT
    ensures !IsLocal(mime) && IsText(mime)
  {
    EqIgnoreCaseReflexive(mime);
    var lengths := [24, 10, 11, 6, 4];
    assert forall i :: 0 <= i < |TEXT| ==> |TEXT[i]| == lengths[i];
    assert |LOCAL[0]| == 13 && |LOCAL[1]| == 28 && |LOCAL[2]| == 28 && |LOCAL[3]| == 30;
    assert forall i :: 0 <= i < |LOCAL| ==> |LOCAL[i]| >= 13 && |LOCAL[i]| != 24;
  }

  /** Announcing a payload adds no file-naming type it was not carried as. */
  lemma AliasesKeepLocality(mime: string)
    ensures forall x :: x in Aliases(mime) && IsLocal(x) ==> x == mime
  {
    forall x | x in Aliases(mime) && IsLocal(x) ensures x == mime {
      if x != mime { TextIsNotLocal(x); }
    }
  }

  // ---------------------------------------------------------------- choosing

  function FirstNamed(offered: seq<string>, wanted: string): Option<string> {
    if offered == [] then None
    else if EqIgnoreCase(offered[0], wanted) then Some(offered[0])
    else FirstNamed(offered[1..], wanted)
  }

  function BestText(wanted: seq<string>, offered: seq<string>): Option<string> {
    if wanted == [] then None
    else match FirstNamed(offered, wanted[0])
      case Some(mime) => Some(mime)
      case None => BestText(wanted[1..], offered)
  }

  function FirstContent(offered: seq<string>): Option<string> {
    if offered == [] then None
    else if IsContent(offered[0]) then Some(offered[0])
    else FirstContent(offered[1..])
  }

  /** The best name of text among those offered, or else the first type that
      is content at all. */
  function Choose(offered: seq<string>): Option<string> {
    match BestText(TEXT, offered)
    case Some(mime) => Some(mime)
    case None => FirstContent(offered)
  }

  /** A type captured beside the one that names the selection. */
  predicate Extra(mime: string, ignore: seq<string>) {
    IsContent(mime) && !IsTextAlias(mime) && mime !in ignore
  }

  predicate DistinctIgnoringCase(list: seq<string>) {
    forall i, j :: 0 <= i < j < |list| ==> !EqIgnoreCase(list[i], list[j])
  }

  /** A choice of the offered types: the one that names the selection, and where
      the others were. */
  predicate Chosen(offered: seq<string>, ignore: seq<string>, chosen: seq<string>, at: seq<nat>) {
    && |at| + 1 == |chosen| <= MAX_REPS && DistinctIgnoringCase(chosen)
    && (forall k :: 0 <= k < |at| ==>
          at[k] < |offered| && chosen[k + 1] == offered[at[k]] && Extra(offered[at[k]], ignore))
    && (forall j, k :: 0 <= j < k < |at| ==> at[j] < at[k])
  }

  /** Some type chosen before the one at `i` has the same name. */
  predicate Covered(chosen: seq<string>, at: seq<nat>, mime: string, i: nat)
    requires |at| + 1 == |chosen|
  {
    exists j :: 0 <= j < |chosen| && EqIgnoreCase(chosen[j], mime) && (j == 0 || at[j - 1] < i)
  }

  /** What qualifies and is not chosen came up again, or came too late. */
  predicate LeftOut(offered: seq<string>, ignore: seq<string>, chosen: seq<string>, at: seq<nat>, i: nat)
    requires |at| + 1 == |chosen| && i < |offered|
  {
    Extra(offered[i], ignore) && i !in at ==>
      Covered(chosen, at, offered[i], i) || (|chosen| == MAX_REPS && forall k :: 0 <= k < |at| ==> at[k] < i)
  }

  lemma StillLeftOut(
    offered: seq<string>, ignore: seq<string>, chosen: seq<string>, at: seq<nat>, i: nat, more: string, last: nat)
    requires |at| + 1 == |chosen| < MAX_REPS && i < |offered| && LeftOut(offered, ignore, chosen, at, i)
    ensures LeftOut(offered, ignore, chosen + [more], at + [last], i)
  {
    var longer, places := chosen + [more], at + [last];
    if Extra(offered[i], ignore) && i !in places {
      assert i !in at by { assert forall k :: 0 <= k < |at| ==> places[k] == at[k]; }
      var j :| 0 <= j < |chosen| && EqIgnoreCase(chosen[j], offered[i]) && (j == 0 || at[j - 1] < i);
      assert longer[j] == chosen[j] && (j > 0 ==> places[j - 1] == at[j - 1]);
    }
  }

  /** The loop that takes the type `Choose` names, then the others that qualify,
      each once and in the order they are offered, as long as there is room.
      `at` says where those were. */
  method Select(offered: seq<string>, ignore: seq<string>) returns (chosen: seq<string>, ghost at: seq<nat>)
    ensures chosen == [] <==> Choose(offered).None? || Choose(offered).value in ignore
    ensures chosen != [] ==> Choose(offered) == Some(chosen[0]) && Chosen(offered, ignore, chosen, at)
    ensures chosen != [] ==> forall i :: 0 <= i < |offered| ==> LeftOut(offered, ignore, chosen, at, i)
  {
    var primary := Choose(offered);
    at := [];
    if primary.None? || primary.value in ignore {
      return [], [];
    }
    chosen := [primary.value];
    for i := 0 to |offered|
      invariant chosen != [] && chosen[0] == primary.value && Chosen(offered, ignore, chosen, at)
      invariant forall k :: 0 <= k < |at| ==> at[k] < i
      invariant forall k :: 0 <= k < i ==> LeftOut(offered, ignore, chosen, at, k)
    {
      var mime := offered[i];
      if |chosen| >= MAX_REPS {
        break;
      }
      if Extra(mime, ignore) && !Names(chosen, mime) {
        forall k | 0 <= k < i ensures LeftOut(offered, ignore, chosen + [mime], at + [i], k) {
          StillLeftOut(offered, ignore, chosen, at, k, mime, i);
        }
        assert (at + [i])[|at|] == i && i in at + [i];
        chosen, at := chosen + [mime], at + [i];
      }
    }
  }

  // ---------------------------------------------------------- which comes first

  /** The offered type at `i` is one of the names of text, the one at `t`. */
  predicate TextAt(offered: seq<string>, i: int, t: int) {
    0 <= i < |offered| && 0 <= t < |TEXT| && EqIgnoreCase(offered[i], TEXT[t])
  }

  /** No better name of text is offered, nor that one earlier. */
  predicate BestTextAt(offered: seq<string>, i: int, t: int) {
    && TextAt(offered, i, t)
    && (forall s :: 0 <= s < t ==> forall j :: 0 <= j < |offered| ==> !EqIgnoreCase(offered[j], TEXT[s]))
    && (forall j :: 0 <= j < i ==> !EqIgnoreCase(offered[j], TEXT[t]))
  }

  predicate FirstContentAt(offered: seq<string>, i: int) {
    0 <= i < |offered| && IsContent(offered[i]) && forall j :: 0 <= j < i ==> !IsContent(offered[j])
  }

  lemma {:induction false} FirstNamedExactly(offered: seq<string>, wanted: string) returns (i: nat)
    ensures i <= |offered| && forall j :: 0 <= j < i ==> !EqIgnoreCase(offered[j], wanted)
    ensures FirstNamed(offered, wanted) == if i < |offered| then Some(offered[i]) else None
    ensures i < |offered| ==> EqIgnoreCase(offered[i], wanted)
  {
    i := 0;
    if offered != [] && !EqIgnoreCase(offered[0], wanted) {
      var later := FirstNamedExactly(offered[1..], wanted);
      i := later + 1;
      assert forall j :: 1 <= j < i ==> offered[j] == offered[1..][j - 1];
    }
  }

  lemma {:induction false} FirstContentExactly(offered: seq<string>) returns (i: nat)
    ensures i <= |offered| && forall j :: 0 <= j < i ==> !IsContent(offered[j])
    ensures FirstContent(offered) == if i < |offered| then Some(offered[i]) else None
    ensures i < |offered| ==> IsContent(offered[i])
  {
    i := 0;
    if offered != [] && !IsContent(offered[0]) {
      var later := FirstContentExactly(offered[1..]);
      i := later + 1;
      assert forall j :: 1 <= j < i ==> offered[j] == offered[1..][j - 1];
    }
  }

  lemma {:induction false} BestTextFrom(offered: seq<string>, from: nat) returns (t: nat, i: nat)
    requires from <= |TEXT|
    ensures from <= t <= |TEXT| && i <= |offered|
    ensures forall s, j :: from <= s < t && 0 <= j < |offered| ==> !EqIgnoreCase(offered[j], TEXT[s])
    ensures t < |TEXT| ==> TextAt(offered, i, t) && forall j :: 0 <= j < i ==> !EqIgnoreCase(offered[j], TEXT[t])
    ensures BestText(TEXT[from..], offered) == if t < |TEXT| then Some(offered[i]) else None
    decreases |TEXT| - from
  {
    t, i := from, 0;
    if from < |TEXT| {
      i := FirstNamedExactly(offered, TEXT[from]);
      assert TEXT[from..][0] == TEXT[from] && TEXT[from..][1..] == TEXT[from + 1..];
      if i == |offered| { t, i := BestTextFrom(offered, from + 1); }
    }
  }

  /** What names a selection: the best name of text that is offered, where it is
      offered first; or, with no text, the first type that is content; or
      nothing, without one. */
  lemma ChooseExactly(offered: seq<string>)
    ensures match Choose(offered)
            case Some(mime) =>
              || (exists i, t :: BestTextAt(offered, i, t) && mime == offered[i])
              || (&& (forall i, t :: !TextAt(offered, i, t))
                  && exists i :: FirstContentAt(offered, i) && mime == offered[i])
            case None => forall i :: 0 <= i < |offered| ==> !IsContent(offered[i]) && !IsTextAlias(offered[i])
  {
    var t, i := BestTextFrom(offered, 0);
    assert TEXT[0..] == TEXT;
    if t < |TEXT| {
      assert BestTextAt(offered, i, t);
    } else {
      var k := FirstContentExactly(offered);
      assert k < |offered| ==> FirstContentAt(offered, k);
      forall j | 0 <= j < |offered| ensures !IsTextAlias(offered[j]) {
        forall s | 0 <= s < |TEXT| ensures !EqIgnoreCase(TEXT[s], offered[j]) {
          assert !EqIgnoreCase(offered[j], TEXT[s]);
        }
      }
    }
  }

  // ------------------------------------------------------------- known types

  /** Letters are compared in either case, and nothing else is. */
  lemma CaseIsIgnored(a: string, b: string)
    ensures EqIgnoreCase(a, b) <==>
              |a| == |b| && forall i :: 0 <= i < |a| ==>
                || a[i] == b[i]
                || ('A' <= a[i] <= 'Z' && b[i] as int == a[i] as int + 32)
                || ('a' <= a[i] <= 'z' && b[i] as int == a[i] as int - 32)
  {}

  /** Exactly the names a payload goes by. */
  lemma AliasesExactly(mime: string, name: string)
    ensures name in Aliases(mime) <==>
              || name == mime
              || (IsText(mime) && !IsLocal(mime) && name in TEXT && !EqIgnoreCase(name, mime))
  {}

  /** Types as they are met with: the names of text, */
  lemma NamesOfText()
    ensures TEXT == ["text/plain;charset=utf-8", "text/plain", "UTF8_STRING", "STRING", "TEXT"]
    ensures IsTextAlias("utf8_string") && IsTextAlias("TEXT/PLAIN") && IsTextAlias("STRING")
    ensures !IsTextAlias("text/html") && !IsTextAlias("image/png") && !IsTextAlias("application/pdf")
    ensures !IsTextAlias("texture/x")
  {
    assert EqIgnoreCase(TEXT[2], "utf8_string");
    assert EqIgnoreCase(TEXT[1], "TEXT/PLAIN") && EqIgnoreCase(TEXT[3], "STRING");
    var lengths := [24, 10, 11, 6, 4];
    assert forall i :: 0 <= i < |TEXT| ==> |TEXT[i]| == lengths[i];
    assert |"text/html"| == 9 && |"image/png"| == 9 && |"application/pdf"| == 15 && |"texture/x"| == 9;
  }

  /** what else is text, and what is not, */
  lemma OtherText()
    ensures IsText("text/html") && IsText("text/css") && IsText("application/json") && IsText("application/xml")
    ensures IsText("STRING") && !IsText("image/png") && !IsText("application/pdf") && !IsText("texture/x")
  {
    NamesOfText();
    assert "image/png"[0] == 'i' && "application/pdf"[0] == 'a' && "text/"[0] == 't';
    assert "application/pdf"[12] == 'p' && "application/xml"[12] == 'x' && |"application/json"| == 16;
    assert |"image/png"| == 9 && |"application/xml"| == 15;
    assert "texture/x"[4] == 'u' && "text/"[4] == '/' && |"texture/x"| == 9 && !IsTextAlias("texture/x");
  }

  /** what lists files, and what does not, */
  lemma ListsOfFiles()
    ensures IsLocal("text/uri-list") && IsLocal("TEXT/URI-LIST") && IsLocal("x-special/gnome-copied-files")
    ensures IsLocal("x-special/nautilus-clipboard") && IsLocal("application/x-kde-cutselection")
    ensures !IsLocal("text/html") && !IsLocal("image/png")
  {
    EqIgnoreCaseReflexive(LOCAL[0]);
    EqIgnoreCaseReflexive(LOCAL[1]);
    EqIgnoreCaseReflexive(LOCAL[2]);
    EqIgnoreCaseReflexive(LOCAL[3]);
    assert EqIgnoreCase(LOCAL[0], "TEXT/URI-LIST");
    var lengths := [13, 28, 28, 30];
    assert forall i :: 0 <= i < |LOCAL| ==> |LOCAL[i]| == lengths[i];
    assert |"text/html"| == 9 && |"image/png"| == 9;
  }

  /** and what is content at all. */
  lemma WhatIsContent()
    ensures IsContent("image/png") && IsContent("text/html") && IsContent("text/uri-list")
    ensures !IsContent("TARGETS") && !IsContent("UTF8_STRING")
    ensures !IsContent("application/x-yank") && !IsContent("x-kde-passwordManagerHint")
  {
    assert "image/png"[5] == '/' && "text/html"[4] == '/' && "text/uri-list"[4] == '/';
    assert "image/png" !in CHATTER && "text/html" !in CHATTER && "text/uri-list" !in CHATTER;
  }

  /** Beside the one that names a selection, a type is taken when it has a slash,
      is no name of text in any case, is not the mark of a copy made here, and
      is not to be ignored. */
  lemma ExtrasExactly(mime: string, ignore: seq<string>)
    ensures Extra(mime, ignore) <==>
              && '/' in mime && mime != "application/x-yank" && mime !in ignore
              && !EqIgnoreCase("text/plain;charset=utf-8", mime) && !EqIgnoreCase("text/plain", mime)
  {
    assert EqIgnoreCase(TEXT[0], mime) || EqIgnoreCase(TEXT[1], mime) ==> IsTextAlias(mime);
    if '/' in mime {
      OnlyTheMarkIsContent(mime);
      forall i | 2 <= i < |TEXT| ensures !EqIgnoreCase(TEXT[i], mime) { NoSlashInOldNames(i, mime); }
    }
  }

  lemma OnlyTheMarkIsContent(mime: string)
    requires '/' in mime
    ensures mime in CHATTER <==> mime == "application/x-yank"
  {
    assert CHATTER[7] == MARKER;
    forall i | 0 <= i < |CHATTER| && i != 7 ensures CHATTER[i] != mime { assert '/' !in CHATTER[i]; }
  }

  lemma NoSlashInOldNames(i: nat, mime: string)
    requires 2 <= i < |TEXT| && '/' in mime
    ensures !EqIgnoreCase(TEXT[i], mime)
  {
    var k :| 0 <= k < |mime| && mime[k] == '/';
    if k < |TEXT[i]| { assert TEXT[i][k] in TEXT[i] && LowerChar(TEXT[i][k]) != LowerChar('/'); }
  }
}
