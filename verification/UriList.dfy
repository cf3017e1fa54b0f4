/** `text/uri-list` payloads: how file paths are named on the clipboard, and
    read back. A path is a string of arbitrary bytes, as on Unix. */
module UriLists {
  import opened Basics

  const LF: Byte := 10
  const CR: Byte := 13
  const HASH_SIGN: Byte := 35
  const PERCENT: Byte := 37
  const SLASH: Byte := 47

  /** `file:` */
  const FILE: Bytes := [102, 105, 108, 101, 58]

  /** `//` */
  const AUTHORITY: Bytes := [47, 47]

  /** `localhost` */
  const LOCALHOST: Bytes := [108, 111, 99, 97, 108, 104, 111, 115, 116]

  /** `copy` */
  const COPY: Bytes := [99, 111, 112, 121]

  predicate IsAbsolute(path: Bytes) { path != [] && path[0] == SLASH }

  /** `Path::join`: an absolute path replaces what it is joined to. */
  function Join(root: Bytes, path: Bytes): Bytes {
    if IsAbsolute(path) then path
    else if root == [] || root[|root| - 1] == SLASH then root + path
    else root + [SLASH] + path
  }

  // ---------------------------------------------------------------- escaping

  /** Letters, digits and four signs (section 2.3 of RFC 3986), and the slash. */
  predicate Unreserved(b: Byte) {
    || 48 <= b <= 57 || 65 <= b <= 90 || 97 <= b <= 122
    || b == 45 || b == 46 || b == 95 || b == 126 || b == SLASH
  }

  function HexDigit(n: int): Byte
    requires 0 <= n < 16
  {
    if n < 10 then 48 + n else 55 + n
  }

  /** The value of a hexadecimal digit, in either case. */
  function HexValue(b: Byte): (v: Option<int>)
    ensures v.Some? ==> 0 <= v.value < 16
  {
    if 48 <= b <= 57 then Some(b - 48)
    else if 65 <= b <= 70 then Some(b - 55)
    else if 97 <= b <= 102 then Some(b - 87)
    else None
  }

  function EscapeByte(b: Byte): Bytes {
    if Unreserved(b) then [b] else [PERCENT, HexDigit(b / 16), HexDigit(b % 16)]
  }

  function Escape(path: Bytes): Bytes {
    if path == [] then [] else EscapeByte(path[0]) + Escape(path[1..])
  }

  /** Section 2.1 of RFC 3986. A `%` that no two digits follow is itself. */
  function PercentDecode(text: Bytes): Bytes {
    if text == [] then []
    else if text[0] == PERCENT && |text| >= 3 && HexValue(text[1]).Some? && HexValue(text[2]).Some? then
      [HexValue(text[1]).value * 16 + HexValue(text[2]).value] + PercentDecode(text[3..])
    else
      [text[0]] + PercentDecode(text[1..])
  }

  lemma {:induction false} DecodeEscape(path: Bytes)
    ensures PercentDecode(Escape(path)) == path
  {
    if path != [] {
      var rest := Escape(path[1..]);
      DecodeEscape(path[1..]);
      if Unreserved(path[0]) {
        assert Escape(path) == [path[0]] + rest;
        assert ([path[0]] + rest)[1..] == rest;
      } else {
        var high, low := HexDigit(path[0] / 16), HexDigit(path[0] % 16);
        assert HexValue(high) == Some(path[0] / 16) && HexValue(low) == Some(path[0] % 16);
        assert Escape(path) == [PERCENT, high, low] + rest;
        assert ([PERCENT, high, low] + rest)[3..] == rest;
      }
    }
  }

  lemma {:induction false} EscapeHasNoBreaks(path: Bytes)
    ensures LF !in Escape(path) && CR !in Escape(path) && HASH_SIGN !in Escape(path)
  {
    if path != [] { EscapeHasNoBreaks(path[1..]); }
  }

  // ---------------------------------------------------------------- printing

  /** One line of a list, without its line break. */
  function Line(path: Bytes): Bytes { FILE + AUTHORITY + Escape(path) }

  function UriList(paths: seq<Bytes>): Bytes {
    if paths == [] then [] else Line(paths[0]) + [CR, LF] + UriList(paths[1..])
  }

  function GnomeLines(paths: seq<Bytes>): Bytes {
    if paths == [] then [] else [LF] + Line(paths[0]) + GnomeLines(paths[1..])
  }

  /** `copy` on a line of its own, then one URI a line. */
  function GnomeCopiedFiles(paths: seq<Bytes>): Bytes { COPY + GnomeLines(paths) }

  function AsText(paths: seq<Bytes>): Bytes {
    if paths == [] then [] else paths[0] + [LF] + AsText(paths[1..])
  }

  lemma {:induction false} EscapeSnoc(path: Bytes, b: Byte)
    ensures Escape(path + [b]) == Escape(path) + EscapeByte(b)
  {
    if path == [] {
      assert [b][1..] == [];
    } else {
      assert (path + [b])[1..] == path[1..] + [b];
      EscapeSnoc(path[1..], b);
    }
  }

  lemma {:induction false} UriListSnoc(paths: seq<Bytes>, last: Bytes)
    ensures UriList(paths + [last]) == UriList(paths) + Line(last) + [CR, LF]
  {
    if paths == [] {
      assert [last][1..] == [];
    } else {
      assert (paths + [last])[1..] == paths[1..] + [last];
      UriListSnoc(paths[1..], last);
    }
  }

  lemma {:induction false} GnomeSnoc(paths: seq<Bytes>, last: Bytes)
    ensures GnomeLines(paths + [last]) == GnomeLines(paths) + [LF] + Line(last)
  {
    if paths == [] {
      assert [last][1..] == [];
    } else {
      assert (paths + [last])[1..] == paths[1..] + [last];
      GnomeSnoc(paths[1..], last);
    }
  }

  lemma {:induction false} AsTextSnoc(paths: seq<Bytes>, last: Bytes)
    ensures AsText(paths + [last]) == AsText(paths) + last + [LF]
  {
    if paths == [] {
      assert [last][1..] == [];
    } else {
      assert (paths + [last])[1..] == paths[1..] + [last];
      AsTextSnoc(paths[1..], last);
    }
  }

  /** The loop over the bytes of a path adds `Escape(path)`. */
  method AppendEscaped(uri: Bytes, path: Bytes) returns (out: Bytes)
    ensures out == uri + Escape(path)
  {
    out := uri;
    for i := 0 to |path|
      invariant out == uri + Escape(path[..i])
    {
      EscapeSnoc(path[..i], path[i]);
      assert path[..i + 1] == path[..i] + [path[i]];
      out := out + EscapeByte(path[i]);
    }
    assert path[..|path|] == path;
  }

  method PrintUriList(paths: seq<Bytes>) returns (list: Bytes)
    ensures list == UriList(paths)
  {
    list := [];
    for i := 0 to |paths|
      invariant list == UriList(paths[..i])
    {
      UriListSnoc(paths[..i], paths[i]);
      assert paths[..i + 1] == paths[..i] + [paths[i]];
      list := AppendEscaped(list + (FILE + AUTHORITY), paths[i]);
      list := list + [CR, LF];
    }
    assert paths[..|paths|] == paths;
  }

  method PrintGnome(paths: seq<Bytes>) returns (list: Bytes)
    ensures list == GnomeCopiedFiles(paths)
  {
    list := COPY;
    for i := 0 to |paths|
      invariant list == COPY + GnomeLines(paths[..i])
    {
      GnomeSnoc(paths[..i], paths[i]);
      assert paths[..i + 1] == paths[..i] + [paths[i]];
      list := AppendEscaped(list + [LF] + (FILE + AUTHORITY), paths[i]);
    }
    assert paths[..|paths|] == paths;
  }

  method PrintText(paths: seq<Bytes>) returns (text: Bytes)
    ensures text == AsText(paths)
  {
    text := [];
    for i := 0 to |paths|
      invariant text == AsText(paths[..i])
    {
      AsTextSnoc(paths[..i], paths[i]);
      assert paths[..i + 1] == paths[..i] + [paths[i]];
      text := text + paths[i] + [LF];
    }
    assert paths[..|paths|] == paths;
  }

  // ----------------------------------------------------------------- parsing

  function SplitLines(text: Bytes): seq<Bytes> { Split(text, LF) }

  function StripCr(line: Bytes): Bytes {
    if line != [] && line[|line| - 1] == CR then line[..|line| - 1] else line
  }

  predicate StartsWith(text: Bytes, prefix: Bytes) { prefix <= text }

  /** The path behind `file:` and an authority that is empty or `localhost`
      (section 2 of RFC 8089); none with any other. */
  function LocalPath(uri: Bytes): Option<Bytes> {
    if !StartsWith(uri, FILE) then None
    else
      var rest := uri[|FILE|..];
      if !StartsWith(rest, AUTHORITY) then Some(PercentDecode(rest))
      else
        var authority := rest[|AUTHORITY|..];
        var start := IndexOf(authority, SLASH);
        if start == |authority| || (authority[..start] != [] && authority[..start] != LOCALHOST) then None
        else Some(PercentDecode(authority[start..]))
  }

  /** What one line contributes; section 5 of RFC 2483 makes a line that
      starts with `#` a comment. */
  function PathsOfLine(raw: Bytes): seq<Bytes> {
    var line := StripCr(raw);
    if line == [] || line[0] == HASH_SIGN then []
    else match LocalPath(line)
      case Some(path) => [path]
      case None => []
  }

  function PathsOfLines(lines: seq<Bytes>): seq<Bytes> {
    if lines == [] then [] else PathsOfLine(lines[0]) + PathsOfLines(lines[1..])
  }

  /** Line by line, the path each one comes to, if it does. */
  function Paths(list: Bytes): seq<Bytes> { PathsOfLines(SplitLines(list)) }

  // -------------------------------------------------------------- round trip

  lemma SplitAtBreak(line: Bytes, rest: Bytes)
    requires LF !in line
    ensures SplitLines(line + [LF] + rest) == [line] + SplitLines(rest)
  {
    var text := line + [LF] + rest;
    var i := IndexOf(text, LF);
    assert text[|line|] == LF;
    assert forall k :: 0 <= k < |line| ==> text[k] == line[k];
    assert forall k :: 0 <= k < i ==> text[k] == text[..i][k];
    assert text[..i] == line && text[i + 1..] == rest;
  }

  lemma LineParses(path: Bytes)
    ensures IsAbsolute(path) ==> LocalPath(Line(path)) == Some(path)
    ensures LocalPath(Line(path)).Some? ==> IsAbsolute(LocalPath(Line(path)).value)
  {
    var authority := Escape(path);
    assert Line(path)[..|FILE|] == FILE;
    assert Line(path)[|FILE|..] == AUTHORITY + authority;
    assert (AUTHORITY + authority)[|AUTHORITY|..] == authority;
    DecodeEscape(path);
    if IsAbsolute(path) {
      assert authority[0] == SLASH;
      assert IndexOf(authority, SLASH) == 0;
      assert authority[..0] == [] && authority[0..] == authority;
    }
  }

  lemma PrintedLine(path: Bytes)
    ensures LF !in Line(path) + [CR]
    ensures IsAbsolute(path) ==> PathsOfLine(Line(path) + [CR]) == [path]
    ensures forall q :: q in PathsOfLine(Line(path) + [CR]) ==> IsAbsolute(q)
  {
    EscapeHasNoBreaks(path);
    LineParses(path);
    assert (Line(path) + [CR])[..|Line(path)|] == Line(path);
  }

  lemma PathsOfBreak(line: Bytes, rest: Bytes)
    requires LF !in line
    ensures Paths(line + [LF] + rest) == PathsOfLine(line) + Paths(rest)
  {
    SplitAtBreak(line, rest);
    var lines := [line] + SplitLines(rest);
    assert lines[0] == line && lines[1..] == SplitLines(rest);
  }

  lemma PathsOfCons(path: Bytes, rest: Bytes)
    ensures Paths(Line(path) + [CR, LF] + rest) == PathsOfLine(Line(path) + [CR]) + Paths(rest)
  {
    var line := Line(path) + [CR];
    PrintedLine(path);
    PathsOfBreak(line, rest);
    assert Line(path) + [CR, LF] == line + [LF];
  }

  lemma NothingParses()
    ensures Paths([]) == []
  {
    assert SplitLines([]) == [[]];
    var lines: seq<Bytes> := [[]];
    assert lines[1..] == [];
  }

  /** Reading a list back, line by line. */
  lemma FirstLineParses(paths: seq<Bytes>)
    requires paths != []
    ensures Paths(UriList(paths)) == PathsOfLine(Line(paths[0]) + [CR]) + Paths(UriList(paths[1..]))
  {
    PathsOfCons(paths[0], UriList(paths[1..]));
  }

  lemma {:induction false} PrintThenParse(paths: seq<Bytes>)
    requires forall p :: p in paths ==> IsAbsolute(p)
    ensures Paths(UriList(paths)) == paths
  {
    if paths == [] {
      NothingParses();
    } else {
      var first, rest := paths[0], paths[1..];
      FirstLineParses(paths);
      PrintedLine(first);
      PrintThenParse(rest);
      assert paths == [first] + rest;
    }
  }

  lemma {:induction false} OnlyAbsoluteParse(paths: seq<Bytes>)
    ensures forall q :: q in Paths(UriList(paths)) ==> IsAbsolute(q)
  {
    if paths == [] {
      NothingParses();
    } else {
      FirstLineParses(paths);
      PrintedLine(paths[0]);
      OnlyAbsoluteParse(paths[1..]);
    }
  }

  /** Printing then parsing gives the paths back, whatever bytes they hold,
      exactly when every one of them is absolute: a relative path is read as
      an authority, and lost. */
  lemma UriListRoundTrips(paths: seq<Bytes>)
    ensures Paths(UriList(paths)) == paths <==> forall p :: p in paths ==> IsAbsolute(p)
  {
    OnlyAbsoluteParse(paths);
    if forall p :: p in paths ==> IsAbsolute(p) { PrintThenParse(paths); }
  }

  // -------------------------------------------------- characters and digits

  const CAPITALS := "ABCDEFGHIJKLMNOPQRSTUVWXYZ"

  const SMALL := "abcdefghijklmnopqrstuvwxyz"

  const PLAIN_SIGNS := "0123456789-._~/"

  const UPPER_DIGITS := "0123456789ABCDEF"

  const LOWER_DIGITS := "0123456789abcdef"

  predicate IsPlain(c: char) { c in CAPITALS || c in SMALL || c in PLAIN_SIGNS }

  /** A byte that may stand in a URI stays as it is, and any other becomes a
      percent sign and two digits, capitals where they are letters. */
  lemma EscapedExactly(b: Byte)
    ensures Escape([b]) == if b < 128 && IsPlain(b as char) then [b]
                           else [PERCENT, UPPER_DIGITS[b / 16] as int, UPPER_DIGITS[b % 16] as int]
  {
    assert Escape([b]) == EscapeByte(b) by { assert [b][1..] == []; }
    if b < 128 {
      CapitalsExactly(b as char);
      SmallExactly(b as char);
      SignsExactly(b as char);
    }
  }

  lemma CapitalsExactly(c: char)
    ensures c in CAPITALS <==> 65 as char <= c <= 90 as char
  {
    if 65 as char <= c <= 90 as char { assert CAPITALS[c as int - 65] == c; }
  }

  lemma SmallExactly(c: char)
    ensures c in SMALL <==> 97 as char <= c <= 122 as char
  {
    if 97 as char <= c <= 122 as char { assert SMALL[c as int - 97] == c; }
  }

  lemma SignsExactly(c: char)
    ensures c in PLAIN_SIGNS <==> 48 as char <= c <= 57 as char || c in ['-', '.', '_', '~', '/']
  {
    if 48 as char <= c <= 57 as char { assert PLAIN_SIGNS[c as int - 48] == c; }
  }

  lemma {:induction false} EscapedInTurn(path: Bytes, rest: Bytes)
    ensures Escape(path + rest) == Escape(path) + Escape(rest)
  {
    if path == [] {
      assert path + rest == rest;
    } else {
      assert (path + rest)[1..] == path[1..] + rest;
      EscapedInTurn(path[1..], rest);
    }
  }

  predicate IsDigit(b: Byte) { b < 128 && (b as char in UPPER_DIGITS || b as char in LOWER_DIGITS) }

  /** Digits are read in either case. */
  lemma DigitsAreRead(i: nat, high: Byte, j: nat, low: Byte, rest: Bytes)
    requires i < 16 && (high as char == UPPER_DIGITS[i] || high as char == LOWER_DIGITS[i])
    requires j < 16 && (low as char == UPPER_DIGITS[j] || low as char == LOWER_DIGITS[j])
    ensures PercentDecode([PERCENT, high, low] + rest) == [16 * i + j] + PercentDecode(rest)
  {
    var text := [PERCENT, high, low] + rest;
    assert HexValue(high) == Some(i) && HexValue(low) == Some(j);
    assert text[3..] == rest;
  }

  /** And everything else is itself, a percent sign with no two digits behind it
      included. */
  lemma OthersAreThemselves(b: Byte, rest: Bytes)
    requires b as char != '%' || |rest| < 2 || !IsDigit(rest[0]) || !IsDigit(rest[1])
    ensures PercentDecode([b] + rest) == [b] + PercentDecode(rest)
  {
    if |rest| >= 2 {
      DigitExactly(rest[0]);
      DigitExactly(rest[1]);
    }
    assert ([b] + rest)[1..] == rest;
  }

  lemma DigitExactly(b: Byte)
    ensures HexValue(b).Some? <==> IsDigit(b)
  {
    if 48 <= b <= 57 { assert b as char == UPPER_DIGITS[b - 48]; }
    if 65 <= b <= 70 { assert b as char == UPPER_DIGITS[b - 55]; }
    if 97 <= b <= 102 { assert b as char == LOWER_DIGITS[b - 87]; }
  }

  // ------------------------------------------------------- one line of a list

  /** What the parts of a list are as text. */
  lemma Prefixes()
    ensures BytesOf("copy") == COPY
    ensures BytesOf("file:") == FILE && BytesOf("//") == AUTHORITY && BytesOf("file://") == FILE + AUTHORITY
    ensures BytesOf("localhost") == LOCALHOST && BytesOf("file://localhost") == FILE + AUTHORITY + LOCALHOST
  {}

  /** The path of a `file:` URI, where there is no authority, an empty one, or
      this very machine. */
  lemma LocalUris(path: Bytes)
    ensures !(BytesOf("//") <= path) ==> LocalPath(BytesOf("file:") + path) == Some(PercentDecode(path))
    ensures IsAbsolute(path) ==> LocalPath(BytesOf("file://") + path) == Some(PercentDecode(path))
    ensures IsAbsolute(path) ==> LocalPath(BytesOf("file://localhost") + path) == Some(PercentDecode(path))
  {
    Prefixes();
    assert (FILE + path)[|FILE|..] == path;
    if IsAbsolute(path) {
      WithAuthority([], path);
      WithAuthority(LOCALHOST, path);
      assert FILE + AUTHORITY + [] + path == FILE + AUTHORITY + path;
    }
  }

  lemma WithAuthority(host: Bytes, path: Bytes)
    requires SLASH !in host && (path == [] || IsAbsolute(path))
    ensures LocalPath(FILE + AUTHORITY + host + path)
            == if path != [] && (host == [] || host == LOCALHOST) then Some(PercentDecode(path)) else None
  {
    var uri, authority := FILE + AUTHORITY + host + path, host + path;
    assert uri[|FILE|..] == AUTHORITY + authority && (AUTHORITY + authority)[|AUTHORITY|..] == authority;
    if path != [] {
      assert authority[..|host|] == host && authority[|host|..] == path;
      AtFirst(authority, SLASH, |host|);
    } else {
      assert authority == host && IndexOf(host, SLASH) == |host|;
    }
  }

  /** There is none on another machine, with no path behind the authority, or
      in anything but a `file:` URI. */
  lemma NoLocalUris(host: Bytes, path: Bytes, uri: Bytes)
    ensures host != [] && host != BytesOf("localhost") && SLASH !in host && (path == [] || IsAbsolute(path)) ==>
              LocalPath(BytesOf("file://") + host + path) == None
    ensures SLASH !in host ==> LocalPath(BytesOf("file://") + host) == None
    ensures !(BytesOf("file:") <= uri) ==> LocalPath(uri) == None
  {
    Prefixes();
    if SLASH !in host {
      WithAuthority(host, []);
      assert FILE + AUTHORITY + host + [] == FILE + AUTHORITY + host;
      if path == [] || IsAbsolute(path) { WithAuthority(host, path); }
    }
  }

  /** A line is blank, a comment or a URI, with or without a carriage return
      behind it. */
  lemma OneLine(line: Bytes)
    requires LF !in line && CR !in line
    ensures Paths(line) == Paths(line + [CR])
    ensures Paths(line) == if line == [] || line[0] as char == '#' || LocalPath(line).None? then []
                           else [LocalPath(line).value]
  {
    SingleLine(line);
    SingleLine(line + [CR]);
    assert StripCr(line + [CR]) == line;
    if line != [] { assert line[|line| - 1] in line; }
  }

  lemma SingleLine(line: Bytes)
    requires LF !in line
    ensures Paths(line) == PathsOfLine(line)
  {
    var lines := [line];
    assert IndexOf(line, LF) == |line|;
    assert SplitLines(line) == lines;
    assert lines[1..] == [] && PathsOfLines(lines) == PathsOfLine(line) + PathsOfLines([]);
  }

  /** Lines are read in turn. */
  lemma LineByLine(line: Bytes, rest: Bytes)
    requires LF !in line
    ensures Paths(line + [LF] + rest) == Paths(line) + Paths(rest)
  {
    PathsOfBreak(line, rest);
    SingleLine(line);
  }

  // ------------------------------------------------------------ three payloads

  /** An absolute path as a whole URI. */
  predicate IsUriOf(uri: Bytes, path: Bytes) {
    uri == FILE + AUTHORITY + Escape(path) && LocalPath(uri) == Some(path)
  }

  predicate AreUrisOf(uris: seq<Bytes>, paths: seq<Bytes>) {
    |uris| == |paths| && forall i :: 0 <= i < |paths| ==> IsUriOf(uris[i], paths[i])
  }

  /** A URI with a carriage return behind it. */
  predicate IsLineOf(line: Bytes, path: Bytes) {
    line != [] && line[|line| - 1] == CR && IsUriOf(line[..|line| - 1], path)
  }

  predicate AreLinesOf(lines: seq<Bytes>, paths: seq<Bytes>) {
    |lines| == |paths| && forall i :: 0 <= i < |paths| ==> IsLineOf(lines[i], paths[i])
  }

  lemma LinesAreUris(path: Bytes)
    requires IsAbsolute(path)
    ensures IsUriOf(Line(path), path)
  {
    LineParses(path);
    Prefixes();
  }

  lemma OneMoreUri(path: Bytes, uris: seq<Bytes>, paths: seq<Bytes>)
    requires IsAbsolute(path)
    ensures AreUrisOf(uris, paths) ==> AreUrisOf([Line(path)] + uris, [path] + paths)
    ensures AreLinesOf(uris, paths) ==> AreLinesOf([Line(path) + [CR]] + uris, [path] + paths)
  {
    LinesAreUris(path);
    assert (Line(path) + [CR])[..|Line(path)|] == Line(path);
  }

  lemma SplitAlone(line: Bytes)
    requires LF !in line
    ensures Split(line, LF) == [line]
  {
    assert IndexOf(line, LF) == |line|;
  }

  lemma FirstOfMany(text: Bytes, first: Bytes, rest: Bytes)
    requires LF !in first && text == first + [LF] + rest
    ensures Split(text, LF) == [first] + Split(rest, LF)
  {
    SplitFirst(first, rest, LF);
  }

  lemma FirstUriLine(paths: seq<Bytes>)
    requires paths != []
    ensures Split(UriList(paths), LF) == [Line(paths[0]) + [CR]] + Split(UriList(paths[1..]), LF)
  {
    PrintedLine(paths[0]);
    WithBreak(Line(paths[0]), UriList(paths[1..]));
    FirstOfMany(UriList(paths), Line(paths[0]) + [CR], UriList(paths[1..]));
  }

  lemma WithBreak(line: Bytes, more: Bytes)
    ensures line + [CR, LF] + more == line + [CR] + [LF] + more
  {}

  lemma LineHasNoBreak(path: Bytes)
    ensures LF !in Line(path)
  {
    EscapeHasNoBreaks(path);
  }

  lemma FirstGnomeLine(paths: seq<Bytes>, before: Bytes)
    requires paths != [] && LF !in before
    ensures Split(before + GnomeLines(paths), LF) == [before] + Split(Line(paths[0]) + GnomeLines(paths[1..]), LF)
  {
    Regrouped(before, Line(paths[0]), GnomeLines(paths[1..]));
    FirstOfMany(before + GnomeLines(paths), before, Line(paths[0]) + GnomeLines(paths[1..]));
  }

  lemma Regrouped(before: Bytes, line: Bytes, more: Bytes)
    ensures before + ([LF] + line + more) == before + [LF] + (line + more)
  {}

  lemma {:induction false} UriListLines(paths: seq<Bytes>) returns (lines: seq<Bytes>)
    requires forall p :: p in paths ==> IsAbsolute(p)
    ensures Split(UriList(paths), LF) == lines + [[]] && AreLinesOf(lines, paths)
  {
    if paths == [] {
      lines := [];
      SplitAlone([]);
    } else {
      var more := UriListLines(paths[1..]);
      var first := Line(paths[0]) + [CR];
      FirstUriLine(paths);
      OneMoreUri(paths[0], more, paths[1..]);
      assert [paths[0]] + paths[1..] == paths;
      lines := [first] + more;
      InFront(first, more, [[]]);
    }
  }

  lemma InFront(first: Bytes, more: seq<Bytes>, last: seq<Bytes>)
    ensures [first] + (more + last) == [first] + more + last
  {}

  lemma {:induction false} GnomeLinesAre(paths: seq<Bytes>, before: Bytes) returns (uris: seq<Bytes>)
    requires LF !in before && forall p :: p in paths ==> IsAbsolute(p)
    ensures Split(before + GnomeLines(paths), LF) == [before] + uris && AreUrisOf(uris, paths)
    decreases |paths|
  {
    if paths == [] {
      uris := [];
      assert before + GnomeLines(paths) == before;
      SplitAlone(before);
    } else {
      LineHasNoBreak(paths[0]);
      FirstGnomeLine(paths, before);
      var more := GnomeLinesAre(paths[1..], Line(paths[0]));
      uris := [Line(paths[0])] + more;
      OneMoreUri(paths[0], more, paths[1..]);
      assert [paths[0]] + paths[1..] == paths;
    }
  }

  /** The three forms a list of absolute paths is offered in: whole URIs, a line
      each with a carriage return; the same behind a line that says `copy`,
      with none; and the plain paths. */
  lemma EachOnItsLine(paths: seq<Bytes>) returns (lines: seq<Bytes>, uris: seq<Bytes>)
    requires forall p :: p in paths ==> IsAbsolute(p)
    ensures Split(UriList(paths), LF) == lines + [[]] && AreLinesOf(lines, paths)
    ensures Split(GnomeCopiedFiles(paths), LF) == [COPY] + uris && AreUrisOf(uris, paths)
    ensures AsText(paths) == Joined(paths + [[]], LF)
  {
    lines := UriListLines(paths);
    uris := GnomeLinesAre(paths, COPY);
    PlainLines(paths);
  }

  lemma {:induction false} PlainLines(paths: seq<Bytes>)
    ensures AsText(paths) == Joined(paths + [[]], LF)
  {
    if paths != [] {
      PlainLines(paths[1..]);
      assert (paths + [[]])[1..] == paths[1..] + [[]];
    }
  }
}
