/** What every other module shares: optional values, outcomes, and byte strings. */
module Basics {

  datatype Option<+T> = None | Some(value: T)

  datatype Result<+T, +E> = Ok(value: T) | Err(error: E)

  type Byte = b: int | 0 <= b < 256

  type Bytes = seq<Byte>

  function Min(a: int, b: int): int { if a <= b then a else b }

  function Max(a: int, b: int): int { if a <= b then b else a }

  /** The position of the first `b`, or the length when there is none. */
  function IndexOf(text: Bytes, b: Byte): (i: nat)
    ensures i <= |text|
    ensures i < |text| ==> text[i] == b
    ensures b !in text[..i]
  {
    if text == [] then 0
    else if text[0] == b then 0
    else
      var i := IndexOf(text[1..], b) + 1;
      assert text[..i] == [text[0]] + text[1..][..i - 1];
      i
  }

  /** The pieces between the occurrences of `b`, empty ones included. */
  function Split(text: Bytes, b: Byte): (parts: seq<Bytes>)
    ensures |parts| > 0
    decreases |text|
  {
    var i := IndexOf(text, b);
    if i == |text| then [text] else [text[..i]] + Split(text[i + 1..], b)
  }

  /** The pieces with the separator between them again. */
  function Joined(parts: seq<Bytes>, b: Byte): Bytes
    requires parts != []
  {
    if |parts| == 1 then parts[0] else parts[0] + [b] + Joined(parts[1..], b)
  }

  lemma {:induction false} AtFirst(text: Bytes, b: Byte, i: nat)
    requires i < |text| && text[i] == b && b !in text[..i]
    ensures IndexOf(text, b) == i
    decreases i
  {
    if i > 0 {
      assert text[..i][0] == text[0] && text[..i][1..] == text[1..][..i - 1];
      AtFirst(text[1..], b, i - 1);
    }
  }

  lemma SplitFirst(first: Bytes, rest: Bytes, b: Byte)
    requires b !in first
    ensures Split(first + [b] + rest, b) == [first] + Split(rest, b)
  {
    var text := first + [b] + rest;
    assert text[..|first|] == first && text[|first|] == b && text[|first| + 1..] == rest;
    AtFirst(text, b, |first|);
  }

  /** Splitting and joining undo each other, and no piece has the separator in
      it. */
  lemma {:induction false} SplitJoins(text: Bytes, b: Byte)
    ensures Joined(Split(text, b), b) == text
    ensures forall part :: part in Split(text, b) ==> b !in part
    decreases |text|
  {
    var i := IndexOf(text, b);
    if i < |text| {
      SplitJoins(text[i + 1..], b);
      assert text == text[..i] + [b] + text[i + 1..];
      assert Split(text, b)[1..] == Split(text[i + 1..], b);
    } else {
      assert text[..i] == text;
    }
  }

  lemma {:induction false} JoinSplits(parts: seq<Bytes>, b: Byte)
    requires parts != [] && forall part :: part in parts ==> b !in part
    ensures Split(Joined(parts, b), b) == parts
    decreases |parts|
  {
    var text := Joined(parts, b);
    assert b !in parts[0];
    if |parts| == 1 {
      assert IndexOf(text, b) == |text|;
    } else {
      JoinSplits(parts[1..], b);
      SplitFirst(parts[0], Joined(parts[1..], b), b);
      assert parts == [parts[0]] + parts[1..];
    }
  }

  lemma {:induction false} JoinedAround(left: seq<Bytes>, right: seq<Bytes>, b: Byte)
    requires left != [] && right != []
    ensures Joined(left + right, b) == Joined(left, b) + [b] + Joined(right, b)
    decreases |left|
  {
    if |left| == 1 {
      assert (left + right)[1..] == right;
    } else {
      var rest := left[1..];
      assert (left + right)[1..] == rest + right;
      JoinedAround(rest, right, b);
      assert left[0] + [b] + (Joined(rest, b) + [b] + Joined(right, b))
          == left[0] + [b] + Joined(rest, b) + [b] + Joined(right, b);
    }
  }

  /** The pieces on both sides of a separator. */
  lemma SplitAround(left: Bytes, right: Bytes, b: Byte)
    ensures Split(left + [b] + right, b) == Split(left, b) + Split(right, b)
  {
    SplitJoins(left, b);
    SplitJoins(right, b);
    JoinedAround(Split(left, b), Split(right, b), b);
    JoinSplits(Split(left, b) + Split(right, b), b);
  }

  /** Where the first `b` is decides what comes before it and behind it. */
  lemma SplitOnce(x: Bytes, u: Bytes, y: Bytes, v: Bytes, b: Byte)
    requires b !in x && b !in y && x + [b] + u == y + [b] + v
    ensures x == y && u == v
  {
    var text := x + [b] + u;
    assert text[|x|] == b && text[|y|] == b;
    assert forall i :: 0 <= i < |x| ==> text[i] == x[i];
    assert forall i :: 0 <= i < |y| ==> text[i] == y[i];
    assert x == text[..|x|] && u == text[|x| + 1..];
    assert y == text[..|y|] && v == text[|y| + 1..];
  }

  /** Text of one byte a character. */
  predicate Ascii(text: string) { forall c :: c in text ==> c < 128 as char }

  function ByteOf(c: char): Byte
    requires c < 128 as char
  {
    c as int
  }

  function BytesOf(text: string): Bytes
    requires Ascii(text)
  {
    seq(|text|, i requires 0 <= i < |text| => assert text[i] in text; ByteOf(text[i]))
  }

  /** The order of `&str` and `&[u8]`: bytewise, a proper prefix first. */
  predicate LexLess(a: Bytes, b: Bytes) {
    if b == [] then false
    else if a == [] then true
    else a[0] < b[0] || (a[0] == b[0] && LexLess(a[1..], b[1..]))
  }

  /** The first difference is at `i`, and `a` has the smaller byte there. */
  predicate FirstBelow(a: Bytes, b: Bytes, i: nat) {
    i < |a| && i < |b| && a[..i] == b[..i] && a[i] < b[i]
  }

  lemma FirstBelowLater(a: Bytes, b: Bytes, i: nat)
    requires a != [] && b != [] && a[0] == b[0]
    ensures FirstBelow(a, b, i + 1) <==> FirstBelow(a[1..], b[1..], i)
  {
    if i < |a| - 1 && i < |b| - 1 {
      assert a[..i + 1] == [a[0]] + a[1..][..i] && b[..i + 1] == [b[0]] + b[1..][..i];
      assert a[..i + 1][1..] == a[1..][..i] && b[..i + 1][1..] == b[1..][..i];
    }
  }

  lemma FirstBelowAtOnce(a: Bytes, b: Bytes, i: nat)
    requires a != [] && b != [] && a[0] != b[0]
    ensures FirstBelow(a, b, i) <==> i == 0 && a[0] < b[0]
  {
    if 0 < i < |a| && i < |b| { assert a[..i][0] == a[0] && b[..i][0] == b[0]; }
    assert a[..0] == b[..0];
  }

  /** What the order is: a proper prefix comes first, and otherwise the byte at
      the first difference decides. */
  lemma {:induction false} LexExactly(a: Bytes, b: Bytes)
    ensures LexLess(a, b) <==> a < b || exists i :: FirstBelow(a, b, i)
  {
    if a != [] && b != [] {
      if a[0] == b[0] {
        LexExactly(a[1..], b[1..]);
        assert a < b <==> a[1..] < b[1..] by { assert a == [a[0]] + a[1..] && b == [b[0]] + b[1..]; }
        if i: nat :| FirstBelow(a[1..], b[1..], i) { FirstBelowLater(a, b, i); }
        if i: nat :| FirstBelow(a, b, i) {
          assert i > 0;
          FirstBelowLater(a, b, i - 1);
        }
      } else {
        forall i: nat ensures FirstBelow(a, b, i) <==> i == 0 && a[0] < b[0] { FirstBelowAtOnce(a, b, i); }
        assert FirstBelow(a, b, 0) <==> a[0] < b[0];
      }
    }
  }

  lemma {:induction false} LexAsymmetric(a: Bytes, b: Bytes)
    ensures !(LexLess(a, b) && LexLess(b, a))
    ensures LexLess(a, b) ==> a != b
  {
    if a != [] && b != [] { LexAsymmetric(a[1..], b[1..]); }
  }

  lemma {:induction false} LexTransitive(a: Bytes, b: Bytes, c: Bytes)
    ensures LexLess(a, b) && LexLess(b, c) ==> LexLess(a, c)
    ensures LexLess(a, b) && !LexLess(c, b) ==> LexLess(a, c)
    ensures !LexLess(b, a) && !LexLess(c, b) ==> !LexLess(c, a)
  {
    if a != [] && b != [] && c != [] { LexTransitive(a[1..], b[1..], c[1..]); }
  }

  lemma {:induction false} LexTotal(a: Bytes, b: Bytes)
    ensures LexLess(a, b) || LexLess(b, a) || a == b
  {
    if a != [] && b != [] && a[0] == b[0] {
      LexTotal(a[1..], b[1..]);
      assert a == [a[0]] + a[1..] && b == [b[0]] + b[1..];
    }
  }
}
