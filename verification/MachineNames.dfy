/** Names of machines as characters, and the bytes they are written in. */
module MachineNames {
  import opened Basics
  import opened Membership

  /** A Unicode scalar value. */
  predicate IsScalar(c: nat) { c < 0xD800 || 0xE000 <= c < 0x11_0000 }

  /** Section 3 of RFC 3629. */
  function Utf8(c: nat): (bytes: Bytes)
    requires IsScalar(c)
    ensures 1 <= |bytes| <= 4
  {
    if c < 0x80 then [c]
    else if c < 0x800 then [0xC0 + c / 0x40, 0x80 + c % 0x40]
    else if c < 0x1_0000 then [0xE0 + c / 0x1000, 0x80 + c / 0x40 % 0x40, 0x80 + c % 0x40]
    else [0xF0 + c / 0x4_0000, 0x80 + c / 0x1000 % 0x40, 0x80 + c / 0x40 % 0x40, 0x80 + c % 0x40]
  }

  predicate AllScalars(text: seq<nat>) { forall i :: 0 <= i < |text| ==> IsScalar(text[i]) }

  function Encoded(text: seq<nat>): Bytes
    requires AllScalars(text)
  {
    if text == [] then [] else Utf8(text[0]) + Encoded(text[1..])
  }

  /** Controls, zero-width characters, and those that change the direction of
      text. */
  predicate Invisible(c: nat) {
    || c < 0x20 || 0x7F <= c <= 0x9F
    || 0x200B <= c <= 0x200F || 0x202A <= c <= 0x202E || 0x2066 <= c <= 0x2069
    || c == 0xFEFF
  }

  /** The bytes after the first of a character start nothing. */
  lemma InsideIsPlain(name: Bytes, i: nat)
    requires i < |name| && 0x80 <= name[i] < 0xC0
    ensures !ConfusableAt(name, i)
  {
    if i + 3 <= |name| { assert name[i..i + 3][0] == name[i]; }
  }

  /** At its first byte, a character is refused exactly when it is invisible. */
  lemma FirstByteDecides(c: nat, rest: Bytes)
    requires IsScalar(c)
    ensures ConfusableAt(Utf8(c) + rest, 0) <==> Invisible(c)
  {
    var name := Utf8(c) + rest;
    if |name| >= 3 { assert name[0..3] == [name[0], name[1], name[2]]; }
    if c < 0x80 {
    } else if c < 0x800 {
      assert name[0] == 0xC0 + c / 0x40 && name[1] == 0x80 + c % 0x40;
    } else if c < 0x1_0000 {
      assert name[0] == 0xE0 + c / 0x1000 && name[1] == 0x80 + c / 0x40 % 0x40 && name[2] == 0x80 + c % 0x40;
    } else {
      assert name[0] == 0xF0 + c / 0x4_0000;
    }
  }

  lemma ConfusableFurtherOn(before: Bytes, name: Bytes, i: nat)
    requires i < |name|
    ensures ConfusableAt(before + name, |before| + i) <==> ConfusableAt(name, i)
  {
    var whole, k := before + name, |before| + i;
    assert forall j :: k <= j < |whole| ==> whole[j] == name[j - |before|];
    if i + 3 <= |name| { assert whole[k..k + 3] == name[i..i + 3]; }
  }

  predicate AllVisible(text: seq<nat>) { forall i :: 0 <= i < |text| ==> !Invisible(text[i]) }

  predicate NothingConfusable(name: Bytes) { forall i :: 0 <= i < |name| ==> !ConfusableAt(name, i) }

  lemma OneCharacter(c: nat, rest: Bytes)
    requires IsScalar(c)
    ensures NothingConfusable(Utf8(c) + rest) <==> !Invisible(c) && NothingConfusable(rest)
  {
    var first, name := Utf8(c), Utf8(c) + rest;
    FirstByteDecides(c, rest);
    forall i | 1 <= i < |first| ensures !ConfusableAt(name, i) {
      assert name[i] == first[i];
      InsideIsPlain(name, i);
    }
    forall i | 0 <= i < |rest| ensures ConfusableAt(name, |first| + i) <==> ConfusableAt(rest, i) {
      ConfusableFurtherOn(first, rest, i);
    }
    if !Invisible(c) && NothingConfusable(rest) {
      forall i | 0 <= i < |name| ensures !ConfusableAt(name, i) {
        if i >= |first| { ConfusableFurtherOn(first, rest, i - |first|); }
      }
    }
    if NothingConfusable(name) {
      forall i | 0 <= i < |rest| ensures !ConfusableAt(rest, i) { assert !ConfusableAt(name, |first| + i); }
    }
  }

  lemma {:induction false} NothingConfusableExactly(text: seq<nat>)
    requires AllScalars(text)
    ensures NothingConfusable(Encoded(text)) <==> AllVisible(text)
  {
    if text != [] {
      OneCharacter(text[0], Encoded(text[1..]));
      NothingConfusableExactly(text[1..]);
      assert text == [text[0]] + text[1..];
      assert AllVisible(text) <==> !Invisible(text[0]) && AllVisible(text[1..]);
    }
  }

  /** A name will do exactly when it has between 1 and 64 bytes, and every
      character of it can be seen and stays in its place. */
  lemma ValidNameExactly(text: seq<nat>)
    requires AllScalars(text)
    ensures ValidName(Encoded(text)) <==> text != [] && |Encoded(text)| <= 64 && AllVisible(text)
  {
    NothingConfusableExactly(text);
  }
}
