/**
 * Strict UTF-8 decoding as Python's `bytes.decode()` performs it: the
 * well-formed byte sequences of the table in section 4 of RFC 3629 (no
 * overlong forms, no surrogates, nothing above U+10FFFF, no truncated
 * character). Anything else raises `UnicodeDecodeError`.
 */
module Utf8 {

  /** A continuation byte, `10xxxxxx`. */
  predicate Cont(b: bv8) {
    0x80 <= b <= 0xBF
  }

  /**
   * The length of the well-formed character that `b` starts with, or 0 when
   * its first bytes are not one (a stray continuation byte, an overlong or
   * surrogate form, a lead byte above U+10FFFF, or a character cut short).
   */
  function CharLen(b: seq<bv8>): (n: nat)
    requires b != []
    ensures n <= 4 && n <= |b|
  {
    var c := b[0];
    if c < 0x80 then 1
    else if 0xC2 <= c <= 0xDF then
      (if |b| >= 2 && Cont(b[1]) then 2 else 0)
    else if c == 0xE0 then
      (if |b| >= 3 && 0xA0 <= b[1] <= 0xBF && Cont(b[2]) then 3 else 0)
    else if 0xE1 <= c <= 0xEC || 0xEE <= c <= 0xEF then
      (if |b| >= 3 && Cont(b[1]) && Cont(b[2]) then 3 else 0)
    else if c == 0xED then
      (if |b| >= 3 && 0x80 <= b[1] <= 0x9F && Cont(b[2]) then 3 else 0)
    else if c == 0xF0 then
      (if |b| >= 4 && 0x90 <= b[1] <= 0xBF && Cont(b[2]) && Cont(b[3]) then 4 else 0)
    else if 0xF1 <= c <= 0xF3 then
      (if |b| >= 4 && Cont(b[1]) && Cont(b[2]) && Cont(b[3]) then 4 else 0)
    else if c == 0xF4 then
      (if |b| >= 4 && 0x80 <= b[1] <= 0x8F && Cont(b[2]) && Cont(b[3]) then 4 else 0)
    else 0
  }

  /** `b.decode()` succeeds: `b` is a sequence of well-formed characters. */
  predicate Valid(b: seq<bv8>)
    decreases |b|
  {
    b == [] || (CharLen(b) > 0 && Valid(b[CharLen(b)..]))
  }

  /** A character's length depends only on its own bytes, so more bytes after it do not change it. */
  lemma CharLenExtend(a: seq<bv8>, c: seq<bv8>)
    requires a != [] && CharLen(a) > 0
    ensures CharLen(a + c) == CharLen(a)
  {
    var n := CharLen(a);
    assert forall i :: 0 <= i < n ==> (a + c)[i] == a[i];
  }

  /** Bytes below 0x80 (ASCII) always decode. */
  lemma {:induction false} AsciiValid(b: seq<bv8>)
    requires forall i :: 0 <= i < |b| ==> b[i] < 0x80
    ensures Valid(b)
    decreases |b|
  {
    if b != [] {
      assert CharLen(b) == 1;
      AsciiValid(b[1..]);
    }
  }

  /** Two decodable reads decode together. */
  lemma {:induction false} ValidAppend(a: seq<bv8>, b: seq<bv8>)
    requires Valid(a) && Valid(b)
    ensures Valid(a + b)
    decreases |a|
  {
    if a == [] {
      assert a + b == b;
    } else {
      var n := CharLen(a);
      CharLenExtend(a, b);
      assert (a + b)[n..] == a[n..] + b;
      ValidAppend(a[n..], b);
    }
  }

  /**
   * The two bytes of `é` decode together, but neither decodes alone: a
   * character cut between two reads makes both reads undecodable. A byte
   * 0xFF never decodes.
   */
  lemma SplitCharacterExample()
    ensures Valid([0xC3, 0xA9])
    ensures !Valid([0xC3]) && !Valid([0xA9])
    ensures !Valid([0xFF])
  {
    var e: seq<bv8> := [0xC3, 0xA9];
    assert CharLen(e) == 2;
    assert e[2..] == [];
  }
}
