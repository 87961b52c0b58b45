/** Trimming, case and length of strings, which are sequences of Unicode characters. */
module Strings {

  /** The characters that trimming removes: Unicode white space. */
  predicate IsSpace(c: char) {
    var n := c as int;
    || 9 <= n <= 13 || n == 0x20 || n == 0x85 || n == 0xA0 || n == 0x1680
    || 0x2000 <= n <= 0x200A || n == 0x2028 || n == 0x2029 || n == 0x202F || n == 0x205F || n == 0x3000
  }

  function TrimLeft(s: string): string {
    if s != [] && IsSpace(s[0]) then TrimLeft(s[1..]) else s
  }

  function TrimRight(s: string): string {
    if s != [] && IsSpace(s[|s| - 1]) then TrimRight(s[..|s| - 1]) else s
  }

  function TrimSpace(s: string): string {
    TrimRight(TrimLeft(s))
  }

  predicate IsTrimmed(s: string) {
    s == [] || (!IsSpace(s[0]) && !IsSpace(s[|s| - 1]))
  }

  function RuneLength(c: char): nat {
    var n := c as int;
    if n < 0x80 then 1 else if n < 0x800 then 2 else if n < 0x10000 then 3 else 4
  }

  function ByteLength(s: string): nat {
    if s == [] then 0 else RuneLength(s[0]) + ByteLength(s[1..])
  }

  lemma {:induction false} TrimRightFacts(s: string)
    ensures TrimRight(s) <= s
    ensures forall k :: |TrimRight(s)| <= k < |s| ==> IsSpace(s[k])
    ensures TrimRight(s) == [] || !IsSpace(TrimRight(s)[|TrimRight(s)| - 1])
  {
    if s != [] && IsSpace(s[|s| - 1]) {
      TrimRightFacts(s[..|s| - 1]);
    }
  }

  lemma {:induction false} TrimLeftFacts(s: string)
    ensures TrimLeft(s) == [] || !IsSpace(TrimLeft(s)[0])
  {
    if s != [] && IsSpace(s[0]) {
      TrimLeftFacts(s[1..]);
    }
  }

  lemma TrimSpaceIsTrimmed(s: string)
    ensures IsTrimmed(TrimSpace(s)) && TrimSpace(TrimSpace(s)) == TrimSpace(s)
  {
    TrimLeftFacts(s);
    TrimRightFacts(TrimLeft(s));
  }

  lemma {:induction false} TrimLeftIsSuffix(s: string)
    ensures |TrimLeft(s)| <= |s| && TrimLeft(s) == s[|s| - |TrimLeft(s)|..]
    ensures forall k :: 0 <= k < |s| - |TrimLeft(s)| ==> IsSpace(s[k])
  {
    if s != [] && IsSpace(s[0]) {
      TrimLeftIsSuffix(s[1..]);
      assert forall k :: 0 < k < |s| ==> s[k] == s[1..][k - 1];
    }
  }

  lemma {:induction false} TrimRightKeepsFirst(s: string)
    requires s != [] && !IsSpace(s[0])
    ensures TrimRight(s) != [] && TrimRight(s)[0] == s[0]
  {
    if IsSpace(s[|s| - 1]) { TrimRightKeepsFirst(s[..|s| - 1]); }
  }

  function LowerChar(c: char): char {
    if 'A' <= c <= 'Z' then c + 32 as char else c
  }

  function ToLower(s: string): string {
    seq(|s|, i requires 0 <= i < |s| => LowerChar(s[i]))
  }

  /** Lower case without surrounding white space: how names of servers and tools are looked up. */
  function Normalize(s: string): string {
    ToLower(TrimSpace(s))
  }

  function NormalizeAll(s: seq<string>): seq<string> {
    seq(|s|, i requires 0 <= i < |s| => Normalize(s[i]))
  }

  /******* What these functions mean *******/

  const WHITE_SPACE := "\t\n\U{000B}\U{000C}\r \U{0085}\U{00A0}\U{1680}\U{2000}\U{2001}\U{2002}" +
    "\U{2003}\U{2004}\U{2005}\U{2006}\U{2007}\U{2008}\U{2009}\U{200A}\U{2028}\U{2029}\U{202F}\U{205F}\U{3000}"

  lemma SpaceIsListed(c: char)
    ensures IsSpace(c) <==> c in WHITE_SPACE
  {
    if IsSpace(c) {
      var n := c as int;
      if 9 <= n <= 13 { assert WHITE_SPACE[n - 9] == c; }
      if 0x2000 <= n <= 0x200A { assert WHITE_SPACE[n - 0x2000 + 9] == c; }
      assert WHITE_SPACE[5] == ' ' && WHITE_SPACE[6] == '\U{0085}' && WHITE_SPACE[7] == '\U{00A0}' && WHITE_SPACE[8] == '\U{1680}';
      assert WHITE_SPACE[20] == '\U{2028}' && WHITE_SPACE[21] == '\U{2029}' && WHITE_SPACE[22] == '\U{202F}';
      assert WHITE_SPACE[23] == '\U{205F}' && WHITE_SPACE[24] == '\U{3000}';
    }
  }

  lemma TrimCuts(s: string) returns (i: nat, j: nat)
    ensures i <= j <= |s| && TrimSpace(s) == s[i..j]
    ensures forall k :: 0 <= k < i || j <= k < |s| ==> IsSpace(s[k])
    ensures i < j ==> !IsSpace(s[i]) && !IsSpace(s[j - 1])
  {
    hide IsSpace, TrimLeft, TrimRight;
    var t := TrimLeft(s);
    TrimLeftIsSuffix(s);
    TrimLeftFacts(s);
    TrimRightFacts(t);
    i := |s| - |t|;
    j := i + |TrimRight(t)|;
    assert forall k :: i <= k < |s| ==> s[k] == t[k - i];
    if TrimRight(t) != [] { assert TrimRight(t)[0] == t[0]; }
  }

  /** Trimming cuts off all white space in front and at the end, and nothing else. */
  lemma TrimSpaceCuts(s: string) returns (i: nat, j: nat)
    ensures i <= j <= |s| && TrimSpace(s) == s[i..j]
    ensures forall k :: 0 <= k < i || j <= k < |s| ==> s[k] in WHITE_SPACE
    ensures i < j ==> s[i] !in WHITE_SPACE && s[j - 1] !in WHITE_SPACE
  {
    hide *;
    i, j := TrimCuts(s);
    forall k | 0 <= k < |s| ensures IsSpace(s[k]) <==> s[k] in WHITE_SPACE { SpaceIsListed(s[k]); }
  }

  const UPPER := "ABCDEFGHIJKLMNOPQRSTUVWXYZ"
  const LOWER := "abcdefghijklmnopqrstuvwxyz"

  /** Exactly the capital letters are replaced, each by its small letter. */
  lemma LowerIsPaired(c: char)
    ensures if c in UPPER then exists k :: 0 <= k < 26 && UPPER[k] == c && LOWER[k] == LowerChar(c) else LowerChar(c) == c
  {
    if 'A' <= c <= 'Z' {
      var k := c as int - 'A' as int;
      LettersInOrder(k);
      assert UPPER[k] == c;
      assert LOWER[k] == LowerChar(c);
    } else if c in UPPER {
      var k :| 0 <= k < 26 && UPPER[k] == c;
      LettersInOrder(k);
      assert false;
    }
  }

  lemma LettersInOrder(k: nat)
    requires k < 26
    ensures UPPER[k] as int == 'A' as int + k && LOWER[k] as int == 'a' as int + k
  {
  }

  /** A name is looked up without the white space around it and with every letter in lower case. */
  lemma NormalizeMeans(s: string) returns (i: nat, j: nat)
    ensures i <= j <= |s| && |Normalize(s)| == j - i
    ensures forall k :: 0 <= k < i || j <= k < |s| ==> s[k] in WHITE_SPACE
    ensures i < j ==> s[i] !in WHITE_SPACE && s[j - 1] !in WHITE_SPACE
    ensures forall k :: 0 <= k < j - i ==> Normalize(s)[k] == LowerChar(s[i + k])
  {
    hide TrimSpace;
    i, j := TrimSpaceCuts(s);
  }

  lemma NormalizeAllConcat(a: seq<string>, b: seq<string>)
    ensures NormalizeAll(a + b) == NormalizeAll(a) + NormalizeAll(b)
  {
  }

  lemma NormalizeAllOne(x: string)
    ensures NormalizeAll([x]) == [Normalize(x)]
  {
  }

  lemma NormalizeAllWithout(front: seq<string>, x: string, back: seq<string>)
    ensures multiset(NormalizeAll(front + [x] + back)) == multiset(NormalizeAll(front + back)) + multiset{Normalize(x)}
  {
    hide NormalizeAll, Normalize;
    NormalizeAllConcat(front + [x], back);
    NormalizeAllConcat(front, [x]);
    NormalizeAllConcat(front, back);
    NormalizeAllOne(x);
  }

  lemma MultisetWithout(front: seq<string>, x: string, back: seq<string>)
    ensures multiset(front + [x] + back) == multiset(front + back) + multiset{x}
  {
  }

  lemma Split(b: seq<string>, x: string) returns (front: seq<string>, back: seq<string>)
    requires x in b
    ensures b == front + [x] + back
  {
    var j :| 0 <= j < |b| && b[j] == x;
    front, back := b[..j], b[j + 1..];
  }

  /** Normalizing every element does not depend on their order. */
  lemma {:induction false} NormalizeAllKeepsMultisets(a: seq<string>, b: seq<string>)
    requires multiset(a) == multiset(b)
    ensures multiset(NormalizeAll(a)) == multiset(NormalizeAll(b))
    decreases |a|
  {
    hide NormalizeAll, Normalize;
    if a == [] {
      assert |b| == |multiset(b)| == |multiset(a)| == 0;
    } else {
      var x, rest := a[0], [] + a[1..];
      assert a == [] + [x] + a[1..];
      assert x in multiset(a);
      var front, back := Split(b, x);
      MultisetWithout([], x, a[1..]);
      MultisetWithout(front, x, back);
      AddingIsInjective(multiset(rest), multiset(front + back), x);
      NormalizeAllKeepsMultisets(rest, front + back);
      NormalizeAllWithout([], x, a[1..]);
      NormalizeAllWithout(front, x, back);
    }
  }

  lemma AddingIsInjective(a: multiset<string>, b: multiset<string>, x: string)
    requires a + multiset{x} == b + multiset{x}
    ensures a == b
  {
    assert a == a + multiset{x} - multiset{x};
    assert b == b + multiset{x} - multiset{x};
  }
}
