/**
 * The JavaScript built-ins the album script relies on, written out with the
 * meaning the script gets from them: the remainder operator `%`,
 * `String.prototype.trim`, and the `includes`/`push` and `filter` idioms it
 * uses to keep its arrays of card ids and sound names.
 */
module Js {

  /** `a % n` on JavaScript numbers: the remainder takes the sign of the dividend. */
  function Rem(a: int, n: int): (r: int)
    requires n > 0
    ensures a >= 0 ==> r == a % n
    ensures a < 0 ==> -n < r <= 0
  {
    if a >= 0 then a % n else -((-a) % n)
  }

  /** The JavaScript remainder is an odd function of the dividend: `(-a) % n == -(a % n)`. */
  lemma RemIsOdd(a: int, n: int)
    requires n > 0
    ensures Rem(-a, n) == -Rem(a, n)
  {
  }

  /** The characters `trim` removes: ECMAScript WhiteSpace and LineTerminator. */
  predicate IsWhitespace(c: char) {
    || c == '\t' || c == '\n' || c == '\U{000B}' || c == '\U{000C}' || c == '\r'
    || c == ' ' || c == '\U{00A0}' || c == '\U{1680}'
    || ('\U{2000}' <= c <= '\U{200A}')
    || c == '\U{2028}' || c == '\U{2029}' || c == '\U{202F}' || c == '\U{205F}'
    || c == '\U{3000}' || c == '\U{FEFF}'
  }

  /** A string made only of whitespace (the empty string included). */
  predicate IsBlank(s: string) {
    forall i :: 0 <= i < |s| ==> IsWhitespace(s[i])
  }

  /** Leading whitespace removed: the longest suffix that does not start with whitespace. */
  function TrimStart(s: string): (r: string)
    ensures |r| <= |s| && r == s[|s| - |r|..]
    ensures r == [] || !IsWhitespace(r[0])
    ensures forall i :: 0 <= i < |s| - |r| ==> IsWhitespace(s[i])
  {
    if s != [] && IsWhitespace(s[0]) then TrimStart(s[1..]) else s
  }

  /** Trailing whitespace removed: the longest prefix that does not end with whitespace. */
  function TrimEnd(s: string): (r: string)
    ensures |r| <= |s| && r == s[..|r|]
    ensures r == [] || !IsWhitespace(r[|r| - 1])
    ensures forall i :: |r| <= i < |s| ==> IsWhitespace(s[i])
  {
    if s != [] && IsWhitespace(s[|s| - 1]) then TrimEnd(s[..|s| - 1]) else s
  }

  /**
   * `s.trim()`: the slice of `s` left once whitespace is cut from both ends;
   * it neither starts nor ends with whitespace, and all that was cut is whitespace.
   */
  function Trim(s: string): (r: string)
    ensures var k := |s| - |TrimStart(s)|;
      && k + |r| <= |s| && r == s[k..k + |r|]
      && (forall i :: 0 <= i < k ==> IsWhitespace(s[i]))
      && (forall i :: k + |r| <= i < |s| ==> IsWhitespace(s[i]))
    ensures r == [] || (!IsWhitespace(r[0]) && !IsWhitespace(r[|r| - 1]))
  {
    TrimEnd(TrimStart(s))
  }

  /** A query trims to the empty string exactly when it is blank. */
  lemma TrimEmptyIffBlank(s: string)
    ensures Trim(s) == "" <==> IsBlank(s)
  {
  }

  /** No element occurs twice: the array is used as a set. */
  predicate NoDup<T(==,!new)>(xs: seq<T>) {
    forall i, j :: 0 <= i < j < |xs| ==> xs[i] != xs[j]
  }

  /** `if (!xs.includes(x)) xs.push(x)`: `x` is added at the end unless already present. */
  function AddOnce<T(==,!new)>(xs: seq<T>, x: T): (r: seq<T>)
    ensures x in r
    ensures forall y :: y in r <==> y in xs || y == x
    ensures |xs| <= |r| <= |xs| + 1 && r[..|xs|] == xs
    ensures x in xs ==> r == xs
    ensures NoDup(xs) ==> NoDup(r)
  {
    if x in xs then xs else xs + [x]
  }

  /** `xs.filter(y => y !== x)`: every occurrence of `x` dropped, everything else kept. */
  function RemoveAll<T(==,!new)>(xs: seq<T>, x: T): (r: seq<T>)
    ensures x !in r
    ensures forall y :: y in r <==> y in xs && y != x
    ensures forall y :: y != x ==> multiset(r)[y] == multiset(xs)[y]
    ensures |r| == |xs| - multiset(xs)[x]
    ensures NoDup(xs) ==> NoDup(r)
  {
    if xs == [] then []
    else
      assert xs == [xs[0]] + xs[1..];
      if xs[0] == x then RemoveAll(xs[1..], x)
    else [xs[0]] + RemoveAll(xs[1..], x)
  }

  /** Filtering out a value that is absent changes nothing. */
  lemma {:induction false} RemoveAbsent<T(!new)>(xs: seq<T>, x: T)
    requires x !in xs
    ensures RemoveAll(xs, x) == xs
  {
    if xs != [] {
      RemoveAbsent(xs[1..], x);
    }
  }

  /** Filtering distributes over appending one element. */
  lemma {:induction false} RemoveAllAppend<T(!new)>(xs: seq<T>, y: T, x: T)
    ensures RemoveAll(xs + [y], x) == RemoveAll(xs, x) + (if y == x then [] else [y])
  {
    if xs == [] {
      assert xs + [y] == [y];
    } else {
      assert (xs + [y])[1..] == xs[1..] + [y];
      RemoveAllAppend(xs[1..], y, x);
    }
  }

  /** Filtering twice is filtering once. */
  lemma RemoveAllIdempotent<T(!new)>(xs: seq<T>, x: T)
    ensures RemoveAll(RemoveAll(xs, x), x) == RemoveAll(xs, x)
  {
    RemoveAbsent(RemoveAll(xs, x), x);
  }

  /** Adding a value and then filtering it out leaves what filtering alone leaves. */
  lemma RemoveAllUndoesAddOnce<T(!new)>(xs: seq<T>, x: T)
    ensures RemoveAll(AddOnce(xs, x), x) == RemoveAll(xs, x)
  {
    if x !in xs {
      RemoveAllAppend(xs, x, x);
    }
  }

  /** Adding twice is adding once. */
  lemma AddOnceIdempotent<T(!new)>(xs: seq<T>, x: T)
    ensures AddOnce(AddOnce(xs, x), x) == AddOnce(xs, x)
  {
  }
}
