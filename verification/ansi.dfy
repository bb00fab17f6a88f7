/**
 * ANSI select-graphic-rendition escape sequences and what a terminal shows
 * once they are removed. A sequence starts with ESC and runs up to and
 * including the next 'm'; everything else is visible text.
 */
module Ansi {

  const Esc: char := '\U{1B}'

  /** What follows an ESC once its sequence, up to and including the next 'm', is skipped. */
  function SkipPastM(s: string): (r: string)
    ensures |r| <= |s|
    ensures 'm' in s ==> |r| < |s|
  {
    if s == [] then []
    else if s[0] == 'm' then s[1..]
    else SkipPastM(s[1..])
  }

  /** The visible text of `s`: `s` with every escape sequence removed. */
  function StripAnsi(s: string): (r: string)
    ensures |r| <= |s|
    decreases |s|
  {
    if s == [] then []
    else if s[0] == Esc then StripAnsi(SkipPastM(s[1..]))
    else [s[0]] + StripAnsi(s[1..])
  }

  /** Every escape sequence in `s` is complete: `s` does not end inside one. */
  predicate Closed(s: string)
    decreases |s|
  {
    if s == [] then true
    else if s[0] == Esc then 'm' in s[1..] && Closed(SkipPastM(s[1..]))
    else Closed(s[1..])
  }

  /** Plain text: no escape character at all. */
  predicate NoEsc(s: string)
  {
    forall i :: 0 <= i < |s| ==> s[i] != Esc
  }

  /** A single escape sequence: ESC, a body without 'm', and a final 'm'. */
  predicate IsCode(c: string)
  {
    |c| >= 2 && c[0] == Esc && c[|c| - 1] == 'm' && forall i :: 1 <= i < |c| - 1 ==> c[i] != 'm'
  }

  lemma {:induction false} SkipPastMAppend(t: string, b: string)
    requires 'm' in t
    ensures SkipPastM(t + b) == SkipPastM(t) + b
  {
    assert (t + b)[0] == t[0];
    if t[0] != 'm' {
      assert (t + b)[1..] == t[1..] + b;
      SkipPastMAppend(t[1..], b);
    } else {
      assert (t + b)[1..] == t[1..] + b;
    }
  }

  lemma {:induction false} SkipPastMCode(t: string)
    requires |t| >= 1 && t[|t| - 1] == 'm'
    requires forall i :: 0 <= i < |t| - 1 ==> t[i] != 'm'
    ensures SkipPastM(t) == []
  {
    if |t| > 1 {
      SkipPastMCode(t[1..]);
    }
  }

  /** Removing escape sequences distributes over concatenation of closed pieces. */
  lemma {:induction false} StripAppend(a: string, b: string)
    requires Closed(a) && Closed(b)
    ensures Closed(a + b)
    ensures StripAnsi(a + b) == StripAnsi(a) + StripAnsi(b)
    decreases |a|
  {
    if a == [] {
      assert a + b == b;
    } else {
      assert (a + b)[0] == a[0];
      assert (a + b)[1..] == a[1..] + b;
      if a[0] == Esc {
        SkipPastMAppend(a[1..], b);
        assert 'm' in (a + b)[1..];
        StripAppend(SkipPastM(a[1..]), b);
      } else {
        StripAppend(a[1..], b);
        assert [a[0]] + StripAnsi(a[1..]) + StripAnsi(b) == [a[0]] + (StripAnsi(a[1..]) + StripAnsi(b));
      }
    }
  }

  /** Plain text is closed and shows as itself. */
  lemma {:induction false} StripText(t: string)
    requires NoEsc(t)
    ensures Closed(t) && StripAnsi(t) == t
  {
    if t != [] {
      StripText(t[1..]);
    }
  }

  /** An escape sequence is closed and shows as nothing. */
  lemma StripCode(c: string)
    requires IsCode(c)
    ensures Closed(c) && StripAnsi(c) == []
  {
    SkipPastMCode(c[1..]);
  }
}
