/**
 * Ruby's `String#split` on a pattern matching a maximal run of two or more
 * characters of one class (`/\n\n+/` or `/\s{2,}/`). As in Ruby, the
 * leftmost match wins, trailing empty fields are dropped and an empty
 * string splits into no fields.
 */
module Splitting {
  import opened Wrappers
  import Text

  /** `s` has two adjacent separator characters at `i`. */
  predicate PairAt(s: string, sep: char -> bool, i: int) {
    0 <= i && i + 1 < |s| && sep(s[i]) && sep(s[i + 1])
  }

  /** No two adjacent separator characters. */
  predicate NoPair(s: string, sep: char -> bool) {
    forall i :: 0 <= i < |s| ==> !PairAt(s, sep, i)
  }

  /** Leftmost position at or after `from` where a match starts. */
  function PairFrom(s: string, sep: char -> bool, from: nat): (r: Option<nat>)
    ensures r.Some? ==> from <= r.value && PairAt(s, sep, r.value)
    ensures r.Some? ==> forall i :: from <= i < r.value ==> !PairAt(s, sep, i)
    ensures r.None? ==> forall i :: from <= i ==> !PairAt(s, sep, i)
    decreases |s| - from
  {
    if from + 1 >= |s| then None
    else if PairAt(s, sep, from) then Some(from)
    else PairFrom(s, sep, from + 1)
  }

  /** A prefix ending before the first match has no match. */
  lemma NoPairPrefix(s: string, sep: char -> bool, n: nat)
    requires n <= |s|
    requires forall i :: 0 <= i < n ==> !PairAt(s, sep, i)
    ensures NoPair(s[..n], sep)
  {
    forall k | 0 <= k < n
      ensures !PairAt(s[..n], sep, k)
    {
      assert !PairAt(s, sep, k);
    }
  }

  /** All fields, trailing empty ones included. */
  function RawSplit(s: string, sep: char -> bool): (r: seq<string>)
    ensures |r| >= 1
    ensures forall k :: 0 <= k < |r| ==> NoPair(r[k], sep)
    decreases |s|
  {
    match PairFrom(s, sep, 0)
    case None =>
      assert s[..|s|] == s;
      NoPairPrefix(s, sep, |s|);
      [s]
    case Some(i) =>
      var j := i + Text.LeadingCount(s[i..], sep);
      NoPairPrefix(s, sep, i);
      [s[..i]] + RawSplit(s[j..], sep)
  }

  function DropTrailingEmpty(ps: seq<string>): (r: seq<string>)
    ensures r <= ps
    ensures |r| == 0 || r[|r| - 1] != ""
    ensures forall k :: |r| <= k < |ps| ==> ps[k] == ""
  {
    if |ps| == 0 then []
    else if ps[|ps| - 1] == "" then DropTrailingEmpty(ps[..|ps| - 1])
    else ps
  }

  /** `s.split(pattern)`: fields without a run of two separators, none of them a trailing empty one. */
  function Split(s: string, sep: char -> bool): (r: seq<string>)
    ensures forall k :: 0 <= k < |r| ==> NoPair(r[k], sep)
    ensures |r| == 0 || r[|r| - 1] != ""
    ensures s == "" ==> r == []
  {
    if s == "" then [] else DropTrailingEmpty(RawSplit(s, sep))
  }

  /** No match starts inside a field that does not end in a separator. */
  lemma NoPairBefore(p: string, t: string, sep: char -> bool)
    requires NoPair(p, sep) && (|p| == 0 || !sep(p[|p| - 1]))
    ensures forall k :: 0 <= k < |p| ==> !PairAt(p + t, sep, k)
  {
    forall k | 0 <= k < |p|
      ensures !PairAt(p + t, sep, k)
    {
      if k + 1 < |p| {
        assert !PairAt(p, sep, k);
      }
    }
  }

  /** The first match is at `n` when none starts before it and one starts there. */
  lemma FirstPair(s: string, sep: char -> bool, n: nat)
    requires forall k :: 0 <= k < n ==> !PairAt(s, sep, k)
    requires PairAt(s, sep, n)
    ensures PairFrom(s, sep, 0) == Some(n)
  {
  }

  /** The run of separators in front of a non-separator has the run's length. */
  lemma RunLength(run: string, rest: string, sep: char -> bool)
    requires forall k :: 0 <= k < |run| ==> sep(run[k])
    requires |rest| == 0 || !sep(rest[0])
    ensures Text.LeadingCount(run + rest, sep) == |run|
  {
    var s := run + rest;
    forall k | 0 <= k < |run|
      ensures sep(s[k])
    {
      assert s[k] == run[k];
    }
    assert |rest| > 0 ==> s[|run|] == rest[0];
  }

  /** A field separated from the rest by a run. */
  lemma RawSplitCons(p: string, run: string, rest: string, sep: char -> bool)
    requires NoPair(p, sep) && (|p| == 0 || !sep(p[|p| - 1]))
    requires |run| >= 2 && forall k :: 0 <= k < |run| ==> sep(run[k])
    requires |rest| == 0 || !sep(rest[0])
    ensures RawSplit(p + run + rest, sep) == [p] + RawSplit(rest, sep)
  {
    var s := p + run + rest;
    var n := |p|;
    Slices(p, run, rest);
    NoPairBefore(p, run + rest, sep);
    FirstPair(s, sep, n);
    RunLength(run, rest, sep);
  }

  /** The pieces of `p + run + rest`, as slices. */
  lemma Slices(p: string, run: string, rest: string)
    requires |run| >= 2
    ensures var s := p + run + rest;
      s == p + (run + rest) && s[|p|] == run[0] && s[|p| + 1] == run[1]
      && s[|p|..] == run + rest && s[..|p|] == p && s[|p| + |run|..] == rest
  {
    var s := p + run + rest;
    assert s[|p|..] == run + rest;
  }

  /** A final field without a match splits into itself. */
  lemma RawSplitLast(p: string, sep: char -> bool)
    requires NoPair(p, sep)
    ensures RawSplit(p, sep) == [p]
  {
    match PairFrom(p, sep, 0)
    case None =>
    case Some(i) =>
      assert false;
  }
}
