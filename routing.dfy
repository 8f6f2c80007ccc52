/**
 * `checkRouting` of menu/index.tsx: two paths route to the same app when the
 * pieces at index 1 of their `split('/')` agree (both absent counts as equal).
 */
module Routing {
  import opened Wrappers

  /** JavaScript's `s.split('/')`: the maximal slash-free pieces, never fewer than one. */
  function Split(s: string): (parts: seq<string>)
    ensures |parts| >= 1
    ensures forall i :: 0 <= i < |parts| ==> '/' !in parts[i]
  {
    if s == [] then [""]
    else
      var rest := Split(s[1..]);
      if s[0] == '/' then [""] + rest
      else [[s[0]] + rest[0]] + rest[1..]
  }

  /** `parts.join('/')`. */
  function Join(parts: seq<string>): string
  {
    if |parts| <= 1 then (if parts == [] then "" else parts[0])
    else parts[0] + "/" + Join(parts[1..])
  }

  /** Splitting loses nothing: joining the pieces back gives the original path. */
  lemma {:induction false} JoinSplit(s: string)
    ensures Join(Split(s)) == s
  {
    if s != [] {
      JoinSplit(s[1..]);
      var rest := Split(s[1..]);
      if s[0] == '/' {
        assert ([""] + rest)[1..] == rest;
      } else if |rest| > 1 {
        assert ([[s[0]] + rest[0]] + rest[1..])[1..] == rest[1..];
      }
      assert s == [s[0]] + s[1..];
    }
  }

  /** `s.split('/')[1]`, `undefined` when `s` holds no slash. */
  function SegmentAt1(s: string): (segment: Option<string>)
    ensures segment.Some? <==> '/' in s
    ensures segment.Some? ==> '/' !in segment.value
  {
    SplitAtFirstSlash(s);
    var parts := Split(s);
    if |parts| > 1 then Some(parts[1]) else None
  }

  /**
   * `checkRouting(location, path)`: a path with a slash never matches one without,
   * and two slash-free paths always match (both segments are `undefined`).
   */
  function CheckRouting(location: string, path: string): (same: bool)
    ensures same ==> ('/' in location <==> '/' in path)
    ensures '/' !in location && '/' !in path ==> same
  {
    SegmentAt1(location) == SegmentAt1(path)
  }

  /** Index of the first occurrence of `c` in `s`. */
  function IndexOf(s: string, c: char): (i: nat)
    requires c in s
    ensures i < |s| && s[i] == c && c !in s[..i]
  {
    if s[0] == c then 0 else IndexOf(s[1..], c) + 1
  }

  /** Reference reading of the segment: the text after the first slash, up to the next slash. */
  function SecondSegment(s: string): Option<string>
  {
    if '/' !in s then None
    else
      var rest := s[IndexOf(s, '/') + 1..];
      Some(if '/' in rest then rest[..IndexOf(rest, '/')] else rest)
  }

  /** The split of a path is its text before the first slash followed by the split of the rest. */
  lemma {:induction false} SplitAtFirstSlash(s: string)
    ensures '/' !in s ==> Split(s) == [s]
    ensures '/' in s ==> Split(s) == [s[..IndexOf(s, '/')]] + Split(s[IndexOf(s, '/') + 1..])
  {
    if s != [] {
      SplitAtFirstSlash(s[1..]);
      if s[0] != '/' {
        assert s == [s[0]] + s[1..];
        if '/' in s {
          assert '/' in s[1..];
          var i := IndexOf(s[1..], '/');
          assert IndexOf(s, '/') == i + 1;
          assert s[..i + 1] == [s[0]] + s[1..][..i];
          assert s[i + 2..] == s[1..][i + 1..];
        }
      }
    }
  }

  /** `split('/')[1]` is exactly the text between the first and second slash. */
  lemma SegmentAt1IsSecondSegment(s: string)
    ensures SegmentAt1(s) == SecondSegment(s)
  {
    SplitAtFirstSlash(s);
    if '/' in s {
      var rest := s[IndexOf(s, '/') + 1..];
      SplitAtFirstSlash(rest);
    }
  }

  /** Two paths route alike exactly when their second segments agree. */
  lemma CheckRoutingMeaning(location: string, path: string)
    ensures CheckRouting(location, path) <==> SecondSegment(location) == SecondSegment(path)
  {
    SegmentAt1IsSecondSegment(location);
    SegmentAt1IsSecondSegment(path);
  }

  /** Routing agreement is an equivalence: reflexive, symmetric and transitive. */
  lemma CheckRoutingIsEquivalence(a: string, b: string, c: string)
    ensures CheckRouting(a, a)
    ensures CheckRouting(a, b) == CheckRouting(b, a)
    ensures CheckRouting(a, b) && CheckRouting(b, c) ==> CheckRouting(a, c)
  {
  }
}
