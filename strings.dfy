/** The JavaScript string operations the components rely on:
    `toUpperCase`, `indexOf`, `split` on one character and `replace` of one
    character by another. */
module Strings {

  predicate IsLower(c: char) {
    'a' <= c <= 'z'
  }

  /** `toUpperCase` on one character (ASCII letters only). */
  function UpperChar(c: char): (u: char)
    ensures !IsLower(u)
    ensures !IsLower(c) ==> u == c
    ensures IsLower(c) ==> u as int + 32 == c as int
  {
    if IsLower(c) then (c as int - 32) as char else c
  }

  /** `toUpperCase` on a string: the same length, no lower-case letter left,
      every other character kept. */
  function Upper(s: string): (r: string)
    ensures |r| == |s|
    ensures forall i :: 0 <= i < |r| ==> !IsLower(r[i])
    ensures forall i :: 0 <= i < |s| && !IsLower(s[i]) ==> r[i] == s[i]
  {
    seq(|s|, i requires 0 <= i < |s| => UpperChar(s[i]))
  }

  /** Upper-casing twice is upper-casing once. */
  lemma UpperIdempotent(s: string)
    ensures Upper(Upper(s)) == Upper(s)
  {
    var u := Upper(s);
    assert forall i :: 0 <= i < |u| ==> Upper(u)[i] == u[i];
  }

  predicate MatchesAt(s: string, t: string, i: int) {
    0 <= i && i + |t| <= |s| && s[i..i + |t|] == t
  }

  /** `s.indexOf(t, from)`: the first position at or after `from` where `t`
      occurs, or -1 when there is none. */
  function IndexFrom(s: string, t: string, from: nat): (r: int)
    requires from <= |s|
    ensures r == -1 || (from <= r && MatchesAt(s, t, r))
    ensures r == -1 ==> forall i :: from <= i <= |s| ==> !MatchesAt(s, t, i)
    ensures r != -1 ==> forall i :: from <= i < r ==> !MatchesAt(s, t, i)
    decreases |s| - from
  {
    if MatchesAt(s, t, from) then from
    else if from == |s| then -1
    else IndexFrom(s, t, from + 1)
  }

  /** `s.indexOf(t)`. */
  function IndexOf(s: string, t: string): (r: int)
    ensures r == -1 || MatchesAt(s, t, r)
    ensures r == -1 <==> forall i :: 0 <= i <= |s| ==> !MatchesAt(s, t, i)
    ensures r != -1 ==> forall i :: 0 <= i < r ==> !MatchesAt(s, t, i)
  {
    IndexFrom(s, t, 0)
  }

  /** `s.split(sep)` for a one-character separator: the maximal runs of
      characters other than `sep`, in order; at least one part, even for the
      empty string. */
  function Split(s: string, sep: char): (parts: seq<string>)
    ensures |parts| >= 1
    ensures forall k :: 0 <= k < |parts| ==> sep !in parts[k]
    decreases |s|
  {
    if s == [] then [""]
    else if s[0] == sep then [""] + Split(s[1..], sep)
    else
      var rest := Split(s[1..], sep);
      [[s[0]] + rest[0]] + rest[1..]
  }

  /** `parts.join(sep)`. */
  function Join(parts: seq<string>, sep: char): (s: string)
    requires |parts| >= 1
    decreases |parts|
  {
    if |parts| == 1 then parts[0] else parts[0] + [sep] + Join(parts[1..], sep)
  }

  /** Joining the parts of a split gives the string back. */
  lemma {:induction false} JoinSplit(s: string, sep: char)
    ensures Join(Split(s, sep), sep) == s
    decreases |s|
  {
    if s == [] {
    } else if s[0] == sep {
      JoinSplit(s[1..], sep);
      assert s == [sep] + s[1..];
    } else {
      JoinSplit(s[1..], sep);
      JoinConsFirst(s[0], Split(s[1..], sep), sep);
      assert s == [s[0]] + s[1..];
    }
  }

  /** Prepending a character to the first part prepends it to the join. */
  lemma JoinConsFirst(c: char, rest: seq<string>, sep: char)
    requires |rest| >= 1
    ensures Join([[c] + rest[0]] + rest[1..], sep) == [c] + Join(rest, sep)
  {
    var parts := [[c] + rest[0]] + rest[1..];
    assert parts[0] == [c] + rest[0];
    if |rest| > 1 {
      assert parts[1..] == rest[1..];
    }
  }

  /** Splitting a join of separator-free parts gives the parts back. */
  lemma {:induction false} SplitJoin(parts: seq<string>, sep: char)
    requires |parts| >= 1
    requires forall k :: 0 <= k < |parts| ==> sep !in parts[k]
    ensures Split(Join(parts, sep), sep) == parts
    decreases |parts|, |parts[0]|
  {
    var p := parts[0];
    if |parts| == 1 {
      SplitFree(p, sep);
    } else if p == [] {
      var s := Join(parts, sep);
      assert s == [sep] + Join(parts[1..], sep);
      assert s[1..] == Join(parts[1..], sep);
      SplitJoin(parts[1..], sep);
      assert parts == [""] + parts[1..];
    } else {
      var s := Join(parts, sep);
      var shorter := [p[1..]] + parts[1..];
      assert Join(shorter, sep) == p[1..] + [sep] + Join(parts[1..], sep);
      assert s == [p[0]] + Join(shorter, sep);
      assert s[0] == p[0] && s[1..] == Join(shorter, sep);
      assert p[0] != sep by { assert p[0] in p; }
      SplitJoin(shorter, sep);
      assert [p[0]] + p[1..] == p;
      assert parts == [p] + shorter[1..];
    }
  }

  /** A string without the separator splits into itself alone. */
  lemma {:induction false} SplitFree(s: string, sep: char)
    requires sep !in s
    ensures Split(s, sep) == [s]
    decreases |s|
  {
    if s != [] {
      assert s[0] != sep by { assert s[0] in s; }
      assert sep !in s[1..] by { assert forall c :: c in s[1..] ==> c in s; }
      SplitFree(s[1..], sep);
      assert [s[0]] + s[1..] == s;
    }
  }

  /** `s.replace(/from/g, to)`: every occurrence of one character replaced by
      another, nothing else changed. */
  function ReplaceChar(s: string, from: char, to: char): (r: string)
    ensures |r| == |s|
    ensures forall i :: 0 <= i < |s| ==> r[i] == (if s[i] == from then to else s[i])
    ensures from != to ==> from !in r
  {
    seq(|s|, i requires 0 <= i < |s| => if s[i] == from then to else s[i])
  }
}
