/**
  The three Python string operations the stage-identifier resolver relies on:
  the membership test `m in s`, `s.split(m)` with a non-empty separator, and
  `s.strip()` with no argument.
*/
module PyStr {
  import opened Wrappers

  /** `m` occurs in `s` starting at index `i`. */
  predicate OccursAt(s: string, m: string, i: nat) {
    i + |m| <= |s| && s[i..i + |m|] == m
  }

  /** The first occurrence of `m` in `s` at or after index `from`. */
  function IndexFrom(s: string, m: string, from: nat): (r: Option<nat>)
    ensures r.Some? ==> from <= r.value && OccursAt(s, m, r.value)
    ensures forall j: nat | from <= j && (r.None? || j < r.value) :: !OccursAt(s, m, j)
    decreases |s| - from
  {
    if from + |m| > |s| then None
    else if s[from..from + |m|] == m then Some(from)
    else IndexFrom(s, m, from + 1)
  }

  /** Python's `s.find(m)`, with `None` for -1: the first index where `m` occurs. */
  function IndexOf(s: string, m: string): (r: Option<nat>)
    ensures r.Some? ==> OccursAt(s, m, r.value)
    ensures forall j: nat | r.None? || j < r.value :: !OccursAt(s, m, j)
  {
    IndexFrom(s, m, 0)
  }

  /** Python's `m in s`. */
  predicate Contains(s: string, m: string) {
    IndexOf(s, m).Some?
  }

  /** `m in s` holds exactly when `m` occurs somewhere in `s`. */
  lemma ContainsIff(s: string, m: string)
    ensures Contains(s, m) <==> exists i: nat :: OccursAt(s, m, i)
  {
  }

  /**
    Python's `s.split(m)` for a non-empty separator: the pieces between
    non-overlapping occurrences of `m`, found from left to right.
  */
  function Split(s: string, m: string): (parts: seq<string>)
    requires m != ""
    ensures |parts| >= 1
    ensures |parts| > 1 <==> Contains(s, m)
    decreases |s|
  {
    match IndexOf(s, m)
    case None => [s]
    case Some(i) => [s[..i]] + Split(s[i + |m|..], m)
  }

  /** Python's `m.join(parts)`. */
  function Join(parts: seq<string>, m: string): string {
    if parts == [] then ""
    else if |parts| == 1 then parts[0]
    else parts[0] + m + Join(parts[1..], m)
  }

  /** Joining the pieces of a split with the separator gives back the string. */
  lemma {:induction false} JoinSplit(s: string, m: string)
    requires m != ""
    ensures Join(Split(s, m), m) == s
    decreases |s|
  {
    match IndexOf(s, m)
    case None =>
    case Some(i) =>
      var rest := s[i + |m|..];
      JoinSplit(rest, m);
      assert Split(s, m) == [s[..i]] + Split(rest, m);
      assert s == s[..i] + m + rest;
  }

  /** A text containing `m` inside a slice of `s` is in `s` too. */
  lemma SliceContains(s: string, m: string, lo: nat, hi: nat)
    requires lo <= hi <= |s|
    requires Contains(s[lo..hi], m)
    ensures Contains(s, m)
  {
    var j := IndexOf(s[lo..hi], m).value;
    forall k | 0 <= k < |m| ensures s[lo + j + k] == m[k] {
      assert s[lo..hi][j + k] == m[k];
    }
    assert s[lo + j..lo + j + |m|] == m;
    assert OccursAt(s, m, lo + j);
  }

  /** No piece of a split contains the separator. */
  lemma {:induction false} SplitPiecesAvoid(s: string, m: string)
    requires m != ""
    ensures forall k | 0 <= k < |Split(s, m)| :: !Contains(Split(s, m)[k], m)
    decreases |s|
  {
    match IndexOf(s, m)
    case None =>
    case Some(i) =>
      var rest := s[i + |m|..];
      SplitPiecesAvoid(rest, m);
      HeadAvoids(s, m, i);
      assert Split(s, m) == [s[..i]] + Split(rest, m);
  }

  /** The text before the first occurrence does not contain the separator. */
  lemma HeadAvoids(s: string, m: string, i: nat)
    requires m != "" && IndexOf(s, m) == Some(i)
    ensures !Contains(s[..i], m)
  {
    if Contains(s[..i], m) {
      var j := IndexOf(s[..i], m).value;
      assert s[..i][j..j + |m|] == s[j..j + |m|];
      assert j < i && OccursAt(s, m, j);
    }
  }

  /**
    The second piece of a split is the text between the first occurrence of
    the separator and the next one, or the end of the string when there is
    no next one.
  */
  lemma SecondPiece(s: string, m: string)
    requires m != "" && Contains(s, m)
    ensures var i := IndexOf(s, m).value;
            var rest := s[i + |m|..];
            var end := IndexOf(rest, m).GetOr(|rest|);
            end <= |rest| && Split(s, m)[1] == rest[..end]
  {
    var i := IndexOf(s, m).value;
    var rest := s[i + |m|..];
    assert Split(s, m) == [s[..i]] + Split(rest, m);
    match IndexOf(rest, m)
    case None =>
    case Some(j) =>
      assert Split(rest, m) == [rest[..j]] + Split(rest[j + |m|..], m);
  }

  /** Python's `c.isspace()` for one character. */
  predicate IsSpace(c: char) {
    || c == ' '
    || '\t' <= c <= '\r'
    || '\U{1C}' <= c <= '\U{1F}'
    || c == '\U{85}'
    || c == '\U{A0}'
    || c == '\U{1680}'
    || '\U{2000}' <= c <= '\U{200A}'
    || c == '\U{2028}'
    || c == '\U{2029}'
    || c == '\U{202F}'
    || c == '\U{205F}'
    || c == '\U{3000}'
  }

  /** The first index at or after `lo` whose character is not whitespace, or `|s|`. */
  function SkipSpaces(s: string, lo: nat): (r: nat)
    requires lo <= |s|
    ensures lo <= r <= |s|
    ensures forall k | lo <= k < r :: IsSpace(s[k])
    ensures r < |s| ==> !IsSpace(s[r])
    decreases |s| - lo
  {
    if lo < |s| && IsSpace(s[lo]) then SkipSpaces(s, lo + 1) else lo
  }

  /** The smallest index `r` in [lo, hi] such that only whitespace lies in [r, hi). */
  function SkipSpacesBack(s: string, lo: nat, hi: nat): (r: nat)
    requires lo <= hi <= |s|
    ensures lo <= r <= hi
    ensures forall k | r <= k < hi :: IsSpace(s[k])
    ensures lo < r ==> !IsSpace(s[r - 1])
    decreases hi
  {
    if lo < hi && IsSpace(s[hi - 1]) then SkipSpacesBack(s, lo, hi - 1) else hi
  }

  /** Python's `s.strip()`: drops the whitespace at both ends. */
  function Strip(s: string): string {
    var lo := SkipSpaces(s, 0);
    s[lo..SkipSpacesBack(s, lo, |s|)]
  }

  /**
    What `strip` leaves: a slice of `s` that neither starts nor ends with
    whitespace, with only whitespace cut off on either side.
  */
  lemma StripSpec(s: string)
    ensures var r := Strip(s);
            && (r != "" ==> !IsSpace(r[0]) && !IsSpace(r[|r| - 1]))
            && exists lo: nat, hi: nat | lo <= hi <= |s| ::
                 && r == s[lo..hi]
                 && (forall k | 0 <= k < lo :: IsSpace(s[k]))
                 && (forall k | hi <= k < |s| :: IsSpace(s[k]))
  {
    var lo := SkipSpaces(s, 0);
    var hi := SkipSpacesBack(s, lo, |s|);
    assert Strip(s) == s[lo..hi];
  }

  /** Stripping twice is stripping once. */
  lemma StripIdempotent(s: string)
    ensures Strip(Strip(s)) == Strip(s)
  {
    var r := Strip(s);
    StripSpec(s);
    assert SkipSpaces(r, 0) == 0;
    assert SkipSpacesBack(r, 0, |r|) == |r|;
  }
}
