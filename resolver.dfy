/**
  The stage-identifier resolver (`task_ids`): it scans the lines of the
  crew's task-output log for the markers "Task 4:" and "Task 5:" and takes,
  from the last line carrying each marker, the stripped text after the
  marker's first occurrence (up to its next occurrence, if any).
*/
module Resolver {
  import opened Wrappers
  import opened PyStr

  const Task4Marker: string := "Task 4:"
  const Task5Marker: string := "Task 5:"

  /**
    The identifier one log line gives for `marker`: `line.split(marker)[1]`
    stripped, when the marker is in the line. The split then always has a
    second piece, so a line holding the marker always yields an identifier.
  */
  function ExtractId(line: string, marker: string): (id: Option<string>)
    requires marker != ""
    ensures id.Some? <==> Contains(line, marker)
  {
    if Contains(line, marker) then
      var parts := Split(line, marker);
      if |parts| > 1 then Some(Strip(parts[1])) else None
    else None
  }

  /**
    What ExtractId yields: the stripped text between the first occurrence of
    the marker and the next one (or the end of the line); it never contains
    the marker itself.
  */
  lemma ExtractIdBetween(line: string, marker: string)
    requires marker != "" && Contains(line, marker)
    ensures var i := IndexOf(line, marker).value;
            var rest := line[i + |marker|..];
            var end := IndexOf(rest, marker).GetOr(|rest|);
            end <= |rest| && ExtractId(line, marker) == Some(Strip(rest[..end]))
    ensures !Contains(ExtractId(line, marker).value, marker)
  {
    SecondPiece(line, marker);
    var raw := Split(line, marker)[1];
    SplitPiecesAvoid(line, marker);
    assert !Contains(raw, marker);
    var id := Strip(raw);
    StripSpec(raw);
    var lo: nat, hi: nat :| lo <= hi <= |raw| && id == raw[lo..hi];
    if Contains(id, marker) {
      SliceContains(raw, marker, lo, hi);
    }
  }

  /** The index of the last line of `log` carrying `marker`, if any. */
  function LastLine(log: seq<string>, marker: string): (r: Option<nat>)
    ensures r.Some? ==> r.value < |log|
  {
    if log == [] then None
    else if Contains(log[|log| - 1], marker) then Some(|log| - 1)
    else LastLine(log[..|log| - 1], marker)
  }

  /** LastLine finds a line carrying the marker after which no line carries it, or finds none. */
  lemma {:induction false} LastLineSpec(log: seq<string>, marker: string)
    ensures var k := LastLine(log, marker);
            && (k.Some? ==>
                  && k.value < |log|
                  && Contains(log[k.value], marker)
                  && forall j | k.value < j < |log| :: !Contains(log[j], marker))
            && (k.None? ==> forall j | 0 <= j < |log| :: !Contains(log[j], marker))
  {
    if log != [] && !Contains(log[|log| - 1], marker) {
      var init := log[..|log| - 1];
      LastLineSpec(init, marker);
      assert forall j | 0 <= j < |init| :: init[j] == log[j];
    }
  }

  /**
    The identifier the last line carrying `marker` gives, or None when no
    line carries it.
  */
  function LastId(log: seq<string>, marker: string): Option<string>
    requires marker != ""
  {
    match LastLine(log, marker)
    case None => None
    case Some(k) => ExtractId(log[k], marker)
  }

  /**
    LastId is None exactly when no line carries the marker; otherwise it is
    what the last line carrying the marker gives.
  */
  lemma LastIdSpec(log: seq<string>, marker: string)
    requires marker != ""
    ensures LastId(log, marker).None? <==> forall j | 0 <= j < |log| :: !Contains(log[j], marker)
    ensures LastId(log, marker).Some? ==>
              exists k | 0 <= k < |log| ::
                && LastId(log, marker) == ExtractId(log[k], marker)
                && forall j | k < j < |log| :: !Contains(log[j], marker)
  {
    LastLineSpec(log, marker);
  }

  /** A later line carrying the marker overrides every earlier one. */
  lemma {:induction false} LastLineIgnoresEarlierLines(before: seq<string>, after: seq<string>, marker: string)
    requires LastLine(after, marker).Some?
    ensures LastLine(before + after, marker) == Some(|before| + LastLine(after, marker).value)
    decreases |after|
  {
    var log := before + after;
    var n := |after|;
    assert log[|log| - 1] == after[n - 1];
    if !Contains(after[n - 1], marker) {
      assert log[..|log| - 1] == before + after[..n - 1];
      LastLineIgnoresEarlierLines(before, after[..n - 1], marker);
    }
  }

  /** Extending the log by one line: that line's identifier wins if it carries the marker. */
  lemma LastIdSnoc(log: seq<string>, line: string, marker: string)
    requires marker != ""
    ensures LastId(log + [line], marker) ==
              if Contains(line, marker) then ExtractId(line, marker) else LastId(log, marker)
  {
    assert (log + [line])[..|log|] == log;
  }

  /** One more line of the same log: LastLine(log[..i + 1]) from LastLine(log[..i]). */
  lemma LastIdStep(log: seq<string>, i: nat, marker: string)
    requires i < |log| && marker != ""
    ensures LastId(log[..i + 1], marker) ==
              if ExtractId(log[i], marker).Some? then ExtractId(log[i], marker) else LastId(log[..i], marker)
  {
    assert log[..i + 1] == log[..i] + [log[i]];
    LastIdSnoc(log[..i], log[i], marker);
  }

  /**
    The same step for a stored identifier: after line i the stored value is
    what line i gives, if anything, else the value stored before it.
  */
  lemma LastIdStepOr(log: seq<string>, i: nat, marker: string, stored: string)
    requires i < |log| && marker != ""
    ensures LastId(log[..i + 1], marker).GetOr(stored) ==
              ExtractId(log[i], marker).GetOr(LastId(log[..i], marker).GetOr(stored))
  {
    LastIdStep(log, i, marker);
  }

  /**
    The identifier stored for `marker` after the first `n` lines, read in
    order: each line that yields an identifier overwrites the stored one.
  */
  function StoredIdAfter(log: seq<string>, n: nat, marker: string, stored: string): string
    requires n <= |log| && marker != ""
  {
    if n == 0 then stored
    else ExtractId(log[n - 1], marker).GetOr(StoredIdAfter(log, n - 1, marker, stored))
  }

  /** Overwriting line by line stores what the last line carrying the marker gives, or keeps `stored`. */
  lemma {:induction false} StoredIdIsLastId(log: seq<string>, n: nat, marker: string, stored: string)
    requires n <= |log| && marker != ""
    ensures StoredIdAfter(log, n, marker, stored) == LastId(log[..n], marker).GetOr(stored)
  {
    if n > 0 {
      StoredIdIsLastId(log, n - 1, marker, stored);
      LastIdStepOr(log, n - 1, marker, stored);
    }
  }

  /** The two stage identifiers the hardened resolver returns together. */
  datatype StageIds = StageIds(generation: string, evaluation: string)

  /** The hardened resolver's error: the marker no log line carries. */
  datatype ResolveError = StageNotFound(marker: string)

  /**
    The hardened resolver: both identifiers, or a failure naming the first
    marker (Task 4 before Task 5) that no line carries.
  */
  function ResolveStrict(log: seq<string>): (r: Result<StageIds, ResolveError>)
    ensures r.Success? <==> LastId(log, Task4Marker).Some? && LastId(log, Task5Marker).Some?
    ensures r.Failure? ==> r.error.marker in {Task4Marker, Task5Marker}
    ensures r.Failure? ==> LastId(log, r.error.marker).None?
    ensures r == Failure(StageNotFound(Task5Marker)) ==> LastId(log, Task4Marker).Some?
  {
    match (LastId(log, Task4Marker), LastId(log, Task5Marker))
    case (Some(id4), Some(id5)) => Success(StageIds(id4, id5))
    case (None, _) => Failure(StageNotFound(Task4Marker))
    case (Some(_), None) => Failure(StageNotFound(Task5Marker))
  }

  /**
    The source's resolver keeps the old identifier for a missing marker; the
    hardened one fails naming it. When both markers are present the two agree.
  */
  lemma StrictVersusLenient(log: seq<string>, old4: string, old5: string)
    ensures ResolveStrict(log).Success? ==>
              && ResolveStrict(log).value.generation == LastId(log, Task4Marker).GetOr(old4)
              && ResolveStrict(log).value.evaluation == LastId(log, Task5Marker).GetOr(old5)
    ensures ResolveStrict(log) == Failure(StageNotFound(Task4Marker)) ==>
              && (forall k | 0 <= k < |log| :: !Contains(log[k], Task4Marker))
              && LastId(log, Task4Marker).GetOr(old4) == old4
    ensures ResolveStrict(log) == Failure(StageNotFound(Task5Marker)) ==>
              && (forall k | 0 <= k < |log| :: !Contains(log[k], Task5Marker))
              && LastId(log, Task5Marker).GetOr(old5) == old5
  {
    LastIdSpec(log, Task4Marker);
    LastIdSpec(log, Task5Marker);
  }
}
