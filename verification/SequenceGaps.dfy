/** Counting packets lost between observed sequence numbers. */
module SequenceGaps {
  import opened Seqs

  /** The list cut wherever a number does not exceed the one before it. */
  function Runs(s: seq<nat>): seq<seq<nat>> {
    if s == [] then []
    else Extended(Runs(s[..|s| - 1]), s[|s| - 1])
  }

  function Extended(runs: seq<seq<nat>>, x: nat): seq<seq<nat>> {
    if runs == [] then [[x]]
    else
      var last := runs[|runs| - 1];
      if last == [] || x <= last[|last| - 1] then runs + [[x]]
      else runs[..|runs| - 1] + [last + [x]]
  }

  ghost predicate Increasing(run: seq<nat>) {
    run != [] && forall i, j :: 0 <= i < j < |run| ==> run[i] < run[j]
  }

  /** The pieces are strictly increasing, put together they are the list, and none
      could be extended: each starts at or below the end of the one before. */
  ghost predicate MaximalRuns(runs: seq<seq<nat>>, s: seq<nat>) {
    && Flatten(runs) == s
    && (forall k :: 0 <= k < |runs| ==> Increasing(runs[k]))
    && forall k {:trigger runs[k]} :: 0 < k < |runs| ==> Breaks(runs[k - 1], runs[k])
  }

  ghost predicate Breaks(run: seq<nat>, next: seq<nat>) {
    run != [] && next != [] && next[0] <= run[|run| - 1]
  }

  lemma {:induction false} RunsAreMaximal(s: seq<nat>)
    ensures MaximalRuns(Runs(s), s)
    ensures s != [] ==> Runs(s) != [] && EndOf(Runs(s)) == s[|s| - 1]
  {
    if s != [] {
      var rest, x := s[..|s| - 1], s[|s| - 1];
      RunsAreMaximal(rest);
      ExtendedMaximal(Runs(rest), rest, x);
      FrontLast(s);
    }
  }

  lemma FrontLast(s: seq<nat>)
    requires s != []
    ensures s == s[..|s| - 1] + [s[|s| - 1]]
  {
  }

  lemma ExtendedMaximal(runs: seq<seq<nat>>, s: seq<nat>, x: nat)
    requires MaximalRuns(runs, s)
    ensures MaximalRuns(Extended(runs, x), s + [x]) && EndOf(Extended(runs, x)) == x
  {
    if runs == [] {
      FirstRun(x);
      assert s + [x] == [x];
    } else {
      assert Increasing(runs[|runs| - 1]);
      if x <= EndOf(runs) {
        NewRun(runs, s, x);
      } else {
        ExtendRun(runs, s, x);
      }
    }
  }

  lemma FirstRun(x: nat)
    ensures MaximalRuns([[x]], [x])
  {
    FlattenSnoc([], [x]);
    assert [] + [[x]] == [[x]];
  }

  lemma NewRun(runs: seq<seq<nat>>, s: seq<nat>, x: nat)
    requires MaximalRuns(runs, s) && runs != [] && x <= EndOf(runs)
    ensures MaximalRuns(runs + [[x]], s + [x])
  {
    FlattenSnoc(runs, [x]);
    var runs' := runs + [[x]];
    assert Increasing(runs[|runs| - 1]);
    forall k {:trigger runs'[k]} | 0 < k < |runs'|
      ensures Breaks(runs'[k - 1], runs'[k])
    {
      assert k < |runs| ==> runs'[k] == runs[k];
      assert runs'[k - 1] == runs[k - 1];
    }
  }

  lemma ExtendRun(runs: seq<seq<nat>>, s: seq<nat>, x: nat)
    requires MaximalRuns(runs, s) && runs != [] && runs[|runs| - 1] != [] && x > EndOf(runs)
    ensures MaximalRuns(runs[..|runs| - 1] + [runs[|runs| - 1] + [x]], s + [x])
  {
    var n := |runs| - 1;
    var front, last := runs[..n], runs[n];
    FlattenSnoc(front, last + [x]);
    assert Flatten(front) + (last + [x]) == Flatten(runs) + [x];
    var runs' := front + [last + [x]];
    forall k {:trigger runs'[k]} | 0 <= k < |runs'|
      ensures Increasing(runs'[k]) && (k > 0 ==> Breaks(runs'[k - 1], runs'[k]))
    {
      assert Increasing(runs[k]);
      assert k > 0 ==> Breaks(runs[k - 1], runs[k]) && runs'[k - 1] == runs[k - 1];
      assert k < n ==> runs'[k] == runs[k];
      if k == n {
        IncreasingSnoc(last, x);
      }
    }
  }

  lemma IncreasingSnoc(run: seq<nat>, x: nat)
    requires Increasing(run) && x > run[|run| - 1]
    ensures Increasing(run + [x])
  {
  }

  /** The number the last run ends with. */
  function EndOf(runs: seq<seq<nat>>): nat {
    if runs == [] || runs[|runs| - 1] == [] then 0
    else runs[|runs| - 1][|runs[|runs| - 1]| - 1]
  }

  /** Numbers a run passes over: last - first + 1 - length. */
  function Missing(run: seq<nat>): int {
    if run == [] then 0 else run[|run| - 1] - run[0] + 1 - |run|
  }

  function TotalMissing(runs: seq<seq<nat>>): int {
    if runs == [] then 0 else TotalMissing(runs[..|runs| - 1]) + Missing(runs[|runs| - 1])
  }

  function Skipped(run: seq<nat>): set<nat>
    requires run != []
  {
    set v | run[0] <= v <= run[|run| - 1] && v !in run
  }

  /** `Missing` counts the numbers inside the run's range that never arrived. */
  lemma {:induction false} MissingCounts(run: seq<nat>)
    requires Increasing(run)
    ensures Missing(run) == |Skipped(run)|
  {
    var n := |run| - 1;
    if n == 0 {
      assert Skipped(run) == {};
    } else {
      MissingCounts(run[..n]);
      SkippedSplit(run);
    }
  }

  lemma SkippedSplit(run: seq<nat>)
    requires Increasing(run) && |run| > 1
    ensures var n := |run| - 1;
            && Skipped(run) == Skipped(run[..n]) + Between(run[n - 1], run[n])
            && Skipped(run[..n]) !! Between(run[n - 1], run[n])
  {
    var n := |run| - 1;
    var shorter := run[..n];
    assert run == shorter + [run[n]];
    forall v ensures v in Skipped(run) <==> v in Skipped(shorter) || v in Between(run[n - 1], run[n]) {
      if run[n - 1] < v < run[n] {
        assert v !in shorter;
      }
    }
  }

  function Between(lo: nat, hi: nat): (s: set<nat>)
    ensures lo < hi ==> |s| == hi - lo - 1
    ensures forall v :: v in s <==> lo < v < hi
    decreases hi
  {
    if hi <= lo + 1 then {} else Between(lo, hi - 1) + {hi - 1}
  }

  /** What one more number adds to the count: the gap, when it exceeds the last one. */
  function Gap(s: seq<nat>, x: nat): nat {
    if s != [] && x > s[|s| - 1] then x - s[|s| - 1] - 1 else 0
  }

  /** The step of both trackers telescopes to the sum over the runs, so wraps and
      radio restarts add nothing. */
  lemma GapTelescopes(s: seq<nat>, x: nat)
    ensures TotalMissing(Runs(s + [x])) == TotalMissing(Runs(s)) + Gap(s, x)
  {
    RunsAreMaximal(s);
    assert (s + [x])[..|s|] == s;
    var runs := Runs(s);
    if runs != [] {
      var last := runs[|runs| - 1];
      assert Increasing(last);
      assert (runs + [[x]])[..|runs|] == runs;
      assert (runs[..|runs| - 1] + [last + [x]])[..|runs| - 1] == runs[..|runs| - 1];
    } else {
      assert s == [];
      assert TotalMissing([[x]]) == TotalMissing([]) + Missing([x]);
    }
  }

  /** The parser's tracker. */
  class SequenceTracker {
    var seen: bool
    var last: nat
    var droppedFrames: int
    var totalFrames: nat
    ghost var observed: seq<nat>

    ghost predicate Valid()
      reads this
    {
      && (seen <==> observed != [])
      && (seen ==> last == observed[|observed| - 1])
      && droppedFrames == TotalMissing(Runs(observed))
      && totalFrames == |observed|
    }

    constructor ()
      ensures Valid() && observed == []
    {
      seen, last, droppedFrames, totalFrames := false, 0, 0, 0;
      observed := [];
    }

    method Observe(sequence: nat)
      requires Valid()
      modifies this
      ensures Valid() && observed == old(observed) + [sequence]
    {
      GapTelescopes(observed, sequence);
      totalFrames := totalFrames + 1;
      if seen {
        if sequence > last {
          var gap := sequence - last - 1;
          if gap > 0 {
            droppedFrames := droppedFrames + gap;
          }
        }
      }
      seen := true;
      last := sequence;
      observed := observed + [sequence];
    }
  }

  /** The client's own counters; starting a stream zeroes them but keeps the last
      number, so the count is what was lost since then. */
  class ClientSequence {
    var seenAnySequence: bool
    var lastSeenSequence: nat
    var droppedFrames: int
    ghost var observed: seq<nat>
    ghost var lostBefore: int

    ghost predicate Valid()
      reads this
    {
      && (seenAnySequence <==> observed != [])
      && (seenAnySequence ==> lastSeenSequence == observed[|observed| - 1])
      && droppedFrames == TotalMissing(Runs(observed)) - lostBefore
    }

    constructor ()
      ensures Valid() && observed == [] && lostBefore == 0
    {
      seenAnySequence, lastSeenSequence, droppedFrames := false, 0, 0;
      observed, lostBefore := [], 0;
    }

    method StartStream()
      requires Valid()
      modifies this
      ensures Valid() && observed == old(observed) && droppedFrames == 0
      ensures lostBefore == TotalMissing(Runs(observed))
    {
      droppedFrames := 0;
      lostBefore := TotalMissing(Runs(observed));
    }

    method ObserveSequence(sequence: nat)
      requires Valid()
      modifies this
      ensures Valid() && observed == old(observed) + [sequence] && lostBefore == old(lostBefore)
    {
      GapTelescopes(observed, sequence);
      if seenAnySequence && sequence > lastSeenSequence {
        var gap := sequence - lastSeenSequence - 1;
        if gap > 0 {
          droppedFrames := droppedFrames + gap;
        }
      }
      seenAnySequence := true;
      lastSeenSequence := sequence;
      observed := observed + [sequence];
    }
  }
}
