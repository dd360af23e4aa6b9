/** The serialisation checker: per-run time windows, their overlap, and the A,B,A pattern. */
module Ordering {
  import opened Store

  // What the checker reads of a stored event; final is run_done or run_failed.
  datatype Entry = Entry(run: int, at: int, final: bool)

  datatype Window = Window(run: int, start: int, end: int, events: nat, done: bool)

  // Some run's events resume after another run's event.
  predicate Interleaved(runs: seq<int>) {
    exists p, q, u :: 0 <= p < q < u < |runs| && runs[p] == runs[u] != runs[q]
  }

  function Runs(all: seq<Entry>): (rs: seq<int>)
    ensures |rs| == |all| && forall k :: 0 <= k < |all| ==> rs[k] == all[k].run
  {
    seq(|all|, k requires 0 <= k < |all| => all[k].run)
  }

  // The order of the checker's query; seq breaks ties and is not needed here.
  predicate ByTime(all: seq<Entry>) {
    forall j, k :: 0 <= j < k < |all| ==> all[j].at <= all[k].at
  }

  predicate DistinctTimes(all: seq<Entry>) {
    forall j, k :: 0 <= j < k < |all| ==> all[j].at != all[k].at
  }

  // ---------- Windows ----------

  function Count(all: seq<Entry>, r: int): nat {
    if all == [] then 0
    else Count(all[..|all| - 1], r) + if all[|all| - 1].run == r then 1 else 0
  }

  predicate Finished(all: seq<Entry>, r: int) {
    exists k :: 0 <= k < |all| && all[k].run == r && all[k].final
  }

  // w is its run's window, the run's first and last events being at f and l.
  predicate WindowOf(w: Window, all: seq<Entry>, f: nat, l: nat) {
    && f <= l < |all| && all[f].run == all[l].run == w.run
    && (forall k :: 0 <= k < |all| && all[k].run == w.run ==> f <= k <= l)
    && w.start == all[f].at && w.end == all[l].at
    && w.events == Count(all, w.run) && (w.done <==> Finished(all, w.run))
  }

  // One window per run that occurs, in the order the runs first appear.
  predicate Windows(ws: seq<Window>, all: seq<Entry>, first: seq<nat>, last: seq<nat>) {
    && |first| == |last| == |ws|
    && (forall i :: 0 <= i < |ws| ==> WindowOf(ws[i], all, first[i], last[i]))
    && (forall i, j :: 0 <= i < j < |ws| ==> first[i] < first[j])
    && (forall k {:trigger Covered(ws, all[k].run)} :: 0 <= k < |all| ==> Covered(ws, all[k].run))
  }

  // The same, wherever the first and last events lie.
  ghost predicate Summarises(ws: seq<Window>, all: seq<Entry>) {
    exists first, last :: Windows(ws, all, first, last)
  }

  predicate Covered(ws: seq<Window>, r: int) {
    exists i :: 0 <= i < |ws| && ws[i].run == r
  }

  function Grown(w: Window, e: Entry): Window {
    Window(w.run, w.start, e.at, w.events + 1, w.done || e.final)
  }

  lemma GrowWindow(w: Window, all: seq<Entry>, f: nat, l: nat, e: Entry)
    requires WindowOf(w, all, f, l)
    ensures e.run == w.run ==> WindowOf(Grown(w, e), all + [e], f, |all|)
    ensures e.run != w.run ==> WindowOf(w, all + [e], f, l)
  {
    var more := all + [e];
    assert more[..|all|] == all;
    FinishedGrows(all, e, w.run);
  }

  lemma FinishedGrows(all: seq<Entry>, e: Entry, r: int)
    ensures Finished(all + [e], r) <==> Finished(all, r) || (e.run == r && e.final)
  {
    var more := all + [e];
    if Finished(all, r) {
      var k :| 0 <= k < |all| && all[k].run == r && all[k].final;
      assert more[k].run == r && more[k].final;
    }
    if e.run == r && e.final { assert more[|all|].run == r; }
  }

  lemma NewWindow(all: seq<Entry>, e: Entry)
    requires forall k :: 0 <= k < |all| ==> all[k].run != e.run
    ensures WindowOf(Window(e.run, e.at, e.at, 1, e.final), all + [e], |all|, |all|)
  {
    var more := all + [e];
    assert more[..|all|] == all;
    CountNone(all, e.run);
    FinishedGrows(all, e, e.run);
  }

  lemma {:induction false} CountNone(all: seq<Entry>, r: int)
    requires forall k :: 0 <= k < |all| ==> all[k].run != r
    ensures Count(all, r) == 0
  {
    if all != [] { CountNone(all[..|all| - 1], r); }
  }

  lemma Distinct(ws: seq<Window>, all: seq<Entry>, first: seq<nat>, last: seq<nat>, i: nat, j: nat)
    requires Windows(ws, all, first, last) && i < |ws| && j < |ws| && i != j
    ensures ws[i].run != ws[j].run
  {
    assert WindowOf(ws[i], all, first[i], last[i]) && WindowOf(ws[j], all, first[j], last[j]);
    assert first[i] != first[j];
  }

  lemma Covers(ws: seq<Window>, xs: seq<Window>, all: seq<Entry>, e: Entry)
    requires forall k {:trigger Covered(ws, all[k].run)} :: 0 <= k < |all| ==> Covered(ws, all[k].run)
    requires |ws| <= |xs| && forall i :: 0 <= i < |ws| ==> xs[i].run == ws[i].run
    requires Covered(xs, e.run)
    ensures forall k :: 0 <= k < |all + [e]| ==> Covered(xs, (all + [e])[k].run)
  {
    forall k | 0 <= k < |all| ensures Covered(xs, all[k].run) {
      assert Covered(ws, all[k].run);
      var i :| 0 <= i < |ws| && ws[i].run == all[k].run;
      assert xs[i].run == all[k].run;
    }
  }

  lemma Extend(ws: seq<Window>, all: seq<Entry>, first: seq<nat>, last: seq<nat>, e: Entry, i: nat)
    requires Windows(ws, all, first, last) && i < |ws| && ws[i].run == e.run
    ensures Windows(ws[i := Grown(ws[i], e)], all + [e], first, last[i := |all|])
  {
    var xs, ls := ws[i := Grown(ws[i], e)], last[i := |all|];
    forall j | 0 <= j < |ws| ensures WindowOf(xs[j], all + [e], first[j], ls[j]) {
      if j != i { Distinct(ws, all, first, last, i, j); }
      GrowWindow(ws[j], all, first[j], last[j], e);
    }
    assert xs[i].run == e.run;
    Covers(ws, xs, all, e);
  }

  lemma Open(ws: seq<Window>, all: seq<Entry>, first: seq<nat>, last: seq<nat>, e: Entry)
    requires Windows(ws, all, first, last) && forall i :: 0 <= i < |ws| ==> ws[i].run != e.run
    ensures Windows(ws + [Window(e.run, e.at, e.at, 1, e.final)], all + [e], first + [|all|], last + [|all|])
  {
    var xs := ws + [Window(e.run, e.at, e.at, 1, e.final)];
    forall j | 0 <= j < |ws| ensures WindowOf(xs[j], all + [e], first[j], last[j]) {
      GrowWindow(ws[j], all, first[j], last[j], e);
    }
    forall k | 0 <= k < |all| ensures all[k].run != e.run { assert Covered(ws, all[k].run); }
    NewWindow(all, e);
    assert xs[|ws|].run == e.run;
    Covers(ws, xs, all, e);
  }

  lemma Extended(ws: seq<Window>, all: seq<Entry>, e: Entry, i: nat)
    requires Summarises(ws, all) && i < |ws| && ws[i].run == e.run
    ensures Summarises(ws[i := Grown(ws[i], e)], all + [e])
  {
    var first, last :| Windows(ws, all, first, last);
    Extend(ws, all, first, last, e, i);
  }

  lemma Opened(ws: seq<Window>, all: seq<Entry>, e: Entry)
    requires Summarises(ws, all) && forall i :: 0 <= i < |ws| ==> ws[i].run != e.run
    ensures Summarises(ws + [Window(e.run, e.at, e.at, 1, e.final)], all + [e])
  {
    var first, last :| Windows(ws, all, first, last);
    Open(ws, all, first, last, e);
  }

  // One event: open its run's window, or extend it.
  method AddEvent(windows: seq<Window>, byRun: map<int, nat>, ghost all: seq<Entry>, e: Entry)
    returns (more: seq<Window>, index: map<int, nat>)
    requires Summarises(windows, all) && Indexes(byRun, windows)
    ensures Summarises(more, all + [e]) && Indexes(index, more)
  {
    if e.run !in byRun {
      Opened(windows, all, e);
      index := byRun[e.run := |windows|];
      more := windows + [Window(e.run, e.at, e.at, 1, e.final)];
    } else {
      var i := byRun[e.run];
      Extended(windows, all, e, i);
      index := byRun;
      more := windows[i := Grown(windows[i], e)];
    }
  }

  // The insertion-ordered Map is kept as the list of its values and the place of each key.
  method BuildWindows(all: seq<Entry>) returns (windows: seq<Window>)
    ensures Summarises(windows, all)
  {
    windows := [];
    var byRun: map<int, nat> := map[];
    assert Windows(windows, all[..0], [], []);
    for n := 0 to |all|
      invariant Summarises(windows, all[..n]) && Indexes(byRun, windows)
    {
      assert all[..n + 1] == all[..n] + [all[n]];
      windows, byRun := AddEvent(windows, byRun, all[..n], all[n]);
    }
    assert all[..|all|] == all;
  }

  predicate Indexes(byRun: map<int, nat>, ws: seq<Window>) {
    && (forall r :: r in byRun ==> byRun[r] < |ws| && ws[byRun[r]].run == r)
    && (forall i :: 0 <= i < |ws| ==> ws[i].run in byRun)
  }

  // The windows come out sorted by start, so the stable sort that follows moves nothing.
  lemma StartsAscend(ws: seq<Window>, all: seq<Entry>, i: nat, j: nat)
    requires Summarises(ws, all) && ByTime(all) && i <= j < |ws|
    ensures ws[i].start <= ws[j].start && ws[i].start <= ws[i].end
  {
    var first, last :| Windows(ws, all, first, last);
    assert WindowOf(ws[i], all, first[i], last[i]) && WindowOf(ws[j], all, first[j], last[j]);
  }

  // ---------- The overlap check ----------

  predicate Serial(ws: seq<Window>) {
    forall i, j :: 0 <= i < j < |ws| ==> ws[i].end <= ws[j].start
  }

  // Comparing neighbours decides the question for every pair.
  method Overlaps(windows: seq<Window>) returns (overlap: bool)
    requires forall i, j :: 0 <= i < j < |windows| ==> windows[i].start <= windows[j].start
    requires forall i :: 0 <= i < |windows| ==> windows[i].start <= windows[i].end
    ensures overlap <==> !Serial(windows)
  {
    overlap := false;
    var i := 1;
    while i < |windows|
      invariant 1 <= i
      invariant overlap ==> !Serial(windows)
      invariant !overlap ==> forall k :: 0 < k < i && k < |windows| ==> windows[k - 1].end <= windows[k].start
    {
      var prev, cur := windows[i - 1], windows[i];
      if cur.start < prev.end {
        overlap := true;
      }
      i := i + 1;
    }
    if !overlap {
      forall a, b | 0 <= a < b < |windows| ensures windows[a].end <= windows[b].start {
        assert windows[a].end <= windows[(a + 1) - 1].end <= windows[a + 1].start;
      }
    }
  }

  // ---------- The A,B,A check ----------

  method Resumes(all: seq<Entry>) returns (interleaved: bool)
    ensures interleaved <==> Interleaved(Runs(all))
  {
    interleaved := false;
    ghost var runs := Runs(all);
    var lastRun: Option<int> := None;
    var seenRuns: set<int> := {};
    var n := 0;
    while n < |all|
      invariant n <= |all| && !interleaved
      invariant lastRun == if n == 0 then None else Some(all[n - 1].run)
      invariant forall k :: 0 <= k < n ==> runs[k] in seenRuns || Some(runs[k]) == lastRun
      invariant forall r :: r in seenRuns ==> Some(r) != lastRun && exists k :: 0 <= k < n && runs[k] == r
      invariant forall p, q, u :: 0 <= p < q < u < n && runs[p] == runs[u] ==> runs[p] == runs[q]
    {
      var e := all[n];
      if Some(e.run) != lastRun {
        if e.run in seenRuns {
          interleaved := true;
          ghost var p :| 0 <= p < n && runs[p] == e.run;
          assert runs[p] == runs[n] != runs[n - 1];
          return;
        }
        if lastRun.Some? { seenRuns := seenRuns + {lastRun.value}; }
        lastRun := Some(e.run);
      } else {
        forall p, q | 0 <= p < q < n && runs[p] == runs[n] ensures runs[p] == runs[q] {
          if q < n - 1 { assert runs[p] == runs[n - 1]; }
        }
      }
      n := n + 1;
    }
  }

  // ---------- What the two checks say about the log ----------

  // Some run goes on at a later time than that at which another run began.
  predicate ResumesLater(all: seq<Entry>) {
    exists p, q, u :: 0 <= p < q < u < |all| && GoesOn(all, p, q, u)
  }

  predicate GoesOn(all: seq<Entry>, p: nat, q: nat, u: nat)
    requires p < q < u < |all|
  {
    && all[p].run == all[u].run != all[q].run && all[q].at < all[u].at
    && forall k :: 0 <= k < q ==> all[k].run != all[q].run
  }

  /** The exact meaning of the overlap check: two windows overlap if and only if some run has events
      on both sides of the first event of another, the later one at a strictly later time. */
  lemma OverlapIffResumesLater(ws: seq<Window>, all: seq<Entry>)
    requires Summarises(ws, all) && ByTime(all)
    ensures !Serial(ws) <==> ResumesLater(all)
  {
    if i, j :| 0 <= i < j < |ws| && ws[j].start < ws[i].end {
      PairGoesOn(ws, all, i, j);
    }
    if p, q, u :| 0 <= p < q < u < |all| && GoesOn(all, p, q, u) {
      PairOverlaps(ws, all, p, q, u);
    }
  }

  lemma PairGoesOn(ws: seq<Window>, all: seq<Entry>, i: nat, j: nat)
    requires Summarises(ws, all) && ByTime(all) && i < j < |ws| && ws[j].start < ws[i].end
    ensures ResumesLater(all)
  {
    var first, last :| Windows(ws, all, first, last);
    OverlapGoesOn(ws[i], ws[j], all, first[i], last[i], first[j], last[j]);
  }

  lemma PairOverlaps(ws: seq<Window>, all: seq<Entry>, p: nat, q: nat, u: nat)
    requires Summarises(ws, all) && ByTime(all) && p < q < u < |all| && GoesOn(all, p, q, u)
    ensures !Serial(ws)
  {
    var first, last :| Windows(ws, all, first, last);
    var i := WindowAt(ws, all, first, last, p);
    var j := WindowAt(ws, all, first, last, q);
    GoesOnOverlaps(ws[i], ws[j], all, first[i], last[i], first[j], last[j], p, q, u);
    assert i < j;
  }

  lemma OverlapGoesOn(a: Window, b: Window, all: seq<Entry>, fa: nat, la: nat, fb: nat, lb: nat)
    requires ByTime(all) && WindowOf(a, all, fa, la) && WindowOf(b, all, fb, lb)
    requires fa < fb && b.start < a.end
    ensures ResumesLater(all)
  {
    assert all[fb].at < all[la].at && a.run != b.run;
    assert GoesOn(all, fa, fb, la);
  }

  lemma GoesOnOverlaps(a: Window, b: Window, all: seq<Entry>, fa: nat, la: nat, fb: nat, lb: nat, p: nat, q: nat, u: nat)
    requires ByTime(all) && WindowOf(a, all, fa, la) && WindowOf(b, all, fb, lb)
    requires p < q < u < |all| && GoesOn(all, p, q, u) && all[p].run == a.run && all[q].run == b.run
    ensures fa < fb && b.start < a.end
  {
    assert fa <= p && u <= la && fb == q;
  }

  // Overlapping windows always mean a resumed run.
  lemma OverlapResumes(ws: seq<Window>, all: seq<Entry>)
    requires Summarises(ws, all) && ByTime(all) && !Serial(ws)
    ensures Interleaved(Runs(all))
  {
    var first, last :| Windows(ws, all, first, last);
    var i, j :| 0 <= i < j < |ws| && ws[j].start < ws[i].end;
    Overhangs(ws[i], ws[j], all, first[i], last[i], first[j], last[j]);
  }

  lemma Overhangs(a: Window, b: Window, all: seq<Entry>, fa: nat, la: nat, fb: nat, lb: nat)
    requires ByTime(all) && WindowOf(a, all, fa, la) && WindowOf(b, all, fb, lb)
    requires fa < fb && b.start < a.end
    ensures Interleaved(Runs(all))
  {
    assert all[fb].at < all[la].at;
    assert Runs(all)[fa] == Runs(all)[la] != Runs(all)[fb];
  }

  // When no two events share a timestamp, a resumed run shows as overlapping windows.
  lemma ResumedRunOverlaps(ws: seq<Window>, all: seq<Entry>)
    requires Summarises(ws, all) && ByTime(all) && DistinctTimes(all) && Interleaved(Runs(all))
    ensures !Serial(ws)
  {
    var first, last :| Windows(ws, all, first, last);
    var runs := Runs(all);
    var p, q, u :| 0 <= p < q < u < |runs| && runs[p] == runs[u] != runs[q];
    var i := WindowAt(ws, all, first, last, p);
    var j := WindowAt(ws, all, first, last, q);
    Straddles(ws[i], ws[j], all, first[i], last[i], first[j], last[j], p, q, u);
    NotSerial(ws, i, j);
  }

  lemma WindowAt(ws: seq<Window>, all: seq<Entry>, first: seq<nat>, last: seq<nat>, k: nat) returns (i: nat)
    requires Windows(ws, all, first, last) && k < |all|
    ensures i < |ws| && ws[i].run == all[k].run && WindowOf(ws[i], all, first[i], last[i])
  {
    assert Covered(ws, all[k].run);
    i :| 0 <= i < |ws| && ws[i].run == all[k].run;
  }

  lemma NotSerial(ws: seq<Window>, i: nat, j: nat)
    requires i < |ws| && j < |ws| && i != j && ws[i].start < ws[j].end && ws[j].start < ws[i].end
    ensures !Serial(ws)
  {
    if i < j { assert ws[j].start < ws[i].end; } else { assert ws[i].start < ws[j].end; }
  }

  lemma Straddles(a: Window, b: Window, all: seq<Entry>, fa: nat, la: nat, fb: nat, lb: nat, p: nat, q: nat, u: nat)
    requires ByTime(all) && DistinctTimes(all)
    requires WindowOf(a, all, fa, la) && WindowOf(b, all, fb, lb)
    requires p < q < u < |all| && all[p].run == all[u].run == a.run && all[q].run == b.run
    ensures a.start < b.end && b.start < a.end
  {
    assert fa <= p < u <= la && fb <= q <= lb;
    assert all[p].at < all[q].at < all[u].at;
  }

  // With a tie the windows can look serial although a run resumed.
  lemma TiesHideResumption(t: int, a: int, b: int) returns (all: seq<Entry>)
    requires a != b
    ensures ByTime(all) && Interleaved(Runs(all))
    ensures forall ws :: Summarises(ws, all) ==> Serial(ws)
  {
    all := [Entry(a, t, false), Entry(b, t, false), Entry(a, t, false)];
    assert Runs(all)[0] == Runs(all)[2] != Runs(all)[1];
    forall ws: seq<Window> | Summarises(ws, all) ensures Serial(ws) {
      var first, last :| Windows(ws, all, first, last);
      forall i, j | 0 <= i < j < |ws| ensures ws[i].end <= ws[j].start {
        assert WindowOf(ws[i], all, first[i], last[i]) && WindowOf(ws[j], all, first[j], last[j]);
      }
    }
  }

  // The exit code: the A,B,A check alone decides it.
  method Verdict(all: seq<Entry>) returns (exitCode: int, overlap: bool)
    requires ByTime(all)
    ensures exitCode == if all == [] || Interleaved(Runs(all)) then 1 else 0
    ensures overlap <==> ResumesLater(all)
  {
    if |all| == 0 { return 1, false; }
    var windows := BuildWindows(all);
    forall i, j | 0 <= i <= j < |windows|
      ensures windows[i].start <= windows[j].start && windows[i].start <= windows[i].end
    {
      StartsAscend(windows, all, i, j);
    }
    overlap := Overlaps(windows);
    var interleaved := Resumes(all);
    OverlapIffResumesLater(windows, all);
    if overlap { OverlapResumes(windows, all); }
    exitCode := if overlap || interleaved then 1 else 0;
  }
}
