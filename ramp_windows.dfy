/**
 * The usage windows handed to RAMP for one appliance on one day: the scan of
 * the old input format's 24 hourly preference flags, and the jittered windows
 * of the new format's start and end hours.
 */
module RampWindows {
  import opened Wrappers

  /** A usage window in minutes of the day, [start, end]. */
  datatype Window = Window(start: int, end: int)

  /** Why a window could not be built. */
  datatype WindowError =
    | TooManyWindows // UserWarning: a fourth window was emitted
    | EmptyRange     // ValueError: random.randint with an empty range

  /** The three window slots of an appliance. */
  datatype Windows = Windows(window1: Option<Window>, window2: Option<Window>, window3: Option<Window>)

  // ---------------------------------------------------------------------
  // Runs of preferred hours
  // ---------------------------------------------------------------------

  /** A run of preferred hours starting at `start`, closed by hour `end` (the first hour after it). */
  datatype Run = Run(start: nat, end: nat)

  /** The start of the run of preferred hours q ends with, if it ends with one. */
  function OpenRun(q: seq<bool>): (r: Option<nat>)
    ensures r.None? <==> |q| == 0 || !q[|q| - 1]
    ensures r.Some? ==> r.value < |q| && forall h :: r.value <= h < |q| ==> q[h]
    ensures r.Some? ==> r.value == 0 || !q[r.value - 1]
  {
    if |q| == 0 || !q[|q| - 1] then None
    else
      var before := OpenRun(q[..|q| - 1]);
      if before.Some? then before else Some(|q| - 1)
  }

  /** The runs of preferred hours of q that a non-preferred hour of q closes, in order. */
  function ClosedRuns(q: seq<bool>): seq<Run>
  {
    if |q| == 0 then []
    else
      var init := q[..|q| - 1];
      var open := OpenRun(init);
      if !q[|q| - 1] && open.Some? then ClosedRuns(init) + [Run(open.value, |q| - 1)]
      else ClosedRuns(init)
  }

  /** r is a maximal run of preferred hours of q, closed by the non-preferred hour r.end. */
  predicate ClosedRunIn(q: seq<bool>, r: Run)
  {
    r.start < r.end < |q|
    && (forall h :: r.start <= h < r.end ==> q[h])
    && !q[r.end]
    && (r.start == 0 || !q[r.start - 1])
  }

  /** Runs that follow each other: each one ends before the next one starts. */
  predicate Ordered(runs: seq<Run>)
  {
    forall k :: 0 <= k < |runs| - 1 ==> runs[k].end < runs[k + 1].start
  }

  /**
   * The closed runs are exactly the maximal runs of preferred hours, in
   * increasing order, and an open run starts after the last of them.
   */
  lemma {:induction false} ClosedRunsAreRuns(q: seq<bool>)
    ensures forall k :: 0 <= k < |ClosedRuns(q)| ==> ClosedRunIn(q, ClosedRuns(q)[k])
    ensures forall run :: ClosedRunIn(q, run) ==> run in ClosedRuns(q)
    ensures Ordered(ClosedRuns(q))
    ensures OpenRun(q).Some? && |ClosedRuns(q)| > 0 ==> ClosedRuns(q)[|ClosedRuns(q)| - 1].end < OpenRun(q).value
  {
    if |q| > 0 {
      var init := q[..|q| - 1];
      ClosedRunsAreRuns(init);
      var cr := ClosedRuns(init);
      forall k | 0 <= k < |cr| ensures ClosedRunIn(q, cr[k]) {
        assert ClosedRunIn(init, cr[k]);
        assert forall h :: 0 <= h < |init| ==> q[h] == init[h];
      }
      var open := OpenRun(init);
      if !q[|q| - 1] && open.Some? {
        assert forall h :: 0 <= h < |init| ==> q[h] == init[h];
        assert ClosedRunIn(q, Run(open.value, |q| - 1));
      } else if q[|q| - 1] && open.None? && |cr| > 0 {
        assert cr[|cr| - 1].end < |init|;
      }
    }
    ClosedRunsComplete(q);
  }

  /** Every maximal run of preferred hours closed by a non-preferred hour is among the closed runs. */
  lemma {:induction false} ClosedRunsComplete(q: seq<bool>)
    ensures forall run :: ClosedRunIn(q, run) ==> run in ClosedRuns(q)
  {
    if |q| > 0 {
      var init := q[..|q| - 1];
      ClosedRunsComplete(init);
      var open := OpenRun(init);
      forall run | ClosedRunIn(q, run) ensures run in ClosedRuns(q) {
        if run.end == |q| - 1 {
          assert init[run.end - 1];
          SameRunStart(init, run.start, open.value);
        } else {
          assert ClosedRunIn(init, run);
        }
      }
    }
  }

  /** Two starts of the run of preferred hours that ends q are the same hour. */
  lemma SameRunStart(q: seq<bool>, s1: nat, s2: nat)
    requires s1 < |q| && forall h :: s1 <= h < |q| ==> q[h]
    requires s1 == 0 || !q[s1 - 1]
    requires s2 < |q| && forall h :: s2 <= h < |q| ==> q[h]
    requires s2 == 0 || !q[s2 - 1]
    ensures s1 == s2
  {
  }

  // ---------------------------------------------------------------------
  // The old format: a scan of hourly preferences
  // ---------------------------------------------------------------------

  /**
   * The runs the scan turns into windows: none at all when hour 0 is
   * preferred (a start at hour 0 reads as "no start" and is never reset);
   * otherwise every closed run, and a run still open at the end of a full
   * day unless it only starts at hour 23.
   */
  function EmittedRuns(p: seq<bool>): seq<Run>
  {
    if |p| > 0 && p[0] then []
    else
      ClosedRuns(p)
      + (if |p| == 24 && OpenRun(p).Some? && OpenRun(p).value < 23 then [Run(OpenRun(p).value, 23)] else [])
  }

  /** A run as a window in minutes: from its first hour to the end of the hour that closes it. */
  function ToWindow(r: Run): Window
  {
    Window(r.start * 60, (r.end + 1) * 60)
  }

  function Slot(runs: seq<Run>, k: nat): Option<Window>
  {
    if k < |runs| then Some(ToWindow(runs[k])) else None
  }

  /** The first 24 entries of a preference column (`iloc[0:24]`). */
  function FirstDay(col: seq<bool>): (p: seq<bool>)
    ensures |p| <= 24
  {
    if |col| <= 24 then col else col[..24]
  }

  /** The windows of the old format: the emitted runs in order, an error when there are more than three. */
  function PreferredWindows(col: seq<bool>): Result<Windows, WindowError>
  {
    var runs := EmittedRuns(FirstDay(col));
    if |runs| > 3 then Failure(TooManyWindows)
    else Success(Windows(Slot(runs, 0), Slot(runs, 1), Slot(runs, 2)))
  }

  /** The emitted runs are maximal runs of preferred hours in order (the last may be closed by the end of the day). */
  lemma EmittedRunsOrdered(p: seq<bool>)
    requires |p| <= 24
    ensures Ordered(EmittedRuns(p))
    ensures forall k :: 0 <= k < |EmittedRuns(p)| ==>
      1 <= EmittedRuns(p)[k].start < EmittedRuns(p)[k].end <= 23 && EmittedRuns(p)[k].end < |p|
      && forall h :: EmittedRuns(p)[k].start <= h < EmittedRuns(p)[k].end ==> p[h]
  {
    ClosedRunsAreRuns(p);
    var cr := ClosedRuns(p);
    if !(|p| > 0 && p[0]) {
      forall k | 0 <= k < |cr| ensures 1 <= cr[k].start {
        assert ClosedRunIn(p, cr[k]);
      }
    }
  }

  /**
   * Windows follow each other: each window starts after its hour's
   * predecessor window ends, and every window lies within the day.
   */
  lemma PreferredWindowsOrdered(col: seq<bool>)
    requires PreferredWindows(col).Success?
    ensures var w := PreferredWindows(col).value;
      (w.window2.Some? ==> w.window1.Some? && w.window1.value.end <= w.window2.value.start)
      && (w.window3.Some? ==> w.window2.Some? && w.window2.value.end <= w.window3.value.start)
    ensures var w := PreferredWindows(col).value;
      forall x :: x in [w.window1, w.window2, w.window3] && x.Some? ==> 60 <= x.value.start < x.value.end <= 1440
  {
    var p := FirstDay(col);
    EmittedRunsOrdered(p);
  }

  /** A preferred hour 0 suppresses every window of the day. */
  lemma MidnightStartSuppressesAll(col: seq<bool>)
    requires |col| > 0 && col[0]
    ensures PreferredWindows(col) == Success(Windows(None, None, None))
  {
    assert FirstDay(col)[0] == col[0];
  }

  /** A run that only starts at hour 23 is not emitted. */
  lemma LastHourRunNotEmitted(col: seq<bool>)
    requires |col| >= 24 && col[23] && !col[22]
    ensures forall k :: 0 <= k < |EmittedRuns(FirstDay(col))| ==> EmittedRuns(FirstDay(col))[k].start != 23
  {
    var p := FirstDay(col);
    EmittedRunsOrdered(p);
  }

  /** The facts one more hour adds to the runs of a prefix. */
  lemma ScanStep(p: seq<bool>, h: nat)
    requires h < |p|
    ensures OpenRun(p[..h + 1]) ==
      if !p[h] then None else if OpenRun(p[..h]).Some? then OpenRun(p[..h]) else Some(h)
    ensures ClosedRuns(p[..h + 1]) ==
      if !p[h] && OpenRun(p[..h]).Some? then ClosedRuns(p[..h]) + [Run(OpenRun(p[..h]).value, h)]
      else ClosedRuns(p[..h])
  {
    assert p[..h + 1][..h] == p[..h];
  }

  /** The closed runs of a prefix begin the closed runs of the whole. */
  lemma {:induction false} ClosedRunsPrefix(p: seq<bool>, h: nat)
    requires h <= |p|
    ensures ClosedRuns(p[..h]) <= ClosedRuns(p)
    decreases |p| - h
  {
    if h < |p| {
      ScanStep(p, h);
      ClosedRunsPrefix(p, h + 1);
    } else {
      assert p[..h] == p;
    }
  }

  /** The runs emitted once h hours have been scanned. */
  function EmittedSoFar(p: seq<bool>, h: nat): seq<Run>
    requires h <= |p| <= 24
  {
    var q := p[..h];
    ClosedRuns(q) + (if h == 24 && OpenRun(q).Some? && OpenRun(q).value < 23 then [Run(OpenRun(q).value, 23)] else [])
  }

  /** The start of the run still open once h hours have been scanned. */
  function OpenSoFar(p: seq<bool>, h: nat): Option<nat>
    requires h <= |p| <= 24
  {
    var q := p[..h];
    if h == 24 && OpenRun(q).Some? && OpenRun(q).value < 23 then None else OpenRun(q)
  }

  lemma EmittedSoFarPrefix(p: seq<bool>, h: nat)
    requires h <= |p| <= 24
    requires !(|p| > 0 && p[0])
    ensures EmittedSoFar(p, h) <= EmittedRuns(p)
  {
    ClosedRunsPrefix(p, h);
    if h == |p| {
      assert p[..h] == p;
    }
  }

  /** What scanning hour h adds to the emitted runs and the open run, when hour 0 is not preferred. */
  lemma ScanHour(p: seq<bool>, h: nat)
    requires h < |p| <= 24
    requires !p[0]
    ensures var o := OpenSoFar(p, h);
      var o' := if o.Some? then o.value else h;
      && (!p[h] && o.Some? ==>
            EmittedSoFar(p, h + 1) == EmittedSoFar(p, h) + [Run(o.value, h)] && OpenSoFar(p, h + 1).None?)
      && (!p[h] && o.None? ==> EmittedSoFar(p, h + 1) == EmittedSoFar(p, h) && OpenSoFar(p, h + 1).None?)
      && (p[h] && h == 23 && o' < 23 ==>
            EmittedSoFar(p, h + 1) == EmittedSoFar(p, h) + [Run(o', 23)] && OpenSoFar(p, h + 1).None?)
      && (p[h] && !(h == 23 && o' < 23) ==>
            EmittedSoFar(p, h + 1) == EmittedSoFar(p, h) && OpenSoFar(p, h + 1) == Some(o'))
  {
    ScanStep(p, h);
  }

  /** The scan's state after h hours, in terms of the runs seen so far. */
  predicate ScanState(p: seq<bool>, h: nat, start: Option<nat>, end: Option<nat>, counter: nat, w: Windows)
    requires h <= |p| <= 24
  {
    if h > 0 && p[0] then
      start == Some(0) && counter == 1 && w == Windows(None, None, None)
    else
      var done := EmittedSoFar(p, h);
      start == OpenSoFar(p, h) && end.None? && |done| <= 3
      && counter == |done| + (if start.Some? then 1 else 0)
      && w == Windows(Slot(done, 0), Slot(done, 1), Slot(done, 2))
  }

  /**
   * The scan of add_use_case_old, hour by hour: a preferred hour without a
   * start opens a window and counts it, a non-preferred hour with a start
   * sets the end to the next hour, hour 23 ends any window with a non-zero
   * start; a window with a (non-zero) start and an end fills the slot its
   * count names, and a fourth one raises.
   */
  method ScanPreferredWindows(col: seq<bool>) returns (r: Result<Windows, WindowError>)
    ensures r == PreferredWindows(col)
  {
    var p := FirstDay(col);
    var start: Option<nat> := None;
    var end: Option<nat> := None;
    var counter: nat := 0;
    var w := Windows(None, None, None);
    var hour := 0;
    while hour < |p|
      invariant 0 <= hour <= |p|
      invariant ScanState(p, hour, start, end, counter, w)
    {
      var pref := p[hour];
      ScanStep(p, hour);
      if !p[0] {
        ScanHour(p, hour);
      }
      if hour == 23 && start.Some? && start.value != 0 {
        end := Some(24);
      }
      if pref && start.None? {
        start := Some(hour);
        counter := counter + 1;
      } else if !pref && start.Some? {
        end := Some(hour + 1);
      }
      if start.Some? && start.value != 0 && end.Some? && end.value != 0 {
        var window := Window(start.value * 60, end.value * 60);
        if counter == 1 {
          w := w.(window1 := Some(window));
        } else if counter == 2 {
          w := w.(window2 := Some(window));
        } else if counter == 3 {
          w := w.(window3 := Some(window));
        } else if counter > 3 {
          EmittedSoFarPrefix(p, hour + 1);
          return Failure(TooManyWindows);
        }
        start := None;
        end := None;
      }
      hour := hour + 1;
    }
    assert p[..hour] == p;
    if |p| > 0 && p[0] {
      return Success(Windows(None, None, None));
    }
    return Success(w);
  }

  // ---------------------------------------------------------------------
  // The new format: jittered windows
  // ---------------------------------------------------------------------

  /** `random.randint(lo, hi)`: some integer in [lo, hi]; an empty range is a ValueError. */
  method RandInt(lo: int, hi: int) returns (r: Result<int, WindowError>)
    ensures r.Failure? <==> lo > hi
    ensures r.Failure? ==> r.error == EmptyRange
    ensures r.Success? ==> lo <= r.value <= hi
  {
    if lo > hi {
      return Failure(EmptyRange);
    }
    var x :| lo <= x <= hi;
    return Success(x);
  }

  /** A window of the new format, in hours: no start (NaN) means no window. */
  datatype WindowSpec = WindowSpec(start: Option<int>, end: int, startVar: int, endVar: int)

  /** x lies within `var` of `centre`. */
  predicate Within(x: int, centre: int, var_: int)
  {
    centre - var_ <= x <= centre + var_
  }

  /** The drawn windows and how many there are. */
  datatype Drawn = Drawn(windows: Windows, count: nat)

  /** A draw fails when a given window has a negative start variability, or (windows 2 and 3) a negative end variability. */
  predicate DrawFails(w1: WindowSpec, w2: WindowSpec, w3: WindowSpec)
  {
    (w1.start.Some? && w1.startVar < 0)
    || (w2.start.Some? && (w2.startVar < 0 || w2.endVar < 0))
    || (w3.start.Some? && (w3.startVar < 0 || w3.endVar < 0))
  }

  /** A window drawn for a spec: the start within its variability, the end within its own (exactly end - variability for window 1). */
  predicate DrawnFor(x: Option<Window>, w: WindowSpec, exactEnd: bool)
  {
    (x.Some? <==> w.start.Some?)
    && (x.Some? ==>
          Within(x.value.start, w.start.value * 60, w.startVar * 60)
          && (if exactEnd then x.value.end == w.end * 60 - w.endVar * 60
              else Within(x.value.end, w.end * 60, w.endVar * 60)))
  }

  /** Every window is drawn for its spec and the count is the number of windows set. */
  predicate ValidDraw(w1: WindowSpec, w2: WindowSpec, w3: WindowSpec, d: Drawn)
  {
    DrawnFor(d.windows.window1, w1, true)
    && DrawnFor(d.windows.window2, w2, false)
    && DrawnFor(d.windows.window3, w3, false)
    && d.count == (if w1.start.Some? then 1 else 0) + (if w2.start.Some? then 1 else 0) + (if w3.start.Some? then 1 else 0)
  }

  /**
   * The windows of add_use_case: each window whose start is given gets a
   * start drawn within its start variability and an end drawn within its end
   * variability, except that window 1's end is drawn from the single value
   * end - variability. Windows are counted as they are set.
   */
  method DrawWindows(w1: WindowSpec, w2: WindowSpec, w3: WindowSpec) returns (r: Result<Drawn, WindowError>)
    ensures r.Failure? <==> DrawFails(w1, w2, w3)
    ensures r.Failure? ==> r.error == EmptyRange
    ensures r.Success? ==> ValidDraw(w1, w2, w3, r.value)
  {
    var windows := Windows(None, None, None);
    var count: nat := 0;
    if w1.start.Some? {
      var s := RandInt(w1.start.value * 60 - w1.startVar * 60, w1.start.value * 60 + w1.startVar * 60);
      if s.Failure? {
        return Failure(s.error);
      }
      var e := RandInt(w1.end * 60 - w1.endVar * 60, w1.end * 60 - w1.endVar * 60);
      windows := windows.(window1 := Some(Window(s.value, e.value)));
      count := count + 1;
    }
    if w2.start.Some? {
      var s := RandInt(w2.start.value * 60 - w2.startVar * 60, w2.start.value * 60 + w2.startVar * 60);
      if s.Failure? {
        return Failure(s.error);
      }
      var e := RandInt(w2.end * 60 - w2.endVar * 60, w2.end * 60 + w2.endVar * 60);
      if e.Failure? {
        return Failure(e.error);
      }
      windows := windows.(window2 := Some(Window(s.value, e.value)));
      count := count + 1;
    }
    if w3.start.Some? {
      var s := RandInt(w3.start.value * 60 - w3.startVar * 60, w3.start.value * 60 + w3.startVar * 60);
      if s.Failure? {
        return Failure(s.error);
      }
      var e := RandInt(w3.end * 60 - w3.endVar * 60, w3.end * 60 + w3.endVar * 60);
      if e.Failure? {
        return Failure(e.error);
      }
      windows := windows.(window3 := Some(Window(s.value, e.value)));
      count := count + 1;
    }
    return Success(Drawn(windows, count));
  }
}
