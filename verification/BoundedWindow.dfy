/**
  The two bounded windows over independent operations: creations, whose window
  refills before each wait, and drops pipelined over one connection. Operations
  finish in any order.
 */
module BoundedWindow {

  const CLEANUP_PIPELINE_DEPTH: nat := 32

  /** One callback: which operation finished, and how. */
  datatype Report<T> = Report(index: nat, result: T)

  /** What happens to operations, in order. */
  datatype Mark<T> = Launched(index: nat) | Done(report: Report<T>)

  // ------------------------------------------------------------ properties

  ghost predicate Finished<T>(reports: seq<Report<T>>, index: nat) {
    exists k | 0 <= k < |reports| :: reports[k].index == index
  }

  /** Exactly the operations below `amount`, each reported once with its own result. */
  ghost predicate ReportsEach<T>(reports: seq<Report<T>>, amount: nat, result: nat -> T) {
    && |reports| == amount
    && (forall k | 0 <= k < |reports| :: reports[k].index < amount && reports[k].result == result(reports[k].index))
    && (forall j, k | 0 <= j < k < |reports| :: reports[j].index != reports[k].index)
    && (forall index: nat | index < amount :: Finished(reports, index))
  }

  /** When the k-th operation finishes, at most `window` were still unreported:
      nothing further ahead has been started. */
  ghost predicate WithinWindow<T>(reports: seq<Report<T>>, window: nat) {
    forall k | 0 <= k < |reports| :: reports[k].index < k + window
  }

  /** The operations started and not reported yet. */
  function InFlight<T>(trace: seq<Mark<T>>): set<nat> {
    if trace == [] then {} else
      var before := InFlight(trace[..|trace| - 1]);
      match trace[|trace| - 1]
      case Launched(index) => before + {index}
      case Done(report) => before - {report.index}
  }

  /** The reports, in order. */
  function Reports<T>(trace: seq<Mark<T>>): seq<Report<T>> {
    if trace == [] then [] else
      Reports(trace[..|trace| - 1])
      + match trace[|trace| - 1] { case Launched(_) => [] case Done(report) => [report] }
  }

  /** Never more than `window` operations are in flight, what is launched is not, and
      only what is in flight is reported. */
  predicate Bounded<T>(trace: seq<Mark<T>>, window: nat) {
    trace != [] ==>
      var before := trace[..|trace| - 1];
      && Bounded(before, window) && |InFlight(trace)| <= window
      && match trace[|trace| - 1]
         case Launched(index) => index !in InFlight(before)
         case Done(report) => report.index in InFlight(before)
  }

  /** The bound holds at every moment of the trace. */
  lemma {:induction false} BoundedAlways<T>(trace: seq<Mark<T>>, window: nat, k: nat)
    requires Bounded(trace, window) && k <= |trace|
    ensures |InFlight(trace[..k])| <= window
  {
    if k == |trace| {
      assert trace[..k] == trace;
    } else {
      assert trace[..|trace| - 1][..k] == trace[..k];
      BoundedAlways(trace[..|trace| - 1], window, k);
    }
  }

  // -------------------------------------------------------- the window moves

  /** A window part way through; operations below `started` have been started. */
  datatype Window<T> = Window(trace: seq<Mark<T>>, reports: seq<Report<T>>, inFlight: set<nat>, started: nat) {

    function Launch(): Window<T> {
      Window(trace + [Launched(started)], reports, inFlight + {started}, started + 1)
    }

    function Finish(index: nat, result: T): Window<T> {
      Window(trace + [Done(Report(index, result))], reports + [Report(index, result)], inFlight - {index}, started)
    }

    /** The fields describe the trace, and the trace stays within `size`. */
    ghost predicate Traced(size: nat) {
      Bounded(trace, size) && InFlight(trace) == inFlight && Reports(trace) == reports && |inFlight| <= size
    }

    /** The operations in flight are those not reported yet. */
    ghost predicate Midway(result: nat -> T) {
      && (forall k | 0 <= k < |reports| ::
            && reports[k].index < started && reports[k].index !in inFlight
            && reports[k].result == result(reports[k].index))
      && (forall j, k | 0 <= j < k < |reports| :: reports[j].index != reports[k].index)
      && (forall index | index in inFlight :: 0 <= index < started)
      && (forall index: nat | index < started :: index in inFlight || Finished(reports, index))
      && started == |reports| + |inFlight|
    }

    ghost predicate Running(size: nat, result: nat -> T) {
      Traced(size) && Midway(result) && WithinWindow(reports, size)
    }
  }

  lemma TraceMore<T>(trace: seq<Mark<T>>, mark: Mark<T>)
    ensures InFlight(trace + [mark])
         == if mark.Launched? then InFlight(trace) + {mark.index} else InFlight(trace) - {mark.report.index}
    ensures Reports(trace + [mark]) == Reports(trace) + if mark.Launched? then [] else [mark.report]
  {
    assert (trace + [mark])[..|trace|] == trace;
  }

  lemma BoundedMore<T>(trace: seq<Mark<T>>, mark: Mark<T>, window: nat)
    requires Bounded(trace, window) && |InFlight(trace + [mark])| <= window
    requires if mark.Launched? then mark.index !in InFlight(trace) else mark.report.index in InFlight(trace)
    ensures Bounded(trace + [mark], window)
  {
    assert (trace + [mark])[..|trace|] == trace;
  }

  lemma LaunchMidway<T>(w: Window<T>, result: nat -> T)
    requires w.Midway(result)
    ensures w.Launch().Midway(result) && w.started !in w.inFlight
  {
  }

  lemma FinishMidway<T>(w: Window<T>, result: nat -> T, index: nat)
    requires w.Midway(result) && index in w.inFlight
    ensures w.Finish(index, result(index)).Midway(result)
  {
    var more := w.reports + [Report(index, result(index))];
    assert more[|w.reports|].index == index;
    forall i: nat | i < w.started ensures i in w.inFlight - {index} || Finished(more, i) {
      if i != index && i !in w.inFlight {
        var k :| 0 <= k < |w.reports| && w.reports[k].index == i;
        assert more[k].index == i;
      }
    }
  }

  lemma LaunchKeeps<T>(w: Window<T>, size: nat, result: nat -> T)
    requires w.Running(size, result) && |w.inFlight| < size
    ensures w.Launch().Running(size, result)
  {
    LaunchMidway(w, result);
    TraceMore(w.trace, Launched(w.started));
    BoundedMore(w.trace, Launched(w.started), size);
  }

  lemma FinishKeeps<T>(w: Window<T>, size: nat, result: nat -> T, index: nat)
    requires w.Running(size, result) && index in w.inFlight
    ensures w.Finish(index, result(index)).Running(size, result)
  {
    var mark := Done(Report(index, result(index)));
    FinishMidway(w, result, index);
    TraceMore(w.trace, mark);
    BoundedMore(w.trace, mark, size);
  }

  lemma AllReported<T>(w: Window<T>, size: nat, result: nat -> T)
    requires w.Running(size, result) && w.inFlight == {}
    ensures ReportsEach(w.reports, w.started, result)
  {
  }

  // ------------------------------------------------------------ the windows

  function Min(a: nat, b: nat): nat {
    if a < b then a else b
  }

  function Max(a: nat, b: nat): nat {
    if a < b then b else a
  }

  /** Launch what the window still has room for. */
  method Fill<T>(w: Window<T>, amount: nat, window: nat, result: nat -> T) returns (full: Window<T>)
    requires w.started <= amount && w.Running(window, result)
    ensures full.started <= amount && full.Running(window, result) && full.reports == w.reports
    ensures full.started == amount || |full.inFlight| == window
  {
    full := w;
    while full.started < amount && |full.inFlight| < window
      invariant full.started <= amount && full.Running(window, result) && full.reports == w.reports
    {
      LaunchKeeps(full, window, result);
      full := full.Launch();
    }
  }

  /** Creations: keep up to `limit` in flight and report each as it finishes. */
  method RunBounded<T>(amount: nat, limit: nat, result: nat -> T)
    returns (reports: seq<Report<T>>, trace: seq<Mark<T>>)
    requires limit > 0
    ensures ReportsEach(reports, amount, result) && reports == Reports(trace) && InFlight(trace) == {}
    ensures var window := Max(1, Min(limit, amount)); Bounded(trace, window) && WithinWindow(reports, window)
  {
    var window := Max(1, Min(limit, amount));
    var w := Window([], [], {}, 0);
    while true
      invariant w.started <= amount && w.Running(window, result)
      decreases amount - |w.reports|
    {
      w := Fill(w, amount, window, result);
      if w.inFlight == {} {
        break;
      }
      var index :| index in w.inFlight;
      FinishKeeps(w, window, result, index);
      w := w.Finish(index, result(index));
    }
    AllReported(w, window, result);
    return w.reports, w.trace;
  }

  /** Drops: fill the pipeline once, then start one for each that finishes. Without a
      connection nothing is submitted. */
  method DropDatabases<T>(amount: nat, connected: bool, result: nat -> T)
    returns (ok: bool, reports: seq<Report<T>>, trace: seq<Mark<T>>)
    ensures ok <==> connected || amount == 0
    ensures ok ==> ReportsEach(reports, amount, result)
    ensures !ok ==> trace == []
    ensures reports == Reports(trace) && InFlight(trace) == {}
    ensures Bounded(trace, CLEANUP_PIPELINE_DEPTH) && WithinWindow(reports, CLEANUP_PIPELINE_DEPTH)
  {
    if amount == 0 {
      return true, [], [];
    }
    if !connected {
      return false, [], [];
    }
    var w := Window([], [], {}, 0);
    while w.started < amount && w.started < CLEANUP_PIPELINE_DEPTH
      invariant w.started <= amount && |w.inFlight| == w.started <= CLEANUP_PIPELINE_DEPTH
      invariant w.Running(CLEANUP_PIPELINE_DEPTH, result)
    {
      LaunchKeeps(w, CLEANUP_PIPELINE_DEPTH, result);
      w := w.Launch();
    }
    while w.inFlight != {}
      invariant w.started <= amount && w.Running(CLEANUP_PIPELINE_DEPTH, result)
      invariant w.started < amount ==> |w.inFlight| == CLEANUP_PIPELINE_DEPTH
      decreases amount - |w.reports|
    {
      var index :| index in w.inFlight;
      FinishKeeps(w, CLEANUP_PIPELINE_DEPTH, result, index);
      w := w.Finish(index, result(index));
      if w.started < amount {
        LaunchKeeps(w, CLEANUP_PIPELINE_DEPTH, result);
        w := w.Launch();
      }
    }
    AllReported(w, CLEANUP_PIPELINE_DEPTH, result);
    return true, w.reports, w.trace;
  }
}
