/** The decision layer of PlateSolver.cpp with the engine reduced to what the
    wrapper observes of it: how the `ready` handler turns those observations
    into a Result, and the life of one job as a state machine whose steps record
    every call of the job's handler. */
module JobLifecycle {
  import opened PlateSolverApi

  /** A sky position as the engine reports it, in degrees. */
  datatype WcsPoint = WcsPoint(ra: real, dec: real)

  /** The engine's solution record (the fields the wrapper copies). */
  datatype Solution = Solution(fieldWidth: real, fieldHeight: real, pixscale: real, orientation: real)

  /** What the engine reports when it signals `ready`: whether it failed,
      whether solving is done, its pixel-to-sky conversion (absent where the
      conversion fails) and its solution. */
  datatype EngineReport = EngineReport(
    failed: bool,
    solvingDone: bool,
    pixelToWcs: ImagePos -> Option<WcsPoint>,
    solution: Solution)

  /** The pi literal of degToRad. */
  const Pi: real := 3.14159265358979323846264338327950288

  /** degToRad: a half turn is pi, and the sign of the angle is kept. */
  function DegToRad(deg: real): (rad: real)
    ensures deg == 180.0 ==> rad == Pi
    ensures deg == 0.0 <==> rad == 0.0
    ensures deg > 0.0 <==> rad > 0.0
  {
    deg / 180.0 * Pi
  }

  /** The engine produced a solution. */
  predicate Solved(report: EngineReport) {
    !report.failed && report.solvingDone
  }

  /** The `ready` handler's choice: a cancelled job gets a bare cancelled
      Result; an unsolved run or a failed conversion gets an empty Result;
      otherwise the Result is filled from the solution and the converted
      solve point. */
  function ReadyOutcome(cancelled: bool, report: EngineReport, point: ImagePos): (r: Result)
    ensures cancelled ==> r == CancelledResult()
    ensures !cancelled && !(Solved(report) && report.pixelToWcs(point).Some?) ==> r == DefaultResult()
    ensures r.IsValid() <==> !cancelled && Solved(report) && report.pixelToWcs(point).Some?
    ensures r.IsValid() ==>
      var w := report.pixelToWcs(point).value;
      r.fieldWidth == Some(report.solution.fieldWidth) && r.fieldHeight == Some(report.solution.fieldHeight)
      && r.pixelScale == Some(report.solution.pixscale) && r.rotation == Some(report.solution.orientation)
      && r.rdJ2000 == Some(AstroCoord(DegToRad(w.ra), DegToRad(w.dec)))
  {
    if cancelled then CancelledResult()
    else if !Solved(report) then DefaultResult()
    else match report.pixelToWcs(point)
      case None => DefaultResult()
      case Some(w) =>
        var s := report.solution;
        Result(Some(s.fieldWidth), Some(s.fieldHeight), Some(AstroCoord(DegToRad(w.ra), DegToRad(w.dec))),
               Some(s.pixscale), Some(s.orientation), false)
  }

  /** Where a job is: waiting for its dispatch thread (Queued), handed to the
      engine's thread (Posted), loaded and waiting for `ready` (Running), or
      done (Finished). */
  datatype Phase = Queued | Posted | Running | Finished

  /** A job's phase and every Result its handler has received, in order. */
  datatype JobState = JobState(phase: Phase, delivered: seq<Result>)

  /** What can happen to a job:
      PreDispatch — the dispatch thread's check (was the engine running, and
        if so, was this job's flag set after waiting for the abort);
      Start — the engine thread loads the image (ok or not) and, on success,
        starts the engine;
      Ready — the engine signals `ready` (with the job's flag at that moment). */
  datatype JobEvent =
    | PreDispatch(priorRunning: bool, cancelled: bool)
    | Start(loadOk: bool)
    | Ready(cancelled: bool, report: EngineReport, point: ImagePos)

  /** A freshly admitted job: blocking mode runs it on the caller, so it is
      already at the engine; asynchronous mode queues it for the dispatch thread. */
  function Admitted(blocking: bool): (s: JobState)
    ensures s.delivered == [] && s.phase != Finished
  {
    JobState(if blocking then Posted else Queued, [])
  }

  /** Each event belongs to exactly one phase. */
  predicate Enabled(s: JobState, e: JobEvent) {
    match e
    case PreDispatch(_, _) => s.phase == Queued
    case Start(_) => s.phase == Posted
    case Ready(_, _, _) => s.phase == Running
  }

  /** How far along a job is. */
  function Rank(p: Phase): nat {
    match p
    case Queued => 0
    case Posted => 1
    case Running => 2
    case Finished => 3
  }

  /** One step of a job. A step that reaches Finished calls the handler once;
      every other step calls it not at all. */
  function Step(s: JobState, e: JobEvent): (t: JobState)
    requires Enabled(s, e)
    ensures Rank(t.phase) > Rank(s.phase)
    ensures |t.delivered| == |s.delivered| + (if t.phase == Finished then 1 else 0)
    ensures t.delivered[..|s.delivered|] == s.delivered
    ensures e.PreDispatch? ==> (t.phase == Finished <==> e.priorRunning && e.cancelled)
    ensures e.PreDispatch? && t.phase == Finished ==> t.delivered[|s.delivered|] == CancelledResult()
    ensures e.Start? ==> (t.phase == Finished <==> !e.loadOk)
    ensures e.Start? && t.phase == Finished ==> t.delivered[|s.delivered|] == DefaultResult()
    ensures e.Ready? ==> t.phase == Finished
    ensures e.Ready? ==> t.delivered[|s.delivered|] == ReadyOutcome(e.cancelled, e.report, e.point)
  {
    match e
    case PreDispatch(priorRunning, cancelled) =>
      if priorRunning && cancelled then JobState(Finished, s.delivered + [CancelledResult()])
      else JobState(Posted, s.delivered)
    case Start(loadOk) =>
      if !loadOk then JobState(Finished, s.delivered + [DefaultResult()])
      else JobState(Running, s.delivered)
    case Ready(cancelled, report, point) =>
      JobState(Finished, s.delivered + [ReadyOutcome(cancelled, report, point)])
  }

  /** The handler has been called once if the job is finished, never otherwise. */
  predicate DeliveredOnce(s: JobState) {
    |s.delivered| == if s.phase == Finished then 1 else 0
  }

  /** Runs the events in order; None when one of them does not belong to the
      phase the job is in at that point. */
  function Replay(s: JobState, es: seq<JobEvent>): Option<JobState>
    decreases es
  {
    if es == [] then Some(s)
    else if !Enabled(s, es[0]) then None
    else Replay(Step(s, es[0]), es[1..])
  }

  /** A job with no event enabled is finished, and a finished job has none. */
  lemma StuckIffFinished(s: JobState)
    ensures (forall e: JobEvent :: !Enabled(s, e)) <==> s.phase == Finished
  {
    if s.phase != Finished {
      var report := EngineReport(true, false, p => None, Solution(0.0, 0.0, 0.0, 0.0));
      var e := match s.phase
        case Queued => PreDispatch(false, false)
        case Posted => Start(false)
        case Running => Ready(false, report, ImagePos(0.0, 0.0));
      assert Enabled(s, e);
    }
  }

  /** Along any run of events, the handler-call count stays tied to the phase,
      and each event moves the job at least one phase further. */
  lemma {:induction false} ReplayDeliversOnce(s: JobState, es: seq<JobEvent>)
    requires DeliveredOnce(s) && Replay(s, es).Some?
    ensures DeliveredOnce(Replay(s, es).value)
    ensures Rank(Replay(s, es).value.phase) >= Rank(s.phase) + |es|
    ensures s.phase == Finished ==> es == []
    decreases es
  {
    if es != [] {
      var t := Step(s, es[0]);
      assert Replay(s, es) == Replay(t, es[1..]);
      ReplayDeliversOnce(t, es[1..]);
    }
  }

  /** Exactly once, path by path: from admission in either mode, every run of
      events takes at most three steps (two when blocking); the handler has
      received nothing until the job finishes and exactly one Result once it
      has; and a run that cannot be extended has finished. */
  lemma ExactlyOnce(blocking: bool, es: seq<JobEvent>)
    requires Replay(Admitted(blocking), es).Some?
    ensures |es| <= if blocking then 2 else 3
    ensures var t := Replay(Admitted(blocking), es).value;
      (t.phase == Finished ==> |t.delivered| == 1) && (t.phase != Finished ==> t.delivered == [])
    ensures var t := Replay(Admitted(blocking), es).value;
      (forall e: JobEvent :: !Enabled(t, e)) ==> |t.delivered| == 1
  {
    var t := Replay(Admitted(blocking), es).value;
    ReplayDeliversOnce(Admitted(blocking), es);
    StuckIffFinished(t);
  }

  /** Replay of a longer run continues from where the shorter one ended. */
  lemma {:induction false} ReplaySnoc(s: JobState, es: seq<JobEvent>, e: JobEvent)
    requires Replay(s, es).Some? && Enabled(Replay(s, es).value, e)
    ensures Replay(s, es + [e]) == Some(Step(Replay(s, es).value, e))
    decreases es
  {
    if es == [] {
      assert es + [e] == [e];
    } else {
      assert (es + [e])[0] == es[0];
      assert (es + [e])[1..] == es[1..] + [e];
      ReplaySnoc(Step(s, es[0]), es[1..], e);
    }
  }
}
