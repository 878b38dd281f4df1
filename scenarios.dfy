/** Clients of the orchestrator: request sequences driven step by step through
    the PlateSolver, Dispatch, RunJob and the engine's `ready`, each returning
    what the handlers received. Their postconditions follow from the contracts
    of those operations alone. */
module Scenarios {
  import opened PlateSolverApi
  import opened SolverTypes
  import opened JobLifecycle
  import opened Orchestrator

  /** An engine run that solved the image: 1.2 x 0.8 field, 1.5 arcsec/pixel,
      rotation 30, every image point mapped to RA 150 deg, Dec -10 deg. */
  function SolvedReport(): (r: EngineReport)
    ensures Solved(r) && r.pixelToWcs(ImagePos(0.0, 0.0)).Some?
  {
    EngineReport(false, true, p => Some(WcsPoint(150.0, -10.0)), Solution(1.2, 0.8, 1.5, 30.0))
  }

  /** An engine run that was aborted or failed. */
  function FailedReport(): (r: EngineReport)
    ensures !Solved(r)
  {
    EngineReport(true, false, p => None, Solution(0.0, 0.0, 0.0, 0.0))
  }

  /** An asynchronous request on an idle engine, taken through its dispatch
      thread: the job is posted to the engine's thread, and nothing else
      changes except the solver's flag reference. */
  method PostOnIdleEngine(solver: PlateSolver, path: string) returns (job: Job)
    requires solver.Valid() && !solver.engine.running
    modifies solver`canceller, solver.canceller, solver.engine, solver.engine.observers
    ensures solver.Valid() && unchanged(solver.engine)
    ensures old(solver.canceller) != null ==> unchanged(old(solver.canceller))
    ensures fresh(job) && fresh(job.flag) && job.engine == solver.engine && job.solvePoint == ImagePos(0.0, 0.0)
    ensures solver.canceller == job.flag
    ensures job.Valid() && job.phase == Posted && job.delivered == [] && !job.flag.cancelled
  {
    job := solver.SolveAsync(path, None, false, ImagePos(0.0, 0.0), false, true, SolvedReport());
    Dispatch(job, FailedReport());
  }

  /** As PostOnIdleEngine, then the engine's thread loads the image and starts
      the engine: the job is the one connection of the running engine. */
  method StartOnIdleEngine(solver: PlateSolver, path: string) returns (job: Job)
    requires solver.Valid() && !solver.engine.running
    modifies solver`canceller, solver.canceller, solver.engine, solver.engine.observers
    ensures solver.Valid() && solver.engine.running && solver.engine.observers == [job]
    ensures old(solver.canceller) != null ==> unchanged(old(solver.canceller))
    ensures fresh(job) && fresh(job.flag) && job.engine == solver.engine && job.solvePoint == ImagePos(0.0, 0.0)
    ensures solver.canceller == job.flag
    ensures job.Valid() && job.phase == Running && job.delivered == [] && !job.flag.cancelled
  {
    job := PostOnIdleEngine(solver, path);
    RunJob(job, true);
  }

  /** Blocking mode, load and solve succeed: solveAsync returns with the
      handler already called once with a valid Result holding the solution's
      values and the converted solve point. */
  method BlockingSuccess() returns (delivered: seq<Result>)
    ensures |delivered| == 1 && delivered[0].IsValid()
    ensures delivered[0].fieldWidth == Some(1.2) && delivered[0].fieldHeight == Some(0.8)
    ensures delivered[0].pixelScale == Some(1.5) && delivered[0].rotation == Some(30.0)
    ensures delivered[0].rdJ2000 == Some(AstroCoord(DegToRad(150.0), DegToRad(-10.0)))
  {
    var solver := new PlateSolver();
    var job := solver.SolveAsync("img.fits", None, true, ImagePos(0.0, 0.0), true, true, SolvedReport());
    delivered := job.delivered;
  }

  /** Blocking mode, the image does not load: one empty, non-cancelled Result;
      the engine was never given an image and never started. */
  method BlockingLoadFailure() returns (delivered: seq<Result>, loaded: string, ghost starts: nat)
    ensures delivered == [DefaultResult()] && loaded == [] && starts == 0
  {
    var solver := new PlateSolver();
    var job := solver.SolveAsync("missing.fits", None, false, ImagePos(0.0, 0.0), true, false, SolvedReport());
    delivered, loaded, starts := job.delivered, solver.engine.image, solver.engine.starts;
  }

  /** A stored hint reaches the engine only for a request that asks to reuse
      it; the engine keeps using it for a later request that does not. */
  method ScaleHintIsSticky() returns (firstUses: bool, secondScale: Option<SolverScale>, secondUses: bool)
    ensures firstUses && secondScale == None && secondUses
  {
    var solver := new PlateSolver();
    solver.SetPrevInfo(Some(SolverScale(1.0, 2.0)));
    var job1 := solver.SolveAsync("a.fits", None, true, ImagePos(0.0, 0.0), true, true, SolvedReport());
    firstUses := solver.engine.useScale;
    var job2 := solver.SolveAsync("b.fits", None, false, ImagePos(0.0, 0.0), true, true, SolvedReport());
    secondScale, secondUses := job2.scale, solver.engine.useScale;
  }

  /** Asynchronous mode, cancel() after the engine started the job: the
      handler gets a cancelled Result, whatever the engine then reports. */
  method CancelWhileRunning() returns (delivered: seq<Result>)
    ensures delivered == [CancelledResult()]
  {
    var solver := new PlateSolver();
    var job := StartOnIdleEngine(solver, "img.fits");
    solver.Cancel();
    solver.engine.EmitReady(SolvedReport());
    delivered := job.delivered;
  }

  /** An asynchronous request on an idle engine, cancelled before its dispatch
      thread runs, then taken through that thread: the engine is not running,
      so cancel() does nothing and the job is posted with its flag unset. */
  method CancelQueuedJob(solver: PlateSolver) returns (job: Job)
    requires solver.Valid() && !solver.engine.running
    modifies solver`canceller, solver.canceller, solver.engine, solver.engine.observers
    ensures solver.Valid() && unchanged(solver.engine)
    ensures job.engine == solver.engine && job.solvePoint == ImagePos(0.0, 0.0)
    ensures job.Valid() && job.phase == Posted && job.delivered == [] && !job.flag.cancelled
  {
    job := solver.SolveAsync("img.fits", None, false, ImagePos(0.0, 0.0), false, true, SolvedReport());
    solver.Cancel();
    Dispatch(job, FailedReport());
  }

  /** Asynchronous mode, cancel() before the job reached the engine: the
      engine is not running, so cancel() does nothing and the job completes. */
  method CancelBeforeStartIsIgnored() returns (delivered: seq<Result>)
    ensures |delivered| == 1 && delivered[0].IsValid() && !delivered[0].isCancelled
  {
    var solver := new PlateSolver();
    var job := CancelQueuedJob(solver);
    RunJob(job, true);
    solver.engine.EmitReady(SolvedReport());
    delivered := job.delivered;
  }

  /** A second asynchronous request while `job1` is the engine's one running
      job, taken through its dispatch thread: solveAsync sets job1's flag and
      aborts, the dispatch thread waits for the run to end, which gives job1
      the cancelled Result, and the new job is posted. */
  method SubmitWhileRunning(solver: PlateSolver, job1: Job) returns (job2: Job)
    requires solver.Valid() && solver.engine.running && solver.engine.observers == [job1]
    requires solver.canceller == job1.flag && job1.delivered == []
    modifies solver`canceller, solver.canceller, solver.engine, solver.engine.observers
    ensures solver.Valid() && !solver.engine.running && solver.engine.observers == []
    ensures job1.Valid() && job1.phase == Finished && job1.delivered == [CancelledResult()]
    ensures fresh(job2) && job2.engine == solver.engine && job2.solvePoint == ImagePos(0.0, 0.0)
    ensures job2.Valid() && job2.phase == Posted && job2.delivered == [] && !job2.flag.cancelled
  {
    job2 := solver.SolveAsync("b.fits", None, false, ImagePos(0.0, 0.0), false, true, SolvedReport());
    assert job1.flag.cancelled && job1 in solver.engine.observers;
    Dispatch(job2, FailedReport());
  }

  /** Asynchronous mode, a second request while the first one runs: the first
      handler gets a cancelled Result when the dispatch thread waits for the
      abort, and the second job then runs to a valid Result. */
  method PreemptRunningJob() returns (first: seq<Result>, second: seq<Result>)
    ensures first == [CancelledResult()]
    ensures |second| == 1 && second[0].IsValid()
  {
    var solver := new PlateSolver();
    var job1 := StartOnIdleEngine(solver, "a.fits");
    var job2 := SubmitWhileRunning(solver, job1);
    RunJob(job2, true);
    solver.engine.EmitReady(SolvedReport());
    first, second := job1.delivered, job2.delivered;
  }

  /** Two asynchronous requests on an idle engine, each taken through its
      dispatch thread while the engine is still idle: both are posted to the
      engine's thread, neither flag is set, and the engine is untouched. */
  method PostTwiceOnIdleEngine(solver: PlateSolver) returns (job1: Job, job2: Job)
    requires solver.Valid() && !solver.engine.running
    modifies solver`canceller, solver.canceller, solver.engine, solver.engine.observers
    ensures solver.Valid() && unchanged(solver.engine) && job1 != job2
    ensures job1.engine == solver.engine && job2.engine == solver.engine
    ensures job1.Valid() && job1.phase == Posted && job1.delivered == [] && !job1.flag.cancelled
    ensures job2.Valid() && job2.phase == Posted && job2.delivered == [] && !job2.flag.cancelled
    ensures job1.solvePoint == ImagePos(0.0, 0.0) && job2.solvePoint == ImagePos(0.0, 0.0)
    ensures fresh(job1) && fresh(job2) && fresh(job1.flag) && fresh(job2.flag)
    ensures solver.canceller == job2.flag && job1.flag != job2.flag
  {
    job1 := PostOnIdleEngine(solver, "a.fits");
    job2 := PostOnIdleEngine(solver, "b.fits");
  }

  /** The engine's thread runs two posted jobs of one engine, one after the
      other, without the engine signalling `ready` in between: both images
      load, and both jobs wait for the same run. */
  method StartBoth(job1: Job, job2: Job)
    requires job1 != job2 && job1.engine == job2.engine
    requires job1.engine.Valid() && job1.engine.observers == []
    requires job1.Valid() && job1.phase == Posted && job2.Valid() && job2.phase == Posted
    requires job1.delivered == [] && job2.delivered == []
    modifies job1, job2, job1.engine
    ensures job1.engine.Valid() && job1.engine.observers == [job1, job2]
    ensures job1.delivered == [] && job2.delivered == []
    ensures job1.flag.cancelled == old(job1.flag.cancelled) && job2.flag.cancelled == old(job2.flag.cancelled)
  {
    RunJob(job1, true);
    RunJob(job2, true);
  }

  /** Asynchronous mode, a second request while the first one is posted to
      the engine's thread but not started: the engine is not running, so the
      first job is not cancelled; both jobs are connected to the same run and
      both handlers get a non-cancelled Result. */
  method PreemptPostedJob() returns (first: seq<Result>, second: seq<Result>)
    ensures |first| == 1 && first[0].IsValid()
    ensures |second| == 1 && second[0].IsValid()
  {
    var solver := new PlateSolver();
    var job1, job2 := PostTwiceOnIdleEngine(solver);
    StartBoth(job1, job2);
    solver.engine.EmitReady(SolvedReport());
    assert job1.delivered == [ReadyOutcome(false, SolvedReport(), ImagePos(0.0, 0.0))];
    assert job2.delivered == [ReadyOutcome(false, SolvedReport(), ImagePos(0.0, 0.0))];
    first, second := job1.delivered, job2.delivered;
  }

  /** The engine's thread starts `job1`, cancel() is called while it runs,
      and the engine's thread then starts `job2` on the same run: only the
      solver's flag, which is job2's, is set. */
  method CancelBetweenStarts(solver: PlateSolver, job1: Job, job2: Job)
    requires solver.Valid() && solver.engine.observers == [] && solver.canceller == job2.flag
    requires job1 != job2 && job1.flag != job2.flag
    requires job1.engine == solver.engine && job2.engine == solver.engine
    requires job1.Valid() && job1.phase == Posted && job1.delivered == [] && !job1.flag.cancelled
    requires job2.Valid() && job2.phase == Posted && job2.delivered == []
    modifies solver`canceller, job2.flag, solver.engine, job1, job2
    ensures solver.engine.Valid() && solver.engine.observers == [job1, job2]
    ensures job1.delivered == [] && job2.delivered == []
    ensures !job1.flag.cancelled && job2.flag.cancelled
  {
    RunJob(job1, true);
    solver.Cancel();
    RunJob(job2, true);
  }

  /** Asynchronous mode, two jobs posted on an idle engine; the engine's
      thread starts the first, then cancel() is called, then the second is
      started on the same run. cancel() sets the solver's flag, which is the
      newest job's: the running job still gets a valid Result, and the second
      job's flag is seen only by its `ready` handler. */
  method CancelReachesNewestJob() returns (first: seq<Result>, second: seq<Result>)
    ensures |first| == 1 && first[0].IsValid()
    ensures second == [CancelledResult()]
  {
    var solver := new PlateSolver();
    var job1, job2 := PostTwiceOnIdleEngine(solver);
    CancelBetweenStarts(solver, job1, job2);
    solver.engine.EmitReady(SolvedReport());
    first, second := job1.delivered, job2.delivered;
  }
}
