/** The orchestrating part of PlateSolver.cpp: the PlateSolver object with its
    most-recent cancellation flag and stored scale hint, the per-request Job,
    the steps that move a job through the engine, and the engine's state as far
    as the wrapper reads and drives it.

    Threads are not modelled. The detached dispatch thread of asynchronous mode
    is the Job that SolveAsync returns, later handed to Dispatch; the call posted
    to the engine's thread is RunJob; the engine's `ready` signal is EmitReady.
    What the engine observes (image load, failure, conversion, solution) is
    passed in as parameters. */
module Orchestrator {
  import opened PlateSolverApi
  import opened SolverTypes
  import opened JobLifecycle

  /** The solving engine, reduced to the state the wrapper reads or sets. */
  class Engine {
    var running: bool
    /** The single-shot `ready` connections, in the order they were made. */
    var observers: seq<Job>
    /** The "UseScale" property and the search scale. */
    var useScale: bool
    var searchScale: SolverScale
    /** The file whose image buffer the engine was last given. */
    var image: string
    ghost var aborts: nat
    ghost var starts: nat

    /** Every connected job is distinct, waits for `ready` on this engine, and
        is in a consistent state; a connection only exists while the engine runs. */
    ghost predicate Valid()
      reads this, observers
    {
      (forall i, k :: 0 <= i < k < |observers| ==> observers[i] != observers[k])
      && (forall j :: j in observers ==> j.phase == Running && j.engine == this && j.Valid())
      && (observers != [] ==> running)
    }

    constructor ()
      ensures Valid() && !running && observers == [] && !useScale && image == [] && aborts == 0 && starts == 0
    {
      running := false;
      observers := [];
      useScale := false;
      searchScale := DefaultScale();
      image := [];
      aborts := 0;
      starts := 0;
    }

    /** abort(): asks the current run to stop; the run ends, and `ready` is
        signalled, later. */
    method Abort()
      modifies this`aborts
      ensures aborts == old(aborts) + 1
    {
      aborts := aborts + 1;
    }

    /** loadNewImageBuffer */
    method LoadImageBuffer(path: string)
      modifies this`image
      ensures image == path
    {
      image := path;
    }

    /** setProperty("UseScale", true) followed by setSearchScale. */
    method SetSearchScale(scale: SolverScale)
      modifies this`useScale, this`searchScale
      ensures useScale && searchScale == scale
    {
      useScale := true;
      searchScale := scale;
    }

    /** A single-shot connection of `job`'s `ready` handler. */
    method ConnectReady(job: Job)
      requires job !in observers
      modifies this`observers
      ensures observers == old(observers) + [job]
    {
      observers := observers + [job];
    }

    /** start() */
    method Start()
      modifies this`running, this`starts
      ensures running && starts == old(starts) + 1
    {
      running := true;
      starts := starts + 1;
    }

    /** The engine side of a loaded job: the job's image is handed over, the
        job's scale hint (if any) is set, the job's `ready` handler is
        connected and the engine is started. Without a hint the scale setting
        is not touched. */
    method Launch(job: Job)
      requires Valid() && job.Valid() && job.phase == Running && job.engine == this && job !in observers
      modifies this
      ensures Valid() && running && observers == old(observers) + [job]
      ensures image == job.filePath && starts == old(starts) + 1 && aborts == old(aborts)
      ensures job.scale.Some? ==> useScale && searchScale == job.scale.value
      ensures job.scale.None? ==> useScale == old(useScale) && searchScale == old(searchScale)
    {
      LoadImageBuffer(job.filePath);
      if job.scale.Some? {
        SetSearchScale(job.scale.value);
      }
      ConnectReady(job);
      Start();
    }

    /** The run ends and `ready` is signalled: every connected handler runs
        once, and, being single-shot, is disconnected. */
    method EmitReady(report: EngineReport)
      requires Valid()
      modifies this`running, this`observers, observers
      ensures Valid() && !running && observers == []
      ensures forall j :: j in old(observers) ==>
        j.Valid() && j.phase == Finished
        && j.delivered == old(j.delivered) + [ReadyOutcome(j.flag.cancelled, report, j.solvePoint)]
    {
      var pending := observers;
      running := false;
      observers := [];
      var i := 0;
      while i < |pending|
        invariant 0 <= i <= |pending|
        invariant !running && observers == []
        invariant forall k :: 0 <= k < i ==>
          pending[k].Valid() && pending[k].phase == Finished
          && pending[k].delivered == old(pending[k].delivered)
             + [ReadyOutcome(pending[k].flag.cancelled, report, pending[k].solvePoint)]
        invariant forall k :: i <= k < |pending| ==> unchanged(pending[k])
      {
        OnReady(pending[i], report);
        i := i + 1;
      }
    }

    /** abortAndWait(): abort the current run and wait until it has ended,
        which signals `ready`. */
    method AbortAndWait(report: EngineReport)
      requires Valid()
      modifies this`running, this`observers, this`aborts, observers
      ensures Valid() && !running && observers == [] && aborts == old(aborts) + 1
      ensures forall j :: j in old(observers) ==>
        j.Valid() && j.phase == Finished
        && j.delivered == old(j.delivered) + [ReadyOutcome(j.flag.cancelled, report, j.solvePoint)]
    {
      Abort();
      EmitReady(report);
    }
  }

  /** One request: what solveAsync captured, and the Results its handler has
      been called with. `phase` and `events` record where the job is and what
      has happened to it. */
  class Job {
    const engine: Engine
    const filePath: string
    const flag: CancelFlag
    const scale: Option<SolverScale>
    const hint: Option<AstroCoord>
    const solvePoint: ImagePos
    ghost const blocking: bool
    var delivered: seq<Result>
    ghost var phase: Phase
    ghost var events: seq<JobEvent>

    ghost function State(): JobState
      reads this
    {
      JobState(phase, delivered)
    }

    /** The job is where its events have taken it. */
    ghost predicate Valid()
      reads this
    {
      Replay(Admitted(blocking), events) == Some(State())
    }

    constructor (engine: Engine, filePath: string, flag: CancelFlag, scale: Option<SolverScale>,
                 hint: Option<AstroCoord>, solvePoint: ImagePos, ghost blocking: bool)
      ensures this.engine == engine && this.filePath == filePath && this.flag == flag
      ensures this.scale == scale && this.hint == hint && this.solvePoint == solvePoint
      ensures this.blocking == blocking && events == [] && State() == Admitted(blocking)
      ensures Valid()
    {
      this.engine := engine;
      this.filePath := filePath;
      this.flag := flag;
      this.scale := scale;
      this.hint := hint;
      this.solvePoint := solvePoint;
      this.blocking := blocking;
      delivered := [];
      phase := Admitted(blocking).phase;
      events := [];
    }

    /** Calls the handler with `r`; the job is over. */
    method Finish(r: Result)
      modifies this
      ensures delivered == old(delivered) + [r] && phase == Finished && events == old(events)
    {
      delivered := delivered + [r];
      phase := Finished;
    }
  }

  /** A job in a consistent state has called its handler at most once, and
      exactly once when it is finished. */
  lemma HandlerCalledAtMostOnce(job: Job)
    requires job.Valid()
    ensures |job.delivered| <= 1
    ensures |job.delivered| == 1 <==> job.phase == Finished
  {
    ExactlyOnce(job.blocking, job.events);
  }

  /** The `ready` handler of a job: reads the job's flag and calls the handler
      with the outcome ReadyOutcome chooses. */
  method OnReady(job: Job, report: EngineReport)
    requires job.Valid() && job.phase == Running
    modifies job
    ensures job.Valid() && job.events == old(job.events) + [Ready(job.flag.cancelled, report, job.solvePoint)]
    ensures job.State() == Step(old(job.State()), Ready(job.flag.cancelled, report, job.solvePoint))
    ensures job.phase == Finished
    ensures job.delivered == old(job.delivered) + [ReadyOutcome(job.flag.cancelled, report, job.solvePoint)]
  {
    var cancelled := job.flag.IsCancelled();
    ghost var e := Ready(cancelled, report, job.solvePoint);
    ReplaySnoc(Admitted(job.blocking), job.events, e);
    job.Finish(ReadyOutcome(cancelled, report, job.solvePoint));
    job.events := job.events + [e];
  }

  /** The engine-thread part of a job: load the image (a failed load calls the
      handler with an empty Result and leaves the engine alone), give the
      engine the job's scale hint if it has one, connect the `ready` handler
      and start the engine. Without a hint the engine's scale setting is not
      touched. */
  method RunJob(job: Job, loadOk: bool)
    requires job.Valid() && job.phase == Posted && job.engine.Valid()
    modifies job, job.engine
    ensures job.Valid() && job.engine.Valid()
    ensures job.events == old(job.events) + [Start(loadOk)]
    ensures job.State() == Step(old(job.State()), Start(loadOk))
    ensures !loadOk ==> unchanged(job.engine) && job.delivered == old(job.delivered) + [DefaultResult()]
    ensures loadOk ==>
      job.engine.running && job.engine.observers == old(job.engine.observers) + [job]
      && job.engine.image == job.filePath && job.engine.starts == old(job.engine.starts) + 1
      && job.engine.aborts == old(job.engine.aborts)
    ensures loadOk && job.scale.Some? ==> job.engine.useScale && job.engine.searchScale == job.scale.value
    ensures job.scale.None? ==>
      job.engine.useScale == old(job.engine.useScale) && job.engine.searchScale == old(job.engine.searchScale)
  {
    var engine := job.engine;
    ghost var e := Start(loadOk);
    ReplaySnoc(Admitted(job.blocking), job.events, e);
    if !loadOk {
      job.Finish(DefaultResult());
      job.events := job.events + [e];
      return;
    }
    assert job !in engine.observers;
    job.phase := Running;
    job.events := job.events + [e];
    engine.Launch(job);
  }

  /** The dispatch thread of asynchronous mode: if the engine is still running
      a previous job, abort it and wait; if this job was cancelled meanwhile,
      call its handler with a cancelled Result and stop. Otherwise post RunJob
      to the engine's thread. */
  method Dispatch(job: Job, report: EngineReport)
    requires job.Valid() && job.phase == Queued && job.engine.Valid()
    modifies job, job.engine`running, job.engine`observers, job.engine`aborts, job.engine.observers
    ensures job.Valid() && job.engine.Valid()
    ensures job.events == old(job.events) + [PreDispatch(old(job.engine.running), job.flag.cancelled)]
    ensures job.State() == Step(old(job.State()), PreDispatch(old(job.engine.running), job.flag.cancelled))
    ensures !old(job.engine.running) ==> unchanged(job.engine)
    ensures old(job.engine.running) ==>
      !job.engine.running && job.engine.observers == [] && job.engine.aborts == old(job.engine.aborts) + 1
    ensures old(job.engine.running) ==> forall j :: j in old(job.engine.observers) ==>
      j.Valid() && j.phase == Finished
      && j.delivered == old(j.delivered) + [ReadyOutcome(j.flag.cancelled, report, j.solvePoint)]
  {
    var engine := job.engine;
    var priorRunning := engine.running;
    if priorRunning {
      engine.AbortAndWait(report);
    }
    var cancelled := job.flag.IsCancelled();
    ghost var e := PreDispatch(priorRunning, cancelled);
    ReplaySnoc(Admitted(job.blocking), job.events, e);
    if priorRunning && cancelled {
      job.Finish(CancelledResult());
    } else {
      job.phase := Posted;
    }
    job.events := job.events + [e];
  }

  /** Blocking mode: RunJob on the caller, then wait until the handler has
      been called; if the load succeeded, that is when the run ends and
      `ready` is signalled. */
  method RunBlocking(job: Job, loadOk: bool, report: EngineReport)
    requires job.Valid() && job.phase == Posted && job.delivered == [] && job.engine.Valid()
    modifies job, job.engine, job.engine.observers
    ensures job.Valid() && job.engine.Valid() && job.phase == Finished
    ensures job.delivered == [if loadOk then ReadyOutcome(job.flag.cancelled, report, job.solvePoint) else DefaultResult()]
    ensures job.engine.aborts == old(job.engine.aborts)
    ensures !loadOk ==> unchanged(job.engine) && forall j :: j in old(job.engine.observers) ==> unchanged(j)
    ensures loadOk ==>
      !job.engine.running && job.engine.observers == []
      && job.engine.image == job.filePath && job.engine.starts == old(job.engine.starts) + 1
    ensures loadOk ==> forall j :: j in old(job.engine.observers) ==>
      j.Valid() && j.phase == Finished
      && j.delivered == old(j.delivered) + [ReadyOutcome(j.flag.cancelled, report, j.solvePoint)]
    ensures loadOk && job.scale.Some? ==> job.engine.useScale && job.engine.searchScale == job.scale.value
    ensures job.scale.None? ==>
      job.engine.useScale == old(job.engine.useScale) && job.engine.searchScale == old(job.engine.searchScale)
  {
    RunJob(job, loadOk);
    if job.delivered == [] {
      job.engine.EmitReady(report);
    }
  }

  /** The solver object: the engine it owns, the flag of the most recent job
      and the stored scale hint. */
  class PlateSolver {
    const engine: Engine
    /** The flag of the most recent job; cleared by Cancel, not when a job ends. */
    var canceller: CancelFlag?
    /** The scale hint a job uses when asked to reuse previous information;
        only SetPrevInfo writes it, no solve does. */
    var prevInfo: Option<SolverScale>

    ghost predicate Valid()
      reads this, engine, engine.observers
    {
      engine.Valid()
    }

    /** A new solver: no job yet, no stored hint, the engine idle and told not
        to use a search scale. */
    constructor ()
      ensures Valid() && fresh(engine)
      ensures canceller == null && prevInfo == None
      ensures !engine.running && engine.observers == [] && !engine.useScale
      ensures engine.image == [] && engine.starts == 0 && engine.aborts == 0
    {
      engine := new Engine();
      canceller := null;
      prevInfo := None;
    }

    /** setPrevInfo: replaces the stored hint and nothing else. */
    method SetPrevInfo(value: Option<SolverScale>)
      modifies this`prevInfo
      ensures prevInfo == value && canceller == old(canceller)
    {
      prevInfo := value;
    }

    /** cancel(): nothing happens unless the engine is running. If it is, the
        most recent job's flag (if still held) is set and let go, and the
        engine is asked to abort, whether or not a flag was held. */
    method Cancel()
      requires Valid()
      modifies this`canceller, canceller, engine`aborts
      ensures Valid()
      ensures !old(engine.running) ==> canceller == old(canceller) && engine.aborts == old(engine.aborts)
      ensures !old(engine.running) && old(canceller) != null ==> unchanged(old(canceller))
      ensures old(engine.running) ==> canceller == null && engine.aborts == old(engine.aborts) + 1
      ensures old(engine.running) && old(canceller) != null ==> old(canceller).cancelled
    {
      if engine.running {
        if canceller != null {
          canceller.Cancel();
          canceller := null;
        }
        engine.Abort();
      }
    }

    /** The caller's part of solveAsync, common to both modes: cancel whatever
        runs, install a fresh flag shared with the new job, and build the job
        with the stored hint if asked to reuse it. Only the engine's abort
        count can change. */
    method Admit(filePath: string, hint: Option<AstroCoord>, usePrevInfo: bool, solvePoint: ImagePos,
                 ghost blocking: bool) returns (job: Job)
      requires Valid()
      modifies this`canceller, canceller, engine`aborts
      ensures Valid() && job.Valid()
      ensures fresh(job) && fresh(job.flag) && canceller == job.flag && job.engine == engine
      ensures job.filePath == filePath && job.hint == hint && job.solvePoint == solvePoint
      ensures job.scale == (if usePrevInfo then prevInfo else None) && prevInfo == old(prevInfo)
      ensures job.blocking == blocking && job.State() == Admitted(blocking) && job.events == []
      ensures !job.flag.cancelled
      ensures old(engine.running) && old(canceller) != null ==> old(canceller).cancelled
      ensures !old(engine.running) && old(canceller) != null ==> unchanged(old(canceller))
      ensures engine.aborts == old(engine.aborts) + (if old(engine.running) then 1 else 0)
    {
      Cancel();
      var flag := new CancelFlag();
      canceller := flag;
      job := new Job(engine, filePath, flag, if usePrevInfo then prevInfo else None, hint, solvePoint, blocking);
    }

    /** solveAsync: Admit the job. Asynchronous mode returns it queued for its
        dispatch thread, and the caller's thread has touched nothing of the
        engine but the abort. Blocking mode runs it here and returns only after
        its handler has been called; `loadOk` and `report` are what the engine
        observes in that run. */
    method SolveAsync(filePath: string, hint: Option<AstroCoord>, usePrevInfo: bool, solvePoint: ImagePos,
                      blocking: bool, loadOk: bool, report: EngineReport) returns (job: Job)
      requires Valid()
      modifies this`canceller, canceller, engine, engine.observers
      ensures Valid() && job.Valid()
      ensures fresh(job) && fresh(job.flag) && canceller == job.flag && job.engine == engine
      ensures job.filePath == filePath && job.hint == hint && job.solvePoint == solvePoint
      ensures job.scale == (if usePrevInfo then prevInfo else None) && prevInfo == old(prevInfo)
      ensures !job.flag.cancelled
      ensures old(engine.running) && old(canceller) != null ==> old(canceller).cancelled
      ensures !old(engine.running) && old(canceller) != null ==> unchanged(old(canceller))
      ensures engine.aborts == old(engine.aborts) + (if old(engine.running) then 1 else 0)
      ensures !blocking ==> job.State() == Admitted(false) && job.events == []
      ensures !blocking || !loadOk ==>
        engine.running == old(engine.running) && engine.observers == old(engine.observers)
        && engine.useScale == old(engine.useScale) && engine.searchScale == old(engine.searchScale)
        && engine.image == old(engine.image) && engine.starts == old(engine.starts)
      ensures !blocking && !old(engine.running) ==> unchanged(engine)
      ensures !blocking || !loadOk ==> forall j :: j in old(engine.observers) ==> unchanged(j)
      ensures blocking ==>
        job.phase == Finished
        && job.delivered == [if loadOk then ReadyOutcome(false, report, solvePoint) else DefaultResult()]
      ensures blocking && loadOk ==>
        !engine.running && engine.observers == [] && engine.image == filePath
        && engine.starts == old(engine.starts) + 1
        && (job.scale.Some? ==> engine.useScale && engine.searchScale == job.scale.value)
        && (job.scale.None? ==> engine.useScale == old(engine.useScale) && engine.searchScale == old(engine.searchScale))
      ensures blocking && loadOk ==> forall j :: j in old(engine.observers) ==>
        j.Valid() && j.phase == Finished
        && j.delivered == old(j.delivered) + [ReadyOutcome(j.flag.cancelled, report, j.solvePoint)]
    {
      job := Admit(filePath, hint, usePrevInfo, solvePoint, blocking);
      if blocking {
        RunBlocking(job, loadOk, report);
      }
    }
  }
}
