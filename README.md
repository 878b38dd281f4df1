# plateSolver orchestration, modelled in Dafny

This project models the request layer of the plateSolver wrapper. The wrapper runs plate solves on an external engine
(StellarSolver), one engine instance, one active solve. Callers ask for a solve with `solveAsync` and may `cancel`.
Each request gets its own cancellation flag. The solver keeps the flag of the most recent request and a stored scale
hint. A request's handler receives one `Result`. That Result is cancelled, empty ("attempted and failed") or filled
from the engine's solution.

The model has five modules:

- `PlateSolverApi` (`api.dfy`): `AstroCoord`, `ImagePos` and `Result` with its `IsValid` predicate, from
  IPlateSolver.h.
- `SolverTypes` (`solver_types.dfy`): `SolverScale` and the `CancelFlag` class, from PlateSolver.h.
- `JobLifecycle` (`job_lifecycle.dfy`): the pure decisions of PlateSolver.cpp. `ReadyOutcome` is the `ready`
  handler's choice of Result. It works from an `EngineReport`: the failed and done flags, the pixel-to-sky conversion
  and the solution. One job's life is a state machine (`Step`). It has four phases: Queued, Posted, Running and
  Finished. The lemmas show, over every run of events, that the handler is called exactly once.
- `Orchestrator` (`orchestrator.dfy`): the imperative part of PlateSolver.cpp. It has three classes. `PlateSolver`
  holds `canceller` and `prevInfo` and has `Cancel`, `SetPrevInfo` and `SolveAsync`. `Job` holds what a request
  captured and the Results its handler got. `Engine` holds what the wrapper reads and sets on the engine: running, the
  single-shot `ready` connections, UseScale and the search scale, the loaded image, and counts of aborts and starts.
  `Dispatch` is the dispatch thread. `RunJob` is `runJob_onStellerSolverThread`, with its engine side in
  `Engine.Launch`. `OnReady` is the `ready` lambda. `OnReady`, `RunJob` and `Dispatch` are each proved to take
  exactly one `Step` of the machine. `RunBlocking` is made of one or two of them: `RunJob`, then `OnReady` through
  `Engine.EmitReady` when the load succeeded. `EmitReady` moves every connected job by its `Ready` step. A job's
  `Valid()` invariant ties it to the replay of its events.
- `Scenarios` (`scenarios.dfy`): request sequences driven through these operations. Each returns what the handlers
  received.

Threads are replaced by explicit calls, in an order the caller chooses. In asynchronous mode, `SolveAsync` returns the
job. That job stands for the detached thread and is later passed to `Dispatch`. The call posted to the engine's thread
is `RunJob`. The engine finishing a run and signalling `ready` is `Engine.EmitReady`. Execution mode is a `blocking`
parameter. In the source it is decided by whether a `QCoreApplication` exists. Doubles are `real`. `degToRad` is
exact real arithmetic with the source's pi literal.

Three behaviours of the code are weaker than a reading of the interface comments suggests, and the model keeps them:

- `cancel()` does nothing unless the engine reports it is running. While the engine is idle, a job that is queued or
  posted but not started is therefore not cancelled by `cancel()` or by a later `solveAsync`.
  `CancelBeforeStartIsIgnored` and `PreemptPostedJob` show both cases. In the second, both jobs connect to the same
  engine run, and both handlers get a non-cancelled Result. While the engine runs, `cancel()` sets the solver's
  flag, which belongs to the newest job and not to the job the engine is running. A newer job that is still queued
  is caught by its dispatch thread's check, but only if the engine still runs when the thread checks. Otherwise, and
  always for a job already posted, the flag is seen only by the job's `ready` handler, after its run. The running
  job can still get a valid Result (`CancelReachesNewestJob`).
- "UseScale" is set to true when a job carries a scale hint and is never set back to false. A later request that does
  not reuse the hint still runs with the old search scale (`ScaleHintIsSticky`).
- The stored hint `prevInfo` is described as the information from the last successful solve, but no solve writes
  it. Only `setPrevInfo` sets it, and `solveAsync` only reads it (`PlateSolver.SetPrevInfo`,
  `PlateSolver.SolveAsync`'s `prevInfo == old(prevInfo)`).

## Model

| member | source | states |
|---|---|---|
| `PlateSolverApi.DefaultCoord` | IPlateSolver.h:16 | the default AstroCoord is (0, 0) |
| `PlateSolverApi.DefaultResult` | IPlateSolver.h:22-29 | a default Result has every field absent, is not cancelled, and is not valid |
| `PlateSolverApi.CancelledResult` | PlateSolver.cpp:99-100 | the cancelled Result has every field absent and the marker set; it is not valid and differs from the default Result |
| `PlateSolverApi.ValidIffComplete` | IPlateSolver.h:31-33 | isValid holds exactly when all five fields are present and the result is not cancelled |
| `PlateSolverApi.CancelledNeverValid` | IPlateSolver.h:32 | a cancelled Result is never valid, whatever fields it has |
| `PlateSolverApi.DroppingAFieldInvalidates` | IPlateSolver.h:32 | removing any one field from a valid Result makes it invalid |
| `JobLifecycle.DegToRad` | PlateSolver.cpp:19-21 | degrees to radians with the source's pi literal: a half turn is pi, zero stays zero, and the sign is kept |
| `SolverTypes.DefaultScale` | PlateSolver.h:22 | the default SolverScale is (0, 0) |
| `SolverTypes.ScaleKeepsBounds` | PlateSolver.h:23 | the two-argument SolverScale keeps both bounds as given, including min > max |
| `SolverTypes.CancelFlag.constructor` | PlateSolver.h:45 | a new flag is not cancelled |
| `SolverTypes.CancelFlag.IsCancelled` | PlateSolver.h:32-35 | isCancelled reports the flag and changes nothing |
| `SolverTypes.CancelFlag.Cancel` | PlateSolver.h:38-41 | after cancel the flag is set; on a set flag, cancel changes nothing |
| `JobLifecycle.ReadyOutcome` | PlateSolver.cpp:98-136 | a cancelled job gets the cancelled Result. Otherwise an unsolved run or a failed conversion gives the default Result. The Result is valid exactly when the job is not cancelled, the engine solved and the conversion succeeded. A valid Result carries the solution's width, height, pixel scale and orientation and the converted point in radians |
| `JobLifecycle.Admitted` | PlateSolver.cpp:271-301 | a new job has had no handler call; blocking mode starts it at the engine, asynchronous mode at the dispatch thread |
| `JobLifecycle.Step` | PlateSolver.cpp:41-146 | every step moves the job forward and calls the handler only when it finishes, exactly once. The pre-dispatch check finishes the job only when the engine was running and the flag was set, with the cancelled Result. A failed load finishes it with the default Result. `ready` always finishes it, with ReadyOutcome |
| `JobLifecycle.StuckIffFinished` | IPlateSolver.h:46-51 | a job can always take a further step unless it has finished |
| `JobLifecycle.ReplayDeliversOnce` | IPlateSolver.h:51 | along any run of events the handler has been called once if the job has finished and never otherwise, and each event advances the job |
| `JobLifecycle.ExactlyOnce` | IPlateSolver.h:46-51 | from admission in either mode, a job takes at most three steps (two when blocking). No Result reaches the handler before the job finishes. Exactly one Result reaches it once the job has finished, and a job that cannot step further has finished |
| `Orchestrator.Engine.Launch` | PlateSolver.cpp:59-145 | the engine gets the job's image; UseScale and the search scale are set only when the job has a hint; the job's handler is connected after the earlier ones and the engine is started, with no abort |
| `Orchestrator.Engine.EmitReady` | PlateSolver.cpp:83-142 | when the engine signals `ready`, every connected job's handler runs once with ReadyOutcome of its own flag, and every connection is dropped |
| `Orchestrator.Engine.AbortAndWait` | PlateSolver.cpp:285 | abortAndWait requests an abort, ends the run and fires the connected handlers |
| `Orchestrator.Job.constructor` | PlateSolver.cpp:248-255 | the job holds the engine, path, flag, scale, hint and solve point it was built with, and has had no handler call |
| `Orchestrator.HandlerCalledAtMostOnce` | IPlateSolver.h:51 | a job's handler has been called at most once, and exactly once when the job is finished |
| `Orchestrator.OnReady` | PlateSolver.cpp:87-137 | the `ready` lambda reads the job's own flag and calls the handler once with ReadyOutcome |
| `Orchestrator.RunJob` | PlateSolver.cpp:41-146 | a failed load calls the handler with the default Result and leaves the engine alone. Otherwise the engine gets the job's image. UseScale and the search scale are set only when the job has a hint, and are left untouched otherwise. The `ready` handler is connected and the engine started |
| `Orchestrator.Dispatch` | PlateSolver.cpp:278-300 | if the engine was running, the thread aborts it and waits; the handlers connected to that run fire. If this job's flag is then set, its handler gets the cancelled Result. Otherwise the job is posted to the engine's thread, and an idle engine is left unchanged |
| `Orchestrator.RunBlocking` | PlateSolver.cpp:271-276 | in blocking mode the job has finished with exactly one Result before the call returns |
| `Orchestrator.PlateSolver.constructor` | PlateSolver.cpp:163-213 | a new solver holds no flag and no stored hint, and its engine is idle with UseScale false |
| `Orchestrator.PlateSolver.SetPrevInfo` | PlateSolver.h:66 | setPrevInfo replaces the stored hint and leaves the flag reference alone |
| `Orchestrator.PlateSolver.Cancel` | PlateSolver.cpp:304-312 | an idle engine means no change at all. With a running engine, the held flag is set and let go, and an abort is requested even when no flag is held |
| `Orchestrator.PlateSolver.Admit` | PlateSolver.cpp:238-255 | the previous flag is set if the engine was running, and an abort is requested then. A fresh, unset flag becomes both the solver's and the job's. The job's scale is the stored hint exactly when reuse is asked for. The job has had no handler call, and nothing of the engine but the abort count changes |
| `Orchestrator.PlateSolver.SolveAsync` | PlateSolver.cpp:231-302 | the previous flag is set if the engine was running. A fresh, unset flag becomes both the solver's and the job's. The job's scale is the stored hint exactly when reuse is asked for, and the stored hint is unchanged. Asynchronous mode returns the job queued, and the caller changes nothing of the engine but the abort. Blocking mode returns after exactly one handler call with the outcome of the run. A failed load leaves the engine's state, its image and its start count alone |
| `Scenarios.BlockingSuccess` | PlateSolver.cpp:124-136 | a blocking solve that loads, solves and converts delivers one valid Result with the solution's values and the converted point |
| `Scenarios.BlockingLoadFailure` | PlateSolver.cpp:45-50 | a blocking solve whose image does not load delivers one default Result; the engine is given no image and is never started |
| `Scenarios.ScaleHintIsSticky` | PlateSolver.cpp:65-72 | a request without a hint, after one with a hint, still runs with UseScale set |
| `Scenarios.CancelWhileRunning` | PlateSolver.cpp:304-312 | cancel() after the engine started the job makes its handler receive the cancelled Result |
| `Scenarios.CancelBeforeStartIsIgnored` | PlateSolver.cpp:304-305 | cancel() before the job reached the engine has no effect, and the job delivers a valid Result |
| `Scenarios.PreemptRunningJob` | PlateSolver.cpp:283-295 | a second request while the first runs gives the first handler the cancelled Result and the second a valid one |
| `Scenarios.CancelReachesNewestJob` | PlateSolver.cpp:304-312 | cancel() while the engine runs one job, before a newer posted job starts on the same run, gives the running job a valid Result and the newer job the cancelled Result from its `ready` handler |
| `Scenarios.PreemptPostedJob` | PlateSolver.cpp:239-246 | a second request while the first is posted but not started cancels nothing, and both handlers get valid Results |

## Left out

- Threads, the detached dispatch thread, `std::promise`/`future`, the mutex and atomic inside `CancelFlag`, Qt
  connection types and `QMetaObject::invokeMethod`. Each thread's work is a method the caller invokes, so every
  interleaving of whole steps can be expressed. Interleavings inside a step cannot be expressed.
- Engine.AbortAndWait: the `ready` handlers of the aborted run fire inside the wait. In the source they are queued to
  the engine's thread and may run after the dispatch thread's check. Each handler still runs once, with its own flag.
- Engine internals: the solve algorithm, image decoding, `loadImage`, `pixelToWCS`, `getSolution`. Their results are
  parameters: `loadOk` and an `EngineReport`. Image-buffer ownership handling is not modelled.
- The engine parameter setup in the PlateSolver constructor, apart from UseScale being false. It is a list of property
  settings on the foreign library.
- Floating point: doubles are reals, so rounding, NaN and infinities are not modelled. `radToDeg` is not modelled.
- Timing and logging, and the commented-out RA/Dec hint block. `hint` is stored in the job and has no effect.
- main.cpp: command-line parsing, JSON output and exit. main.cpp is not part of this model.
- Engine.Start on a running engine: the model accepts a second `start()` while the engine runs and keeps every
  connection for the one `ready`. How StellarSolver itself treats that call is not modelled, and `PreemptPostedJob`
  rests on this assumption.
- Liveness of the engine: `StuckIffFinished` is about the abstract machine only. In the orchestrator a Running job
  finishes only through `EmitReady` on its engine. No invariant states that every Running job is among its engine's
  connections. That the engine eventually signals `ready` after an abort is its contract, not something the model
  proves.
