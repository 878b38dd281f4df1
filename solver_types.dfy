/** The types PlateSolver.h adds: the search-scale hint and the per-job
    cancellation flag. */
module SolverTypes {

  /** A pixel-scale search range in arcseconds per pixel. Neither constructor
      checks min <= max. */
  datatype SolverScale = SolverScale(min: real, max: real)

  /** The default SolverScale constructor: (0, 0). */
  function DefaultScale(): (s: SolverScale)
    ensures s.min == 0.0 && s.max == 0.0
  {
    SolverScale(0.0, 0.0)
  }

  /** The two-argument constructor stores both bounds as given, in either order. */
  lemma ScaleKeepsBounds(min: real, max: real)
    ensures SolverScale(min, max).min == min && SolverScale(min, max).max == max
    ensures min > max ==> SolverScale(min, max).min > SolverScale(min, max).max
  {
  }

  /** One job's cancellation flag: written by the orchestrator, read by the
      job. It starts false and, once set, stays set; the lock and the atomic
      that make it thread safe are not modelled. */
  class CancelFlag {
    var cancelled: bool

    constructor ()
      ensures !cancelled
    {
      cancelled := false;
    }

    /** The reader's side: reports the flag and changes nothing. */
    method IsCancelled() returns (c: bool)
      ensures c <==> cancelled
    {
      c := cancelled;
    }

    /** The writer's side: sets the flag. Calling it again changes nothing. */
    method Cancel()
      modifies this
      ensures cancelled
      ensures old(cancelled) ==> unchanged(this)
    {
      cancelled := true;
    }
  }
}
