/** The value types of the plate-solver interface (IPlateSolver.h): sky
    coordinates, image positions and the Result a solve delivers. Doubles are
    modelled as reals; nothing here computes with them, values are only copied. */
module PlateSolverApi {

  /** std::optional */
  datatype Option<T> = None | Some(value: T)

  /** A sky position; both angles in radians. */
  datatype AstroCoord = AstroCoord(ra: real, dec: real)

  /** The default AstroCoord constructor: the origin (0, 0). */
  function DefaultCoord(): (c: AstroCoord)
    ensures c.ra == 0.0 && c.dec == 0.0
  {
    AstroCoord(0.0, 0.0)
  }

  /** A point {x, y} in image coordinates. */
  datatype ImagePos = ImagePos(x: real, y: real)

  /** What a solve delivers to its handler. Absent fields mean "not known";
      isCancelled marks a request that was cancelled. */
  datatype Result = Result(
    fieldWidth: Option<real>,
    fieldHeight: Option<real>,
    rdJ2000: Option<AstroCoord>,
    pixelScale: Option<real>,
    rotation: Option<real>,
    isCancelled: bool)
  {
    /** A usable solution: every field present and not cancelled. */
    predicate IsValid() {
      fieldWidth.Some? && fieldHeight.Some? && rdJ2000.Some? && pixelScale.Some? && rotation.Some?
      && !isCancelled
    }

    /** True when no optional field is present. */
    predicate IsEmpty() {
      fieldWidth.None? && fieldHeight.None? && rdJ2000.None? && pixelScale.None? && rotation.None?
    }
  }

  /** A default-constructed Result ("attempted and failed"). */
  function DefaultResult(): (r: Result)
    ensures r.IsEmpty() && !r.isCancelled
    ensures !r.IsValid()
  {
    Result(None, None, None, None, None, false)
  }

  /** A default Result with only the cancellation marker set. */
  function CancelledResult(): (r: Result)
    ensures r.IsEmpty() && r.isCancelled
    ensures !r.IsValid()
    ensures r != DefaultResult()
  {
    Result(None, None, None, None, None, true)
  }

  /** The five optional fields of a Result. */
  datatype Field = FieldWidth | FieldHeight | RdJ2000 | PixelScale | Rotation

  /** `r` with field `f` reset to absent. */
  function Without(r: Result, f: Field): (d: Result)
    ensures d.isCancelled == r.isCancelled
  {
    match f
    case FieldWidth => r.(fieldWidth := None)
    case FieldHeight => r.(fieldHeight := None)
    case RdJ2000 => r.(rdJ2000 := None)
    case PixelScale => r.(pixelScale := None)
    case Rotation => r.(rotation := None)
  }

  /** Whether field `f` of `r` is present. */
  predicate Has(r: Result, f: Field) {
    match f
    case FieldWidth => r.fieldWidth.Some?
    case FieldHeight => r.fieldHeight.Some?
    case RdJ2000 => r.rdJ2000.Some?
    case PixelScale => r.pixelScale.Some?
    case Rotation => r.rotation.Some?
  }

  /** isValid holds exactly when every field is present and the result is not cancelled. */
  lemma ValidIffComplete(r: Result)
    ensures r.IsValid() <==> (forall f: Field :: Has(r, f)) && !r.isCancelled
  {
    if (forall f: Field :: Has(r, f)) && !r.isCancelled {
      assert Has(r, FieldWidth) && Has(r, FieldHeight) && Has(r, RdJ2000);
      assert Has(r, PixelScale) && Has(r, Rotation);
    }
  }

  /** A cancelled Result is never valid, whatever fields it carries. */
  lemma CancelledNeverValid(r: Result)
    requires r.isCancelled
    ensures !r.IsValid()
  {
  }

  /** Dropping any one field of a valid Result makes it invalid. */
  lemma DroppingAFieldInvalidates(r: Result, f: Field)
    requires r.IsValid()
    ensures !Has(Without(r, f), f)
    ensures !Without(r, f).IsValid()
  {
  }
}
