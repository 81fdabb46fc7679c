/** Errors raised by the Hansa core and a result type that carries them. */
module Common {

  /** The exceptions the Ruby code raises, one constructor per kind. */
  datatype Error =
    | OutOfBounds        // Position::OutOfBounds
    | KeyError           // Hash#fetch on a missing key
    | NoLandRoute        // "no land route from ..."
    | NoRiverRoute       // "no river route from ..."
    | NoSeaRoute         // "no sea route from ..."
    | NoCandidates       // "No candidates for ..." from the name selectors
    | LaborShortfall     // City::LaborShortfall
    | UnexpectedDim      // "unexpected dim: ..." from Position#radial

  datatype Result<+T> = Ok(value: T) | Err(error: Error)

  datatype Option<+T> = None | Some(value: T)

  /** Ruby's `left + right` where both operands may raise: the left operand
      is evaluated first, so its exception wins. */
  function Plus(left: Result<real>, right: Result<real>): (r: Result<real>)
    ensures r.Ok? <==> left.Ok? && right.Ok?
    ensures r.Ok? ==> r.value == left.value + right.value
    ensures left.Err? ==> r == left
    ensures left.Ok? && right.Err? ==> r == right
  {
    if left.Err? then left
    else if right.Err? then right
    else Ok(left.value + right.value)
  }
}
