/**
 * The ways an operation of the runtime can fail.  The Go runtime panics,
 * calls os.Exit or silently produces garbage in these situations; the model
 * turns each of them into an explicit error value instead.
 */
module Faults {

  datatype Fault =
    | NilDereference                 // a message sent to Go nil (ref 0)
    | TypeAssertion(want: string)    // a failed `x.(*T)` assertion
    | IndexOutOfRange                // a Go slice index outside 0..len-1
    | SliceBounds                    // `s[low:high]` with bad bounds
    | NoResult(message: string)      // `rets[0]` on an empty result slice
    | DivideByZero                   // integer division or remainder by zero
    | OutsideExactFloatRange         // a float64 round trip that may round
    | Unmodelled(what: string)       // behaviour the model leaves out
    | StackOverflow                  // unbounded recursion in Go
    | EmptyStack                     // pop from the empty operand stack
    | UnboundIdentifier(name: string)
    | LiteralError(text: string)
    | OutOfFuel                      // the evaluator's step bound ran out
}
