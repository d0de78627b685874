/** Option, Result and Outcome for the values the units may lack, and the
    errors their setters and runs raise. */
module Wrappers {

  datatype Option<+T> = None | Some(value: T)

  /** Every `ValueError` the modelled units raise, by cause. */
  datatype Error =
    | ShapeMismatch(expected: nat, length: nat)    // a state vector of the wrong length
    | EmptySplitKeys                                // `split_keys` is empty at construction
    | SplitKeysResized(size: nat, outs: nat)        // `split_keys` set to a different size
    | NotIterable                                   // a split key that is neither a string nor iterable
    | DuplicateComponent(id: string)                // a component listed in two split groups
    | UnknownComponent(id: string)                  // a component ID not in the registry
    | NoSuchOutlet(index: nat)                      // an output index past the last output
    | InvalidPumpType(pumpType: string)             // a pump type outside the valid list

  datatype Result<+T> = Success(value: T) | Failure(error: Error)

  datatype Outcome = Pass | Fail(error: Error)
}
