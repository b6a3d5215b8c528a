/** The exceptions the parameter-map bookkeeping can raise, and the wrappers that carry them. */
module Faults {

  /** A Python exception raised by the modelled code, by kind. */
  datatype Fault =
    | MissingKey(name: string)            // KeyError on a dict lookup
    | ShapeMismatch(name: string)         // elementwise arithmetic or stacking on tensors whose sizes differ
    | EmptyStack                          // torch.stack of an empty list
    | EmptyConcat                         // torch.cat of an empty list: flattening a map with no entries
    | NotBroadcastable                    // product of two flat vectors whose lengths neither agree nor are 1
    | IndexOutOfRange(index: int)         // IndexError on a list index
    | MissingAttribute(attribute: string) // AttributeError on an attribute never assigned
    | UnexpectedKeyword(keyword: string)  // TypeError for a keyword argument the callee does not declare
    | TrainingFailed                      // whatever the training routine raises

  /** Outcome of an operation that returns nothing in the source. */
  datatype Status = Done | Failed(fault: Fault)

  /** Outcome of an operation that returns a value in the source. */
  datatype Result<+T> = Success(value: T) | Failure(error: Fault)
}
