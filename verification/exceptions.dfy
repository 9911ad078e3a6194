/** The exceptions the list's methods can raise. */
module Exceptions {

  datatype PyError =
    /** `NonCallableException`: the callback is not invocable. */
    | NonCallable
    /** `NoParametersException`: the callback declares no parameter. */
    | NoParameters
    /** `TooManyParametersException`: more than 3 (4 for `reduce`) parameters. */
    | TooManyParameters
    /** `TooFewParametersReduceException`: a reducer with fewer than 2 parameters. */
    | TooFewParametersReduce
    /** Python's `AttributeError`, raised when reading `fun.__code__` of a
        callable that has no code object. */
    | AttributeError
    /** Python's `StopIteration`, leaked by `next(it)` when `reduce` has neither
        an initial value nor a first element. */
    | StopIteration
    /** Python's `NameError`: in this model raised only by `reduce` as written, whose loops
        call the unbound name `function`. */
    | NameError
    /** Python's `TypeError`: in this model raised only by `flat` as written, which hands a
        bound method (not an iterable) to the list constructor. */
    | TypeError
}
