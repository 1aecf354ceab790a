/**
 * The .NET exceptions the core throws, each with the parameter name it
 * reports, and the outcome of a mutator that either returns normally or
 * throws.
 */
module Exceptions {

  datatype Error =
    | ArgumentNull(paramName: string)        // ArgumentNullException
    | Argument(paramName: string)            // ArgumentException
    | ArgumentOutOfRange(paramName: string)  // ArgumentOutOfRangeException
    | TargetParameterCount                   // reflection: an indexer read without index arguments

  datatype Outcome = Pass | Fail(error: Error)
}
