/** The exceptions the listener can raise while collecting and dispatching hooks. */
module Errors {

  datatype Error =
    | NotIterable                        // a true number or boolean setting cannot extend the command list
    | NotAMapping                        // a command descriptor that has no `get`
    | UnrecognizedScope(message: string) // a `scope` other than 'app' or 'window'
    | MissingCommand                     // a descriptor without a 'command' key
}
