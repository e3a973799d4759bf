/** The exceptions the consumption state machine and the adapters raise. */
module Errors {
  import Patterns

  datatype Error =
    | IndexError                                          // `[-1]` of an empty transcript
    | ProtocolViolation(message: string)                  // a strict-turn adapter got an assistant-last transcript
    | CantFind(pattern: Patterns.Pattern, text: string)   // `run`: a Select pattern occurs nowhere in pending text
    | RegexNotFound(regex: string, text: string)          // `run_find`: the user regex occurs nowhere
}
