/**
 * The Ruby exception classes the modelled code raises, with their
 * superclasses: the library's own (`ScriptNotFound`, `NoScriptDirectory`,
 * `ExecutionFailure`, `QueryFailed`) and the core classes it relies on.
 */
module RubyErrors {
  import opened Wrappers

  datatype ErrorClass =
    | Exception
    | StandardError
    | RuntimeError
    | ArgumentError
    | TypeError
    | NameError
    | NoMethodError
    | ScriptNotFound
    | NoScriptDirectory
    | ExecutionFailure
    | QueryFailed

  /** The declared superclass of each class; `Exception` is the root. */
  function Superclass(c: ErrorClass): Option<ErrorClass>
  {
    match c
    case Exception => None
    case StandardError => Some(Exception)
    case RuntimeError => Some(StandardError)
    case ArgumentError => Some(StandardError)
    case TypeError => Some(StandardError)
    case NameError => Some(StandardError)
    case NoMethodError => Some(NameError)
    case ScriptNotFound => Some(StandardError)
    case NoScriptDirectory => Some(ArgumentError)
    case ExecutionFailure => Some(RuntimeError)
    case QueryFailed => Some(RuntimeError)
  }

  /** Distance from `Exception` along the superclass chain. */
  function Depth(c: ErrorClass): nat
  {
    match c
    case Exception => 0
    case StandardError => 1
    case RuntimeError | ArgumentError | TypeError | NameError | ScriptNotFound => 2
    case NoMethodError | NoScriptDirectory | ExecutionFailure | QueryFailed => 3
  }

  /** `c <= k` in Ruby: `k` is `c` or one of its ancestors, so `rescue k` catches a `c`. */
  predicate IsA(c: ErrorClass, k: ErrorClass)
    decreases Depth(c)
  {
    c == k || (Superclass(c).Some? && IsA(Superclass(c).value, k))
  }

  /** Every class is a kind of `Exception`. */
  lemma {:induction false} AllAreExceptions(c: ErrorClass)
    ensures IsA(c, Exception)
    decreases Depth(c)
  {
    if c != Exception {
      AllAreExceptions(Superclass(c).value);
    }
  }

  /** A per-query failure and a failed `$eval` are runtime errors; neither is an `ArgumentError`. */
  lemma FailuresAreRuntimeErrors()
    ensures IsA(QueryFailed, RuntimeError) && IsA(QueryFailed, StandardError)
    ensures IsA(ExecutionFailure, RuntimeError)
    ensures !IsA(QueryFailed, ArgumentError) && !IsA(ScriptNotFound, RuntimeError)
  {
  }
}
