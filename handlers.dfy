/**
  Log handlers: a destination paired with a minimum level, and the
  constructor that validates a level given as an int or as a name
  (logging.go:60-87).
 */
module Handlers {
  import opened Wrappers
  import opened Levels

  /** A Go `interface{}` value as the package sees it: an int, a string, or anything else. */
  datatype Value = IntValue(i: int) | StringValue(s: string) | OtherValue(typeName: string)

  /** The `io.Writer` a handler writes to, known only by identity. */
  datatype Writer = Writer(id: nat)

  /** A `LogHandler`: the logger wrapping its writer, and its minimum level. */
  datatype Handler = Handler(writer: Writer, level: int)

  /** The messages `log.Fatal` prints before ending the process. */
  const UnsupportedLevel: string := "Level is not supported, use INFO/DEBUG/WARN/ERROR/FATAL."
  const BadLevelType: string := "Log level should either be of type int or string"

  /** The threshold rule: a handler takes a message whose rank is at least its own level. */
  predicate Admits(h: Handler, rank: int) {
    h.level <= rank
  }

  /**
    `NewHandler`: an int level is accepted when it is a valid rank, a string
    level when it is a key of the table (exact, case-sensitive match), and
    anything else is refused. A refusal carries the message `log.Fatal`
    would print.
   */
  function NewHandler(level: Value, w: Writer): (r: Result<Handler, string>)
    ensures r.Success? <==>
      (level.IntValue? && IsLevel(level.i)) || (level.StringValue? && level.s in LogLevels)
    ensures r.Success? ==> IsLevel(r.value.level) && r.value.writer == w
    ensures r.Success? && level.IntValue? ==> r.value.level == level.i
    ensures r.Success? && level.StringValue? ==> r.value.level == LogLevels[level.s]
    ensures r.Failure? ==> r.error == (if level.OtherValue? then BadLevelType else UnsupportedLevel)
  {
    match level
    case IntValue(i) =>
      if i < DEBUG || i > FATAL then Failure(UnsupportedLevel) else Success(Handler(w, i))
    case StringValue(s) =>
      if s !in LogLevels then Failure(UnsupportedLevel)
      else
        LevelTable();
        Success(Handler(w, LogLevels[s]))
    case OtherValue(_) =>
      Failure(BadLevelType)
  }

  /** Naming a level and giving its rank build the same handler. */
  lemma NameAndRankAgree(name: string, w: Writer)
    requires name in LogLevels
    ensures NewHandler(StringValue(name), w) == NewHandler(IntValue(LogLevels[name]), w)
    ensures NewHandler(StringValue(name), w).Success?
  {
  }

  /** Every valid rank can be configured by its table name. */
  lemma EveryLevelHasName(rank: int, w: Writer)
    requires IsLevel(rank)
    ensures NewHandler(StringValue(NameOf(rank)), w) == Success(Handler(w, rank))
  {
  }

  /**
    The name lookup is exact: lower-case names are refused, and so is
    "WARNING", the label the WARN level prints under.
   */
  lemma NameLookupIsExact(w: Writer)
    ensures NewHandler(StringValue("debug"), w) == Failure(UnsupportedLevel)
    ensures NewHandler(StringValue("Info"), w) == Failure(UnsupportedLevel)
    ensures NewHandler(StringValue("WARNING"), w) == Failure(UnsupportedLevel)
  {
  }
}
