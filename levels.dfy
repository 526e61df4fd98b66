/**
  The five severity levels of the logging package and the table that maps
  each level's configuration name to its rank (logging.go:11-25).
 */
module Levels {
  const DEBUG: int := 0
  const INFO: int := 1
  const WARN: int := 2
  const ERROR: int := 3
  const FATAL: int := 4

  /** Name-to-rank table used when a handler's level is given as a string. */
  const LogLevels: map<string, int> :=
    map["DEBUG" := 0, "INFO" := 1, "WARN" := 2, "ERROR" := 3, "FATAL" := 4]

  /** A rank that one of the five level constants names. */
  predicate IsLevel(rank: int) {
    DEBUG <= rank <= FATAL
  }

  /** The table name of a rank: the inverse of `LogLevels`. */
  function NameOf(rank: int): (name: string)
    requires IsLevel(rank)
    ensures name in LogLevels && LogLevels[name] == rank
  {
    if rank == DEBUG then "DEBUG"
    else if rank == INFO then "INFO"
    else if rank == WARN then "WARN"
    else if rank == ERROR then "ERROR"
    else "FATAL"
  }

  /**
    The constants increase strictly from 0 to 4, the table holds exactly the
    five names, each name maps to its own constant, and every entry of the
    table is a valid rank named back by `NameOf`, so no two names share a rank.
   */
  lemma LevelTable()
    ensures DEBUG == 0 && DEBUG < INFO < WARN < ERROR < FATAL && FATAL == 4
    ensures LogLevels.Keys == {"DEBUG", "INFO", "WARN", "ERROR", "FATAL"}
    ensures LogLevels["DEBUG"] == DEBUG && LogLevels["INFO"] == INFO && LogLevels["WARN"] == WARN
    ensures LogLevels["ERROR"] == ERROR && LogLevels["FATAL"] == FATAL
    ensures forall name :: name in LogLevels ==> IsLevel(LogLevels[name]) && NameOf(LogLevels[name]) == name
  {
  }

  /** No two table names share a rank. */
  lemma RanksAreDistinct(a: string, b: string)
    requires a in LogLevels && b in LogLevels
    requires LogLevels[a] == LogLevels[b]
    ensures a == b
  {
  }
}
