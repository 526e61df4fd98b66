/**
  The root logger: an append-only list of handlers and the five leveled
  calls, each of which walks the handlers in registration order and emits
  to those whose level admits the call's rank (logging.go:41-45, 89-136).

  Emitting is modelled as producing a trace entry rather than writing
  bytes: a leveled call returns the sequence of `emit` calls it made.
 */
module Dispatch {
  import opened Levels
  import opened Handlers
  import opened Format

  /** One `handler.emit(format, args...)` call: which handler, where it writes, and what. */
  datatype Emission = Emission(index: nat, writer: Writer, format: string, args: seq<Value>)

  /**
    The emissions of a leveled call at `rank` printed under `levelName`: one per
    admitting list entry, in registration order.
   */
  function FanOut(hs: seq<Handler>, rank: int, levelName: string, message: string, args: seq<Value>): (r: seq<Emission>)
    ensures |r| <= |hs|
    ensures forall k :: 0 <= k < |r| ==> r[k].index < |hs|
    ensures forall j, k :: 0 <= j < k < |r| ==> r[j].index < r[k].index
  {
    if hs == [] then []
    else
      var n := |hs| - 1;
      FanOut(hs[..n], rank, levelName, message, args)
        + (if Admits(hs[n], rank) then [Emission(n, hs[n].writer, FormatLevel(levelName, message), args)] else [])
  }

  /** Every entry goes to an admitting handler, through its writer, with the call's format and arguments. */
  ghost predicate OnlyAdmitting(hs: seq<Handler>, rank: int, format: string, args: seq<Value>, out: seq<Emission>)
  {
    forall k :: 0 <= k < |out| ==>
      out[k].index < |hs| && Admits(hs[out[k].index], rank) && out[k].writer == hs[out[k].index].writer
      && out[k].format == format && out[k].args == args
  }

  /** Entries follow registration order, so no list position is reached twice; a handler registered twice is reached once per registration. */
  ghost predicate InRegistrationOrder(out: seq<Emission>)
  {
    forall j, k :: 0 <= j < k < |out| ==> out[j].index < out[k].index
  }

  /** Every admitting handler is reached. */
  ghost predicate ReachesAll(hs: seq<Handler>, rank: int, out: seq<Emission>)
  {
    forall i :: 0 <= i < |hs| && Admits(hs[i], rank) ==> exists k :: 0 <= k < |out| && out[k].index == i
  }

  /** `out` is exactly the fan-out of a call at `rank` with format string `format`. */
  ghost predicate Delivers(hs: seq<Handler>, rank: int, format: string, args: seq<Value>, out: seq<Emission>)
  {
    OnlyAdmitting(hs, rank, format, args, out) && InRegistrationOrder(out) && ReachesAll(hs, rank, out)
  }

  /** The handlers a call reaches. */
  ghost function Recipients(out: seq<Emission>): set<nat>
  {
    set k | 0 <= k < |out| :: out[k].index
  }

  /** The handlers whose level admits `rank`. */
  ghost function Eligible(hs: seq<Handler>, rank: int): set<nat>
  {
    set i | 0 <= i < |hs| && Admits(hs[i], rank)
  }

  /** Registering one more handler adds at most one emission, at the end, for that handler. */
  lemma FanOutAfterAdd(hs: seq<Handler>, h: Handler, rank: int, levelName: string, message: string, args: seq<Value>)
    ensures FanOut(hs + [h], rank, levelName, message, args)
      == FanOut(hs, rank, levelName, message, args)
         + (if Admits(h, rank) then [Emission(|hs|, h.writer, FormatLevel(levelName, message), args)] else [])
  {
  }

  /** With a single handler that admits the rank, the call emits exactly once, to it. */
  lemma FanOutSingle(h: Handler, rank: int, levelName: string, message: string, args: seq<Value>)
    requires Admits(h, rank)
    ensures FanOut([h], rank, levelName, message, args) == [Emission(0, h.writer, FormatLevel(levelName, message), args)]
  {
  }

  lemma {:induction false} FanOutOnlyAdmitting(hs: seq<Handler>, rank: int, levelName: string, message: string, args: seq<Value>)
    ensures OnlyAdmitting(hs, rank, FormatLevel(levelName, message), args, FanOut(hs, rank, levelName, message, args))
  {
    if hs != [] {
      var n := |hs| - 1;
      FanOutOnlyAdmitting(hs[..n], rank, levelName, message, args);
      var prev := FanOut(hs[..n], rank, levelName, message, args);
      var out := FanOut(hs, rank, levelName, message, args);
      forall k | 0 <= k < |out|
        ensures out[k].index < |hs| && Admits(hs[out[k].index], rank) && out[k].writer == hs[out[k].index].writer
      {
        if k < |prev| {
          assert out[k] == prev[k];
          assert hs[..n][prev[k].index] == hs[prev[k].index];
        }
      }
    }
  }

  lemma {:induction false} FanOutReachesAll(hs: seq<Handler>, rank: int, levelName: string, message: string, args: seq<Value>)
    ensures ReachesAll(hs, rank, FanOut(hs, rank, levelName, message, args))
  {
    if hs != [] {
      var n := |hs| - 1;
      FanOutReachesAll(hs[..n], rank, levelName, message, args);
      var prev := FanOut(hs[..n], rank, levelName, message, args);
      var out := FanOut(hs, rank, levelName, message, args);
      forall i | 0 <= i < |hs| && Admits(hs[i], rank)
        ensures exists k :: 0 <= k < |out| && out[k].index == i
      {
        if i == n {
          assert out[|out| - 1].index == n;
        } else {
          assert hs[..n][i] == hs[i];
          var k :| 0 <= k < |prev| && prev[k].index == i;
          assert out[k] == prev[k];
        }
      }
    }
  }

  /** The fan-out meets the `Delivers` description. */
  lemma FanOutDelivers(hs: seq<Handler>, rank: int, levelName: string, message: string, args: seq<Value>)
    ensures Delivers(hs, rank, FormatLevel(levelName, message), args, FanOut(hs, rank, levelName, message, args))
  {
    FanOutOnlyAdmitting(hs, rank, levelName, message, args);
    FanOutReachesAll(hs, rank, levelName, message, args);
  }

  /** When the last handler is admitted, the trace ends with its emission and the rest is the fan-out over the others. */
  lemma DropAdmittedLast(hs: seq<Handler>, rank: int, format: string, args: seq<Value>, out: seq<Emission>)
    requires hs != [] && Admits(hs[|hs| - 1], rank) && Delivers(hs, rank, format, args, out)
    ensures out != [] && out[|out| - 1] == Emission(|hs| - 1, hs[|hs| - 1].writer, format, args)
    ensures Delivers(hs[..|hs| - 1], rank, format, args, out[..|out| - 1])
  {
  }

  /** When the last handler is not admitted, the trace is the fan-out over the others. */
  lemma DropSkippedLast(hs: seq<Handler>, rank: int, format: string, args: seq<Value>, out: seq<Emission>)
    requires hs != [] && !Admits(hs[|hs| - 1], rank) && Delivers(hs, rank, format, args, out)
    ensures Delivers(hs[..|hs| - 1], rank, format, args, out)
  {
  }

  /** Any trace meeting the `Delivers` description is the fan-out: the description fixes it. */
  lemma {:induction false} DeliversOnlyFanOut(hs: seq<Handler>, rank: int, levelName: string, message: string, args: seq<Value>, out: seq<Emission>)
    requires Delivers(hs, rank, FormatLevel(levelName, message), args, out)
    ensures out == FanOut(hs, rank, levelName, message, args)
  {
    if hs != [] {
      var n := |hs| - 1;
      if Admits(hs[n], rank) {
        DropAdmittedLast(hs, rank, FormatLevel(levelName, message), args, out);
        DeliversOnlyFanOut(hs[..n], rank, levelName, message, args, out[..|out| - 1]);
        assert out == out[..|out| - 1] + [out[|out| - 1]];
      } else {
        DropSkippedLast(hs, rank, FormatLevel(levelName, message), args, out);
        DeliversOnlyFanOut(hs[..n], rank, levelName, message, args, out);
      }
    }
  }

  /** A call reaches exactly the handlers whose level admits its rank. */
  lemma FanOutRecipients(hs: seq<Handler>, rank: int, levelName: string, message: string, args: seq<Value>)
    ensures Recipients(FanOut(hs, rank, levelName, message, args)) == Eligible(hs, rank)
  {
    var out := FanOut(hs, rank, levelName, message, args);
    FanOutOnlyAdmitting(hs, rank, levelName, message, args);
    FanOutReachesAll(hs, rank, levelName, message, args);
    forall i | i in Eligible(hs, rank)
      ensures i in Recipients(out)
    {
      var k :| 0 <= k < |out| && out[k].index == i;
    }
  }

  /** A handler reached by a call at one rank is reached by calls at every higher rank. */
  lemma FanOutMonotone(hs: seq<Handler>, lo: int, hi: int, message: string, args: seq<Value>, loName: string, hiName: string)
    requires lo <= hi
    ensures Recipients(FanOut(hs, lo, loName, message, args)) <= Recipients(FanOut(hs, hi, hiName, message, args))
  {
    FanOutRecipients(hs, lo, loName, message, args);
    FanOutRecipients(hs, hi, hiName, message, args);
  }

  /** A call at FATAL reaches every registration whose level is valid, once per list position and in order. */
  lemma {:induction false} FatalReachesAll(hs: seq<Handler>, levelName: string, message: string, args: seq<Value>)
    requires forall i :: 0 <= i < |hs| ==> IsLevel(hs[i].level)
    ensures var out := FanOut(hs, FATAL, levelName, message, args);
      |out| == |hs| && forall k :: 0 <= k < |out| ==> out[k].index == k
  {
    if hs != [] {
      var n := |hs| - 1;
      assert forall i :: 0 <= i < n ==> hs[..n][i] == hs[i];
      FatalReachesAll(hs[..n], levelName, message, args);
    }
  }

  /**
    The root logger (`rootLogger`): the handlers in the order they were
    registered. Registration only appends; the leveled calls only read.
   */
  class RootLogger {
    var handlers: seq<Handler>

    /** `&rootLogger{}`: a logger with no handlers. */
    constructor ()
      ensures handlers == []
    {
      handlers := [];
    }

    /** `AddHandler`: the new list is the old one followed by `h`; duplicates are kept. */
    method AddHandler(h: Handler)
      modifies this
      ensures handlers == old(handlers) + [h]
    {
      handlers := handlers + [h];
    }

    /**
      The loop every leveled call runs: walk the handlers in order and emit
      `FormatLevel(levelName, message)` with `args` to each one that admits `rank`.
     */
    method Dispatch(rank: int, levelName: string, message: string, args: seq<Value>) returns (out: seq<Emission>)
      ensures out == FanOut(handlers, rank, levelName, message, args)
      ensures Delivers(handlers, rank, FormatLevel(levelName, message), args, out)
      ensures handlers == [] ==> out == []
    {
      out := [];
      var i := 0;
      while i < |handlers|
        invariant 0 <= i <= |handlers|
        invariant out == FanOut(handlers[..i], rank, levelName, message, args)
      {
        var handler := handlers[i];
        assert handlers[..i + 1][..i] == handlers[..i];
        if handler.level <= rank {
          out := out + [Emission(i, handler.writer, FormatLevel(levelName, message), args)];
        }
        i := i + 1;
      }
      assert handlers[..i] == handlers;
      FanOutDelivers(handlers, rank, levelName, message, args);
    }

    /** `Debug`: reaches only handlers at level DEBUG or below. */
    method Debug(message: string, args: seq<Value>) returns (out: seq<Emission>)
      ensures out == FanOut(handlers, DEBUG, "DEBUG", message, args)
      ensures Delivers(handlers, DEBUG, FormatLevel("DEBUG", message), args, out)
      ensures (forall i :: 0 <= i < |handlers| ==> IsLevel(handlers[i].level)) ==>
        Recipients(out) == set i | 0 <= i < |handlers| && handlers[i].level == DEBUG
    {
      out := Dispatch(DEBUG, "DEBUG", message, args);
      FanOutRecipients(handlers, DEBUG, "DEBUG", message, args);
    }

    /** `Info`: reaches handlers at level INFO or below. */
    method Info(message: string, args: seq<Value>) returns (out: seq<Emission>)
      ensures out == FanOut(handlers, INFO, "INFO", message, args)
      ensures Delivers(handlers, INFO, FormatLevel("INFO", message), args, out)
    {
      out := Dispatch(INFO, "INFO", message, args);
    }

    /** `Warn`: reaches handlers at level WARN or below, under the label "WARNING". */
    method Warn(message: string, args: seq<Value>) returns (out: seq<Emission>)
      ensures out == FanOut(handlers, WARN, "WARNING", message, args)
      ensures Delivers(handlers, WARN, FormatLevel("WARNING", message), args, out)
    {
      out := Dispatch(WARN, "WARNING", message, args);
    }

    /** `Error`: reaches handlers at level ERROR or below. */
    method Error(message: string, args: seq<Value>) returns (out: seq<Emission>)
      ensures out == FanOut(handlers, ERROR, "ERROR", message, args)
      ensures Delivers(handlers, ERROR, FormatLevel("ERROR", message), args, out)
    {
      out := Dispatch(ERROR, "ERROR", message, args);
    }

    /** `Fatal`: level-filtered like the others, so it reaches every handler with a valid level; it does not stop the process. */
    method Fatal(message: string, args: seq<Value>) returns (out: seq<Emission>)
      ensures out == FanOut(handlers, FATAL, "FATAL", message, args)
      ensures Delivers(handlers, FATAL, FormatLevel("FATAL", message), args, out)
      ensures (forall i :: 0 <= i < |handlers| ==> IsLevel(handlers[i].level)) ==>
        |out| == |handlers| && forall k :: 0 <= k < |out| ==> out[k].index == k
    {
      out := Dispatch(FATAL, "FATAL", message, args);
      if forall i :: 0 <= i < |handlers| ==> IsLevel(handlers[i].level) {
        FatalReachesAll(handlers, "FATAL", message, args);
      }
    }
  }
}
