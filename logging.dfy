/**
  The package-level surface: the lazily created root logger reached through
  `Get`, and the package functions that forward to it (logging.go:47-56,
  138-168). The package's variables are the fields of `Package`.
 */
module Logging {
  import opened Levels
  import opened Handlers
  import opened Format
  import opened Dispatch

  class Package {
    /** The package variable `instance`; null until `Get` first runs. */
    var instance: RootLogger?

    /** Program start: no root logger exists yet. */
    constructor ()
      ensures instance == null
    {
      instance := null;
    }

    /** The handlers of the root logger, or none while it does not exist yet. */
    function Handlers(): seq<Handler>
      reads this, instance
    {
      if instance == null then [] else instance.handlers
    }

    /** `Get`: the first call creates an empty root logger; every call returns the one instance. */
    method Get() returns (r: RootLogger)
      modifies this
      ensures old(instance) != null ==> r == old(instance)
      ensures old(instance) == null ==> fresh(r) && r.handlers == []
      ensures instance == r
      ensures Handlers() == old(Handlers())
    {
      if instance == null {
        instance := new RootLogger();
      }
      r := instance;
    }

    /** Two successive calls to `Get` return the same instance. */
    method GetIsIdempotent() returns (first: RootLogger, second: RootLogger)
      modifies this
      ensures first == second && instance == first
    {
      first := Get();
      second := Get();
    }

    /** Package `AddHandler`: appends to the root logger's list. */
    method AddHandler(h: Handler)
      modifies this, instance
      ensures instance != null && (old(instance) != null ==> instance == old(instance))
      ensures Handlers() == old(Handlers()) + [h]
    {
      var root := Get();
      root.AddHandler(h);
    }

    /** Package `Debug`: the root logger's `Debug`, leaving its handlers as they were. */
    method Debug(message: string, args: seq<Value>) returns (out: seq<Emission>)
      modifies this
      ensures instance != null && (old(instance) != null ==> instance == old(instance))
      ensures Handlers() == old(Handlers())
      ensures out == FanOut(Handlers(), DEBUG, "DEBUG", message, args)
    {
      var root := Get();
      out := root.Debug(message, args);
    }

    /** Package `Info`. */
    method Info(message: string, args: seq<Value>) returns (out: seq<Emission>)
      modifies this
      ensures instance != null && (old(instance) != null ==> instance == old(instance))
      ensures Handlers() == old(Handlers())
      ensures out == FanOut(Handlers(), INFO, "INFO", message, args)
    {
      var root := Get();
      out := root.Info(message, args);
    }

    /** Package `Warn`. */
    method Warn(message: string, args: seq<Value>) returns (out: seq<Emission>)
      modifies this
      ensures instance != null && (old(instance) != null ==> instance == old(instance))
      ensures Handlers() == old(Handlers())
      ensures out == FanOut(Handlers(), WARN, "WARNING", message, args)
    {
      var root := Get();
      out := root.Warn(message, args);
    }

    /** Package `Error`. */
    method Error(message: string, args: seq<Value>) returns (out: seq<Emission>)
      modifies this
      ensures instance != null && (old(instance) != null ==> instance == old(instance))
      ensures Handlers() == old(Handlers())
      ensures out == FanOut(Handlers(), ERROR, "ERROR", message, args)
    {
      var root := Get();
      out := root.Error(message, args);
    }

    /** Package `Fatal`. */
    method Fatal(message: string, args: seq<Value>) returns (out: seq<Emission>)
      modifies this
      ensures instance != null && (old(instance) != null ==> instance == old(instance))
      ensures Handlers() == old(Handlers())
      ensures out == FanOut(Handlers(), FATAL, "FATAL", message, args)
    {
      var root := Get();
      out := root.Fatal(message, args);
    }
  }

  /**
    The usage in tests/main.go: one DEBUG handler registered through the
    package, then one call at each of DEBUG, INFO, WARN and ERROR. Each call
    reaches that handler once, with the labelled format string.
   */
  method RegisterThenLog(w: Writer) returns (traces: seq<seq<Emission>>)
    ensures traces == [
      [Emission(0, w, FormatLevel("DEBUG", "Testing a debug message"), [])],
      [Emission(0, w, FormatLevel("INFO", "Testing an info message"), [])],
      [Emission(0, w, FormatLevel("WARNING", "Testing a warning meesage"), [])],
      [Emission(0, w, FormatLevel("ERROR", "Testing an error message"), [])]]
  {
    var pkg := new Package();
    var made := NewHandler(IntValue(DEBUG), w);
    var handler := made.value;
    pkg.AddHandler(handler);
    assert pkg.Handlers() == [handler];
    var d := pkg.Debug("Testing a debug message", []);
    FanOutSingle(handler, DEBUG, "DEBUG", "Testing a debug message", []);
    assert d == [Emission(0, w, FormatLevel("DEBUG", "Testing a debug message"), [])];
    var i := pkg.Info("Testing an info message", []);
    FanOutSingle(handler, INFO, "INFO", "Testing an info message", []);
    assert i == [Emission(0, w, FormatLevel("INFO", "Testing an info message"), [])];
    var wn := pkg.Warn("Testing a warning meesage", []);
    FanOutSingle(handler, WARN, "WARNING", "Testing a warning meesage", []);
    assert wn == [Emission(0, w, FormatLevel("WARNING", "Testing a warning meesage"), [])];
    var e := pkg.Error("Testing an error message", []);
    FanOutSingle(handler, ERROR, "ERROR", "Testing an error message", []);
    assert e == [Emission(0, w, FormatLevel("ERROR", "Testing an error message"), [])];
    traces := [d, i, wn, e];
  }
}
