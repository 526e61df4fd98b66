# go-logging dispatch core, modelled in Dafny

This project models the level-filtered dispatch engine of the `logging` Go
package (`logging.go`):

- the five severity levels `DEBUG`=0 … `FATAL`=4 and the `logLevels`
  name-to-rank table (module `Levels`);
- `NewHandler`, which builds a `LogHandler` from a level given as an int or as
  a name and refuses anything else (module `Handlers`);
- `formatLevel`, which prefixes a message with its level label (module
  `Format`);
- the root logger, an append-only list of handlers with one leveled call per
  level; each call walks the handlers in registration order and emits to
  every handler whose `Level` is at most the call's rank (module `Dispatch`,
  class `RootLogger`);
- the lazily created singleton reached through `Get` and the package-level
  functions that forward to it (module `Logging`, class `Package`).

`emit` is modelled as a trace entry, not as written bytes. A leveled call
returns the sequence of `Emission(index, writer, format, args)` records it
made, in order. `index` is the handler's position in the registration
list. `format` is the string passed to `Printf`. `args` are the caller's
variadic arguments, unrendered. The leveled methods have no `modifies`
clause, so Dafny checks that they leave the handler list unchanged.

`FanOut` is the reference definition of a call's trace. `Delivers` describes
the same trace independently:

- every entry goes to an admitting handler, through that handler's writer;
- entries follow registration order, so no list position is reached twice;
  a handler registered twice is reached once per registration;
- every admitting handler is reached.

`FanOutDelivers` and `DeliversOnlyFanOut` prove that the two agree in both
directions. `RootLogger.Dispatch` is the loop every leveled call runs, and
its contract ties that loop to both.

Behaviour of the code worth noting:

- With no handlers registered, a leveled call emits nothing (logging.go:98).
  There is no implicit default handler.
- A level that is absent (a nil interface value) is refused like any
  other non-int, non-string value. It does not default to DEBUG.
- `SetFormatter` is not defined in `logging.go`, so it is not modelled.
- `Warn` prints under the label `WARNING`, while the table name is `WARN`.
  `NewHandler` refuses the name `WARNING` (`Handlers.NameLookupIsExact`).

## Model

| member | source | states |
|---|---|---|
| `Levels.LevelTable` | logging.go:11-25 | The constants rise strictly from DEBUG=0 to FATAL=4. The table has exactly the five names, each maps to its own constant, and each entry is a valid rank that `NameOf` maps back to the name. |
| `Levels.NameOf` | logging.go:19-25 | Every valid rank has a table name that maps to that rank. |
| `Levels.RanksAreDistinct` | logging.go:19-25 | No two table names share a rank. |
| `Handlers.NewHandler` | logging.go:71-87 | Success exactly for an int in [DEBUG, FATAL] or a string key of the table. The handler's level is the int, or the table's rank for the name, and is always valid. It keeps the given writer. Refusals carry the `log.Fatal` message of their branch: unsupported level for ints and strings, wrong type otherwise. |
| `Handlers.Admits` | logging.go:97-136 | The threshold test `handler.Level <= rank` in each of the five leveled calls (lines 99, 107, 116, 124, 132). It has no contract of its own; `Dispatch.FanOutRecipients` and `Dispatch.FanOutMonotone` state what it decides. |
| `Handlers.NameAndRankAgree` | logging.go:73-82 | Naming a level and giving its rank build the same handler, and naming succeeds. |
| `Handlers.EveryLevelHasName` | logging.go:78-82 | Every valid rank can be configured by its table name. |
| `Handlers.NameLookupIsExact` | logging.go:79-80 | The name lookup is case-sensitive and exact: "debug", "Info" and "WARNING" are refused. |
| `Format.FormatLevel` | logging.go:93-95 | `formatLevel`: the label, then ": ", then the message. It has no contract of its own; its meaning is carried by `Format.SplitFormatLevel`. |
| `Format.SplitFormatLevel` | logging.go:93-95 | For a colon-free label, the label and the message can be read back from `formatLevel(label, message)`. |
| `Format.LabelsAreRecoverable` | logging.go:93-136 | The five printed labels DEBUG, INFO, WARNING, ERROR and FATAL each round-trip through the format string. For one message, no two of them give the same format string. |
| `Dispatch.FanOut` | logging.go:97-136 | A call emits at most once per list position, every emission names a registered list position, and emissions come in increasing position order. A handler registered twice gets one emission per registration. |
| `Dispatch.FanOutOnlyAdmitting` | logging.go:97-136 | Every emission goes to a handler whose level is at most the call's rank, through its writer, with `formatLevel(label, message)` and the call's args. |
| `Dispatch.FanOutReachesAll` | logging.go:98-99 | Every handler whose level is at most the call's rank is reached. |
| `Dispatch.FanOutDelivers` | logging.go:97-136 | The fan-out meets all three parts of the `Delivers` description. |
| `Dispatch.DeliversOnlyFanOut` | logging.go:97-136 | Any trace meeting the `Delivers` description is the fan-out, so the description fixes the trace. |
| `Dispatch.FanOutRecipients` | logging.go:98-99 | The set of handlers reached is exactly the set whose level is at most the call's rank. |
| `Dispatch.FanOutMonotone` | logging.go:97-136 | A handler reached at one rank is reached at every higher rank. |
| `Dispatch.FatalReachesAll` | logging.go:130-135 | If every registered handler has a valid level, a FATAL call emits once per list position, to every position, in order. |
| `Dispatch.FanOutAfterAdd` | logging.go:89-91 | After one more handler is registered, a call emits what it emitted before, plus one final emission to the new handler exactly when its level admits the rank. |
| `Dispatch.RootLogger.constructor` | logging.go:53 | A new root logger has no handlers. |
| `Dispatch.RootLogger.AddHandler` | logging.go:89-91 | The new list is the old list followed by `h`. Duplicates are kept. |
| `Dispatch.RootLogger.Dispatch` | logging.go:97-136 | The loop's trace equals `FanOut` and meets `Delivers`. With no handlers it emits nothing. The handler list is unchanged. |
| `Dispatch.RootLogger.Debug` | logging.go:97-103 | Fan-out at DEBUG under label "DEBUG". If every level is valid, it reaches exactly the DEBUG-level handlers. |
| `Dispatch.RootLogger.Info` | logging.go:105-112 | Fan-out at INFO under label "INFO". |
| `Dispatch.RootLogger.Warn` | logging.go:114-120 | Fan-out at WARN under label "WARNING". |
| `Dispatch.RootLogger.Error` | logging.go:122-128 | Fan-out at ERROR under label "ERROR". |
| `Dispatch.RootLogger.Fatal` | logging.go:130-136 | Fan-out at FATAL under label "FATAL". If every level is valid, it emits once per list position, to every position, in order. It returns normally. |
| `Logging.Package.constructor` | logging.go:47 | At program start no root logger exists. |
| `Logging.Package.Get` | logging.go:50-56 | The first call creates an empty root logger. Later calls return the stored one. The handlers are unchanged. |
| `Logging.Package.GetIsIdempotent` | logging.go:51-56 | Two successive calls to `Get` return the same instance. |
| `Logging.Package.AddHandler` | logging.go:140-143 | Forwards to the root logger: its handlers become the old ones followed by `h`. |
| `Logging.Package.Debug` | logging.go:145-148 | Forwards to the root logger's `Debug`. The root logger stays the same object once created, and its handlers are unchanged. |
| `Logging.Package.Info` | logging.go:150-153 | Forwards to the root logger's `Info`. The root logger stays the same object once created, and its handlers are unchanged. |
| `Logging.Package.Warn` | logging.go:155-158 | Forwards to the root logger's `Warn`. The root logger stays the same object once created, and its handlers are unchanged. |
| `Logging.Package.Error` | logging.go:160-163 | Forwards to the root logger's `Error`. The root logger stays the same object once created, and its handlers are unchanged. |
| `Logging.Package.Fatal` | logging.go:165-168 | Forwards to the root logger's `Fatal`. The root logger stays the same object once created, and its handlers are unchanged. |
| `Logging.RegisterThenLog` | tests/main.go:12-20 | A DEBUG handler registered through the package gets exactly one emission from each of Debug, Info, Warn and Error, with the labelled format string. |

## Left out

- Printf substitution: `emit` hands the format string and args to `log.Logger.Printf` (logging.go:67). The model records both but does not render them.
- The date, time and microsecond prefix that `log.New(w, "", log.Ldate|log.Ltime|log.Lmicroseconds)` adds (logging.go:77, 82). It depends on the clock. A handler's writer is known only by identity.
- The `fmt.Printf("%d", len(a))` inside `Info` (logging.go:108). It writes the argument count to standard output and is not part of dispatch.
- Process exit: `log.Fatal` in `NewHandler` (logging.go:75, 80, 84) ends the process. The model returns a `Failure` carrying the printed message instead. The trailing `return &LogHandler{}, errors.New(...)` (logging.go:86) cannot be reached in Go and has no counterpart.
- Concurrency: `sync.Once` in `Get` (logging.go:48, 52) and the unused `mu` and `initialized` (logging.go:27-28). `Get` is modelled as sequential lazy initialisation.
- The unused `Interface` type, the `loggers` map and the `rootLogger.formatter` field (logging.go:31-39, 44, 58).
- Handler aliasing: Go registers `*LogHandler` references whose exported `Level` could be changed after registration. The model registers handler values, so a later change to a registered handler is not modelled.
- The template formatters in formatter.go and formatter/formatter.go are not part of this model. They wrap `text/template`, `runtime.Caller` and `time.Now`.
- `SetFormatter`, called in tests/main.go:22 and 28, is not defined in logging.go and is not modelled.
- Nil handlers: Go's `AddHandler` takes a `*LogHandler` and accepts nil (logging.go:89-91). A later leveled call emits to the earlier handlers, then panics when it reads `handler.Level` on the nil entry (logging.go:99). The exported fields also allow `&LogHandler{Level: 0}`, whose nil `Writer` panics in `emit` (logging.go:67). In the model a `Handler` is a value that cannot be nil and always has a writer, so neither panic exists.
