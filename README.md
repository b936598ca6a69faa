# Level-gated logger, modelled in Dafny

This project models the core of the Go package `log` (morelj/log). That core is a leveled-logging facade. A `Logger` keeps one real sink per severity level (Debug, Info, Warn, Error), one discard sink and a current minimum level. It also keeps a four-slot `active` array that sends each level either to its real sink or to the discard sink. `SetLevel` checks its argument, stores it, and rewrites all four slots. The emission methods each forward to one fixed slot. The discard sink writes through `nilWriter`, which accepts every buffer and reports it as written in full.

Files:

- `wrappers.dfy`: the `Option`, `Result` and `Outcome` datatypes.
- `nilwriter.dfy` (module `NilWriter`): `nilWriter.Write` as a pure function on byte sequences, the `io.Writer` contract, and lemmas about sequences of writes.
- `logger.dfy` (module `Log`): level constants, labels and colours, `getPrefix`, and the class `Logger`. The class has fields `zero`, `loggers`, `level` and `active` (an `array<Sink>`), plus `trace`, the lines written to the destination stream so far.

Modelling choices:

- `Level` is Go's `uint8`, so it is the subset type 0..255. Level 4 (`levelCount`) and above are invalid. The test `level < 0` in `SetLevel` (logger.go:73) can never hold for a `uint8`, so only the upper bound decides.
- The panic in `SetLevel` becomes the result `Fail(InvalidLevel(x))`. On that path the state is unchanged, because the Go code panics before it assigns anything. `New` panics exactly when `SetLevel` does, so it returns `Failure(InvalidLevel(level))`. Indexing `active` past its end in `For` is a Go runtime panic, modelled as `Failure(IndexOutOfRange(l))`.
- `zero`, `loggers` and the `active` array reference are `const`. The Go code never reassigns them after `New`, so neither `SetLevel` nor any emission method can change them.
- A sink is `Real(lvl, prefix)` or `Zero`. An enabled emission appends `Line(sink, call)` to `trace`. A disabled one goes to `Zero` and leaves `trace` unchanged.
- `isTTY(out)` becomes the constructor parameter `hasColors`. `color.Colorize` becomes a function parameter `colorize`, and the colour constants become the datatype `Color`.
- Each `New` builds its own `zero` (logger.go:40), so no discard sink is shared between Loggers. Sink identity is not modelled.
- `Label` and `LevelColor` give the four label literals and colour constants of logger.go:42-45. `Delivered(l, call)` is the specification of one emission: one line from `loggers[l]` when `l` is enabled, none otherwise. It is defined from `IsEnabled` and `loggers`, not from `active`.

## Model

| member | source | states |
|---|---|---|
| `NilWriter.Write` | nilwriter.go:7-9 | every buffer, the empty one included, is reported as written in full (`n == len(p)`) with no error |
| `NilWriter.WriteAcceptsAll` | nilwriter.go:7-11 | every result of `Write` meets the `io.Writer` contract: the count lies in 0..len(p), and a short count comes with an error |
| `NilWriter.NeverFails` | nilwriter.go:7-11 | no write in any sequence of writes reports an error |
| `NilWriter.ReportedIsTotalLength` | nilwriter.go:7-9 | over any sequence of writes, the total reported count equals the sum of the buffer lengths, which is the count of one write of their concatenation |
| `Log.GetPrefix` | logger.go:199-204 | without colours the prefix is the label unchanged; with colours it is the label coloured by `colorize` |
| `Log.LabelsAndColorsDistinct` | logger.go:41-46 | each level label is six characters wide; different levels get different labels and different colours |
| `Log.Loggers` | logger.go:41-46 | four real sinks, sink `l` at level `l`, whose prefix is the plain label when there are no colours and the label coloured with the level's colour otherwise |
| `Log.Logger.Build` | logger.go:39-47 | the struct literal: the four real sinks, a discard sink, four slots, an empty destination |
| `Log.Logger.New` | logger.go:34-51 | succeeds iff the initial level is below 4 and otherwise fails with `InvalidLevel`; on success the Logger is fresh, valid, at that level, with the real sinks of `Loggers` and nothing written |
| `Log.Logger.IsEnabled` | logger.go:53-56 | enabling a level enables the next level up; with a valid current level, Error and every level above it are enabled |
| `Log.Logger.Resolve` | logger.go:63-68 | gives the discard sink exactly when the level is not enabled, and otherwise the real sink of that same level |
| `Log.Logger.For` | logger.go:58-61 | fails with `IndexOutOfRange` exactly for levels past Error; otherwise it returns the real sink of an enabled level and the discard sink of a disabled one, so it yields `Zero` iff the level is not enabled |
| `Log.Logger.SetLevel` | logger.go:63-81 | accepted iff `x < 4`; when rejected, returns `InvalidLevel(x)` and leaves level and slots unchanged; when accepted, the level becomes `x`, slot `l` holds `loggers[l]` when `x <= l` and `zero` otherwise, and the router invariant holds |
| `Log.Logger.Level` | logger.go:83-86 | the current level is below 4, is enabled, and no lower level is enabled: it is the least enabled level |
| `Log.Logger.Emit` | logger.go:88-91 | forwarding through one slot appends one line from that level's real sink when the level is enabled and nothing otherwise; the invariant is kept |
| `Log.Logger.Debug` | logger.go:88-91 | a Print-style Debug message reaches the destination through the Debug sink iff Debug is enabled |
| `Log.Logger.Debugln` | logger.go:93-96 | the same for the Println shape |
| `Log.Logger.Debugf` | logger.go:98-101 | the same for the Printf shape |
| `Log.Logger.Info` | logger.go:103-106 | a Print-style Info message reaches the destination through the Info sink iff Info is enabled |
| `Log.Logger.Infoln` | logger.go:108-111 | the same for the Println shape |
| `Log.Logger.Infof` | logger.go:113-116 | the same for the Printf shape |
| `Log.Logger.Warn` | logger.go:118-121 | a Print-style Warn message reaches the destination through the Warn sink iff Warn is enabled |
| `Log.Logger.Warnln` | logger.go:123-126 | the same for the Println shape |
| `Log.Logger.Warnf` | logger.go:128-131 | the same for the Printf shape |
| `Log.Logger.Error` | logger.go:133-136 | a Print-style Error message reaches the destination through the Error sink iff Error is enabled |
| `Log.Logger.Errorln` | logger.go:138-141 | the same for the Println shape |
| `Log.Logger.Errorf` | logger.go:143-146 | the same for the Printf shape |
| `Log.Logger.Print` | logger.go:148-151 | routes exactly as `Info`: through the Info slot |
| `Log.Logger.Printf` | logger.go:153-156 | routes exactly as `Infof` |
| `Log.Logger.Println` | logger.go:158-161 | routes exactly as `Infoln` |
| `Log.Logger.Fatal` | logger.go:163-167 | writes through the Error slot, then always terminates with exit status 1 |
| `Log.Logger.Fatalf` | logger.go:169-173 | the same for the Printf shape |
| `Log.Logger.Fatalln` | logger.go:175-179 | the same for the Println shape |
| `Log.Logger.Panic` | logger.go:181-185 | writes through the Error slot, then always panics with the formatted message |
| `Log.Logger.Panicf` | logger.go:187-191 | the same for the Printf shape |
| `Log.Logger.Panicln` | logger.go:193-197 | the same for the Println shape |
| `Log.EnabledIsUpwardClosed` | logger.go:53-56 | if a level is enabled, so is every level above it |
| `Log.SlotRealIffEnabled` | logger.go:63-68 | in a valid Logger, slot `l` holds a real sink iff `l` is enabled, and that sink is the one of level `l` |
| `Log.ErrorSlotIsReal` | logger.go:72-80 | in every valid Logger (after `New` or any accepted `SetLevel`), Error is enabled and its slot and `For(Error)` give the real Error sink |
| `Log.SetLevelTwice` | logger.go:72-81 | calling `SetLevel` twice with the same value gives the same outcome, level and slots as calling it once |
| `Log.WarnScenario` | logger.go:118-136 | a Logger at Warn that receives Debug "x", Info "y", Warn "z" and Error "w" writes the lines for "z" and "w" only, in that order |

## Left out

- `isTTY` (logger.go:206-216) runs an OS `Stat` on the destination. It is replaced by the boolean `hasColors` given to the constructor.
- `color.Colorize` and the colour codes belong to a foreign library. `colorize` is a function parameter with no assumed properties, and the colours are a four-value datatype.
- The standard `log.Logger` is not modelled: timestamps, flags, formatting of `interface{}` operands, and writing bytes to the destination. A call is recorded as its shape and its operands already rendered as text.
- The discard sink formats each message and passes the bytes to `nilWriter.Write`. Those bytes are not modelled. A disabled emission simply leaves `trace` unchanged, which matches `NilWriter.Write` keeping nothing.
- `Fatal*` and `Panic*` return a `Termination` value instead of calling `os.Exit` or propagating a panic.
- Before `SetLevel` runs inside `New`, Go leaves the four slots nil. The model fills them with `Zero`. `New` either overwrites all four or fails, so no caller ever sees them.
- default.go only holds a package-level instance built at `LevelDebug` (default.go:5) and forwarding wrappers with no logic of their own, so it is not part of this model.
- helper.go `JSON`/`JSONIndent` are wrappers over `encoding/json` and `fmt.Sprintf`, which are foreign calls, so they are not part of this model.
- Concurrency: the source has no synchronisation, and races between `SetLevel` and emitters are not modelled.
