/**
  The level-gated router of logger.go.

  A Logger holds one real sink per level, one discard sink and the current
  minimum level; the four-slot `active` array routes each level to its real
  sink when the level is enabled and to the discard sink otherwise. The
  destination stream is represented by `trace`, the lines the real sinks
  have written to it, in order.
*/
module Log {
  import opened Wrappers

  /** `Level` is a Go `uint8`. */
  type Level = x: int | 0 <= x < 256

  const LevelDebug: Level := 0
  const LevelInfo: Level := 1
  const LevelWarn: Level := 2
  const LevelError: Level := 3
  /** One past the last level: the array size and the validation bound, never a valid level. */
  const LevelCount: Level := 4

  /** The colour codes the real sinks' prefixes use on a terminal. */
  datatype Color = Purple | Green | Yellow | Red

  /**
    A `*log.Logger`: one of the four real sinks, tagged with its level and
    the prefix it prints, or the discard sink that writes to `NilWriter`.
  */
  datatype Sink = Real(lvl: Level, prefix: string) | Zero

  /** The three formatting shapes the standard logger offers (`Print`, `Println`, `Printf`). */
  datatype Call =
    | Sprint(args: seq<string>)
    | Sprintln(args: seq<string>)
    | Sprintf(format: string, args: seq<string>)

  /** One line on the destination stream: the real sink that wrote it and what it was asked to format. */
  datatype Line = Line(sink: Sink, call: Call)

  /** Why a call panics. */
  datatype PanicReason = InvalidLevel(level: Level) | IndexOutOfRange(index: Level)

  /** How `Fatal*` and `Panic*` end the program. */
  datatype Termination = Exit(code: int) | Panicked(call: Call)

  /** The fixed-width label of each level. */
  function Label(l: Level): (s: string)
    requires l < LevelCount
  {
    if l == LevelDebug then "debug "
    else if l == LevelInfo then "info  "
    else if l == LevelWarn then "warn  "
    else "error "
  }

  /** The colour each level's label gets on a terminal. */
  function LevelColor(l: Level): Color
    requires l < LevelCount
  {
    if l == LevelDebug then Purple
    else if l == LevelInfo then Green
    else if l == LevelWarn then Yellow
    else Red
  }

  /**
    `getPrefix`: without colours the prefix is the label itself; with colours
    it is the label coloured by `colorize`.
  */
  function GetPrefix(prefix: string, colorCode: Color, hasColors: bool, colorize: (Color, string) -> string): (r: string)
    ensures !hasColors ==> r == prefix
    ensures hasColors ==> r == colorize(colorCode, prefix)
  {
    if hasColors then colorize(colorCode, prefix) else prefix
  }

  /** Every label is six characters wide, the four labels are distinct, and so are the four colours. */
  lemma LabelsAndColorsDistinct(a: Level, b: Level)
    requires a < LevelCount && b < LevelCount
    ensures |Label(a)| == 6
    ensures a != b ==> Label(a) != Label(b) && LevelColor(a) != LevelColor(b)
  {
  }

  /** The four real sinks `New` builds, in level order. */
  function Loggers(hasColors: bool, colorize: (Color, string) -> string): (s: seq<Sink>)
    ensures |s| == LevelCount as int
    ensures forall l: Level :: l < LevelCount ==> s[l].Real? && s[l].lvl == l
    ensures forall l: Level :: l < LevelCount ==>
      s[l].prefix == if hasColors then colorize(LevelColor(l), Label(l)) else Label(l)
  {
    [ Real(LevelDebug, GetPrefix("debug ", Purple, hasColors, colorize)),
      Real(LevelInfo, GetPrefix("info  ", Green, hasColors, colorize)),
      Real(LevelWarn, GetPrefix("warn  ", Yellow, hasColors, colorize)),
      Real(LevelError, GetPrefix("error ", Red, hasColors, colorize)) ]
  }

  class Logger {
    const zero: Sink
    const loggers: seq<Sink>
    var level: Level
    const active: array<Sink>
    /** The lines written so far to the destination stream. */
    var trace: seq<Line>

    /** The shape of a built Logger: four real sinks at their own levels, one discard sink, four slots. */
    ghost predicate Built()
    {
      |loggers| == LevelCount as int && active.Length == LevelCount as int && zero == Zero &&
      forall l: Level :: l < LevelCount ==> loggers[l].Real? && loggers[l].lvl == l
    }

    /** The router invariant: a valid level, and every slot holding what `resolve` gives for it. */
    ghost predicate Valid()
      reads this, active
    {
      Built() && level < LevelCount &&
      forall l: Level :: l < LevelCount ==> active[l] == Resolve(l)
    }

    /** The struct literal of `New`, before its level is set. */
    constructor Build(hasColors: bool, colorize: (Color, string) -> string)
      ensures Built() && fresh(active)
      ensures loggers == Loggers(hasColors, colorize) && level == LevelDebug && trace == []
    {
      zero := Zero;
      loggers := Loggers(hasColors, colorize);
      level := LevelDebug;
      // Go leaves these slots nil; SetLevel overwrites all four before New returns.
      active := new Sink[LevelCount](_ => Zero);
      trace := [];
    }

    /** `New`: builds the sinks and applies the initial level, panicking as `SetLevel` does. */
    static method New(hasColors: bool, colorize: (Color, string) -> string, level: Level)
      returns (r: Result<Logger, PanicReason>)
      ensures r.Success? <==> level < LevelCount
      ensures r.Failure? ==> r.error == InvalidLevel(level)
      ensures r.Success? ==> fresh(r.value) && fresh(r.value.active) && r.value.Valid()
      ensures r.Success? ==> r.value.level == level && r.value.trace == []
      ensures r.Success? ==> r.value.loggers == Loggers(hasColors, colorize)
    {
      var l := new Logger.Build(hasColors, colorize);
      var outcome := l.SetLevel(level);
      if outcome.Fail? {
        return Failure(outcome.error);
      }
      return Success(l);
    }

    /**
      `IsEnabled`: enabling a level enables the next one up, and with a valid
      current level the Error level (and anything above it) is enabled.
    */
    predicate IsEnabled(l: Level)
      reads this
      ensures IsEnabled(l) && l < 255 ==> IsEnabled(l + 1)
      ensures level < LevelCount && LevelError <= l ==> IsEnabled(l)
      decreases 255 - l
    {
      level <= l
    }

    /** `For`: the sink currently wired for a level; an index past the array panics. */
    function For(l: Level): (r: Result<Sink, PanicReason>)
      reads this, active
      requires Valid()
      ensures r.Success? <==> l < LevelCount
      ensures r.Failure? ==> r.error == IndexOutOfRange(l)
      ensures r.Success? ==> r.value == if IsEnabled(l) then loggers[l] else zero
      ensures r.Success? ==> (r.value == Zero <==> !IsEnabled(l))
    {
      if l < LevelCount then Success(active[l]) else Failure(IndexOutOfRange(l))
    }

    /** `resolve`: the real sink of level `l` when `l` is enabled, the discard sink otherwise. */
    function Resolve(l: Level): (s: Sink)
      reads this
      requires Built() && l < LevelCount
      ensures s.Zero? <==> !IsEnabled(l)
      ensures s.Real? ==> s == loggers[l] && s.lvl == l
    {
      if IsEnabled(l) then loggers[l] else zero
    }

    /** `SetLevel`: rejects levels past Error, otherwise stores the level and rewires all four slots. */
    method SetLevel(x: Level) returns (r: Outcome<PanicReason>)
      requires Built()
      modifies this`level, active
      ensures r.Pass? <==> x < LevelCount
      ensures r.Fail? ==> r.error == InvalidLevel(x)
      ensures r.Fail? ==> level == old(level) && active[..] == old(active[..])
      ensures r.Pass? ==> level == x && Valid()
      ensures r.Pass? ==> forall l: Level :: l < LevelCount ==> active[l] == if x <= l then loggers[l] else zero
    {
      if x >= LevelCount {
        return Fail(InvalidLevel(x));
      }
      level := x;
      active[LevelDebug] := Resolve(LevelDebug);
      active[LevelInfo] := Resolve(LevelInfo);
      active[LevelWarn] := Resolve(LevelWarn);
      active[LevelError] := Resolve(LevelError);
      return Pass;
    }

    /** `Level`: the current minimum, which is the least enabled level. */
    function Level(): (r: Level)
      reads this, active
      requires Valid()
      ensures r < LevelCount && IsEnabled(r)
      ensures forall l: Level :: l < r ==> !IsEnabled(l)
    {
      level
    }

    /** What an emission at an in-range level puts on the destination: one line if the level is enabled, none otherwise. */
    function Delivered(l: Level, call: Call): seq<Line>
      reads this
      requires Built() && l < LevelCount
    {
      if IsEnabled(l) then [Line(loggers[l], call)] else []
    }

    /** Forwards one call to the sink in slot `l`; the empty `Zero` branch stands for the discard sink's write, which keeps nothing. */
    method Emit(l: Level, call: Call)
      requires Valid() && l < LevelCount
      modifies this`trace
      ensures Valid() && trace == old(trace) + Delivered(l, call)
    {
      match active[l]
      case Real(_, _) =>
        trace := trace + [Line(active[l], call)];
      case Zero =>
    }

    method Debug(args: seq<string>)
      requires Valid()
      modifies this`trace
      ensures Valid() && trace == old(trace) + Delivered(LevelDebug, Sprint(args))
    {
      Emit(LevelDebug, Sprint(args));
    }

    method Debugln(args: seq<string>)
      requires Valid()
      modifies this`trace
      ensures Valid() && trace == old(trace) + Delivered(LevelDebug, Sprintln(args))
    {
      Emit(LevelDebug, Sprintln(args));
    }

    method Debugf(format: string, args: seq<string>)
      requires Valid()
      modifies this`trace
      ensures Valid() && trace == old(trace) + Delivered(LevelDebug, Sprintf(format, args))
    {
      Emit(LevelDebug, Sprintf(format, args));
    }

    method Info(args: seq<string>)
      requires Valid()
      modifies this`trace
      ensures Valid() && trace == old(trace) + Delivered(LevelInfo, Sprint(args))
    {
      Emit(LevelInfo, Sprint(args));
    }

    method Infoln(args: seq<string>)
      requires Valid()
      modifies this`trace
      ensures Valid() && trace == old(trace) + Delivered(LevelInfo, Sprintln(args))
    {
      Emit(LevelInfo, Sprintln(args));
    }

    method Infof(format: string, args: seq<string>)
      requires Valid()
      modifies this`trace
      ensures Valid() && trace == old(trace) + Delivered(LevelInfo, Sprintf(format, args))
    {
      Emit(LevelInfo, Sprintf(format, args));
    }

    method Warn(args: seq<string>)
      requires Valid()
      modifies this`trace
      ensures Valid() && trace == old(trace) + Delivered(LevelWarn, Sprint(args))
    {
      Emit(LevelWarn, Sprint(args));
    }

    method Warnln(args: seq<string>)
      requires Valid()
      modifies this`trace
      ensures Valid() && trace == old(trace) + Delivered(LevelWarn, Sprintln(args))
    {
      Emit(LevelWarn, Sprintln(args));
    }

    method Warnf(format: string, args: seq<string>)
      requires Valid()
      modifies this`trace
      ensures Valid() && trace == old(trace) + Delivered(LevelWarn, Sprintf(format, args))
    {
      Emit(LevelWarn, Sprintf(format, args));
    }

    method Error(args: seq<string>)
      requires Valid()
      modifies this`trace
      ensures Valid() && trace == old(trace) + Delivered(LevelError, Sprint(args))
    {
      Emit(LevelError, Sprint(args));
    }

    method Errorln(args: seq<string>)
      requires Valid()
      modifies this`trace
      ensures Valid() && trace == old(trace) + Delivered(LevelError, Sprintln(args))
    {
      Emit(LevelError, Sprintln(args));
    }

    method Errorf(format: string, args: seq<string>)
      requires Valid()
      modifies this`trace
      ensures Valid() && trace == old(trace) + Delivered(LevelError, Sprintf(format, args))
    {
      Emit(LevelError, Sprintf(format, args));
    }

    /** `Print`, `Printf` and `Println` are the Info-level forms. */
    method Print(args: seq<string>)
      requires Valid()
      modifies this`trace
      ensures Valid() && trace == old(trace) + Delivered(LevelInfo, Sprint(args))
    {
      Emit(LevelInfo, Sprint(args));
    }

    method Printf(format: string, args: seq<string>)
      requires Valid()
      modifies this`trace
      ensures Valid() && trace == old(trace) + Delivered(LevelInfo, Sprintf(format, args))
    {
      Emit(LevelInfo, Sprintf(format, args));
    }

    method Println(args: seq<string>)
      requires Valid()
      modifies this`trace
      ensures Valid() && trace == old(trace) + Delivered(LevelInfo, Sprintln(args))
    {
      Emit(LevelInfo, Sprintln(args));
    }

    /** `Fatal*` write through the Error slot, then exit with status 1 whatever that slot holds. */
    method Fatal(args: seq<string>) returns (t: Termination)
      requires Valid()
      modifies this`trace
      ensures Valid() && trace == old(trace) + Delivered(LevelError, Sprint(args))
      ensures t == Exit(1)
    {
      Emit(LevelError, Sprint(args));
      t := Exit(1);
    }

    method Fatalf(format: string, args: seq<string>) returns (t: Termination)
      requires Valid()
      modifies this`trace
      ensures Valid() && trace == old(trace) + Delivered(LevelError, Sprintf(format, args))
      ensures t == Exit(1)
    {
      Emit(LevelError, Sprintf(format, args));
      t := Exit(1);
    }

    method Fatalln(args: seq<string>) returns (t: Termination)
      requires Valid()
      modifies this`trace
      ensures Valid() && trace == old(trace) + Delivered(LevelError, Sprintln(args))
      ensures t == Exit(1)
    {
      Emit(LevelError, Sprintln(args));
      t := Exit(1);
    }

    /** `Panic*` write through the Error slot, then panic with the formatted message whatever that slot holds. */
    method Panic(args: seq<string>) returns (t: Termination)
      requires Valid()
      modifies this`trace
      ensures Valid() && trace == old(trace) + Delivered(LevelError, Sprint(args))
      ensures t == Panicked(Sprint(args))
    {
      Emit(LevelError, Sprint(args));
      t := Panicked(Sprint(args));
    }

    method Panicf(format: string, args: seq<string>) returns (t: Termination)
      requires Valid()
      modifies this`trace
      ensures Valid() && trace == old(trace) + Delivered(LevelError, Sprintf(format, args))
      ensures t == Panicked(Sprintf(format, args))
    {
      Emit(LevelError, Sprintf(format, args));
      t := Panicked(Sprintf(format, args));
    }

    method Panicln(args: seq<string>) returns (t: Termination)
      requires Valid()
      modifies this`trace
      ensures Valid() && trace == old(trace) + Delivered(LevelError, Sprintln(args))
      ensures t == Panicked(Sprintln(args))
    {
      Emit(LevelError, Sprintln(args));
      t := Panicked(Sprintln(args));
    }
  }

  /** The enabled levels are closed upwards: enabling a level enables every level above it. */
  lemma EnabledIsUpwardClosed(lg: Logger, a: Level, b: Level)
    requires a <= b && lg.IsEnabled(a)
    ensures lg.IsEnabled(b)
  {
  }

  /** A valid Logger always writes Error-level lines: the Error slot holds the real Error sink. */
  lemma ErrorSlotIsReal(lg: Logger)
    requires lg.Valid()
    ensures lg.IsEnabled(LevelError)
    ensures lg.active[LevelError] == lg.loggers[LevelError] && lg.active[LevelError].Real?
    ensures lg.For(LevelError) == Success(lg.loggers[LevelError])
  {
  }

  /** Slot `l` holds a real sink exactly when `l` is enabled, and then it is the sink of level `l`. */
  lemma SlotRealIffEnabled(lg: Logger, l: Level)
    requires lg.Valid() && l < LevelCount
    ensures lg.active[l].Real? <==> lg.IsEnabled(l)
    ensures lg.active[l].Real? ==> lg.active[l] == lg.loggers[l] && lg.active[l].lvl == l
  {
  }

  /** Calling `SetLevel` a second time with the same value changes neither the outcome nor the wiring. */
  method SetLevelTwice(lg: Logger, x: Level) returns (first: Outcome<PanicReason>, second: Outcome<PanicReason>)
    requires lg.Valid()
    modifies lg`level, lg.active
    ensures second == first && lg.Valid()
    ensures first.Pass? ==> lg.level == x
    ensures first.Pass? ==> forall l: Level :: l < LevelCount ==> lg.active[l] == if x <= l then lg.loggers[l] else lg.zero
    ensures first.Fail? ==> lg.level == old(lg.level) && lg.active[..] == old(lg.active[..])
  {
    first := lg.SetLevel(x);
    ghost var once := lg.active[..];
    second := lg.SetLevel(x);
    assert lg.active[..] == once;
  }

  /**
    A Logger built at Warn level receives one message per level, lowest first;
    only the Warn and Error messages reach the destination, in that order.
  */
  method WarnScenario(hasColors: bool, colorize: (Color, string) -> string) returns (output: seq<Line>)
    ensures output == [Line(Real(LevelWarn, GetPrefix("warn  ", Yellow, hasColors, colorize)), Sprint(["z"])),
                       Line(Real(LevelError, GetPrefix("error ", Red, hasColors, colorize)), Sprint(["w"]))]
  {
    var r := Logger.New(hasColors, colorize, LevelWarn);
    var lg := r.value;
    lg.Debug(["x"]);
    lg.Info(["y"]);
    lg.Warn(["z"]);
    lg.Error(["w"]);
    output := lg.trace;
  }
}
