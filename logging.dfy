/**
 * The leveled logger of logger.js (class LogReporter and its singleton
 * `Logger`): an append-only log, two independently set level filters
 * (storage and console), the choice of console sink with the "bypass red
 * screen" reroute of ERROR, and a change notification per report.
 * Extras are of any type X; `JSON.stringify` is the function the reporter
 * is built with.
 */
module Logging {
  import opened Wrappers

  datatype Level = DEBUG | INFO | WARN | ERROR | NORSERROR

  const AllLevels: set<Level> := {DEBUG, INFO, WARN, ERROR, NORSERROR}

  /** Position in DEBUG < INFO < WARN < ERROR. NORSERROR is a display variant outside the order. */
  function Rank(level: Level): nat
    requires level != NORSERROR
  {
    match level
    case DEBUG => 0
    case INFO => 1
    case WARN => 2
    case ERROR => 3
  }

  /**
   * The switch of `setLevel` and `setConsoleLevel`: one of the four ordered
   * levels enables it, everything above it and NORSERROR; NORSERROR matches
   * no case and leaves the filter as it was.
   */
  function LevelsFrom(level: Level, current: set<Level>): (r: set<Level>)
    ensures level == NORSERROR ==> r == current
    ensures level != NORSERROR ==>
      forall m :: m in r <==> m == NORSERROR || Rank(m) >= Rank(level)
  {
    match level
    case DEBUG => AllLevels
    case INFO => AllLevels - {DEBUG}
    case WARN => AllLevels - {DEBUG, INFO}
    case ERROR => AllLevels - {DEBUG, INFO, WARN}
    case NORSERROR => current
  }

  /** The console functions: DefaultConsole, console.debug/info/warn/error, and console.warn tagged 'error'. */
  datatype Sink = Silent | DebugSink | InfoSink | WarnSink | ErrorSink | WarnRoutedError

  /**
   * `getConsoleForLevel`. None stands for the `undefined` that an enabled
   * NORSERROR falls through to.
   */
  function ConsoleFor(level: Level, consoleLevels: set<Level>, bypass: bool): (r: Option<Sink>)
    ensures r == Some(Silent) <==> level !in consoleLevels
    ensures r == None <==> level == NORSERROR && level in consoleLevels
    ensures r == Some(ErrorSink) <==> level == ERROR && level in consoleLevels && !bypass
    ensures r == Some(WarnRoutedError) <==> level == ERROR && level in consoleLevels && bypass
    ensures level in {DEBUG, INFO, WARN} && level in consoleLevels ==>
      r == Some(match level case DEBUG => DebugSink case INFO => InfoSink case _ => WarnSink)
  {
    if level !in consoleLevels then Some(Silent)
    else
      match level
      case DEBUG => Some(DebugSink)
      case INFO => Some(InfoSink)
      case WARN => Some(WarnSink)
      case ERROR => if bypass then Some(WarnRoutedError) else Some(ErrorSink)
      case NORSERROR => None
  }

  /** The stored text: the message, then a space and the stringified extras when there are any. */
  function Entry<X>(message: string, extras: Option<X>, stringify: X -> string): string
  {
    if extras.Some? then message + " " + stringify(extras.value) else message
  }

  /** One call of a console function. */
  datatype Write<X> = Write(sink: Sink, message: string, extras: Option<X>)

  /** What reaching `sink` prints: nothing for the no-op sink. */
  function Echo<X>(sink: Sink, message: string, extras: Option<X>): seq<Write<X>>
  {
    if sink == Silent then [] else [Write(sink, message, extras)]
  }

  /** How `report` ends: it returns true, or calls the undefined sink and throws a TypeError. */
  datatype Completion = Returned(value: bool) | ThrewTypeError

  /** A listener registered with `on`, and the subscription handle it gets back. */
  datatype Listener = Listener(id: nat)
  datatype ListenerSubscription = ListenerSubscription(index: nat)

  class LogReporter<X> {
    const stringify: X -> string
    var enabled: bool
    var levels: set<Level>
    var consoleLevels: set<Level>
    var bypass: bool
    var db: seq<string>
    var listeners: seq<Listener>
    /** Number of 'change' notifications emitted. */
    var changes: nat
    /** Console output, in order. */
    var console: seq<Write<X>>

    /** No level setting disables NORSERROR, in either filter. */
    ghost predicate Valid()
      reads this`levels, this`consoleLevels
    {
      NORSERROR in levels && NORSERROR in consoleLevels
    }

    constructor (stringify: X -> string)
      ensures Valid() && this.stringify == stringify
      ensures !enabled && levels == AllLevels && consoleLevels == AllLevels && bypass
      ensures db == [] && listeners == [] && changes == 0 && console == []
    {
      this.stringify := stringify;
      enabled := false;
      levels := LevelsFrom(DEBUG, {});
      consoleLevels := LevelsFrom(DEBUG, {});
      bypass := true;
      listeners := [];
      changes := 0;
      console := [];
      db := [];
    }

    /** `start` and `shutdown` flip a flag that nothing else reads. */
    method Start()
      modifies this`enabled
      ensures enabled
    {
      enabled := true;
    }

    method Shutdown()
      modifies this`enabled
      ensures !enabled
    {
      enabled := false;
    }

    /** Registers a 'change' listener. */
    method On(listener: Listener) returns (sub: ListenerSubscription)
      modifies this`listeners
      ensures listeners == old(listeners) + [listener]
      ensures sub == ListenerSubscription(|old(listeners)|) && listeners[sub.index] == listener
    {
      sub := ListenerSubscription(|listeners|);
      listeners := listeners + [listener];
    }

    method BypassRSOD(flag: bool)
      modifies this`bypass
      ensures bypass == flag
    {
      bypass := flag;
    }

    /** Sets the storage filter; the console filter is untouched. */
    method SetLevel(level: Level)
      requires Valid()
      modifies this`levels
      ensures Valid()
      ensures levels == LevelsFrom(level, old(levels))
      ensures consoleLevels == old(consoleLevels)
    {
      levels := LevelsFrom(level, levels);
    }

    /** Sets the console filter; the storage filter is untouched. */
    method SetConsoleLevel(level: Level)
      requires Valid()
      modifies this`consoleLevels
      ensures Valid()
      ensures consoleLevels == LevelsFrom(level, old(consoleLevels))
      ensures levels == old(levels)
    {
      consoleLevels := LevelsFrom(level, consoleLevels);
    }

    function IsLevelEnabled(level: Level): (b: bool)
      reads this
      ensures b <==> level in levels
    {
      level in levels
    }

    function IsConsoleLevelEnabled(level: Level): (b: bool)
      reads this
      ensures b <==> level in consoleLevels
    {
      level in consoleLevels
    }

    /** On a valid reporter, exactly NORSERROR has no sink. */
    function GetConsoleForLevel(level: Level): (r: Option<Sink>)
      reads this
      ensures r == ConsoleFor(level, consoleLevels, bypass)
      ensures Valid() ==> (r.None? <==> level == NORSERROR)
    {
      ConsoleFor(level, consoleLevels, bypass)
    }

    /** Every entry reported so far, oldest first. */
    function GetLogs(): (logs: seq<string>)
      reads this
      ensures logs == db
    {
      db
    }

    /**
     * Writes to the console sink of the level (INFO when none is given),
     * appends the entry whatever the storage filter says, and emits one
     * change notification. `noSend` is ignored. At NORSERROR the sink is
     * undefined and the call throws before anything is stored or emitted.
     */
    method Report(message: string, extras: Option<X>, level: Option<Level>, noSend: Option<bool>)
      returns (result: Completion)
      requires Valid()
      modifies this`db, this`changes, this`console
      ensures result == ThrewTypeError <==> level == Some(NORSERROR)
      ensures var sink := ConsoleFor(if level.Some? then level.value else INFO, consoleLevels, bypass);
        if sink.None? then
          result == ThrewTypeError &&
          db == old(db) && changes == old(changes) && console == old(console)
        else
          result == Returned(true) &&
          db == old(db) + [Entry(message, extras, stringify)] &&
          changes == old(changes) + 1 &&
          console == old(console) + Echo(sink.value, message, extras)
    {
      var lvl := if level.Some? then level.value else INFO;
      var meth := GetConsoleForLevel(lvl);
      if meth.None? {
        return ThrewTypeError;
      }
      console := console + Echo(meth.value, message, extras);
      db := db + [Entry(message, extras, stringify)];
      changes := changes + 1;
      result := Returned(true);
    }

    /** The wrappers fix the level; none of them can reach the undefined sink. */
    method Error(message: string, extras: Option<X>, noSend: Option<bool>)
      requires Valid()
      modifies this`db, this`changes, this`console
      ensures db == old(db) + [Entry(message, extras, stringify)] && changes == old(changes) + 1
      ensures console == old(console) +
        Echo(if ERROR !in consoleLevels then Silent else if bypass then WarnRoutedError else ErrorSink, message, extras)
    {
      var _ := Report(message, extras, Some(ERROR), noSend);
    }

    method Warn(message: string, extras: Option<X>, noSend: Option<bool>)
      requires Valid()
      modifies this`db, this`changes, this`console
      ensures db == old(db) + [Entry(message, extras, stringify)] && changes == old(changes) + 1
      ensures console == old(console) + Echo(if WARN in consoleLevels then WarnSink else Silent, message, extras)
    {
      var _ := Report(message, extras, Some(WARN), noSend);
    }

    method Info(message: string, extras: Option<X>, noSend: Option<bool>)
      requires Valid()
      modifies this`db, this`changes, this`console
      ensures db == old(db) + [Entry(message, extras, stringify)] && changes == old(changes) + 1
      ensures console == old(console) + Echo(if INFO in consoleLevels then InfoSink else Silent, message, extras)
    {
      var _ := Report(message, extras, Some(INFO), noSend);
    }

    method Debug(message: string, extras: Option<X>, noSend: Option<bool>)
      requires Valid()
      modifies this`db, this`changes, this`console
      ensures db == old(db) + [Entry(message, extras, stringify)] && changes == old(changes) + 1
      ensures console == old(console) + Echo(if DEBUG in consoleLevels then DebugSink else Silent, message, extras)
    {
      var _ := Report(message, extras, Some(DEBUG), noSend);
    }

    /** Kept for ease of transition: the same as Info. */
    method Log(message: string, extras: Option<X>, noSend: Option<bool>)
      requires Valid()
      modifies this`db, this`changes, this`console
      ensures db == old(db) + [Entry(message, extras, stringify)] && changes == old(changes) + 1
      ensures console == old(console) + Echo(if INFO in consoleLevels then InfoSink else Silent, message, extras)
    {
      var _ := Report(message, extras, Some(INFO), noSend);
    }
  }

  /**
   * The storage filter is never consulted: with storage set to WARN a debug
   * message is still stored, and with console set to ERROR it is printed
   * nowhere.
   */
  method StorageFilterScenario() returns (logs: seq<string>, printed: seq<Write<string>>, notified: nat)
    ensures logs == ["x", "y"]
    ensures printed == [Write(WarnRoutedError, "y", None)]
    ensures notified == 2
  {
    var logger := new LogReporter<string>(s => "\"" + s + "\"");
    logger.SetLevel(WARN);
    logger.SetConsoleLevel(ERROR);
    logger.Debug("x", None, None);
    logger.Error("y", None, Some(true));
    logs, printed, notified := logger.GetLogs(), logger.console, logger.changes;
  }

  /** Reporting at NORSERROR throws, since every filter keeps NORSERROR console-enabled. */
  method NorsErrorScenario() returns (result: Completion, logs: seq<string>)
    ensures result == ThrewTypeError && logs == []
  {
    var logger := new LogReporter<string>(s => s);
    result := logger.Report("z", None, Some(NORSERROR), None);
    logs := logger.GetLogs();
  }
}
