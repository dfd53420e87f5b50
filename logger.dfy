/**
 * The logger set-up: the list of output targets `createLogger` builds, and
 * the overall level, which is the more verbose of the console and file
 * levels. Level ranks: debug 20 < info 30 < warn 40 < error 50.
 */
module Logger {
  import opened Wrappers
  import opened JsText

  /** The level table, in the order its entries are searched. */
  const Levels: seq<(string, int)> := [("debug", 20), ("info", 30), ("warn", 40), ("error", 50)]

  const LevelNames: set<string> := {"debug", "info", "warn", "error"}

  /**
   * The keys every plain object literal inherits from `Object.prototype`.
   * Looking one up in the level table yields a function (or, for
   * `__proto__`, an object), never a number.
   */
  const PrototypeKeys: set<string> := {
    "constructor", "hasOwnProperty", "isPrototypeOf", "propertyIsEnumerable",
    "toString", "toLocaleString", "valueOf", "__proto__",
    "__defineGetter__", "__defineSetter__", "__lookupGetter__", "__lookupSetter__"}

  /** The own entry of the table for a name, if any. */
  function OwnRank(name: string): (r: Option<int>)
    ensures r.Some? <==> name in LevelNames
  {
    if name == "debug" then Some(20)
    else if name == "info" then Some(30)
    else if name == "warn" then Some(40)
    else if name == "error" then Some(50)
    else None
  }

  /** A JavaScript number as far as `Math.min` and `===` see it here. */
  datatype JsNumber = Finite(v: int) | PosInfinity | NotANumber

  /** `Math.min(a, b)`: NaN when either is NaN, else the smaller. */
  function Min(a: JsNumber, b: JsNumber): JsNumber
  {
    if a.NotANumber? || b.NotANumber? then NotANumber
    else if a.PosInfinity? then b
    else if b.PosInfinity? then a
    else if a.v <= b.v then a else b
  }

  /**
   * The search over the table's entries for the name of a rank, with
   * `info` when no entry matches. NaN equals nothing.
   */
  function NameOfRank(entries: seq<(string, int)>, n: JsNumber): string
  {
    if entries == [] then "info"
    else if n.Finite? && entries[0].1 == n.v then entries[0].0
    else NameOfRank(entries[1..], n)
  }

  /** `levels[name] || 30` as written: inherited keys read as a non-number, truthy value. */
  function RankAsWritten(name: string): JsNumber
  {
    match OwnRank(name)
    case Some(n) => Finite(n)
    case None => if name in PrototypeKeys then NotANumber else Finite(30)
  }

  /** `getMinLevel` as written. */
  function GetMinLevelAsWritten(consoleLevel: string, fileLevel: Option<string>): string
  {
    var fileRank := if Truthy(fileLevel) then RankAsWritten(fileLevel.value) else PosInfinity;
    NameOfRank(Levels, Min(RankAsWritten(consoleLevel), fileRank))
  }

  /** Whatever it is searched for, the search answers `info` or one of the table's names. */
  lemma {:induction false} NameOfRankIsLevel(entries: seq<(string, int)>, n: JsNumber)
    requires forall k :: 0 <= k < |entries| ==> entries[k].0 in LevelNames
    ensures NameOfRank(entries, n) in LevelNames
  {
    if entries != [] && !(n.Finite? && entries[0].1 == n.v) {
      NameOfRankIsLevel(entries[1..], n);
    }
  }

  /** Even as written, the level handed to the logger is always one of the four names. */
  lemma AsWrittenIsLevelName(consoleLevel: string, fileLevel: Option<string>)
    ensures GetMinLevelAsWritten(consoleLevel, fileLevel) in LevelNames
  {
    var fileRank := if Truthy(fileLevel) then RankAsWritten(fileLevel.value) else PosInfinity;
    NameOfRankIsLevel(Levels, Min(RankAsWritten(consoleLevel), fileRank));
  }

  /** The rank of a level name: its own table entry, else 30 (info). */
  function Rank(name: string): (r: int)
    ensures r in {20, 30, 40, 50}
    ensures name !in LevelNames ==> r == 30
  {
    match OwnRank(name)
    case Some(n) => n
    case None => 30
  }

  /** The search finds the name of every rank in the table. */
  lemma NameOfRankFinds(n: int)
    requires n in {20, 30, 40, 50}
    ensures NameOfRank(Levels, Finite(n)) in LevelNames
    ensures Rank(NameOfRank(Levels, Finite(n))) == n
  {
    var e := Levels;
    assert e[1..] == [("info", 30), ("warn", 40), ("error", 50)];
    assert e[1..][1..] == [("warn", 40), ("error", 50)];
    assert e[1..][1..][1..] == [("error", 50)];
  }

  /**
   * `getMinLevel` with the lookup confined to the table's own entries: the
   * name of the smaller of the console rank and the file rank, the file
   * rank counting only when a file level is given.
   */
  function GetMinLevel(consoleLevel: string, fileLevel: Option<string>): (name: string)
    ensures name in LevelNames
    ensures Truthy(fileLevel) ==> Rank(name) == if Rank(consoleLevel) <= Rank(fileLevel.value) then Rank(consoleLevel) else Rank(fileLevel.value)
    ensures !Truthy(fileLevel) ==> Rank(name) == Rank(consoleLevel)
  {
    var min := if Truthy(fileLevel) && Rank(fileLevel.value) < Rank(consoleLevel) then Rank(fileLevel.value) else Rank(consoleLevel);
    NameOfRankFinds(min);
    NameOfRank(Levels, Finite(min))
  }

  /** Each of the four names has its own rank, so a rank determines its name. */
  lemma RankNamesLevel(a: string, b: string)
    requires a in LevelNames && b in LevelNames && Rank(a) == Rank(b)
    ensures a == b
  {
  }

  /** Without a file level the overall level is the console level, or info when that name is unknown. */
  lemma NoFileLevel(consoleLevel: string, fileLevel: Option<string>)
    requires !Truthy(fileLevel)
    ensures consoleLevel in LevelNames ==> GetMinLevel(consoleLevel, fileLevel) == consoleLevel
    ensures consoleLevel !in LevelNames ==> GetMinLevel(consoleLevel, fileLevel) == "info"
  {
    var name := GetMinLevel(consoleLevel, fileLevel);
    if consoleLevel in LevelNames {
      RankNamesLevel(name, consoleLevel);
    } else {
      RankNamesLevel(name, "info");
    }
  }

  /** The overall level is the more verbose of two known levels, whichever side it is on. */
  lemma MinOfKnownLevels(consoleLevel: string, fileLevel: string)
    requires consoleLevel in LevelNames && fileLevel in LevelNames
    ensures GetMinLevel(consoleLevel, Some(fileLevel)) ==
      if Rank(consoleLevel) <= Rank(fileLevel) then consoleLevel else fileLevel
    ensures GetMinLevel(consoleLevel, Some(fileLevel)) == GetMinLevel(fileLevel, Some(consoleLevel))
  {
    var name := GetMinLevel(consoleLevel, Some(fileLevel));
    var other := GetMinLevel(fileLevel, Some(consoleLevel));
    if Rank(consoleLevel) <= Rank(fileLevel) {
      RankNamesLevel(name, consoleLevel);
    } else {
      RankNamesLevel(name, fileLevel);
    }
    RankNamesLevel(name, other);
  }

  /** Away from the inherited keys the code as written agrees with the corrected definition. */
  lemma AsWrittenAgrees(consoleLevel: string, fileLevel: Option<string>)
    requires consoleLevel !in PrototypeKeys
    requires fileLevel.Some? ==> fileLevel.value !in PrototypeKeys
    ensures GetMinLevelAsWritten(consoleLevel, fileLevel) == GetMinLevel(consoleLevel, fileLevel)
  {
    var c := Rank(consoleLevel);
    var min := if Truthy(fileLevel) && Rank(fileLevel.value) < c then Rank(fileLevel.value) else c;
    assert RankAsWritten(consoleLevel) == Finite(c);
    assert Truthy(fileLevel) ==> RankAsWritten(fileLevel.value) == Finite(Rank(fileLevel.value));
    var fileRank := if Truthy(fileLevel) then RankAsWritten(fileLevel.value) else PosInfinity;
    assert Min(RankAsWritten(consoleLevel), fileRank) == Finite(min);
  }

  /**
   * An inherited key as file level turns the minimum into NaN, so the search
   * matches nothing and the code as written answers info where debug is due.
   */
  lemma InheritedKeyMasksDebug()
    ensures GetMinLevelAsWritten("debug", Some("toString")) == "info"
    ensures GetMinLevel("debug", Some("toString")) == "debug"
  {
    assert "toString" in PrototypeKeys;
    assert OwnRank("toString").None?;
    assert RankAsWritten("toString") == NotANumber;
    assert NameOfRank(Levels, NotANumber) == "info" by {
      var e := Levels;
      assert e[1..][1..][1..][1..] == [];
    }
    NoFileLevel("debug", None);
    assert Rank("toString") == 30;
    RankNamesLevel(GetMinLevel("debug", Some("toString")), "debug");
  }

  /** `LoggerConfig`. */
  datatype LoggerConfig = LoggerConfig(
    consoleLevel: string,
    fileLevel: Option<string>,
    filePath: Option<string>,
    pretty: Option<bool>)

  datatype Destination = Stderr | File(path: string)

  /** A transport target: `pino-pretty` on the terminal, or `pino/file` to a destination. */
  datatype Target = PrettyConsole(level: string) | FileTarget(level: string, destination: Destination)

  /** The logger `createLogger` returns: its level and its targets. */
  datatype LoggerSetup = LoggerSetup(level: string, targets: seq<Target>, warned: bool)

  predicate WantsFile(config: LoggerConfig)
  {
    Truthy(config.filePath) && Truthy(config.fileLevel)
  }

  /**
   * `createLogger`: the console target first (pretty when asked, else JSON to
   * standard error, file descriptor 2), then the file target when both a path
   * and a level are given. `transportFails` says whether building the
   * logger throws; then the targets are rebuilt with a plain console target,
   * and a warning is printed only when pretty output was asked for.
   */
  method CreateLogger(config: LoggerConfig, transportFails: bool) returns (setup: LoggerSetup)
    ensures setup.level == GetMinLevelAsWritten(config.consoleLevel, config.fileLevel)
    ensures setup.level in LevelNames
    ensures (config.consoleLevel !in PrototypeKeys &&
             (config.fileLevel.Some? ==> config.fileLevel.value !in PrototypeKeys)) ==>
            setup.level == GetMinLevel(config.consoleLevel, config.fileLevel)
    ensures |setup.targets| == if WantsFile(config) then 2 else 1
    ensures setup.targets[0] ==
      if config.pretty == Some(true) && !transportFails then PrettyConsole(config.consoleLevel)
      else FileTarget(config.consoleLevel, Stderr)
    ensures WantsFile(config) ==>
      setup.targets[1] == FileTarget(config.fileLevel.value, File(config.filePath.value))
    ensures setup.warned <==> transportFails && config.pretty == Some(true)
  {
    var targets: seq<Target> := [];
    if config.pretty == Some(true) {
      targets := targets + [PrettyConsole(config.consoleLevel)];
    } else {
      targets := targets + [FileTarget(config.consoleLevel, Stderr)];
    }
    if WantsFile(config) {
      targets := targets + [FileTarget(config.fileLevel.value, File(config.filePath.value))];
    }
    var level := GetMinLevelAsWritten(config.consoleLevel, config.fileLevel);
    AsWrittenIsLevelName(config.consoleLevel, config.fileLevel);
    if config.consoleLevel !in PrototypeKeys && (config.fileLevel.Some? ==> config.fileLevel.value !in PrototypeKeys) {
      AsWrittenAgrees(config.consoleLevel, config.fileLevel);
    }
    if !transportFails {
      return LoggerSetup(level, targets, false);
    }
    var fallbackTargets: seq<Target> := [FileTarget(config.consoleLevel, Stderr)];
    if WantsFile(config) {
      fallbackTargets := fallbackTargets + [FileTarget(config.fileLevel.value, File(config.filePath.value))];
    }
    setup := LoggerSetup(level, fallbackTargets, config.pretty == Some(true));
  }
}
