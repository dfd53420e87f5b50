/**
 * The server configuration: command-line options over environment variables
 * over built-in defaults. The environment and whether standard output is a
 * terminal are parameters here.
 */
module Config {
  import opened Wrappers
  import opened JsText

  /** The options the command line produced; every one may be absent. */
  datatype CliOptions = CliOptions(
    wsPort: Option<int>,
    httpPort: Option<int>,
    httpHost: Option<string>,
    logLevel: Option<string>,
    logLevelFile: Option<string>,
    verbose: Option<bool>,
    logFile: Option<string>,
    requestLog: Option<string>,
    responseLog: Option<string>)

  /** REMNOTE_WS_PORT, REMNOTE_HTTP_PORT and REMNOTE_HTTP_HOST. */
  datatype Environment = Environment(
    wsPort: Option<string>,
    httpPort: Option<string>,
    httpHost: Option<string>)

  datatype ServerConfig = ServerConfig(
    wsPort: JsInt,
    wsHost: string,
    httpPort: JsInt,
    httpHost: string,
    logLevel: string,
    logLevelFile: Option<string>,
    logFile: Option<string>,
    requestLog: Option<string>,
    responseLog: Option<string>,
    prettyLogs: bool)

  const DefaultWsPort := "3002"
  const DefaultHttpPort := "3001"

  /** The default port strings read back as 3002 and 3001. */
  lemma DefaultPortsParse()
    ensures ParseInt(DefaultWsPort) == Int(3002) && ParseInt(DefaultHttpPort) == Int(3001)
  {
    DefaultPortParses(DefaultWsPort);
    DefaultPortParses(DefaultHttpPort);
    DigitsOf300(DefaultWsPort);
    DigitsOf300(DefaultHttpPort);
  }

  lemma DigitsOf300(s: string)
    requires s == DefaultWsPort || s == DefaultHttpPort
    ensures DigitsValue(s) == 3000 + DigitValue(s[3])
  {
    var p3, p2, p1 := s[..3], s[..2], s[..1];
    assert p3 == "300" && p3[..2] == p2 && p2[..1] == p1;
    assert DigitsValue(p1) == 3;
    assert DigitsValue(p2) == 30;
    assert DigitsValue(p3) == 300;
  }

  lemma DefaultPortParses(s: string)
    requires s == DefaultWsPort || s == DefaultHttpPort
    ensures ParseInt(s) == Int(DigitsValue(s))
  {
    assert LeadingSpace(s) == 0;
    assert s[0..] == s;
    assert Unsigned(s) == s;
    assert LeadingDigits(s[3..]) == 1;
    assert LeadingDigits(s[2..]) == 2;
    assert LeadingDigits(s[1..]) == 3;
    assert LeadingDigits(s) == 4;
    assert s[..4] == s;
  }

  const Localhost := "127.0.0.1"

  /** A command-line port passes when it is absent or within 1..65535. */
  predicate CliPortOk(port: Option<int>)
  {
    port.None? || 1 <= port.value <= 65535
  }

  /** `===` on numbers: NaN equals nothing, not even NaN. */
  predicate SameNumber(a: JsInt, b: JsInt)
  {
    a.Int? && b.Int? && a.value == b.value
  }

  /** `port || parseInt(env || fallback, 10)` for a command-line port that passed its check. */
  function PortOf(cli: Option<int>, env: Option<string>, fallback: string): JsInt
  {
    if cli.Some? && cli.value != 0 then Int(cli.value) else ParseInt(Or(env, fallback))
  }

  function WsPortOf(cli: CliOptions, env: Environment): JsInt
  {
    PortOf(cli.wsPort, env.wsPort, DefaultWsPort)
  }

  function HttpPortOf(cli: CliOptions, env: Environment): JsInt
  {
    PortOf(cli.httpPort, env.httpPort, DefaultHttpPort)
  }

  /** The console level: `debug` when verbose, else the given level, else `info`. */
  function LogLevelOf(cli: CliOptions): string
  {
    if cli.verbose == Some(true) then "debug" else Or(cli.logLevel, "info")
  }

  /** The message refusing a command-line port out of range, after its `prefix` naming the server. */
  function RangeMessage(prefix: string, port: int): (m: string)
    ensures StartsWith(m, prefix)
  {
    var p := prefix;
    var m := p + ": " + IntToString(port) + ". Must be between 1 and 65535.";
    assert m[..|p|] == p;
    m
  }

  function SamePortMessage(port: int): (m: string)
    ensures StartsWith(m, "WebSocket port and HTTP port cannot be the same")
  {
    var p := "WebSocket port and HTTP port cannot be the same";
    var m := p + " (both set to " + IntToString(port) + ")";
    assert m[..|p|] == p;
    m
  }

  /**
   * `getConfig`: check the command-line ports, merge each setting by
   * precedence, and refuse equal WebSocket and HTTP ports.
   */
  function GetConfig(cli: CliOptions, env: Environment, isTTY: Option<bool>): (r: Result<ServerConfig, string>)
    ensures r.Success? <==>
      CliPortOk(cli.wsPort) && CliPortOk(cli.httpPort) && !SameNumber(WsPortOf(cli, env), HttpPortOf(cli, env))
    ensures !CliPortOk(cli.wsPort) ==>
      r.Failure? && StartsWith(r.error, "Invalid WebSocket port")
    ensures CliPortOk(cli.wsPort) && !CliPortOk(cli.httpPort) ==>
      r.Failure? && StartsWith(r.error, "Invalid HTTP port")
    ensures CliPortOk(cli.wsPort) && CliPortOk(cli.httpPort) && r.Failure? ==>
      StartsWith(r.error, "WebSocket port and HTTP port cannot be the same")
    ensures r.Success? ==> r.value.wsHost == Localhost
    ensures r.Success? ==> !SameNumber(r.value.wsPort, r.value.httpPort)
    ensures r.Success? ==>
      r.value.logFile == cli.logFile && r.value.requestLog == cli.requestLog
      && r.value.responseLog == cli.responseLog
    ensures r.Success? ==> (r.value.prettyLogs <==> isTTY == Some(true))
  {
    var logLevel := LogLevelOf(cli);
    if !CliPortOk(cli.wsPort) then
      Failure(RangeMessage("Invalid WebSocket port", cli.wsPort.value))
    else if !CliPortOk(cli.httpPort) then
      Failure(RangeMessage("Invalid HTTP port", cli.httpPort.value))
    else
      var wsPort := WsPortOf(cli, env);
      var httpPort := HttpPortOf(cli, env);
      var httpHost := Or(cli.httpHost, Or(env.httpHost, Localhost));
      if SameNumber(wsPort, httpPort) then
        Failure(SamePortMessage(wsPort.value))
      else
        var logLevelFile :=
          if Truthy(cli.logLevelFile) then cli.logLevelFile
          else if Truthy(cli.logFile) then Some(logLevel)
          else None;
        Success(ServerConfig(
          wsPort, Localhost, httpPort, httpHost, logLevel, logLevelFile,
          cli.logFile, cli.requestLog, cli.responseLog, isTTY == Some(true)))
  }

  /** The console level is `debug` under verbose, else the given level, else `info`. */
  lemma LogLevelPrecedence(cli: CliOptions, env: Environment, isTTY: Option<bool>)
    requires GetConfig(cli, env, isTTY).Success?
    ensures cli.verbose == Some(true) ==> GetConfig(cli, env, isTTY).value.logLevel == "debug"
    ensures cli.verbose != Some(true) && Truthy(cli.logLevel) ==>
      GetConfig(cli, env, isTTY).value.logLevel == cli.logLevel.value
    ensures cli.verbose != Some(true) && !Truthy(cli.logLevel) ==>
      GetConfig(cli, env, isTTY).value.logLevel == "info"
  {
  }

  /**
   * A port comes from the command line when given there, else from the
   * environment variable when set and non-empty, else from the default.
   */
  lemma PortPrecedence(cli: CliOptions, env: Environment, isTTY: Option<bool>)
    requires GetConfig(cli, env, isTTY).Success?
    ensures cli.wsPort.Some? ==> GetConfig(cli, env, isTTY).value.wsPort == Int(cli.wsPort.value)
    ensures cli.wsPort.None? && Truthy(env.wsPort) ==>
      GetConfig(cli, env, isTTY).value.wsPort == ParseInt(env.wsPort.value)
    ensures cli.wsPort.None? && !Truthy(env.wsPort) ==> GetConfig(cli, env, isTTY).value.wsPort == Int(3002)
    ensures cli.httpPort.Some? ==> GetConfig(cli, env, isTTY).value.httpPort == Int(cli.httpPort.value)
    ensures cli.httpPort.None? && Truthy(env.httpPort) ==>
      GetConfig(cli, env, isTTY).value.httpPort == ParseInt(env.httpPort.value)
    ensures cli.httpPort.None? && !Truthy(env.httpPort) ==>
      GetConfig(cli, env, isTTY).value.httpPort == Int(3001)
  {
    DefaultPortsParse();
  }

  /** The HTTP host comes from the command line, else the environment, else 127.0.0.1. */
  lemma HttpHostPrecedence(cli: CliOptions, env: Environment, isTTY: Option<bool>)
    requires GetConfig(cli, env, isTTY).Success?
    ensures Truthy(cli.httpHost) ==> GetConfig(cli, env, isTTY).value.httpHost == cli.httpHost.value
    ensures !Truthy(cli.httpHost) && Truthy(env.httpHost) ==>
      GetConfig(cli, env, isTTY).value.httpHost == env.httpHost.value
    ensures !Truthy(cli.httpHost) && !Truthy(env.httpHost) ==>
      GetConfig(cli, env, isTTY).value.httpHost == Localhost
  {
  }

  /** The file level is the explicit one, else the console level when a log file is set, else absent. */
  lemma LogLevelFilePrecedence(cli: CliOptions, env: Environment, isTTY: Option<bool>)
    requires GetConfig(cli, env, isTTY).Success?
    ensures Truthy(cli.logLevelFile) ==> GetConfig(cli, env, isTTY).value.logLevelFile == cli.logLevelFile
    ensures !Truthy(cli.logLevelFile) && Truthy(cli.logFile) ==>
      GetConfig(cli, env, isTTY).value.logLevelFile == Some(GetConfig(cli, env, isTTY).value.logLevel)
    ensures !Truthy(cli.logLevelFile) && !Truthy(cli.logFile) ==>
      GetConfig(cli, env, isTTY).value.logLevelFile == None
  {
  }

  /** With nothing given anywhere, the defaults apply and do not clash. */
  lemma Defaults(isTTY: Option<bool>)
    ensures var cli := CliOptions(None, None, None, None, None, None, None, None, None);
      var env := Environment(None, None, None);
      GetConfig(cli, env, isTTY) == Success(ServerConfig(
        Int(3002), "127.0.0.1", Int(3001), "127.0.0.1", "info", None, None, None, None, isTTY == Some(true)))
  {
    DefaultPortsParse();
  }
}
