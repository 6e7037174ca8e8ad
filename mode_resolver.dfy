/**
 * Transport mode and listening port, resolved once at startup from the
 * argument list and the environment (scripts/start-server.ts, lines 16-23).
 */
module ModeResolver {
  import opened Wrappers
  import opened JsNumber

  /** The environment variables the startup reads; `None` is an unset variable. */
  datatype Env = Env(enableSse: Option<string>, port: Option<string>, baseUrl: Option<string>)

  /** The resolved mode: SSE or stdio, and the port the SSE listener binds. */
  datatype Config = Config(enableSse: bool, port: Num)

  const DefaultPort: int := 3000
  const SseFlag: string := "--sse"
  const PortFlag: string := "--port"

  /** JavaScript truthiness of a string that may be undefined: set and non-empty. */
  predicate Truthy(v: Option<string>) {
    v.Some? && v.value != ""
  }

  /** `args.findIndex(a => a === token)`: the first position holding `token`, or -1. */
  function FindIndex(args: seq<string>, token: string): (r: int)
    ensures r == -1 <==> token !in args
    ensures r != -1 ==> 0 <= r < |args| && args[r] == token && token !in args[..r]
  {
    if args == [] then -1
    else if args[0] == token then 0
    else
      var k := FindIndex(args[1..], token);
      if k == -1 then -1
      else
        assert args[..k + 1] == [args[0]] + args[1..][..k];
        k + 1
  }

  /** The conditions that switch SSE mode on. */
  predicate SseRequested(args: seq<string>, env: Env) {
    SseFlag in args || env.enableSse == Some("true")
  }

  /** The port before any `--port` argument: `PORT` through `parseInt` when set and non-empty, else the default. */
  function EnvPort(env: Env): Num {
    if Truthy(env.port) then ParseInt(env.port.value) else Int(DefaultPort)
  }

  /** The value of the token after the first `--port`, when that token exists, is non-empty and parses. */
  function CliPort(args: seq<string>): Option<int> {
    var i := FindIndex(args, PortFlag);
    if i != -1 && i + 1 < |args| && args[i + 1] != "" && ParseInt(args[i + 1]).Int? then
      Some(ParseInt(args[i + 1]).value)
    else
      None
  }

  /** The port by precedence: a usable `--port` argument, else the environment, else the default. */
  function SelectedPort(args: seq<string>, env: Env): Num {
    match CliPort(args)
    case Some(p) => Int(p)
    case None => EnvPort(env)
  }

  /** The startup's resolution of `enableSse` and `port`, reassigning `port` step by step as the source does. */
  method ResolveConfig(args: seq<string>, env: Env) returns (cfg: Config)
    ensures cfg.enableSse <==> SseFlag in args || env.enableSse == Some("true")
    ensures cfg.port == SelectedPort(args, env)
  {
    var enableSse := SseFlag in args || env.enableSse == Some("true");
    var port := if Truthy(env.port) then ParseInt(env.port.value) else Int(DefaultPort);
    var portIdx := FindIndex(args, PortFlag);
    if portIdx != -1 && portIdx + 1 < |args| && args[portIdx + 1] != "" {
      var p := ParseInt(args[portIdx + 1]);
      if !p.NaN? {
        port := p;
      }
    }
    cfg := Config(enableSse, port);
  }

  /** `i` is the position of the first `--port` in `args`. */
  predicate FirstPortFlagAt(args: seq<string>, i: int) {
    0 <= i < |args| && args[i] == PortFlag && PortFlag !in args[..i]
  }

  lemma FirstPortFlagIsFound(args: seq<string>, i: int)
    requires FirstPortFlagAt(args, i)
    ensures FindIndex(args, PortFlag) == i
  {
    var r := FindIndex(args, PortFlag);
    assert args[i] == PortFlag;
    assert forall j :: 0 <= j < i ==> args[j] == args[..i][j] != PortFlag;
    assert r >= i;
    assert forall j :: 0 <= j < r ==> args[j] == args[..r][j] != PortFlag;
  }

  /** Only the exact value "true" of ENABLE_SSE, or the exact token `--sse`, selects SSE mode. */
  lemma SseOnlyOnExactValues(args: seq<string>, env: Env)
    requires SseFlag !in args
    requires env.enableSse == Some("1") || env.enableSse == Some("TRUE") || env.enableSse == Some("True")
    ensures !SseRequested(args, env)
  {
    assert "1" != "true" && "TRUE" != "true" && "True" != "true" by {
      assert "1"[0] != "true"[0];
      assert "TRUE"[0] != "true"[0];
      assert "True"[0] != "true"[0];
    }
  }

  /** With `PORT` unset or empty and no usable `--port` argument, the port is 3000. */
  lemma DefaultPortWhenUnset(args: seq<string>, env: Env)
    requires env.port == None || env.port == Some("")
    requires CliPort(args) == None
    ensures SelectedPort(args, env) == Int(3000)
  {
  }

  /** A `--port` followed by a token that parses as an integer wins over `PORT`. */
  lemma PortArgumentOverrides(args: seq<string>, env: Env, i: int, n: int)
    requires FirstPortFlagAt(args, i) && i + 1 < |args|
    requires ParseInt(args[i + 1]) == Int(n)
    ensures SelectedPort(args, env) == Int(n)
  {
    FirstPortFlagIsFound(args, i);
    assert args[i + 1] != "";
  }

  /** A `--port` that is last, or followed by an empty or digit-less token, leaves the prior port. */
  lemma UnusablePortArgumentKeepsPrior(args: seq<string>, env: Env, i: int)
    requires FirstPortFlagAt(args, i)
    requires i + 1 == |args| || args[i + 1] == "" || ParseInt(args[i + 1]).NaN?
    ensures SelectedPort(args, env) == EnvPort(env)
  {
    FirstPortFlagIsFound(args, i);
  }

  /** Once the first `--port` has a following token, nothing appended later changes the port. */
  lemma LaterPortFlagsIgnored(args: seq<string>, extra: seq<string>, env: Env, i: int)
    requires FirstPortFlagAt(args, i) && i + 1 < |args|
    ensures SelectedPort(args + extra, env) == SelectedPort(args, env)
  {
    FirstPortFlagIsFound(args, i);
    assert (args + extra)[..i] == args[..i];
    FirstPortFlagIsFound(args + extra, i);
  }

  /** A non-empty `PORT` without leading digits yields NaN, not the default 3000. */
  lemma DigitlessEnvPortIsNaN(args: seq<string>, env: Env)
    requires CliPort(args) == None
    requires Truthy(env.port) && !HasNumericPrefix(env.port.value)
    ensures SelectedPort(args, env) == NaN
  {
    ParseIntNaN(env.port.value);
  }

  /** `--port 4100abc` gives 4100: parsing stops at the first non-digit. */
  lemma TrailingTextAfterPortDigits(env: Env)
    ensures SelectedPort(["--sse", "--port", "4100abc"], env) == Int(4100)
  {
    var args := ["--sse", "--port", "4100abc"];
    assert "--sse" != PortFlag by { assert "--sse"[2] != PortFlag[2]; }
    assert FirstPortFlagAt(args, 1);
    assert Show(4100) == "4100" by {
      assert Decimal(4) == "4";
      assert Decimal(41) == "41";
      assert Decimal(410) == "410";
    }
    assert args[2] == Show(4100) + "abc";
    ParseIntShow(4100, "abc");
    PortArgumentOverrides(args, env, 1, 4100);
  }
}
