/**
 * Startup: the branch between the stdio transport and the SSE listener
 * (scripts/start-server.ts, lines 25-37 and 73-76), and the top-level handler
 * that reports a failed startup and exits (lines 79-87).
 */
module Startup {
  import opened Wrappers
  import opened JsNumber
  import opened ModeResolver

  /** A rejection that reaches the top level: a spec `ValidationError` with its messages, or any other error. */
  datatype Failure = ValidationError(errors: seq<string>) | OtherError(description: string)

  /** How an external call the startup makes ended. */
  datatype Outcome = Done | Threw(failure: Failure)

  /** The externally visible steps of startup, in the order they happen. */
  datatype Effect = InitProxy(baseUrl: Option<string>) | ConnectStdio | CreateSessionMap | Listen(port: Num)

  /** How `startServer()` settles. */
  datatype Started = ServingStdio | ListeningSse(port: Num) | Rejected(failure: Failure)

  const SpecErrorHeader: string := "Invalid OpenAPI 3.1 specification:"
  const FailureExitCode: int := 1

  /** The number of proxies built. */
  function ProxyBuilds(effects: seq<Effect>): nat {
    if effects == [] then 0
    else (if effects[0].InitProxy? then 1 else 0) + ProxyBuilds(effects[1..])
  }

  /**
   * `startServer(args)`: `init`, `connect` and `listen` are the outcomes of
   * `initProxy`, of `proxy.connect` on the stdio transport and of `app.listen`.
   */
  method StartServer(args: seq<string>, env: Env, init: Outcome, connect: Outcome, listen: Outcome)
    returns (effects: seq<Effect>, result: Started)
    ensures forall e :: e in effects && e.InitProxy? ==> e.baseUrl == env.baseUrl
    ensures !SseRequested(args, env) ==> ProxyBuilds(effects) == 1 && CreateSessionMap !in effects
    ensures !SseRequested(args, env) ==> (result == ServingStdio <==> init.Done? && connect.Done?)
    ensures !SseRequested(args, env) && init.Threw? ==> result == Rejected(init.failure) && ConnectStdio !in effects
    ensures !SseRequested(args, env) && init.Done? && connect.Threw? ==> result == Rejected(connect.failure)
    ensures SseRequested(args, env) ==> ProxyBuilds(effects) == 0 && CreateSessionMap in effects
    ensures SseRequested(args, env) ==> effects[|effects| - 1] == Listen(SelectedPort(args, env))
    ensures SseRequested(args, env) ==>
      result == if listen.Done? then ListeningSse(SelectedPort(args, env)) else Rejected(listen.failure)
    ensures result.Rejected? <==> StartupFailure(args, env, init, connect, listen).Some?
    ensures result.Rejected? ==> result.failure == StartupFailure(args, env, init, connect, listen).value
  {
    var cfg := ResolveConfig(args, env);
    if !cfg.enableSse {
      effects, result := StartStdio(env.baseUrl, init, connect);
    } else {
      effects, result := StartSse(cfg.port, listen);
    }
  }

  /** Stdio mode: build one proxy, then connect it to the stdio transport. */
  method StartStdio(baseUrl: Option<string>, init: Outcome, connect: Outcome)
    returns (effects: seq<Effect>, result: Started)
    ensures forall e :: e in effects && e.InitProxy? ==> e.baseUrl == baseUrl
    ensures ProxyBuilds(effects) == 1 && CreateSessionMap !in effects
    ensures result == ServingStdio <==> init.Done? && connect.Done?
    ensures init.Threw? ==> result == Rejected(init.failure) && ConnectStdio !in effects
    ensures init.Done? && connect.Threw? ==> result == Rejected(connect.failure)
  {
    CountStdioBuilds(baseUrl);
    effects := [InitProxy(baseUrl)];
    if init.Threw? {
      result := Rejected(init.failure);
      return;
    }
    effects := effects + [ConnectStdio];
    if connect.Threw? {
      result := Rejected(connect.failure);
      return;
    }
    result := ServingStdio;
  }

  /** SSE mode: create the session map, then listen on the resolved port. */
  method StartSse(port: Num, listen: Outcome) returns (effects: seq<Effect>, result: Started)
    ensures ProxyBuilds(effects) == 0 && CreateSessionMap in effects
    ensures forall e :: e in effects ==> !e.InitProxy?
    ensures effects[|effects| - 1] == Listen(port)
    ensures result == if listen.Done? then ListeningSse(port) else Rejected(listen.failure)
  {
    CountSseBuilds(port);
    effects := [CreateSessionMap, Listen(port)];
    if listen.Threw? {
      result := Rejected(listen.failure);
    } else {
      result := ListeningSse(port);
    }
  }

  lemma CountStdioBuilds(baseUrl: Option<string>)
    ensures ProxyBuilds([InitProxy(baseUrl)]) == 1
    ensures ProxyBuilds([InitProxy(baseUrl), ConnectStdio]) == 1
  {
    assert [InitProxy(baseUrl)][1..] == [];
    assert [ConnectStdio][1..] == [];
    assert ProxyBuilds([ConnectStdio]) == 0;
    assert [InitProxy(baseUrl), ConnectStdio][1..] == [ConnectStdio];
  }

  lemma CountSseBuilds(port: Num)
    ensures ProxyBuilds([CreateSessionMap, Listen(port)]) == 0
  {
    assert [Listen(port)][1..] == [];
    assert ProxyBuilds([Listen(port)]) == 0;
    assert [CreateSessionMap, Listen(port)][1..] == [Listen(port)];
  }

  /**
   * The `catch` on `startServer()`: a validation error prints a header and
   * then each of its messages in order, any other error prints one line;
   * the exit status is always 1.
   */
  method ReportFailure(failure: Failure) returns (stderr: seq<string>, exitCode: int)
    ensures exitCode == FailureExitCode
    ensures failure.ValidationError? ==>
      |stderr| == |failure.errors| + 1 && stderr[0] == SpecErrorHeader && stderr[1..] == failure.errors
    ensures failure.OtherError? ==> |stderr| == 1 && stderr[0] == "Error: " + failure.description
  {
    exitCode := FailureExitCode;
    match failure
    case ValidationError(errors) =>
      stderr := [SpecErrorHeader];
      var i := 0;
      while i < |errors|
        invariant 0 <= i <= |errors|
        invariant stderr == [SpecErrorHeader] + errors[..i]
      {
        stderr := stderr + [errors[i]];
        i := i + 1;
      }
      assert errors[..|errors|] == errors;
    case OtherError(description) =>
      stderr := ["Error: " + description];
  }

  /** The failure, if any, with which `startServer()` rejects. */
  function StartupFailure(args: seq<string>, env: Env, init: Outcome, connect: Outcome, listen: Outcome): Option<Failure> {
    if SseRequested(args, env) then
      if listen.Threw? then Some(listen.failure) else None
    else if init.Threw? then Some(init.failure)
    else if connect.Threw? then Some(connect.failure)
    else None
  }

  /** The whole script: start, and on a rejection report it and exit with status 1; otherwise keep running. */
  method Launch(args: seq<string>, env: Env, init: Outcome, connect: Outcome, listen: Outcome)
    returns (effects: seq<Effect>, stderr: seq<string>, exitCode: Option<int>)
    ensures exitCode.Some? <==> StartupFailure(args, env, init, connect, listen).Some?
    ensures exitCode.Some? ==> exitCode.value == FailureExitCode
    ensures exitCode.None? ==> stderr == []
    ensures StartupFailure(args, env, init, connect, listen).Some? ==>
      var f := StartupFailure(args, env, init, connect, listen).value;
      (f.ValidationError? ==> stderr == [SpecErrorHeader] + f.errors) &&
      (f.OtherError? ==> |stderr| == 1)
  {
    var result;
    effects, result := StartServer(args, env, init, connect, listen);
    if result.Rejected? {
      var code;
      stderr, code := ReportFailure(result.failure);
      exitCode := Some(code);
    } else {
      stderr, exitCode := [], None;
    }
  }
}
