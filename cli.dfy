/** `parseArgs`: the command-line scan over `--key=value` arguments, the
    fallback to environment variables and the defaults. The process's
    arguments and environment are parameters; a thrown error is an `Err`. */
module Cli {
  import opened Wrappers
  import opened Text

  /** The `options` record the scan fills in; `None` is `undefined`. */
  datatype Options = Options(
    apiKey: Option<string>,
    luneName: Option<string>,
    luneId: Option<string>,
    transport: Option<string>,
    port: Option<int>)

  const NoOptions := Options(None, None, None, None, None)

  /** A port is a number, or `NaN` when the `PORT` variable does not parse. */
  datatype Port = PortNumber(n: int) | NotANumber

  /** The record `parseArgs` returns. */
  datatype Config = Config(apiKey: string, luneName: string, luneId: string, transport: string, port: Port)

  /** The errors `parseArgs` throws, with the offending key or value. */
  datatype ConfigError =
    | InvalidTransport(value: Option<string>)
    | InvalidPort(value: Option<string>)
    | InvalidArgument(key: string)
    | MissingApiKey
    | MissingLuneName
    | MissingLuneId

  /** `process.env`: variable name to value. */
  type Env = map<string, string>

  function EnvVar(env: Env, name: string): Option<string>
  {
    if name in env then Some(env[name]) else None
  }

  /** A string that JavaScript treats as true: defined and not empty. */
  predicate Truthy(v: Option<string>)
  {
    v.Some? && v.value != ""
  }

  /** `a || b` on two strings that may be undefined. */
  function Or(a: Option<string>, b: Option<string>): (r: Option<string>)
    ensures Truthy(a) ==> r == a
    ensures !Truthy(a) ==> r == b
    ensures Truthy(r) <==> Truthy(a) || Truthy(b)
  {
    if Truthy(a) then a else b
  }

  /** Arguments that do not start with "--" are skipped. */
  predicate IsFlag(arg: string)
  {
    StartsWith(arg, "--")
  }

  /** `arg.slice(2).split("=")[0]` */
  function FlagKey(arg: string): string
    requires IsFlag(arg)
  {
    SplitOn(arg[2..], '=')[0]
  }

  /** `arg.slice(2).split("=")[1]`, undefined when there is no "=". */
  function FlagValue(arg: string): Option<string>
    requires IsFlag(arg)
  {
    var parts := SplitOn(arg[2..], '=');
    if |parts| >= 2 then Some(parts[1]) else None
  }

  predicate ValidTransport(value: Option<string>)
  {
    value == Some("stdio") || value == Some("sse")
  }

  /** `parseInt(value, 10)`, where `parseInt(undefined)` is `NaN`. */
  function PortOf(value: Option<string>): Option<int>
  {
    if value.None? then None else ParseInt(value.value)
  }

  /** The five keys the scan accepts. */
  predicate KnownKey(key: string)
  {
    key == "api-key" || key == "lune-name" || key == "lune-id" || key == "transport" || key == "port"
  }

  /** The body of the `forEach` callback on one argument: record the value
      under its key, or throw. */
  function ApplyArg(o: Options, arg: string): Result<Options, ConfigError>
  {
    if !IsFlag(arg) then Ok(o)
    else
      var key, value := FlagKey(arg), FlagValue(arg);
      if key == "api-key" then Ok(o.(apiKey := value))
      else if key == "lune-name" then Ok(o.(luneName := value))
      else if key == "lune-id" then Ok(o.(luneId := value))
      else if key == "transport" then
        if !ValidTransport(value) then Err(InvalidTransport(value)) else Ok(o.(transport := value))
      else if key == "port" then
        if PortOf(value).None? then Err(InvalidPort(value)) else Ok(o.(port := PortOf(value)))
      else Err(InvalidArgument(key))
  }

  /** The `forEach` from options `o`: arguments in order, stopping at the
      first one that throws. */
  function Scan(o: Options, args: seq<string>): Result<Options, ConfigError>
  {
    if args == [] then Ok(o)
    else match Scan(o, args[..|args| - 1])
      case Err(e) => Err(e)
      case Ok(o') => ApplyArg(o', args[|args| - 1])
  }

  function ScanArgs(args: seq<string>): Result<Options, ConfigError>
  {
    Scan(NoOptions, args)
  }

  /** Lines 105-127: environment fallback for each option, the three
      required values checked in order, then the transport and port defaults. */
  function Resolve(o: Options, env: Env): (r: Result<Config, ConfigError>)
    ensures r.Ok? ==> r.value.apiKey != "" && r.value.luneName != "" && r.value.luneId != ""
    ensures r.Ok? ==> r.value.transport != ""
  {
    var apiKey := Or(o.apiKey, EnvVar(env, "LUNE_API_KEY"));
    if !Truthy(apiKey) then Err(MissingApiKey)
    else
      var luneName := Or(o.luneName, EnvVar(env, "LUNE_NAME"));
      if !Truthy(luneName) then Err(MissingLuneName)
      else
        var luneId := Or(o.luneId, EnvVar(env, "LUNE_ID"));
        if !Truthy(luneId) then Err(MissingLuneId)
        else
          var transport := Or(Or(o.transport, EnvVar(env, "TRANSPORT")), Some("stdio"));
          var port :=
            if o.port.Some? && o.port.value != 0 then PortNumber(o.port.value)
            else match ParseInt(Or(EnvVar(env, "PORT"), Some("3000")).value)
              case None => NotANumber
              case Some(n) => PortNumber(n);
          Ok(Config(apiKey.value, luneName.value, luneId.value, transport.value, port))
  }

  /** What `parseArgs(args)` returns or throws under environment `env`. */
  function Parsed(args: seq<string>, env: Env): Result<Config, ConfigError>
  {
    match ScanArgs(args)
    case Err(e) => Err(e)
    case Ok(o) => Resolve(o, env)
  }

  /** `parseArgs`, written as the source writes it: a loop that updates the
      options record field by field and throws on the first bad argument,
      then the environment fallbacks. */
  method ParseArgs(args: seq<string>, env: Env) returns (r: Result<Config, ConfigError>)
    ensures r == Parsed(args, env)
  {
    var options := NoOptions;
    for i := 0 to |args|
      invariant ScanArgs(args[..i]) == Ok(options)
    {
      var arg := args[i];
      if StartsWith(arg, "--") {
        var parts := SplitOn(arg[2..], '=');
        var key := parts[0];
        var value := if |parts| >= 2 then Some(parts[1]) else None;
        if key == "api-key" {
          options := options.(apiKey := value);
        } else if key == "lune-name" {
          options := options.(luneName := value);
        } else if key == "lune-id" {
          options := options.(luneId := value);
        } else if key == "transport" {
          if value != Some("stdio") && value != Some("sse") {
            ThrowStopsScan(args, i, options);
            return Err(InvalidTransport(value));
          }
          options := options.(transport := value);
        } else if key == "port" {
          var port := if value.Some? then ParseInt(value.value) else None;
          if port.None? {
            ThrowStopsScan(args, i, options);
            return Err(InvalidPort(value));
          }
          options := options.(port := port);
        } else {
          ThrowStopsScan(args, i, options);
          return Err(InvalidArgument(key));
        }
      }
      assert args[..i + 1][..i] == args[..i];
    }
    assert args[..|args|] == args;

    var apiKey := if Truthy(options.apiKey) then options.apiKey else EnvVar(env, "LUNE_API_KEY");
    if !Truthy(apiKey) {
      return Err(MissingApiKey);
    }
    var luneName := if Truthy(options.luneName) then options.luneName else EnvVar(env, "LUNE_NAME");
    if !Truthy(luneName) {
      return Err(MissingLuneName);
    }
    var luneId := if Truthy(options.luneId) then options.luneId else EnvVar(env, "LUNE_ID");
    if !Truthy(luneId) {
      return Err(MissingLuneId);
    }
    var transport := "stdio";
    if Truthy(options.transport) {
      transport := options.transport.value;
    } else if Truthy(EnvVar(env, "TRANSPORT")) {
      transport := env["TRANSPORT"];
    }
    var port: Port;
    if options.port.Some? && options.port.value != 0 {
      port := PortNumber(options.port.value);
    } else {
      var fromEnv := if Truthy(EnvVar(env, "PORT")) then env["PORT"] else "3000";
      var parsed := ParseInt(fromEnv);
      port := if parsed.Some? then PortNumber(parsed.value) else NotANumber;
    }
    r := Ok(Config(apiKey.value, luneName.value, luneId.value, transport, port));
  }

  /** Scanning a concatenation is scanning the first part, then the second
      from the options the first part left, unless the first part threw. */
  lemma {:induction false} ScanAppend(o: Options, p: seq<string>, q: seq<string>)
    ensures Scan(o, p + q) ==
      match Scan(o, p)
      case Err(e) => Err(e)
      case Ok(o') => Scan(o', q)
  {
    if q == [] {
      assert p + q == p;
    } else {
      var q' := q[..|q| - 1];
      assert (p + q)[..|p + q| - 1] == p + q';
      assert (p + q)[|p + q| - 1] == q[|q| - 1];
      ScanAppend(o, p, q');
    }
  }

  /** When the argument at `i` throws, the whole scan throws that error: no
      later argument is looked at. */
  lemma ThrowStopsScan(args: seq<string>, i: nat, o: Options)
    requires i < |args|
    requires ScanArgs(args[..i]) == Ok(o)
    requires ApplyArg(o, args[i]).Err?
    ensures ScanArgs(args) == ApplyArg(o, args[i])
  {
    assert args[..i + 1][..i] == args[..i];
    assert ScanArgs(args[..i + 1]) == ApplyArg(o, args[i]);
    assert args == args[..i + 1] + args[i + 1..];
    ScanAppend(NoOptions, args[..i + 1], args[i + 1..]);
  }

  /** An argument that does not start with "--" can be removed without
      changing the outcome of the scan. */
  lemma NonFlagIgnored(p: seq<string>, a: string, q: seq<string>)
    requires !IsFlag(a)
    ensures ScanArgs(p + [a] + q) == ScanArgs(p + q)
  {
    ScanAppend(NoOptions, p + [a], q);
    ScanAppend(NoOptions, p, [a]);
    ScanAppend(NoOptions, p, q);
    assert ([] + [a])[..0] == [];
    assert Scan(NoOptions, p + [a]) == Scan(NoOptions, p) by {
      match Scan(NoOptions, p)
      case Err(e) =>
      case Ok(o) =>
        assert [a][..0] == [];
    }
  }

  /** An argument the scan accepts: not a flag, a flag with one of the five
      keys, a transport of "stdio" or "sse", a port that parses. */
  predicate Acceptable(arg: string)
  {
    !IsFlag(arg) ||
    (KnownKey(FlagKey(arg)) &&
     (FlagKey(arg) == "transport" ==> ValidTransport(FlagValue(arg))) &&
     (FlagKey(arg) == "port" ==> PortOf(FlagValue(arg)).Some?))
  }

  /** The error an unacceptable argument raises. */
  function Rejection(arg: string): ConfigError
    requires !Acceptable(arg)
  {
    var key := FlagKey(arg);
    if key == "transport" then InvalidTransport(FlagValue(arg))
    else if key == "port" then InvalidPort(FlagValue(arg))
    else InvalidArgument(key)
  }

  lemma ApplyArgAccepts(o: Options, arg: string)
    ensures ApplyArg(o, arg).Ok? <==> Acceptable(arg)
    ensures !Acceptable(arg) ==> ApplyArg(o, arg) == Err(Rejection(arg))
  {
  }

  /** The scan succeeds exactly when every argument is acceptable. */
  lemma {:induction false} ScanOkIff(o: Options, args: seq<string>)
    ensures Scan(o, args).Ok? <==> forall i :: 0 <= i < |args| ==> Acceptable(args[i])
  {
    if args != [] {
      var init := args[..|args| - 1];
      ScanOkIff(o, init);
      match Scan(o, init)
      case Err(e) =>
      case Ok(o') => ApplyArgAccepts(o', args[|args| - 1]);
      assert forall i :: 0 <= i < |init| ==> init[i] == args[i];
    }
  }

  /** When the scan fails, it reports the first unacceptable argument. */
  lemma FirstRejectionReported(args: seq<string>, i: nat)
    requires i < |args|
    requires forall j :: 0 <= j < i ==> Acceptable(args[j])
    requires !Acceptable(args[i])
    ensures ScanArgs(args) == Err(Rejection(args[i]))
  {
    ScanOkIff(NoOptions, args[..i]);
    var o := ScanArgs(args[..i]).value;
    ApplyArgAccepts(o, args[i]);
    ThrowStopsScan(args, i, o);
  }

  /** The value an accepted flag stores under its key (ports as parsed). */
  function Stored(o: Options, key: string): Option<string>
    requires KnownKey(key) && key != "port"
  {
    if key == "api-key" then o.apiKey
    else if key == "lune-name" then o.luneName
    else if key == "lune-id" then o.luneId
    else o.transport
  }

  /** Arguments that do not mention `key` leave it as it was. */
  lemma {:induction false} ScanKeepsKey(o: Options, q: seq<string>, key: string)
    requires KnownKey(key)
    requires forall j :: 0 <= j < |q| && IsFlag(q[j]) ==> FlagKey(q[j]) != key
    requires Scan(o, q).Ok?
    ensures key == "port" ==> Scan(o, q).value.port == o.port
    ensures key != "port" ==> Stored(Scan(o, q).value, key) == Stored(o, key)
  {
    if q != [] {
      var init := q[..|q| - 1];
      assert forall j :: 0 <= j < |init| ==> init[j] == q[j];
      assert Scan(o, init).Ok?;
      ScanKeepsKey(o, init, key);
    }
  }

  /** A repeated key takes the value of its last occurrence. */
  lemma LastOccurrenceWins(args: seq<string>, i: nat)
    requires i < |args| && IsFlag(args[i]) && KnownKey(FlagKey(args[i]))
    requires forall j :: i < j < |args| && IsFlag(args[j]) ==> FlagKey(args[j]) != FlagKey(args[i])
    requires ScanArgs(args).Ok?
    ensures FlagKey(args[i]) == "port" ==> ScanArgs(args).value.port == PortOf(FlagValue(args[i]))
    ensures FlagKey(args[i]) != "port" ==> Stored(ScanArgs(args).value, FlagKey(args[i])) == FlagValue(args[i])
  {
    var key := FlagKey(args[i]);
    var head, rest := args[..i + 1], args[i + 1..];
    assert args == head + rest;
    ScanAppend(NoOptions, head, rest);
    assert head[..i] == args[..i];
    ScanAppend(NoOptions, args[..i], [args[i]]);
    assert args[..i] + [args[i]] == head;
    var o := ScanArgs(head).value;
    ScanKeepsKey(o, rest, key);
  }

  /** A key that no argument sets stays undefined. */
  lemma NeverSetStaysUndefined(args: seq<string>, key: string)
    requires KnownKey(key)
    requires forall j :: 0 <= j < |args| && IsFlag(args[j]) ==> FlagKey(args[j]) != key
    requires ScanArgs(args).Ok?
    ensures key == "port" ==> ScanArgs(args).value.port.None?
    ensures key != "port" ==> Stored(ScanArgs(args).value, key).None?
  {
    ScanKeepsKey(NoOptions, args, key);
  }

  /** The three required values are checked in order, each falling back to
      its environment variable when the option is undefined or empty. */
  lemma RequiredValues(o: Options, env: Env)
    ensures Resolve(o, env) == Err(MissingApiKey) <==>
      !Truthy(o.apiKey) && !Truthy(EnvVar(env, "LUNE_API_KEY"))
    ensures Resolve(o, env) == Err(MissingLuneName) <==>
      Truthy(Or(o.apiKey, EnvVar(env, "LUNE_API_KEY"))) &&
      !Truthy(o.luneName) && !Truthy(EnvVar(env, "LUNE_NAME"))
    ensures Resolve(o, env) == Err(MissingLuneId) <==>
      Truthy(Or(o.apiKey, EnvVar(env, "LUNE_API_KEY"))) &&
      Truthy(Or(o.luneName, EnvVar(env, "LUNE_NAME"))) &&
      !Truthy(o.luneId) && !Truthy(EnvVar(env, "LUNE_ID"))
    ensures Resolve(o, env).Ok? <==>
      Truthy(Or(o.apiKey, EnvVar(env, "LUNE_API_KEY"))) &&
      Truthy(Or(o.luneName, EnvVar(env, "LUNE_NAME"))) &&
      Truthy(Or(o.luneId, EnvVar(env, "LUNE_ID")))
  {
  }

  /** A non-empty command-line value wins over the environment; an
      undefined or empty one falls back to it. */
  lemma OptionOverridesEnv(o: Options, env: Env)
    requires Resolve(o, env).Ok?
    ensures Resolve(o, env).value.apiKey ==
      if Truthy(o.apiKey) then o.apiKey.value else env["LUNE_API_KEY"]
    ensures Resolve(o, env).value.luneName ==
      if Truthy(o.luneName) then o.luneName.value else env["LUNE_NAME"]
    ensures Resolve(o, env).value.luneId ==
      if Truthy(o.luneId) then o.luneId.value else env["LUNE_ID"]
  {
  }

  /** With neither a transport option nor a `TRANSPORT` variable the
      transport is "stdio"; with neither a non-zero port option nor a `PORT`
      variable the port is 3000. */
  lemma Defaults(o: Options, env: Env)
    requires Resolve(o, env).Ok?
    ensures !Truthy(o.transport) && !Truthy(EnvVar(env, "TRANSPORT")) ==>
      Resolve(o, env).value.transport == "stdio"
    ensures (o.port.None? || o.port.value == 0) && !Truthy(EnvVar(env, "PORT")) ==>
      Resolve(o, env).value.port == PortNumber(3000)
  {
    assert NatToString(3000) == "3000";
    ParseIntRoundTrip(3000);
  }

  /** The transport is the accepted option, else a non-empty `TRANSPORT`
      (taken as it is); the port, without a non-zero option, is a non-empty
      `PORT` as `parseInt` reads it, passed on as NaN when it is no number. */
  lemma TransportAndPortFallback(o: Options, env: Env)
    requires Resolve(o, env).Ok?
    ensures Truthy(o.transport) ==> Resolve(o, env).value.transport == o.transport.value
    ensures !Truthy(o.transport) && Truthy(EnvVar(env, "TRANSPORT")) ==>
      Resolve(o, env).value.transport == env["TRANSPORT"]
    ensures !(o.port.Some? && o.port.value != 0) && Truthy(EnvVar(env, "PORT")) ==>
      Resolve(o, env).value.port ==
        if ParseInt(env["PORT"]).Some? then PortNumber(ParseInt(env["PORT"]).value) else NotANumber
  {
  }

  /** With the three required values set and no options, a `PORT` that does
      not parse reaches the configuration as NaN, unreported. */
  lemma UnparsablePortPassedThrough()
    ensures Parsed([], map["LUNE_API_KEY" := "k", "LUNE_NAME" := "n", "LUNE_ID" := "i", "PORT" := "abc"])
      == Ok(Config("k", "n", "i", "stdio", NotANumber))
  {
    var env := map["LUNE_API_KEY" := "k", "LUNE_NAME" := "n", "LUNE_ID" := "i", "PORT" := "abc"];
    assert EnvVar(env, "LUNE_API_KEY") == Some("k");
    assert EnvVar(env, "LUNE_NAME") == Some("n");
    assert EnvVar(env, "LUNE_ID") == Some("i");
    assert EnvVar(env, "TRANSPORT") == None;
    assert EnvVar(env, "PORT") == Some("abc");
    assert LeadingDigits("abc") == [];
    Defaults(NoOptions, env);
    TransportAndPortFallback(NoOptions, env);
  }

  /** A port given on the command line (other than 0) is used as parsed. */
  lemma PortOptionUsed(o: Options, env: Env)
    requires Resolve(o, env).Ok? && o.port.Some? && o.port.value != 0
    ensures Resolve(o, env).value.port == PortNumber(o.port.value)
  {
  }

  /** The scan only ever stores a transport of "stdio" or "sse". */
  lemma {:induction false} ScanTransportValid(o: Options, args: seq<string>)
    requires o.transport.None? || ValidTransport(o.transport)
    requires Scan(o, args).Ok?
    ensures Scan(o, args).value.transport.None? || ValidTransport(Scan(o, args).value.transport)
  {
    if args != [] {
      assert Scan(o, args[..|args| - 1]).Ok?;
      ScanTransportValid(o, args[..|args| - 1]);
    }
  }

  /** As written, a `TRANSPORT` variable is taken without the check that a
      `--transport` flag gets: "http" from the environment is accepted... */
  lemma EnvTransportNotValidated()
    ensures Parsed([], TransportEnv("http")) == Ok(Config("k", "n", "i", "http", PortNumber(3000)))
  {
    var env := TransportEnv("http");
    assert EnvVar(env, "LUNE_API_KEY") == Some("k");
    assert EnvVar(env, "LUNE_NAME") == Some("n");
    assert EnvVar(env, "LUNE_ID") == Some("i");
    assert EnvVar(env, "TRANSPORT") == Some("http");
    assert EnvVar(env, "PORT") == None;
    Defaults(NoOptions, env);
  }

  /** ...while any invalid transport on the command line is rejected,
      whatever the environment says. */
  lemma FlagTransportValidated(value: string, env: Env)
    requires '=' !in value && value != "stdio" && value != "sse"
    ensures Parsed(["--transport=" + value], env) == Err(InvalidTransport(Some(value)))
  {
    var arg := "--transport=" + value;
    FlagParts("transport", value);
    assert "--" + "transport" + "=" == "--transport=";
    assert "--" + "transport" + "=" + value == arg;
    assert ScanArgs([arg]) == ApplyArg(NoOptions, arg) by {
      assert [arg][..0] == [];
      assert Scan(NoOptions, []) == Ok(NoOptions);
    }
    assert ApplyArg(NoOptions, arg) == Err(InvalidTransport(Some(value)));
  }

  /** `--key=value` splits into its key and value when neither holds "=". */
  lemma FlagParts(key: string, value: string)
    requires '=' !in key && '=' !in value
    ensures IsFlag("--" + key + "=" + value)
    ensures FlagKey("--" + key + "=" + value) == key
    ensures FlagValue("--" + key + "=" + value) == Some(value)
  {
    var arg := "--" + key + "=" + value;
    assert arg[..2] == "--";
    assert arg[2..] == Join([key, value], "=");
    SplitJoin([key, value], '=');
  }

  /** An environment that supplies the three required values and a transport. */
  function TransportEnv(transport: string): Env
  {
    map["LUNE_API_KEY" := "k", "LUNE_NAME" := "n", "LUNE_ID" := "i", "TRANSPORT" := transport]
  }

  /** `parseArgs` with the resolved transport checked against "stdio" and
      "sse" whichever source it came from, as the declared return type
      `"stdio" | "sse"` intends. */
  function ParsedChecked(args: seq<string>, env: Env): (r: Result<Config, ConfigError>)
    ensures r.Ok? ==> r.value.transport in {"stdio", "sse"}
  {
    match Parsed(args, env)
    case Err(e) => Err(e)
    case Ok(c) => if ValidTransport(Some(c.transport)) then Ok(c) else Err(InvalidTransport(Some(c.transport)))
  }

  /** The checked parse only yields a transport the server can start, and it
      agrees with the unchecked parse on every other input. */
  lemma ParsedCheckedSound(args: seq<string>, env: Env)
    ensures ParsedChecked(args, env).Ok? ==>
      ParsedChecked(args, env).value.transport in {"stdio", "sse"}
    ensures ParsedChecked(args, env) != Parsed(args, env) <==>
      Parsed(args, env).Ok? && Parsed(args, env).value.transport !in {"stdio", "sse"}
    ensures ParsedChecked(args, env) != Parsed(args, env) ==>
      Truthy(EnvVar(env, "TRANSPORT")) && ParsedChecked(args, env) == Err(InvalidTransport(EnvVar(env, "TRANSPORT")))
  {
    if Parsed(args, env).Ok? {
      var o := ScanArgs(args).value;
      ScanTransportValid(NoOptions, args);
      if !ValidTransport(Some(Parsed(args, env).value.transport)) {
        assert !Truthy(o.transport);
      }
    }
  }
}
