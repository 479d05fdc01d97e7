/** `main`: parse the configuration, register the tool under the derived
    name, then start the transport the configuration names. */
module Server {
  import opened Wrappers
  import opened Cli
  import opened Tool

  /** The transport `main` starts: stdio, SSE on a port, or none when the
      transport is neither "stdio" nor "sse". */
  datatype Binding = StdioBinding | SseBinding(port: Port) | NoBinding

  /** `if (transport === "stdio") … else if (transport === "sse") …` */
  function SelectBinding(c: Config): (b: Binding)
    ensures b.StdioBinding? <==> c.transport == "stdio"
    ensures b.SseBinding? <==> c.transport == "sse"
    ensures b.SseBinding? ==> b.port == c.port
  {
    if c.transport == "stdio" then StdioBinding
    else if c.transport == "sse" then SseBinding(c.port)
    else NoBinding
  }

  /** What startup ends in: the configuration error that is reported before
      the process exits, or the registered tool and the started transport. */
  datatype Startup = Failed(error: ConfigError) | Serving(config: Config, tool: ToolDescriptor, binding: Binding)

  function Start(args: seq<string>, env: Env): Startup
  {
    match Parsed(args, env)
    case Err(e) => Failed(e)
    case Ok(c) => Serving(c, Describe(c.luneName), SelectBinding(c))
  }

  /** Startup fails exactly when `parseArgs` throws; otherwise the tool is
      registered under "lookup_context_for_" followed by the lune name. */
  lemma StartOutcome(args: seq<string>, env: Env)
    ensures Start(args, env).Failed? <==> Parsed(args, env).Err?
    ensures Start(args, env).Serving? ==>
      Start(args, env).tool.name == ToolName(Start(args, env).config.luneName) &&
      LuneNameOf(Start(args, env).tool.name) == Some(Start(args, env).config.luneName)
  {
  }

  /** Startup without a transport happens only through the environment: no
      accepted `--transport` flag was given and `TRANSPORT` holds a value
      other than "stdio" and "sse". */
  lemma NoBindingOnlyFromEnv(args: seq<string>, env: Env)
    requires Start(args, env).Serving? && Start(args, env).binding == NoBinding
    ensures !Truthy(ScanArgs(args).value.transport)
    ensures Truthy(EnvVar(env, "TRANSPORT"))
    ensures env["TRANSPORT"] != "stdio" && env["TRANSPORT"] != "sse"
  {
    ScanTransportValid(NoOptions, args);
  }

  /** With the checked parse every successful startup serves a transport. */
  lemma CheckedStartAlwaysBinds(args: seq<string>, env: Env)
    requires ParsedChecked(args, env).Ok?
    ensures SelectBinding(ParsedChecked(args, env).value) != NoBinding
  {
    ParsedCheckedSound(args, env);
  }
}
