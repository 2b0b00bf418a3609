/** `call_mcp_tool`, the adapter through which the LangChain tools of gui.py and
    multi_agent.py reach the MCP server. The two copies differ only in the text of
    their two fallback replies. `json.loads` and the MCP session are parameters. */
module McpClient {
  import opened Wrappers
  import opened Text

  /** The `arguments` handed to the adapter: a raw string, or an already decoded object. */
  datatype ToolArgs = ArgText(text: string) | ArgObject(fields: map<string, string>)

  /** Which copy of the adapter: gui.py's or multi_agent.py's. */
  datatype Flavour = GuiClient | MultiAgentClient

  /** `session.call_tool(name, arguments)`: the texts of the returned content items,
      or an exception (from the call or from opening the stdio connection). */
  datatype SessionOutcome = Returned(contents: seq<string>) | SessionFailed(cause: string)

  /** A string argument that `json.loads` accepts is replaced by what it decodes to;
      any other argument is passed on unchanged. */
  function NormalizeArgs(args: ToolArgs, parseJson: string -> Option<ToolArgs>): (r: ToolArgs)
    ensures args.ArgObject? ==> r == args
    ensures args.ArgText? && parseJson(args.text).None? ==> r == args
    ensures args.ArgText? && parseJson(args.text).Some? ==> r == parseJson(args.text).value
  {
    match args
    case ArgText(t) => parseJson(t).GetOr(args)
    case ArgObject(_) => args
  }

  /** The reply when the tool returned no content. */
  function EmptyNotice(flavour: Flavour): string {
    match flavour
    case GuiClient => "Tool executed but returned no content."
    case MultiAgentClient => "Tool executed."
  }

  /** What a caught exception is reported as, before its text. */
  function FailurePrefix(flavour: Flavour): string {
    match flavour
    case GuiClient => "MCP Connection Error: "
    case MultiAgentClient => "Error: "
  }

  /** `call_mcp_tool(tool_name, arguments)`: normalise the arguments, call the tool,
      reply with the first content item's text, the empty notice, or the failure. */
  function CallMcpTool(flavour: Flavour, name: string, args: ToolArgs,
                       parseJson: string -> Option<ToolArgs>,
                       session: (string, ToolArgs) -> SessionOutcome): string
  {
    match session(name, NormalizeArgs(args, parseJson))
    case Returned(contents) => if contents != [] then contents[0] else EmptyNotice(flavour)
    case SessionFailed(cause) => FailurePrefix(flavour) + cause
  }

  /** The adapter never raises: every session outcome becomes a reply, and the two
      copies give the same reply whenever the tool returned content. */
  lemma CallMcpToolOutcomes(flavour: Flavour, name: string, args: ToolArgs,
                            parseJson: string -> Option<ToolArgs>,
                            session: (string, ToolArgs) -> SessionOutcome)
    ensures var outcome := session(name, NormalizeArgs(args, parseJson));
      var r := CallMcpTool(flavour, name, args, parseJson, session);
      && (outcome.Returned? && outcome.contents != [] ==>
            r == outcome.contents[0] ==
            CallMcpTool(if flavour == GuiClient then MultiAgentClient else GuiClient,
                        name, args, parseJson, session))
      && (outcome.Returned? && outcome.contents == [] ==> r == EmptyNotice(flavour))
      && (outcome.SessionFailed? ==>
            StartsWith(r, FailurePrefix(flavour)) && r[|FailurePrefix(flavour)|..] == outcome.cause)
  {
    var outcome := session(name, NormalizeArgs(args, parseJson));
    if outcome.SessionFailed? {
      StartsWithConcat(FailurePrefix(flavour), outcome.cause);
    }
  }

  /** A string argument holding the JSON of an object is sent exactly as that object
      would be. */
  lemma JsonTextActsAsObject(flavour: Flavour, name: string, t: string,
                             parseJson: string -> Option<ToolArgs>,
                             session: (string, ToolArgs) -> SessionOutcome)
    requires parseJson(t).Some? && parseJson(t).value.ArgObject?
    ensures CallMcpTool(flavour, name, ArgText(t), parseJson, session)
         == CallMcpTool(flavour, name, parseJson(t).value, parseJson, session)
  {
  }

  /** A string argument that is not JSON reaches the session unchanged, so the server
      sees the raw text. */
  lemma RawTextPassedThrough(flavour: Flavour, name: string, t: string,
                             parseJson: string -> Option<ToolArgs>,
                             session: (string, ToolArgs) -> SessionOutcome)
    requires parseJson(t).None?
    ensures CallMcpTool(flavour, name, ArgText(t), parseJson, session)
         == CallMcpTool(flavour, name, ArgText(t), _ => None, session)
  {
  }
}
