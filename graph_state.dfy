/** The LangGraph state shared by the single-agent and the multi-agent graphs:
    messages as the graph sees them, and the nodes of the single-agent graph. */
module GraphState {

  /** A tool call requested by the model. */
  datatype ToolCall = ToolCall(name: string, args: map<string, string>)

  datatype MessageType = HumanType | AiType | ToolType | SystemType

  /** A message of the graph state; `toolCalls` is [] when the model asked for none. */
  datatype GraphMessage = GraphMessage(kind: MessageType, content: string, toolCalls: seq<ToolCall>)

  /** The nodes of the agent/tools graph of main.py and gui.py. */
  datatype Node = Start | Agent | Tools | End

  /** `START -> agent`, `agent -> {tools, END}`, `tools -> agent`. */
  const AgentToolsEdges: set<(Node, Node)> :=
    {(Start, Agent), (Agent, Tools), (Agent, End), (Tools, Agent)}

  /** In the agent/tools graph only the agent node can finish a run. */
  lemma OnlyAgentReachesEnd(a: Node)
    requires (a, End) in AgentToolsEdges
    ensures a == Agent
  {
  }

  /** Every node but END has a way on, and nothing leaves END. */
  lemma EndIsTheOnlySink(a: Node)
    ensures (exists b :: (a, b) in AgentToolsEdges) <==> a != End
  {
    if a == Start { assert (Start, Agent) in AgentToolsEdges; }
    if a == Agent { assert (Agent, End) in AgentToolsEdges; }
    if a == Tools { assert (Tools, Agent) in AgentToolsEdges; }
  }
}
