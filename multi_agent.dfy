/** The supervisor pattern of multi_agent.py: a Supervisor node that names the next
    worker, two workers each with its own tool node, the routing tables between
    them, and the page's fold of the streamed node updates into one answer. The
    LLM calls and the graph run are parameters. */
module MultiAgent {
  import opened Wrappers
  import opened Text
  import opened GraphState
  import opened ChatState

  /** The nodes: START, "Supervisor", "File_Agent", "Math_Agent", "File_Tools",
      "Math_Tools" and END. */
  datatype MultiNode = Begin | Supervisor | FileWorker | MathWorker | FileTools | MathTools | Finish

  const FinishKey: string := "FINISH"

  /** The `next` the Supervisor sets: the "next" entry of its JSON reply, or "FINISH"
      when the entry is missing or the reply is not a JSON object (`None`). */
  function SupervisorNext(reply: Option<map<string, string>>): (next: string)
    ensures reply.Some? && "next" in reply.value ==> next == reply.value["next"]
    ensures reply.None? || "next" !in reply.value ==> next == FinishKey
  {
    match reply
    case None => FinishKey
    case Some(decision) => if "next" in decision then decision["next"] else FinishKey
  }

  /** The Supervisor's conditional edge map; a key outside it has no route (`None`). */
  function SupervisorRoute(next: string): Option<MultiNode> {
    if next == "File_Agent" then Some(FileWorker)
    else if next == "Math_Agent" then Some(MathWorker)
    else if next == FinishKey then Some(Finish)
    else None
  }

  /** Every edge of the compiled graph. */
  const Edges: set<(MultiNode, MultiNode)> := {
    (Begin, Supervisor),
    (Supervisor, FileWorker), (Supervisor, MathWorker), (Supervisor, Finish),
    (FileWorker, FileTools), (FileWorker, Supervisor),
    (MathWorker, MathTools), (MathWorker, Supervisor),
    (FileTools, FileWorker), (MathTools, MathWorker)
  }

  /** The Supervisor follows one of its own edges; it ends the run exactly on
      "FINISH", so an unusable reply ends it too. */
  lemma SupervisorRouting(reply: Option<map<string, string>>)
    ensures var route := SupervisorRoute(SupervisorNext(reply));
      && (route.Some? ==> (Supervisor, route.value) in Edges)
      && (route == Some(Finish) <==> SupervisorNext(reply) == FinishKey)
      && (reply.None? ==> route == Some(Finish))
  {
  }

  /** END is entered only from the Supervisor. */
  lemma OnlySupervisorFinishes(a: MultiNode)
    requires (a, Finish) in Edges
    ensures a == Supervisor
  {
  }

  predicate IsWorker(n: MultiNode) {
    n == FileWorker || n == MathWorker
  }

  /** A worker's own tool node. */
  function ToolsOf(worker: MultiNode): MultiNode
    requires IsWorker(worker)
  {
    if worker == FileWorker then FileTools else MathTools
  }

  /** The workers' `should_continue`: to its own tools while the last message asks
      for tools ("continue"), else back to the Supervisor ("back_to_manager"). */
  function WorkerShouldContinue(worker: MultiNode, messages: seq<GraphMessage>): (next: MultiNode)
    requires IsWorker(worker) && messages != []
    ensures (worker, next) in Edges
  {
    if messages[|messages| - 1].toolCalls != [] then ToolsOf(worker) else Supervisor
  }

  /** A worker never ends the run and never hands over to the other worker. */
  lemma WorkerRouting(worker: MultiNode, messages: seq<GraphMessage>)
    requires IsWorker(worker) && messages != []
    ensures WorkerShouldContinue(worker, messages) == ToolsOf(worker) <==>
      messages[|messages| - 1].toolCalls != []
    ensures WorkerShouldContinue(worker, messages) != Finish
    ensures forall other :: IsWorker(other) && other != worker ==>
      WorkerShouldContinue(worker, messages) != other && WorkerShouldContinue(worker, messages) != ToolsOf(other)
  {
  }

  /** A tool node leads back only to the worker that owns it. */
  lemma ToolsReturnToOwner(worker: MultiNode, b: MultiNode)
    requires IsWorker(worker) && (ToolsOf(worker), b) in Edges
    ensures b == worker
  {
  }

  /** The tools given to each worker. */
  const FileToolNames: set<string> := {"list_directory", "check_file_exists"}
  const MathToolNames: set<string> := {"calculator"}

  /** No tool belongs to both workers, so each tool node serves one worker's calls. */
  lemma ToolSetsDisjoint()
    ensures FileToolNames !! MathToolNames
    ensures |FileToolNames + MathToolNames| == 3
  {
    assert "list_directory" != "check_file_exists" by {
      assert "list_directory"[0] != "check_file_exists"[0];
    }
    assert "calculator" !in FileToolNames by {
      assert "calculator"[1] != "list_directory"[1];
      assert "calculator"[1] != "check_file_exists"[1];
    }
  }

  /** The graph state: the accumulated messages and the Supervisor's choice. */
  datatype AgentState = AgentState(messages: seq<GraphMessage>, next: string)

  /** A worker node's update: its model's one reply is added; `next` is left alone. */
  function WorkerStep(state: AgentState, result: GraphMessage): AgentState {
    state.(messages := state.messages + [result])
  }

  /** Several worker steps in a row. */
  function WorkerSteps(state: AgentState, results: seq<GraphMessage>): AgentState {
    if results == [] then state
    else WorkerStep(WorkerSteps(state, results[..|results| - 1]), results[|results| - 1])
  }

  /** Workers only append: after any run of worker steps the messages are the old ones
      followed by the replies in order, and the Supervisor's `next` is unchanged. */
  lemma {:induction false} WorkersOnlyAppend(state: AgentState, results: seq<GraphMessage>)
    ensures WorkerSteps(state, results) == AgentState(state.messages + results, state.next)
  {
    if results != [] {
      var n := |results| - 1;
      WorkersOnlyAppend(state, results[..n]);
      assert state.messages + results[..n] + [results[n]] == state.messages + results;
    }
  }

  /** One streamed update: the node that produced it and the last message of its
      "messages" entry, if it has one. */
  datatype NodeEvent = NodeEvent(node: string, lastMessage: Option<GraphMessage>)

  /** A worker update that is a text answer rather than a tool request. */
  predicate ReportsBack(e: NodeEvent) {
    (e.node == "File_Agent" || e.node == "Math_Agent")
    && e.lastMessage.Some? && e.lastMessage.value.toolCalls == [] && e.lastMessage.value.content != ""
  }

  /** `f"**{agent_name}:** {msg.content}"` */
  function ReplyLine(e: NodeEvent): string
    requires ReportsBack(e)
  {
    "**" + e.node + ":** " + e.lastMessage.value.content
  }

  /** The replies collected from the given updates, in order. */
  function WorkerReplies(events: seq<NodeEvent>): seq<string> {
    if events == [] then []
    else
      var e := events[|events| - 1];
      WorkerReplies(events[..|events| - 1]) + (if ReportsBack(e) then [ReplyLine(e)] else [])
  }

  /** The collection distributes over the stream: the replies of a longer stream are
      those of its first part followed by those of the rest. */
  lemma {:induction false} WorkerRepliesAppend(a: seq<NodeEvent>, b: seq<NodeEvent>)
    ensures WorkerReplies(a + b) == WorkerReplies(a) + WorkerReplies(b)
    decreases |b|
  {
    if b == [] {
      assert a + b == a;
    } else {
      var n := |b| - 1;
      assert (a + b)[..|a + b| - 1] == a + b[..n];
      assert (a + b)[|a + b| - 1] == b[n];
      WorkerRepliesAppend(a, b[..n]);
    }
  }

  /** No reply is empty, and there is none exactly when no update reports back. */
  lemma {:induction false} WorkerRepliesCases(events: seq<NodeEvent>)
    ensures forall k :: 0 <= k < |WorkerReplies(events)| ==> WorkerReplies(events)[k] != ""
    ensures WorkerReplies(events) == [] <==> forall k :: 0 <= k < |events| ==> !ReportsBack(events[k])
  {
    if events != [] {
      var n := |events| - 1;
      WorkerRepliesCases(events[..n]);
      assert forall k :: 0 <= k < n ==> events[..n][k] == events[k];
      if ReportsBack(events[n]) {
        assert ReplyLine(events[n])[0] == '*';
      }
    }
  }

  /** The event loop: every worker answer is appended to `final_responses`. */
  method CollectReplies(events: seq<NodeEvent>) returns (responses: seq<string>)
    ensures responses == WorkerReplies(events)
  {
    responses := [];
    for i := 0 to |events|
      invariant responses == WorkerReplies(events[..i])
    {
      assert events[..i + 1][..i] == events[..i];
      var e := events[i];
      if (e.node == "File_Agent" || e.node == "Math_Agent") && e.lastMessage.Some? {
        var msg := e.lastMessage.value;
        if msg.toolCalls == [] && msg.content != "" {
          responses := responses + ["**" + e.node + ":** " + msg.content];
        }
      }
    }
    assert events[..|events|] == events;
  }

  /** `"\n\n".join(final_responses)` */
  function CombinedAnswer(responses: seq<string>): string {
    Join("\n\n", responses)
  }

  /** The combined answer is empty exactly when no worker answered. */
  lemma CombinedAnswerEmptyIff(events: seq<NodeEvent>)
    ensures CombinedAnswer(WorkerReplies(events)) == "" <==> WorkerReplies(events) == []
  {
    WorkerRepliesCases(events);
    if WorkerReplies(events) != [] {
      JoinNonEmpty("\n\n", WorkerReplies(events), 0);
    }
  }

  /** A prompt: show it, run the graph, and keep the combined answer only when some
      worker answered. */
  method HandlePrompt(chat: ThreadedChat, prompt: string, events: seq<NodeEvent>)
    returns (answer: string)
    modifies chat
    ensures answer == CombinedAnswer(WorkerReplies(events))
    ensures chat.messages == old(chat.messages) + [ChatMessage(UserRole, prompt)]
      + (if WorkerReplies(events) != [] then [ChatMessage(AssistantRole, answer)] else [])
    ensures chat.threadId == old(chat.threadId)
  {
    chat.Submit(prompt);
    var responses := CollectReplies(events);
    answer := CombinedAnswer(responses);
    CombinedAnswerEmptyIff(events);
    chat.RecordAnswer(answer);
  }
}
