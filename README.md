# my-first-agent in Dafny

A Dafny model of the control logic in the `my-first-agent` repository. The
repository is a local AI agent built from a language model, a few tools (list a
directory, check that a file exists, evaluate arithmetic) and three ways of
wiring them together:

- **main.py and gui.py**: a single agent/tools graph. gui.py adds a history-length
  cap on tool use and folds the streamed graph states into one final answer.
- **multi_agent.py**: a Supervisor node that hands work to a File worker or a Math
  worker. Each worker has its own tool node. The workers' text answers are joined
  into one reply.
- **gui_a2a.py**: a supervisor turn loop that talks to two separate agent servers
  over A2A, the agent-to-agent protocol: the FileAgent of file_agent.py on port
  8001 and the MathAgent on port 8002. Each turn runs at most five hops. Each
  hop's decision passes a strict validator and a per-turn loop guard, and the
  turn stops when a reply marked `ERROR:` comes back.

The model covers:

- the input guards and result strings of the MCP tool server (mcp_server.py) and
  of the CLI's local tools (main.py);
- the FileAgent's command parser (file_agent.py);
- the MCP client adapter (`call_mcp_tool` in gui.py and multi_agent.py);
- the routing tables and answer folds of the three graphs;
- the displayed-chat state of the Streamlit pages;
- the gui_a2a.py supervisor turn.

The turn is a class `A2ANetwork.A2ASession` whose `RunTurn` method runs the hop
loop over the session's messages, a log, a set of executed signatures and the
calls made so far. `RunTurn` is proved equal to the pure function `Turn`, and the
turn's guarantees are proved about that function.

The language model, the A2A and MCP transports, `os.listdir`, `os.path.exists`,
`json.loads` and `eval` are function parameters (oracles). Python's string
operations are modelled in `Text`:

- `lower()` and `isdigit()` on ASCII;
- `split()` on Python's ASCII whitespace;
- `strip(chars)`, `", ".join`, `in` and `startswith`.

Files:

| file | module | models |
|---|---|---|
| wrappers.dfy | `Wrappers` | `Option` |
| text.dfy | `Text` | the Python string operations above |
| reports.dfy | `Reports` | probe and `eval` outcomes; the existence report |
| a2a_parts.dfy | `A2AParts` | locating a message and the text of its first part |
| file_agent.dfy | `FileAgent` | `FileAgentExecutor.execute` |
| mcp_server.dfy | `McpServer` | the three FastMCP tools |
| main_agent.dfy | `MainAgent` | main.py's tools, router, edges and exit test |
| graph_state.dfy | `GraphState` | graph messages and the agent/tools graph |
| mcp_client.dfy | `McpClient` | `call_mcp_tool` of gui.py and multi_agent.py |
| chat_state.dfy | `ChatState` | the thread id and displayed messages (class `ThreadedChat`) |
| gui_agent.dfy | `GuiAgent` | gui.py's router, answer fold and prompt handling |
| multi_agent.dfy | `MultiAgent` | the supervisor graph and its answer fold |
| a2a_network.dfy | `A2ANetwork` | gui_a2a.py: remote query, history, validator, turn loop (class `A2ASession`) |

Behaviour of the code worth noting:

- In the A2A turn, "FINISH", an unknown agent, a FileAgent command without "list"
  or "check", and a repeated signature all end the turn without adding any
  message. Only a MathAgent command without a digit adds a notice.
- Using up the five hops adds no message.
- A failed supervisor call falls back silently to "FINISH".
- There is no schema or empty-payload check on proposals.
- "Clear History" in gui.py and multi_agent.py issues a fresh thread id but keeps
  the displayed messages. The A2A page's "Clear Network History" empties them.

## Model

| member | source | states |
|---|---|---|
| Text.Lower | file_agent.py:43 | lower-casing keeps the length and maps each character on its own |
| Text.LowerIdempotent | file_agent.py:43 | lower-casing twice is lower-casing once |
| Text.WordsAreWords | file_agent.py:51 | `split()` yields only non-empty words free of whitespace |
| Text.WordsEmptyIffBlank | file_agent.py:51-53 | `split()` is empty exactly when the text is all whitespace |
| Text.WordsCoverText | file_agent.py:51 | the words, concatenated, are exactly the text's non-whitespace characters in order |
| Text.StripIsSlice | file_agent.py:53 | `strip(chars)` is a slice of its input; everything cut off on either side is in `chars` |
| Text.Strip | file_agent.py:53 | a stripped string begins and ends outside `chars` |
| Text.SplitJoinRoundTrip | file_agent.py:49 | names joined with ", " split back into the same names when none contains ", " |
| Text.JoinNonEmpty | multi_agent.py:288-289 | a join containing a non-empty item is non-empty |
| Text.Contains | file_agent.py:47-50 | `sub in s`: `sub` starts at some index of `s`; `ContainsAt` and `ContainsFromIndex` prove both directions |
| Text.Words | file_agent.py:51 | `split()` with no argument: the maximal runs of non-whitespace, in order; its properties are `WordsAreWords`, `WordsEmptyIffBlank` and `WordsCoverText` |
| Text.Join | file_agent.py:49 | `sep.join(items)`; `SplitJoinRoundTrip` inverts it for ", " and `JoinNonEmpty` bounds it |
| Reports.ExistsReportDecodes | file_agent.py:55 | "File '<f>' exists: <bool>" determines both the filename and the answer |
| A2AParts.ReceivedText | file_agent.py:19-40 | the text is non-empty only when a message with parts was located, and is then the text of its first part; the lookup order is stated by `PartTextOrder`, `MessageAttributeFirst` and `FirstPartOnly` |
| A2AParts.PartText | file_agent.py:29-40 | the text of one part: a non-empty `text` attribute, else `model_dump()`'s `text` entry, else `dict()`'s, else `str(part)`; `PartTextOrder` states the order |
| A2AParts.LocateMessage | file_agent.py:19-22 | `context.message` when that attribute exists, even when it is None, else `context.request.message`, else none; `MessageAttributeFirst` states the precedence |
| A2AParts.PartTextOrder | file_agent.py:29-40 | a non-empty `text` attribute wins whatever the dictionary views say; an empty one defers to `model_dump()` whatever `dict()` says; `dict()` comes next, and `str(part)` only when neither method exists |
| A2AParts.MessageAttributeFirst | file_agent.py:19-25 | an existing `context.message` hides `context.request.message`, and when it is None the text is ""; without it `context.request.message` is read the same way; with neither the text is "" |
| A2AParts.FirstPartOnly | file_agent.py:25-27 | the text depends only on the first part of the message |
| FileAgent.ParseCommand | file_agent.py:43-57 | the command is a listing iff the lower-cased text contains "list", a check iff it does not but contains "check", help otherwise; a checked filename has no whitespace and no '?', '.' or ',' at either end |
| FileAgent.CommandIgnoresCase | file_agent.py:43 | the command of a text and of its lower-cased form are equal |
| FileAgent.ListInAnyCase | file_agent.py:43-49 | a request starting with "list" in any letter case, such as "LIST files", is a listing whatever follows |
| FileAgent.CheckHasAWord | file_agent.py:50-53 | text containing "check" has a word, so the `""` fallback never applies |
| FileAgent.CheckedFilenameIsLastWord | file_agent.py:51-53 | the checked filename is the last word of the lower-cased text with '?', '.' and ',' removed from both ends |
| FileAgent.TrailingQuestionMarkExample | file_agent.py:51-53 | "check secrets.txt?" checks "secrets.txt" |
| FileAgent.ListingRoundTrip | file_agent.py:47-49 | a listing reply is "Files: " followed by names that split back into the listing |
| FileAgent.CheckReplyDecodes | file_agent.py:50-55 | different filenames get different check replies |
| FileAgent.NoMessageGivesHelp | file_agent.py:15-22 | with no message, or a message without parts, the reply is the help text |
| FileAgent.Respond | file_agent.py:46-57 | the reply for a parsed command: "Files: " and the joined listing, the existence report, or the help text; `ListingRoundTrip` and `CheckReplyDecodes` state what the replies carry |
| FileAgent.Execute | file_agent.py:14-59 | `execute` without the enqueue: the reply to the located text, parsed after lower-casing; `NoMessageGivesHelp` covers the missing message |
| McpServer.ListingRoundTrip | mcp_server.py:12-13 | a non-empty listing splits back into the names |
| McpServer.GuardsAgree | mcp_server.py:21 | the server's traversal guard rejects exactly the names main.py's guard rejects |
| McpServer.CheckFileExistsOutcomes | mcp_server.py:21-26 | a rejected name gets the denial whatever the probe would say; a name that passes gets the existence report |
| McpServer.RejectedBeforeEval | mcp_server.py:34-37 | an expression with a character outside the allow-list gets the rejection whatever `eval` would do |
| McpServer.GateWidensCliGate | mcp_server.py:34 | every expression main.py's calculator accepts, the server's accepts too |
| McpServer.DunderRejected | mcp_server.py:34-37 | an expression containing "__" is rejected |
| McpServer.GateReadsCharacterSet | mcp_server.py:36 | expressions using the same characters are gated alike; the empty expression passes |
| McpServer.LettersReachEval | mcp_server.py:34 | "import os" passes the server's gate but not main.py's |
| McpServer.ListingFailureReported | mcp_server.py:14-15 | a failing listing is reported as text starting with "Error" |
| McpServer.CheckFailureReported | mcp_server.py:21-28 | the denial and a failing probe are reported as text starting with "Error" |
| McpServer.CalculatorFailureReported | mcp_server.py:36-44 | a rejected expression and a failing `eval` are reported as text starting with "Error" |
| McpServer.ListDirectory | mcp_server.py:9-15 | the listing joined with ", ", "Directory is empty." for no entries, or "Error listing directory: " and the cause; `ListingRoundTrip` and `ListingFailureReported` state its outcomes |
| McpServer.IsTraversal | mcp_server.py:21 | the server's guard: "..", a leading "/" or "\\", or ":" anywhere; `GuardsAgree` relates it to main.py's |
| McpServer.CheckFileExists | mcp_server.py:18-28 | the denial for a rejected name, else the existence report or "Error: " and the cause; `CheckFileExistsOutcomes` states its cases |
| McpServer.CharsAllowed | mcp_server.py:34-36 | every character is a digit, an ASCII letter or one of "+-*/()., " |
| McpServer.Calculator | mcp_server.py:31-44 | the rejection for a character outside the allow-list, else the result of `eval` or "Error evaluating expression: " and the cause; `RejectedBeforeEval` and `CalculatorFailureReported` state its cases |
| MainAgent.TraversalByPosition | main.py:55 | the guard holds iff two adjacent dots, a leading '/' or '\\', or a ':' occur |
| MainAgent.DeniedWithoutProbe | main.py:55-56 | a rejected name gets the denial whatever the probe would say |
| MainAgent.TraversalExamples | main.py:55 | "../secret.txt", "/etc/passwd", a leading '\\' and any ':' are rejected |
| MainAgent.AllowedNameReported | main.py:58-60 | a name that passes is reported with the probe's answer |
| MainAgent.RejectedBeforeEval | main.py:70-72 | an expression outside "0123456789+-*/(). " gets the rejection whatever `eval` would do |
| MainAgent.ImportRejected | main.py:70-72 | "import os" is rejected |
| MainAgent.RouterFollowsEdges | main.py:113-130 | the router takes a declared agent edge and goes to the tools iff the last message has tool calls |
| MainAgent.ExitIgnoresCase | main.py:154 | the exit test reads only the lower-cased input and accepts only four-letter inputs |
| MainAgent.IsTraversal | main.py:55 | main.py's guard on a filename; `TraversalByPosition` characterises it |
| MainAgent.CheckFileExists | main.py:50-62 | the denial, the existence report, or "Error checking file: " and the cause; `DeniedWithoutProbe` and `AllowedNameReported` state its cases |
| MainAgent.CharsAllowed | main.py:70-71 | every character is one of "0123456789+-*/(). " |
| MainAgent.Calculator | main.py:65-78 | the rejection, the result of `eval`, or "Math error: " and the cause; `RejectedBeforeEval` states that a rejected expression never reaches `eval` |
| MainAgent.ShouldContinue | main.py:113-120 | to the tools iff the last message has tool calls, else END; `RouterFollowsEdges` ties it to the graph |
| MainAgent.IsExitCommand | main.py:154 | the lower-cased input is "exit" or "quit"; `ExitIgnoresCase` states its case-insensitivity |
| GraphState.OnlyAgentReachesEnd | main.py:128-130 | END is entered only from the agent |
| GraphState.EndIsTheOnlySink | main.py:128-130 | every node but END has an outgoing edge, and END has none |
| McpClient.NormalizeArgs | gui.py:54-58 | the arguments are unchanged, or a string replaced by what `json.loads` decodes it to |
| McpClient.CallMcpToolOutcomes | gui.py:65-74 | the reply is the first content item, the empty-content notice, or the failure prefix followed by the cause; both copies agree when there is content |
| McpClient.JsonTextActsAsObject | multi_agent.py:46-49 | a string holding an object's JSON is sent as that object |
| McpClient.RawTextPassedThrough | multi_agent.py:46-49 | a string that is not JSON reaches the session unchanged |
| McpClient.CallMcpTool | gui.py:50-74 | `call_mcp_tool` of either copy (the other is multi_agent.py:45-60): the normalised arguments go to the session, and the reply is the first content text, the empty-content notice, or the failure prefix and the cause; `CallMcpToolOutcomes` states the cases |
| ChatState.ThreadedChat.constructor | gui.py:198-200 | a first visit has a fresh thread id and no messages |
| ChatState.ThreadedChat.ClearHistory | gui.py:194-196 | clearing sets a fresh thread id and keeps the messages |
| ChatState.ThreadedChat.Submit | gui.py:212-213 | the prompt is appended as a user message |
| ChatState.ThreadedChat.RecordAnswer | gui.py:246-250 | an answer is appended as an assistant message only when non-empty |
| GuiAgent.ShouldContinue | gui.py:159-174 | the capped router always takes a declared agent edge |
| GuiAgent.CapRefinesMainRouter | gui.py:159-167 | up to 12 messages it routes as main.py; past 12 it always ends; it goes to the tools only where main.py would |
| GuiAgent.CapIsPermanent | gui.py:164-165 | once the thread holds more than 12 messages, no later routing goes to the tools |
| GuiAgent.LastAnswerIsLatest | gui.py:226-243 | the fold is "" iff no streamed state carries an answer, otherwise the text of the last one that does |
| GuiAgent.FinalAnswer | gui.py:231-243 | the stream loop computes the fold |
| GuiAgent.ErrorNoticeCases | gui.py:252-257 | an exception mentioning "recursion" in any case gets the loop-stop notice, any other "Error: " and its text |
| GuiAgent.OutcomeCases | gui.py:228-257 | a run answers iff it raised nothing and some state carries an answer; an answer is non-empty; otherwise it warns or reports the error |
| GuiAgent.HandlePrompt | gui.py:212-257 | the prompt is appended, then the answer only when the run answered |
| GuiAgent.LastAnswer | gui.py:226-243 | the fold over the streamed states: the content of the latest model message without tool calls and with text, or ""; `LastAnswerIsLatest` states its meaning |
| GuiAgent.ErrorNotice | gui.py:252-257 | the loop-stop notice when the exception text contains "recursion" in any case, else "Error: " and the text; `ErrorNoticeCases` states both |
| GuiAgent.Outcome | gui.py:226-257 | what the page shows: the error notice if the run raised, else the answer, else the no-summary warning; `OutcomeCases` states when each is shown |
| MultiAgent.SupervisorNext | multi_agent.py:155-161 | `next` is the reply's "next" entry, or "FINISH" when it is missing or the reply is not a JSON object |
| MultiAgent.SupervisorRouting | multi_agent.py:177-185 | the Supervisor takes one of its edges and ends the run exactly on "FINISH", so an unusable reply ends it |
| MultiAgent.OnlySupervisorFinishes | multi_agent.py:174-199 | END is entered only from the Supervisor |
| MultiAgent.WorkerShouldContinue | multi_agent.py:188-195 | a worker's router takes one of that worker's edges |
| MultiAgent.WorkerRouting | multi_agent.py:188-195 | a worker goes to its own tools iff its last message has tool calls, never to END or the other worker |
| MultiAgent.ToolsReturnToOwner | multi_agent.py:198-199 | a tool node leads back only to its worker |
| MultiAgent.ToolSetsDisjoint | multi_agent.py:78-86 | the two workers' tool sets are disjoint, three tools in all |
| MultiAgent.WorkersOnlyAppend | multi_agent.py:104-109 | worker steps append their replies in order and never change `next` |
| MultiAgent.WorkerRepliesAppend | multi_agent.py:253-280 | collecting replies distributes over the event stream |
| MultiAgent.WorkerRepliesCases | multi_agent.py:266-280 | every collected reply is non-empty; there are none iff no worker update is a text answer |
| MultiAgent.CollectReplies | multi_agent.py:253-280 | the event loop collects the replies |
| MultiAgent.CombinedAnswerEmptyIff | multi_agent.py:288-289 | the joined answer is empty iff no worker answered |
| MultiAgent.HandlePrompt | multi_agent.py:237-291 | the prompt is appended, then the joined answer only when some worker answered |
| MultiAgent.SupervisorRoute | multi_agent.py:177-185 | the Supervisor's edge map: "File_Agent", "Math_Agent" and "FINISH" to their nodes, nothing else; `SupervisorRouting` states it follows the graph |
| MultiAgent.WorkerStep | multi_agent.py:104-109 | a worker node adds its model's one reply and leaves `next` alone; `WorkersOnlyAppend` states this for any run of steps |
| MultiAgent.WorkerReplies | multi_agent.py:253-280 | the replies "**<worker>:** <content>" of the worker updates that are text answers, in order; `WorkerRepliesAppend` and `WorkerRepliesCases` state its properties |
| MultiAgent.CombinedAnswer | multi_agent.py:288-289 | the replies joined with a blank line; `CombinedAnswerEmptyIff` states when it is empty |
| A2ANetwork.RemoteReplyCases | gui_a2a.py:64-67 | the reply is never ""; a failure is "ERROR: " and its cause; a textless answer is the notice, which does not look like a failure |
| A2ANetwork.StreamedTextIsLast | gui_a2a.py:48-62 | the text comes from the last response that has parts |
| A2ANetwork.QueryRemoteAgent | gui_a2a.py:34-67 | the streaming loop and fallbacks compute the reply |
| A2ANetwork.SupervisorHistoryAppend | gui_a2a.py:134-139 | building the history distributes over the messages |
| A2ANetwork.ConversationShownInOrder | gui_a2a.py:134-139 | user and assistant messages are shown whole, in order, as Human and AI messages |
| A2ANetwork.BuildHistory | gui_a2a.py:134-139 | the history loop computes the history |
| A2ANetwork.NextStep | gui_a2a.py:92-96 | a failed supervisor call decides "FINISH"; a parsed reply is used as is |
| A2ANetwork.Validate | gui_a2a.py:146-174 | a decision passes iff it names a known agent, a MathAgent command has a digit, a FileAgent command contains "list" or "check" in any case, and its signature is new; it stops for no agent, then for a MathAgent command without a digit, then for a FileAgent command without a keyword, and as a repeat only when all three checks pass |
| A2ANetwork.SignatureInjective | gui_a2a.py:169 | for a validated target, the signature determines target and command |
| A2ANetwork.RunFromBound | gui_a2a.py:132 | from any hop, the turn only adds calls, at most one per remaining hop |
| A2ANetwork.RunFromGuarded | gui_a2a.py:146-176 | the loop keeps every call validated and the executed set equal to the calls' pairwise-distinct signatures |
| A2ANetwork.RunFromTranscript | gui_a2a.py:157-199 | the loop keeps the messages equal to the turn's start plus the log, and the log one line per answered call |
| A2ANetwork.TurnCallBound | gui_a2a.py:132 | a turn makes at most five remote calls |
| A2ANetwork.TurnCallsGuarded | gui_a2a.py:146-186 | each call went to "FileAgent" on 8001 or "MathAgent" on 8002 and passed its payload check; no target/command or port/command pair is sent twice in a turn |
| A2ANetwork.TurnTranscript | gui_a2a.py:123-199 | the messages become the old ones, the prompt and the log; an "ERROR:" reply ends the turn with no line; a blocked MathAgent call leaves one notice as the last line; otherwise one "**target**: reply" line per call |
| A2ANetwork.NoAgentEndsTurn | gui_a2a.py:143-151 | with no known agent in the first decision the turn adds only the prompt and sends nothing |
| A2ANetwork.BlockedMathSendsNothing | gui_a2a.py:154-161 | a first MathAgent command without a digit sends nothing and adds exactly one notice |
| A2ANetwork.SupervisorFailureFinishes | gui_a2a.py:95-96 | a supervisor failure yields target "FINISH", which is no agent |
| A2ANetwork.RepeatBlockedOnlyWithinTurn | gui_a2a.py:130 | a supervisor that repeats one FileAgent command gets one call per turn, in each of two consecutive turns |
| A2ANetwork.OneCallPerTurn | gui_a2a.py:169-176 | the repeated command is sent once and then stopped as a repeat |
| A2ANetwork.StreamedText | gui_a2a.py:48-62 | the text of the first part of the last streamed response that has parts, read as the file agent reads a part; `StreamedTextIsLast` states it |
| A2ANetwork.RemoteReply | gui_a2a.py:34-67 | "ERROR: " and the cause for a failed exchange, the completed notice for an empty text, else the text; `RemoteReplyCases` states the cases |
| A2ANetwork.SupervisorHistory | gui_a2a.py:134-139 | user messages as Human, assistant messages as AI, other roles dropped, in order; `SupervisorHistoryAppend`, `ConversationShownInOrder` and `OtherRolesDropped` state it |
| A2ANetwork.OtherRolesDropped | gui_a2a.py:135-139 | a message whose role is neither "user" nor "assistant" adds nothing to the history |
| A2ANetwork.PortOf | gui_a2a.py:180 | 8001 for "FileAgent", 8002 otherwise; `TurnCallsGuarded` states that every call went to its agent's port |
| A2ANetwork.Hop | gui_a2a.py:133-199 | one pass of the loop body: history, decision, validation, then a stop, or the call and its log line; `HopFollowsVerdict` states what it sends and when it stops, `HopGuarded` and `HopTranscript` what it keeps |
| A2ANetwork.RunFrom | gui_a2a.py:132-199 | the hops from a given step up to the fifth; `RunFromBound`, `RunFromGuarded` and `RunFromTranscript` state what the loop keeps |
| A2ANetwork.Turn | gui_a2a.py:122-202 | the prompt appended, then the hops from an empty log and executed set; `TurnCallBound`, `TurnCallsGuarded` and `TurnTranscript` state what a turn may do, and `RunFromFollowsVerdict` and `TurnFollowsAgents` what it must do |
| A2ANetwork.HopFollowsVerdict | gui_a2a.py:142-199 | a rejected decision ends the hop with that reason and sends nothing; a decision that passes is sent to its agent's port with its command, the agent's answer is recorded, and the turn ends there exactly when that answer starts with "ERROR:" |
| A2ANetwork.RunFromFollowsVerdict | gui_a2a.py:132-199 | at any hop, a rejected decision ends the turn with its reason and no further call, and a decision that passes is the next call made |
| A2ANetwork.RunFromAnswered | gui_a2a.py:180-186 | the loop records only what the called agent answered to the command sent |
| A2ANetwork.RunFromHopLimit | gui_a2a.py:132 | the hops run out only when every remaining hop made a call |
| A2ANetwork.TurnFollowsAgents | gui_a2a.py:132-199 | every reply in a turn is the answer of the agent on the call's port to the call's command, and a turn that uses up its hops made five calls |
| A2ANetwork.A2ASession.constructor | gui_a2a.py:115-116 | the session starts with no messages |
| A2ANetwork.A2ASession.ClearHistory | gui_a2a.py:109-110 | clearing empties the messages |
| A2ANetwork.A2ASession.RunTurn | gui_a2a.py:122-202 | the hop loop leaves the messages, log, calls and end that `Turn` computes |

## Left out

- Streamlit rendering, CSS, sidebars, status boxes, `st.rerun` and the "Task complete." placeholder: they only display.
- The language model (`ChatOllama`), the MCP stdio transport and the A2A client and servers, including uvicorn and the agent cards. They are oracles. `A2ANetwork` fixes `decide` as a function of the history shown and `remote` as a function of port and command. Each hop adds a log line, so the history grows, and `TurnCallsGuarded` shows no port/command pair repeats in a turn.
- `eval`'s results (Python floats such as "25.0") and the math library: only the allow-list gates are modelled.
- math_agent.py: its command handling is one `replace` and `strip` before an unguarded `eval`, and its text extraction is the one in `A2AParts`.
- The SQLite conversation memory (`SqliteSaver`), LangGraph's `recursion_limit` and the `add_messages` merge. A graph run is an input: its streamed states, or updates, and the exception that ended it.
- The CLI's `run_cli` loop and its printing: only its exit test is modelled.
- Python's `lower()` and `isdigit()` beyond ASCII, and `split()` on non-ASCII whitespace.
- JSON values that are not strings. Decisions and supervisor replies are maps from strings to strings. A non-object supervisor reply in gui_a2a.py, or a non-string "query", makes the source raise; that path is not modelled.
- A dictionary `text` entry present but `None`, which the source uses as is.
- An exception from the multi-agent graph run: multi_agent.py does not catch it.
- A `next` value outside the Supervisor's edge map, which LangGraph rejects at run time: `SupervisorRoute` returns `None` for it.
- The tool schemas (pydantic) and the wrapping of MCP tools as LangChain tools.
- The FileAgent's own `os.listdir` and `os.path.exists` failures, which the agent does not catch: its listing and probe are total functions here.
