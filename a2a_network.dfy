/** The supervisor page of gui_a2a.py: each prompt runs a turn of at most five hops.
    In each hop a supervisor model chooses a remote agent and a command, a strict
    validator gates the choice, and the command goes to the FileAgent (port 8001)
    or the MathAgent (port 8002) over A2A. The supervisor model and the A2A
    exchange are parameters: `decide` maps the history it is shown to its reply,
    `remote` maps a port and a command to the streamed responses or a failure. */
module A2ANetwork {
  import opened Wrappers
  import opened Text
  import opened A2AParts
  import opened ChatState

  // ---------------------------------------------------------------------------
  // query_remote_agent

  /** One response streamed back by `send_message`: its parts ([] when missing or empty). */
  datatype Response = Response(parts: seq<Part>)

  /** The whole exchange with a remote agent: the responses, or the exception raised
      while connecting or streaming. */
  datatype RpcOutcome = Responses(stream: seq<Response>) | RpcFailed(cause: string)

  /** `final_text` after the given responses: the text of the first part of the last
      response that has parts, or "" when none has. */
  function StreamedText(stream: seq<Response>): string {
    if stream == [] then ""
    else
      var r := stream[|stream| - 1];
      if r.parts != [] then PartText(r.parts[0]) else StreamedText(stream[..|stream| - 1])
  }

  /** The prefix that marks a failed exchange. */
  const RpcErrorTag: string := "ERROR:"

  const NoTextNotice: string := "\U{2705}" + " Task completed (No text returned)."

  /** `query_remote_agent`: the streamed text, the notice when it is empty, or the
      failure. */
  function RemoteReply(outcome: RpcOutcome): string {
    match outcome
    case Responses(stream) => if StreamedText(stream) != "" then StreamedText(stream) else NoTextNotice
    case RpcFailed(cause) => RpcErrorTag + " " + cause
  }

  /** The exchange never raises and never answers "": a failure comes back as
      "ERROR: <cause>", an answer without text as the notice, and the notice is not
      mistaken for a failure. */
  lemma RemoteReplyCases(outcome: RpcOutcome)
    ensures RemoteReply(outcome) != ""
    ensures outcome.RpcFailed? ==>
      StartsWith(RemoteReply(outcome), RpcErrorTag) && RemoteReply(outcome)[7..] == outcome.cause
    ensures outcome.Responses? && StreamedText(outcome.stream) == "" ==>
      RemoteReply(outcome) == NoTextNotice && !StartsWith(NoTextNotice, RpcErrorTag)
    ensures outcome.Responses? && StreamedText(outcome.stream) != "" ==>
      RemoteReply(outcome) == StreamedText(outcome.stream)
  {
    if outcome.RpcFailed? {
      StartsWithConcat(RpcErrorTag, " " + outcome.cause);
      assert RemoteReply(outcome) == RpcErrorTag + (" " + outcome.cause);
    }
    assert NoTextNotice[0] == '\U{2705}';
  }

  /** The text is taken from the last response with parts: later responses without
      parts change nothing. */
  lemma {:induction false} StreamedTextIsLast(stream: seq<Response>, k: nat)
    requires k < |stream| && stream[k].parts != []
    requires forall j :: k < j < |stream| ==> stream[j].parts == []
    ensures StreamedText(stream) == PartText(stream[k].parts[0])
    decreases |stream|
  {
    if k < |stream| - 1 {
      var front := stream[..|stream| - 1];
      StreamedTextIsLast(front, k);
    }
  }

  /** The streaming loop of `query_remote_agent`, then its fallbacks. */
  method QueryRemoteAgent(outcome: RpcOutcome) returns (reply: string)
    ensures reply == RemoteReply(outcome)
  {
    if outcome.RpcFailed? {
      return RpcErrorTag + " " + outcome.cause;
    }
    var stream := outcome.stream;
    var finalText := "";
    for i := 0 to |stream|
      invariant finalText == StreamedText(stream[..i])
    {
      assert stream[..i + 1][..i] == stream[..i];
      var response := stream[i];
      if response.parts != [] {
        finalText := PartText(response.parts[0]);
      }
    }
    assert stream[..|stream|] == stream;
    reply := if finalText != "" then finalText else NoTextNotice;
  }

  // ---------------------------------------------------------------------------
  // The history shown to the supervisor model

  /** `HumanMessage` and `AIMessage`. */
  datatype HistoryMessage = Human(content: string) | AI(content: string)

  /** The history for one chat message: user and assistant messages are kept, any
      other role is dropped. */
  function HistoryOf(m: ChatMessage): seq<HistoryMessage> {
    if m.role == UserRole then [Human(m.content)]
    else if m.role == AssistantRole then [AI(m.content)]
    else []
  }

  /** The history built from the session's messages, in their order. */
  function SupervisorHistory(messages: seq<ChatMessage>): seq<HistoryMessage> {
    if messages == [] then []
    else SupervisorHistory(messages[..|messages| - 1]) + HistoryOf(messages[|messages| - 1])
  }

  /** A message whose role is neither "user" nor "assistant" is left out of the history. */
  lemma OtherRolesDropped(a: seq<ChatMessage>, role: string, content: string)
    requires role != UserRole && role != AssistantRole
    ensures SupervisorHistory(a + [ChatMessage(role, content)]) == SupervisorHistory(a)
  {
    assert (a + [ChatMessage(role, content)])[..|a|] == a;
  }

  /** Building the history distributes over the messages. */
  lemma {:induction false} SupervisorHistoryAppend(a: seq<ChatMessage>, b: seq<ChatMessage>)
    ensures SupervisorHistory(a + b) == SupervisorHistory(a) + SupervisorHistory(b)
    decreases |b|
  {
    if b == [] {
      assert a + b == a;
    } else {
      var n := |b| - 1;
      assert (a + b)[..|a + b| - 1] == a + b[..n];
      assert (a + b)[|a + b| - 1] == b[n];
      SupervisorHistoryAppend(a, b[..n]);
    }
  }

  /** A conversation of user and assistant messages is shown whole and in order. */
  lemma {:induction false} ConversationShownInOrder(messages: seq<ChatMessage>)
    requires forall k :: 0 <= k < |messages| ==>
      messages[k].role == UserRole || messages[k].role == AssistantRole
    ensures |SupervisorHistory(messages)| == |messages|
    ensures forall k :: 0 <= k < |messages| ==>
      SupervisorHistory(messages)[k] ==
        (if messages[k].role == UserRole then Human(messages[k].content) else AI(messages[k].content))
  {
    if messages != [] {
      var n := |messages| - 1;
      ConversationShownInOrder(messages[..n]);
      assert UserRole != AssistantRole;
    }
  }

  /** The loop that rebuilds the history at every hop. */
  method BuildHistory(messages: seq<ChatMessage>) returns (history: seq<HistoryMessage>)
    ensures history == SupervisorHistory(messages)
  {
    history := [];
    for i := 0 to |messages|
      invariant history == SupervisorHistory(messages[..i])
    {
      assert messages[..i + 1][..i] == messages[..i];
      var m := messages[i];
      if m.role == UserRole {
        history := history + [Human(m.content)];
      } else if m.role == AssistantRole {
        history := history + [AI(m.content)];
      }
    }
    assert messages[..|messages|] == messages;
  }

  // ---------------------------------------------------------------------------
  // get_next_step and the validator

  /** The supervisor model's reply: a JSON object (its string entries), or the
      exception raised by the call or by `json.loads`. */
  datatype LlmOutcome = Parsed(fields: map<string, string>) | LlmFailed(cause: string)

  const FinishKey: string := "FINISH"

  /** `get_next_step`: the parsed decision, or `{"next": "FINISH", "error": <cause>}`. */
  function NextStep(reply: LlmOutcome): (decision: map<string, string>)
    ensures reply.LlmFailed? ==> "next" in decision && decision["next"] == FinishKey
    ensures reply.Parsed? ==> decision == reply.fields
  {
    match reply
    case Parsed(fields) => fields
    case LlmFailed(cause) => map["next" := FinishKey, "error" := cause]
  }

  /** `decision.get("next")` */
  function Target(decision: map<string, string>): Option<string> {
    if "next" in decision then Some(decision["next"]) else None
  }

  /** `decision.get("query", "")` */
  function Payload(decision: map<string, string>): string {
    if "query" in decision then decision["query"] else ""
  }

  const FileAgentName: string := "FileAgent"
  const MathAgentName: string := "MathAgent"

  predicate IsAgentName(t: string) {
    t == FileAgentName || t == MathAgentName
  }

  /** Why the validator ends the turn. */
  datatype Stop = NoAgent | BlockedMath | NotAFileCommand | Repeated

  /** `f"{target}:{payload}"` */
  function Signature(target: string, payload: string): string {
    target + ":" + payload
  }

  /** A FileAgent command must name one of its two commands. */
  predicate IsFileCommand(payload: string) {
    Contains(Lower(payload), "list") || Contains(Lower(payload), "check")
  }

  /** The strict validator, in its order: a known agent, digits for the MathAgent, a
      command word for the FileAgent, then the loop guard. `None` lets the call through. */
  function Validate(target: Option<string>, payload: string, executed: set<string>): (verdict: Option<Stop>)
    ensures verdict.None? <==>
      target.Some? && IsAgentName(target.value)
      && (target.value == MathAgentName ==> HasDigit(payload))
      && (target.value == FileAgentName ==> IsFileCommand(payload))
      && Signature(target.value, payload) !in executed
    ensures verdict == Some(NoAgent) <==> target.None? || !IsAgentName(target.value)
    ensures verdict == Some(BlockedMath) <==> target == Some(MathAgentName) && !HasDigit(payload)
    ensures verdict == Some(NotAFileCommand) <==> target == Some(FileAgentName) && !IsFileCommand(payload)
    ensures verdict == Some(Repeated) <==>
      target.Some? && IsAgentName(target.value)
      && (target.value == MathAgentName ==> HasDigit(payload))
      && (target.value == FileAgentName ==> IsFileCommand(payload))
      && Signature(target.value, payload) in executed
  {
    if target.None? || !IsAgentName(target.value) then Some(NoAgent)
    else if target.value == MathAgentName && !HasDigit(payload) then Some(BlockedMath)
    else if target.value == FileAgentName && !IsFileCommand(payload) then Some(NotAFileCommand)
    else if Signature(target.value, payload) in executed then Some(Repeated)
    else None
  }

  /** Both agent names have nine characters and no ':', so a signature of a validated
      target names the target and the command. */
  lemma SignatureInjective(t1: string, p1: string, t2: string, p2: string)
    requires IsAgentName(t1) && IsAgentName(t2)
    requires Signature(t1, p1) == Signature(t2, p2)
    ensures t1 == t2 && p1 == p2
  {
    var s := Signature(t1, p1);
    assert |t1| == 9 && |t2| == 9;
    assert s[..9] == t1 && Signature(t2, p2)[..9] == t2;
    assert s[10..] == p1 && Signature(t2, p2)[10..] == p2;
  }

  /** `8001 if target == "FileAgent" else 8002` */
  function PortOf(target: string): int {
    if target == FileAgentName then 8001 else 8002
  }

  // ---------------------------------------------------------------------------
  // The turn

  const MaxHops: nat := 5

  const BlockedNotice: string :=
    "**System**: Blocked invalid MathAgent call (no numbers found). Finishing."

  /** `f"**{target}**: {response_text}"` */
  function LogEntry(target: string, reply: string): string {
    "**" + target + "**: " + reply
  }

  /** One remote call: where it went, what it carried, what came back. */
  datatype Call = Call(target: string, port: int, payload: string, reply: string)

  /** The state a turn works on: the session's messages, `full_log`,
      `executed_actions` and the calls made so far. */
  datatype Progress = Progress(messages: seq<ChatMessage>, log: seq<string>,
                               executed: set<string>, calls: seq<Call>)

  /** How a turn ended: the validator stopped it, a reply was an error, or the five
      hops were used up. */
  datatype TurnEnd = Declined(reason: Stop) | RemoteError | HopLimit

  datatype TurnResult = TurnResult(progress: Progress, end: TurnEnd)

  /** Send a validated command to its agent. */
  function Dispatch(target: string, payload: string, remote: (int, string) -> RpcOutcome): Call {
    var port := PortOf(target);
    Call(target, port, payload, RemoteReply(remote(port, payload)))
  }

  /** Add one line to both `full_log` and the session's messages. */
  function Record(p: Progress, entry: string): Progress {
    p.(log := p.log + [entry], messages := p.messages + [ChatMessage(AssistantRole, entry)])
  }

  /** What one hop does: the turn goes on with the new state, or ends with a result. */
  datatype HopResult = Continue(next: Progress) | Ended(result: TurnResult)

  /** The state after a validated command has been sent: its signature is executed
      and the call is recorded. */
  function Send(p: Progress, target: string, payload: string, remote: (int, string) -> RpcOutcome): Progress {
    p.(executed := p.executed + {Signature(target, payload)},
       calls := p.calls + [Dispatch(target, payload, remote)])
  }

  /** One iteration of the loop: build the history, ask for a decision, validate it,
      and either stop, or send the command and record the reply. */
  function Hop(p: Progress, decide: seq<HistoryMessage> -> LlmOutcome,
               remote: (int, string) -> RpcOutcome): HopResult
  {
    var decision := NextStep(decide(SupervisorHistory(p.messages)));
    var target := Target(decision);
    var payload := Payload(decision);
    var verdict := Validate(target, payload, p.executed);
    if verdict == Some(BlockedMath) then Ended(TurnResult(Record(p, BlockedNotice), Declined(BlockedMath)))
    else if verdict.Some? then Ended(TurnResult(p, Declined(verdict.value)))
    else
      var sent := Send(p, target.value, payload, remote);
      var reply := sent.calls[|sent.calls| - 1].reply;
      if StartsWith(reply, RpcErrorTag) then Ended(TurnResult(sent, RemoteError))
      else Continue(Record(sent, LogEntry(target.value, reply)))
  }

  /** The hops from `step` on, as the loop runs them. */
  function RunFrom(step: nat, p: Progress, decide: seq<HistoryMessage> -> LlmOutcome,
                   remote: (int, string) -> RpcOutcome): TurnResult
    decreases MaxHops - step
  {
    if step >= MaxHops then TurnResult(p, HopLimit)
    else match Hop(p, decide, remote)
      case Continue(q) => RunFrom(step + 1, q, decide, remote)
      case Ended(r) => r
  }

  /** One hop of `RunFrom`, unfolded. */
  lemma RunFromHop(step: nat, p: Progress, decide: seq<HistoryMessage> -> LlmOutcome,
                   remote: (int, string) -> RpcOutcome)
    requires step < MaxHops
    ensures Hop(p, decide, remote).Continue? ==>
      RunFrom(step, p, decide, remote) == RunFrom(step + 1, Hop(p, decide, remote).next, decide, remote)
    ensures Hop(p, decide, remote).Ended? ==> RunFrom(step, p, decide, remote) == Hop(p, decide, remote).result
  {
  }

  /** A whole turn: the prompt is added to the messages, then the hops run with an
      empty log and a fresh set of executed signatures. */
  function Turn(messages: seq<ChatMessage>, prompt: string,
                decide: seq<HistoryMessage> -> LlmOutcome, remote: (int, string) -> RpcOutcome): TurnResult
  {
    RunFrom(0, Progress(messages + [ChatMessage(UserRole, prompt)], [], {}, []), decide, remote)
  }

  // ---------------------------------------------------------------------------
  // What a turn guarantees

  /** A call that went out passed the validator and went to its agent's port. */
  predicate Sent(c: Call) {
    && IsAgentName(c.target)
    && c.port == PortOf(c.target)
    && (c.target == MathAgentName ==> HasDigit(c.payload))
    && (c.target == FileAgentName ==> IsFileCommand(c.payload))
  }

  function Signatures(calls: seq<Call>): set<string> {
    set k | 0 <= k < |calls| :: Signature(calls[k].target, calls[k].payload)
  }

  predicate DistinctSignatures(calls: seq<Call>) {
    forall i, j :: 0 <= i < j < |calls| ==>
      Signature(calls[i].target, calls[i].payload) != Signature(calls[j].target, calls[j].payload)
  }

  /** The log lines of answered calls. */
  function Entries(calls: seq<Call>): seq<string> {
    if calls == [] then []
    else Entries(calls[..|calls| - 1]) + [LogEntry(calls[|calls| - 1].target, calls[|calls| - 1].reply)]
  }

  /** Log lines as the session's assistant messages. */
  function AsAssistant(log: seq<string>): seq<ChatMessage> {
    if log == [] then []
    else AsAssistant(log[..|log| - 1]) + [ChatMessage(AssistantRole, log[|log| - 1])]
  }

  lemma AsAssistantSnoc(log: seq<string>, entry: string)
    ensures AsAssistant(log + [entry]) == AsAssistant(log) + [ChatMessage(AssistantRole, entry)]
  {
    assert (log + [entry])[..|log|] == log;
  }

  lemma EntriesSnoc(calls: seq<Call>, c: Call)
    ensures Entries(calls + [c]) == Entries(calls) + [LogEntry(c.target, c.reply)]
  {
    assert (calls + [c])[..|calls|] == calls;
  }

  /** A hop adds at most one call, and only after the ones already made; a hop that
      goes on has added exactly one. */
  lemma HopBound(p: Progress, decide: seq<HistoryMessage> -> LlmOutcome, remote: (int, string) -> RpcOutcome)
    ensures match Hop(p, decide, remote)
      case Continue(q) => p.calls <= q.calls && |q.calls| == |p.calls| + 1
      case Ended(r) => p.calls <= r.progress.calls && |r.progress.calls| <= |p.calls| + 1
  {
  }

  /** A turn makes at most `MaxHops` calls past the ones already made, and only adds
      to them. */
  lemma {:induction false} RunFromBound(step: nat, p: Progress, decide: seq<HistoryMessage> -> LlmOutcome,
                                        remote: (int, string) -> RpcOutcome)
    requires step <= MaxHops
    ensures var r := RunFrom(step, p, decide, remote).progress;
      p.calls <= r.calls && |r.calls| <= |p.calls| + (MaxHops - step)
    decreases MaxHops - step
  {
    if step >= MaxHops {
      assert RunFrom(step, p, decide, remote) == TurnResult(p, HopLimit);
    } else {
      HopBound(p, decide, remote);
      match Hop(p, decide, remote)
      case Continue(q) =>
        assert RunFrom(step, p, decide, remote) == RunFrom(step + 1, q, decide, remote);
        RunFromBound(step + 1, q, decide, remote);
      case Ended(r) =>
        assert RunFrom(step, p, decide, remote) == r;
    }
  }

  /** What the loop keeps true of the calls: each one was validated, and the executed
      set holds exactly their signatures, which are pairwise different. */
  predicate CallsGuarded(p: Progress) {
    && (forall k :: 0 <= k < |p.calls| ==> Sent(p.calls[k]))
    && p.executed == Signatures(p.calls)
    && DistinctSignatures(p.calls)
  }

  lemma SignaturesSnoc(calls: seq<Call>, c: Call)
    ensures Signatures(calls + [c]) == Signatures(calls) + {Signature(c.target, c.payload)}
  {
    var all := calls + [c];
    forall s | s in Signatures(all) ensures s in Signatures(calls) + {Signature(c.target, c.payload)} {
      var k :| 0 <= k < |all| && s == Signature(all[k].target, all[k].payload);
      if k < |calls| {
        assert all[k] == calls[k];
      }
    }
    forall s | s in Signatures(calls) ensures s in Signatures(all) {
      var k :| 0 <= k < |calls| && s == Signature(calls[k].target, calls[k].payload);
      assert all[k] == calls[k];
    }
    assert all[|calls|] == c;
  }

  /** Sending a command the validator let through keeps the calls guarded. */
  lemma SendGuarded(p: Progress, target: string, payload: string, remote: (int, string) -> RpcOutcome)
    requires CallsGuarded(p)
    requires Validate(Some(target), payload, p.executed).None?
    ensures CallsGuarded(Send(p, target, payload, remote))
  {
    var call := Dispatch(target, payload, remote);
    var sig := Signature(target, payload);
    var calls := p.calls + [call];
    SignaturesSnoc(p.calls, call);
    forall i, j | 0 <= i < j < |calls|
      ensures Signature(calls[i].target, calls[i].payload) != Signature(calls[j].target, calls[j].payload)
    {
      assert calls[i] == p.calls[i];
      if j == |p.calls| {
        assert Signature(p.calls[i].target, p.calls[i].payload) in Signatures(p.calls);
      } else {
        assert calls[j] == p.calls[j];
      }
    }
  }

  /** A hop keeps the calls guarded. */
  lemma HopGuarded(p: Progress, decide: seq<HistoryMessage> -> LlmOutcome, remote: (int, string) -> RpcOutcome)
    requires CallsGuarded(p)
    ensures match Hop(p, decide, remote)
      case Continue(q) => CallsGuarded(q)
      case Ended(r) => CallsGuarded(r.progress)
  {
    var decision := NextStep(decide(SupervisorHistory(p.messages)));
    var target := Target(decision);
    var payload := Payload(decision);
    if Validate(target, payload, p.executed).None? {
      SendGuarded(p, target.value, payload, remote);
    }
  }

  lemma {:induction false} RunFromGuarded(step: nat, p: Progress, decide: seq<HistoryMessage> -> LlmOutcome,
                                          remote: (int, string) -> RpcOutcome)
    requires CallsGuarded(p)
    ensures CallsGuarded(RunFrom(step, p, decide, remote).progress)
    decreases MaxHops - step
  {
    if step >= MaxHops {
      assert RunFrom(step, p, decide, remote) == TurnResult(p, HopLimit);
    } else {
      HopGuarded(p, decide, remote);
      match Hop(p, decide, remote)
      case Continue(q) =>
        assert RunFrom(step, p, decide, remote) == RunFrom(step + 1, q, decide, remote);
        RunFromGuarded(step + 1, q, decide, remote);
      case Ended(r) =>
        assert RunFrom(step, p, decide, remote) == r;
    }
  }

  /** The decision the supervisor takes in a state. */
  function DecisionAt(p: Progress, decide: seq<HistoryMessage> -> LlmOutcome): map<string, string> {
    NextStep(decide(SupervisorHistory(p.messages)))
  }

  /** The validator's verdict on that decision. */
  function VerdictAt(p: Progress, decide: seq<HistoryMessage> -> LlmOutcome): Option<Stop> {
    var d := DecisionAt(p, decide);
    Validate(Target(d), Payload(d), p.executed)
  }

  /** The calls after a hop, whichever way it went. */
  function HopCalls(h: HopResult): seq<Call> {
    match h
    case Continue(q) => q.calls
    case Ended(r) => r.progress.calls
  }

  /** The call a command makes: to its agent's port, recording the agent's answer. */
  function CallTo(target: string, payload: string, remote: (int, string) -> RpcOutcome): Call {
    Call(target, PortOf(target), payload, RemoteReply(remote(PortOf(target), payload)))
  }

  /** A hop does what the validator says: a rejected decision ends the turn with that
      reason and sends nothing; a decision that passes is sent to its agent's port,
      the agent's answer is recorded, and the turn ends there exactly when the answer
      is an error. */
  lemma HopFollowsVerdict(p: Progress, decide: seq<HistoryMessage> -> LlmOutcome,
                          remote: (int, string) -> RpcOutcome)
    ensures VerdictAt(p, decide).Some? ==>
      && Hop(p, decide, remote).Ended?
      && Hop(p, decide, remote).result.end == Declined(VerdictAt(p, decide).value)
      && HopCalls(Hop(p, decide, remote)) == p.calls
    ensures VerdictAt(p, decide).None? ==>
      var d := DecisionAt(p, decide);
      var call := CallTo(Target(d).value, Payload(d), remote);
      && HopCalls(Hop(p, decide, remote)) == p.calls + [call]
      && (Hop(p, decide, remote).Ended? <==> StartsWith(call.reply, RpcErrorTag))
      && (Hop(p, decide, remote).Ended? ==> Hop(p, decide, remote).result.end == RemoteError)
  {
  }

  /** A hop records only agents' answers. */
  lemma HopAnswered(p: Progress, decide: seq<HistoryMessage> -> LlmOutcome, remote: (int, string) -> RpcOutcome)
    requires AllAnswered(p.calls, remote)
    ensures AllAnswered(HopCalls(Hop(p, decide, remote)), remote)
  {
    HopFollowsVerdict(p, decide, remote);
    var calls := HopCalls(Hop(p, decide, remote));
    if VerdictAt(p, decide).None? {
      assert forall k :: 0 <= k < |p.calls| ==> calls[k] == p.calls[k];
    }
  }

  /** At any hop of the loop, a rejected decision ends the turn with its reason and no
      further call, and a decision that passes is sent before anything else happens. */
  lemma RunFromFollowsVerdict(step: nat, p: Progress, decide: seq<HistoryMessage> -> LlmOutcome,
                              remote: (int, string) -> RpcOutcome)
    requires step < MaxHops
    ensures VerdictAt(p, decide).Some? ==>
      var r := RunFrom(step, p, decide, remote);
      r.end == Declined(VerdictAt(p, decide).value) && r.progress.calls == p.calls
    ensures VerdictAt(p, decide).None? ==>
      var d := DecisionAt(p, decide);
      p.calls + [CallTo(Target(d).value, Payload(d), remote)] <= RunFrom(step, p, decide, remote).progress.calls
  {
    HopFollowsVerdict(p, decide, remote);
    RunFromHop(step, p, decide, remote);
    match Hop(p, decide, remote)
    case Continue(q) =>
      RunFromBound(step + 1, q, decide, remote);
    case Ended(r) =>
  }

  /** A recorded reply is what the called agent answered to the command sent. */
  predicate Answered(c: Call, remote: (int, string) -> RpcOutcome) {
    c.reply == RemoteReply(remote(c.port, c.payload))
  }

  predicate AllAnswered(calls: seq<Call>, remote: (int, string) -> RpcOutcome) {
    forall k :: 0 <= k < |calls| ==> Answered(calls[k], remote)
  }

  lemma {:induction false} RunFromAnswered(step: nat, p: Progress, decide: seq<HistoryMessage> -> LlmOutcome,
                                           remote: (int, string) -> RpcOutcome)
    requires AllAnswered(p.calls, remote)
    ensures AllAnswered(RunFrom(step, p, decide, remote).progress.calls, remote)
    decreases MaxHops - step
  {
    if step >= MaxHops {
      assert RunFrom(step, p, decide, remote) == TurnResult(p, HopLimit);
    } else {
      HopAnswered(p, decide, remote);
      match Hop(p, decide, remote)
      case Continue(q) =>
        assert RunFrom(step, p, decide, remote) == RunFrom(step + 1, q, decide, remote);
        assert HopCalls(Continue(q)) == q.calls;
        RunFromAnswered(step + 1, q, decide, remote);
      case Ended(r) =>
        assert RunFrom(step, p, decide, remote) == r;
        assert HopCalls(Ended(r)) == r.progress.calls;
    }
  }

  /** The hops run out only when every remaining hop made a call. */
  lemma {:induction false} RunFromHopLimit(step: nat, p: Progress, decide: seq<HistoryMessage> -> LlmOutcome,
                                           remote: (int, string) -> RpcOutcome)
    ensures var r := RunFrom(step, p, decide, remote);
      r.end == HopLimit ==>
        |r.progress.calls| == |p.calls| + (if step < MaxHops then MaxHops - step else 0)
    decreases MaxHops - step
  {
    if step >= MaxHops {
      assert RunFrom(step, p, decide, remote) == TurnResult(p, HopLimit);
    } else {
      HopFollowsVerdict(p, decide, remote);
      RunFromHop(step, p, decide, remote);
      match Hop(p, decide, remote)
      case Continue(q) =>
        HopBound(p, decide, remote);
        RunFromHopLimit(step + 1, q, decide, remote);
      case Ended(r) =>
    }
  }

  /** What the loop keeps true of the transcript: the log holds one line per answered
      call, and the messages are the turn's starting messages followed by the log. */
  predicate Transcribed(p: Progress, base: seq<ChatMessage>) {
    && p.log == Entries(p.calls)
    && p.messages == base + AsAssistant(p.log)
    && (forall k :: 0 <= k < |p.calls| ==> !StartsWith(p.calls[k].reply, RpcErrorTag))
  }

  /** How the transcript of a turn ends: after an error reply the failed call is the
      last one and is in neither the log nor the messages; after a blocked MathAgent
      call the notice is the last line; otherwise there is exactly one line per call. */
  predicate TranscriptOfEnd(r: TurnResult, base: seq<ChatMessage>) {
    var calls := r.progress.calls;
    && r.progress.messages == base + AsAssistant(r.progress.log)
    && match r.end
       case RemoteError =>
         && calls != [] && StartsWith(calls[|calls| - 1].reply, RpcErrorTag)
         && r.progress.log == Entries(calls[..|calls| - 1])
         && forall k :: 0 <= k < |calls| - 1 ==> !StartsWith(calls[k].reply, RpcErrorTag)
       case Declined(BlockedMath) =>
         && r.progress.log == Entries(calls) + [BlockedNotice]
         && forall k :: 0 <= k < |calls| ==> !StartsWith(calls[k].reply, RpcErrorTag)
       case _ =>
         && r.progress.log == Entries(calls)
         && forall k :: 0 <= k < |calls| ==> !StartsWith(calls[k].reply, RpcErrorTag)
  }

  /** Sending keeps the log and messages; the transcript is then either ended by an
      error reply or extended by the reply's line. */
  lemma SendTranscript(p: Progress, base: seq<ChatMessage>, target: string, payload: string,
                       remote: (int, string) -> RpcOutcome)
    requires Transcribed(p, base)
    ensures var sent := Send(p, target, payload, remote);
      var call := sent.calls[|sent.calls| - 1];
      && (StartsWith(call.reply, RpcErrorTag) ==> TranscriptOfEnd(TurnResult(sent, RemoteError), base))
      && (!StartsWith(call.reply, RpcErrorTag) ==>
            Transcribed(Record(sent, LogEntry(target, call.reply)), base))
  {
    var sent := Send(p, target, payload, remote);
    var call := Dispatch(target, payload, remote);
    assert sent.calls == p.calls + [call];
    assert sent.calls[..|sent.calls| - 1] == p.calls;
    var entry := LogEntry(target, call.reply);
    EntriesSnoc(p.calls, call);
    AsAssistantSnoc(p.log, entry);
  }

  /** A hop keeps the transcript, or ends it as `TranscriptOfEnd` says. */
  lemma HopTranscript(p: Progress, base: seq<ChatMessage>, decide: seq<HistoryMessage> -> LlmOutcome,
                      remote: (int, string) -> RpcOutcome)
    requires Transcribed(p, base)
    ensures match Hop(p, decide, remote)
      case Continue(q) => Transcribed(q, base)
      case Ended(r) => TranscriptOfEnd(r, base)
  {
    var decision := NextStep(decide(SupervisorHistory(p.messages)));
    var target := Target(decision);
    var payload := Payload(decision);
    var verdict := Validate(target, payload, p.executed);
    if verdict == Some(BlockedMath) {
      AsAssistantSnoc(p.log, BlockedNotice);
    } else if verdict.None? {
      SendTranscript(p, base, target.value, payload, remote);
    }
  }

  lemma {:induction false} RunFromTranscript(step: nat, p: Progress, base: seq<ChatMessage>,
                                             decide: seq<HistoryMessage> -> LlmOutcome,
                                             remote: (int, string) -> RpcOutcome)
    requires Transcribed(p, base)
    ensures TranscriptOfEnd(RunFrom(step, p, decide, remote), base)
    decreases MaxHops - step
  {
    if step >= MaxHops {
      assert RunFrom(step, p, decide, remote) == TurnResult(p, HopLimit);
    } else {
      HopTranscript(p, base, decide, remote);
      if Hop(p, decide, remote).Continue? {
        RunFromTranscript(step + 1, Hop(p, decide, remote).next, base, decide, remote);
      }
    }
  }

  /** A turn makes at most five remote calls. */
  lemma TurnCallBound(messages: seq<ChatMessage>, prompt: string,
                      decide: seq<HistoryMessage> -> LlmOutcome, remote: (int, string) -> RpcOutcome)
    ensures |Turn(messages, prompt, decide, remote).progress.calls| <= MaxHops
  {
    RunFromBound(0, Progress(messages + [ChatMessage(UserRole, prompt)], [], {}, []), decide, remote);
  }

  /** Two sent calls with different signatures differ in target or command, and so
      in port or command. */
  lemma SentPairDistinct(a: Call, b: Call)
    requires Sent(a) && Sent(b)
    requires Signature(a.target, a.payload) != Signature(b.target, b.payload)
    ensures (a.target, a.payload) != (b.target, b.payload)
    ensures (a.port, a.payload) != (b.port, b.payload)
  {
    if a.payload == b.payload {
      assert a.target != b.target;
      assert PortOf(a.target) != PortOf(b.target);
    }
  }

  /** Every call of a turn went to "FileAgent" on port 8001 or "MathAgent" on port 8002,
      a MathAgent command has a digit, a FileAgent command names "list" or "check" in
      any letter case, and no target/command pair is sent twice in the turn, so no
      port/command pair is either; the executed set is exactly the calls' signatures. */
  lemma TurnCallsGuarded(messages: seq<ChatMessage>, prompt: string,
                         decide: seq<HistoryMessage> -> LlmOutcome, remote: (int, string) -> RpcOutcome)
    ensures var r := Turn(messages, prompt, decide, remote).progress;
      && (forall k :: 0 <= k < |r.calls| ==> Sent(r.calls[k]))
      && r.executed == Signatures(r.calls)
      && (forall i, j :: 0 <= i < j < |r.calls| ==>
            (r.calls[i].target, r.calls[i].payload) != (r.calls[j].target, r.calls[j].payload)
            && (r.calls[i].port, r.calls[i].payload) != (r.calls[j].port, r.calls[j].payload))
  {
    var start := Progress(messages + [ChatMessage(UserRole, prompt)], [], {}, []);
    assert Signatures(start.calls) == {};
    RunFromGuarded(0, start, decide, remote);
    var r := Turn(messages, prompt, decide, remote).progress;
    forall i, j | 0 <= i < j < |r.calls|
      ensures (r.calls[i].target, r.calls[i].payload) != (r.calls[j].target, r.calls[j].payload)
      ensures (r.calls[i].port, r.calls[i].payload) != (r.calls[j].port, r.calls[j].payload)
    {
      SentPairDistinct(r.calls[i], r.calls[j]);
    }
  }

  /** The transcript of a turn: the session's messages become the old ones, the prompt,
      and one assistant message per log line; the log has one "**target**: reply" line
      per answered call; an "ERROR:" reply ends the turn and leaves no line; a blocked
      MathAgent call leaves exactly one notice, as the last line. */
  lemma TurnTranscript(messages: seq<ChatMessage>, prompt: string,
                       decide: seq<HistoryMessage> -> LlmOutcome, remote: (int, string) -> RpcOutcome)
    ensures TranscriptOfEnd(Turn(messages, prompt, decide, remote), messages + [ChatMessage(UserRole, prompt)])
  {
    var base := messages + [ChatMessage(UserRole, prompt)];
    assert base + AsAssistant([]) == base;
    RunFromTranscript(0, Progress(base, [], {}, []), base, decide, remote);
  }

  /** Every reply recorded in a turn is what the called agent answered to the command
      sent, and a turn that uses up its hops has sent one command per hop. */
  lemma TurnFollowsAgents(messages: seq<ChatMessage>, prompt: string,
                          decide: seq<HistoryMessage> -> LlmOutcome, remote: (int, string) -> RpcOutcome)
    ensures var r := Turn(messages, prompt, decide, remote);
      && AllAnswered(r.progress.calls, remote)
      && (r.end == HopLimit ==> |r.progress.calls| == MaxHops)
  {
    var start := Progress(messages + [ChatMessage(UserRole, prompt)], [], {}, []);
    RunFromAnswered(0, start, decide, remote);
    RunFromHopLimit(0, start, decide, remote);
  }

  /** When the supervisor model fails, or names no agent, on the first hop, the turn
      ends at once: nothing is sent and only the prompt is added. */
  lemma NoAgentEndsTurn(messages: seq<ChatMessage>, prompt: string,
                        decide: seq<HistoryMessage> -> LlmOutcome, remote: (int, string) -> RpcOutcome)
    requires var d := NextStep(decide(SupervisorHistory(messages + [ChatMessage(UserRole, prompt)])));
      Target(d).None? || !IsAgentName(Target(d).value)
    ensures Turn(messages, prompt, decide, remote)
         == TurnResult(Progress(messages + [ChatMessage(UserRole, prompt)], [], {}, []), Declined(NoAgent))
  {
  }

  /** A MathAgent command without a digit on the first hop, such as "history", is
      never sent: the turn ends with the prompt and exactly one notice added. */
  lemma BlockedMathSendsNothing(messages: seq<ChatMessage>, prompt: string,
                                decide: seq<HistoryMessage> -> LlmOutcome, remote: (int, string) -> RpcOutcome)
    requires var d := NextStep(decide(SupervisorHistory(messages + [ChatMessage(UserRole, prompt)])));
      Target(d) == Some(MathAgentName) && !HasDigit(Payload(d))
    ensures var r := Turn(messages, prompt, decide, remote);
      && r.end == Declined(BlockedMath) && r.progress.calls == [] && r.progress.log == [BlockedNotice]
      && r.progress.messages == messages + [ChatMessage(UserRole, prompt), ChatMessage(AssistantRole, BlockedNotice)]
  {
  }

  /** A supervisor failure decides "FINISH", which names no agent. */
  lemma SupervisorFailureFinishes(cause: string)
    ensures Target(NextStep(LlmFailed(cause))) == Some(FinishKey)
    ensures !IsAgentName(FinishKey)
  {
    assert |FinishKey| == 6 && |FileAgentName| == 9 && |MathAgentName| == 9;
  }

  /** The loop guard is per turn. A supervisor that always asks the FileAgent to
      "list" gets one call per turn: the repeat is stopped within the turn, but the
      next turn, with a fresh executed set, sends the same command again. */
  lemma RepeatBlockedOnlyWithinTurn(messages: seq<ChatMessage>, prompt1: string, prompt2: string,
                                    decide: seq<HistoryMessage> -> LlmOutcome,
                                    remote: (int, string) -> RpcOutcome, listing: string)
    requires forall h :: decide(h) == Parsed(map["next" := FileAgentName, "query" := "list"])
    requires forall port, q :: remote(port, q) == Responses([Response([Part(listing, NoMethod, NoMethod, "")])])
    requires listing != "" && !StartsWith(listing, RpcErrorTag)
    ensures var t1 := Turn(messages, prompt1, decide, remote);
      var t2 := Turn(t1.progress.messages, prompt2, decide, remote);
      && t1.progress.calls == [Call(FileAgentName, 8001, "list", listing)] && t1.end == Declined(Repeated)
      && t2.progress.calls == [Call(FileAgentName, 8001, "list", listing)] && t2.end == Declined(Repeated)
  {
    OneCallPerTurn(messages, prompt1, decide, remote, listing);
    var t1 := Turn(messages, prompt1, decide, remote);
    OneCallPerTurn(t1.progress.messages, prompt2, decide, remote, listing);
  }

  lemma OneCallPerTurn(messages: seq<ChatMessage>, prompt: string,
                       decide: seq<HistoryMessage> -> LlmOutcome,
                       remote: (int, string) -> RpcOutcome, listing: string)
    requires forall h :: decide(h) == Parsed(map["next" := FileAgentName, "query" := "list"])
    requires forall port, q :: remote(port, q) == Responses([Response([Part(listing, NoMethod, NoMethod, "")])])
    requires listing != "" && !StartsWith(listing, RpcErrorTag)
    ensures var t := Turn(messages, prompt, decide, remote);
      t.progress.calls == [Call(FileAgentName, 8001, "list", listing)] && t.end == Declined(Repeated)
  {
    var payload := "list";
    assert Lower(payload) == payload;
    assert StartsWith(payload, "list");
    assert IsFileCommand(payload);
    var p0 := Progress(messages + [ChatMessage(UserRole, prompt)], [], {}, []);
    var sig := Signature(FileAgentName, payload);
    var call := Call(FileAgentName, 8001, payload, listing);
    assert RemoteReply(remote(8001, payload)) == listing;
    assert Dispatch(FileAgentName, payload, remote) == call;
    var p1 := Record(Send(p0, FileAgentName, payload, remote), LogEntry(FileAgentName, listing));
    assert Hop(p0, decide, remote) == Continue(p1);
    assert p1.executed == {sig} && p1.calls == [call];
    assert Hop(p1, decide, remote) == Ended(TurnResult(p1, Declined(Repeated)));
  }

  // ---------------------------------------------------------------------------
  // The page

  /** `st.session_state.messages` of the supervisor page. */
  class A2ASession {
    var messages: seq<ChatMessage>

    constructor ()
      ensures messages == []
    {
      messages := [];
    }

    /** "Clear Network History". */
    method ClearHistory()
      modifies this
      ensures messages == []
    {
      messages := [];
    }

    /** One prompt: the hop loop with its validator, its loop guard and its error stop. */
    method RunTurn(prompt: string, decide: seq<HistoryMessage> -> LlmOutcome,
                   remote: (int, string) -> RpcOutcome)
      returns (log: seq<string>, calls: seq<Call>, end: TurnEnd)
      modifies this
      ensures var r := Turn(old(messages), prompt, decide, remote);
        messages == r.progress.messages && log == r.progress.log && calls == r.progress.calls
        && end == r.end
    {
      messages := messages + [ChatMessage(UserRole, prompt)];
      log := [];
      calls := [];
      var executed: set<string> := {};
      ghost var goal := RunFrom(0, Progress(messages, log, executed, calls), decide, remote);
      end := HopLimit;
      for step := 0 to MaxHops
        invariant RunFrom(step, Progress(messages, log, executed, calls), decide, remote) == goal
        invariant end == HopLimit
      {
        ghost var p := Progress(messages, log, executed, calls);
        RunFromHop(step, p, decide, remote);
        var history := BuildHistory(messages);
        var decision := NextStep(decide(history));
        var target := Target(decision);
        var payload := Payload(decision);
        var verdict := Validate(target, payload, executed);
        if verdict.Some? {
          if verdict.value == BlockedMath {
            log := log + [BlockedNotice];
            messages := messages + [ChatMessage(AssistantRole, BlockedNotice)];
          }
          end := Declined(verdict.value);
          assert Hop(p, decide, remote) == Ended(TurnResult(Progress(messages, log, executed, calls), end));
          break;
        }
        executed := executed + {Signature(target.value, payload)};
        var port := PortOf(target.value);
        var reply := QueryRemoteAgent(remote(port, payload));
        calls := calls + [Call(target.value, port, payload, reply)];
        assert Send(p, target.value, payload, remote) == Progress(messages, log, executed, calls);
        if StartsWith(reply, RpcErrorTag) {
          end := RemoteError;
          assert Hop(p, decide, remote) == Ended(TurnResult(Progress(messages, log, executed, calls), end));
          break;
        }
        var entry := LogEntry(target.value, reply);
        log := log + [entry];
        messages := messages + [ChatMessage(AssistantRole, entry)];
        assert Hop(p, decide, remote) == Continue(Progress(messages, log, executed, calls));
      }
    }
  }
}
