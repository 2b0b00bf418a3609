/** The Streamlit single-agent page of gui.py: the agent/tools graph with its
    history-length cap, the final-answer fold over the streamed graph states, and
    what one prompt does to the displayed chat. The LLM and the graph run are
    parameters: the run is given as the states it streams and the exception, if
    any, that ended it. */
module GuiAgent {
  import opened Wrappers
  import opened Text
  import opened GraphState
  import opened ChatState
  import MainAgent

  /** More messages than this in the thread, and tool requests are no longer served. */
  const HistoryCap: nat := 12

  /** `should_continue` with loop protection: a tool request goes to the tools only
      while the thread holds at most `HistoryCap` messages. */
  function ShouldContinue(messages: seq<GraphMessage>): (next: Node)
    requires messages != []
    ensures (Agent, next) in AgentToolsEdges
  {
    if messages[|messages| - 1].toolCalls != [] then
      if |messages| > HistoryCap then End else Tools
    else End
  }

  /** Up to the cap the router is main.py's; past it, it never goes to the tools,
      and it goes to the tools only where main.py's router would. */
  lemma CapRefinesMainRouter(messages: seq<GraphMessage>)
    requires messages != []
    ensures |messages| <= HistoryCap ==> ShouldContinue(messages) == MainAgent.ShouldContinue(messages)
    ensures |messages| > HistoryCap ==> ShouldContinue(messages) == End
    ensures ShouldContinue(messages) == Tools ==> MainAgent.ShouldContinue(messages) == Tools
  {
  }

  /** The graph only appends to the thread's messages, so once they exceed the cap
      every later routing decision of that thread ends the run. */
  lemma CapIsPermanent(messages: seq<GraphMessage>, later: seq<GraphMessage>)
    requires |messages| > HistoryCap
    ensures ShouldContinue(messages + later) == End
  {
  }

  /** A streamed state's last message counts as the answer when it asks for no tool,
      comes from the model and has text. */
  predicate IsAnswer(m: GraphMessage) {
    m.toolCalls == [] && m.kind == AiType && m.content != ""
  }

  /** The answer after the given streamed states (`None` for a state without
      "messages"): the text of the latest answer, or "" when there is none. */
  function LastAnswer(events: seq<Option<GraphMessage>>): string {
    if events == [] then ""
    else
      var e := events[|events| - 1];
      if e.Some? && IsAnswer(e.value) then e.value.content
      else LastAnswer(events[..|events| - 1])
  }

  /** The fold's meaning: "" exactly when no streamed state carries an answer, and
      otherwise the text of the last one that does. */
  lemma {:induction false} LastAnswerIsLatest(events: seq<Option<GraphMessage>>)
    ensures LastAnswer(events) == "" <==>
      forall k :: 0 <= k < |events| ==> !(events[k].Some? && IsAnswer(events[k].value))
    ensures LastAnswer(events) != "" ==>
      exists i :: 0 <= i < |events| && events[i].Some? && IsAnswer(events[i].value)
        && events[i].value.content == LastAnswer(events)
        && forall k :: i < k < |events| ==> !(events[k].Some? && IsAnswer(events[k].value))
  {
    if events != [] {
      var n := |events| - 1;
      var front := events[..n];
      LastAnswerIsLatest(front);
      assert forall k :: 0 <= k < n ==> events[k] == front[k];
      if events[n].Some? && IsAnswer(events[n].value) {
        assert LastAnswer(events) == events[n].value.content;
      } else if LastAnswer(front) != "" {
        var i :| 0 <= i < n && front[i].Some? && IsAnswer(front[i].value)
          && front[i].value.content == LastAnswer(front)
          && forall k :: i < k < n ==> !(front[k].Some? && IsAnswer(front[k].value));
        assert events[i] == front[i];
      }
    }
  }

  /** The stream loop: `final_response` is overwritten by every answer seen. */
  method FinalAnswer(events: seq<Option<GraphMessage>>) returns (answer: string)
    ensures answer == LastAnswer(events)
  {
    answer := "";
    for i := 0 to |events|
      invariant answer == LastAnswer(events[..i])
    {
      assert events[..i + 1][..i] == events[..i];
      var e := events[i];
      if e.Some? && IsAnswer(e.value) {
        answer := e.value.content;
      }
    }
    assert events[..|events|] == events;
  }

  const NoSummaryWarning: string := "Agent completed the task but returned no text summary."

  const LoopStopNotice: string := "\U{1F6D1} Stopped: The agent got stuck in a loop."

  /** How an exception from the run is reported. */
  function ErrorNotice(error: string): string {
    if Contains(Lower(error), "recursion") then LoopStopNotice else "Error: " + error
  }

  /** A recursion failure, in any letter case, gets the loop-stop notice; any other
      exception is shown with its own text after "Error: ". */
  lemma ErrorNoticeCases(error: string)
    ensures Contains(Lower(error), "recursion") ==> ErrorNotice(error) == LoopStopNotice
    ensures !Contains(Lower(error), "recursion") ==>
      StartsWith(ErrorNotice(error), "Error: ") && ErrorNotice(error)[7..] == error
  {
    if !Contains(Lower(error), "recursion") {
      StartsWithConcat("Error: ", error);
    }
  }

  /** One graph run: the states it streamed and, if it raised, the exception's text. */
  datatype GuiStream = GuiStream(events: seq<Option<GraphMessage>>, failure: Option<string>)

  /** What the page shows for a prompt. */
  datatype Shown = Answered(text: string) | Warned(text: string) | Failed(text: string)

  /** The reply to a run: the exception notice, the answer, or the warning. */
  function Outcome(stream: GuiStream): Shown {
    if stream.failure.Some? then Failed(ErrorNotice(stream.failure.value))
    else if LastAnswer(stream.events) != "" then Answered(LastAnswer(stream.events))
    else Warned(NoSummaryWarning)
  }

  /** A run answers exactly when it raised nothing and some streamed state carries an
      answer; an answer is never empty. */
  lemma OutcomeCases(stream: GuiStream)
    ensures Outcome(stream).Answered? <==> (stream.failure.None? &&
      exists k :: 0 <= k < |stream.events| && stream.events[k].Some? && IsAnswer(stream.events[k].value))
    ensures Outcome(stream).Answered? ==> Outcome(stream).text != ""
    ensures Outcome(stream).Warned? ==> Outcome(stream).text == NoSummaryWarning
  {
    LastAnswerIsLatest(stream.events);
  }

  /** A prompt: show it, run the graph, and keep the answer if there is one. A run that
      raised or produced no answer leaves only the prompt behind. */
  method HandlePrompt(chat: ThreadedChat, prompt: string, stream: GuiStream) returns (shown: Shown)
    modifies chat
    ensures shown == Outcome(stream)
    ensures chat.messages == old(chat.messages) + [ChatMessage(UserRole, prompt)]
      + (if shown.Answered? then [ChatMessage(AssistantRole, shown.text)] else [])
    ensures chat.threadId == old(chat.threadId)
  {
    chat.Submit(prompt);
    if stream.failure.Some? {
      shown := Failed(ErrorNotice(stream.failure.value));
      return;
    }
    var answer := FinalAnswer(stream.events);
    chat.RecordAnswer(answer);
    if answer != "" {
      shown := Answered(answer);
    } else {
      shown := Warned(NoSummaryWarning);
    }
  }
}
