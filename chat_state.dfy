/** The chat state the Streamlit pages of gui.py and multi_agent.py keep between
    reruns: the conversation thread id and the displayed messages. The fresh id
    (`str(uuid.uuid4())`) is a parameter. */
module ChatState {

  /** One displayed message: `{"role": ..., "content": ...}`. */
  datatype ChatMessage = ChatMessage(role: string, content: string)

  const UserRole: string := "user"
  const AssistantRole: string := "assistant"

  /** `st.session_state.thread_id` and `st.session_state.messages`. */
  class ThreadedChat {
    var threadId: string
    var messages: seq<ChatMessage>

    /** First visit: a fresh thread and no messages. */
    constructor (freshId: string)
      ensures threadId == freshId && messages == []
    {
      threadId := freshId;
      messages := [];
    }

    /** "Clear History": the graph's checkpointed memory is keyed by the thread id,
        so a fresh id starts a new conversation; the displayed messages are kept. */
    method ClearHistory(freshId: string)
      modifies this
      ensures threadId == freshId && messages == old(messages)
    {
      threadId := freshId;
    }

    /** A prompt from the chat input is shown first. */
    method Submit(prompt: string)
      modifies this
      ensures messages == old(messages) + [ChatMessage(UserRole, prompt)]
      ensures threadId == old(threadId)
    {
      messages := messages + [ChatMessage(UserRole, prompt)];
    }

    /** The agent's answer is kept only when it is not empty. */
    method RecordAnswer(answer: string)
      modifies this
      ensures answer != "" ==> messages == old(messages) + [ChatMessage(AssistantRole, answer)]
      ensures answer == "" ==> messages == old(messages)
      ensures threadId == old(threadId)
    {
      if answer != "" {
        messages := messages + [ChatMessage(AssistantRole, answer)];
      }
    }
  }
}
