/**
 * Conversation state shared by the agents: chat messages, the thread object
 * a chat-completion session appends to, and the chunks an agent yields.
 */
module Conversation {

  /** A chat message: a role ("system", "user", "assistant", ...) and its text. */
  datatype Message = Message(role: string, content: string)

  const SystemRole: string := "system"
  const UserRole: string := "user"
  const AssistantRole: string := "assistant"

  /**
   * A conversation thread: an ordered, append-only list of messages that
   * agents share by reference (its identity matters when two threads are
   * compared with `is`).
   */
  class Thread {
    var messages: seq<Message>

    constructor (initial: seq<Message>)
      ensures messages == initial
    {
      messages := initial;
    }

    /** `_chat_history.add_message(m)`. */
    method AddMessage(m: Message)
      modifies this
      ensures messages == old(messages) + [m]
    {
      messages := messages + [m];
    }

    /** `add_user_message(text)`. */
    method AddUserMessage(text: string)
      modifies this
      ensures messages == old(messages) + [Message(UserRole, text)]
    {
      messages := messages + [Message(UserRole, text)];
    }

    /** `add_assistant_message(text)`. */
    method AddAssistantMessage(text: string)
      modifies this
      ensures messages == old(messages) + [Message(AssistantRole, text)]
    {
      messages := messages + [Message(AssistantRole, text)];
    }
  }

  /** One item an agent's `invoke` or `invoke_stream` yields: its text and the thread it belongs to. */
  datatype Chunk = Chunk(text: string, thread: Thread)

  /** The texts of a sequence of chunks, in order. */
  function Texts(chunks: seq<Chunk>): (ts: seq<string>)
    ensures |ts| == |chunks|
    ensures forall i :: 0 <= i < |chunks| ==> ts[i] == chunks[i].text
  {
    seq(|chunks|, i requires 0 <= i < |chunks| => chunks[i].text)
  }
}
