/** Messages, the outbound chat-completion request and what the remote call yields (app.py:338-357). */
module Chat {

  datatype Role = User | Assistant | System

  /** One `{"role": ..., "content": ...}` entry of the conversation. */
  datatype Message = Message(role: Role, content: string)

  /** The arguments of `client.chat.completions.create`: deployment name, message list, temperature. */
  datatype Request = Request(model: string, messages: seq<Message>, temperature: real)

  /** What the remote call gives back: the first choice's reply text, or an exception. */
  datatype Completion = Reply(text: string) | TransportFailure

  /** A conversation as the session builds it: only user and assistant messages. */
  predicate ChatOnly(h: seq<Message>)
  {
    forall i :: 0 <= i < |h| ==> h[i].role != System
  }

  /** Every assistant message is directly preceded by the user message it answers. */
  predicate RepliesFollowPrompts(h: seq<Message>)
  {
    forall i :: 0 <= i < |h| && h[i].role == Assistant ==> 0 < i && h[i - 1].role == User
  }

  /** `messages_for_api`: the effective system prompt as a leading system message, then the history. */
  function ApiMessages(systemPrompt: string, history: seq<Message>): (r: seq<Message>)
    ensures |r| == |history| + 1
    ensures r[0] == Message(System, systemPrompt)
    ensures r[1..] == history
  {
    [Message(System, systemPrompt)] + history
  }

  /** When the history holds no system message, the request holds exactly one, and it comes first. */
  lemma ApiMessagesHaveOneSystemMessage(systemPrompt: string, history: seq<Message>)
    requires ChatOnly(history)
    ensures forall i :: 0 <= i < |ApiMessages(systemPrompt, history)| ==>
      (ApiMessages(systemPrompt, history)[i].role == System <==> i == 0)
  {
  }
}
