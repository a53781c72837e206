/**
 * The shared record shapes of the chat subsystem: a chat message with its
 * three-valued type, the model descriptor of the registry, and the wire payload
 * the widget posts to the chat endpoint.
 */
module ChatTypes {

  /** The `type` field of a chat message: exactly three values. */
  datatype MessageType = User | System | Assistant

  /** The string spelling of each message type, as it appears on the wire. */
  function TypeName(t: MessageType): (s: string)
    ensures s == "user" || s == "system" || s == "assistant"
  {
    match t
    case User => "user"
    case System => "system"
    case Assistant => "assistant"
  }

  /** The spellings are pairwise different, so a spelling names one type. */
  lemma TypeNameInjective(t: MessageType, u: MessageType)
    ensures TypeName(t) == TypeName(u) <==> t == u
  {
  }

  /**
   * A chat message. The optional `id` and `createdAt` fields are clock- and
   * store-generated and are not part of this model.
   */
  datatype ChatMessage = ChatMessage(kind: MessageType, content: string)

  /** A model descriptor: dispatch key, display name, provider name. */
  datatype AIModel = AIModel(id: string, name: string, provider: string)

  /** The JSON body the widget posts to the chat endpoint. */
  datatype ChatRequest = ChatRequest(content: string, modelId: string)
}
