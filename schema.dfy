/**
 * The chat-message schema: `content` a string of length at least 1,
 * `modelId` any string, `type` one of 'user', 'system', 'assistant' and
 * 'user' when absent.
 */
module Schema {
  import opened Common
  import opened ChatTypes

  /**
   * An input object. A field is None when it is absent or not a string;
   * `type` is None only when absent (a present non-string is `Some` of a
   * value outside the enumeration for the purpose of this model).
   */
  datatype ChatMessageInput = ChatMessageInput(content: Option<string>, modelId: Option<string>, kind: Option<string>)

  /** The parsed value. */
  datatype ChatMessageData = ChatMessageData(content: string, modelId: string, kind: MessageType)

  /** Why parsing failed, one field at a time. */
  datatype SchemaError = ContentNotString | ContentEmpty | ModelIdNotString | TypeNotInEnum

  /** The enumeration of `type`: the message type spelled by `s`, if any. */
  function ParseType(s: string): (r: Option<MessageType>)
    ensures r.Some? <==> exists t: MessageType :: TypeName(t) == s
    ensures r.Some? ==> TypeName(r.value) == s
  {
    if s == "user" then assert TypeName(User) == s; Some(User)
    else if s == "system" then assert TypeName(System) == s; Some(System)
    else if s == "assistant" then assert TypeName(Assistant) == s; Some(Assistant)
    else None
  }

  /**
   * Parse an input object against the schema: accepted exactly when
   * `content` is a non-empty string, `modelId` a string and `type` absent or
   * one of the three spellings; the parsed value keeps both strings and
   * takes the spelled type, or `user` when it is absent. A failure names the
   * first field that breaks its rule.
   */
  function Parse(input: ChatMessageInput): (r: Result<ChatMessageData, SchemaError>)
    ensures r.Ok? <==> && input.content.Some? && |input.content.value| >= 1 && input.modelId.Some?
                       && (input.kind.None? || exists t: MessageType :: TypeName(t) == input.kind.value)
    ensures r.Ok? ==> && r.value.content == input.content.value && r.value.modelId == input.modelId.value
                      && (input.kind.None? ==> r.value.kind == User)
                      && (input.kind.Some? ==> TypeName(r.value.kind) == input.kind.value)
    ensures r == Err(ContentNotString) <==> input.content.None?
    ensures r == Err(ContentEmpty) <==> input.content == Some("")
    ensures r == Err(ModelIdNotString) ==> input.modelId.None?
    ensures r == Err(TypeNotInEnum) ==> input.kind.Some? && !(exists t: MessageType :: TypeName(t) == input.kind.value)
  {
    match input.content
    case None => Err(ContentNotString)
    case Some(content) =>
      if |content| < 1 then Err(ContentEmpty)
      else
        match input.modelId
        case None => Err(ModelIdNotString)
        case Some(modelId) =>
          match input.kind
          case None => Ok(ChatMessageData(content, modelId, User))
          case Some(k) =>
            match ParseType(k)
            case None => Err(TypeNotInEnum)
            case Some(t) => Ok(ChatMessageData(content, modelId, t))
  }

  /**
   * With the other two fields acceptable, `content` is accepted exactly when
   * it has at least one character.
   */
  lemma ContentNonEmpty(content: string, modelId: string, kind: Option<string>)
    requires kind.None? || ParseType(kind.value).Some?
    ensures Parse(ChatMessageInput(Some(content), Some(modelId), kind)).Ok? <==> |content| >= 1
    ensures content == "" ==> Parse(ChatMessageInput(Some(content), Some(modelId), kind)) == Err(ContentEmpty)
  {
  }

  /** `modelId` accepts every string, and the parsed value keeps all fields. */
  lemma AnyModelIdAccepted(content: string, modelId: string)
    requires content != ""
    ensures Parse(ChatMessageInput(Some(content), Some(modelId), None)) == Ok(ChatMessageData(content, modelId, User))
  {
  }

  /** An absent `type` defaults to 'user'. */
  lemma TypeDefaultsToUser(input: ChatMessageInput)
    requires input.kind.None?
    ensures Parse(input).Ok? ==> Parse(input).value.kind == User
  {
  }

  /**
   * A present `type` is accepted exactly when it is one of the three
   * spellings of a message type, and then it parses to that type.
   */
  lemma TypeEnumMatchesMessageType(content: string, modelId: string, k: string)
    requires content != ""
    ensures var accepted := Parse(ChatMessageInput(Some(content), Some(modelId), Some(k))).Ok?;
      accepted <==> (k == "user" || k == "system" || k == "assistant")
    ensures forall t: MessageType :: Parse(ChatMessageInput(Some(content), Some(modelId), Some(TypeName(t))))
              == Ok(ChatMessageData(content, modelId, t))
  {
    forall t: MessageType
      ensures Parse(ChatMessageInput(Some(content), Some(modelId), Some(TypeName(t)))) == Ok(ChatMessageData(content, modelId, t))
    {
      TypeNameInjective(t, ParseType(TypeName(t)).value);
    }
  }
}
