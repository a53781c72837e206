/**
 * The chat widget's state: open/minimised flags, an append-only transcript,
 * the input line, the selected model and a loading flag. The asynchronous
 * send is split at its `await`: `BeginSend` runs up to the request and
 * `FinishSend` runs when the response (or a failure) arrives.
 */
module AIAssistant {
  import opened Common
  import opened ChatTypes
  import Registry

  // --------------------------------------------------------------- trimming

  /** The characters `String.prototype.trim` removes: white space and line terminators. */
  predicate IsWhitespace(c: char) {
    c == '\t' || c == '\n' || c == '\U{000B}' || c == '\U{000C}' || c == '\r' || c == ' '
    || c == '\U{00A0}' || c == '\U{1680}' || ('\U{2000}' <= c <= '\U{200A}')
    || c == '\U{2028}' || c == '\U{2029}' || c == '\U{202F}' || c == '\U{205F}'
    || c == '\U{3000}' || c == '\U{FEFF}'
  }

  /** `s` without its leading white space. */
  function TrimStart(s: string): (r: string)
    ensures |r| <= |s| && r == s[|s| - |r|..]
    ensures r != [] ==> !IsWhitespace(r[0])
    ensures forall i :: 0 <= i < |s| - |r| ==> IsWhitespace(s[i])
  {
    if s == [] || !IsWhitespace(s[0]) then s
    else
      var r := TrimStart(s[1..]);
      assert forall i :: 1 <= i < |s| - |r| ==> s[i] == s[1..][i - 1];
      r
  }

  /** `s` without its trailing white space. */
  function TrimEnd(s: string): (r: string)
    ensures |r| <= |s| && r == s[..|r|]
    ensures r != [] ==> !IsWhitespace(r[|r| - 1])
    ensures forall i :: |r| <= i < |s| ==> IsWhitespace(s[i])
  {
    if s == [] || !IsWhitespace(s[|s| - 1]) then s
    else
      var r := TrimEnd(s[..|s| - 1]);
      assert forall i :: |r| <= i < |s| - 1 ==> s[i] == s[..|s| - 1][i];
      r
  }

  /** `s.trim()`. */
  function Trim(s: string): string {
    TrimEnd(TrimStart(s))
  }

  /**
   * The trimmed string is the input with its leading white space cut off
   * (a suffix of `s`) and then its trailing white space (a prefix of that
   * suffix): only white space is cut, and what remains neither starts nor
   * ends with white space.
   */
  lemma {:induction false} TrimIsInnerSlice(s: string)
    ensures TrimStart(s) == s[|s| - |TrimStart(s)|..] && Trim(s) <= TrimStart(s)
    ensures forall i :: 0 <= i < |s| - |TrimStart(s)| ==> IsWhitespace(s[i])
    ensures forall i :: |Trim(s)| <= i < |TrimStart(s)| ==> IsWhitespace(TrimStart(s)[i])
    ensures Trim(s) != [] ==> !IsWhitespace(Trim(s)[0]) && !IsWhitespace(Trim(s)[|Trim(s)| - 1])
  {
    var t := TrimStart(s);
    if Trim(s) != [] {
      assert Trim(s)[0] == t[0];
    }
  }

  /** Every character of `s` is white space (vacuously so for the empty string). */
  predicate Blank(s: string) {
    forall i :: 0 <= i < |s| ==> IsWhitespace(s[i])
  }

  /** The trimmed input is empty exactly when every character is white space. */
  lemma TrimEmptyIffBlank(s: string)
    ensures Trim(s) == "" <==> Blank(s)
  {
    var t := TrimStart(s);
    if Trim(s) == "" {
      // TrimEnd of a string that starts with a non-blank is non-empty
      assert t == [];
    } else {
      var r := Trim(s);
      assert r[0] == t[0] == s[|s| - |t|];
    }
  }

  // ------------------------------------------------------------ messages

  /** The system message narrating a model switch; an unknown id names `undefined`. */
  function SwitchNotice(value: string): (m: ChatMessage)
    ensures m.kind == System
    ensures Registry.Lookup(value).Some? ==> m.content == "Switched to " + Registry.Lookup(value).value.name
    ensures Registry.Lookup(value).None? ==> m.content == "Switched to undefined"
  {
    var name := match Registry.Lookup(value)
      case Some(model) => model.name
      case None => "undefined";
    ChatMessage(System, "Switched to " + name)
  }

  /** What the `fetch` to the chat endpoint produced. */
  datatype ChatReply =
    | NetworkFailure
      /** A response: its `ok` flag, and its `message` field (None when the body does not parse). */
    | Received(ok: bool, message: Option<string>)

  /** The message an arriving reply appends: one assistant message on an ok, readable reply. */
  function ReplyMessages(reply: ChatReply): (ms: seq<ChatMessage>)
    ensures |ms| <= 1
    ensures |ms| == 1 <==> reply.Received? && reply.ok && reply.message.Some?
    ensures |ms| == 1 ==> ms[0] == ChatMessage(Assistant, reply.message.value)
  {
    match reply
    case Received(true, Some(text)) => [ChatMessage(Assistant, text)]
    case _ => []
  }

  const INITIAL_MODEL := "gpt-4"

  class AIChat {
    var isOpen: bool
    var messages: seq<ChatMessage>
    var inputMessage: string
    var selectedModel: string
    var isMinimized: bool
    var isLoading: bool

    /** The initial state: closed, empty, model 'gpt-4', idle, not minimised. */
    constructor ()
      ensures !isOpen && messages == [] && inputMessage == "" && selectedModel == "gpt-4"
      ensures !isMinimized && !isLoading
    {
      isOpen := false;
      messages := [];
      inputMessage := "";
      selectedModel := INITIAL_MODEL;
      isMinimized := false;
      isLoading := false;
    }

    /** The floating button opens the widget. */
    method Open()
      modifies this`isOpen
      ensures isOpen
    {
      isOpen := true;
    }

    /** The close button closes it; the transcript is kept. */
    method Close()
      modifies this`isOpen
      ensures !isOpen
    {
      isOpen := false;
    }

    /** The minimise button toggles the minimised state. */
    method ToggleMinimized()
      modifies this`isMinimized
      ensures isMinimized == !old(isMinimized)
    {
      isMinimized := !isMinimized;
    }

    /** The input field's change handler. */
    method SetInput(text: string)
      modifies this`inputMessage
      ensures inputMessage == text
    {
      inputMessage := text;
    }

    /**
     * `handleSend` up to the request: a blank input changes nothing and sends
     * nothing; otherwise one user message with the untrimmed input is
     * appended, the input is cleared, loading starts, and the request carries
     * the input and the selected model.
     */
    method BeginSend() returns (request: Option<ChatRequest>)
      modifies this`messages, this`inputMessage, this`isLoading
      ensures old(messages) <= messages
      ensures request.Some? <==> !Blank(old(inputMessage))
      ensures request.None? ==>
                messages == old(messages) && inputMessage == old(inputMessage) && isLoading == old(isLoading)
      ensures request.Some? ==>
                && messages == old(messages) + [ChatMessage(User, old(inputMessage))]
                && inputMessage == "" && isLoading
                && request.value == ChatRequest(old(inputMessage), selectedModel)
    {
      TrimEmptyIffBlank(inputMessage);
      if Trim(inputMessage) == "" {
        return None;
      }
      var text := inputMessage;
      messages := messages + [ChatMessage(User, text)];
      inputMessage := "";
      isLoading := true;
      request := Some(ChatRequest(text, selectedModel));
    }

    /**
     * `handleSend` after the request: an ok reply with a readable body appends
     * exactly one assistant message with the reply; anything else appends
     * nothing. Loading ends in both cases.
     */
    method FinishSend(reply: ChatReply)
      modifies this`messages, this`isLoading
      ensures !isLoading
      ensures old(messages) <= messages
      ensures messages == old(messages) + ReplyMessages(reply)
    {
      if reply.Received? && reply.ok && reply.message.Some? {
        messages := messages + [ChatMessage(Assistant, reply.message.value)];
      }
      isLoading := false;
    }

    /** `handleModelChange`: select the model and append one system notice. */
    method ModelChange(value: string)
      modifies this`selectedModel, this`messages
      ensures selectedModel == value
      ensures old(messages) <= messages
      ensures messages == old(messages) + [SwitchNotice(value)]
    {
      selectedModel := value;
      messages := messages + [SwitchNotice(value)];
    }

    /**
     * `handleKeyPress`: Enter without Shift is a send, with every outcome of
     * `BeginSend`; any other key sends nothing and changes nothing.
     */
    method KeyPress(key: string, shiftKey: bool) returns (request: Option<ChatRequest>)
      modifies this`messages, this`inputMessage, this`isLoading
      ensures old(messages) <= messages
      ensures request.Some? <==> key == "Enter" && !shiftKey && !Blank(old(inputMessage))
      ensures request.None? ==>
                messages == old(messages) && inputMessage == old(inputMessage) && isLoading == old(isLoading)
      ensures request.Some? ==>
                && messages == old(messages) + [ChatMessage(User, old(inputMessage))]
                && inputMessage == "" && isLoading
                && request.value == ChatRequest(old(inputMessage), selectedModel)
    {
      request := None;
      if key == "Enter" && !shiftKey {
        request := BeginSend();
      }
    }
  }

  /**
   * One whole send: a non-blank input is sent with the selected model, and
   * the transcript gains the user message and then at most the assistant
   * reply, earlier messages unchanged, with loading over; a blank input sends
   * nothing and leaves the transcript, the input and the loading flag as they
   * were.
   */
  method Exchange(chat: AIChat, reply: ChatReply) returns (request: Option<ChatRequest>)
    modifies chat`messages, chat`inputMessage, chat`isLoading
    ensures request.Some? <==> !Blank(old(chat.inputMessage))
    ensures request.Some? ==> request.value == ChatRequest(old(chat.inputMessage), old(chat.selectedModel))
    ensures request.None? ==>
              chat.messages == old(chat.messages) && chat.inputMessage == old(chat.inputMessage)
              && chat.isLoading == old(chat.isLoading)
    ensures request.Some? ==>
              chat.messages == old(chat.messages) + [ChatMessage(User, old(chat.inputMessage))] + ReplyMessages(reply)
              && chat.inputMessage == "" && !chat.isLoading
  {
    request := chat.BeginSend();
    if request.Some? {
      chat.FinishSend(reply);
    }
  }
}
