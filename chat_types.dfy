/** The chat message and chat-completion request records of the
    OpenAI-compatible interface, with the text selector of a message. */
module ChatTypes {
  import opened Shapes

  datatype ImageURL = ImageURL(url: string)

  /** One element of a multi-part message; `text` defaults to the empty string
      and may be None. */
  datatype ChatContent = ChatContent(kind: string, text: Option<string> := Some(""), imageUrl: Option<ImageURL> := None)

  /** `content: str | List[ChatContent]`. */
  datatype Content = Plain(s: string) | Parts(parts: seq<ChatContent>)

  /** A part that `text()` accepts: of type "text" and with a text that is not None. */
  predicate Qualifies(c: ChatContent)
  {
    c.kind == "text" && c.text.Some?
  }

  /** The text of the first qualifying part, or "" when none qualifies.
      Non-qualifying parts are skipped, not a reason to stop. */
  function FirstText(parts: seq<ChatContent>): (r: string)
    ensures (forall i :: 0 <= i < |parts| ==> !Qualifies(parts[i])) ==> r == ""
    ensures forall i :: 0 <= i < |parts| && Qualifies(parts[i]) && (forall j :: 0 <= j < i ==> !Qualifies(parts[j])) ==>
              r == parts[i].text.value
  {
    if parts == [] then ""
    else if Qualifies(parts[0]) then parts[0].text.value
    else FirstText(parts[1..])
  }

  datatype ChatMessage = ChatMessage(role: string, content: Content)
  {
    /** `ChatMessage.text()`: a string content as it is, otherwise the first
        qualifying part's text, otherwise "". */
    function Text(): (r: string)
      ensures content.Plain? ==> r == content.s
      ensures content.Parts? && (forall i :: 0 <= i < |content.parts| ==> !Qualifies(content.parts[i])) ==> r == ""
      ensures content.Parts? ==>
        (forall i :: 0 <= i < |content.parts| && Qualifies(content.parts[i]) && (forall j :: 0 <= j < i ==> !Qualifies(content.parts[j])) ==>
           r == content.parts[i].text.value)
    {
      match content
      case Plain(s) => s
      case Parts(ps) => FirstText(ps)
    }
  }

  /** A part of type "text" whose text is the empty string still qualifies, so
      it hides every later part: the search ends there with "". */
  lemma EmptyTextEndsSearch(role: string, later: seq<ChatContent>)
    ensures ChatMessage(role, Parts([ChatContent("text")] + later)).Text() == ""
  {
  }

  datatype ChatCompletionRequest = ChatCompletionRequest(
    model: string,
    messages: seq<ChatMessage>,
    maxTokens: Option<int> := Some(-1),
    stream: Option<bool> := Some(false))

  /** A request built from the required fields only takes the declared
      defaults: no token limit (-1) and no streaming. */
  function NewRequest(model: string, messages: seq<ChatMessage>): (r: ChatCompletionRequest)
    ensures r.model == model && r.messages == messages
    ensures r.maxTokens == Some(-1)
    ensures r.stream == Some(false)
  {
    ChatCompletionRequest(model, messages)
  }
}
