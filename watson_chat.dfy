/**
 * The chat panel of `watson/app/dashboard/components/Chat.tsx`: a message list, the text
 * being typed and a loading flag. Sending is two steps: `SendMessage` appends the user's
 * message and yields the request, `CompleteSend` appends the reply (or an apology) once
 * the request settles. Changing the selected session reloads the messages.
 * Message ids come from the clock and are parameters; timestamps are left out.
 */
module WatsonChat {
  import opened Wrappers
  import opened JsString

  datatype Role = User | Assistant

  datatype Message = Message(id: string, role: Role, content: string,
                             sources: Option<seq<string>>, relevanceScores: Option<seq<real>>,
                             usedWebSearch: Option<bool>)

  /** The body posted to `/api/chat`. */
  datatype ChatRequest = ChatRequest(question: string, sessionId: Option<string>)

  /**
   * The fields read from a successful `/api/chat` reply. The metadata may be missing from
   * the JSON; the answer is taken to be present.
   */
  datatype ChatReply = ChatReply(answer: string, sources: Option<seq<string>>,
                                 relevanceScores: Option<seq<real>>, usedWebSearch: Option<bool>)

  const ApologyText: string :=
    "I apologize, but I encountered an error processing your request. Please try again."

  /** The user's message: the text as typed, with none of the reply's metadata. */
  function UserMessage(id: string, content: string): (m: Message)
    ensures m.id == id && m.role == User && m.content == content
    ensures m.sources.None? && m.relevanceScores.None? && m.usedWebSearch.None?
  {
    Message(id, User, content, None, None, None)
  }

  /** The assistant's message carries the reply's answer and its metadata unchanged. */
  function AssistantMessage(id: string, reply: ChatReply): (m: Message)
    ensures m.id == id && m.role == Assistant && m.content == reply.answer
    ensures m.sources == reply.sources && m.relevanceScores == reply.relevanceScores
    ensures m.usedWebSearch == reply.usedWebSearch
  {
    Message(id, Assistant, reply.answer, reply.sources, reply.relevanceScores, reply.usedWebSearch)
  }

  /** The apology shown when the request fails, with no metadata. */
  function ErrorMessage(id: string): (m: Message)
    ensures m.id == id && m.role == Assistant && m.content == ApologyText
    ensures m.sources.None? && m.relevanceScores.None? && m.usedWebSearch.None?
  {
    Message(id, Assistant, ApologyText, None, None, None)
  }

  /** The message `CompleteSend` appends: the reply on success, the apology when it is `None`. */
  function ReplyMessage(id: string, reply: Option<ChatReply>): (m: Message)
    ensures m.role == Assistant
    ensures reply.Some? ==> m.content == reply.value.answer && m.sources == reply.value.sources
                            && m.relevanceScores == reply.value.relevanceScores
                            && m.usedWebSearch == reply.value.usedWebSearch
    ensures reply.None? ==> m.content == ApologyText && m.sources.None?
                            && m.relevanceScores.None? && m.usedWebSearch.None?
  {
    match reply
    case Some(r) => AssistantMessage(id, r)
    case None => ErrorMessage(id)
  }

  /** Only Enter without Shift sends. */
  predicate SendsOnKey(key: string, shiftKey: bool) {
    key == "Enter" && !shiftKey
  }

  class Chat {
    var messages: seq<Message>
    var input: string
    var isLoading: bool
    /** The `sessionId` prop the panel was last rendered with. */
    var sessionId: Option<string>

    /** The state before the session effect has run. */
    constructor (sessionId: Option<string>)
      ensures messages == [] && input == "" && !isLoading && this.sessionId == sessionId
    {
      messages := [];
      input := "";
      isLoading := false;
      this.sessionId := sessionId;
    }

    /** `setInput(...)`: typing, or one of the suggestion buttons. */
    method SetInput(text: string)
      modifies this`input
      ensures input == text
    {
      input := text;
    }

    /**
     * The first half of `sendMessage`: ignored when the input is blank or a request is in
     * flight; otherwise appends the untrimmed input as a user message, clears the input,
     * sets the loading flag and yields the request for that very text.
     */
    method SendMessage(id: string) returns (request: Option<ChatRequest>)
      modifies this
      ensures old(IsBlank(input)) || old(isLoading) ==>
                request == None && messages == old(messages) && input == old(input)
                && isLoading == old(isLoading)
      ensures !old(IsBlank(input)) && !old(isLoading) ==>
                messages == old(messages) + [UserMessage(id, old(input))]
                && input == "" && isLoading
                && request == Some(ChatRequest(messages[|messages| - 1].content, sessionId))
      ensures sessionId == old(sessionId)
    {
      TrimEmptyIffBlank(input);
      if Trim(input) == "" || isLoading {
        return None;
      }
      var userMessage := UserMessage(id, input);
      messages := messages + [userMessage];
      input := "";
      isLoading := true;
      return Some(ChatRequest(userMessage.content, sessionId));
    }

    /**
     * The second half of `sendMessage`, once the request settles: `reply` is the parsed
     * reply, `None` when the response was not ok or the request failed. It runs only for a
     * request `SendMessage` started, so a request is in flight.
     */
    method CompleteSend(id: string, reply: Option<ChatReply>)
      requires isLoading
      modifies this
      ensures messages == old(messages) + [ReplyMessage(id, reply)]
      ensures !isLoading && input == old(input) && sessionId == old(sessionId)
    {
      match reply {
        case Some(r) =>
          messages := messages + [AssistantMessage(id, r)];
        case None =>
          messages := messages + [ErrorMessage(id)];
      }
      isLoading := false;
    }

    /**
     * `loadSessionMessages(id)`: `loaded` is the session's messages, `None` when the
     * response was not ok or the request failed, which leaves the list as it was.
     */
    method LoadSessionMessages(loaded: Option<seq<Message>>)
      modifies this`messages
      ensures messages == if loaded.Some? then loaded.value else old(messages)
    {
      if loaded.Some? {
        messages := loaded.value;
      }
    }

    /**
     * The effect on a new `sessionId`: with a session, its messages are loaded;
     * without one (`null` or ""), the list is cleared.
     */
    method SessionChanged(newSessionId: Option<string>, loaded: Option<seq<Message>>)
      modifies this
      ensures sessionId == newSessionId
      ensures !Truthy(newSessionId) ==> messages == []
      ensures Truthy(newSessionId) ==> messages == if loaded.Some? then loaded.value else old(messages)
      ensures input == old(input) && isLoading == old(isLoading)
    {
      sessionId := newSessionId;
      if Truthy(sessionId) {
        LoadSessionMessages(loaded);
      } else {
        messages := [];
      }
    }

    /** `handleKeyPress`: Enter without Shift sends; any other key changes nothing. */
    method HandleKeyPress(key: string, shiftKey: bool, id: string) returns (request: Option<ChatRequest>)
      modifies this
      ensures !SendsOnKey(key, shiftKey) ==>
                request == None && messages == old(messages) && input == old(input)
                && isLoading == old(isLoading)
      ensures SendsOnKey(key, shiftKey) && (old(IsBlank(input)) || old(isLoading)) ==>
                request == None && messages == old(messages) && input == old(input)
                && isLoading == old(isLoading)
      ensures SendsOnKey(key, shiftKey) && !old(IsBlank(input)) && !old(isLoading) ==>
                messages == old(messages) + [UserMessage(id, old(input))]
                && input == "" && isLoading
                && request == Some(ChatRequest(old(input), sessionId))
      ensures sessionId == old(sessionId)
    {
      request := None;
      if key == "Enter" && !shiftKey {
        request := SendMessage(id);
      }
    }
  }
}
