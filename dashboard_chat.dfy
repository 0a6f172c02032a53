/**
 * The simulated chat of `frontend/components/dashboard/ChatInterface.tsx`: it opens with a
 * greeting; a submit appends the user's message and starts a 1.5 s timer whose callback
 * appends a fixed assistant reply. Because a submit is ignored while loading, the messages
 * alternate user/assistant after the greeting. Message ids come from the clock and are
 * parameters; timestamps are left out.
 */
module DashboardChat {
  import opened JsString

  datatype Role = User | Assistant

  datatype Message = Message(id: string, role: Role, content: string)

  const GreetingText: string :=
    "Hello! I'm Watson, your legal assistant. How can I help you with your legal questions today?"

  const SimulatedReplyText: string :=
    "I understand your question. Once the backend is integrated, I'll provide detailed legal analysis and insights based on your query. For now, this is a simulated response demonstrating the chat interface."

  const Greeting: Message := Message("1", Assistant, GreetingText)

  /** The role of the message at position `i`: the greeting, then user and assistant in turn. */
  function RoleAt(i: nat): Role {
    if i % 2 == 1 then User else Assistant
  }

  /** The messages start with the greeting and alternate user/assistant after it. */
  ghost predicate Alternates(messages: seq<Message>) {
    |messages| >= 1 && messages[0] == Greeting
    && forall i :: 0 <= i < |messages| ==> messages[i].role == RoleAt(i)
  }

  class ChatInterface {
    var messages: seq<Message>
    var input: string
    var isLoading: bool

    /** A reply timer is pending exactly while loading, and then the last message is the user's. */
    ghost predicate Valid()
      reads this
    {
      Alternates(messages) && (isLoading <==> |messages| % 2 == 0)
    }

    constructor ()
      ensures messages == [Greeting] && input == "" && !isLoading
      ensures Valid()
    {
      messages := [Greeting];
      input := "";
      isLoading := false;
    }

    method SetInput(text: string)
      requires Valid()
      modifies this`input
      ensures input == text && Valid()
    {
      input := text;
    }

    /**
     * `handleSubmit`: ignored when the input is blank or loading; otherwise appends the
     * untrimmed input as a user message, clears the input, sets loading and starts the timer.
     */
    method HandleSubmit(id: string)
      requires Valid()
      modifies this
      ensures Valid()
      ensures old(IsBlank(input)) || old(isLoading) ==>
                messages == old(messages) && input == old(input) && isLoading == old(isLoading)
      ensures !old(IsBlank(input)) && !old(isLoading) ==>
                messages == old(messages) + [Message(id, User, old(input))] && input == "" && isLoading
    {
      TrimEmptyIffBlank(input);
      if Trim(input) == "" || isLoading {
        return;
      }
      messages := messages + [Message(id, User, input)];
      input := "";
      isLoading := true;
    }

    /**
     * The timer callback: appends the fixed reply and clears loading. Only a submit starts
     * the timer, so it fires while loading.
     */
    method TimerFires(id: string)
      requires Valid() && isLoading
      modifies this
      ensures Valid()
      ensures messages == old(messages) + [Message(id, Assistant, SimulatedReplyText)]
      ensures !isLoading && input == old(input)
    {
      messages := messages + [Message(id, Assistant, SimulatedReplyText)];
      isLoading := false;
    }

    /** The textarea's `onKeyDown`: Enter without Shift submits. */
    method HandleKeyDown(key: string, shiftKey: bool, id: string)
      requires Valid()
      modifies this
      ensures Valid()
      ensures !(key == "Enter" && !shiftKey) ==>
                messages == old(messages) && input == old(input) && isLoading == old(isLoading)
      ensures key == "Enter" && !shiftKey && (old(IsBlank(input)) || old(isLoading)) ==>
                messages == old(messages) && input == old(input) && isLoading == old(isLoading)
      ensures key == "Enter" && !shiftKey && !old(IsBlank(input)) && !old(isLoading) ==>
                messages == old(messages) + [Message(id, User, old(input))] && input == "" && isLoading
    {
      if key == "Enter" && !shiftKey {
        HandleSubmit(id);
      }
    }
  }

  /**
   * In an alternating list, any first `k` messages hold `k / 2` user messages and the rest
   * replies: the user never gets two questions ahead of the assistant.
   */
  lemma {:induction false} AlternationCounts(messages: seq<Message>, k: nat)
    requires Alternates(messages) && k <= |messages|
    ensures Count(messages[..k], User) == k / 2
    ensures Count(messages[..k], Assistant) == k - k / 2
  {
    if k > 0 {
      AlternationCounts(messages, k - 1);
      assert messages[..k] == messages[..k - 1] + [messages[k - 1]];
      CountAppend(messages[..k - 1], messages[k - 1], User);
      CountAppend(messages[..k - 1], messages[k - 1], Assistant);
      assert messages[k - 1].role == RoleAt(k - 1);
      if (k - 1) % 2 == 1 {
        assert k / 2 == (k - 1) / 2 + 1;
      } else {
        assert k / 2 == (k - 1) / 2;
      }
    }
  }

  function Count(messages: seq<Message>, role: Role): nat {
    if messages == [] then 0
    else Count(messages[..|messages| - 1], role) + (if messages[|messages| - 1].role == role then 1 else 0)
  }

  lemma CountAppend(messages: seq<Message>, m: Message, role: Role)
    ensures Count(messages + [m], role) == Count(messages, role) + (if m.role == role then 1 else 0)
  {
    assert (messages + [m])[..|messages|] == messages;
  }
}
