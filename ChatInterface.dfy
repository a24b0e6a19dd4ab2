/**
 * The text chat: the message list, the input box and the pending flag of the
 * transition that awaits the chat flow, plus the avatar initial. The chat
 * flow's reply is a parameter.
 */
module ChatInterface {
  import opened Options
  import opened Users
  import opened Text
  import opened VoiceAgentFlow
  import VoiceAgentPage
  import WelcomeHeader

  /** The request the chat sends: the earlier messages followed by the new one, and the new text again. */
  function ChatRequest(messages: seq<Message>, input: string): ConversationInput
  {
    ConversationInput(messages + [Message(User, input)], input)
  }

  /**
   * The two pages build their requests differently from the same state:
   * the chat includes the new message in the history as well as in
   * `currentInput`, the voice page only in `currentInput`.
   */
  lemma RequestsDiffer(messages: seq<Message>, text: string)
    ensures ChatRequest(messages, text).history == VoiceAgentPage.VoiceRequest(messages, text).history + [Message(User, text)]
    ensures ChatRequest(messages, text).currentInput == VoiceAgentPage.VoiceRequest(messages, text).currentInput == text
    ensures ChatRequest(messages, text).history[|messages|].content == ChatRequest(messages, text).currentInput
  {
  }

  class ChatInterface {
    var messages: seq<Message>
    var input: string
    /** The transition awaiting the chat flow is running. */
    var isPending: bool

    constructor ()
      ensures messages == [] && input == "" && !isPending
    {
      messages := [];
      input := "";
      isPending := false;
    }

    /** Typing into the input box. */
    method SetInput(text: string)
      modifies this
      ensures input == text && messages == old(messages) && isPending == old(isPending)
    {
      input := text;
    }

    /**
     * Submitting the form. An empty input or a pending request ignores the
     * submit; otherwise the user's message is appended, the input cleared,
     * and the chat flow called with `ChatRequest`.
     */
    method HandleSubmit() returns (request: Option<ConversationInput>)
      modifies this
      ensures old(input) == "" || old(isPending) ==>
        request == None && messages == old(messages) && input == old(input) && isPending == old(isPending)
      ensures old(input) != "" && !old(isPending) ==>
        && messages == old(messages) + [Message(User, old(input))]
        && input == ""
        && isPending
        && request == Some(ChatRequest(old(messages), old(input)))
    {
      if input == "" || isPending {
        return None;
      }
      var text := input;
      var before := messages;
      messages := messages + [Message(User, text)];
      input := "";
      isPending := true;
      request := Some(ChatRequest(before, text));
    }

    /** The chat flow answered: its reply is appended as one model message and the transition ends. */
    method ResponseArrived(response: string)
      requires isPending
      modifies this
      ensures messages == old(messages) + [Message(Model, response)]
      ensures !isPending && input == old(input)
    {
      messages := messages + [Message(Model, response)];
      isPending := false;
    }
  }

  /**
   * The avatar letter: 'U' without a user, 'A' for an anonymous user, else
   * the first character of the display name, else of the email, upper-cased,
   * and 'U' when neither is set.
   */
  function UserInitial(user: Option<AuthUser>): char
  {
    match user
    case None => 'U'
    case Some(u) =>
      if u.isAnonymous then 'A'
      else if Truthy(u.displayName) then UpperAscii(u.displayName.value[0])
      else if Truthy(u.email) then UpperAscii(u.email.value[0])
      else 'U'
  }

  /**
   * The avatar letter agrees with the dashboard greeting: when the greeting
   * names the user, the letter is that name's first character upper-cased;
   * otherwise it is 'A' for an anonymous user and 'U' for everyone else.
   */
  lemma InitialMatchesGreeting(user: Option<AuthUser>)
    ensures var name := WelcomeHeader.GreetedName(WelcomeHeader.Greeting(user));
      && (name.Some? ==> name.value != "" && UserInitial(user) == UpperAscii(name.value[0]))
      && (name.None? ==> UserInitial(user) == if user.Some? && user.value.isAnonymous then 'A' else 'U')
  {
    WelcomeHeader.GreetingAddressesUser(user);
  }
}
