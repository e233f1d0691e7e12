/** The chat widget (client/src/components/ChatWidget.jsx): a floating panel that
    opens and closes, an input line and an append-only log of messages. Sending is
    split in its two halves: the submission, which logs the user's text and posts
    it, and the settling of that request, which logs the reply (None when the
    request failed). */
module ChatWidgetComponent {
  import opened Wrappers
  import opened Text

  datatype Sender = User | Ai

  datatype Message = Message(text: string, sender: Sender)

  const WelcomeText := "Hi there! I'm your AI Career Mentor. Ask me about roadmaps, skills, or career advice!"
  const ConnectionApology := "Sorry, I'm having trouble connecting right now."

  /** The log the widget starts with. */
  const Welcome := Message(WelcomeText, Ai)

  /** The AI message logged when a request settles: the server's reply, or the
      apology when the request failed. */
  function AiMessage(reply: Option<string>): (m: Message)
    ensures m.sender == Ai
    ensures reply.Some? ==> m.text == reply.value
    ensures reply.None? ==> m.text == ConnectionApology
  {
    match reply
    case Some(text) => Message(text, Ai)
    case None => Message(ConnectionApology, Ai)
  }

  class ChatWidget {
    var isOpen: bool
    var messages: seq<Message>
    var input: string
    var isTyping: bool

    /** The log always opens with the welcome message. */
    ghost predicate Valid()
      reads this
    {
      |messages| >= 1 && messages[0] == Welcome
    }

    constructor ()
      ensures Valid()
      ensures !isOpen && messages == [Welcome] && input == [] && !isTyping
    {
      isOpen := false;
      messages := [Welcome];
      input := [];
      isTyping := false;
    }

    /** The send button is disabled while the input is blank or a reply is
        pending; blank is the `!input.trim()` test. */
    predicate SendDisabled(): (disabled: bool)
      reads this
      ensures disabled <==> Trim(input) == [] || isTyping
    {
      BlankIffTrimsToEmpty(input);
      IsBlank(input) || isTyping
    }

    /** The round button opens a closed panel and closes an open one. */
    method Toggle()
      modifies this
      ensures isOpen == !old(isOpen)
      ensures messages == old(messages) && input == old(input) && isTyping == old(isTyping)
    {
      isOpen := !isOpen;
    }

    /** The close button in the panel's header. */
    method Close()
      modifies this
      ensures !isOpen
      ensures messages == old(messages) && input == old(input) && isTyping == old(isTyping)
    {
      isOpen := false;
    }

    /** Typing replaces the input line. */
    method EditInput(text: string)
      modifies this
      ensures input == text
      ensures isOpen == old(isOpen) && messages == old(messages) && isTyping == old(isTyping)
    {
      input := text;
    }

    /** The first half of `handleSend`: a blank input changes nothing and posts
        nothing; otherwise the input, untrimmed, is logged as the user's message
        and posted, the input is cleared and the widget waits for the reply. The
        send button is the only way to submit, and it is disabled while a reply
        is pending, so a submission never happens then. */
    method Submit() returns (posted: Option<string>)
      requires Valid() && !isTyping
      modifies this
      ensures Valid()
      ensures posted.Some? <==> !old(SendDisabled())
      ensures old(IsBlank(input)) ==>
                posted.None? && messages == old(messages) && input == old(input) && isTyping == old(isTyping)
      ensures !old(IsBlank(input)) ==>
                posted == Some(old(input)) && messages == old(messages) + [Message(old(input), User)]
                && input == [] && isTyping
      ensures isOpen == old(isOpen)
    {
      if IsBlank(input) {
        return None;
      }
      var userMsg := Message(input, User);
      messages := messages + [userMsg];
      input := [];
      isTyping := true;
      posted := Some(userMsg.text);
    }

    /** The second half: the request settles, exactly one AI message is logged
        and the widget stops waiting. */
    method Settle(reply: Option<string>)
      requires Valid()
      modifies this
      ensures Valid()
      ensures messages == old(messages) + [AiMessage(reply)]
      ensures !isTyping
      ensures isOpen == old(isOpen) && input == old(input)
    {
      messages := messages + [AiMessage(reply)];
      isTyping := false;
    }

    /** `handleSend` from submission to settling, with no other event in between:
        one user message and one AI message are appended and nothing earlier in
        the log changes. */
    method Send(reply: Option<string>)
      requires Valid() && !isTyping
      modifies this
      ensures Valid()
      ensures !isTyping
      ensures old(messages) <= messages
      ensures old(IsBlank(input)) ==>
                messages == old(messages) && input == old(input) && isTyping == old(isTyping)
      ensures !old(IsBlank(input)) ==>
                messages == old(messages) + [Message(old(input), User), AiMessage(reply)]
                && input == [] && !isTyping
      ensures isOpen == old(isOpen)
    {
      var posted := Submit();
      if posted.Some? {
        Settle(reply);
      }
    }
  }
}
