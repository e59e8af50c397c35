/** The full chat widget: a log seeded with a welcome message on mount, a
    typing flag raised while a request is pending, and `fetch` as its client. */
module FetchWidget {
  import opened JsString
  import opened Chat

  const Fallback: string :=
    "\U{26A0}\U{FE0F} I encountered an issue processing your request. Please try again."

  const Welcome: Message := Message(Bot, Text(
    "\U{2728} Welcome to SiglerAI! I'm your intelligent assistant ready to help you with anything you need. What would you like to explore today?"))

  const Config: Variant := Variant(Fetch, Fallback, true)

  class App {
    var messages: seq<Message>
    var input: string
    var isTyping: bool
    /** Requests dispatched and not yet settled (not a field of the widget). */
    ghost var inFlight: nat

    ghost function Snapshot(): Conversation
      reads this
    {
      Conversation(messages, input, isTyping, inFlight)
    }

    /** The three `useState` initial values. */
    constructor ()
      ensures Snapshot() == Initial()
      ensures messages == [] && input == "" && !isTyping
    {
      messages, input, isTyping := [], "", false;
      inFlight := 0;
    }

    /** The mount effect: the log becomes exactly the welcome message. */
    method Mount()
      modifies this
      ensures Snapshot() == Seeded(old(Snapshot()), [Welcome])
      ensures messages == [Welcome] && input == old(input) && isTyping == old(isTyping)
    {
      messages := [Welcome];
    }

    /** The input field's change handler. */
    method SetInput(text: string)
      modifies this
      ensures Snapshot() == Typed(old(Snapshot()), text)
      ensures input == text && messages == old(messages) && isTyping == old(isTyping)
    {
      input := text;
    }

    /** `sendMessage` up to its `await`. The flag is not consulted: only the
        button is disabled while a request is pending, not the Enter key.
        `question` is the question put in the request body, or None when no
        request is made. */
    method SendMessage() returns (question: Option<string>)
      modifies this
      ensures (Snapshot(), question) == Sent(Config, old(Snapshot()))
      ensures AllWhiteSpace(old(input)) ==>
        question == None && messages == old(messages) && input == old(input) && isTyping == old(isTyping)
      ensures !AllWhiteSpace(old(input)) ==>
        && messages == old(messages) + [Message(User, Text(old(input)))]
        && input == "" && isTyping
        && question == Some(old(input))
    {
      BlankIffAllWhiteSpace(input);
      if IsBlank(input) {
        return None;
      }
      question := Some(input);
      messages := messages + [Message(User, Text(input))];
      input := "";
      isTyping := true;
      inFlight := inFlight + 1;
    }

    /** `sendMessage` after its `await`: the answer's `text` or the fallback is
        appended, and the `finally` block lowers the flag. */
    method Settle(resp: Response)
      requires inFlight > 0
      modifies this
      ensures Snapshot() == Settled(Config, old(Snapshot()), resp)
      ensures FetchOutcome(resp).Answered? ==>
        messages == old(messages) + [Message(Bot, FetchOutcome(resp).text)]
      ensures FetchOutcome(resp).Threw? ==>
        messages == old(messages) + [Message(Bot, Text(Fallback))]
      ensures input == old(input) && !isTyping
    {
      var content: Content;
      match FetchOutcome(resp) {
        case Answered(text) => content := text;
        case Threw => content := Text(Fallback);
      }
      messages := messages + [Message(Bot, content)];
      isTyping := false;
      inFlight := inFlight - 1;
    }

    /** Whether the send button is enabled: the negation of its `disabled`
        expression. */
    function SendEnabled(): (enabled: bool)
      reads this
      ensures enabled <==> (exists i :: 0 <= i < |input| && !IsWhiteSpace(input[i])) && !isTyping
      ensures enabled == Enabled(Snapshot())
    {
      BlankIffAllWhiteSpace(input);
      !(IsBlank(input) || isTyping)
    }
  }

  /** A mounted widget shows only the welcome message with the button
      disabled; sending "Hello" disables the button until the reply, even
      with new text in the buffer; and an error status with a JSON body is
      shown as the reply's text, not as the fallback. */
  method MountThenHello() returns (mounted: seq<Message>, enabledBefore: bool, enabledWhilePending: bool, log: seq<Message>, typing: bool)
    ensures mounted == [Welcome] && !enabledBefore && !enabledWhilePending
    ensures log == [Welcome, Message(User, Text("Hello")), Message(Bot, Text("Not found"))]
    ensures !typing
  {
    var w := new App();
    w.Mount();
    mounted := w.messages;
    enabledBefore := w.SendEnabled();
    w.SetInput("Hello");
    assert !IsWhiteSpace("Hello"[0]);
    var q := w.SendMessage();
    w.SetInput("Again");
    assert !IsWhiteSpace("Again"[0]);
    enabledWhilePending := w.SendEnabled();
    w.Settle(Received(404, Json(Text("Not found"))));
    log := w.messages;
    typing := w.isTyping;
  }
}
