/** The earlier chat widget: an empty initial log, no typing flag, and axios
    as its client. */
module AxiosWidget {
  import opened JsString
  import opened Chat

  const Fallback: string := "Sorry, something went wrong."

  const Config: Variant := Variant(Axios, Fallback, false)

  class ChatBot {
    var messages: seq<Message>
    var input: string
    /** Requests dispatched and not yet settled (not a field of the widget). */
    ghost var inFlight: nat

    /** The widget has no typing flag; its state reads as one never raised. */
    ghost function Snapshot(): Conversation
      reads this
    {
      Conversation(messages, input, false, inFlight)
    }

    /** The two `useState` initial values. */
    constructor ()
      ensures Snapshot() == Initial()
      ensures messages == [] && input == ""
    {
      messages, input := [], "";
      inFlight := 0;
    }

    /** The input field's change handler. */
    method SetInput(text: string)
      modifies this
      ensures Snapshot() == Typed(old(Snapshot()), text)
      ensures input == text && messages == old(messages)
    {
      input := text;
    }

    /** `sendMessage` up to its `await`: the button and the Enter key both
        call it unguarded. */
    method SendMessage() returns (question: Option<string>)
      modifies this
      ensures (Snapshot(), question) == Sent(Config, old(Snapshot()))
      ensures AllWhiteSpace(old(input)) ==>
        question == None && messages == old(messages) && input == old(input)
      ensures !AllWhiteSpace(old(input)) ==>
        && messages == old(messages) + [Message(User, Text(old(input)))]
        && input == ""
        && question == Some(old(input))
    {
      BlankIffAllWhiteSpace(input);
      if IsBlank(input) {
        return None;
      }
      question := Some(input);
      messages := messages + [Message(User, Text(input))];
      input := "";
      inFlight := inFlight + 1;
    }

    /** `sendMessage` after its `await`: `res.data.text`, or the fallback when
        axios or the property read throws. */
    method Settle(resp: Response)
      requires inFlight > 0
      modifies this
      ensures Snapshot() == Settled(Config, old(Snapshot()), resp)
      ensures AxiosOutcome(resp).Answered? ==>
        messages == old(messages) + [Message(Bot, AxiosOutcome(resp).text)]
      ensures AxiosOutcome(resp).Threw? ==>
        messages == old(messages) + [Message(Bot, Text(Fallback))]
      ensures input == old(input)
    {
      var content: Content;
      match AxiosOutcome(resp) {
        case Answered(text) => content := text;
        case Threw => content := Text(Fallback);
      }
      messages := messages + [Message(Bot, content)];
      inFlight := inFlight - 1;
    }
  }

  /** A fresh widget: a blank send makes no request and leaves the log empty;
      "Hello" answered with `{text: "Hi there"}` gives a log of one user and
      one bot message; "Ping" failing in transport then adds the fallback. */
  method HelloThenPing() returns (afterBlank: seq<Message>, afterHello: seq<Message>, afterPing: seq<Message>)
    ensures afterBlank == []
    ensures afterHello == [Message(User, Text("Hello")), Message(Bot, Text("Hi there"))]
    ensures afterPing == afterHello + [Message(User, Text("Ping")), Message(Bot, Text(Fallback))]
  {
    var w := new ChatBot();
    w.SetInput(" ");
    var q := w.SendMessage();
    afterBlank := w.messages;
    w.SetInput("Hello");
    assert !IsWhiteSpace("Hello"[0]);
    q := w.SendMessage();
    w.Settle(Received(200, Json(Text("Hi there"))));
    afterHello := w.messages;
    w.SetInput("Ping");
    assert !IsWhiteSpace("Ping"[0]);
    q := w.SendMessage();
    w.Settle(TransportError);
    afterPing := w.messages;
  }
}
