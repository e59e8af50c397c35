/** The conversation state machine shared by both chat widgets: the message
    log, the input buffer, the "bot is typing" flag, and what one send does to
    them before and after its single request to the prediction endpoint settles.
    The widgets differ only in their HTTP client, their fallback text and
    whether they keep the typing flag; a `Variant` carries those differences. */
module Chat {
  import opened JsString

  datatype Option<T> = None | Some(value: T)

  datatype Role = User | Bot

  /** A message's content: a string, or JavaScript's `undefined` when the reply
      body had no `text` field. */
  datatype Content = Text(s: string) | Undefined

  datatype Message = Message(role: Role, content: Content)

  /** The body of an HTTP reply as the client parses it: a JSON value that is
      not null (with whatever its `text` property holds), JSON `null`, or
      something that is not JSON at all. */
  datatype Body = Json(text: Content) | JsonNull | Unparsable

  /** What the request to the prediction endpoint produced: a reply with a
      status and a body, or a transport error (no reply at all). */
  datatype Response = Received(status: int, body: Body) | TransportError

  /** How the `try` block of a send ends: with the content it read from the
      reply, or by throwing into the `catch` block. */
  datatype Outcome = Answered(text: Content) | Threw

  datatype Client = Fetch | Axios

  /** The differences between the two widgets. */
  datatype Variant = Variant(client: Client, fallback: string, tracksTyping: bool)

  /** `fetch` then `res.json()` then `data.text`: fetch rejects only on a
      transport error and ignores the status; `res.json()` rejects on a body
      that is not JSON; reading `.text` of `null` throws. */
  function FetchOutcome(resp: Response): (o: Outcome)
    ensures o.Threw? <==> resp.TransportError? || !resp.body.Json?
    ensures o.Answered? ==> o.text == resp.body.text
  {
    match resp
    case TransportError => Threw
    case Received(_, body) =>
      match body
      case Json(text) => Answered(text)
      case JsonNull => Threw
      case Unparsable => Threw
  }

  /** `axios.post` then `res.data.text`: axios rejects on a transport error and
      on any status outside 200..299; with its default silent JSON parsing a
      body that is not JSON stays a string, whose `.text` is undefined;
      reading `.text` of `null` throws. */
  function AxiosOutcome(resp: Response): (o: Outcome)
    ensures o.Threw? <==> resp.TransportError? || !(200 <= resp.status < 300) || resp.body.JsonNull?
    ensures o.Answered? ==> o.text == if resp.body.Json? then resp.body.text else Undefined
  {
    match resp
    case TransportError => Threw
    case Received(status, body) =>
      if !(200 <= status < 300) then Threw
      else
        match body
        case Json(text) => Answered(text)
        case JsonNull => Threw
        case Unparsable => Answered(Undefined)
  }

  function Classify(client: Client, resp: Response): (o: Outcome) {
    match client
    case Fetch => FetchOutcome(resp)
    case Axios => AxiosOutcome(resp)
  }

  /** The content of the bot message a settled send appends: the answer read
      in the `try` block, or the variant's fixed fallback from the `catch`.
      Stated per client over the raw reply: `fetch` answers every reply with a
      JSON object body, whatever its status; axios answers only 2xx replies
      whose body is not JSON `null`, with `undefined` for a body that is not
      JSON. */
  function Reply(v: Variant, resp: Response): (content: Content)
    ensures v.client == Fetch ==>
      content == if resp.Received? && resp.body.Json? then resp.body.text else Text(v.fallback)
    ensures v.client == Axios ==>
      content == if resp.Received? && 200 <= resp.status < 300 && !resp.body.JsonNull?
                 then (if resp.body.Json? then resp.body.text else Undefined)
                 else Text(v.fallback)
  {
    match Classify(v.client, resp)
    case Answered(text) => text
    case Threw => Text(v.fallback)
  }

  /** The widget's state. `inFlight` counts the requests dispatched and not yet
      settled; the widgets keep no such counter, it exists to state what the
      typing flag does and does not track. */
  datatype Conversation = Conversation(messages: seq<Message>, input: string, isTyping: bool, inFlight: nat)

  /** The state right after the component is created: empty log, empty input. */
  function Initial(): Conversation {
    Conversation([], "", false, 0)
  }

  /** The mount effect: the log is replaced by the seed messages. */
  function Seeded(c: Conversation, seed: seq<Message>): Conversation {
    c.(messages := seed)
  }

  /** The input field's change handler: the buffer takes the typed text. */
  function Typed(c: Conversation, text: string): Conversation {
    c.(input := text)
  }

  /** `sendMessage` up to its `await`: the new state and the question put in
      the request body, or no request when the input is blank. The guard is
      stated by what `!input.trim()` means (see `BlankIffAllWhiteSpace`). */
  function Sent(v: Variant, c: Conversation): (r: (Conversation, Option<string>))
    ensures r.1.Some? <==> !AllWhiteSpace(c.input)
    ensures r.1.None? ==> r.0 == c
    ensures r.1.Some? ==>
      && c.messages <= r.0.messages && |r.0.messages| == |c.messages| + 1
      && r.0.messages[|c.messages|] == Message(User, Text(r.1.value))
      && r.1.value == c.input && r.0.input == [] && r.0.inFlight == c.inFlight + 1
      && (v.tracksTyping ==> r.0.isTyping)
  {
    if AllWhiteSpace(c.input) then (c, None)
    else
      (c.(messages := c.messages + [Message(User, Text(c.input))],
          input := "",
          isTyping := if v.tracksTyping then true else c.isTyping,
          inFlight := c.inFlight + 1),
       Some(c.input))
  }

  /** `sendMessage` after its `await`: one bot message, and the `finally`
      block lowers the typing flag. */
  function Settled(v: Variant, c: Conversation, resp: Response): (d: Conversation)
    requires c.inFlight > 0
    ensures c.messages <= d.messages && |d.messages| == |c.messages| + 1
    ensures d.messages[|c.messages|] == Message(Bot, Reply(v, resp))
    ensures d.input == c.input && d.inFlight == c.inFlight - 1
    ensures v.tracksTyping ==> !d.isTyping
    ensures !v.tracksTyping ==> d.isTyping == c.isTyping
  {
    c.(messages := c.messages + [Message(Bot, Reply(v, resp))],
       isTyping := if v.tracksTyping then false else c.isTyping,
       inFlight := c.inFlight - 1)
  }

  /** The send button is enabled: `!(!input.trim() || isTyping)`. */
  function Enabled(c: Conversation): (enabled: bool)
    ensures enabled <==> (exists i :: 0 <= i < |c.input| && !IsWhiteSpace(c.input[i])) && !c.isTyping
  {
    !AllWhiteSpace(c.input) && !c.isTyping
  }

  /** What can happen to a widget: the user types, a send is triggered (by the
      button or the Enter key), or the reply to a pending request arrives. */
  datatype Event = Type(text: string) | Submit | Arrive(resp: Response)

  /** One event. A reply arrives only for a request in flight; with none
      pending, `Arrive` changes nothing. */
  function Step(v: Variant, c: Conversation, e: Event): (d: Conversation)
    ensures c.messages <= d.messages && |d.messages| <= |c.messages| + 1
    ensures |d.messages| == |c.messages| + 1 <==> d.inFlight != c.inFlight
    ensures e.Type? ==> d == c.(input := e.text)
  {
    match e
    case Type(text) => Typed(c, text)
    case Submit => Sent(v, c).0
    case Arrive(resp) => if c.inFlight == 0 then c else Settled(v, c, resp)
  }

  /** The state after the events `es`, in order: the old log is a prefix of
      the new one, and each event adds at most one message. */
  function Run(v: Variant, c: Conversation, es: seq<Event>): (d: Conversation)
    ensures c.messages <= d.messages && |d.messages| <= |c.messages| + |es|
    decreases |es|
  {
    if es == [] then c else Run(v, Step(v, c, es[0]), es[1..])
  }

  /** Every send in `es` that dispatches a request is made while the send
      button is enabled, i.e. the Enter key is never used to send non-blank
      input while the button is disabled (a blank send changes nothing). */
  predicate ButtonOnly(v: Variant, c: Conversation, es: seq<Event>)
    decreases |es|
  {
    es == [] || ((es[0].Submit? && !AllWhiteSpace(c.input) ==> !c.isTyping) && ButtonOnly(v, Step(v, c, es[0]), es[1..]))
  }

  /** The number of messages in `ms` with the given role. */
  function Count(ms: seq<Message>, role: Role): nat {
    if ms == [] then 0
    else Count(ms[..|ms| - 1], role) + (if ms[|ms| - 1].role == role then 1 else 0)
  }

  /** Messages alternate user, bot, user, bot, ... */
  ghost predicate Alternating(ms: seq<Message>) {
    forall i :: 0 <= i < |ms| ==> ms[i].role == (if i % 2 == 0 then User else Bot)
  }

  // ---------------------------------------------------------------------------
  // One send

  /** Input whose `trim()` is empty: no state change and no request. */
  lemma BlankSubmitChangesNothing(v: Variant, c: Conversation)
    requires IsBlank(c.input)
    ensures Sent(v, c) == (c, None)
  {
    BlankIffAllWhiteSpace(c.input);
  }

  /** Non-blank input: exactly one user message carrying the untrimmed input is
      appended after the unchanged log, the buffer is cleared, the flag is
      raised (in the variant that has one), and the question sent is the
      content of that user message. */
  lemma SubmitAppendsUserMessage(v: Variant, c: Conversation)
    requires !IsBlank(c.input)
    ensures var (d, q) := Sent(v, c);
      && d.messages == c.messages + [Message(User, Text(c.input))]
      && d.input == ""
      && (v.tracksTyping ==> d.isTyping)
      && (!v.tracksTyping ==> d.isTyping == c.isTyping)
      && d.inFlight == c.inFlight + 1
      && q.Some? && Text(q.value) == d.messages[|d.messages| - 1].content
  {
    BlankIffAllWhiteSpace(c.input);
  }

  /** A completed non-blank send grows the log by exactly two messages, a user
      message and then a bot message, leaves the buffer empty and the flag
      lowered, and leaves the number of pending requests as it was. */
  lemma CompletedTurn(v: Variant, c: Conversation, resp: Response)
    requires !IsBlank(c.input)
    ensures Sent(v, c).0.inFlight == c.inFlight + 1
    ensures var d := Settled(v, Sent(v, c).0, resp);
      && d.messages == c.messages + [Message(User, Text(c.input)), Message(Bot, Reply(v, resp))]
      && |d.messages| == |c.messages| + 2
      && d.input == ""
      && (v.tracksTyping ==> !d.isTyping)
      && d.inFlight == c.inFlight
  {
    SubmitAppendsUserMessage(v, c);
  }

  // ---------------------------------------------------------------------------
  // The fetch and axios clients

  /** With `fetch` the HTTP status plays no part: an error status with a JSON
      body is answered like a success. */
  lemma FetchIgnoresStatus(s1: int, s2: int, body: Body)
    ensures FetchOutcome(Received(s1, body)) == FetchOutcome(Received(s2, body))
    ensures body.Json? ==> FetchOutcome(Received(s1, body)) == Answered(body.text)
  {
  }

  /** With axios every status outside 200..299 takes the fallback path. */
  lemma AxiosFallsBackOnErrorStatus(status: int, body: Body)
    requires !(200 <= status < 300)
    ensures AxiosOutcome(Received(status, body)) == Threw
  {
  }

  /** The clients agree on a 2xx reply with a JSON body and on a transport
      error, and differ on an error status with a JSON body. */
  lemma ClientsCompared(status: int, text: Content)
    ensures 200 <= status < 300 ==> FetchOutcome(Received(status, Json(text))) == AxiosOutcome(Received(status, Json(text))) == Answered(text)
    ensures FetchOutcome(TransportError) == AxiosOutcome(TransportError) == Threw
    ensures status == 500 ==> FetchOutcome(Received(status, Json(text))) == Answered(text) && AxiosOutcome(Received(status, Json(text))) == Threw
  {
  }

  // ---------------------------------------------------------------------------
  // Runs of events

  lemma {:induction false} CountAppend(ms: seq<Message>, m: Message, role: Role)
    ensures Count(ms + [m], role) == Count(ms, role) + (if m.role == role then 1 else 0)
  {
    assert (ms + [m])[..|ms|] == ms;
  }

  lemma StepBalances(v: Variant, c: Conversation, e: Event)
    ensures var d := Step(v, c, e);
      && c.messages <= d.messages
      && Count(d.messages, User) - Count(c.messages, User) + c.inFlight
         == Count(d.messages, Bot) - Count(c.messages, Bot) + d.inFlight
  {
    match e
    case Type(_) =>
    case Submit =>
      if !AllWhiteSpace(c.input) {
        CountAppend(c.messages, Message(User, Text(c.input)), User);
        CountAppend(c.messages, Message(User, Text(c.input)), Bot);
      }
    case Arrive(resp) =>
      if c.inFlight > 0 {
        CountAppend(c.messages, Message(Bot, Reply(v, resp)), User);
        CountAppend(c.messages, Message(Bot, Reply(v, resp)), Bot);
      }
  }

  /** Whatever happens, the log is only ever appended to (the old log is a
      prefix of the new one), and every user message added is matched by one
      bot message added, except for the requests still in flight. */
  lemma {:induction false} RunOnlyAppends(v: Variant, c: Conversation, es: seq<Event>)
    ensures var d := Run(v, c, es);
      && c.messages <= d.messages
      && Count(d.messages, User) - Count(c.messages, User) + c.inFlight
         == Count(d.messages, Bot) - Count(c.messages, Bot) + d.inFlight
    decreases |es|
  {
    if es != [] {
      StepBalances(v, c, es[0]);
      RunOnlyAppends(v, Step(v, c, es[0]), es[1..]);
    }
  }

  /** In the variant with a typing flag the flag is raised only while some
      request is in flight, whatever the order of events. */
  lemma {:induction false} TypingMeansAwaiting(v: Variant, c: Conversation, es: seq<Event>)
    requires v.tracksTyping
    requires c.isTyping ==> c.inFlight > 0
    ensures var d := Run(v, c, es); d.isTyping ==> d.inFlight > 0
    decreases |es|
  {
    if es != [] {
      TypingMeansAwaiting(v, Step(v, c, es[0]), es[1..]);
    }
  }

  /** In the variant without a typing flag the flag is never raised. */
  lemma {:induction false} NoFlagNeverTypes(v: Variant, c: Conversation, es: seq<Event>)
    requires !v.tracksTyping && !c.isTyping
    ensures !Run(v, c, es).isTyping
    decreases |es|
  {
    if es != [] {
      NoFlagNeverTypes(v, Step(v, c, es[0]), es[1..]);
    }
  }

  /** The state reached from `c0` while sends only come from the enabled
      button: the log grew by alternating user and bot messages, and the flag
      is raised exactly while the one request is in flight. */
  ghost predicate IdleOrAwaiting(c0: Conversation, c: Conversation) {
    && c0.messages <= c.messages
    && Alternating(c.messages[|c0.messages|..])
    && c.inFlight == (|c.messages| - |c0.messages|) % 2
    && c.isTyping == (c.inFlight == 1)
  }

  lemma AlternatingSnoc(ms: seq<Message>, m: Message)
    requires Alternating(ms)
    requires m.role == if |ms| % 2 == 0 then User else Bot
    ensures Alternating(ms + [m])
  {
  }

  lemma GuardedSubmit(v: Variant, c0: Conversation, c: Conversation)
    requires v.tracksTyping
    requires IdleOrAwaiting(c0, c)
    requires Enabled(c)
    ensures IdleOrAwaiting(c0, Sent(v, c).0)
  {
    var n := |c0.messages|;
    var d := Sent(v, c).0;
    var m := Message(User, Text(c.input));
    assert d.messages == c.messages + [m];
    assert d.messages[n..] == c.messages[n..] + [m];
    AlternatingSnoc(c.messages[n..], m);
  }

  lemma GuardedArrive(v: Variant, c0: Conversation, c: Conversation, resp: Response)
    requires v.tracksTyping
    requires IdleOrAwaiting(c0, c)
    requires c.inFlight > 0
    ensures IdleOrAwaiting(c0, Settled(v, c, resp))
  {
    var n := |c0.messages|;
    var m := Message(Bot, Reply(v, resp));
    assert Settled(v, c, resp).messages[n..] == c.messages[n..] + [m];
    AlternatingSnoc(c.messages[n..], m);
  }

  lemma GuardedStep(v: Variant, c0: Conversation, c: Conversation, e: Event)
    requires v.tracksTyping
    requires IdleOrAwaiting(c0, c)
    requires e.Submit? && !AllWhiteSpace(c.input) ==> !c.isTyping
    ensures IdleOrAwaiting(c0, Step(v, c, e))
  {
    match e
    case Type(_) =>
    case Submit => if !AllWhiteSpace(c.input) { GuardedSubmit(v, c0, c); }
    case Arrive(resp) => if c.inFlight > 0 { GuardedArrive(v, c0, c, resp); }
  }

  lemma {:induction false} GuardedRun(v: Variant, c0: Conversation, c: Conversation, es: seq<Event>)
    requires v.tracksTyping
    requires IdleOrAwaiting(c0, c)
    requires ButtonOnly(v, c, es)
    ensures IdleOrAwaiting(c0, Run(v, c, es))
    decreases |es|
  {
    if es != [] {
      GuardedStep(v, c0, c, es[0]);
      GuardedRun(v, c0, Step(v, c, es[0]), es[1..]);
    }
  }

  /** Starting idle, a widget whose sends all come from the enabled button
      never has two requests in flight: its log grows user, bot, user, bot,
      ..., it ends with a user message exactly while a request is pending,
      and the flag is raised exactly then. */
  lemma ButtonOnlyRunsAlternate(v: Variant, c: Conversation, es: seq<Event>)
    requires v.tracksTyping
    requires !c.isTyping && c.inFlight == 0
    requires ButtonOnly(v, c, es)
    ensures var d := Run(v, c, es);
      && c.messages <= d.messages
      && Alternating(d.messages[|c.messages|..])
      && d.inFlight <= 1
      && d.inFlight == (|d.messages| - |c.messages|) % 2
      && d.isTyping == (d.inFlight == 1)
  {
    assert c.messages[|c.messages|..] == [];
    GuardedRun(v, c, c, es);
  }

  lemma RunCons(v: Variant, c: Conversation, e: Event, es: seq<Event>)
    ensures Run(v, c, [e] + es) == Run(v, Step(v, c, e), es)
    ensures ButtonOnly(v, c, [e] + es) == ((e.Submit? && !AllWhiteSpace(c.input) ==> !c.isTyping) && ButtonOnly(v, Step(v, c, e), es))
  {
    assert ([e] + es)[0] == e && ([e] + es)[1..] == es;
  }

  /** Sending a one-letter input in the variant with a typing flag. */
  lemma SendLetter(v: Variant, c: Conversation, x: char)
    requires v.tracksTyping && !IsWhiteSpace(x) && c.input == [x]
    ensures Sent(v, c).0 == Conversation(c.messages + [Message(User, Text([x]))], "", true, c.inFlight + 1)
  {
    assert !IsWhiteSpace(c.input[0]);
  }

  /** `sendMessage` itself does not look at the flag: a second send by the
      Enter key while the first is pending dispatches a second request and
      appends a second user message, and the first reply lowers the flag
      while the second request is still in flight. */
  lemma EnterKeyCanOverlap(v: Variant, seed: seq<Message>, resp: Response)
    requires v.tracksTyping
    ensures var c := Conversation(seed, "", false, 0);
      var es := [Type("a"), Submit, Type("b"), Submit, Arrive(resp)];
      var d := Run(v, c, es);
      && !ButtonOnly(v, c, es)
      && d.messages == seed + [Message(User, Text("a")), Message(User, Text("b")), Message(Bot, Reply(v, resp))]
      && d.inFlight == 1 && !d.isTyping
  {
    var ua, ub := Message(User, Text("a")), Message(User, Text("b"));
    var c := Conversation(seed, "", false, 0);
    var c1 := Conversation(seed, "a", false, 0);
    var c2 := Conversation(seed + [ua], "", true, 1);
    var c3 := Conversation(seed + [ua], "b", true, 1);
    var c4 := Conversation(seed + [ua, ub], "", true, 2);
    var d := Conversation(seed + [ua, ub, Message(Bot, Reply(v, resp))], "", false, 1);
    assert Step(v, c, Type("a")) == c1;
    SendLetter(v, c1, 'a');
    assert Step(v, c1, Submit) == c2;
    assert Step(v, c2, Type("b")) == c3;
    SendLetter(v, c3, 'b');
    assert (seed + [ua]) + [ub] == seed + [ua, ub];
    assert Step(v, c3, Submit) == c4;
    assert (seed + [ua, ub]) + [Message(Bot, Reply(v, resp))] == d.messages;
    assert Step(v, c4, Arrive(resp)) == d;
    assert !AllWhiteSpace(c3.input) && c3.isTyping;
    RunCons(v, c4, Arrive(resp), []);
    RunCons(v, c3, Submit, [Arrive(resp)]);
    RunCons(v, c2, Type("b"), [Submit, Arrive(resp)]);
    RunCons(v, c1, Submit, [Type("b"), Submit, Arrive(resp)]);
    RunCons(v, c, Type("a"), [Submit, Type("b"), Submit, Arrive(resp)]);
    assert [Type("a"), Submit, Type("b"), Submit, Arrive(resp)] == [Type("a")] + [Submit, Type("b"), Submit, Arrive(resp)];
  }
}
