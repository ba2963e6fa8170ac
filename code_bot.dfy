/** The older code assistant of src/code-bot.ts: a message context capped at
    the ten most recent turns, one model call per prompt, and a strict
    check that the reply is a JSON object with both `code` and
    `description`. */
module CodeAssistant {
  import opened Js
  import opened Messages

  /** `CodeBot.MAX_MESSAGES` */
  const MAX_MESSAGES: nat := 10

  const EmptyPrompt := "Prompt cannot be empty."
  const InvalidResponse := "Invalid response from Bedrock model."
  const JsonPrefix := "Failed to parse assistant response as JSON: "
  const MissingFields := "Response does not include required fields: \"code\" and \"description\"."

  /** What `invokeModel` settles with: a response carrying its content
      block texts, no response at all (`null` or `undefined`), or a thrown
      error. */
  datatype ModelOutcome = Response(content: seq<string>) | NoResponse | Failure(error: Error)

  /** The model endpoint, seen through the context it is sent (the system
      prompt, model id and sampling settings are fixed per bot). */
  type Invoker = seq<Message> -> ModelOutcome

  /** The context kept after a push: the most recent `MAX_MESSAGES` turns,
      oldest first. */
  function Capped(ms: seq<Message>): (r: seq<Message>)
    ensures |r| == Min(|ms|, MAX_MESSAGES)
    ensures r == ms[|ms| - |r|..]
  {
    if |ms| > MAX_MESSAGES then ms[|ms| - MAX_MESSAGES..] else ms
  }

  /** Capping after every push keeps exactly what capping the whole
      conversation once would keep. */
  lemma CappedExtend(history: seq<Message>, m: Message)
    ensures Capped(Capped(history) + [m]) == Capped(history + [m])
  {
    if |history| >= MAX_MESSAGES {
      var c := Capped(history);
      var from := |history| - MAX_MESSAGES;
      assert c == history[from..];
      assert (c + [m])[1..] == history[from + 1..] + [m];
      assert (history + [m])[from + 1..] == history[from + 1..] + [m];
    }
  }

  /** After a successful exchange the context ends with the user turn
      followed by the assistant turn, whatever came before. */
  lemma ExchangeEndsContext(context: seq<Message>, user: Message, assistant: Message)
    ensures var c := Capped(Capped(context + [user]) + [assistant]);
            |c| >= 2 && c[|c| - 2] == user && c[|c| - 1] == assistant
  {
    var c1 := Capped(context + [user]);
    var c := Capped(c1 + [assistant]);
    assert c1[|c1| - 1] == user;
    assert c[|c| - 1] == assistant;
    assert c[|c| - 2] == (c1 + [assistant])[|c1| - 1];
  }

  /** `parseAssistantResponse`: the decoded value itself when it has a
      truthy `code` and a truthy `description`; a prefixed error when the
      text is not JSON; the TypeError of reading a property of `null`; and
      the required-fields error otherwise. */
  function ParseAssistantResponse(responseText: string, decode: Decoder): (r: Result<JsValue, Error>)
    ensures r.Ok? <==> decode(responseText).Ok? && !Nullish(decode(responseText).value)
                       && Truthy(Prop(decode(responseText).value, "code"))
                       && Truthy(Prop(decode(responseText).value, "description"))
    ensures r.Ok? ==> r.value == decode(responseText).value
    ensures decode(responseText).Err? ==> r == Err(PlainError(JsonPrefix + decode(responseText).error))
    ensures decode(responseText).Ok? && r.Err? ==>
              if Nullish(decode(responseText).value) then r.error.name == "TypeError"
              else r == Err(PlainError(MissingFields))
  {
    match decode(responseText)
    case Err(reason) => Err(PlainError(JsonPrefix + reason))
    case Ok(parsed) =>
      match Get(parsed, "code")
      case Err(e) => Err(e)
      case Ok(code) =>
        if !Truthy(code) || !Truthy(Prop(parsed, "description")) then Err(PlainError(MissingFields))
        else Ok(parsed)
  }

  /** What the `try` block of `generateCode` makes of the model's outcome:
      an error from the call is rethrown as it is, a missing response or
      one without content is invalid, and otherwise the first block is
      parsed. */
  function Answer(reply: ModelOutcome, decode: Decoder): (r: Result<JsValue, Error>)
    ensures r.Ok? <==> reply.Response? && |reply.content| > 0
                       && ParseAssistantResponse(reply.content[0], decode).Ok?
    ensures reply.Failure? ==> r == Err(reply.error)
    ensures reply.NoResponse? || reply == Response([]) ==> r == Err(PlainError(InvalidResponse))
    ensures reply.Response? && |reply.content| > 0 ==> r == ParseAssistantResponse(reply.content[0], decode)
  {
    match reply
    case Failure(e) => Err(e)
    case NoResponse => Err(PlainError(InvalidResponse))
    case Response(content) =>
      if |content| == 0 then Err(PlainError(InvalidResponse)) else ParseAssistantResponse(content[0], decode)
  }

  class CodeBot {
    /** The messages sent with each request. */
    var chatContext: seq<Message>
    /** Every message ever pushed, oldest first. */
    ghost var history: seq<Message>

    /** The context is the most recent part of the history, never longer
        than the cap. */
    ghost predicate Valid()
      reads this
    {
      chatContext == Capped(history)
    }

    constructor ()
      ensures Valid() && chatContext == [] && history == []
    {
      chatContext := [];
      history := [];
    }

    /** Pushes a message and, when the context has grown past the cap,
        keeps only its most recent `MAX_MESSAGES` turns. */
    method AddToChatContext(message: Message)
      requires Valid()
      modifies this`chatContext, this`history
      ensures Valid()
      ensures history == old(history) + [message]
      ensures chatContext == Capped(old(chatContext) + [message])
      ensures |chatContext| <= MAX_MESSAGES && Last(chatContext) == message
    {
      chatContext := chatContext + [message];
      if |chatContext| > MAX_MESSAGES {
        chatContext := SliceFrom(chatContext, -(MAX_MESSAGES as int));
      }
      history := history + [message];
      CappedExtend(old(history), message);
    }

    /** `generateCode`: an empty prompt is refused before anything
        changes. Otherwise the user turn is pushed and the capped context is
        sent; only a reply that parses adds the raw reply as an assistant
        turn, and every failure leaves the user turn in place and is handed
        back. */
    method GenerateCode(userPrompt: string, invoke: Invoker, decode: Decoder) returns (r: Result<JsValue, Error>)
      requires Valid()
      modifies this`chatContext, this`history
      ensures Valid()
      ensures userPrompt == "" ==>
                r == Err(PlainError(EmptyPrompt)) && chatContext == old(chatContext) && history == old(history)
      ensures userPrompt != "" ==>
                var asked := old(history) + [Message(User, [userPrompt])];
                var reply := invoke(Capped(asked));
                && r == Answer(reply, decode)
                && history == (if r.Ok? then asked + [Message(Assistant, [reply.content[0]])] else asked)
    {
      if userPrompt == "" {
        r := Err(PlainError(EmptyPrompt));
        return;
      }
      AddToChatContext(Message(User, [userPrompt]));
      var response := invoke(chatContext);
      if response.Failure? {
        r := Err(response.error);
      } else if response.NoResponse? || |response.content| == 0 {
        r := Err(PlainError(InvalidResponse));
      } else {
        var text := response.content[0];
        r := ParseAssistantResponse(text, decode);
        if r.Ok? {
          AddToChatContext(Message(Assistant, [text]));
        }
      }
    }
  }

  /** A prompt that gets a parsable reply leaves the context ending with
      that prompt and then the reply text; any other outcome leaves it
      ending with the prompt. */
  lemma GenerateCodeContext(history: seq<Message>, userPrompt: string, invoke: Invoker, decode: Decoder)
    requires userPrompt != ""
    ensures var asked := history + [Message(User, [userPrompt])];
            var reply := invoke(Capped(asked));
            var r := Answer(reply, decode);
            var after := Capped(if r.Ok? then asked + [Message(Assistant, [reply.content[0]])] else asked);
            if r.Ok? then |after| >= 2 && after[|after| - 2] == Message(User, [userPrompt])
                          && after[|after| - 1] == Message(Assistant, [reply.content[0]])
            else |after| >= 1 && after[|after| - 1] == Message(User, [userPrompt])
  {
    var asked := history + [Message(User, [userPrompt])];
    var reply := invoke(Capped(asked));
    if Answer(reply, decode).Ok? {
      var assistant := Message(Assistant, [reply.content[0]]);
      CappedExtend(asked, assistant);
      CappedExtend(history, Message(User, [userPrompt]));
      ExchangeEndsContext(history, Message(User, [userPrompt]), assistant);
    }
  }
}
