/** The retrying design-generation orchestrator of src/design-assistant-bot.ts.
    The converse endpoint is an oracle giving, for each attempt and the message
    list sent, either a reply's text content blocks or a thrown error; JSON
    decoding is an abstract decoder. */
module DesignAssistantBot {
  import opened Js
  import opened Messages

  const MAX_RETRIES: nat := 2
  /** Odd, so that a window of an alternating history ending with a user turn
      starts with a user turn. */
  const MAX_MESSAGES: nat := 5

  datatype WebDesignResponse = WebDesignResponse(html: JsValue, css: JsValue, javascript: JsValue, description: JsValue)

  /** What one converse call yields: the text blocks of the reply's content
      (a block without text reads as "") or the error it threw. */
  datatype ConverseOutcome = Reply(content: seq<string>) | Thrown(error: Error)

  /** The endpoint, given the 0-based attempt number and the messages sent. */
  type Gateway = (nat, seq<Message>) -> ConverseOutcome

  const ValidationException := "ValidationException"
  const ParsePrefix := "Failed to parse design response: "
  const MissingDescription := "Response missing required description field"
  const FormatRequest := "Please provide a valid JSON response following this exact format: { \"html\": \"\", \"css\": \"\", \"javascript\": \"\", \"description\": \"\" }"
  const ParseErrorLead := "[AUTOMATIC ERROR RESPONSE]: Parse error - "

  /** The assistant turn inserted to restore alternation. */
  const Placeholder := Message(Assistant, ["[AUTOMATIC ERROR RESPONSE]: Invalid response detected"])

  /** The user turn sent after a ValidationException. */
  const SequenceErrorTurn := Message(User, ["[AUTOMATIC ERROR RESPONSE]: Message sequence error. " + FormatRequest])

  /** The user turn sent after a reply that did not parse. */
  function ParseErrorTurn(reason: string): Message {
    Message(User, [ParseErrorLead + reason + ". " + FormatRequest])
  }

  /** Reading `messageContent[0].text` of an empty content list. */
  const EmptyContentError := Error("TypeError", "Cannot read properties of undefined (reading 'text')")

  /** Reading `lastMessage.role` of an empty working list. */
  const EmptyHistoryError := Error("TypeError", "Cannot read properties of undefined (reading 'role')")

  /** The working list: a fresh copy of the last MAX_MESSAGES messages. */
  function TruncateMessages(ms: seq<Message>): (r: seq<Message>)
    ensures |r| == Min(|ms|, MAX_MESSAGES)
    ensures r == ms[|ms| - |r|..]
  {
    SliceFrom(ms, -(MAX_MESSAGES as int))
  }

  /** In an alternating history that ends with a user turn, turn `i` is a user
      turn exactly when an even number of turns follow it. */
  lemma {:induction false} AlternatingParity(ms: seq<Message>, i: nat)
    requires Alternating(ms) && |ms| > 0 && Last(ms).role == User
    requires i < |ms|
    ensures ms[i].role == (if (|ms| - 1 - i) % 2 == 0 then User else Assistant)
    decreases |ms| - i
  {
    if i < |ms| - 1 {
      AlternatingParity(ms, i + 1);
    }
  }

  /** Why the window is odd: for an alternating history ending with a user
      turn, the window starts with a user turn whenever the history is at
      least MAX_MESSAGES long, and otherwise exactly when the history itself
      starts with one. */
  lemma WindowStartsWithUser(ms: seq<Message>)
    requires Alternating(ms) && |ms| > 0 && Last(ms).role == User
    ensures TruncateMessages(ms)[0].role == User <==> (|ms| >= MAX_MESSAGES || ms[0].role == User)
  {
    var w := TruncateMessages(ms);
    AlternatingParity(ms, |ms| - |w|);
    assert w[0] == ms[|ms| - |w|];
  }

  /** `parseDesignResponse`: strict on `description`, lenient on the rest. */
  function ParseDesignResponse(text: string, decode: Decoder): (r: Result<WebDesignResponse, Error>)
    ensures r.Ok? <==> decode(text).Ok? && !Nullish(decode(text).value)
                       && Truthy(Prop(decode(text).value, "description"))
    ensures r.Ok? ==> var v := decode(text).value;
              && r.value.description == Prop(v, "description")
              && (Truthy(Prop(v, "html")) ==> r.value.html == Prop(v, "html"))
              && (!Truthy(Prop(v, "html")) ==> r.value.html == Str(""))
              && (Truthy(Prop(v, "css")) ==> r.value.css == Prop(v, "css"))
              && (!Truthy(Prop(v, "css")) ==> r.value.css == Str(""))
              && (Truthy(Prop(v, "javascript")) ==> r.value.javascript == Prop(v, "javascript"))
              && (!Truthy(Prop(v, "javascript")) ==> r.value.javascript == Str(""))
    ensures r.Err? ==> r.error.name == "Error" && ParsePrefix <= r.error.message
    ensures decode(text).Err? ==> r == Err(PlainError(ParsePrefix + decode(text).error))
    ensures decode(text).Ok? && !Nullish(decode(text).value) && !Truthy(Prop(decode(text).value, "description"))
            ==> r == Err(PlainError(ParsePrefix + MissingDescription))
  {
    match decode(text)
    case Err(reason) => Err(PlainError(ParsePrefix + reason))
    case Ok(v) =>
      match Get(v, "description")
      case Err(e) => Err(PlainError(ParsePrefix + e.message))
      case Ok(d) =>
        if !Truthy(d) then Err(PlainError(ParsePrefix + MissingDescription))
        else Ok(WebDesignResponse(Or(Prop(v, "html"), Str("")), Or(Prop(v, "css"), Str("")),
                                  Or(Prop(v, "javascript"), Str("")), d))
  }

  /** The three kinds of corrective user turn a retry sends last. */
  ghost predicate CorrectiveTurn(m: Message) {
    m == SequenceErrorTurn || exists reason :: m == ParseErrorTurn(reason)
  }

  /** How a retry extends the working list: one or two turns are appended,
      the list then ends with an assistant turn followed by a corrective
      user turn. */
  ghost predicate RetryExtension(prev: seq<Message>, next: seq<Message>) {
    && prev <= next
    && |prev| + 1 <= |next| <= |prev| + 2
    && |next| >= 2
    && next[|next| - 2].role == Assistant
    && CorrectiveTurn(Last(next))
  }

  /** The error a failed run raises is the one the last attempt produced, not
      a wrapped or generic one. */
  predicate RaisedByLastAttempt(e: Error, reply: ConverseOutcome, sent: seq<Message>, decode: Decoder) {
    match reply
    case Thrown(thrown) => e == thrown || (e == EmptyHistoryError && |sent| == 0 && thrown.name == ValidationException)
    case Reply(content) =>
      if |content| == 0 then e == EmptyContentError
      else ParseDesignResponse(content[0], decode) == Err(e)
  }

  /** Where one call leaves a run: finished with an outcome and a final
      working list, or going on with a longer working list. */
  datatype Step = Done(outcome: Result<WebDesignResponse, Error>, messages: seq<Message>) | Retry(next: seq<Message>)

  /** The outer `catch` of `executeWithRetry`, entered with `e` after the
      call on `ms`: only a ValidationException with budget left is retried. */
  function Caught(ms: seq<Message>, retryCount: nat, e: Error): (s: Step)
    ensures s.Retry? <==> retryCount > 0 && e.name == ValidationException && |ms| > 0
    ensures s.Done? ==> s.messages == ms
    ensures s.Done? ==> s.outcome == Err(e) || (s.outcome == Err(EmptyHistoryError) && |ms| == 0)
  {
    if retryCount > 0 && e.name == ValidationException then
      if |ms| == 0 then Done(Err(EmptyHistoryError), ms)
      else
        var repaired := if Last(ms).role == User then ms + [Placeholder] else ms;
        Retry(repaired + [SequenceErrorTurn])
    else Done(Err(e), ms)
  }

  /** What the call on `ms` that got `reply` leads to. A retry happens only
      with budget left and extends the list as RetryExtension says, keeping
      an alternating list that ends with a user turn so. A success appends
      the raw reply as an assistant turn; a failure leaves the list as sent
      and carries the error the call produced. */
  function Attempt(ms: seq<Message>, retryCount: nat, reply: ConverseOutcome, decode: Decoder): (s: Step)
    ensures s.Retry? ==> retryCount > 0 && RetryExtension(ms, s.next)
    ensures s.Retry? && Alternating(ms) && |ms| > 0 && Last(ms).role == User ==>
              Alternating(s.next) && Last(s.next).role == User
    ensures s.Done? && s.outcome.Ok? ==>
              && reply.Reply? && |reply.content| > 0
              && s.messages == ms + [Message(Assistant, [reply.content[0]])]
              && ParseDesignResponse(reply.content[0], decode) == s.outcome
    ensures s.Done? && s.outcome.Err? ==>
              s.messages == ms && RaisedByLastAttempt(s.outcome.error, reply, ms, decode)
  {
    match reply
    case Thrown(e) => Caught(ms, retryCount, e)
    case Reply(content) =>
      if |content| == 0 then Caught(ms, retryCount, EmptyContentError)
      else
        var text := content[0];
        match ParseDesignResponse(text, decode)
        case Ok(resp) => Done(Ok(resp), ms + [Message(Assistant, [text])])
        case Err(pe) =>
          if retryCount > 0 then
            var next := ms + [Message(Assistant, [text]), ParseErrorTurn(pe.message)];
            assert Last(next) == ParseErrorTurn(pe.message);
            Retry(next)
          else Caught(ms, retryCount, pe)
  }

  /** One run of `executeWithRetry`: its outcome, the final working list and
      every message list sent to the endpoint, in order. */
  datatype RunResult = RunResult(outcome: Result<WebDesignResponse, Error>, messages: seq<Message>,
                                 requests: seq<seq<Message>>)

  function Sent(earlier: seq<seq<Message>>, r: RunResult): RunResult {
    r.(requests := earlier + r.requests)
  }

  lemma SentTwice(a: seq<seq<Message>>, b: seq<seq<Message>>, r: RunResult)
    ensures Sent(a, Sent(b, r)) == Sent(a + b, r)
  {
    assert a + (b + r.requests) == (a + b) + r.requests;
  }

  /** `executeWithRetry(ms, retryCount)` as the source writes it, by recursion;
      `attempt` numbers the calls made so far. */
  function Run(ms: seq<Message>, retryCount: nat, attempt: nat, gateway: Gateway, decode: Decoder): RunResult
    decreases retryCount
  {
    match Attempt(ms, retryCount, gateway(attempt, ms), decode)
    case Done(outcome, messages) => RunResult(outcome, messages, [ms])
    case Retry(next) => Sent([ms], Run(next, retryCount - 1, attempt + 1, gateway, decode))
  }

  /** The body of `executeWithRetry` after the call: parse the reply, and
      on a failure decide, as the `catch` does, between retrying on a
      longer list and giving up. */
  method HandleReply(working: seq<Message>, budget: nat, response: ConverseOutcome, decode: Decoder)
    returns (step: Step)
    ensures step == Attempt(working, budget, response, decode)
  {
    var caught: Error;
    if response.Reply? && |response.content| > 0 {
      var responseText := response.content[0];
      var parsed := ParseDesignResponse(responseText, decode);
      if parsed.Ok? {
        return Done(parsed, working + [Message(Assistant, [responseText])]);
      }
      if budget > 0 {
        return Retry(working + [Message(Assistant, [responseText]), ParseErrorTurn(parsed.error.message)]);
      }
      caught := parsed.error;
    } else {
      caught := if response.Thrown? then response.error else EmptyContentError;
    }
    if budget > 0 && caught.name == ValidationException {
      if |working| == 0 {
        return Done(Err(EmptyHistoryError), working);
      }
      var repaired := working;
      if working[|working| - 1].role == User {
        repaired := repaired + [Placeholder];
      }
      step := Retry(repaired + [SequenceErrorTurn]);
    } else {
      step := Done(Err(caught), working);
    }
  }

  /** `executeWithRetry`, with its recursion turned into a loop over the
      remaining budget. */
  method ExecuteWithRetry(messages: seq<Message>, retryCount: nat, gateway: Gateway, decode: Decoder)
    returns (outcome: Result<WebDesignResponse, Error>, working: seq<Message>, requests: seq<seq<Message>>)
    ensures RunResult(outcome, working, requests) == Run(messages, retryCount, 0, gateway, decode)
  {
    working, requests := messages, [];
    var budget := retryCount;
    assert [] + Run(messages, retryCount, 0, gateway, decode).requests == Run(messages, retryCount, 0, gateway, decode).requests;
    while true
      invariant Run(messages, retryCount, 0, gateway, decode)
                == Sent(requests, Run(working, budget, |requests|, gateway, decode))
      decreases budget
    {
      ghost var sent, attempt, before := working, |requests|, requests;
      var response := gateway(|requests|, working);
      var step := HandleReply(working, budget, response, decode);
      requests := requests + [working];
      match step {
        case Done(o, w) =>
          assert Run(sent, budget, attempt, gateway, decode) == RunResult(o, w, [sent]);
          SentTwice(before, [sent], RunResult(o, w, []));
          assert RunResult(o, w, [sent]) == Sent([sent], RunResult(o, w, []));
          outcome, working := o, w;
          return;
        case Retry(next) =>
          assert Run(sent, budget, attempt, gateway, decode)
              == Sent([sent], Run(next, budget - 1, attempt + 1, gateway, decode));
          SentTwice(before, [sent], Run(next, budget - 1, attempt + 1, gateway, decode));
          working, budget := next, budget - 1;
      }
    }
  }

  /** The attempt bound and the chain of requests of one run: it makes
      between 1 and retryCount + 1 calls, the first on `ms`, and each later
      request extends the previous one as RetryExtension says. */
  lemma {:induction false} RunRequests(ms: seq<Message>, retryCount: nat, attempt: nat, gateway: Gateway, decode: Decoder)
    ensures var r := Run(ms, retryCount, attempt, gateway, decode);
      && 1 <= |r.requests| <= retryCount + 1
      && r.requests[0] == ms
      && (forall i :: 0 <= i < |r.requests| - 1 ==> RetryExtension(r.requests[i], r.requests[i + 1]))
    decreases retryCount
  {
    var r := Run(ms, retryCount, attempt, gateway, decode);
    var s := Attempt(ms, retryCount, gateway(attempt, ms), decode);
    if s.Retry? {
      var rest := Run(s.next, retryCount - 1, attempt + 1, gateway, decode);
      RunRequests(s.next, retryCount - 1, attempt + 1, gateway, decode);
      assert r.requests == [ms] + rest.requests;
      forall i | 0 <= i < |r.requests| - 1
        ensures RetryExtension(r.requests[i], r.requests[i + 1])
      {
        if i > 0 {
          assert r.requests[i] == rest.requests[i - 1];
        }
      }
    }
  }

  /** The final state of a successful run: the working list is the last
      request plus the raw reply as an assistant turn, and the outcome is
      that reply parsed. */
  lemma {:induction false} RunSucceeds(ms: seq<Message>, retryCount: nat, attempt: nat, gateway: Gateway, decode: Decoder)
    ensures var r := Run(ms, retryCount, attempt, gateway, decode);
      r.outcome.Ok? ==>
        && |r.requests| >= 1
        && |r.messages| == |Last(r.requests)| + 1
        && r.messages[..|r.messages| - 1] == Last(r.requests)
        && Last(r.messages).role == Assistant && |Last(r.messages).content| == 1
        && ParseDesignResponse(Last(r.messages).content[0], decode) == r.outcome
    decreases retryCount
  {
    var r := Run(ms, retryCount, attempt, gateway, decode);
    var s := Attempt(ms, retryCount, gateway(attempt, ms), decode);
    if s.Retry? {
      var rest := Run(s.next, retryCount - 1, attempt + 1, gateway, decode);
      RunSucceeds(s.next, retryCount - 1, attempt + 1, gateway, decode);
      assert r == Sent([ms], rest);
      if rest.outcome.Ok? {
        assert Last(r.requests) == Last(rest.requests);
      }
    } else if s.outcome.Ok? {
      assert r == RunResult(s.outcome, s.messages, [ms]);
      assert s.messages[..|ms|] == ms;
    }
  }

  /** The final state of a failed run: the working list is the last request
      and the error is the one raised by the last attempt. */
  lemma {:induction false} RunFails(ms: seq<Message>, retryCount: nat, attempt: nat, gateway: Gateway, decode: Decoder)
    ensures var r := Run(ms, retryCount, attempt, gateway, decode);
      r.outcome.Err? ==>
        && |r.requests| >= 1
        && r.messages == Last(r.requests)
        && RaisedByLastAttempt(r.outcome.error, gateway(attempt + |r.requests| - 1, Last(r.requests)),
                               Last(r.requests), decode)
    decreases retryCount
  {
    var r := Run(ms, retryCount, attempt, gateway, decode);
    var s := Attempt(ms, retryCount, gateway(attempt, ms), decode);
    if s.Retry? {
      var rest := Run(s.next, retryCount - 1, attempt + 1, gateway, decode);
      RunFails(s.next, retryCount - 1, attempt + 1, gateway, decode);
      assert r == Sent([ms], rest);
      if rest.outcome.Err? {
        assert Last(r.requests) == Last(rest.requests);
        assert attempt + |r.requests| - 1 == attempt + 1 + |rest.requests| - 1;
      }
    } else {
      assert r == RunResult(s.outcome, s.messages, [ms]);
    }
  }

  /** A history that alternates and ends with a user turn stays so through
      every retry: every request sent alternates and ends with a user turn,
      and the final working list alternates. */
  lemma {:induction false} RunKeepsAlternation(ms: seq<Message>, retryCount: nat, attempt: nat, gateway: Gateway, decode: Decoder)
    requires Alternating(ms) && |ms| > 0 && Last(ms).role == User
    ensures var r := Run(ms, retryCount, attempt, gateway, decode);
      && (forall i :: 0 <= i < |r.requests| ==>
            Alternating(r.requests[i]) && |r.requests[i]| > 0 && Last(r.requests[i]).role == User)
      && Alternating(r.messages)
    decreases retryCount
  {
    var r := Run(ms, retryCount, attempt, gateway, decode);
    var s := Attempt(ms, retryCount, gateway(attempt, ms), decode);
    if s.Retry? {
      RunKeepsAlternation(s.next, retryCount - 1, attempt + 1, gateway, decode);
      var rest := Run(s.next, retryCount - 1, attempt + 1, gateway, decode);
      assert r.requests == [ms] + rest.requests;
      forall i | 0 <= i < |r.requests|
        ensures Alternating(r.requests[i]) && |r.requests[i]| > 0 && Last(r.requests[i]).role == User
      {
        if i > 0 {
          assert r.requests[i] == rest.requests[i - 1];
        }
      }
    }
  }

  /** Whatever happens, the final working list extends the list the run
      started from: turns are only ever appended. */
  lemma {:induction false} RunExtends(ms: seq<Message>, retryCount: nat, attempt: nat, gateway: Gateway, decode: Decoder)
    ensures ms <= Run(ms, retryCount, attempt, gateway, decode).messages
    decreases retryCount
  {
    var s := Attempt(ms, retryCount, gateway(attempt, ms), decode);
    if s.Retry? {
      RunExtends(s.next, retryCount - 1, attempt + 1, gateway, decode);
    }
  }

  /** Errors other than ValidationException, and every error once the budget
      is spent, are rethrown unchanged after a single call. */
  lemma ThrownErrorRethrown(ms: seq<Message>, retryCount: nat, attempt: nat, gateway: Gateway, decode: Decoder)
    requires gateway(attempt, ms).Thrown?
    requires retryCount == 0 || gateway(attempt, ms).error.name != ValidationException
    ensures Run(ms, retryCount, attempt, gateway, decode) == RunResult(Err(gateway(attempt, ms).error), ms, [ms])
  {
  }

  /** A reply with no content blocks crashes on `messageContent[0].text`; the
      TypeError is not a ValidationException, so it is never retried. */
  lemma EmptyReplyRethrown(ms: seq<Message>, retryCount: nat, attempt: nat, gateway: Gateway, decode: Decoder)
    requires gateway(attempt, ms) == Reply([])
    ensures Run(ms, retryCount, attempt, gateway, decode) == RunResult(Err(EmptyContentError), ms, [ms])
  {
  }

  /** A reply that does not parse, with budget left: the raw text goes in as an
      assistant turn, then the parse-error user turn, and the next call is made
      on that list with one retry fewer. */
  lemma ParseFailureRetried(ms: seq<Message>, retryCount: nat, attempt: nat, gateway: Gateway, decode: Decoder)
    requires retryCount > 0
    requires gateway(attempt, ms).Reply? && |gateway(attempt, ms).content| > 0
    requires ParseDesignResponse(gateway(attempt, ms).content[0], decode).Err?
    ensures var text := gateway(attempt, ms).content[0];
            var next := ms + [Message(Assistant, [text]),
                              ParseErrorTurn(ParseDesignResponse(text, decode).error.message)];
            Run(ms, retryCount, attempt, gateway, decode)
            == Sent([ms], Run(next, retryCount - 1, attempt + 1, gateway, decode))
  {
  }

  /** A ValidationException with budget left on a non-empty list: the
      placeholder assistant turn is appended only when the list ends with a
      user turn, then the "Message sequence error" user turn always is. */
  lemma ValidationExceptionRetried(ms: seq<Message>, retryCount: nat, attempt: nat, gateway: Gateway, decode: Decoder)
    requires retryCount > 0 && |ms| > 0
    requires gateway(attempt, ms).Thrown? && gateway(attempt, ms).error.name == ValidationException
    ensures var next := (if Last(ms).role == User then ms + [Placeholder] else ms) + [SequenceErrorTurn];
            Run(ms, retryCount, attempt, gateway, decode)
            == Sent([ms], Run(next, retryCount - 1, attempt + 1, gateway, decode))
  {
  }

  /** `generateWebDesign`: at most MAX_RETRIES + 1 calls, the first on the
      window of the caller's history; the working list only grows from that
      window, so the caller's own list is never touched. */
  method GenerateWebDesign(messages: seq<Message>, gateway: Gateway, decode: Decoder)
    returns (outcome: Result<WebDesignResponse, Error>, working: seq<Message>, requests: seq<seq<Message>>)
    ensures RunResult(outcome, working, requests) == Run(TruncateMessages(messages), MAX_RETRIES, 0, gateway, decode)
    ensures 1 <= |requests| <= MAX_RETRIES + 1
    ensures requests[0] == TruncateMessages(messages)
    ensures TruncateMessages(messages) <= working
    ensures outcome.Ok? ==> |working| > 0 && Last(working).role == Assistant && |Last(working).content| == 1
                            && ParseDesignResponse(Last(working).content[0], decode) == outcome
  {
    var truncatedMessages := TruncateMessages(messages);
    outcome, working, requests := ExecuteWithRetry(truncatedMessages, MAX_RETRIES, gateway, decode);
    RunRequests(truncatedMessages, MAX_RETRIES, 0, gateway, decode);
    RunSucceeds(truncatedMessages, MAX_RETRIES, 0, gateway, decode);
    RunExtends(truncatedMessages, MAX_RETRIES, 0, gateway, decode);
  }
}
