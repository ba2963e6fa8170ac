/** The chat panel of src/components/Chat/chat.ts: the outer retry loop that
    feeds the conversation log to the design assistant, the data-schema
    summary, the rule for which content blocks the panel shows, and the
    preview document template. */
module ChatPanel {
  import opened Js
  import opened Messages
  import opened ChatLog
  import opened AppStore
  import Bot = DesignAssistantBot
  import opened Preview
  import opened Styles

  /** How the chat renders values as text: `json` is `JSON.stringify`,
      `numeral` the text JavaScript gives a number. */
  datatype Formats = Formats(json: JsValue -> string, numeral: real -> string)

  /** The converse endpoint as the generator call of each chat attempt meets
      it. */
  type Gateways = nat -> Bot.Gateway

  /** What the generator call of a given attempt yields for a window. */
  type Designer = (nat, seq<Message>) -> Result<Bot.WebDesignResponse, Error>

  /** `generateCodeWithRetry`'s default number of retries. */
  const DEFAULT_RETRIES: int := 1

  /** The window `getTruncatedHistory` takes by default. */
  const HISTORY_WINDOW: int := 3

  /** The name the panel's styles are registered under. */
  const ChatStyles := "chat"

  /** A design counts as generated when any of its three code fields is
      non-empty. */
  predicate HasCode(r: Bot.WebDesignResponse) {
    Truthy(r.html) || Truthy(r.css) || Truthy(r.javascript)
  }

  /** `JSON.stringify({ html, css, javascript })` */
  function CodeJson(r: Bot.WebDesignResponse, fmt: Formats): string {
    fmt.json(Obj([("html", r.html), ("css", r.css), ("javascript", r.javascript)]))
  }

  /** The assistant turn a design with code adds to the log: its code as
      JSON text and the text of its description. */
  function DesignBlocks(r: Bot.WebDesignResponse, fmt: Formats): (blocks: seq<string>)
    ensures |blocks| == 2 && blocks[0] == CodeJson(r, fmt)
    ensures r.description.Str? ==> blocks[1] == r.description.s
  {
    [CodeJson(r, fmt), ToText(r.description, fmt.numeral)]
  }

  function FailureNotice(attempt: nat, e: Error): string {
    "Attempt " + NatToString(attempt + 1) + " failed: " + e.message + ". Retrying..."
  }

  function ErrorNotice(e: Error): string {
    "Error generating design: " + e.message
  }

  /** The generator behind the chat: for an attempt and a window, the
      outcome of the design assistant's retrying run on that window with the
      endpoint of that attempt, which is what `GenerateWebDesign` returns. */
  function DesignerOf(gateways: Gateways, decode: Decoder): (design: Designer)
    ensures forall a, w :: design(a, w) == Bot.Run(Bot.TruncateMessages(w), Bot.MAX_RETRIES, 0, gateways(a), decode).outcome
  {
    (a: nat, w: seq<Message>) => Bot.Run(Bot.TruncateMessages(w), Bot.MAX_RETRIES, 0, gateways(a), decode).outcome
  }

  /** How the attempt loop ends. */
  datatype LoopEnd = Generated(reply: Bot.WebDesignResponse) | NothingGenerated | Failed(error: Error)

  /** The log after the loop, how it ended and how many generator calls it
      made. */
  datatype LoopResult = LoopResult(messages: seq<Message>, end: LoopEnd, calls: nat)

  function Plus(k: nat, r: LoopResult): LoopResult {
    r.(calls := r.calls + k)
  }

  /** The attempt loop from `attempt` on, over the log `ms`. */
  function Attempts(ms: seq<Message>, attempt: nat, retries: int, design: Designer, fmt: Formats): LoopResult
    decreases retries - attempt + 1
  {
    if attempt > retries then LoopResult(ms, NothingGenerated, 0)
    else
      match design(attempt, TruncatedHistory(ms, HISTORY_WINDOW))
      case Ok(reply) =>
        if HasCode(reply) then
          LoopResult(Merge(ms, Assistant, DesignBlocks(reply, fmt)), Generated(reply), 1)
        else
          Plus(1, Attempts(ms, attempt + 1, retries, design, fmt))
      case Err(e) =>
        if attempt == retries then LoopResult(ms, Failed(e), 1)
        else
          Plus(1, Attempts(Merge(ms, Assistant, [FailureNotice(attempt, e), "Error"]), attempt + 1, retries, design, fmt))
  }

  /** The error the code as written meets when it hands a design on: the
      store has no `setCodeContent`. */
  const MissingSetCodeContent := Error("TypeError", "dataStore.setCodeContent is not a function")

  /** `Attempts` as the code is written: a design with code is logged, then
      the call to the missing `setCodeContent` throws, and the inner
      `catch` takes that like any failed attempt. */
  function AttemptsAsWritten(ms: seq<Message>, attempt: nat, retries: int, design: Designer, fmt: Formats): LoopResult
    decreases retries - attempt + 1
  {
    if attempt > retries then LoopResult(ms, NothingGenerated, 0)
    else
      match design(attempt, TruncatedHistory(ms, HISTORY_WINDOW))
      case Ok(reply) =>
        if HasCode(reply) then
          var logged := Merge(ms, Assistant, DesignBlocks(reply, fmt));
          if attempt == retries then LoopResult(logged, Failed(MissingSetCodeContent), 1)
          else
            Plus(1, AttemptsAsWritten(Merge(logged, Assistant, [FailureNotice(attempt, MissingSetCodeContent), "Error"]),
                                      attempt + 1, retries, design, fmt))
        else
          Plus(1, AttemptsAsWritten(ms, attempt + 1, retries, design, fmt))
      case Err(e) =>
        if attempt == retries then LoopResult(ms, Failed(e), 1)
        else
          Plus(1, AttemptsAsWritten(Merge(ms, Assistant, [FailureNotice(attempt, e), "Error"]), attempt + 1, retries, design, fmt))
  }

  /** When every attempt yields a design with code, the intended loop stops
      at the first with that design, while the loop as written spends every
      attempt and ends with the `setCodeContent` error, so that nothing is
      ever handed on and the click reports a failure. */
  lemma {:induction false} CodeDesignFailsAsWritten(ms: seq<Message>, attempt: nat, retries: int,
                                                    reply: Bot.WebDesignResponse, design: Designer, fmt: Formats)
    requires attempt <= retries && HasCode(reply)
    requires forall a, w :: design(a, w) == Ok(reply)
    ensures var r := Attempts(ms, attempt, retries, design, fmt);
            r.end == Generated(reply) && r.calls == 1
    ensures var r := AttemptsAsWritten(ms, attempt, retries, design, fmt);
            r.end == Failed(MissingSetCodeContent) && r.calls == retries + 1 - attempt
    decreases retries - attempt
  {
    assert design(attempt, TruncatedHistory(ms, HISTORY_WINDOW)) == Ok(reply);
    if attempt < retries {
      var logged := Merge(ms, Assistant, DesignBlocks(reply, fmt));
      CodeDesignFailsAsWritten(Merge(logged, Assistant, [FailureNotice(attempt, MissingSetCodeContent), "Error"]),
                               attempt + 1, retries, reply, design, fmt);
    }
  }

  /** The whole exchange for a non-empty prompt: the data summary (when data
      is loaded) and the prompt go into the log as user blocks, then the
      attempt loop runs. */
  function Conversation(ms: seq<Message>, prompt: string, data: Option<seq<Record>>, retries: int,
                        design: Designer, fmt: Formats): LoopResult
  {
    var primed := if data.Some? then Merge(ms, User, [DataStructureDescription(data)]) else ms;
    Attempts(Merge(primed, User, [prompt]), 0, retries, design, fmt)
  }

  /** The log once the call is over: a loop that failed leaves a final error
      turn. */
  function Closing(r: LoopResult): seq<Message> {
    if r.end.Failed? then Merge(r.messages, Assistant, [ErrorNotice(r.end.error), "Error"]) else r.messages
  }

  /** The data handed to the preview: its JSON text, or an empty array
      when no data is loaded. */
  function DataJson(data: Option<seq<Record>>, fmt: Formats): string {
    if data.Some? then fmt.json(Arr(Objects(data.value))) else "[]"
  }

  /** The records as object values. */
  function Objects(rows: seq<Record>): seq<JsValue> {
    if |rows| == 0 then [] else [Obj(rows[0])] + Objects(rows[1..])
  }

  /** What a successful generation hands to the store and the code editor:
      the three code fields, the full page and the loaded records (an empty
      list when there are none). */
  datatype EditorUpdate = EditorUpdate(html: JsValue, css: JsValue, javascript: JsValue, combinedCode: string,
                                       data: seq<Record>)

  function UpdateFor(page: Template, reply: Bot.WebDesignResponse, data: Option<seq<Record>>, fmt: Formats): EditorUpdate {
    EditorUpdate(reply.html, reply.css, reply.javascript,
                 FullHtmlCode(page, ToText(reply.html, fmt.numeral), ToText(reply.css, fmt.numeral),
                              ToText(reply.javascript, fmt.numeral), DataJson(data, fmt)),
                 if data.Some? then data.value else [])
  }

  class Chat {
    /** The prompt box's text. */
    var promptInput: string
    /** Whether the prompt box is disabled. */
    var promptDisabled: bool
    const log: ChatContext
    const store: Store
    /** The preview page template. */
    const page: Template
    /** Every update handed to the store and the editor, oldest first. */
    var published: seq<EditorUpdate>

    /** The panel registers its styles under "chat" and its view update
        (`updateChatUI`, known to the log as `view`) as a change callback
        of the log. */
    constructor (log: ChatContext, store: Store, styles: CSSManager, chatStyles: string, view: CallbackId)
      requires styles.Valid()
      modifies log`callbacks, styles`styleSheets, styles`head
      ensures this.log == log && this.store == store && page == Page
      ensures promptInput == "" && !promptDisabled && published == []
      ensures styles.Valid() && ChatStyles in styles.styleSheets
      ensures log.callbacks == old(log.callbacks) + [view]
    {
      this.log := log;
      this.store := store;
      page := Page;
      promptInput := "";
      promptDisabled := false;
      published := [];
      new;
      styles.AddStyles(ChatStyles, chatStyles);
      log.OnMessagesChange(view);
    }

    method SetLoading(loading: bool)
      modifies store`isGenerating, this`promptDisabled
      ensures store.isGenerating == loading && promptDisabled == loading
    {
      store.SetGenerating(loading);
      promptDisabled := loading;
    }

    /** Sends the prompt, retrying failed generations. A blank prompt or a
        generation already under way leaves everything as it was. Otherwise
        the log ends as the exchange and its closing say, a failure is
        recorded as the store's error, a success clears the prompt and is
        handed on, and the generation flag is down again at the end. */
    method GenerateCodeWithRetry(retries: int, design: Designer, fmt: Formats)
      modifies this`promptInput, this`promptDisabled, this`published
      modifies log`messages, log`deliveries, store`isGenerating, store`error
      ensures var prompt := Trim(old(promptInput));
              (prompt == "" || old(store.isGenerating)) ==>
                && promptInput == old(promptInput) && promptDisabled == old(promptDisabled)
                && published == old(published) && log.messages == old(log.messages)
                && store.isGenerating == old(store.isGenerating) && store.error == old(store.error)
      ensures var prompt := Trim(old(promptInput));
              var r := Conversation(old(log.messages), prompt, store.csvData, retries, design, fmt);
              (prompt != "" && !old(store.isGenerating)) ==>
                && log.messages == Closing(r)
                && store.error == (if r.end.Failed? then Some(r.end.error.message) else None)
                && promptInput == (if r.end.Generated? then "" else old(promptInput))
                && published == old(published) + (if r.end.Generated? then [UpdateFor(page, r.end.reply, store.csvData, fmt)] else [])
                && !store.isGenerating && !promptDisabled
    {
      var prompt := Trim(promptInput);
      if prompt == "" || store.isGenerating {
        return;
      }
      Generate(prompt, retries, design, fmt);
    }

    /** A generation past the guard: the flags go up, the error is cleared,
        the exchange runs, a failure is recorded and closes the log, and the
        flags come down. */
    method Generate(prompt: string, retries: int, design: Designer, fmt: Formats)
      modifies this`promptInput, this`promptDisabled, this`published
      modifies log`messages, log`deliveries, store`isGenerating, store`error
      ensures var r := Conversation(old(log.messages), prompt, store.csvData, retries, design, fmt);
              && log.messages == Closing(r)
              && store.error == (if r.end.Failed? then Some(r.end.error.message) else None)
              && promptInput == (if r.end.Generated? then "" else old(promptInput))
              && published == old(published) + (if r.end.Generated? then [UpdateFor(page, r.end.reply, store.csvData, fmt)] else [])
              && !store.isGenerating && !promptDisabled
    {
      ghost var data := store.csvData;
      ghost var r := Conversation(log.messages, prompt, data, retries, design, fmt);
      SetLoading(true);
      store.SetError(None);
      assert log.messages == old(log.messages) && promptInput == old(promptInput) && published == old(published);
      assert store.csvData == data;
      var failure := Converse(prompt, retries, design, fmt);
      assert log.messages == r.messages && failure == (if r.end.Failed? then Some(r.end.error) else None);
      ghost var shown := published;
      if failure.Some? {
        store.SetError(Some(failure.value.message));
        log.AddAssistantMessage(ErrorNotice(failure.value), "Error");
      }
      assert log.messages == Closing(r) && store.error == (if r.end.Failed? then Some(r.end.error.message) else None);
      SetLoading(false);
      assert published == shown && store.csvData == data;
    }

    /** The guarded part of a generation: the data summary (when data is
        loaded) and the prompt go into the log as user blocks, then the
        attempt loop runs; its failure, if any, is handed back. */
    method Converse(prompt: string, retries: int, design: Designer, fmt: Formats) returns (failure: Option<Error>)
      modifies this`promptInput, this`published, log`messages, log`deliveries
      ensures var r := Conversation(old(log.messages), prompt, store.csvData, retries, design, fmt);
              && log.messages == r.messages
              && failure == (if r.end.Failed? then Some(r.end.error) else None)
              && promptInput == (if r.end.Generated? then "" else old(promptInput))
              && published == old(published) + (if r.end.Generated? then [UpdateFor(page, r.end.reply, store.csvData, fmt)] else [])
    {
      var data := store.GetData();
      AddPrompt(prompt, data);
      failure := AttemptLoop(retries, data, design, fmt);
    }

    /** The user blocks of an exchange: the data summary when data is
        loaded, then the prompt. */
    method AddPrompt(prompt: string, data: Option<seq<Record>>)
      modifies log`messages, log`deliveries
      ensures var primed := if data.Some? then Merge(old(log.messages), User, [DataStructureDescription(data)]) else old(log.messages);
              log.messages == Merge(primed, User, [prompt])
    {
      if data.Some? {
        log.AddUserMessage(DataStructureDescription(data));
      }
      log.AddUserMessage(prompt);
    }

    /** The `for` loop over attempts: asks for a design on the last three
        turns, stops at the first one with code, notes each failure before
        the last, and hands back the last attempt's failure. */
    method AttemptLoop(retries: int, data: Option<seq<Record>>, design: Designer, fmt: Formats)
        returns (failure: Option<Error>)
      modifies this`promptInput, this`published, log`messages, log`deliveries
      ensures var r := Attempts(old(log.messages), 0, retries, design, fmt);
              && log.messages == r.messages
              && failure == (if r.end.Failed? then Some(r.end.error) else None)
              && promptInput == (if r.end.Generated? then "" else old(promptInput))
              && published == old(published) + (if r.end.Generated? then [UpdateFor(page, r.end.reply, data, fmt)] else [])
    {
      ghost var outcome := Attempts(log.messages, 0, retries, design, fmt);
      var attempt: nat := 0;
      failure := None;
      while attempt <= retries
        invariant attempt == 0 || attempt <= retries + 1
        invariant outcome == Plus(attempt, Attempts(log.messages, attempt, retries, design, fmt))
        invariant failure == None && promptInput == old(promptInput) && published == old(published)
        decreases retries - attempt + 1
      {
        var stop;
        stop, failure := TryAttempt(attempt, retries, data, design, fmt);
        if stop {
          return;
        }
        attempt := attempt + 1;
      }
    }

    /** A design with code: its code and description go into the log as an
        assistant turn, the code and the full page go to the store and the
        editor, and the prompt box is cleared. */
    method ShowDesign(reply: Bot.WebDesignResponse, data: Option<seq<Record>>, fmt: Formats)
      modifies this`promptInput, this`published, log`messages, log`deliveries
      ensures log.messages == Merge(old(log.messages), Assistant, DesignBlocks(reply, fmt))
      ensures published == old(published) + [UpdateFor(page, reply, data, fmt)]
      ensures promptInput == ""
    {
      log.AddAssistantMessage(CodeJson(reply, fmt), ToText(reply.description, fmt.numeral));
      var fullCode := FullHtmlCode(page, ToText(reply.html, fmt.numeral), ToText(reply.css, fmt.numeral),
                                   ToText(reply.javascript, fmt.numeral), DataJson(data, fmt));
      var records := if data.Some? then data.value else [];
      published := published + [EditorUpdate(reply.html, reply.css, reply.javascript, fullCode, records)];
      promptInput := "";
    }

    /** `ShowDesign` as the code is written: once the design is logged, the
        call to the store's `setCodeContent`, which no store defines,
        throws; nothing is handed on and the prompt box keeps its text. */
    method ShowDesignAsWritten(reply: Bot.WebDesignResponse, fmt: Formats) returns (thrown: Error)
      modifies log`messages, log`deliveries
      ensures log.messages == Merge(old(log.messages), Assistant, DesignBlocks(reply, fmt))
      ensures thrown == MissingSetCodeContent
    {
      log.AddAssistantMessage(CodeJson(reply, fmt), ToText(reply.description, fmt.numeral));
      thrown := MissingSetCodeContent;
    }

    /** One pass of the loop body. It stops the loop with a design that
        has code (logged, handed on, prompt cleared) or with the last
        attempt's failure; otherwise it logs the failure notice, if any,
        and the loop goes on as `Attempts` does from the next attempt. */
    method TryAttempt(attempt: nat, retries: int, data: Option<seq<Record>>, design: Designer, fmt: Formats)
        returns (stop: bool, failure: Option<Error>)
      requires attempt <= retries
      modifies this`promptInput, this`published, log`messages, log`deliveries
      ensures var r := Attempts(old(log.messages), attempt, retries, design, fmt);
              stop ==> && r.calls == 1 && log.messages == r.messages
                       && failure == (if r.end.Failed? then Some(r.end.error) else None)
                       && promptInput == (if r.end.Generated? then "" else old(promptInput))
                       && published == old(published) + (if r.end.Generated? then [UpdateFor(page, r.end.reply, data, fmt)] else [])
      ensures !stop ==> && failure == None && promptInput == old(promptInput) && published == old(published)
                        && Attempts(old(log.messages), attempt, retries, design, fmt)
                           == Plus(1, Attempts(log.messages, attempt + 1, retries, design, fmt))
    {
      ghost var before := log.messages;
      var window := log.GetTruncatedHistory(HISTORY_WINDOW);
      var response := design(attempt, window);
      stop, failure := false, None;
      if response.Ok? {
        var reply := response.value;
        if HasCode(reply) {
          ShowDesign(reply, data, fmt);
          assert Attempts(before, attempt, retries, design, fmt) == LoopResult(log.messages, Generated(reply), 1);
          stop := true;
        }
      } else if attempt == retries {
        stop, failure := true, Some(response.error);
        assert Attempts(before, attempt, retries, design, fmt) == LoopResult(log.messages, Failed(response.error), 1);
      } else {
        log.AddAssistantMessage(FailureNotice(attempt, response.error), "Error");
        assert promptInput == old(promptInput) && published == old(published);
        FailureNoticed(before, attempt, retries, design, fmt);
      }
    }
  }

  /** The chat's window of three always fits inside the assistant's window
      of five, so the assistant sees exactly what the chat sends. */
  lemma WindowWithinBotWindow(ms: seq<Message>)
    ensures Bot.TruncateMessages(TruncatedHistory(ms, HISTORY_WINDOW)) == TruncatedHistory(ms, HISTORY_WINDOW)
  {
  }

  /** From attempt `attempt` on, at most one generator call per remaining
      attempt is made, and at least one while any attempt remains. */
  lemma {:induction false} AttemptsCalls(ms: seq<Message>, attempt: nat, retries: int, design: Designer, fmt: Formats)
    requires attempt <= retries + 1
    ensures var r := Attempts(ms, attempt, retries, design, fmt);
            r.calls <= retries + 1 - attempt
            && (attempt <= retries ==> r.calls >= 1)
            && (r.end.Failed? ==> r.calls == retries + 1 - attempt)
    decreases retries - attempt + 1
  {
    if attempt <= retries {
      var window := TruncatedHistory(ms, HISTORY_WINDOW);
      match design(attempt, window) {
        case Ok(reply) =>
          if !HasCode(reply) {
            AttemptsCalls(ms, attempt + 1, retries, design, fmt);
          }
        case Err(e) =>
          if attempt < retries {
            AttemptsCalls(Merge(ms, Assistant, [FailureNotice(attempt, e), "Error"]), attempt + 1, retries, design, fmt);
          }
      }
    }
  }

  /** One click makes at most `retries + 1` generator calls, and none when
      `retries` is negative. */
  lemma ConversationCalls(ms: seq<Message>, prompt: string, data: Option<seq<Record>>, retries: int,
                          design: Designer, fmt: Formats)
    ensures Conversation(ms, prompt, data, retries, design, fmt).calls <= if retries >= 0 then retries + 1 else 0
  {
    var primed := if data.Some? then Merge(ms, User, [DataStructureDescription(data)]) else ms;
    if retries >= -1 {
      AttemptsCalls(Merge(primed, User, [prompt]), 0, retries, design, fmt);
    }
  }

  /** A click, which runs with the default single retry, makes one or two
      generator calls. */
  lemma ClickCalls(ms: seq<Message>, prompt: string, data: Option<seq<Record>>, design: Designer, fmt: Formats)
    ensures var calls := Conversation(ms, prompt, data, DEFAULT_RETRIES, design, fmt).calls;
            1 <= calls <= 2
  {
    var primed := if data.Some? then Merge(ms, User, [DataStructureDescription(data)]) else ms;
    AttemptsCalls(Merge(primed, User, [prompt]), 0, DEFAULT_RETRIES, design, fmt);
  }

  /** The loop only ever adds blocks at the end of the log. */
  lemma {:induction false} AttemptsExtendLog(ms: seq<Message>, attempt: nat, retries: int, design: Designer, fmt: Formats)
    ensures Blocks(ms) <= Blocks(Attempts(ms, attempt, retries, design, fmt).messages)
    decreases retries - attempt + 1
  {
    var r := Attempts(ms, attempt, retries, design, fmt);
    if attempt <= retries {
      match design(attempt, TruncatedHistory(ms, HISTORY_WINDOW)) {
        case Ok(reply) =>
          if HasCode(reply) {
            var blocks := DesignBlocks(reply, fmt);
            assert r.messages == Merge(ms, Assistant, blocks);
            MergeBlocks(ms, Assistant, blocks);
          } else {
            assert r.messages == Attempts(ms, attempt + 1, retries, design, fmt).messages;
            AttemptsExtendLog(ms, attempt + 1, retries, design, fmt);
          }
        case Err(e) =>
          if attempt < retries {
            var next := Merge(ms, Assistant, [FailureNotice(attempt, e), "Error"]);
            assert r.messages == Attempts(next, attempt + 1, retries, design, fmt).messages;
            MergeBlocks(ms, Assistant, [FailureNotice(attempt, e), "Error"]);
            AttemptsExtendLog(next, attempt + 1, retries, design, fmt);
          }
      }
    }
  }

  /** The loop keeps user and assistant turns alternating. */
  lemma {:induction false} AttemptsKeepAlternation(ms: seq<Message>, attempt: nat, retries: int, design: Designer, fmt: Formats)
    requires Alternating(ms)
    ensures Alternating(Attempts(ms, attempt, retries, design, fmt).messages)
    decreases retries - attempt + 1
  {
    if attempt <= retries {
      match design(attempt, TruncatedHistory(ms, HISTORY_WINDOW)) {
        case Ok(reply) =>
          if !HasCode(reply) {
            AttemptsKeepAlternation(ms, attempt + 1, retries, design, fmt);
          }
        case Err(e) =>
          if attempt < retries {
            AttemptsKeepAlternation(Merge(ms, Assistant, [FailureNotice(attempt, e), "Error"]), attempt + 1, retries, design, fmt);
          }
      }
    }
  }

  /** The loop as written makes at most one generator call per remaining
      attempt, and at least one while any attempt remains; a failure spends
      every attempt. */
  lemma {:induction false} AsWrittenCalls(ms: seq<Message>, attempt: nat, retries: int, design: Designer, fmt: Formats)
    requires attempt <= retries + 1
    ensures var r := AttemptsAsWritten(ms, attempt, retries, design, fmt);
            r.calls <= retries + 1 - attempt
            && (attempt <= retries ==> r.calls >= 1)
            && (r.end.Failed? ==> r.calls == retries + 1 - attempt)
    decreases retries - attempt + 1
  {
    if attempt <= retries {
      var r := AttemptsAsWritten(ms, attempt, retries, design, fmt);
      match design(attempt, TruncatedHistory(ms, HISTORY_WINDOW)) {
        case Ok(reply) =>
          if HasCode(reply) {
            if attempt < retries {
              var logged := Merge(ms, Assistant, DesignBlocks(reply, fmt));
              var next := Merge(logged, Assistant, [FailureNotice(attempt, MissingSetCodeContent), "Error"]);
              assert r == Plus(1, AttemptsAsWritten(next, attempt + 1, retries, design, fmt));
              AsWrittenCalls(next, attempt + 1, retries, design, fmt);
            }
          } else {
            assert r == Plus(1, AttemptsAsWritten(ms, attempt + 1, retries, design, fmt));
            AsWrittenCalls(ms, attempt + 1, retries, design, fmt);
          }
        case Err(e) =>
          if attempt < retries {
            var next := Merge(ms, Assistant, [FailureNotice(attempt, e), "Error"]);
            assert r == Plus(1, AttemptsAsWritten(next, attempt + 1, retries, design, fmt));
            AsWrittenCalls(next, attempt + 1, retries, design, fmt);
          }
      }
    }
  }

  /** The loop as written only adds blocks at the end of the log. */
  lemma {:induction false} AsWrittenExtendsLog(ms: seq<Message>, attempt: nat, retries: int, design: Designer, fmt: Formats)
    ensures Blocks(ms) <= Blocks(AttemptsAsWritten(ms, attempt, retries, design, fmt).messages)
    decreases retries - attempt + 1
  {
    if attempt <= retries {
      var r := AttemptsAsWritten(ms, attempt, retries, design, fmt);
      match design(attempt, TruncatedHistory(ms, HISTORY_WINDOW)) {
        case Ok(reply) =>
          if HasCode(reply) {
            var blocks := DesignBlocks(reply, fmt);
            var logged := Merge(ms, Assistant, blocks);
            MergeBlocks(ms, Assistant, blocks);
            if attempt < retries {
              var notice := [FailureNotice(attempt, MissingSetCodeContent), "Error"];
              assert r.messages == AttemptsAsWritten(Merge(logged, Assistant, notice), attempt + 1, retries, design, fmt).messages;
              MergeBlocks(logged, Assistant, notice);
              AsWrittenExtendsLog(Merge(logged, Assistant, notice), attempt + 1, retries, design, fmt);
            } else {
              assert r.messages == logged;
            }
          } else {
            assert r.messages == AttemptsAsWritten(ms, attempt + 1, retries, design, fmt).messages;
            AsWrittenExtendsLog(ms, attempt + 1, retries, design, fmt);
          }
        case Err(e) =>
          if attempt < retries {
            var notice := [FailureNotice(attempt, e), "Error"];
            assert r.messages == AttemptsAsWritten(Merge(ms, Assistant, notice), attempt + 1, retries, design, fmt).messages;
            MergeBlocks(ms, Assistant, notice);
            AsWrittenExtendsLog(Merge(ms, Assistant, notice), attempt + 1, retries, design, fmt);
          }
      }
    }
  }

  /** The loop as written keeps user and assistant turns alternating. */
  lemma {:induction false} AsWrittenKeepsAlternation(ms: seq<Message>, attempt: nat, retries: int, design: Designer, fmt: Formats)
    requires Alternating(ms)
    ensures Alternating(AttemptsAsWritten(ms, attempt, retries, design, fmt).messages)
    decreases retries - attempt + 1
  {
    if attempt <= retries {
      match design(attempt, TruncatedHistory(ms, HISTORY_WINDOW)) {
        case Ok(reply) =>
          if HasCode(reply) {
            if attempt < retries {
              var logged := Merge(ms, Assistant, DesignBlocks(reply, fmt));
              AsWrittenKeepsAlternation(Merge(logged, Assistant, [FailureNotice(attempt, MissingSetCodeContent), "Error"]),
                                        attempt + 1, retries, design, fmt);
            }
          } else {
            AsWrittenKeepsAlternation(ms, attempt + 1, retries, design, fmt);
          }
        case Err(e) =>
          if attempt < retries {
            AsWrittenKeepsAlternation(Merge(ms, Assistant, [FailureNotice(attempt, e), "Error"]), attempt + 1, retries, design, fmt);
          }
      }
    }
  }

  /** After a merge the log ends with a turn of the merged role whose last
      blocks are the ones merged. */
  lemma MergeEndsWith(ms: seq<Message>, role: Role, blocks: seq<string>)
    ensures var r := Merge(ms, role, blocks);
            && |r| > 0 && Last(r).role == role && |Last(r).content| >= |blocks|
            && Last(r).content[|Last(r).content| - |blocks|..] == blocks
  {
  }

  /** A generated design had code, and the log ends with an assistant turn
      whose last two blocks are that design's code and description. */
  lemma {:induction false} GeneratedEndsLog(ms: seq<Message>, attempt: nat, retries: int, design: Designer, fmt: Formats)
    ensures var r := Attempts(ms, attempt, retries, design, fmt);
            r.end.Generated? ==>
              && HasCode(r.end.reply)
              && |r.messages| > 0 && Last(r.messages).role == Assistant
              && |Last(r.messages).content| >= 2
              && Last(r.messages).content[|Last(r.messages).content| - 2..]
                 == DesignBlocks(r.end.reply, fmt)
    decreases retries - attempt + 1
  {
    if attempt <= retries {
      var r := Attempts(ms, attempt, retries, design, fmt);
      match design(attempt, TruncatedHistory(ms, HISTORY_WINDOW)) {
        case Ok(reply) =>
          if HasCode(reply) {
            var blocks := DesignBlocks(reply, fmt);
            assert r == LoopResult(Merge(ms, Assistant, blocks), Generated(reply), 1);
            MergeEndsWith(ms, Assistant, blocks);
          } else {
            assert r == Plus(1, Attempts(ms, attempt + 1, retries, design, fmt));
            GeneratedEndsLog(ms, attempt + 1, retries, design, fmt);
          }
        case Err(e) =>
          if attempt < retries {
            var next := Merge(ms, Assistant, [FailureNotice(attempt, e), "Error"]);
            assert r == Plus(1, Attempts(next, attempt + 1, retries, design, fmt));
            GeneratedEndsLog(next, attempt + 1, retries, design, fmt);
          }
      }
    }
  }

  /** When every attempt comes back without code, nothing is added to the
      log and no error is reported. */
  lemma {:induction false} AllEmptyAddsNothing(ms: seq<Message>, attempt: nat, retries: int, design: Designer, fmt: Formats)
    requires forall a :: attempt <= a <= retries ==>
               design(a, TruncatedHistory(ms, HISTORY_WINDOW)).Ok?
               && !HasCode(design(a, TruncatedHistory(ms, HISTORY_WINDOW)).value)
    ensures var r := Attempts(ms, attempt, retries, design, fmt);
            r.messages == ms && r.end == NothingGenerated
    decreases retries - attempt + 1
  {
    if attempt <= retries {
      AllEmptyAddsNothing(ms, attempt + 1, retries, design, fmt);
    }
  }

  /** A failure before the last attempt leaves exactly one retry notice and
      moves on to the next attempt. */
  lemma FailureNoticed(ms: seq<Message>, attempt: nat, retries: int, design: Designer, fmt: Formats)
    requires attempt < retries
    requires design(attempt, TruncatedHistory(ms, HISTORY_WINDOW)).Err?
    ensures var e := design(attempt, TruncatedHistory(ms, HISTORY_WINDOW)).error;
            Attempts(ms, attempt, retries, design, fmt)
              == Plus(1, Attempts(Merge(ms, Assistant, [FailureNotice(attempt, e), "Error"]), attempt + 1, retries, design, fmt))
  {
    var w := TruncatedHistory(ms, HISTORY_WINDOW);
    var e := design(attempt, w).error;
    assert design(attempt, w) == Err(e);
  }

  // ---------------------------------------------------------------------
  // The data-schema summary

  /** `key: typeof value` for each property of a record, in order. */
  function FieldTypes(rec: Record): (r: seq<string>)
    ensures |r| == |rec|
    ensures forall i :: 0 <= i < |rec| ==> r[i] == rec[i].0 + ": " + TypeOf(rec[i].1)
  {
    seq(|rec|, i requires 0 <= i < |rec| => rec[i].0 + ": " + TypeOf(rec[i].1))
  }

  const SummaryLead := "\nAvailable data structure: { "
  const SummaryMiddle := " }.\nData has "
  const SummaryEnd := " records."

  /** The schema of the first record and the record count, or nothing when
      there are no records. */
  function DataStructureDescription(data: Option<seq<Record>>): (r: string)
    ensures r == "" <==> data.None? || |data.value| == 0
    ensures r != "" ==> SummaryLead <= r
  {
    if data.None? || |data.value| == 0 then ""
    else SummaryLead + Join(FieldTypes(data.value[0]), ", ") + SummaryMiddle + NatToString(|data.value|) + SummaryEnd
  }

  /** The summary of a non-empty data set is the lead, the first record's
      `key: type` entries joined with ", ", and the record count between
      the middle text and the closing text. */
  lemma SummaryParts(d: seq<Record>)
    requires |d| > 0
    ensures var r := DataStructureDescription(Some(d));
            var fields := Join(FieldTypes(d[0]), ", ");
            var count := NatToString(|d|);
            var p := |SummaryLead| + |fields|;
            && |r| == p + |SummaryMiddle| + |count| + |SummaryEnd|
            && r[..|SummaryLead|] == SummaryLead
            && r[|SummaryLead|..p] == fields
            && r[p..p + |SummaryMiddle|] == SummaryMiddle
            && r[p + |SummaryMiddle|..p + |SummaryMiddle| + |count|] == count
            && r[|r| - |SummaryEnd|..] == SummaryEnd
  {
    var fields := Join(FieldTypes(d[0]), ", ");
    var count := NatToString(|d|);
    var r := DataStructureDescription(Some(d));
    assert r == SummaryLead + fields + SummaryMiddle + count + SummaryEnd;
  }

  /** The record count can be read back from the summary: it is the run of
      digits, after a space, that ends where " records." begins. */
  lemma SummaryCountReadsBack(d: seq<Record>)
    requires |d| > 0
    ensures var r := DataStructureDescription(Some(d));
            var n := |NatToString(|d|)|;
            var e := |r| - |SummaryEnd|;
            && n < e && r[e..] == SummaryEnd && r[e - n - 1] == ' '
            && (forall k :: e - n <= k < e ==> '0' <= r[k] <= '9')
            && DecimalValue(r[e - n..e]) == |d|
  {
    var r := DataStructureDescription(Some(d));
    var count := NatToString(|d|);
    var e := |r| - |SummaryEnd|;
    SummaryParts(d);
    var p := |SummaryLead| + |Join(FieldTypes(d[0]), ", ")|;
    assert e == p + |SummaryMiddle| + |count|;
    assert r[e - |count|..e] == count;
    assert r[e - |count| - 1] == r[p..p + |SummaryMiddle|][|SummaryMiddle| - 1];
    NatToStringRoundTrip(|d|);
  }

  /** Two data sets with the same first record are summarised alike only
      when they hold the same number of records. */
  lemma DescriptionDeterminesCount(d1: seq<Record>, d2: seq<Record>)
    requires |d1| > 0 && |d2| > 0 && d1[0] == d2[0]
    requires DataStructureDescription(Some(d1)) == DataStructureDescription(Some(d2))
    ensures |d1| == |d2|
  {
    var p := SummaryLead + Join(FieldTypes(d1[0]), ", ") + SummaryMiddle;
    var n1, n2 := NatToString(|d1|), NatToString(|d2|);
    var s1, s2 := p + n1 + SummaryEnd, p + n2 + SummaryEnd;
    assert s1 == s2;
    assert |n1| == |n2|;
    assert n1 == s1[|p|..|p| + |n1|];
    assert n2 == s2[|p|..|p| + |n2|];
    NatToStringInjective(|d1|, |d2|);
  }

  // ---------------------------------------------------------------------
  // What the panel shows

  /** One bubble of the chat panel. */
  datatype Shown = Shown(role: Role, text: string)

  /** A user turn shows every block; an assistant turn shows its second
      block, when that is non-empty. */
  function RenderedTurn(m: Message): (r: seq<Shown>)
    ensures m.role == User ==> |r| == |m.content| && forall i :: 0 <= i < |r| ==> r[i] == Shown(User, m.content[i])
    ensures m.role == Assistant ==> |r| <= 1
    ensures m.role == Assistant && |r| == 1 ==> |m.content| > 1 && m.content[1] != "" && r[0] == Shown(Assistant, m.content[1])
    ensures m.role == Assistant && |m.content| > 1 && m.content[1] != "" ==> |r| == 1
  {
    if m.role == User then seq(|m.content|, i requires 0 <= i < |m.content| => Shown(User, m.content[i]))
    else if |m.content| > 1 && m.content[1] != "" then [Shown(Assistant, m.content[1])]
    else []
  }

  /** `updateChatUI`: the bubbles for a whole log, turn by turn. */
  function Rendered(ms: seq<Message>): seq<Shown> {
    if |ms| == 0 then [] else Rendered(ms[..|ms| - 1]) + RenderedTurn(Last(ms))
  }

  /** Rendering a log is rendering its parts one after the other. */
  lemma {:induction false} RenderedAppend(a: seq<Message>, b: seq<Message>)
    ensures Rendered(a + b) == Rendered(a) + Rendered(b)
    decreases |b|
  {
    if |b| == 0 {
      assert a + b == a;
    } else {
      var b' := b[..|b| - 1];
      assert (a + b)[..|a + b| - 1] == a + b';
      assert Last(a + b) == Last(b);
      RenderedAppend(a, b');
      calc {
        Rendered(a + b);
        Rendered(a + b') + RenderedTurn(Last(b));
        Rendered(a) + Rendered(b') + RenderedTurn(Last(b));
        Rendered(a) + (Rendered(b') + RenderedTurn(Last(b)));
      }
    }
  }

  /** As written, a turn merged into an assistant message that already has
      a description is never shown: the panel looks only at the second
      block. */
  lemma MergedDescriptionHidden(ms: seq<Message>, response: string, description: string)
    requires |ms| > 0 && Last(ms).role == Assistant && |Last(ms).content| >= 2
    ensures Rendered(Merge(ms, Assistant, [response, description])) == Rendered(ms)
  {
    var r := Merge(ms, Assistant, [response, description]);
    assert r[..|r| - 1] == ms[..|ms| - 1];
    assert Last(r).content[1] == Last(ms).content[1];
  }

  /** A failed first attempt followed by a successful second one: the
      panel shows the prompt and "Error", and never the design's
      description. */
  lemma RetriedSuccessHidden()
    ensures var ms := [Message(User, ["a bar chart"])];
            var failed := Merge(ms, Assistant, ["Attempt 1 failed: timeout. Retrying...", "Error"]);
            var done := Merge(failed, Assistant, ["{}", "A bar chart of sales"]);
            Rendered(done) == [Shown(User, "a bar chart"), Shown(Assistant, "Error")]
  {
    var ms := [Message(User, ["a bar chart"])];
    var failed := Merge(ms, Assistant, ["Attempt 1 failed: timeout. Retrying...", "Error"]);
    MergedDescriptionHidden(failed, "{}", "A bar chart of sales");
    assert failed == ms + [Message(Assistant, ["Attempt 1 failed: timeout. Retrying...", "Error"])];
    RenderedAppend(ms, [Message(Assistant, ["Attempt 1 failed: timeout. Retrying...", "Error"])]);
    assert Rendered(ms) == Rendered([]) + RenderedTurn(ms[0]);
    assert Rendered([Message(Assistant, ["Attempt 1 failed: timeout. Retrying...", "Error"])])
        == Rendered([]) + [Shown(Assistant, "Error")];
  }

  /** The non-empty descriptions of an assistant turn: every block at an
      odd position, since each assistant add appends a response and its
      description. */
  function Descriptions(content: seq<string>): seq<string>
    decreases |content|
  {
    if |content| < 2 then []
    else (if content[1] != "" then [content[1]] else []) + Descriptions(content[2..])
  }

  /** Every assistant turn holds whole response/description pairs. */
  predicate PairedAssistantTurns(ms: seq<Message>) {
    forall i :: 0 <= i < |ms| && ms[i].role == Assistant ==> |ms[i].content| % 2 == 0
  }

  /** The intended rule: an assistant turn shows each of its non-empty
      descriptions. */
  function RenderedTurnAll(m: Message): (r: seq<Shown>)
    ensures m.role == Assistant ==> |r| == |Descriptions(m.content)|
  {
    if m.role == User then RenderedTurn(m)
    else DescriptionBubbles(Descriptions(m.content))
  }

  function RenderedAll(ms: seq<Message>): seq<Shown> {
    if |ms| == 0 then [] else RenderedAll(ms[..|ms| - 1]) + RenderedTurnAll(Last(ms))
  }

  lemma {:induction false} DescriptionsAppendPair(content: seq<string>, response: string, description: string)
    requires |content| % 2 == 0
    ensures Descriptions(content + [response, description])
            == Descriptions(content) + (if description != "" then [description] else [])
    decreases |content|
  {
    if |content| == 0 {
      assert Descriptions([response, description]) == (if description != "" then [description] else []) + Descriptions([]);
    } else {
      assert (content + [response, description])[2..] == content[2..] + [response, description];
      DescriptionsAppendPair(content[2..], response, description);
    }
  }

  /** The bubbles the intended rule shows for the descriptions of a turn. */
  function DescriptionBubbles(ds: seq<string>): (r: seq<Shown>)
    ensures |r| == |ds| && forall i :: 0 <= i < |ds| ==> r[i] == Shown(Assistant, ds[i])
  {
    seq(|ds|, i requires 0 <= i < |ds| => Shown(Assistant, ds[i]))
  }

  lemma DescriptionBubblesAppend(a: seq<string>, b: seq<string>)
    ensures DescriptionBubbles(a + b) == DescriptionBubbles(a) + DescriptionBubbles(b)
  {
  }

  /** With the intended rule, adding an assistant turn shows its
      description (when non-empty) after everything shown before, whether
      or not the turn is merged. */
  lemma AddAssistantShowsDescription(ms: seq<Message>, response: string, description: string)
    requires PairedAssistantTurns(ms)
    ensures RenderedAll(Merge(ms, Assistant, [response, description]))
            == RenderedAll(ms) + (if description != "" then [Shown(Assistant, description)] else [])
  {
    var added := if description != "" then [description] else [];
    assert DescriptionBubbles(added) == (if description != "" then [Shown(Assistant, description)] else []);
    if |ms| > 0 && Last(ms).role == Assistant {
      MergedTurnShows(ms, response, description);
    } else {
      NewTurnShows(ms, response, description);
    }
  }

  /** The merged case: the reply extends the last assistant turn. */
  lemma MergedTurnShows(ms: seq<Message>, response: string, description: string)
    requires |ms| > 0 && Last(ms).role == Assistant && |Last(ms).content| % 2 == 0
    ensures RenderedAll(Merge(ms, Assistant, [response, description]))
            == RenderedAll(ms) + DescriptionBubbles(if description != "" then [description] else [])
  {
    var r := Merge(ms, Assistant, [response, description]);
    var added := if description != "" then [description] else [];
    calc {
      RenderedAll(r);
    == { assert r[..|r| - 1] == ms[..|ms| - 1]; }
      RenderedAll(ms[..|ms| - 1]) + RenderedTurnAll(Last(r));
    == { DescriptionsAppendPair(Last(ms).content, response, description);
         DescriptionBubblesAppend(Descriptions(Last(ms).content), added); }
      RenderedAll(ms[..|ms| - 1]) + (RenderedTurnAll(Last(ms)) + DescriptionBubbles(added));
    }
  }

  /** The new-turn case: the reply starts an assistant turn of its own. */
  lemma NewTurnShows(ms: seq<Message>, response: string, description: string)
    requires |ms| == 0 || Last(ms).role != Assistant
    ensures RenderedAll(Merge(ms, Assistant, [response, description]))
            == RenderedAll(ms) + DescriptionBubbles(if description != "" then [description] else [])
  {
    var r := Merge(ms, Assistant, [response, description]);
    var added := if description != "" then [description] else [];
    calc {
      RenderedAll(r);
    == { assert r[..|r| - 1] == ms; }
      RenderedAll(ms) + RenderedTurnAll(Last(r));
    == { assert Descriptions([response, description]) == added + Descriptions([]); }
      RenderedAll(ms) + DescriptionBubbles(added);
    }
  }

  /** Adding a turn of either kind keeps assistant turns paired, so the
      intended rule applies to every log the chat builds. */
  lemma AddKeepsPairs(ms: seq<Message>, prompt: string, response: string, description: string)
    requires PairedAssistantTurns(ms)
    ensures PairedAssistantTurns(Merge(ms, User, [prompt]))
    ensures PairedAssistantTurns(Merge(ms, Assistant, [response, description]))
  {
    var r := Merge(ms, Assistant, [response, description]);
    if |ms| > 0 && Last(ms).role == Assistant {
      assert |Last(ms).content| % 2 == 0;
      assert |Last(r).content| == |Last(ms).content| + 2;
    }
  }
}
