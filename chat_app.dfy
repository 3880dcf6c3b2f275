/**
 * The conversation engine of App.tsx: the four pieces of state the chat
 * screen shares (`messages`, `isLoading`, `error`, `isTyping`), the handlers
 * that update them, and the templated bot reply.
 *
 * The reply that `setTimeout` delivers later is an explicit step,
 * `DeliverBotReply`, fed with the `PendingReply` that `SendMessage` returns:
 * the list captured at send time and the user's text. Clock readings
 * (`Date.now()`, `new Date()`), the random template index and whether the
 * storage medium accepts an operation are parameters.
 */
module ChatApp {
  import opened Wrappers
  import opened MessageTypes
  import ChatService

  const TemplateCount: nat := 5

  const FailedToClearError := "Failed to clear chat history"

  /**
   * Template `k` of the bot reply, split where the user's text goes:
   * the reply is `before + userText + after`.
   */
  function Template(k: nat): (parts: (string, string))
    requires k < TemplateCount
  {
    if k == 0 then ("I understand you said: \"", "\". How can I help you further?")
    else if k == 1 then ("That's interesting! Tell me more about \"", "\".")
    // The verifier unfolds only short string literals, hence the split.
    else if k == 2 then ("Thanks for sharing that. " + "I'd be happy to discuss \"", "\" in more detail.")
    else if k == 3 then ("I see you mentioned \"", "\". What would you like to know about it?")
    else ("Great question about \"", "\". Let me think about that...")
  }

  /** The bot's answer to `userText` with the randomly drawn template `k`. */
  function BotResponse(userText: string, k: nat): (r: string)
    requires k < TemplateCount
    ensures |r| == |Template(k).0| + |userText| + |Template(k).1|
    ensures MatchesTemplate(r, k)
  {
    Template(k).0 + userText + Template(k).1
  }

  /** `r` holds `text` wrapped in double quotes, starting at index `i`. */
  predicate QuotedAt(r: string, text: string, i: int) {
    0 <= i && i + |text| + 2 <= |r| && r[i..i + |text| + 2] == "\"" + text + "\""
  }

  predicate ContainsQuoted(r: string, text: string) {
    exists i | 0 <= i <= |r| :: QuotedAt(r, text, i)
  }

  /** Each template opens a double quote just before the user's text and closes it just after. */
  lemma TemplateQuotes(k: nat)
    requires k < TemplateCount
    ensures |Template(k).0| >= 1 && Template(k).0[|Template(k).0| - 1] == '"'
    ensures |Template(k).1| >= 1 && Template(k).1[0] == '"'
  {
    var (before, after) := Template(k);
    if k == 0 {
      assert before[|before| - 1] == '"' && after[0] == '"';
    } else if k == 1 {
      assert before[|before| - 1] == '"' && after[0] == '"';
    } else if k == 2 {
      assert before[|before| - 1] == '"' && after[0] == '"';
    } else if k == 3 {
      assert before[|before| - 1] == '"' && after[0] == '"';
    } else {
      assert before[|before| - 1] == '"' && after[0] == '"';
    }
  }

  /** Every reply quotes the user's text verbatim. */
  lemma BotResponseQuotesInput(userText: string, k: nat)
    requires k < TemplateCount
    ensures ContainsQuoted(BotResponse(userText, k), userText)
  {
    TemplateQuotes(k);
    var (before, after) := Template(k);
    assert (before + userText + after)[|before| - 1..|before| + |userText| + 1]
      == [before[|before| - 1]] + userText + [after[0]];
    assert QuotedAt(BotResponse(userText, k), userText, |before| - 1);
  }

  /** Whether `r` has the shape of template `k`. */
  predicate MatchesTemplate(r: string, k: nat)
    requires k < TemplateCount
  {
    var (before, after) := Template(k);
    |before| + |after| <= |r| && r[..|before|] == before && r[|r| - |after|..] == after
  }

  /**
   * Recovers the user's text from a reply drawn with template `k`: the
   * inverse of `BotResponse`.
   */
  function ExtractUserText(r: string, k: nat): (text: Option<string>)
    requires k < TemplateCount
  {
    if MatchesTemplate(r, k) then Some(r[|Template(k).0|..|r| - |Template(k).1|]) else None
  }

  /** The reply embeds the user's text whole and unchanged. */
  lemma BotResponseRoundTrip(userText: string, k: nat)
    requires k < TemplateCount
    ensures ExtractUserText(BotResponse(userText, k), k) == Some(userText)
  {
    var r := BotResponse(userText, k);
    var (before, after) := Template(k);
    assert r[..|before|] == before;
    assert r[|r| - |after|..] == after;
    assert r[|before|..|r| - |after|] == userText;
  }

  /** The record `handleSendMessage` builds for the user's text. */
  function UserMessage(text: string, clockMs: nat, createdAt: nat): (m: Message)
    ensures m.sender == User && m.status == Sent && m.text == text && m.retryCount == None
  {
    Message(DecimalString(clockMs), text, User, createdAt, Sent, None)
  }

  /** The record the delayed reply builds; its id is the clock plus one. */
  function BotMessage(userText: string, k: nat, clockMs: nat, createdAt: nat): (m: Message)
    requires k < TemplateCount
    ensures m.sender == Bot && m.status == Sent && m.retryCount == None
    ensures ExtractUserText(m.text, k) == Some(userText)
  {
    BotResponseRoundTrip(userText, k);
    Message(DecimalString(clockMs + 1), BotResponse(userText, k), Bot, createdAt, Sent, None)
  }

  /** With a clock that does not run backwards, a reply never reuses its question's id. */
  lemma ReplyIdDiffersFromQuestion(text: string, k: nat, sendClock: nat, replyClock: nat, t1: nat, t2: nat)
    requires k < TemplateCount && sendClock <= replyClock
    ensures BotMessage(text, k, replyClock, t2).id != UserMessage(text, sendClock, t1).id
  {
    DecimalStringInjective(replyClock + 1, sendClock);
  }

  /** `messages.findIndex(msg => msg.id === id)`, with `None` for -1. */
  function FindMessageIndex(messages: seq<Message>, id: string): (r: Option<nat>)
    ensures r.Some? ==> r.value < |messages| && messages[r.value].id == id
    ensures r.Some? ==> forall j :: 0 <= j < r.value ==> messages[j].id != id
    ensures r.None? <==> forall j :: 0 <= j < |messages| ==> messages[j].id != id
  {
    if messages == [] then None
    else if messages[0].id == id then Some(0)
    else match FindMessageIndex(messages[1..], id)
      case None => None
      case Some(i) => Some(i + 1)
  }

  /** The text `handleRetry` re-sends: that of the first message with the id, if it is the user's. */
  function RetryText(messages: seq<Message>, id: string): (text: Option<string>)
    ensures text.Some? ==> exists i | 0 <= i < |messages| ::
      messages[i].id == id && messages[i].sender == User && messages[i].text == text.value
    ensures (forall i | 0 <= i < |messages| :: messages[i].sender == Bot) ==> text == None
  {
    match FindMessageIndex(messages, id)
    case None => None
    case Some(i) => if messages[i].sender == User then Some(messages[i].text) else None
  }

  /** Retry acts on the first message with the id and on nothing else. */
  lemma RetryUsesFirstMatch(messages: seq<Message>, id: string, i: nat)
    requires i < |messages| && messages[i].id == id
    requires forall j :: 0 <= j < i ==> messages[j].id != id
    ensures RetryText(messages, id) == if messages[i].sender == User then Some(messages[i].text) else None
  {
  }

  /** An id that no message carries gives nothing to re-send. */
  lemma RetryUnknownId(messages: seq<Message>, id: string)
    requires forall j :: 0 <= j < |messages| ==> messages[j].id != id
    ensures RetryText(messages, id) == None
  {
  }

  /** What the reply timer captured when it was set. */
  datatype PendingReply = PendingReply(snapshot: seq<Message>, userText: string)

  class ChatEngine {
    var messages: seq<Message>
    var isLoading: bool
    var error: Option<string>
    var isTyping: bool
    const store: ChatService.ChatStore

    /** The state on first render: empty list, not loading, no error, not typing. */
    constructor (store: ChatService.ChatStore)
      ensures messages == [] && !isLoading && error == None && !isTyping
      ensures this.store == store
    {
      messages := [];
      isLoading := false;
      error := None;
      isTyping := false;
      this.store := store;
    }

    /** The mount-time load: replaces the list with whatever the store yields (never fails). */
    method LoadChatHistory(readOk: bool)
      modifies this
      ensures messages == (if readOk && store.record.Some? then store.record.value else [])
      ensures isLoading == old(isLoading) && error == old(error) && isTyping == old(isTyping)
    {
      var history := store.LoadChatHistory(readOk);
      messages := history;
    }

    /** Saves the list and swallows a rejected write: nothing reaches the caller. */
    method SaveChatHistory(newMessages: seq<Message>, writeOk: bool)
      modifies store
      ensures store.record == if writeOk then Some(newMessages) else old(store.record)
    {
      var saved := store.SaveChatHistory(newMessages, writeOk);
    }

    /**
     * `handleSendMessage` up to arming the reply timer. Because the save
     * swallows failures, the typing state is always entered and no error is
     * ever set.
     */
    method SendMessage(text: string, clockMs: nat, createdAt: nat, writeOk: bool) returns (pending: PendingReply)
      modifies this, store
      ensures messages == old(messages) + [UserMessage(text, clockMs, createdAt)]
      ensures isLoading && error == None && isTyping
      ensures pending == PendingReply(messages, text)
      ensures store.record == if writeOk then Some(messages) else old(store.record)
    {
      var userMessage := UserMessage(text, clockMs, createdAt);
      var updatedMessages := messages + [userMessage];
      messages := updatedMessages;
      isLoading := true;
      error := None;
      SaveChatHistory(updatedMessages, writeOk);
      isTyping := true;
      pending := PendingReply(updatedMessages, text);
    }

    /**
     * The body of the reply timer. The new list is built from the list
     * captured at send time, not from the current one.
     */
    method DeliverBotReply(pending: PendingReply, k: nat, clockMs: nat, createdAt: nat, writeOk: bool)
      requires k < TemplateCount
      modifies this, store
      ensures messages == pending.snapshot + [BotMessage(pending.userText, k, clockMs, createdAt)]
      ensures !isTyping && !isLoading && error == old(error)
      ensures store.record == if writeOk then Some(messages) else old(store.record)
    {
      isTyping := false;
      var botMessage := BotMessage(pending.userText, k, clockMs, createdAt);
      var finalMessages := pending.snapshot + [botMessage];
      messages := finalMessages;
      SaveChatHistory(finalMessages, writeOk);
      isLoading := false;
    }

    /**
     * `handleRetry`: re-sends the text of the first message with the id when
     * the user wrote it, as a new message; does not look at `isLoading`.
     */
    method Retry(messageId: string, clockMs: nat, createdAt: nat, writeOk: bool) returns (pending: Option<PendingReply>)
      modifies this, store
      ensures RetryText(old(messages), messageId) == None ==>
        pending == None && messages == old(messages) && isLoading == old(isLoading)
        && error == old(error) && isTyping == old(isTyping) && store.record == old(store.record)
      ensures RetryText(old(messages), messageId).Some? ==>
        var text := RetryText(old(messages), messageId).value;
        && messages == old(messages) + [UserMessage(text, clockMs, createdAt)]
        && isLoading && error == None && isTyping
        && pending == Some(PendingReply(messages, text))
        && store.record == if writeOk then Some(messages) else old(store.record)
    {
      var messageIndex := FindMessageIndex(messages, messageId);
      pending := None;
      if messageIndex.Some? {
        var message := messages[messageIndex.value];
        if message.sender == User {
          var p := SendMessage(message.text, clockMs, createdAt, writeOk);
          pending := Some(p);
        }
      }
    }

    /** Dismisses the error and touches nothing else. */
    method ClearError()
      modifies this
      ensures error == None
      ensures messages == old(messages) && isLoading == old(isLoading) && isTyping == old(isTyping)
    {
      error := None;
    }

    /**
     * `handleClearChat`: on a successful delete the list empties and the
     * error clears; on a rejected delete the list stays and the error is set.
     */
    method ClearChat(removeOk: bool)
      modifies this, store
      ensures removeOk ==> messages == [] && error == None && store.record == None
      ensures !removeOk ==>
        messages == old(messages) && error == Some(FailedToClearError) && store.record == old(store.record)
      ensures isLoading == old(isLoading) && isTyping == old(isTyping)
    {
      var ok := store.ClearChatHistory(removeOk);
      if ok {
        messages := [];
        error := None;
      } else {
        error := Some(FailedToClearError);
      }
    }
  }

  /**
   * Clearing while a reply is pending does not stick: the reply writes back
   * the whole list captured at send time.
   */
  method ReplyAfterClearRestoresHistory(engine: ChatEngine, text: string, clockMs: nat, k: nat)
    requires k < TemplateCount
    modifies engine, engine.store
    ensures engine.messages == old(engine.messages)
      + [UserMessage(text, clockMs, clockMs), BotMessage(text, k, clockMs + 1, clockMs + 1)]
    ensures engine.store.record == Some(engine.messages)
  {
    var pending := engine.SendMessage(text, clockMs, clockMs, true);
    engine.ClearChat(true);
    assert engine.messages == [];
    engine.DeliverBotReply(pending, k, clockMs + 1, clockMs + 1, true);
  }

  /**
   * Two sends before either reply arrives: each reply overwrites the list
   * with its own snapshot, so the first reply is lost and three messages
   * remain, not four.
   */
  method InterleavedSendsDropFirstReply(engine: ChatEngine, a: string, b: string, k: nat)
    requires k < TemplateCount
    modifies engine, engine.store
    ensures engine.messages == old(engine.messages)
      + [UserMessage(a, 1, 1), UserMessage(b, 2, 2), BotMessage(b, k, 4, 4)]
  {
    var first := engine.SendMessage(a, 1, 1, true);
    var second := engine.SendMessage(b, 2, 2, true);
    engine.DeliverBotReply(first, k, 3, 3, true);
    engine.DeliverBotReply(second, k, 4, 4, true);
  }

  /**
   * The same two sends with the replies arriving in the other order: the
   * first send's reply lands last and writes back its own snapshot, so the
   * second question and its reply are both lost.
   */
  method InterleavedSendsReverseOrderDropSecond(engine: ChatEngine, a: string, b: string, k: nat)
    requires k < TemplateCount
    modifies engine, engine.store
    ensures engine.messages == old(engine.messages) + [UserMessage(a, 1, 1), BotMessage(a, k, 4, 4)]
  {
    var first := engine.SendMessage(a, 1, 1, true);
    var second := engine.SendMessage(b, 2, 2, true);
    engine.DeliverBotReply(second, k, 3, 3, true);
    engine.DeliverBotReply(first, k, 4, 4, true);
  }
}
