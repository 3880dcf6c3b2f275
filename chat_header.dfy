/**
 * The header of src/components/ChatHeader.tsx: the status line under the
 * title and the confirmation that guards clearing the chat.
 */
module ChatHeader {
  import opened Wrappers
  import ChatApp

  const TypingStatus := "Bot is typing..."
  const EmptyStatus := "Start a conversation"
  const OnlineStatus := "Online"

  /** `getStatusText`: typing wins, then an empty list, then online. */
  function StatusText(isTyping: bool, messageCount: nat): (status: string)
    ensures isTyping ==> status == TypingStatus
    ensures !isTyping && messageCount == 0 ==> status == EmptyStatus
    ensures !isTyping && messageCount > 0 ==> status == OnlineStatus
  {
    if isTyping then TypingStatus
    else if messageCount == 0 then EmptyStatus
    else OnlineStatus
  }

  /**
   * The status line tells apart exactly three situations: typing (whatever
   * the count), idle with no messages, idle with messages.
   */
  lemma StatusTextSeparates(t1: bool, c1: nat, t2: bool, c2: nat)
    ensures StatusText(t1, c1) == StatusText(t2, c2) <==> (t1 == t2 && (t1 || (c1 == 0 <==> c2 == 0)))
  {
    assert TypingStatus[0] == 'B' && EmptyStatus[0] == 'S' && OnlineStatus[0] == 'O';
  }

  /** How the "Clear Chat" alert was closed; the alert is cancelable, so it can also be dismissed. */
  datatype AlertChoice = Cancel | Clear | Dismissed

  /** Only the destructive "Clear" button calls `onClearChat`. */
  predicate InvokesClear(choice: AlertChoice) {
    choice == Clear
  }

  /**
   * `handleClearChat` of the header followed by the user's answer. The
   * engine's `ClearChat` never rejects, so the header's own error alert is
   * never shown.
   */
  method ConfirmClearChat(engine: ChatApp.ChatEngine, choice: AlertChoice, removeOk: bool)
    modifies engine, engine.store
    ensures engine.isLoading == old(engine.isLoading) && engine.isTyping == old(engine.isTyping)
    ensures !InvokesClear(choice) ==>
      && engine.messages == old(engine.messages) && engine.error == old(engine.error)
      && engine.isLoading == old(engine.isLoading) && engine.isTyping == old(engine.isTyping)
      && engine.store.record == old(engine.store.record)
    ensures InvokesClear(choice) && removeOk ==>
      engine.messages == [] && engine.error == None && engine.store.record == None
    ensures InvokesClear(choice) && !removeOk ==>
      && engine.messages == old(engine.messages) && engine.error == Some(ChatApp.FailedToClearError)
      && engine.store.record == old(engine.store.record)
  {
    if InvokesClear(choice) {
      engine.ClearChat(removeOk);
    }
  }
}
