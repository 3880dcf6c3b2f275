/**
 * The contract of the persistence service (src/services/ChatService.ts) as the
 * app sees it. The storage medium and JSON encoding are not modelled: the
 * durable record under the key "chat_history" is held as the list itself, and
 * whether the medium accepts a write, a read or a delete is a parameter.
 */
module ChatService {
  import opened Wrappers
  import opened MessageTypes

  const ChatHistoryKey := "chat_history"

  class ChatStore {
    /** The record stored under `ChatHistoryKey`; `None` when there is none. */
    var record: Option<seq<Message>>

    constructor ()
      ensures record == None
    {
      record := None;
    }

    /** Overwrites the record with the whole list; a rejected write rethrows (`ok` false) and keeps the old record. */
    method SaveChatHistory(messages: seq<Message>, writeOk: bool) returns (ok: bool)
      modifies this
      ensures ok == writeOk
      ensures record == if writeOk then Some(messages) else old(record)
    {
      ok := writeOk;
      if writeOk {
        record := Some(messages);
      }
    }

    /**
     * Never fails: an absent record, a failed read or a record that does not
     * parse all give the empty list.
     */
    method LoadChatHistory(readOk: bool) returns (messages: seq<Message>)
      ensures messages == if readOk && record.Some? then record.value else []
    {
      if readOk && record.Some? {
        messages := record.value;
      } else {
        messages := [];
      }
    }

    /** Deletes the record; a rejected delete rethrows (`ok` false) and keeps it. */
    method ClearChatHistory(removeOk: bool) returns (ok: bool)
      modifies this
      ensures ok == removeOk
      ensures record == if removeOk then None else old(record)
    {
      ok := removeOk;
      if removeOk {
        record := None;
      }
    }
  }

  /** A list that was saved is read back unchanged. */
  method SaveThenLoad(store: ChatStore, messages: seq<Message>) returns (loaded: seq<Message>)
    modifies store
    ensures loaded == messages
  {
    var saved := store.SaveChatHistory(messages, true);
    loaded := store.LoadChatHistory(true);
  }
}
