/**
 * The item list of src/components/VirtualizedMessageList.tsx: the messages in
 * order, then a typing item while the bot is typing, then an error item
 * while there is an error to show, and the fixed-height layout the list is
 * given.
 */
module MessageList {
  import opened Wrappers
  import opened MessageTypes

  datatype ListItem = MessageItem(message: Message) | TypingItem | ErrorItem(error: string)

  /** The estimated height of every row. */
  const ItemHeight: nat := 80

  /** JavaScript truthiness of `string | null`: null and "" are false. */
  function IsTruthy(error: Option<string>): (truthy: bool)
    ensures truthy <==> error.Some? && |error.value| > 0
  {
    error.Some? && error.value != ""
  }

  /** The messages as list items, in their order. */
  function MessageItems(messages: seq<Message>): (items: seq<ListItem>)
    ensures |items| == |messages|
    ensures forall i :: 0 <= i < |messages| ==> items[i] == MessageItem(messages[i])
  {
    seq(|messages|, i requires 0 <= i < |messages| => MessageItem(messages[i]))
  }

  /** The `data` memo: messages, then the typing item, then the error item. */
  function ListData(messages: seq<Message>, isTyping: bool, error: Option<string>): (data: seq<ListItem>)
    ensures |data| == |messages| + (if isTyping then 1 else 0) + (if IsTruthy(error) then 1 else 0)
    ensures data[..|messages|] == MessageItems(messages)
    ensures isTyping <==> TypingItem in data
    ensures isTyping ==> data[|messages|] == TypingItem
    ensures forall e :: ErrorItem(e) in data <==> IsTruthy(error) && e == error.value
    ensures IsTruthy(error) ==> data[|data| - 1] == ErrorItem(error.value)
  {
    MessageItems(messages)
      + (if isTyping then [TypingItem] else [])
      + (if IsTruthy(error) then [ErrorItem(error.value)] else [])
  }

  /**
   * The memo body as written: copy the messages, then push the typing item
   * and the error item onto the copy.
   */
  method BuildListData(messages: seq<Message>, isTyping: bool, error: Option<string>) returns (items: seq<ListItem>)
    ensures items == ListData(messages, isTyping, error)
  {
    items := MessageItems(messages);
    if isTyping {
      items := items + [TypingItem];
    }
    if error.Some? && error.value != "" {
      items := items + [ErrorItem(error.value)];
    }
  }

  /** `getItemCount`. */
  function GetItemCount(data: seq<ListItem>): (count: nat)
    ensures count == |data|
  {
    |data|
  }

  /** `getItem`: the list asks only for indices below the count. */
  function GetItem(data: seq<ListItem>, index: nat): (item: ListItem)
    requires index < GetItemCount(data)
    ensures item == data[index]
  {
    data[index]
  }

  /** The list shows one row per message, plus one while typing, plus one for a non-empty error. */
  lemma ItemCountOfListData(messages: seq<Message>, isTyping: bool, error: Option<string>)
    ensures GetItemCount(ListData(messages, isTyping, error))
      == |messages| + (if isTyping then 1 else 0) + (if IsTruthy(error) then 1 else 0)
  {
  }

  /**
   * What the list reads at each index of the assembled data: the messages in
   * order, then the typing row right after them, and the error row last.
   */
  lemma ItemsOfListData(messages: seq<Message>, isTyping: bool, error: Option<string>, index: nat)
    requires index < GetItemCount(ListData(messages, isTyping, error))
    ensures var item := GetItem(ListData(messages, isTyping, error), index);
      && (index < |messages| ==> item == MessageItem(messages[index]))
      && (index == |messages| && isTyping ==> item == TypingItem)
      && (index >= |messages| && !isTyping ==> item == ErrorItem(error.value))
      && (index > |messages| ==> item == ErrorItem(error.value))
  {
    var data := ListData(messages, isTyping, error);
    if index < |messages| {
      assert data[index] == data[..|messages|][index];
    }
  }

  /** `keyExtractor`: a message's id, or the fixed keys "typing" and "error". */
  function KeyExtractor(item: ListItem): (key: string)
    ensures item.MessageItem? ==> key == item.message.id
    ensures item.TypingItem? ==> key == "typing"
    ensures item.ErrorItem? ==> key == "error"
  {
    match item
    case MessageItem(m) => m.id
    case TypingItem => "typing"
    case ErrorItem(_) => "error"
  }

  /** The ids are pairwise distinct and none is one of the two fixed keys. */
  predicate IdsUsableAsKeys(messages: seq<Message>) {
    && (forall i, j :: 0 <= i < j < |messages| ==> messages[i].id != messages[j].id)
    && (forall i :: 0 <= i < |messages| ==> messages[i].id != "typing" && messages[i].id != "error")
  }

  /** With distinct ids that avoid the fixed keys, every row of the list has its own key. */
  lemma KeysDistinct(messages: seq<Message>, isTyping: bool, error: Option<string>, i: nat, j: nat)
    requires IdsUsableAsKeys(messages)
    requires i < j < |ListData(messages, isTyping, error)|
    ensures KeyExtractor(ListData(messages, isTyping, error)[i]) != KeyExtractor(ListData(messages, isTyping, error)[j])
  {
    var data := ListData(messages, isTyping, error);
    var n := |messages|;
    if j < n {
      assert data[i] == data[..n][i] == MessageItem(messages[i]);
      assert data[j] == data[..n][j] == MessageItem(messages[j]);
    } else if i < n {
      assert data[i] == data[..n][i] == MessageItem(messages[i]);
      assert data[j] == TypingItem || data[j] == ErrorItem(error.value);
    } else {
      assert isTyping && IsTruthy(error) && data[i] == TypingItem && data[j] == ErrorItem(error.value);
    }
  }

  datatype Layout = Layout(length: nat, offset: nat, index: nat)

  /** `getItemLayout`: every row is 80 high and starts where the row before it ends. */
  function GetItemLayout(index: nat): (layout: Layout)
    ensures layout.index == index && layout.length == ItemHeight
    ensures index == 0 ==> layout.offset == 0
    ensures index > 0 ==> layout.offset == GetItemLayout(index - 1).offset + GetItemLayout(index - 1).length
  {
    Layout(ItemHeight, ItemHeight * index, index)
  }

  /**
   * Every position within the list's total height falls in the band of
   * exactly one row, and that row is one the list can fetch: the index
   * `y / 80`.
   */
  lemma LayoutLocatesRow(data: seq<ListItem>, y: nat, index: nat)
    requires y < ItemHeight * GetItemCount(data)
    ensures y / ItemHeight < GetItemCount(data)
    ensures var layout := GetItemLayout(y / ItemHeight); layout.offset <= y < layout.offset + layout.length
    ensures GetItemLayout(index).offset <= y < GetItemLayout(index).offset + GetItemLayout(index).length
      <==> index == y / ItemHeight
  {
  }
}
