# Chat assistant conversation model

A Dafny model of a React Native chat screen: the conversation engine in
`App.tsx` (a message list plus the `isLoading`, `error` and `isTyping` flags,
updated by the send, delayed-reply, retry, clear-error, clear-chat and load
handlers), the templated bot reply, the storage service's contract as the
engine sees it, the message composer (`ChatInput`), the item list handed to
the virtualized list, the header status line and clear confirmation, and the
screen-size classification helpers.

Modules, one per source file:

- `MessageTypes` (`message_types.dfy`): the `Message` record, and `DecimalString`, the
  `Date.now().toString()` used for message ids, with its inverse.
- `ChatService` (`chat_service.dfy`): class `ChatStore`, the durable record under the key
  `chat_history`. Whether the medium accepts a write, read or delete is a parameter.
- `ChatApp` (`chat_app.dfy`): the reply templates, `FindMessageIndex`, and class
  `ChatEngine` with one method per handler. The reply that `setTimeout` fires later
  is its own step, `DeliverBotReply`. It is fed the `PendingReply` that `SendMessage`
  returns: the list captured at send time and the user's text.
- `ChatInput` (`chat_input.dfy`): JavaScript `trim`, the send guard, class `InputBox`
  (`inputText`, `inputHeight`) and the composer wired to the engine.
- `MessageList` (`message_list.dfy`): the `data` memo, item access, keys and layout.
- `ChatHeader` (`chat_header.dfy`): the status text and the clear confirmation.
- `ResponsiveUtils` (`responsive_utils.dfy`): size flags, branch tables, `shouldUpdateComponent`.

Inputs the source draws from the environment are parameters: clock readings
(`clockMs` for `Date.now()`, `createdAt` for `new Date()`), the template index
that `Math.random` picks (any value below 5), storage success or failure, and
the window size and pixel ratio.

Two behaviours of the code are easy to misread, and the model keeps them as written:

- A failed save never reaches the user. `saveChatHistory` (App.tsx:45-51) catches
  and logs. So the `catch` in `handleSendMessage` (App.tsx:91-95) is never entered,
  `SendMessage` always arms the reply, and `error` stays empty.
- The delayed reply writes `updatedMessages + [bot]` (App.tsx:85-86), the list
  captured at send time. A clear issued while a reply is pending is undone, and so is
  a second send. Two sends before either reply leave three messages, not four, when
  the replies arrive in send order; when the first send's reply arrives last, the
  second question and its reply are both lost (`ReplyAfterClearRestoresHistory`,
  `InterleavedSendsDropFirstReply`, `InterleavedSendsReverseOrderDropSecond`). The composer
  blocks a second send while `isLoading` is set. `handleRetry` and a direct call of
  the handler do not.

## Model

| member | source | states |
|---|---|---|
| `MessageTypes.DecimalString` | App.tsx:55 | the id rendered from a clock value is a non-empty string of decimal digits with no leading zero unless the value is 0 |
| `MessageTypes.DecimalRoundTrip` | App.tsx:55 | reading back the decimal id rendered from a clock value gives that clock value |
| `MessageTypes.DecimalStringInjective` | App.tsx:55 | two clock values give the same id string iff they are equal |
| `ChatService.ChatStore.SaveChatHistory` | src/services/ChatService.ts:11-19 | a write overwrites the record with the whole list; a rejected write reports failure and keeps the old record |
| `ChatService.ChatStore.LoadChatHistory` | src/services/ChatService.ts:21-37 | never fails: the stored list, or the empty list when there is no record or it cannot be read or parsed |
| `ChatService.ChatStore.ClearChatHistory` | src/services/ChatService.ts:39-46 | a delete removes the record; a rejected delete reports failure and keeps it |
| `ChatService.SaveThenLoad` | src/services/ChatService.ts:11-37 | a list that was saved is loaded back unchanged |
| `ChatApp.BotResponse` | App.tsx:98-107 | the reply is as long as template `k`'s two parts plus the user's text, begins with the template's opening and ends with its closing |
| `ChatApp.TemplateQuotes` | App.tsx:99-105 | every template puts a double quote right before and right after the user's text |
| `ChatApp.BotResponseQuotesInput` | App.tsx:98-107 | whichever of the five templates is drawn, the reply contains the user's text verbatim in double quotes |
| `ChatApp.BotResponseRoundTrip` | App.tsx:98-107 | the user's text can be cut back out of the reply, whole and unchanged |
| `ChatApp.UserMessage` | App.tsx:54-60 | the new message has sender user, status sent, the given text and no retry count |
| `ChatApp.BotMessage` | App.tsx:77-83 | the reply message has sender bot, status sent, and a text from which the user's text is recovered |
| `ChatApp.ReplyIdDiffersFromQuestion` | App.tsx:55-78 | with a clock that does not run backwards, the reply's id (clock + 1) differs from its question's id |
| `ChatApp.FindMessageIndex` | App.tsx:110 | `findIndex`: the first index whose id matches, or none exactly when no message has the id |
| `ChatApp.RetryText` | App.tsx:109-113 | a text to re-send is always that of a user message carrying the id; a list holding only bot messages gives nothing to re-send |
| `ChatApp.RetryUsesFirstMatch` | App.tsx:109-117 | retry looks only at the first message with the id: its text when the user wrote it, nothing when the bot did |
| `ChatApp.RetryUnknownId` | App.tsx:110-111 | an id no message carries gives nothing to re-send |
| `ChatApp.ChatEngine.constructor` | App.tsx:27-30 | initial state: no messages, not loading, no error, not typing |
| `ChatApp.ChatEngine.LoadChatHistory` | App.tsx:36-43 | the list becomes whatever the store yields, the flags are untouched, and nothing fails |
| `ChatApp.ChatEngine.SaveChatHistory` | App.tsx:45-51 | saves the list and swallows a rejected write |
| `ChatApp.ChatEngine.SendMessage` | App.tsx:53-75 | appends exactly one user message (sent, given text) after the unchanged old list; sets loading, clears the error, enters typing even when the save fails; the pending reply carries the new list |
| `ChatApp.ChatEngine.DeliverBotReply` | App.tsx:75-89 | the list becomes the send-time list plus one bot message, whatever the current list is; typing and loading end; the error is untouched |
| `ChatApp.ChatEngine.Retry` | App.tsx:109-117 | an unknown id or a bot message changes nothing; a user message is re-sent exactly as `SendMessage` would, appending a new message, whatever `isLoading` is |
| `ChatApp.ChatEngine.ClearError` | App.tsx:119-121 | the error becomes empty and nothing else changes |
| `ChatApp.ChatEngine.ClearChat` | App.tsx:123-132 | on success the list and the record are empty and the error clears; on failure the list and record stay and the error is "Failed to clear chat history" |
| `ChatApp.ReplyAfterClearRestoresHistory` | App.tsx:62-86 | a clear between a send and its reply is undone: the whole earlier list comes back with the question and the reply |
| `ChatApp.InterleavedSendsDropFirstReply` | App.tsx:62-86 | two sends before either reply, with the replies arriving in send order, end with both questions and only the second reply |
| `ChatApp.InterleavedSendsReverseOrderDropSecond` | App.tsx:62-86 | two sends whose replies arrive in reverse order end with the first question and its reply only |
| `ChatInput.Trim` | src/components/ChatInput.tsx:26 | the trimmed text is no longer than the input and, when non-empty, neither starts nor ends with white space |
| `ChatInput.TrimStart` | src/components/ChatInput.tsx:26 | the result is a suffix of the input, everything dropped is white space, and it does not start with white space |
| `ChatInput.TrimEnd` | src/components/ChatInput.tsx:26 | the result is a prefix of the input, everything dropped is white space, and it does not end with white space |
| `ChatInput.TrimmedFromParts` | src/components/ChatInput.tsx:26 | removing leading and then trailing white space yields the trimmed form |
| `ChatInput.TrimCharacterized` | src/components/ChatInput.tsx:26 | `trim` returns the infix left after removing the white space at both ends |
| `ChatInput.TrimEmptyIff` | src/components/ChatInput.tsx:26-27 | the trimmed text is empty iff the input is all white space |
| `ChatInput.TrimmedUnique` | src/components/ChatInput.tsx:26 | only one string is the trimmed form of a given input |
| `ChatInput.TrimIdempotent` | src/components/ChatInput.tsx:26 | trimming twice is trimming once |
| `ChatInput.SendButtonDisabled` | src/components/ChatInput.tsx:116 | the send button is disabled iff the input is all white space or a reply is loading |
| `ChatInput.ClampHeight` | src/components/ChatInput.tsx:65 | the height lies in [40, 120]: below 40 gives 40, above 120 gives 120, otherwise unchanged |
| `ChatInput.IsNearLimit` | src/components/ChatInput.tsx:69-70 | the counter is due iff the text is longer than 800 characters (0.8 of 1000) |
| `ChatInput.CharacterCounter` | src/components/ChatInput.tsx:101-105 | the "length/1000" counter is shown iff the text is longer than 800 characters |
| `ChatInput.InputBox.constructor` | src/components/ChatInput.tsx:21-22 | the box starts empty and 40 high |
| `ChatInput.InputBox.ChangeText` | src/components/ChatInput.tsx:89 | typing replaces the text and keeps the height |
| `ChatInput.InputBox.HandleSend` | src/components/ChatInput.tsx:25-51 | blank text or loading changes nothing and sends nothing; otherwise the trimmed text is sent, the box is emptied and 40 high, and a rejected send restores the trimmed text |
| `ChatInput.KeyTriggersSend` | src/components/ChatInput.tsx:54 | a key press with Shift held never sends, a key other than Enter never sends, and Enter without Shift sends |
| `ChatInput.InputBox.HandleKeyPress` | src/components/ChatInput.tsx:53-61 | Enter without Shift behaves as `handleSend`: a blocked send changes nothing; otherwise the trimmed text is dispatched, the height returns to 40 and the box is emptied, or refilled with the trimmed text if the send is rejected; any other key, or Enter with Shift, changes nothing |
| `ChatInput.InputBox.HandleContentSizeChange` | src/components/ChatInput.tsx:63-67 | the height becomes the clamped content height and the text is kept |
| `ChatInput.SubmitInput` | src/components/ChatInput.tsx:25-51 | wired to the engine: a blocked send changes neither the box (text and height) nor the engine (list, flags, stored record); otherwise the engine gains the trimmed text as a user message, is loading and typing with no error, saves the new list when the write succeeds, and the box is left empty at height 40 |
| `MessageList.IsTruthy` | src/components/VirtualizedMessageList.tsx:42 | an error adds a row exactly when it is present and non-empty |
| `MessageList.ListData` | src/components/VirtualizedMessageList.tsx:37-46 | the messages come first in order; the typing item is present iff typing and then right after them; an error item with the error text is present iff the error is a non-empty string and then last; the length is the message count plus one for each extra item |
| `MessageList.BuildListData` | src/components/VirtualizedMessageList.tsx:37-46 | the copy-then-push memo yields exactly that list |
| `MessageList.ItemCountOfListData` | src/components/VirtualizedMessageList.tsx:52-54 | the list reports one row per message, one more while typing and one more for a non-empty error |
| `MessageList.GetItem` | src/components/VirtualizedMessageList.tsx:48-50 | the item returned is the one at the requested index |
| `MessageList.ItemsOfListData` | src/components/VirtualizedMessageList.tsx:37-50 | fetching from the assembled list yields the message at that position, then the typing row right after the messages, then the error row |
| `MessageList.KeyExtractor` | src/components/VirtualizedMessageList.tsx:66-68 | a message row's key is its id, the typing item's key is "typing" and the error item's key is "error" |
| `MessageList.KeysDistinct` | src/components/VirtualizedMessageList.tsx:37-68 | when message ids are distinct and avoid "typing" and "error", every row has its own key |
| `MessageList.GetItemLayout` | src/components/VirtualizedMessageList.tsx:56-63 | each row is 80 high, carries its index, and starts where the previous row ends |
| `MessageList.LayoutLocatesRow` | src/components/VirtualizedMessageList.tsx:56-63 | every position within the list's total height lies in the band of exactly one row, the one at index `y / 80`, and that index is below the item count |
| `ChatHeader.StatusText` | src/components/ChatHeader.tsx:46-54 | "Bot is typing..." while typing; otherwise "Start a conversation" with no messages and "Online" with messages |
| `ChatHeader.StatusTextSeparates` | src/components/ChatHeader.tsx:46-54 | two states show the same status iff both are typing, or both are idle and both empty or both non-empty; typing wins over emptiness |
| `ChatHeader.ConfirmClearChat` | src/components/ChatHeader.tsx:20-44 | Cancel or dismissing changes nothing; only Clear runs the engine's clear, with its success and failure outcomes; whatever the choice, the loading and typing flags stay as they were |
| `ResponsiveUtils.GetScreenDimensions` | src/utils/ResponsiveUtils.ts:19-31 | small iff width < 375, tablet iff width >= 768, landscape iff width > height; never both small and tablet |
| `ResponsiveUtils.DimensionsOnChange` | src/utils/ResponsiveUtils.ts:94-101 | the listener's record keeps the window's size and pixel ratio and sets small, tablet and landscape by the same thresholds |
| `ResponsiveUtils.ListenerAgreesWithGetScreenDimensions` | src/utils/ResponsiveUtils.ts:93-101 | the change listener classifies a window exactly as `getScreenDimensions` does |
| `ResponsiveUtils.GetResponsivePadding` | src/utils/ResponsiveUtils.ts:33-42 | the base times 0.8 on small screens, 1.2 on tablets, 1 otherwise |
| `ResponsiveUtils.GetResponsiveFontSize` | src/utils/ResponsiveUtils.ts:44-53 | the base times 0.9 on small screens, 1.1 on tablets, 1 otherwise |
| `ResponsiveUtils.GetInputHeight` | src/utils/ResponsiveUtils.ts:66-75 | the base times 0.9 on small screens, 1.1 on tablets, 1 otherwise |
| `ResponsiveUtils.ScalingFollowsWidth` | src/utils/ResponsiveUtils.ts:26-75 | for a non-negative base, a wider window never gets smaller padding, font size or input height |
| `ResponsiveUtils.DefaultScreenKeepsBase` | src/utils/ResponsiveUtils.ts:33-75 | for widths in [375, 768) all three helpers return the base unchanged |
| `ResponsiveUtils.GetMaxMessageWidth` | src/utils/ResponsiveUtils.ts:55-64 | one of "60%", "75%", "85%", and "60%" on tablets |
| `ResponsiveUtils.MaxMessageWidthByWidth` | src/utils/ResponsiveUtils.ts:55-64 | by width: from 768 "60%", above 400 "75%", otherwise "85%" |
| `ResponsiveUtils.GetKeyboardVerticalOffset` | src/utils/ResponsiveUtils.ts:77-86 | 100 on a tablet, otherwise 60 on a small screen and 80 on any other |
| `ResponsiveUtils.KeyboardOffsetFollowsWidth` | src/utils/ResponsiveUtils.ts:77-86 | the offset never shrinks as the window widens: 60 below 375, 80 from 375 up to 768, 100 from 768 |
| `ResponsiveUtils.ShouldUpdateComponent` | src/utils/ResponsiveUtils.ts:111-117 | true iff some listed key reads differently in the previous and next props |
| `ResponsiveUtils.NoKeysNoUpdate` | src/utils/ResponsiveUtils.ts:116 | with no keys to check the answer is false |
| `ResponsiveUtils.SamePropsNoUpdate` | src/utils/ResponsiveUtils.ts:116 | identical props never ask for an update |

## Left out

- Timers: the reply delay (App.tsx:75-89), the keyboard dismissal (src/components/ChatInput.tsx:40-42) and the Enter delay (src/components/ChatInput.tsx:57-59). The reply is an explicit step; the other two run at once.
- Randomness: `Math.random` for the template (App.tsx:106) becomes a parameter below 5. The random delay is not modelled.
- Clock and locale: `Date.now()` and `new Date()` are parameters. A timestamp is a millisecond count. Date formatting in the message bubble is not part of this model.
- Storage: AsyncStorage and the JSON encoding are not modelled. The store holds the list itself, so the conversion of timestamps to ISO strings and back is not captured.
- `ChatService.sendMessage` (src/services/ChatService.ts:48-61) is random and timer-driven, and App.tsx never calls it.
- The `catch` of `handleSendMessage` (App.tsx:91-95) is not modelled: no statement in its `try` can throw. The same holds for the header's error alert (src/components/ChatHeader.tsx:35-38), because `handleClearChat` catches its own failure.
- React scheduling: every handler reads the list as of the latest update, as after a re-render. Two calls within one render would both read the same list; that is not captured. The mount-time load is a step that may run at any point.
- Interleaving at storage awaits: `SendMessage`, `DeliverBotReply`, `ClearChat` and `LoadChatHistory` each run as one atomic step across their storage call (App.tsx:38, 69, 87, 125). Another handler or a reply landing during that await is not modelled. For example, an earlier reply landing while a send is saving leaves typing on and loading off, and a reply landing while a clear awaits `removeItem` is then wiped by `setMessages([])`.
- Alerts and native input behaviour: the failure alert of `handleSend`, `inputRef.clear()`, the `maxLength` and `editable` props of the text input, and the keyboard.
- Rendering: `renderItem`, the auto-scroll effect, the empty-state view, styles, animation, the typing indicator, the error banner and the message bubble.
- String length counts Unicode scalar values. JavaScript counts UTF-16 code units, so the two differ for characters outside the Basic Multilingual Plane.
- Numbers: heights, widths and scale factors are exact reals. Floating-point rounding and NaN are not modelled.
- `ResponsiveUtils.ShouldUpdateComponent`: a key holding `undefined` is the same as an absent key, and `NaN !== NaN` is not captured.
- `debounce`, `throttle` and the `useResponsiveDimensions` hook's state and subscription are not modelled; only its listener's classification is (src/utils/ResponsiveUtils.ts:89-136).
- The React context provider (src/context/ChatContext.tsx) is plumbing only.
- The optional `type` and `error` fields of `Message` are used only for the typing and error rows. They are modelled as `MessageList.ListItem` instead.
